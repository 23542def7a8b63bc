/**
 Which cached file a chart is looked up as, and which reference is pulled when it is missing. The two
 are computed by different code; the lemmas say when they mean the same chart.
 */
module ChartKeys {
  import opened Wrappers
  import opened Text
  import opened References
  import opened Drift

  datatype PullError =
    | BadReference(ref: RefError)
    | DigestNeedsOCI
    | NoChartName
    | NoChartRepository

  // ---------- Names ----------

  /** URL and spec may both carry a digest, but then the same. */
  function ResolveEffectiveDigest(urlDigest: string, specDigest: string): (r: Result<string, PullError>)
    ensures r.Err? <==> urlDigest != specDigest && urlDigest != "" && specDigest != ""
    ensures r.Ok? && urlDigest != "" ==> r.value == urlDigest
    ensures r.Ok? && specDigest != "" ==> r.value == specDigest
    ensures r.Ok? && r.value != "" ==> r.value == urlDigest || r.value == specDigest
  {
    if specDigest != "" && urlDigest != "" && urlDigest != specDigest then Err(BadReference(DigestMismatch))
    else if urlDigest != "" then Ok(urlDigest)
    else Ok(specDigest)
  }

  function ResolveOCIChartRef(repository: string, name: string, digest: string): string {
    var ref := TrimSlash(repository) + "/" + name;
    var d := TrimSpace(digest);
    if d != "" then ref + "@" + d else ref
  }

  /** The file, directly in the cache, of a chart by name and version. */
  function ChartFile(name: string, version: string): string {
    Base(name + "-" + version + ".tgz")
  }

  lemma PlainChartFile(name: string, version: string)
    requires '/' !in name && '/' !in version
    ensures ChartFile(name, version) == name + "-" + version + ".tgz"
  {}

  /** The file of a digest-pinned chart; none if the name is empty or the digest has no algorithm. */
  function DigestFile(chartName: string, digest: string): string {
    if chartName == "" then ""
    else
      match Cut(digest, ':')
      case None => ""
      case Some((algo, hash)) => Base(chartName) + "@" + algo + "-" + hash + ".tgz"
  }

  /** What Helm makes of the last element of a reference: its last ':' becomes '-'. */
  function HelmsName(element: string): string {
    var (name, hash) := CutLast(element, ':');
    name + "-" + hash + ".tgz"
  }

  /** The file Helm writes for a reference pulled by digest. */
  function HelmDigestFile(ref: string): string {
    HelmsName(Base(ref))
  }

  // ---------- Lookup and pull ----------

  /** What `PullAndLoadChart` does first: ask for the latest chart, or look for a file ("" for none). */
  datatype Lookup = PullLatest | LookFor(file: string)

  function PathOfUrl(url: string): string {
    var i := IndexOf(url, ':');
    var rest := if i != -1 && i + 3 <= |url| && url[i..i + 3] == "://" then url[i + 3..] else url;
    rest[PathStart(rest)..]
  }

  predicate AcceptsDigest(chart: ChartSpec) {
    chart.digest == "" || IsOCI(chart.url) || IsOCI(chart.repository)
  }

  function PlanUrl(chart: ChartSpec): Result<Lookup, PullError> {
    match ResolveOCI(chart.url)
    case Err(e) => Err(BadReference(e))
    case Ok((u, v, urlDigest)) =>
      var digest :- ResolveEffectiveDigest(urlDigest, chart.digest);
      if digest != "" then Ok(LookFor(DigestFile(Base(u.path), digest)))
      else if v == "" then Ok(PullLatest)
      else Ok(LookFor(ChartFile(Base(u.path), v)))
  }

  function Plan(chart: ChartSpec): Result<Lookup, PullError> {
    if !AcceptsDigest(chart) then Err(DigestNeedsOCI)
    else if chart.url == "" && (chart.version == "" || chart.version == DEVEL) && chart.digest == "" then Ok(PullLatest)
    else if IsOCI(chart.url) then PlanUrl(chart)
    else if chart.url != "" then Ok(LookFor(Base(PathOfUrl(chart.url))))
    else if chart.name == "" then Err(NoChartName)
    else if chart.repository == "" then Err(NoChartRepository)
    else if chart.digest != "" then Ok(LookFor(DigestFile(chart.name, chart.digest)))
    else Ok(LookFor(ChartFile(chart.name, chart.version)))
  }

  /** The fields `pullChart` sets on Helm's pull client, which keeps them between pulls. */
  datatype PullSettings = PullSettings(repoURL: string, version: string)

  datatype PullRequest = PullRequest(ref: string, settings: PullSettings)

  function RequestUrl(chart: ChartSpec, before: PullSettings): Result<PullRequest, PullError> {
    match ResolveOCI(chart.url)
    case Err(e) => Err(BadReference(e))
    case Ok((u, v, urlDigest)) =>
      var digest :- ResolveEffectiveDigest(urlDigest, chart.digest);
      var ref := if digest != "" then UrlString(u) + "@" + digest else UrlString(u);
      Ok(PullRequest(ref, before.(version := v)))
  }

  function Request(chart: ChartSpec, before: PullSettings): Result<PullRequest, PullError> {
    if chart.url == "" then
      if IsOCI(chart.repository) then
        Ok(PullRequest(ResolveOCIChartRef(chart.repository, chart.name, chart.digest),
          before.(version := chart.version)))
      else Ok(PullRequest(chart.name, PullSettings(chart.repository, chart.version)))
    else if IsOCI(chart.url) then RequestUrl(chart, before)
    else Ok(PullRequest(chart.url, before))
  }

  // ---------- The two file-name rules ----------

  /** Exactly one ':', and no separator of the parts around a digest. */
  predicate WellFormedDigest(d: string) {
    '/' !in d && '@' !in d && ':' in d && IndexOf(d, ':') == LastIndexOf(d, ':')
  }

  lemma BaseOfReference(ref: string, digest: string)
    requires NamesElement(ref) && '/' !in digest
    ensures Base(ref + "@" + digest) == Base(ref) + ("@" + digest)
  {
    var tail := "@" + digest;
    assert ref + "@" + digest == ref + tail;
    BaseAppend(ref, tail);
  }

  /** Helm's rule on a base name and a digest `algo:hash`. */
  lemma LastColonBecomesDash(base: string, digest: string, i: nat)
    requires i < |digest| && digest[i] == ':' && ':' !in digest[i + 1..]
    ensures CutLast(base + ("@" + digest), ':') == (base + "@" + digest[..i], digest[i + 1..])
  {
    var x, y := base + "@" + digest[..i], digest[i + 1..];
    var s := base + ("@" + digest);
    assert digest == digest[..i] + [':'] + y;
    assert s == x + [':'] + y;
    LastSeparator(x, ':', y);
    assert s[..|x|] == x && s[|x| + 1..] == y;
  }

  function DashedAt(base: string, d: string, i: nat): string
    requires i < |d|
  {
    base + "@" + d[..i] + "-" + d[i + 1..] + ".tgz"
  }

  lemma OurRule(name: string, digest: string)
    requires name != "" && ':' in digest
    ensures DigestFile(name, digest) == DashedAt(Base(name), digest, IndexOf(digest, ':'))
  {}

  lemma HelmsRule(ref: string, digest: string)
    requires NamesElement(ref) && '/' !in digest && ':' in digest
    ensures HelmDigestFile(ref + "@" + digest) == DashedAt(Base(ref), digest, LastIndexOf(digest, ':'))
  {
    BaseOfReference(ref, digest);
    DashAtLastColon(Base(ref), digest, LastIndexOf(digest, ':'));
  }

  lemma DashAtLastColon(base: string, digest: string, i: nat)
    requires i < |digest| && digest[i] == ':' && ':' !in digest[i + 1..]
    ensures HelmsName(base + ("@" + digest)) == DashedAt(base, digest, i)
  {
    LastColonBecomesDash(base, digest, i);
  }

  lemma SecondColon(base: string, d: string, i: nat, j: nat)
    requires i < j < |d| && d[i] == ':'
    ensures DashedAt(base, d, i) != DashedAt(base, d, j)
  {
    var x, y := base + "@" + d[..i], base + "@" + d[..j];
    var s, t := x + "-" + d[i + 1..] + ".tgz", y + "-" + d[j + 1..] + ".tgz";
    assert s[|x|] == '-';
    assert t[|x|] == y[|x|] == d[..j][i] == ':';
  }

  /** For a digest with a ':', the cached name and the name Helm writes for a reference ending in that
      name agree exactly if it is the only ':'. */
  lemma FileRulesAgreeIff(ref: string, name: string, digest: string)
    requires NamesElement(ref) && name != "" && Base(ref) == Base(name) && '/' !in digest && ':' in digest
    ensures DigestFile(name, digest) == HelmDigestFile(ref + "@" + digest) <==>
            IndexOf(digest, ':') == LastIndexOf(digest, ':')
  {
    var first, last := IndexOf(digest, ':'), LastIndexOf(digest, ':');
    OurRule(name, digest);
    HelmsRule(ref, digest);
    LastIndexAtLeast(digest, ':', first);
    if first < last {
      SecondColon(Base(name), digest, first, last);
    }
  }

  // ---------- SHA-256 digests ----------

  const SHA256 := "sha256"

  predicate IsHex(c: char) {
    '0' <= c <= '9' || 'a' <= c <= 'f'
  }

  /** The digests the API admits: `sha256:` and 64 hexadecimal digits. */
  predicate Sha256Digest(d: string) {
    |d| == 71 && d[..6] == SHA256 && d[6] == ':' && forall i | 7 <= i < 71 :: IsHex(d[i])
  }

  lemma Sha256Characters(d: string)
    requires Sha256Digest(d)
    ensures forall i | 0 <= i < |d| :: d[i] == ':' <==> i == 6
    ensures '/' !in d && '@' !in d && !HasSpaceAround(d) && ':' in d
  {}

  lemma Sha256IsWellFormed(d: string)
    requires Sha256Digest(d)
    ensures IndexOf(d, ':') == 6 && WellFormedDigest(d) && Cut(d, ':') == Some((SHA256, d[7..])) && TrimSpace(d) == d
  {}

  function Sha256File(base: string, hash: string): string {
    base + "@" + SHA256 + "-" + hash + ".tgz"
  }

  lemma Sha256FileInjective(b: string, h: string, b': string, h': string)
    requires |h| == |h'|
    ensures Sha256File(b, h) == Sha256File(b', h') <==> b == b' && h == h'
  {
    var x, x' := b + "@" + SHA256 + "-", b' + "@" + SHA256 + "-";
    var f, f' := x + h + ".tgz", x' + h' + ".tgz";
    if f == f' {
      assert |x| == |x'|;
      assert f[..|x|] == x && f'[..|x|] == x';
      assert f[|x|..|x| + |h|] == h && f'[|x|..|x| + |h|] == h';
      assert x[..|b|] == b && x'[..|b|] == b';
    }
  }

  lemma FileOfDigest(name: string, d: string)
    requires Sha256Digest(d) && name != ""
    ensures DigestFile(name, d) == Sha256File(Base(name), d[7..])
  {
    Sha256IsWellFormed(d);
  }

  lemma DigestFromHash(d: string, d': string)
    requires Sha256Digest(d) && Sha256Digest(d') && d[7..] == d'[7..]
    ensures d == d'
  {}

  /** The file of a SHA-256 digest fixes both the base name and the digest. */
  lemma DigestFileInjective(name: string, d: string, name': string, d': string)
    requires Sha256Digest(d) && Sha256Digest(d') && name != "" && name' != ""
    ensures DigestFile(name, d) == DigestFile(name', d') <==> Base(name) == Base(name') && d == d'
  {
    FileOfDigest(name, d);
    FileOfDigest(name', d');
    Sha256FileInjective(Base(name), d[7..], Base(name'), d'[7..]);
    if d[7..] == d'[7..] {
      DigestFromHash(d, d');
    }
  }
}
