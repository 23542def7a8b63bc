/** Digest-pinned charts: the cached file looked for and the reference pulled mean the same chart. */
module LookupAgreement {
  import opened Wrappers
  import opened Text
  import opened References
  import opened Drift
  import opened ChartKeys

  // ---------- Charts given by URL ----------

  lemma BaseOfElement(p: string)
    requires NamesElement(p)
    ensures '/' !in Base(p) && Base(Base(p)) == Base(p)
  {
    BaseOfPlain(Base(p));
  }

  lemma BaseOfUrl(u: OciUrl)
    requires NamesElement(u.path) && u.path[0] == '/'
    ensures NamesElement(UrlString(u)) && Base(UrlString(u)) == Base(u.path)
  {
    var name := u.path[1..];
    var dir := OCI + u.authority;
    assert u.path == "" + "/" + name && UrlString(u) == dir + "/" + name;
    assert name[|name| - 1] == u.path[|u.path| - 1];
    BaseAfterSlash("", name);
    BaseAfterSlash(dir, name);
    assert UrlString(u)[|UrlString(u)| - 1] == u.path[|u.path| - 1];
  }

  lemma UrlPlan(chart: ChartSpec, u: OciUrl, v: string, inUrl: string, digest: string)
    requires IsOCI(chart.url) && AcceptsDigest(chart)
    requires ResolveOCI(chart.url) == Ok((u, v, inUrl))
    requires ResolveEffectiveDigest(inUrl, chart.digest) == Ok(digest) && digest != ""
    ensures Plan(chart) == Ok(LookFor(DigestFile(Base(u.path), digest)))
  {}

  lemma UrlRequest(chart: ChartSpec, before: PullSettings, u: OciUrl, v: string, inUrl: string, digest: string)
    requires IsOCI(chart.url)
    requires ResolveOCI(chart.url) == Ok((u, v, inUrl))
    requires ResolveEffectiveDigest(inUrl, chart.digest) == Ok(digest) && digest != ""
    ensures Request(chart, before) == Ok(PullRequest(UrlString(u) + "@" + digest, before.(version := v)))
  {
    assert chart.url != "";
    assert RequestUrl(chart, before) == Ok(PullRequest(UrlString(u) + "@" + digest, before.(version := v)));
  }

  /** A digest in the URL, in the spec or in both: the file looked for is the one Helm writes for the
      reference pulled exactly if the digest has one ':'. */
  lemma UrlLookupMatchesPullIff(chart: ChartSpec, before: PullSettings, u: OciUrl, v: string, inUrl: string,
                                digest: string)
    requires IsOCI(chart.url) && AcceptsDigest(chart)
    requires ResolveOCI(chart.url) == Ok((u, v, inUrl))
    requires ResolveEffectiveDigest(inUrl, chart.digest) == Ok(digest)
    requires NamesElement(u.path) && u.path[0] == '/' && '/' !in digest && ':' in digest
    ensures Plan(chart).Ok? && Plan(chart).value.LookFor? && Request(chart, before).Ok?
    ensures Plan(chart).value.file == HelmDigestFile(Request(chart, before).value.ref) <==>
            IndexOf(digest, ':') == LastIndexOf(digest, ':')
  {
    UrlPlan(chart, u, v, inUrl, digest);
    UrlRequest(chart, before, u, v, inUrl, digest);
    BaseOfUrl(u);
    BaseOfElement(u.path);
    FileRulesAgreeIff(UrlString(u), Base(u.path), digest);
  }

  lemma AtDigest(u: OciUrl, digest: string)
    requires digest != ""
    ensures UrlString(u) + "@" + digest == UrlString(u.(path := Print(Reference(u.path, "", digest))))
  {}

  /** The reference pulled names the same repository and digest, and no version. */
  lemma UrlPullKeepsDigest(chart: ChartSpec, before: PullSettings, u: OciUrl, v: string, inUrl: string, digest: string)
    requires IsOCI(chart.url)
    requires ResolveOCI(chart.url) == Ok((u, v, inUrl))
    requires ResolveEffectiveDigest(inUrl, chart.digest) == Ok(digest)
    requires u.path != "" && u.path[0] == '/' && digest != ""
    ensures ResolveOCI(Request(chart, before).value.ref) == Ok((u, "", digest)) <==> '@' !in digest && ':' !in u.path
  {
    var printed := Print(Reference(u.path, "", digest));
    UrlRequest(chart, before, u, v, inUrl, digest);
    AtDigest(u, digest);
    RebuiltReferenceIsFixpoint(chart.url, digest);
  }

  // ---------- Charts given by repository and name ----------

  lemma TrimKeepsOthers(s: string, c: char)
    requires !IsSpace(c)
    ensures c in s <==> c in TrimSpace(s)
  {
    TrimLeftKeeps(s, c);
    TrimRightKeeps(TrimLeft(s), c);
  }

  lemma {:induction false} TrimLeftKeeps(s: string, c: char)
    requires !IsSpace(c)
    ensures c in s <==> c in TrimLeft(s)
  {
    if s != "" && IsSpace(s[0]) {
      TrimLeftKeeps(s[1..], c);
    }
  }

  lemma {:induction false} TrimRightKeeps(s: string, c: char)
    requires !IsSpace(c)
    ensures c in s <==> c in TrimRight(s)
  {
    if s != "" && IsSpace(s[|s| - 1]) {
      TrimRightKeeps(s[..|s| - 1], c);
    }
  }

  lemma BaseOfRepositoryReference(repository: string, name: string)
    requires NamesElement(name)
    ensures NamesElement(TrimSlash(repository) + "/" + name)
    ensures Base(TrimSlash(repository) + "/" + name) == Base(name)
  {
    var dir := TrimSlash(repository);
    BaseAfterSlash(dir, name);
    assert (dir + "/" + name)[|dir| + |name|] == name[|name| - 1];
  }

  /** By repository and name, the reference trims blanks around the digest but the file name does not:
      they agree exactly for a digest without blanks around it. */
  lemma RepositoryLookupMatchesPullIff(chart: ChartSpec, before: PullSettings)
    requires chart.url == "" && IsOCI(chart.repository) && NamesElement(chart.name) && WellFormedDigest(chart.digest)
    ensures Plan(chart).Ok? && Plan(chart).value.LookFor? && Request(chart, before).Ok?
    ensures Plan(chart).value.file == HelmDigestFile(Request(chart, before).value.ref) <==>
            TrimSpace(chart.digest) == chart.digest
  {
    var d, t := chart.digest, TrimSpace(chart.digest);
    var ref := TrimSlash(chart.repository) + "/" + chart.name;
    BaseOfRepositoryReference(chart.repository, chart.name);
    TrimKeepsOthers(d, ':');
    TrimKeepsOthers(d, '/');
    OurRule(chart.name, d);
    HelmsRule(ref, t);
    assert Request(chart, before).value.ref == ref + "@" + t;
    assert Plan(chart).value.file == DashedAt(Base(chart.name), d, IndexOf(d, ':'));
  }

  /** A repository URL and the place of a chart below it. */
  predicate Repository(repository: string, host: string, dir: string) {
    repository == UrlString(OciUrl(host, dir)) && host != "" && '/' !in host && ValidPort(host) &&
    (dir == "" || dir[0] == '/') && '@' !in dir && ':' !in dir
  }

  lemma TrimmedRepository(repository: string, host: string, dir: string)
    requires Repository(repository, host, dir)
    ensures TrimSlash(repository) == OCI + host + TrimSlash(dir)
  {}

  lemma PrintedPath(dir: string, name: string, digest: string)
    requires dir == "" || dir[0] == '/'
    ensures var r := Reference(TrimSlash(dir) + "/" + name, "", digest);
            Print(r) != "" && Print(r)[0] == '/' &&
            Print(r) == if digest == "" then r.base else r.base + "@" + digest
  {}

  lemma RepositoryRequest(chart: ChartSpec, before: PullSettings, host: string, dir: string)
    requires chart.url == "" && Repository(chart.repository, host, dir)
    ensures Request(chart, before).Ok?
    ensures Request(chart, before).value.ref ==
            UrlString(OciUrl(host, Print(Reference(TrimSlash(dir) + "/" + chart.name, "", TrimSpace(chart.digest)))))
  {
    var t := TrimSpace(chart.digest);
    var path := TrimSlash(dir) + "/" + chart.name;
    TrimmedRepository(chart.repository, host, dir);
    PrintedPath(dir, chart.name, t);
    AddPath(host, TrimSlash(dir), chart.name);
    AddDigest(host, path, t);
  }

  lemma AddPath(host: string, dir: string, name: string)
    ensures (OCI + host + dir) + "/" + name == OCI + host + (dir + "/" + name)
  {}

  lemma AddDigest(host: string, path: string, digest: string)
    ensures (OCI + host + path) + "@" + digest == OCI + host + (path + "@" + digest)
  {}

  /** The reference pulled names the chart below the repository, and the digest without blanks around it. */
  lemma RepositoryPullKeepsDigest(chart: ChartSpec, before: PullSettings, host: string, dir: string)
    requires chart.url == "" && Repository(chart.repository, host, dir)
    requires '@' !in chart.name && ':' !in chart.name && '@' !in chart.digest
    ensures Request(chart, before).Ok?
    ensures ResolveOCI(Request(chart, before).value.ref) ==
            Ok((OciUrl(host, TrimSlash(dir) + "/" + chart.name), "", TrimSpace(chart.digest)))
  {
    var r := Reference(TrimSlash(dir) + "/" + chart.name, "", TrimSpace(chart.digest));
    RepositoryRequest(chart, before, host, dir);
    PrintedPath(dir, chart.name, TrimSpace(chart.digest));
    TrimKeepsOthers(chart.digest, '@');
    ParsePrinted(OciUrl(host, Print(r)));
    PrintThenSplitIff(r);
  }

  // ---------- Which specs have their digest honoured ----------

  predicate AsksForDigest(ref: string, digest: string) {
    IsOCI(ref) && |ref| > |digest| && ref[|ref| - |digest| - 1..] == "@" + digest
  }

  lemma EndsInDigest(x: string, digest: string)
    requires IsOCI(x)
    ensures AsksForDigest(x + "@" + digest, digest)
  {}

  lemma ReferenceIsOCI(repository: string, name: string)
    requires IsOCI(repository)
    ensures IsOCI(TrimSlash(repository) + "/" + name)
  {}

  /** An accepted digest is part of what is pulled exactly if the chart is not given by a plain URL: next
      to an `oci://` repository, a plain URL passes the digest check but the digest is not used. */
  lemma DigestHonouredIff(chart: ChartSpec, before: PullSettings)
    requires AcceptsDigest(chart) && chart.digest != "" && TrimSpace(chart.digest) == chart.digest
    requires Request(chart, before).Ok?
    ensures AsksForDigest(Request(chart, before).value.ref, chart.digest) <==> chart.url == "" || IsOCI(chart.url)
  {
    if chart.url == "" {
      ReferenceIsOCI(chart.repository, chart.name);
      EndsInDigest(TrimSlash(chart.repository) + "/" + chart.name, chart.digest);
    } else if IsOCI(chart.url) {
      EndsInDigest(UrlString(ResolveOCI(chart.url).value.0), chart.digest);
    }
  }

  /** With a plain URL, neither the lookup nor the pull depends on the digest. */
  lemma PlainUrlIgnoresDigest(chart: ChartSpec, before: PullSettings)
    requires AcceptsDigest(chart) && chart.url != "" && !IsOCI(chart.url)
    ensures Plan(chart) == Plan(chart.(digest := "")) && Request(chart, before) == Request(chart.(digest := ""), before)
  {}

  /** A digest the API admits. */
  const ZERO_DIGEST := SHA256 + ":" + seq(64, i => '0')

  lemma ZeroDigestIsAdmitted()
    ensures Sha256Digest(ZERO_DIGEST)
  {
    assert ZERO_DIGEST[..6] == SHA256 && ZERO_DIGEST[6] == ':' && |ZERO_DIGEST| == 71;
    assert ZERO_DIGEST[7..] == seq(64, i => '0');
  }

  /** Such a spec: an HTTP URL, an OCI repository and an admitted digest. */
  lemma AcceptedDigestCanBeIgnored(before: PullSettings)
    ensures var chart := ChartSpec("oci://r", "c", "", "http://h/c.tgz", ZERO_DIGEST);
            Sha256Digest(chart.digest) && AcceptsDigest(chart) &&
              Request(chart, before) == Ok(PullRequest(chart.url, before))
  {
    var url := "http://h/c.tgz";
    ZeroDigestIsAdmitted();
    assert url[0] == 'h' && OCI[0] == 'o';
    assert "oci://r"[..6] == OCI;
  }
}
