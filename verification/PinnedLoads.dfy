/**
 Charts pinned to a digest, over whole histories of the cache: whatever was pulled before, by whom and
 from which registry, loading such a chart gives what a fresh pull by its digest gives.
 */
module PinnedLoads {
  import opened Wrappers
  import opened Text
  import opened References
  import opened Drift
  import opened ChartKeys
  import opened CacheProtocol
  import opened ChartClient
  import opened LookupAgreement
  import opened CacheRefinement
  import opened ConcurrentLoads

  // ---------- Content-addressed registries ----------

  /** Under the file name of a digest, whatever the chart's name, only the blob of that digest. */
  ghost function BlobsUnderDigestNames(blob: string -> Artifact): Served {
    (n: string, a: Artifact) =>
      forall name: string, d: string | name != "" && Sha256Digest(d) && n == DigestFile(name, d) :: a == blob(d)
  }

  ghost predicate IsDigestName(n: string) {
    exists name: string, d: string :: name != "" && Sha256Digest(d) && n == DigestFile(name, d)
  }

  predicate PullsByDigest(ref: string) {
    |ref| > 71 && Sha256Digest(ref[|ref| - 71..]) && AsksForDigest(ref, ref[|ref| - 71..])
  }

  /** What is assumed of Helm and the registries: a pull by digest leaves the blob of that digest under
      Helm's name for it, and no other pull leaves a file with a name of that form. */
  ghost predicate ContentAddressed(helm: HelmPull, blob: string -> Artifact) {
    ListsFileNames(helm) &&
    (forall i: nat, req: PullRequest, d: string
      | Sha256Digest(d) && AsksForDigest(req.ref, d) && helm(i, req).Deposited? ::
      helm(i, req) == Deposited([(HelmDigestFile(req.ref), blob(d))])) &&
    forall i: nat, req: PullRequest, f | helm(i, req).Deposited? && f in helm(i, req).files && IsDigestName(f.0) ::
      PullsByDigest(req.ref)
  }

  lemma AtDigestIsPlain(d: string)
    requires Sha256Digest(d)
    ensures NamesElement("@" + d) && Base("@" + d) == "@" + d
  {
    Sha256Characters(d);
    var tail := "@" + d;
    assert tail[|tail| - 1] == d[|d| - 1] && d[|d| - 1] in d;
    BaseOfPlain(tail);
  }

  lemma BaseOfPinnedDirectory(dir: string, d: string)
    requires Sha256Digest(d)
    ensures Base(dir + "/" + ("@" + d)) == "@" + d
  {
    AtDigestIsPlain(d);
    BaseAfterSlash(dir, "@" + d);
  }

  /** The last element of a reference that ends in a digest ends in it too. */
  lemma BaseOfPinned(x: string, d: string) returns (b: string)
    requires Sha256Digest(d) && x != ""
    ensures Base(x + "@" + d) == b + ("@" + d)
  {
    if x[|x| - 1] == '/' {
      var dir := x[..|x| - 1];
      BaseOfPinnedDirectory(dir, d);
      assert x + "@" + d == dir + "/" + ("@" + d);
      b := "";
      assert "" + ("@" + d) == "@" + d;
    } else {
      Sha256Characters(d);
      BaseOfReference(x, d);
      b := Base(x);
    }
  }

  /** Helm's name for a reference pulled by digest ends in that digest. */
  lemma HelmsFileOfDigest(ref: string, d: string) returns (b: string)
    requires Sha256Digest(d) && AsksForDigest(ref, d)
    ensures HelmDigestFile(ref) == Sha256File(b, d[7..])
  {
    var x := BeforeDigest(ref, d);
    b := BaseOfPinned(x, d);
    CutAtDigest(b, d);
  }

  lemma CutAtDigest(b: string, d: string)
    requires Sha256Digest(d)
    ensures CutLast(b + ("@" + d), ':') == (b + "@" + SHA256, d[7..])
  {
    Sha256Characters(d);
    LastColonBecomesDash(b, d, 6);
  }

  /** What stands before the digest. */
  lemma BeforeDigest(ref: string, d: string) returns (x: string)
    requires AsksForDigest(ref, d)
    ensures x != "" && ref == x + "@" + d
  {
    x := ref[..|ref| - |d| - 1];
    assert ref == x + ref[|x|..];
    assert ref == x + "@" + d;
    assert ref[0] == OCI[0];
  }

  /** A file Helm left under the name of a digest holds its blob. */
  lemma DepositedUnderDigestName(helm: HelmPull, blob: string -> Artifact, i: nat, req: PullRequest,
                                 f: (string, Artifact),
                                 name: string, d: string)
    requires ContentAddressed(helm, blob) && helm(i, req).Deposited? && f in helm(i, req).files
    requires name != "" && Sha256Digest(d) && f.0 == DigestFile(name, d)
    ensures f.1 == blob(d)
  {
    assert IsDigestName(f.0);
    var d' := DepositedByDigest(helm, blob, i, req, f);
    HelmsNameFixesDigest(req.ref, d', name, d);
  }

  lemma DepositedByDigest(helm: HelmPull, blob: string -> Artifact, i: nat, req: PullRequest, f: (string, Artifact))
    returns (d: string)
    requires ContentAddressed(helm, blob) && helm(i, req).Deposited? && f in helm(i, req).files && IsDigestName(f.0)
    ensures Sha256Digest(d) && AsksForDigest(req.ref, d) && f == (HelmDigestFile(req.ref), blob(d))
  {
    d := req.ref[|req.ref| - 71..];
  }

  lemma HelmsNameFixesDigest(ref: string, d': string, name: string, d: string)
    requires Sha256Digest(d') && AsksForDigest(ref, d')
    requires name != "" && Sha256Digest(d) && HelmDigestFile(ref) == DigestFile(name, d)
    ensures d == d'
  {
    var b := HelmsFileOfDigest(ref, d');
    SameDigest(name, d, b, d');
  }

  /** Such a Helm keeps blobs under digest names. */
  lemma RegistryIsHonest(helm: HelmPull, blob: string -> Artifact)
    requires ContentAddressed(helm, blob)
    ensures Honest(BlobsUnderDigestNames(blob), helm)
  {
    forall i: nat, req: PullRequest, f, name: string, d: string
        | helm(i, req).Deposited? && f in helm(i, req).files && name != "" && Sha256Digest(d) &&
          f.0 == DigestFile(name, d)
      ensures f.1 == blob(d)
    {
      DepositedUnderDigestName(helm, blob, i, req, f, name, d);
    }
  }

  lemma SameDigest(name: string, d: string, b: string, d': string)
    requires Sha256Digest(d) && Sha256Digest(d') && name != ""
    requires DigestFile(name, d) == Sha256File(b, d'[7..])
    ensures d == d'
  {
    FileOfDigest(name, d);
    Sha256FileInjective(Base(name), d[7..], b, d'[7..]);
    DigestFromHash(d, d');
  }

  // ---------- Pinned charts ----------

  /** The chart is pinned to digest `d` under the name `name`: in an OCI URL, in the spec next to one, or in
      the spec next to an OCI repository and a name. */
  predicate Pinned(chart: ChartSpec, name: string, d: string) {
    Sha256Digest(d) && AcceptsDigest(chart) && NamesElement(name) &&
    if chart.url == "" then IsOCI(chart.repository) && chart.name == name && chart.digest == d
    else
      IsOCI(chart.url) && ResolveOCI(chart.url).Ok? &&
      var (u, v, inUrl) := ResolveOCI(chart.url).value;
      NamesElement(u.path) && u.path[0] == '/' && name == Base(u.path) &&
        ResolveEffectiveDigest(inUrl, chart.digest) == Ok(d)
  }

  /** The plan and the request of a pinned chart. */
  lemma PinnedPlan(chart: ChartSpec, settings: PullSettings, name: string, d: string)
    requires Pinned(chart, name, d)
    ensures Plan(chart) == Ok(LookFor(DigestFile(name, d)))
    ensures Request(chart, settings).Ok? && AsksForDigest(Request(chart, settings).value.ref, d)
  {
    Sha256IsWellFormed(d);
    if chart.url == "" {
      ReferenceIsOCI(chart.repository, chart.name);
      EndsInDigest(TrimSlash(chart.repository) + "/" + chart.name, d);
    } else {
      var (u, v, inUrl) := ResolveOCI(chart.url).value;
      UrlPlan(chart, u, v, inUrl, d);
      UrlRequest(chart, settings, u, v, inUrl, d);
      EndsInDigest(UrlString(u), d);
    }
  }

  lemma DigestFileIsFileName(name: string, d: string)
    requires Sha256Digest(d) && NamesElement(name)
    ensures FileName(DigestFile(name, d)) && Base(DigestFile(name, d)) == DigestFile(name, d)
  {
    Sha256Characters(d);
    FileOfDigest(name, d);
    BaseOfElement(name);
    NoSlashInFile(Base(name), d[7..]);
    BaseOfPlain(Sha256File(Base(name), d[7..]));
  }

  lemma NoSlashInFile(base: string, hash: string)
    requires '/' !in base && '/' !in hash
    ensures FileName(Sha256File(base, hash))
  {}

  /** Every way to a loaded file of a pinned chart ends at the blob of its digest. */
  lemma PinnedArrival(blob: string -> Artifact, chart: ChartSpec, name: string, d: string, cache: Cache,
                      settings: PullSettings, p: Progress, helm: HelmPull, a: Artifact, loader: Artifact -> bool)
    requires CacheSound(BlobsUnderDigestNames(blob), cache) && ContentAddressed(helm, blob) && Pinned(chart, name, d)
    requires PlannedHit(chart, cache, p) ||
             (FetchedOnce(cache, p, helm, a) && Request(chart, settings) == Ok(p.pulls[0]))
    requires LoadResult(p, loader).Ok?
    ensures LoadResult(p, loader).value == blob(d)
  {
    PinnedPlan(chart, settings, name, d);
    if PlannedHit(chart, cache, p) {
      LoadsHit(DigestFile(name, d), cache, p, loader);
      DigestFileIsFileName(name, d);
    } else {
      LoadsFetched(cache, p, helm, a, loader);
    }
  }

  lemma DigestPull(blob: string -> Artifact, helm: HelmPull, i: nat, req: PullRequest, d: string)
    requires ContentAddressed(helm, blob) && Sha256Digest(d) && AsksForDigest(req.ref, d)
    ensures helm(i, req).Deposited? ==> helm(i, req) == Deposited([(HelmDigestFile(req.ref), blob(d))])
  {}

  /** Whatever sound cache a pinned load meets, it gives the chart that a fresh pull by the digest deposits. */
  lemma PinnedLoadIsFreshPull(blob: string -> Artifact, chart: ChartSpec, name: string, d: string, cache: Cache,
                              settings: PullSettings, helm: HelmPull, statOk: bool, loader: Artifact -> bool,
                              i: nat, anew: PullSettings)
    requires CacheSound(BlobsUnderDigestNames(blob), cache) && ContentAddressed(helm, blob) && Pinned(chart, name, d)
    ensures var r := LoadResult(PrepareStep(chart, cache, settings, helm, statOk), loader);
            var pull := Request(chart, anew);
            pull.Ok? &&
            (r.Ok? ==> r.value == blob(d)) &&
            (r.Ok? && helm(i, pull.value).Deposited? ==>
              |helm(i, pull.value).files| == 1 && r.value == helm(i, pull.value).files[0].1)
  {
    var p := PrepareStep(chart, cache, settings, helm, statOk);
    var a := HitOrFetched(chart, cache, settings, helm, statOk);
    PinnedPlan(chart, anew, name, d);
    DigestPull(blob, helm, i, Request(chart, anew).value, d);
    if LoadResult(p, loader).Ok? {
      PinnedArrival(blob, chart, name, d, cache, settings, p, helm, a, loader);
    }
  }

  // ---------- Histories ----------

  /** One earlier `PullAndLoadChart`, of any chart and with its own pull client. */
  datatype Call = Call(chart: ChartSpec, settings: PullSettings, helm: HelmPull, statOk: bool)

  function CacheAfter(cache: Cache, calls: seq<Call>): Cache {
    if calls == [] then cache
    else
      var c := calls[|calls| - 1];
      PrepareStep(c.chart, CacheAfter(cache, calls[..|calls| - 1]), c.settings, c.helm, c.statOk).cache
  }

  lemma {:induction false} HistoryKeepsBlobs(blob: string -> Artifact, cache: Cache, calls: seq<Call>)
    requires CacheSound(BlobsUnderDigestNames(blob), cache)
    requires forall c | c in calls :: ContentAddressed(c.helm, blob)
    ensures CacheSound(BlobsUnderDigestNames(blob), CacheAfter(cache, calls))
    decreases |calls|
  {
    if calls != [] {
      var n := |calls| - 1;
      var c := calls[n];
      HistoryKeepsBlobs(blob, cache, calls[..n]);
      assert c in calls;
      RegistryIsHonest(c.helm, blob);
      CallKeepsCacheSound(BlobsUnderDigestNames(blob), c.chart, CacheAfter(cache, calls[..n]), c.settings, c.helm,
        c.statOk);
    }
  }

  /** From an empty cache, after any calls for any charts, a pinned load that succeeds gives the blob of
      its digest. */
  lemma PinnedLoadAfterAnyHistory(blob: string -> Artifact, calls: seq<Call>, chart: ChartSpec, name: string, d: string,
                                  settings: PullSettings, helm: HelmPull, statOk: bool, loader: Artifact -> bool)
    requires forall c | c in calls :: ContentAddressed(c.helm, blob)
    requires ContentAddressed(helm, blob) && Pinned(chart, name, d)
    ensures var r := LoadResult(PrepareStep(chart, CacheAfter(map[], calls), settings, helm, statOk), loader);
            r.Ok? ==> r.value == blob(d)
  {
    HistoryKeepsBlobs(blob, map[], calls);
    PinnedLoadIsFreshPull(blob, chart, name, d, CacheAfter(map[], calls), settings, helm, statOk, loader, 0, settings);
  }

  // ---------- When a pinned load succeeds ----------

  /** The file looked for is the one Helm writes. */
  lemma PinnedNamesAgree(chart: ChartSpec, settings: PullSettings, name: string, d: string)
    requires Pinned(chart, name, d)
    ensures Request(chart, settings).Ok? && HelmDigestFile(Request(chart, settings).value.ref) == DigestFile(name, d)
  {
    PinnedPlan(chart, settings, name, d);
    Sha256IsWellFormed(d);
    if chart.url == "" {
      RepositoryLookupMatchesPullIff(chart, settings);
    } else {
      var (u, v, inUrl) := ResolveOCI(chart.url).value;
      UrlLookupMatchesPullIff(chart, settings, u, v, inUrl, d);
    }
  }

  /** A pinned load succeeds exactly when the file can be looked for, no directory is in its place, it is
      there or the pull works, and the loader accepts the blob. */
  lemma PinnedLoadSucceedsIff(blob: string -> Artifact, chart: ChartSpec, name: string, d: string, cache: Cache,
                              settings: PullSettings, helm: HelmPull, statOk: bool, loader: Artifact -> bool)
    requires CacheSound(BlobsUnderDigestNames(blob), cache) && ContentAddressed(helm, blob) && Pinned(chart, name, d)
    ensures Request(chart, settings).Ok?
    ensures var file := DigestFile(name, d);
            LoadResult(PrepareStep(chart, cache, settings, helm, statOk), loader).Ok? <==>
            statOk && loader(blob(d)) && !(file in cache && cache[file].Dir?) &&
            (file in cache || helm(0, Request(chart, settings).value).Deposited?)
  {
    var file := DigestFile(name, d);
    PinnedPlan(chart, settings, name, d);
    PinnedNamesAgree(chart, settings, name, d);
    DigestFileIsFileName(name, d);
    DigestPull(blob, helm, 0, Request(chart, settings).value, d);
    if file in cache && cache[file].File? {
      BlobInCache(blob, cache, name, d);
    }
    LoadSucceedsIff(file, blob(d), chart, cache, settings, helm, statOk, loader);
  }

  lemma BlobInCache(blob: string -> Artifact, cache: Cache, name: string, d: string)
    requires CacheSound(BlobsUnderDigestNames(blob), cache) && Sha256Digest(d) && name != ""
    requires DigestFile(name, d) in cache && cache[DigestFile(name, d)].File?
    ensures cache[DigestFile(name, d)] == File(Complete(blob(d)))
  {}

  // ---------- Concurrent pulls ----------

  /** The directory holds what the pull left. */
  ghost predicate LeftBy(outcome: PullOutcome, files: map<string, Content>) {
    outcome.Deposited? && |files| == |outcome.files| &&
    forall n | n in files :: exists f :: f in outcome.files && f.0 == n && files[n] == Complete(f.1)
  }

  /** Pull `i` asks this Helm for `requests(i)`. */
  ghost function LeavesOf(helm: HelmPull, requests: nat -> PullRequest): Leaves {
    (i: nat, files: map<string, Content>) => exists k: nat :: LeftBy(helm(k, requests(i)), files)
  }

  lemma PullsServeBlobs(helm: HelmPull, requests: nat -> PullRequest, blob: string -> Artifact)
    requires ContentAddressed(helm, blob)
    ensures PullsServe(LeavesOf(helm, requests), BlobsUnderDigestNames(blob))
  {
    RegistryIsHonest(helm, blob);
    forall i: nat, files: map<string, Content> | LeavesOf(helm, requests)(i, files)
      ensures AllServed(BlobsUnderDigestNames(blob), files)
    {
      var k: nat :| LeftBy(helm(k, requests(i)), files);
      LeftIsServed(BlobsUnderDigestNames(blob), helm, k, requests(i), files);
    }
  }

  lemma LeftIsServed(served: Served, helm: HelmPull, k: nat, req: PullRequest, files: map<string, Content>)
    requires Honest(served, helm) && LeftBy(helm(k, req), files)
    ensures AllServed(served, files)
  {}

  /** The same after any interleaving of concurrent pulls for any requests, finished or not. */
  lemma PinnedLoadAfterAnySchedule(blob: string -> Artifact, requests: nat -> PullRequest, s: System,
                                   schedule: Schedule, chart: ChartSpec, name: string, d: string,
                                   settings: PullSettings, helm: HelmPull, statOk: bool, loader: Artifact -> bool)
    requires CacheSound(BlobsUnderDigestNames(blob), s.cache) && forall i | i in s.pullers :: s.pullers[i].Ready?
    requires ContentAddressed(helm, blob) && Pinned(chart, name, d)
    requires Possible(LeavesOf(helm, requests), s, schedule)
    ensures var cache := After(LeavesOf(helm, requests), s, schedule).cache;
            var r := LoadResult(PrepareStep(chart, cache, settings, helm, statOk), loader);
            r.Ok? ==> r.value == blob(d)
  {
    StartIsSafe(BlobsUnderDigestNames(blob), s);
    PullsServeBlobs(helm, requests, blob);
    CacheSafety(LeavesOf(helm, requests), BlobsUnderDigestNames(blob), s, schedule);
    PinnedLoadIsFreshPull(blob, chart, name, d, After(LeavesOf(helm, requests), s, schedule).cache,
                          settings, helm, statOk, loader, 0, settings);
  }

  // ---------- Concurrent loads ----------

  /** Call `j` is for `charts(j)`. */
  datatype Clients = Clients(charts: nat -> ChartSpec, settings: nat -> PullSettings, helm: HelmPull)

  /** What call `j` asks Helm for; some request if its chart is not accepted, for then it does not pull. */
  function AskedBy(clients: Clients): nat -> PullRequest {
    (j: nat) =>
      var r := Request(clients.charts(j), clients.settings(j));
      if r.Ok? then r.value else PullRequest("", clients.settings(j))
  }

  /** Where a call starts: with its plan. */
  function StartOf(chart: ChartSpec): Reading {
    match Plan(chart)
    case Err(_) => GaveUp
    case Ok(PullLatest) => Latest
    case Ok(LookFor(file)) => if file == "" then Missed else Looking(Base(file))
  }

  /** A pinned call arrives at the file of its digest only. */
  ghost function PinnedNames(clients: Clients): Names {
    (j: nat, n: string) =>
      forall name: string, d: string | Pinned(clients.charts(j), name, d) :: n == DigestFile(name, d)
  }

  lemma PinnedCallLeaves(blob: string -> Artifact, clients: Clients, j: nat, files: map<string, Content>, n: string,
                         name: string, d: string)
    requires ContentAddressed(clients.helm, blob) && Pinned(clients.charts(j), name, d)
    requires LeavesOf(clients.helm, AskedBy(clients))(j, files) && n in files
    ensures n == DigestFile(name, d)
  {
    var req := AskedBy(clients)(j);
    var k: nat :| LeftBy(clients.helm(k, req), files);
    PinnedPlan(clients.charts(j), clients.settings(j), name, d);
    PinnedNamesAgree(clients.charts(j), clients.settings(j), name, d);
    DigestPull(blob, clients.helm, k, req, d);
  }

  lemma PinnedPullsName(blob: string -> Artifact, clients: Clients)
    requires ContentAddressed(clients.helm, blob)
    ensures PullsName(LeavesOf(clients.helm, AskedBy(clients)), PinnedNames(clients))
  {
    forall i: nat, files: map<string, Content>, n: string
      | LeavesOf(clients.helm, AskedBy(clients))(i, files) && n in files
      ensures PinnedNames(clients)(i, n)
    {
      forall name: string, d: string | Pinned(clients.charts(i), name, d) ensures n == DigestFile(name, d) {
        PinnedCallLeaves(blob, clients, i, files, n, name, d);
      }
    }
  }

  lemma PinnedStarts(clients: Clients, j: nat)
    requires StartOf(clients.charts(j)).Looking?
    ensures PinnedNames(clients)(j, StartOf(clients.charts(j)).file)
  {
    var file := StartOf(clients.charts(j)).file;
    forall name: string, d: string | Pinned(clients.charts(j), name, d) ensures file == DigestFile(name, d) {
      PinnedPlan(clients.charts(j), clients.settings(j), name, d);
      DigestFileIsFileName(name, d);
    }
  }

  predicate JustPlanned(r: Reading) {
    r.Latest? || r.Missed? || r.GaveUp? || r.Looking?
  }

  lemma StartIsPlan(chart: ChartSpec)
    ensures JustPlanned(StartOf(chart))
  {}

  lemma ClientsStartSound(blob: string -> Artifact, clients: Clients, c: Calls)
    requires CacheSound(BlobsUnderDigestNames(blob), c.sys.cache)
    requires forall i | i in c.sys.pullers :: c.sys.pullers[i].Ready?
    requires forall i | i in c.readings :: c.readings[i] == StartOf(clients.charts(i))
    ensures CallsSound(BlobsUnderDigestNames(blob), PinnedNames(clients), c)
  {
    var names := PinnedNames(clients);
    forall i | i in c.readings
      ensures JustPlanned(c.readings[i]) && (c.readings[i].Looking? ==> names(i, c.readings[i].file))
    {
      StartIsPlan(clients.charts(i));
      if c.readings[i].Looking? {
        PinnedStarts(clients, i);
      }
    }
    CallsStartSound(BlobsUnderDigestNames(blob), names, c);
  }

  /** Whole calls for any charts interleave in any way, from any cache with the right blobs under digest
      names: what a call pinned to a digest has loaded is the blob of that digest. */
  lemma PinnedLoadsInterleaved(blob: string -> Artifact, clients: Clients, c: Calls, moves: Moves, j: nat,
                               name: string, d: string)
    requires ContentAddressed(clients.helm, blob)
    requires CacheSound(BlobsUnderDigestNames(blob), c.sys.cache)
    requires forall i | i in c.sys.pullers :: c.sys.pullers[i].Ready?
    requires forall i | i in c.readings :: c.readings[i] == StartOf(clients.charts(i))
    requires CanRun(LeavesOf(clients.helm, AskedBy(clients)), c, moves)
    requires Pinned(clients.charts(j), name, d)
    ensures var end := AfterMoves(LeavesOf(clients.helm, AskedBy(clients)), c, moves);
            j in end.readings && end.readings[j].Loaded? ==> end.readings[j] == Loaded(DigestFile(name, d), blob(d))
  {
    var leaves, served := LeavesOf(clients.helm, AskedBy(clients)), BlobsUnderDigestNames(blob);
    var names := PinnedNames(clients);
    PullsServeBlobs(clients.helm, AskedBy(clients), blob);
    PinnedPullsName(blob, clients);
    ClientsStartSound(blob, clients, c);
    LoadsAreServed(leaves, served, names, c, moves);
    LoadedIsBlob(blob, clients, AfterMoves(leaves, c, moves), j, name, d);
  }

  lemma LoadedIsBlob(blob: string -> Artifact, clients: Clients, c: Calls, j: nat, name: string, d: string)
    requires CallsSound(BlobsUnderDigestNames(blob), PinnedNames(clients), c) && Pinned(clients.charts(j), name, d)
    ensures j in c.readings && c.readings[j].Loaded? ==> c.readings[j] == Loaded(DigestFile(name, d), blob(d))
  {
    if j in c.readings && c.readings[j].Loaded? {
      assert ReadingSound(BlobsUnderDigestNames(blob), PinnedNames(clients), c.sys.cache, j, c.readings[j]);
      BlobIsServed(blob, PinnedNames(clients), clients, j, c.readings[j], name, d);
    }
  }

  lemma BlobIsServed(blob: string -> Artifact, names: Names, clients: Clients, j: nat, r: Reading, name: string,
                     d: string)
    requires r.Loaded? && names == PinnedNames(clients) && Pinned(clients.charts(j), name, d)
    requires names(j, r.name) && BlobsUnderDigestNames(blob)(r.name, r.artifact)
    ensures r == Loaded(DigestFile(name, d), blob(d))
  {}
}
