/** One `PullAndLoadChart` without interference: what it pulls, what it loads, what it does to the cache. */
module CacheRefinement {
  import opened Wrappers
  import opened Text
  import opened Drift
  import opened ChartKeys
  import opened CacheProtocol
  import opened ChartClient

  // ---------- One call ----------

  predicate FileName(n: string) {
    n != "" && '/' !in n
  }

  /** Directory listings hold file names. */
  ghost predicate ListsFileNames(helm: HelmPull) {
    forall i, req, f | helm(i, req).Deposited? && f in helm(i, req).files :: FileName(f.0)
  }

  /** The file looked for was there, and nothing changed. */
  ghost predicate Hit(file: string, cache: Cache, p: Progress) {
    p.pulls == [] && p.cache == cache && p.result == Ok(Base(file)) && Base(file) in cache && cache[Base(file)].File?
  }

  ghost predicate PlannedHit(chart: ChartSpec, cache: Cache, p: Progress) {
    Plan(chart).Ok? && Plan(chart).value.LookFor? && Hit(Plan(chart).value.file, cache, p)
  }

  /** One pull left `a`, now the cached file arrived at, and changed nothing else. */
  ghost predicate FetchedOnce(cache: Cache, p: Progress, helm: HelmPull, a: Artifact) {
    p.result.Ok? && FileName(p.result.value) && |p.pulls| == 1 &&
    helm(0, p.pulls[0]) == Deposited([(p.result.value, a)]) &&
    p.cache == cache[p.result.value := File(Complete(a))]
  }

  lemma FirstPull(chart: ChartSpec, cache: Cache, settings: PullSettings, helm: HelmPull) returns (a: Artifact)
    requires ListsFileNames(helm)
    ensures var p := PullStep(chart, Progress(cache, settings, [], Ok("")), helm);
            |p.pulls| <= 1 && (p.result.Ok? ==> FetchedOnce(cache, p, helm, a)) &&
            (|p.pulls| == 1 ==> Request(chart, settings) == Ok(p.pulls[0]))
  {
    var p := PullStep(chart, Progress(cache, settings, [], Ok("")), helm);
    if p.result.Ok? {
      var files := helm(0, Request(chart, settings).value).files;
      assert files == [(files[0].0, files[0].1)] && files[0] in files;
      a := files[0].1;
    } else {
      a := Artifact("");
    }
  }

  lemma EnsureFindsOrPulls(file: string, chart: ChartSpec, before: Progress, helm: HelmPull, statOk: bool)
    ensures var p := EnsureStep(file, chart, before, helm, statOk);
            p == PullStep(chart, before, helm) ||
            (p.pulls == before.pulls && p.cache == before.cache &&
             (p.result.Ok? ==> p.result == Ok(Base(file)) && Base(file) in p.cache && p.cache[Base(file)].File?))
  {}

  /** The file just pulled is found again. */
  lemma EnsureAfterPull(cache: Cache, p: Progress, chart: ChartSpec, helm: HelmPull, statOk: bool, a: Artifact)
    requires FetchedOnce(cache, p, helm, a)
    ensures var q := EnsureStep(p.result.value, chart, p, helm, statOk);
            q.pulls == p.pulls && (q.result.Ok? ==> q == p)
  {}

  /** One call pulls at most once, and arrives at a file it found or at the one it pulled. */
  lemma HitOrFetched(chart: ChartSpec, cache: Cache, settings: PullSettings, helm: HelmPull, statOk: bool)
    returns (a: Artifact)
    requires ListsFileNames(helm)
    ensures var p := PrepareStep(chart, cache, settings, helm, statOk);
            |p.pulls| <= 1 && (|p.pulls| == 1 ==> Request(chart, settings) == Ok(p.pulls[0])) &&
            (p.result.Ok? ==> PlannedHit(chart, cache, p) || FetchedOnce(cache, p, helm, a))
  {
    var start := Progress(cache, settings, [], Ok(""));
    a := FirstPull(chart, cache, settings, helm);
    var plan := Plan(chart);
    if plan.Ok? && plan.value.LookFor? {
      EnsureFindsOrPulls(plan.value.file, chart, start, helm, statOk);
    } else if plan.Ok? {
      var pulled := PullStep(chart, start, helm);
      if pulled.result.Ok? {
        EnsureAfterPull(cache, pulled, chart, helm, statOk, a);
      }
    }
  }

  lemma BaseTwice(file: string)
    ensures Base(Base(file)) == Base(file)
  {
    if Base(file) != "/" {
      BaseOfPlain(Base(file));
    }
  }

  lemma LoadsHit(file: string, cache: Cache, p: Progress, loader: Artifact -> bool)
    requires Hit(file, cache, p) && LoadResult(p, loader).Ok?
    ensures cache[Base(file)] == File(Complete(LoadResult(p, loader).value))
  {
    BaseTwice(file);
  }

  lemma LoadsFetched(cache: Cache, p: Progress, helm: HelmPull, a: Artifact, loader: Artifact -> bool)
    requires FetchedOnce(cache, p, helm, a) && LoadResult(p, loader).Ok?
    ensures LoadResult(p, loader).value == a
  {}

  /** One call pulls at most once. Without a pull it loads a file that was in the cache before and leaves
      the cache alone; with one it loads the artifact pulled, whose file is the only one that changed. */
  lemma PullsAtMostOnce(chart: ChartSpec, cache: Cache, settings: PullSettings, helm: HelmPull, statOk: bool,
                        loader: Artifact -> bool)
    requires ListsFileNames(helm)
    ensures var p := PrepareStep(chart, cache, settings, helm, statOk);
            var r := LoadResult(p, loader);
            |p.pulls| <= 1 &&
            (r.Ok? ==>
              if p.pulls == [] then
                PlannedHit(chart, cache, p) && cache[Base(Plan(chart).value.file)] == File(Complete(r.value))
              else
                FetchedOnce(cache, p, helm, r.value))
  {
    var a := HitOrFetched(chart, cache, settings, helm, statOk);
    var p := PrepareStep(chart, cache, settings, helm, statOk);
    if LoadResult(p, loader).Ok? {
      if PlannedHit(chart, cache, p) {
        LoadsHit(Plan(chart).value.file, cache, p, loader);
      } else {
        LoadsFetched(cache, p, helm, a, loader);
      }
    }
  }

  // ---------- When a load succeeds ----------

  lemma PublishSingle(cache: Cache, outcome: PullOutcome, file: string, a: Artifact)
    requires outcome.Deposited? ==> outcome == Deposited([(file, a)])
    ensures var (cache', r) := Publish(cache, outcome);
            if outcome.Deposited? && !(file in cache && cache[file].Dir?)
            then r == Ok(file) && cache' == cache[file := File(Complete(a))]
            else r.Err?
  {}

  lemma PlannedIsEnsured(file: string, chart: ChartSpec, cache: Cache, settings: PullSettings, helm: HelmPull,
                         statOk: bool)
    requires Plan(chart) == Ok(LookFor(file))
    ensures PrepareStep(chart, cache, settings, helm, statOk) ==
            EnsureStep(file, chart, Progress(cache, settings, [], Ok("")), helm, statOk)
  {}

  lemma PullSingle(file: string, a: Artifact, chart: ChartSpec, start: Progress, helm: HelmPull)
    requires start.pulls == [] && Request(chart, start.settings).Ok?
    requires var outcome := helm(0, Request(chart, start.settings).value);
             outcome.Deposited? ==> outcome == Deposited([(file, a)])
    ensures var p := PullStep(chart, start, helm);
            if helm(0, Request(chart, start.settings).value).Deposited? &&
              !(file in start.cache && start.cache[file].Dir?)
            then p.result == Ok(file) && p.cache == start.cache[file := File(Complete(a))]
            else p.result.Err?
  {
    PublishSingle(start.cache, helm(0, Request(chart, start.settings).value), file, a);
  }

  /** What looking for a file and, if it is missing, pulling it under that name arrives at. */
  lemma LookOrPull(file: string, a: Artifact, chart: ChartSpec, cache: Cache, settings: PullSettings, helm: HelmPull,
                   statOk: bool)
    requires Base(file) == file && file != "" && Plan(chart) == Ok(LookFor(file)) && Request(chart, settings).Ok?
    requires var outcome := helm(0, Request(chart, settings).value);
             outcome.Deposited? ==> outcome == Deposited([(file, a)])
    ensures var p := PrepareStep(chart, cache, settings, helm, statOk);
            if statOk && file in cache
            then p.cache == cache && (p.result == if cache[file].Dir? then Err(IsDirectory) else Ok(file))
            else if statOk && helm(0, Request(chart, settings).value).Deposited?
            then p.result == Ok(file) && p.cache == cache[file := File(Complete(a))]
            else p.result.Err?
  {
    var start := Progress(cache, settings, [], Ok(""));
    PlannedIsEnsured(file, chart, cache, settings, helm, statOk);
    PullSingle(file, a, chart, start, helm);
  }

  lemma LoadsAt(p: Progress, file: string, a: Artifact, loader: Artifact -> bool)
    requires Base(file) == file && p.result == Ok(file) && file in p.cache && p.cache[file] == File(Complete(a))
    ensures LoadResult(p, loader) == if loader(a) then Ok(a) else Err(LoadFailed)
  {}

  /** So the load succeeds exactly when the file can be looked for, no directory is in its place, it is there
      or the pull works, and the loader accepts it. */
  lemma LoadSucceedsIff(file: string, a: Artifact, chart: ChartSpec, cache: Cache, settings: PullSettings,
                        helm: HelmPull, statOk: bool, loader: Artifact -> bool)
    requires Base(file) == file && file != "" && Plan(chart) == Ok(LookFor(file)) && Request(chart, settings).Ok?
    requires var outcome := helm(0, Request(chart, settings).value);
             outcome.Deposited? ==> outcome == Deposited([(file, a)])
    requires file in cache && cache[file].File? ==> cache[file] == File(Complete(a))
    ensures LoadResult(PrepareStep(chart, cache, settings, helm, statOk), loader).Ok? <==>
            statOk && loader(a) && !(file in cache && cache[file].Dir?) &&
            (file in cache || helm(0, Request(chart, settings).value).Deposited?)
  {
    var p := PrepareStep(chart, cache, settings, helm, statOk);
    LookOrPull(file, a, chart, cache, settings, helm, statOk);
    if p.result.Ok? {
      LoadsAt(p, file, a, loader);
    }
  }

  /** A load of the latest chart succeeds exactly when the pull leaves one file, no directory is in its place,
      the file can be looked for and the loader accepts it; it gives that file's artifact. */
  lemma LatestLoadSucceedsIff(chart: ChartSpec, cache: Cache, settings: PullSettings, helm: HelmPull, statOk: bool,
                              loader: Artifact -> bool)
    requires ListsFileNames(helm) && Plan(chart) == Ok(PullLatest) && Request(chart, settings).Ok?
    ensures var outcome := helm(0, Request(chart, settings).value);
            var r := LoadResult(PrepareStep(chart, cache, settings, helm, statOk), loader);
            (r.Ok? <==>
              outcome.Deposited? && |outcome.files| == 1 && statOk && loader(outcome.files[0].1) &&
              !(outcome.files[0].0 in cache && cache[outcome.files[0].0].Dir?)) &&
            (r.Ok? ==> r.value == outcome.files[0].1)
  {
    var start := Progress(cache, settings, [], Ok(""));
    var outcome := helm(0, Request(chart, settings).value);
    var pulled := PullStep(chart, start, helm);
    if outcome.Deposited? && |outcome.files| == 1 {
      var (n, a) := outcome.files[0];
      assert (n, a) in outcome.files;
      PublishSingle(cache, outcome, n, a);
      if pulled.result.Ok? {
        BaseOfPlain(n);
        LatestLooksAgain(chart, cache, settings, helm, statOk, pulled, n);
        if statOk {
          LoadsAt(pulled, n, a, loader);
        }
      }
    }
  }

  lemma LatestLooksAgain(chart: ChartSpec, cache: Cache, settings: PullSettings, helm: HelmPull, statOk: bool,
                         pulled: Progress, n: string)
    requires Plan(chart) == Ok(PullLatest) && pulled == PullStep(chart, Progress(cache, settings, [], Ok("")), helm)
    requires pulled.result == Ok(n) && FileName(n) && Base(n) == n && n in pulled.cache && pulled.cache[n].File?
    ensures PrepareStep(chart, cache, settings, helm, statOk) ==
            if statOk then pulled else pulled.(result := Err(StatFailed))
  {}

  /** A chart without a file name to look for is pulled. */
  lemma NoFileNamePulls(chart: ChartSpec, cache: Cache, settings: PullSettings, helm: HelmPull, statOk: bool)
    requires Plan(chart) == Ok(LookFor("")) && Request(chart, settings).Ok?
    ensures PrepareStep(chart, cache, settings, helm, statOk).pulls == [Request(chart, settings).value]
  {}

  // ---------- A sound cache stays sound ----------

  /** Everything Helm deposits is served under its name. */
  ghost predicate Honest(served: Served, helm: HelmPull) {
    forall i, req, f | helm(i, req).Deposited? && f in helm(i, req).files :: FileName(f.0) && served(f.0, f.1)
  }

  lemma CallKeepsCacheSound(served: Served, chart: ChartSpec, cache: Cache, settings: PullSettings,
                            helm: HelmPull, statOk: bool)
    requires CacheSound(served, cache) && Honest(served, helm)
    ensures CacheSound(served, PrepareStep(chart, cache, settings, helm, statOk).cache)
  {
    var start := Progress(cache, settings, [], Ok(""));
    PullKeepsSound(served, chart, start, helm);
    var plan := Plan(chart);
    if plan.Ok? && plan.value.LookFor? {
      EnsureKeepsSound(served, plan.value.file, chart, start, helm, statOk);
    } else if plan.Ok? {
      var p := PullStep(chart, start, helm);
      if p.result.Ok? {
        EnsureKeepsSound(served, p.result.value, chart, p, helm, statOk);
      }
    }
  }

  lemma EnsureKeepsSound(served: Served, file: string, chart: ChartSpec, before: Progress,
                         helm: HelmPull, statOk: bool)
    requires CacheSound(served, before.cache) && Honest(served, helm)
    ensures CacheSound(served, EnsureStep(file, chart, before, helm, statOk).cache)
  {
    PullKeepsSound(served, chart, before, helm);
    EnsureFindsOrPulls(file, chart, before, helm, statOk);
  }

  lemma PullKeepsSound(served: Served, chart: ChartSpec, before: Progress, helm: HelmPull)
    requires CacheSound(served, before.cache) && Honest(served, helm)
    ensures CacheSound(served, PullStep(chart, before, helm).cache)
  {}
}
