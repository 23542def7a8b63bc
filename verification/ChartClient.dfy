/**
 `PullAndLoadChart` and its helpers on one Helm client: the cache directory and the pull settings are
 mutable, and Helm's answers are a parameter. Concurrent pulls are the subject of `CacheProtocol`;
 here nothing else changes the cache during one call.
 */
module ChartClient {
  import opened Wrappers
  import opened Text
  import opened References
  import opened Drift
  import opened ChartKeys
  import opened CacheProtocol

  datatype ClientError =
    | BadSpec(e: PullError)
    | PullFailed
    | UnexpectedContent
    | RenameFailed
    | StatFailed
    | IsDirectory
    | LoadFailed

  /** What a pull leaves in its temporary directory: the listing, or an error. */
  datatype PullOutcome = NotPulled | Deposited(files: seq<(string, Artifact)>)

  /** Helm's answer to the n-th pull of a call. */
  type HelmPull = (nat, PullRequest) -> PullOutcome

  type Cache = map<string, Entry>

  // ---------- Specification ----------

  /** Cache, pull settings, pulls made so far, and the file arrived at. */
  datatype Progress = Progress(cache: Cache, settings: PullSettings, pulls: seq<PullRequest>,
    result: Result<string, ClientError>)

  /** The single deposited file moves into the cache. */
  function Publish(cache: Cache, outcome: PullOutcome): (Cache, Result<string, ClientError>) {
    match outcome
    case NotPulled => (cache, Err(PullFailed))
    case Deposited(files) =>
      if |files| != 1 then (cache, Err(UnexpectedContent))
      else
        var (name, artifact) := files[0];
        if name in cache && cache[name].Dir? then (cache, Err(RenameFailed))
        else (cache[name := File(Complete(artifact))], Ok(name))
  }

  function PullStep(chart: ChartSpec, before: Progress, helm: HelmPull): Progress {
    match Request(chart, before.settings)
    case Err(e) => before.(result := Err(BadSpec(e)))
    case Ok(req) =>
      var (cache, result) := Publish(before.cache, helm(|before.pulls|, req));
      Progress(cache, req.settings, before.pulls + [req], result)
  }

  /** `before.result` is the file looked for, "" for none. */
  function EnsureStep(file: string, chart: ChartSpec, before: Progress, helm: HelmPull, statOk: bool): Progress {
    if file == "" then PullStep(chart, before, helm)
    else if !statOk then before.(result := Err(StatFailed))
    else
      var f := Base(file);
      if f !in before.cache then PullStep(chart, before, helm)
      else if before.cache[f].Dir? then before.(result := Err(IsDirectory))
      else before.(result := Ok(f))
  }

  function PrepareStep(chart: ChartSpec, cache: Cache, settings: PullSettings, helm: HelmPull, statOk: bool): Progress {
    var start := Progress(cache, settings, [], Ok(""));
    match Plan(chart)
    case Err(e) => start.(result := Err(BadSpec(e)))
    case Ok(LookFor(file)) => EnsureStep(file, chart, start, helm, statOk)
    case Ok(PullLatest) =>
      var pulled := PullStep(chart, start, helm);
      if pulled.result.Err? then pulled else EnsureStep(pulled.result.value, chart, pulled, helm, statOk)
  }

  function LoadFile(cache: Cache, file: string, loader: Artifact -> bool): Result<Artifact, ClientError> {
    var f := Base(file);
    if f in cache && cache[f].File? && cache[f].content.Complete? && loader(cache[f].content.artifact)
    then Ok(cache[f].content.artifact)
    else Err(LoadFailed)
  }

  function LoadResult(p: Progress, loader: Artifact -> bool): Result<Artifact, ClientError> {
    if p.result.Err? then Err(p.result.error) else LoadFile(p.cache, p.result.value, loader)
  }

  // ---------- The client ----------

  class Client {
    var cache: Cache
    var settings: PullSettings
    ghost var asked: seq<PullRequest>   // everything Helm was ever asked to pull

    constructor (cache: Cache)
      ensures this.cache == cache && settings == PullSettings("", "") && asked == []
    {
      this.cache := cache;
      settings := PullSettings("", "");
      asked := [];
    }

    /** The one place where Helm is called. */
    method Run(chartRef: string, helm: HelmPull, n: nat) returns (r: PullOutcome)
      modifies `asked
      ensures asked == old(asked) + [PullRequest(chartRef, settings)]
      ensures r == helm(n, PullRequest(chartRef, settings))
    {
      asked := asked + [PullRequest(chartRef, settings)];
      r := helm(n, PullRequest(chartRef, settings));
    }

    /** Sets the pull client's fields and runs the pull. */
    method PullChart(chart: ChartSpec, helm: HelmPull, n: nat) returns (r: Result<seq<(string, Artifact)>, ClientError>)
      modifies `settings, `asked
      ensures match Request(chart, old(settings))
              case Err(e) => r == Err(BadSpec(e)) && asked == old(asked)
              case Ok(req) =>
                settings == req.settings && asked == old(asked) + [req] &&
                r == match helm(n, req) case NotPulled => Err(PullFailed) case Deposited(files) => Ok(files)
    {
      var chartRef := chart.url;
      if chart.url == "" {
        if IsOCI(chart.repository) {
          chartRef := ResolveOCIChartRef(chart.repository, chart.name, chart.digest);
        } else {
          chartRef := chart.name;
          settings := settings.(repoURL := chart.repository);
        }
        settings := settings.(version := chart.version);
      } else if IsOCI(chart.url) {
        var resolved := ResolveOCIChartVersionAndDigest(chart.url);
        if resolved.Err? {
          return Err(BadSpec(BadReference(resolved.error)));
        }
        var (ociURL, version, urlDigest) := resolved.value;
        settings := settings.(version := version);
        chartRef := UrlString(ociURL);
        var effective := ResolveEffectiveDigest(urlDigest, chart.digest);
        if effective.Err? {
          return Err(BadSpec(effective.error));
        }
        if effective.value != "" {
          chartRef := chartRef + "@" + effective.value;
        }
      }
      var outcome := Run(chartRef, helm, n);
      r := match outcome case NotPulled => Err(PullFailed) case Deposited(files) => Ok(files);
    }

    method PullChartToCache(chart: ChartSpec, helm: HelmPull, ghost before: Progress, n: nat)
      returns (r: Result<string, ClientError>, ghost after: Progress)
      requires before.cache == cache && before.settings == settings && |before.pulls| == n
      modifies this
      ensures after == PullStep(chart, before, helm)
      ensures cache == after.cache && r == after.result
      ensures before.pulls <= after.pulls && asked == old(asked) + after.pulls[n..]
      ensures Request(chart, before.settings).Ok? ==> settings == after.settings
    {
      after := PullStep(chart, before, helm);
      var files := PullChart(chart, helm, n);
      if files.Err? {
        return Err(files.error), after;
      }
      if |files.value| != 1 {
        return Err(UnexpectedContent), after;
      }
      var (name, artifact) := files.value[0];
      if name in cache && cache[name].Dir? {
        return Err(RenameFailed), after;
      }
      cache := cache[name := File(Complete(artifact))];
      r := Ok(name);
    }

    method EnsureChartCached(file: string, chart: ChartSpec, helm: HelmPull, statOk: bool, ghost before: Progress,
                             n: nat)
      returns (r: Result<string, ClientError>, ghost after: Progress)
      requires before.cache == cache && before.settings == settings && |before.pulls| == n
      modifies this
      ensures after == EnsureStep(file, chart, before, helm, statOk)
      ensures cache == after.cache && r == after.result
      ensures before.pulls <= after.pulls && asked == old(asked) + after.pulls[n..]
      ensures Request(chart, before.settings).Ok? ==> settings == after.settings
    {
      after := EnsureStep(file, chart, before, helm, statOk);
      if file == "" {
        r, after := PullChartToCache(chart, helm, before, n);
        return;
      }
      var cachedPath := Base(file);
      if !statOk {
        return Err(StatFailed), after;
      }
      if cachedPath !in cache {
        r, after := PullChartToCache(chart, helm, before, n);
        return;
      }
      if cache[cachedPath].Dir? {
        return Err(IsDirectory), after;
      }
      r := Ok(cachedPath);
    }

    /** Helm is asked for exactly the pulls of `PrepareStep`. */
    method PullAndLoadChart(chart: ChartSpec, helm: HelmPull, statOk: bool, loader: Artifact -> bool)
      returns (r: Result<Artifact, ClientError>)
      modifies this
      ensures var p := PrepareStep(chart, old(cache), old(settings), helm, statOk);
              cache == p.cache && settings == p.settings && asked == old(asked) + p.pulls && r == LoadResult(p, loader)
    {
      ghost var p := Progress(cache, settings, [], Ok(""));
      var plan := Plan(chart);
      if plan.Ok? {
        PlannedIsRequested(chart, settings);
      }
      var file := "";
      var n := 0;
      match plan {
        case Err(e) => return Err(BadSpec(e));
        case Ok(LookFor(f)) => file := f;
        case Ok(PullLatest) =>
          var pulled;
          pulled, p := PullChartToCache(chart, helm, p, 0);
          if pulled.Err? {
            return Err(pulled.error);
          }
          PlannedIsRequested(chart, settings);
          file, n := pulled.value, 1;
      }
      assert asked == old(asked) + p.pulls;
      ghost var first := p.pulls;
      var ensured;
      ensured, p := EnsureChartCached(file, chart, helm, statOk, p, n);
      AskedInAll(old(asked), first, p.pulls);
      if ensured.Err? {
        return Err(ensured.error);
      }
      r := LoadFile(cache, ensured.value, loader);
    }
  }

  lemma AskedInAll(before: seq<PullRequest>, first: seq<PullRequest>, all: seq<PullRequest>)
    requires first <= all
    ensures (before + first) + all[|first|..] == before + all
  {}

  /** A chart the planner accepts, the puller accepts. */
  lemma PlannedIsRequested(chart: ChartSpec, settings: PullSettings)
    requires Plan(chart).Ok?
    ensures Request(chart, settings).Ok?
  {}
}
