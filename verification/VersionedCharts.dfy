/**
 Charts given by repository, name and version: when the repository is asked for its latest chart over
 whole runs of the controller, and what the cache key `name-version` tells apart.
 */
module VersionedCharts {
  import opened Wrappers
  import opened Text
  import opened Sources
  import opened Drift
  import opened Release
  import opened Runs
  import opened ChartKeys
  import opened CacheProtocol
  import opened ChartClient
  import opened CacheRefinement

  // ---------- The latest chart ----------

  /** Given by repository and name, a chart without version and digest is pulled as the latest. */
  lemma PlansLatest(chart: ChartSpec)
    requires chart.url == "" && chart.version == "" && chart.digest == ""
    ensures Plan(chart) == Ok(PullLatest)
  {}

  lemma PlansByVersion(chart: ChartSpec)
    requires chart.url == "" && chart.digest == "" && chart.name != "" && chart.repository != ""
    requires chart.version !in {"", DEVEL}
    ensures Plan(chart) == Ok(LookFor(ChartFile(chart.name, chart.version)))
  {}

  lemma UrlIgnoresNameAndVersion(chart: ChartSpec, name: string, version: string)
    requires chart.url != ""
    ensures Plan(chart.(name := name, version := version)) == Plan(chart)
  {}

  lemma FilledChart(spec: ReleaseSpec, pulled: ChartMeta)
    requires LateInitAllowed(spec) && pulled.name != ""
    ensures var c := LateInit(spec, pulled).chart;
            c == spec.chart.(name := c.name, version := c.version) && c.name != "" &&
            (spec.chart.name in {"", pulled.name} ==> c.name == pulled.name)
  {}

  /** The reconcile that first reaches Helm with an open version fills it in. From then on, over every run
      nobody edits, a chart given by repository and name is looked up in the cache by the name and version
      it had, and no longer pulled as the latest; a chart given by URL is planned as before. */
  lemma LateInitThenLookup(codec: Codec, s: State, t: Tick, ticks: seq<Tick>)
    requires t.edit == None && NoEdits(ticks)
    requires LateInitAllowed(s.spec) && s.spec.chart.version == "" && s.spec.chart.digest == ""
    requires var act := Reconcile(codec, s, t).1.act; act.Deploy? && act.request.Some?
    requires t.answers.pulled.Some? ==>
               t.answers.pulled.value.name != "" && t.answers.pulled.value.version !in {"", DEVEL}
    ensures t.answers.pulled.Some?
    ensures var first := s.spec.chart;
            var later := Run(codec, Reconcile(codec, s, t).0, ticks).0.spec.chart;
            later.version == t.answers.pulled.value.version &&
            (first.name in {"", t.answers.pulled.value.name} ==> later.name == t.answers.pulled.value.name) &&
            if first.url != "" then Plan(later) == Plan(first)
            else Plan(first) == Ok(PullLatest) &&
                 (first.repository != "" ==> Plan(later) == Ok(LookFor(ChartFile(later.name, later.version))))
  {
    var pulled := Reconcile(codec, s, t).0.spec.chart;
    LateInitPinsVersion(codec, s, t, ticks);
    FilledChart(s.spec, t.answers.pulled.value);
    if s.spec.chart.url != "" {
      UrlIgnoresNameAndVersion(s.spec.chart, pulled.name, pulled.version);
    } else {
      PlansLatest(s.spec.chart);
      if s.spec.chart.repository != "" {
        PlansByVersion(pulled);
      }
    }
  }

  // ---------- The version key ----------

  predicate Versioned(chart: ChartSpec) {
    chart.url == "" && chart.digest == "" && chart.repository != "" && chart.version !in {"", DEVEL} &&
    chart.name != "" && '/' !in chart.name && '/' !in chart.version
  }

  /** Two charts share a file exactly if their names and versions, joined by '-', are the same text. */
  lemma ChartFilesCollideIff(name: string, version: string, name': string, version': string)
    requires '/' !in name && '/' !in version && '/' !in name' && '/' !in version'
    ensures ChartFile(name, version) == ChartFile(name', version') <==> name + "-" + version == name' + "-" + version'
  {
    PlainChartFile(name, version);
    PlainChartFile(name', version');
    var x, x' := name + "-" + version, name' + "-" + version';
    if x + ".tgz" == x' + ".tgz" {
      assert |x| == |x'|;
      assert (x + ".tgz")[..|x|] == x && (x' + ".tgz")[..|x|] == x';
    }
  }

  /** Versions without '-' tell all charts apart. */
  lemma ReleaseVersionsDoNotCollide(name: string, version: string, name': string, version': string)
    requires '/' !in name && '/' !in version && '/' !in name' && '/' !in version'
    requires '-' !in version && '-' !in version'
    ensures ChartFile(name, version) == ChartFile(name', version') <==> name == name' && version == version'
  {
    ChartFilesCollideIff(name, version, name', version');
    var x, x' := name + "-" + version, name' + "-" + version';
    if x == x' {
      LastSeparator(name, '-', version);
      LastSeparator(name', '-', version');
      assert x == name + ['-'] + version && x' == name' + ['-'] + version';
      assert x[..|name|] == name && x[|name| + 1..] == version;
      assert x'[..|name'|] == name' && x'[|name'| + 1..] == version';
    }
  }

  /** A pre-release version can be read as part of the name. */
  lemma PreReleasesCollide(name: string, x: string, y: string)
    requires '/' !in name && '/' !in x && '/' !in y
    ensures ChartFile(name + "-" + x, y) == ChartFile(name, x + "-" + y)
  {
    ChartFilesCollideIff(name + "-" + x, y, name, x + "-" + y);
    assert name + "-" + x + "-" + y == name + "-" + (x + "-" + y);
  }

  /** With the file in the cache, the repository the spec names makes no difference: it is not asked, and
      the chart loaded is the cached one, wherever that came from. */
  lemma RepositoryNotInKey(chart: ChartSpec, cache: Cache, settings: PullSettings, helm: HelmPull, a: Artifact,
                           loader: Artifact -> bool)
    requires Versioned(chart) && loader(a)
    requires ChartFile(chart.name, chart.version) in cache
    requires cache[ChartFile(chart.name, chart.version)] == File(Complete(a))
    ensures var p := PrepareStep(chart, cache, settings, helm, true);
            p.pulls == [] && LoadResult(p, loader) == Ok(a)
  {
    var file := ChartFile(chart.name, chart.version);
    PlansByVersion(chart);
    PlainChartFile(chart.name, chart.version);
    BaseOfPlain(file);
  }

  /** One artifact at most is served under the file name. */
  ghost predicate NoCollision(served: Served, file: string) {
    forall a, b | served(file, a) && served(file, b) :: a == b
  }

  /** Pulls by this request leave files of this name only. */
  ghost predicate LeavesOnly(helm: HelmPull, req: PullRequest, file: string) {
    forall j: nat, f | helm(j, req).Deposited? && f in helm(j, req).files :: f.0 == file
  }

  /** Where one artifact alone is served under the file name, and the pull leaves its file under that name,
      a load from any sound cache gives what a fresh pull leaves. */
  lemma VersionedLoadIsFreshPull(served: Served, chart: ChartSpec, cache: Cache, settings: PullSettings,
                                 helm: HelmPull, statOk: bool, loader: Artifact -> bool, i: nat, x: Artifact)
    requires Versioned(chart) && CacheSound(served, cache) && Honest(served, helm)
    requires NoCollision(served, ChartFile(chart.name, chart.version))
    requires Request(chart, settings).Ok?
    requires LeavesOnly(helm, Request(chart, settings).value, ChartFile(chart.name, chart.version))
    requires helm(i, Request(chart, settings).value) == Deposited([(ChartFile(chart.name, chart.version), x)])
    ensures var r := LoadResult(PrepareStep(chart, cache, settings, helm, statOk), loader);
            r.Ok? ==> r.value == x
  {
    var file, req := ChartFile(chart.name, chart.version), Request(chart, settings).value;
    var p := PrepareStep(chart, cache, settings, helm, statOk);
    ServedByPull(served, helm, i, req, file, x);
    PlansByVersion(chart);
    var a := HitOrFetched(chart, cache, settings, helm, statOk);
    if LoadResult(p, loader).Ok? {
      if PlannedHit(chart, cache, p) {
        PlainChartFile(chart.name, chart.version);
        BaseOfPlain(file);
        LoadsHit(file, cache, p, loader);
      } else {
        LoadsFetched(cache, p, helm, a, loader);
        FetchedIsServed(served, helm, req, file, cache, p, a);
      }
    }
  }

  lemma FetchedIsServed(served: Served, helm: HelmPull, req: PullRequest, file: string,
                        cache: Cache, p: Progress, a: Artifact)
    requires Honest(served, helm) && LeavesOnly(helm, req, file)
    requires FetchedOnce(cache, p, helm, a) && p.pulls[0] == req
    ensures served(file, a)
  {
    ServedByPull(served, helm, 0, req, p.result.value, a);
    assert (p.result.value, a) in helm(0, req).files;
  }

  lemma ServedByPull(served: Served, helm: HelmPull, i: nat, req: PullRequest, name: string, x: Artifact)
    requires Honest(served, helm) && helm(i, req) == Deposited([(name, x)])
    ensures served(name, x)
  {
    assert (name, x) in helm(i, req).files;
  }

  /** Such a load succeeds exactly when the file can be looked for, no directory is in its place, it is there
      or the pull works, and the loader accepts the artifact. */
  lemma VersionedLoadSucceedsIff(served: Served, chart: ChartSpec, cache: Cache, settings: PullSettings,
                                 helm: HelmPull, statOk: bool, loader: Artifact -> bool, x: Artifact)
    requires Versioned(chart) && CacheSound(served, cache) && NoCollision(served, ChartFile(chart.name, chart.version))
    requires served(ChartFile(chart.name, chart.version), x) && Request(chart, settings).Ok?
    requires var outcome := helm(0, Request(chart, settings).value);
             outcome.Deposited? ==> outcome == Deposited([(ChartFile(chart.name, chart.version), x)])
    ensures var file := ChartFile(chart.name, chart.version);
            LoadResult(PrepareStep(chart, cache, settings, helm, statOk), loader).Ok? <==>
            statOk && loader(x) && !(file in cache && cache[file].Dir?) &&
            (file in cache || helm(0, Request(chart, settings).value).Deposited?)
  {
    var file := ChartFile(chart.name, chart.version);
    PlansByVersion(chart);
    PlainChartFile(chart.name, chart.version);
    BaseOfPlain(file);
    LoadSucceedsIff(file, x, chart, cache, settings, helm, statOk, loader);
  }
}
