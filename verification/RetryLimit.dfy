/**
 When the rollback limit bounds what a failing Helm is asked for, and when it does not. The limit counts
 rollbacks and uninstalls of a release found in sync; an upgrade because of drift is never counted.
 */
module RetryLimit {
  import opened Wrappers
  import opened Normalize
  import opened Sources
  import opened Compose
  import opened Patches
  import opened Drift
  import opened Release
  import opened Runs
  import opened FailingHelm

  /** A reconcile that finds a failed release, has everything it needs, and meets a Helm that fails. */
  ghost predicate MeetsFailure(codec: Codec, spec: ReleaseSpec, t: Tick) {
    t.edit == None && !t.deleted && t.last.Found? &&
    t.last.rel.info.Some? && t.last.rel.info.value.status == Failed &&
    t.last.rel.chart.Some? && t.last.rel.chart.value.metadata.Some? &&
    HasInputs(codec, t.kube, spec, t.answers) && t.answers.written && t.answers.action.ActionFailed?
  }

  /** Besides, sources and chart are those of `w`, and the release found holds what the spec asks for. */
  ghost predicate FindsFailure(w: World, spec: ReleaseSpec, t: Tick) {
    MeetsFailure(w.codec, spec, t) && t.kube == w.kube && t.answers.pulled == Some(w.chart) &&
    Holds(t.last.rel, Failed, w.chart, ComposeValues(w.codec, w.kube, spec.values).value)
  }

  // ---------- One reconcile ----------

  /** Drift is no failure to roll back: Observe reports it, and the count is left alone. */
  lemma DriftObserve(codec: Codec, s: State, t: Tick)
    requires MeetsFailure(codec, s.spec, t)
    requires Verdict(codec, t.kube, s.spec, s.status, t.last.rel) == Ok(false)
    ensures var (st, r) := Observed(codec, s, t);
            r == Ok(Seen(true, false, map[])) && !ShouldRollBack(s.spec, st) && SameRecord(st, s.status)
  {}

  lemma DriftStep(codec: Codec, s: State, t: Tick)
    requires MeetsFailure(codec, s.spec, t)
    requires Verdict(codec, t.kube, s.spec, s.status, t.last.rel) == Ok(false)
    ensures var (s', rec) := Reconcile(codec, s, t);
            Deploys(rec.act) && s'.spec == LateInit(s.spec, t.answers.pulled.value) && SameRecord(s'.status, s.status)
  {
    var (st, r) := Observed(codec, s, t);
    var w := World(codec, t.kube, t.answers.pulled.value);
    DriftObserve(codec, s, t);
    DeployCallsHelmIff(codec, t.kube, s.spec, st, s.status, t.answers, false);
    DeployFails(w, s.spec, st, s.status, t.answers, false);
  }

  /** Without drift nothing is deployed, and a retry is one of those that are left. */
  lemma NoDriftStep(codec: Codec, s: State, t: Tick)
    requires MeetsFailure(codec, s.spec, t)
    requires Verdict(codec, t.kube, s.spec, s.status, t.last.rel) != Ok(false)
    ensures var (s', rec) := Reconcile(codec, s, t);
            !Deploys(rec.act) && s'.spec == s.spec &&
            s'.status.patchesSha == s.status.patchesSha && s'.status.atProvider.digest == s.status.atProvider.digest &&
            RetriesLeft(s') == RetriesLeft(s) - Bit(rec.act.Retry?)
  {}

  /** On a failed release that holds what was asked for, drift is found exactly if the state does not fit
      or its chart name is still open. */
  lemma DriftIff(w: World, s: State, t: Tick)
    requires FindsFailure(w, s.spec, t)
    ensures Verdict(w.codec, w.kube, s.spec, s.status, t.last.rel) == Ok(false) <==>
            !Fits(w, s) || s.spec.chart.name != w.chart.name
  {
    ComparesEqualToNormalized(ComposeValues(w.codec, w.kube, s.spec.values).value);
  }

  lemma FitsAfterLateInit(w: World, s: State, st: ReleaseStatus)
    requires SameRecord(st, s.status)
    ensures Fits(w, State(LateInit(s.spec, w.chart), st)) <==> Fits(w, s)
    ensures Fits(w, s) ==> LateInit(s.spec, w.chart).chart.name == w.chart.name
    ensures RetriesLeft(State(LateInit(s.spec, w.chart), st)) == RetriesLeft(s)
  {
    LateInitAccepts(s.spec, w.chart);
  }

  lemma FindsFailureAfterLateInit(w: World, spec: ReleaseSpec, t: Tick)
    requires FindsFailure(w, spec, t)
    ensures FindsFailure(w, LateInit(spec, w.chart), t)
  {}

  // ---------- Whole runs ----------

  /** Where the state fits, at most a first deploy fills in the name; then the limit bounds everything. */
  lemma {:induction false} LimitApplies(w: World, s: State, ticks: seq<Tick>)
    requires forall t | t in ticks :: FindsFailure(w, s.spec, t)
    requires Fits(w, s)
    ensures var trace := Run(w.codec, s, ticks).1;
            DeployRequests(trace) <= Bit(s.spec.chart.name != w.chart.name) && Retries(trace) <= RetriesLeft(s)
    decreases |ticks|
  {
    if ticks != [] {
      var (s1, rec) := Reconcile(w.codec, s, ticks[0]);
      assert ticks[0] in ticks;
      DriftIff(w, s, ticks[0]);
      if s.spec.chart.name != w.chart.name {
        DriftStep(w.codec, s, ticks[0]);
        FitsAfterLateInit(w, s, s1.status);
        LaterTicksFindFailure(w, s.spec, ticks);
      } else {
        NoDriftStep(w.codec, s, ticks[0]);
      }
      LimitApplies(w, s1, ticks[1..]);
      var trace := Run(w.codec, s, ticks).1;
      assert trace[0] == rec && trace[1..] == Run(w.codec, s1, ticks[1..]).1;
    }
  }

  lemma LaterTicksFindFailure(w: World, spec: ReleaseSpec, ticks: seq<Tick>)
    requires ticks != [] && forall t | t in ticks :: FindsFailure(w, spec, t)
    ensures forall t | t in ticks[1..] :: FindsFailure(w, LateInit(spec, w.chart), t)
  {
    forall t | t in ticks[1..] ensures FindsFailure(w, LateInit(spec, w.chart), t) {
      assert t in ticks;
      FindsFailureAfterLateInit(w, spec, t);
    }
  }

  /** Where it does not, every reconcile upgrades again and none is counted. */
  lemma {:induction false} LimitDoesNotApply(w: World, s: State, ticks: seq<Tick>)
    requires forall t | t in ticks :: FindsFailure(w, s.spec, t)
    requires !Fits(w, s)
    ensures var (s', trace) := Run(w.codec, s, ticks);
            DeployRequests(trace) == |ticks| && Retries(trace) == 0 && s'.status.failed == s.status.failed
    decreases |ticks|
  {
    if ticks != [] {
      var (s1, rec) := Reconcile(w.codec, s, ticks[0]);
      assert ticks[0] in ticks;
      DriftIff(w, s, ticks[0]);
      DriftStep(w.codec, s, ticks[0]);
      FitsAfterLateInit(w, s, s1.status);
      LaterTicksFindFailure(w, s.spec, ticks);
      LimitDoesNotApply(w, s1, ticks[1..]);
      var trace := Run(w.codec, s, ticks).1;
      assert trace[0] == rec && trace[1..] == Run(w.codec, s1, ticks[1..]).1;
    }
  }

  /** While Helm keeps failing what it is asked for, every reconcile deploys exactly if the state does not
      fit; only a single first deploy of an open chart name is no sign of it. */
  lemma EveryReconcileDeploysIff(w: World, s: State, ticks: seq<Tick>)
    requires forall t | t in ticks :: FindsFailure(w, s.spec, t)
    requires ticks != []
    ensures DeployRequests(Run(w.codec, s, ticks).1) == |ticks| <==>
            !Fits(w, s) || (|ticks| == 1 && s.spec.chart.name != w.chart.name)
  {
    if Fits(w, s) {
      LimitApplies(w, s, ticks);
      if |ticks| == 1 && s.spec.chart.name != w.chart.name {
        assert ticks[0] in ticks;
        DriftIff(w, s, ticks[0]);
        DriftStep(w.codec, s, ticks[0]);
        assert Run(w.codec, s, ticks).1[0] == Reconcile(w.codec, s, ticks[0]).1;
      }
    } else {
      LimitDoesNotApply(w, s, ticks);
    }
  }

  /** A recorded digest that conflicts is enough, whatever happens to sources and chart. */
  lemma {:induction false} FailingDigestIsNotLimited(codec: Codec, s: State, ticks: seq<Tick>)
    requires forall t | t in ticks :: MeetsFailure(codec, s.spec, t)
    requires UpdatesAllowed(s.spec) && DigestsConflict(s.spec.chart.digest, s.status.atProvider.digest)
    ensures var (s', trace) := Run(codec, s, ticks);
            DeployRequests(trace) == |ticks| && Retries(trace) == 0 && s'.status.failed == s.status.failed
    decreases |ticks|
  {
    if ticks != [] {
      var (s1, rec) := Reconcile(codec, s, ticks[0]);
      assert ticks[0] in ticks;
      DriftStep(codec, s, ticks[0]);
      forall t | t in ticks[1..] ensures MeetsFailure(codec, s1.spec, t) {
        assert t in ticks;
      }
      FailingDigestIsNotLimited(codec, s1, ticks[1..]);
      var trace := Run(codec, s, ticks).1;
      assert trace[0] == rec && trace[1..] == Run(codec, s1, ticks[1..]).1;
    }
  }

  // ---------- Failures that leave no record ----------

  /** A reconcile in `w` that finds Helm's last release as `helm`, has everything it needs, and meets a Helm
      that fails. */
  ghost predicate MeetsRecord(w: World, spec: ReleaseSpec, helm: Option<HelmRelease>, t: Tick) {
    t.edit == None && !t.deleted && t.kube == w.kube && t.answers.pulled == Some(w.chart) &&
    t.last == (if helm.None? then Absent else Found(helm.value)) &&
    (spec.skipCreateNamespace || t.namespaceOk) &&
    ReachesHelm(w.codec, w.kube, spec, t.answers) && t.answers.action.ActionFailed?
  }

  /** The reconcile deploys: there is no release, or one with drift that is not due to be rolled back. */
  predicate DeploysOn(w: World, s: State, helm: Option<HelmRelease>) {
    helm.None? ||
    (Verdict(w.codec, w.kube, s.spec, s.status, helm.value) == Ok(false) &&
     !(s.spec.rollbackLimit.Some? && Stuck(helm.value.info.value.status)))
  }

  lemma InstallsAgain(w: World, s: State, t: Tick)
    requires MeetsRecord(w, s.spec, None, t)
    ensures var (s', rec) := Reconcile(w.codec, s, t);
            Deploys(rec.act) && s'.spec == LateInit(s.spec, w.chart) && SameRecord(s'.status, s.status)
  {
    DeployCallsHelmIff(w.codec, w.kube, s.spec, s.status, s.status, t.answers, true);
    DeployFails(w, s.spec, s.status, s.status, t.answers, true);
  }

  lemma RecordObserve(w: World, s: State, helm: HelmRelease, t: Tick)
    requires MeetsRecord(w, s.spec, Some(helm), t)
    ensures var (st, r) := Observed(w.codec, s, t);
            var verdict := Verdict(w.codec, w.kube, s.spec, s.status, helm);
            if verdict == Ok(false) then
              r == Ok(Seen(true, false, map[])) && SameRecord(st, s.status) &&
              (ShouldRollBack(s.spec, st) <==> s.spec.rollbackLimit.Some? && Stuck(helm.info.value.status))
            else r.Ok? && !r.value.upToDate ==> r.value.present && ShouldRollBack(s.spec, st)
  {}

  lemma UpgradesAgain(w: World, s: State, helm: HelmRelease, t: Tick)
    requires MeetsRecord(w, s.spec, Some(helm), t) && DeploysOn(w, s, Some(helm))
    ensures var (s', rec) := Reconcile(w.codec, s, t);
            Deploys(rec.act) && s'.spec == LateInit(s.spec, w.chart) && SameRecord(s'.status, s.status)
  {
    var (st, r) := Observed(w.codec, s, t);
    RecordObserve(w, s, helm, t);
    DeployCallsHelmIff(w.codec, w.kube, s.spec, st, s.status, t.answers, false);
    DeployFails(w, s.spec, st, s.status, t.answers, false);
  }

  lemma DeploysNotOn(w: World, s: State, helm: Option<HelmRelease>, t: Tick)
    requires MeetsRecord(w, s.spec, helm, t) && !DeploysOn(w, s, helm)
    ensures !Deploys(Reconcile(w.codec, s, t).1.act)
  {
    RecordObserve(w, s, helm.value, t);
  }

  lemma DeploysOnStep(w: World, s: State, helm: Option<HelmRelease>, t: Tick)
    requires MeetsRecord(w, s.spec, helm, t) && DeploysOn(w, s, helm)
    ensures var (s', rec) := Reconcile(w.codec, s, t);
            Deploys(rec.act) && s'.spec == LateInit(s.spec, w.chart) && SameRecord(s'.status, s.status)
  {
    if helm.None? {
      InstallsAgain(w, s, t);
    } else {
      UpgradesAgain(w, s, helm.value, t);
    }
  }

  /** What decides does not depend on more of the status than is recorded. */
  lemma DeploysOnByRecord(w: World, spec: ReleaseSpec, a: ReleaseStatus, b: ReleaseStatus, helm: Option<HelmRelease>)
    requires SameRecord(a, b)
    ensures DeploysOn(w, State(spec, a), helm) <==> DeploysOn(w, State(spec, b), helm)
  {}

  lemma LateInitTwice(spec: ReleaseSpec, chart: ChartMeta)
    ensures LateInit(LateInit(spec, chart), chart) == LateInit(spec, chart)
  {}

  lemma MeetsRecordAfterLateInit(w: World, spec: ReleaseSpec, helm: Option<HelmRelease>, ticks: seq<Tick>)
    requires ticks != [] && forall t | t in ticks :: MeetsRecord(w, spec, helm, t)
    ensures forall t | t in ticks[1..] :: MeetsRecord(w, LateInit(spec, w.chart), helm, t)
  {
    forall t | t in ticks[1..] ensures MeetsRecord(w, LateInit(spec, w.chart), helm, t) {
      assert t in ticks;
      FilledReachesHelm(w, spec, t);
    }
  }

  lemma FilledReachesHelm(w: World, spec: ReleaseSpec, t: Tick)
    requires ReachesHelm(w.codec, w.kube, spec, t.answers)
    ensures ReachesHelm(w.codec, w.kube, LateInit(spec, w.chart), t.answers)
  {}

  lemma {:induction false} AtMostOneEach(trace: seq<Record>)
    ensures DeployRequests(trace) <= |trace|
  {
    if trace != [] {
      AtMostOneEach(trace[1..]);
    }
  }

  /** While Helm's record stays as it is and every action fails, every reconcile deploys exactly if the first
      does and, with the spec it filled in, so does the second; nothing is counted then. */
  lemma {:induction false} UnrecordedDeploysIff(w: World, s: State, helm: Option<HelmRelease>, ticks: seq<Tick>)
    requires ticks != [] && forall t | t in ticks :: MeetsRecord(w, s.spec, helm, t)
    ensures var (s', trace) := Run(w.codec, s, ticks);
            var filled := State(LateInit(s.spec, w.chart), s.status);
            (DeployRequests(trace) == |ticks| <==> DeploysOn(w, s, helm) && (|ticks| > 1 ==>
              DeploysOn(w, filled, helm))) &&
            (DeployRequests(trace) == |ticks| ==> Retries(trace) == 0 && s'.status.failed == s.status.failed)
    decreases |ticks|
  {
    var (s1, rec) := Reconcile(w.codec, s, ticks[0]);
    var (s2, rest) := Run(w.codec, s1, ticks[1..]);
    assert ticks[0] in ticks && ticks == [ticks[0]] + ticks[1..];
    RunStep(w.codec, s, ticks[0], ticks[1..]);
    CountsLonger(rec, rest);
    AtMostOneEach(rest);
    if !DeploysOn(w, s, helm) {
      DeploysNotOn(w, s, helm, ticks[0]);
    } else {
      DeploysOnStep(w, s, helm, ticks[0]);
      if |ticks| > 1 {
        MeetsRecordAfterLateInit(w, s.spec, helm, ticks);
        UnrecordedDeploysIff(w, s1, helm, ticks[1..]);
        LateInitTwice(s.spec, w.chart);
        DeploysOnByRecord(w, s1.spec, s1.status, s.status, helm);
      }
    }
  }

  /** A new resource without patches fits. If its installs fail without a record, resources owned by somebody
      else for one, every reconcile installs again whatever the limit. */
  lemma NewResourceWithoutRecord(w: World, spec: ReleaseSpec, ticks: seq<Tick>)
    requires NameAfterLateInit(spec, w.chart) && VersionAfterLateInit(spec, w.chart) && ValuesEqualThemselves(w, spec)
    requires PatchesFrom(w.codec, w.kube, spec.patchesFrom) == Ok([])
    requires ticks != [] && forall t | t in ticks :: MeetsRecord(w, spec, None, t)
    ensures Fits(w, State(spec, NEW_STATUS))
    ensures var trace := Run(w.codec, State(spec, NEW_STATUS), ticks).1;
            DeployRequests(trace) == |ticks| && Retries(trace) == 0
  {
    assert HasUpdates(w.codec, w.kube, spec.patchesFrom, "") == Ok(false);
    UnrecordedDeploysIff(w, State(spec, NEW_STATUS), None, ticks);
  }

  /** A pending rollback counts as drift but not as something to roll back. */
  lemma PendingRollbackNotLimited(w: World, s: State, helm: HelmRelease, ticks: seq<Tick>)
    requires helm.info.Some? && helm.info.value.status == PendingRollback
    requires ticks != [] && forall t | t in ticks :: MeetsRecord(w, s.spec, Some(helm), t)
    ensures var trace := Run(w.codec, s, ticks).1;
            DeployRequests(trace) == |ticks| && Retries(trace) == 0
  {
    UnrecordedDeploysIff(w, s, Some(helm), ticks);
  }

  // ---------- A first install with patches ----------

  /** The install of a new release, which fails. */
  ghost predicate InstallFails(w: World, spec: ReleaseSpec, t: Tick) {
    t.edit == None && !t.deleted && t.last == Absent && t.namespaceOk && t.kube == w.kube &&
    HasInputs(w.codec, w.kube, spec, t.answers) && t.answers.pulled == Some(w.chart) &&
    t.answers.written && t.answers.action.ActionFailed?
  }

  predicate HasPatches(w: World, spec: ReleaseSpec) {
    var patches := PatchesFrom(w.codec, w.kube, spec.patchesFrom);
    patches.Ok? && ShaOf(w.codec, patches.value).Ok? && ShaOf(w.codec, patches.value).value != ""
  }

  lemma PatchesDoNotFit(w: World, spec: ReleaseSpec)
    requires UpdatesAllowed(spec) && HasPatches(w, spec)
    ensures !Fits(w, State(LateInit(spec, w.chart), NEW_STATUS))
  {
    assert HasUpdates(w.codec, w.kube, spec.patchesFrom, "") == Ok(true);
  }

  lemma InstallStep(w: World, spec: ReleaseSpec, t: Tick)
    requires InstallFails(w, spec, t)
    ensures var (s', rec) := Reconcile(w.codec, State(spec, NEW_STATUS), t);
            Deploys(rec.act) && s' == State(LateInit(spec, w.chart), NEW_STATUS)
  {
    DeployCallsHelmIff(w.codec, w.kube, spec, NEW_STATUS, NEW_STATUS, t.answers, true);
    DeployFails(w, spec, NEW_STATUS, NEW_STATUS, t.answers, true);
  }

  /** A new resource has no fingerprint of patches recorded. If it has patches and its first install fails,
      the limit never applies to it. */
  lemma NewResourceWithPatches(w: World, spec: ReleaseSpec, install: Tick, ticks: seq<Tick>)
    requires UpdatesAllowed(spec) && HasPatches(w, spec)
    requires InstallFails(w, spec, install) && forall t | t in ticks :: FindsFailure(w, spec, t)
    ensures var (s', trace) := Run(w.codec, State(spec, NEW_STATUS), [install] + ticks);
            DeployRequests(trace) == 1 + |ticks| && Retries(trace) == 0 && s'.status.failed == 0
  {
    var s := State(LateInit(spec, w.chart), NEW_STATUS);
    InstallStep(w, spec, install);
    PatchesDoNotFit(w, spec);
    forall t | t in ticks ensures FindsFailure(w, s.spec, t) {
      FindsFailureAfterLateInit(w, spec, t);
    }
    LimitDoesNotApply(w, s, ticks);
    RunStep(w.codec, State(spec, NEW_STATUS), install, ticks);
    CountsLonger(Reconcile(w.codec, State(spec, NEW_STATUS), install).1, Run(w.codec, s, ticks).1);
  }

  lemma CountsLonger(rec: Record, rest: seq<Record>)
    ensures DeployRequests([rec] + rest) == Bit(Deploys(rec.act)) + DeployRequests(rest)
    ensures Retries([rec] + rest) == Bit(rec.act.Retry?) + Retries(rest)
  {
    assert ([rec] + rest)[1..] == rest;
  }

  // With a limit of one retry: the install and two upgrades fail, and nothing is counted.

  const PATCHING := CODEC.(parsePatches := text => Some([Patch(text)]))
  const CLUSTER := KUBE.(configMaps := ref => Data(map[KEY_PATCH := "p"]))
  const SOURCE := ValueFromSource(Some(DataKeySelector(NamespacedName("n", "patches"), "", false)), None)
  const PATCHED := SPEC.(patchesFrom := [SOURCE], rollbackLimit := Some(1))
  const FAILING := Answers("1").(action := ActionFailed)
  const FAILED_RELEASE := OnVersion("1").(info := Some(Info(Failed, "")))
  const FIRST_INSTALL := Installing(false).(kube := CLUSTER, answers := FAILING)
  const UPGRADE_AGAIN := QUIET.(kube := CLUSTER, answers := FAILING, last := Found(FAILED_RELEASE))

  lemma ThePatches()
    ensures PatchesFrom(PATCHING, CLUSTER, [SOURCE]) == Ok([Patch("p")])
    ensures ComposeValues(PATCHING, CLUSTER, ValuesSpec("", [], [])) == Ok(map[])
  {
    var d := map[KEY_PATCH := "p"];
    assert KEY_PATCH in d && d[KEY_PATCH] == "p";
    assert GetDataValue(CLUSTER, SOURCE, KEY_PATCH) == Ok("p");
    assert [SOURCE][..0] == [];
    assert PatchesFrom(PATCHING, CLUSTER, [SOURCE][..0]) == Ok([]);
    assert [] + [Patch("p")] == [Patch("p")];
    EmptyValues(PATCHING, CLUSTER);
  }

  const PLAIN := SPEC.(rollbackLimit := Some(1))
  const INSTALL_AGAIN := Installing(false).(answers := FAILING)

  /** Three installs that leave no record fail, with the same limit and no patches. */
  lemma LimitOfOneWithoutRecord()
    ensures PLAIN.rollbackLimit == Some(1)
    ensures Fits(World(CODEC, KUBE, ChartMeta("c", "1")), State(PLAIN, NEW_STATUS))
    ensures var trace := Run(CODEC, State(PLAIN, NEW_STATUS), [INSTALL_AGAIN, INSTALL_AGAIN, INSTALL_AGAIN]).1;
            DeployRequests(trace) == 3 && Retries(trace) == 0
  {
    var w := World(CODEC, KUBE, ChartMeta("c", "1"));
    EmptyValues(CODEC, KUBE);
    assert MeetsRecord(w, PLAIN, None, INSTALL_AGAIN);
    NewResourceWithoutRecord(w, PLAIN, [INSTALL_AGAIN, INSTALL_AGAIN, INSTALL_AGAIN]);
  }

  lemma LimitOfOneExceeded()
    ensures PATCHED.rollbackLimit == Some(1)
    ensures var trace := Run(PATCHING, State(PATCHED, NEW_STATUS), [FIRST_INSTALL, UPGRADE_AGAIN, UPGRADE_AGAIN]).1;
            DeployRequests(trace) == 3 && Retries(trace) == 0
  {
    var w := World(PATCHING, CLUSTER, ChartMeta("c", "1"));
    ThePatches();
    assert HasPatches(w, PATCHED);
    assert FindsFailure(w, PATCHED, UPGRADE_AGAIN);
    NewResourceWithPatches(w, PATCHED, FIRST_INSTALL, [UPGRADE_AGAIN, UPGRADE_AGAIN]);
    assert [FIRST_INSTALL] + [UPGRADE_AGAIN, UPGRADE_AGAIN] == [FIRST_INSTALL, UPGRADE_AGAIN, UPGRADE_AGAIN];
  }
}
