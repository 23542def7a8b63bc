/**
 Runs against a Helm that fails every install and upgrade. With fixed inputs the controller retries at
 most as often as its limit allows and then leaves Helm alone for ever.
 */
module FailingHelm {
  import opened Wrappers
  import opened Values
  import opened Normalize
  import opened Sources
  import opened Compose
  import opened Patches
  import opened Drift
  import opened Release
  import opened Runs

  /** What stays fixed: the sources and the chart the repository serves. */
  datatype World = World(codec: Codec, kube: Kube, chart: ChartMeta)

  /** The drift check will find nothing in a release that holds what is asked for: the spec names the chart's
      name or leaves it open and, if updates are allowed, so it does with the version, neither the recorded
      digest nor the recorded patch fingerprint conflicts, and the values equal themselves. */
  predicate Fits(w: World, s: State) {
    NameAfterLateInit(s.spec, w.chart) &&
    (UpdatesAllowed(s.spec) ==>
      VersionAccepts(s.spec.chart.version, w.chart.version) &&
      !DigestsConflict(s.spec.chart.digest, s.status.atProvider.digest) &&
      HasUpdates(w.codec, w.kube, s.spec.patchesFrom, s.status.patchesSha) != Ok(true) &&
      ValuesEqualThemselves(w, s.spec))
  }

  predicate ValuesEqualThemselves(w: World, spec: ReleaseSpec) {
    var values := ComposeValues(w.codec, w.kube, spec.values);
    values.Ok? ==> !HoldsNaN(Map(values.value))
  }

  /** A reconcile in this world while Helm's last release is `helm`: nobody edits the resource or marks
      it for deletion, a pull fails or gives the chart, and Observe errs or sees `helm`. */
  ghost predicate FixedInputs(w: World, t: Tick, helm: Option<HelmRelease>) {
    t.edit == None && !t.deleted && t.kube == w.kube &&
    (t.answers.pulled.None? || t.answers.pulled == Some(w.chart)) &&
    (t.last.Absent? ==> helm == None) &&
    (t.last.Found? ==> helm == Some(t.last.rel))
  }

  /** How `act` changes Helm's last release: an install or upgrade fails and is recorded as failed with
      the chart and values asked for; a rollback or uninstall may leave anything. */
  ghost predicate FailsEveryDeploy(t: Tick, act: Act, helm: Option<HelmRelease>, helm': Option<HelmRelease>) {
    match act
    case Idle => helm' == helm
    case Delete => helm' == None
    case Retry(_) => true
    case Deploy(None, _, _, _, _) => helm' == helm
    case Deploy(Some(call), _, _, _, _) =>
      t.answers.action.ActionFailed? && helm'.Some? && (call.Install? || call.Upgrade?) &&
      Holds(helm'.value, Failed, call.chart, call.values)
  }

  /** A run in this world without a healthy Observe; `helms[i]` is Helm's last release after reconcile `i`. */
  ghost predicate Episode(w: World, s: State, helm: Option<HelmRelease>, ticks: seq<Tick>,
                          helms: seq<Option<HelmRelease>>)
    decreases |ticks|
  {
    |helms| == |ticks| &&
    (ticks != [] ==>
      var (s', rec) := Reconcile(w.codec, s, ticks[0]);
      FixedInputs(w, ticks[0], helm) && FailsEveryDeploy(ticks[0], rec.act, helm, helms[0]) && !rec.reset &&
      Episode(w, s', helms[0], ticks[1..], helms[1..]))
  }

  // ---------- The measure ----------

  function RetriesLeft(s: State): nat {
    if s.spec.rollbackLimit.Some? && s.status.failed < s.spec.rollbackLimit.value
    then s.spec.rollbackLimit.value as int - s.status.failed as int
    else 0
  }

  /** Helm holds a failed release in which Observe finds no drift. */
  predicate Settled(w: World, s: State, helm: Option<HelmRelease>) {
    helm.Some? && helm.value.info.Some? && helm.value.info.value.status == Failed &&
    Verdict(w.codec, w.kube, s.spec, s.status, helm.value) != Ok(false)
  }

  /** The second component of the measure, below the retries left. */
  function Phase(w: World, s: State, helm: Option<HelmRelease>): nat {
    Bit(!Settled(w, s, helm))
  }

  predicate Mutates(act: Act) {
    act.Delete? || act.Retry? || (act.Deploy? && act.request.Some?)
  }

  predicate Deploys(act: Act) {
    act.Deploy? && act.request.Some?
  }

  // ---------- One reconcile ----------

  /** An Observe that is not healthy leaves digest, fingerprint and count alone. */
  lemma UnhealthyObserve(w: World, s: State, t: Tick, helm: Option<HelmRelease>)
    requires FixedInputs(w, t, helm) && !Healthy(w.codec, s, t)
    ensures var st := Observed(w.codec, s, t).0;
            st.failed == s.status.failed && st.patchesSha == s.status.patchesSha &&
            st.atProvider.digest == s.status.atProvider.digest
    ensures t.last.Found? && Settled(w, s, helm) && Observed(w.codec, s, t).1.Ok? ==>
            Observed(w.codec, s, t).0.synced && Observed(w.codec, s, t).0.atProvider.state == Failed
  {}

  /** A deploy that does not reach Helm changes nothing that is stored. */
  lemma DeployStopsEarly(w: World, spec: ReleaseSpec, st: ReleaseStatus, stored: ReleaseStatus,
                         answers: DeployAnswers, install: bool)
    requires !ReachesHelm(w.codec, w.kube, spec, answers)
    ensures var d := DeployStep(w.codec, w.kube, spec, st, stored, answers, install);
            d.call == None && d.err != None && Stored(spec, d) == State(spec, st)
  {}

  /** A deploy that Helm fails records nothing. */
  lemma DeployFails(w: World, spec: ReleaseSpec, st: ReleaseStatus, stored: ReleaseStatus, answers: DeployAnswers,
                    install: bool)
    requires ReachesHelm(w.codec, w.kube, spec, answers) && answers.action.ActionFailed?
    ensures var d := DeployStep(w.codec, w.kube, spec, st, stored, answers, install);
            d.err == Some(HelmFailed) && d.status == StatusAfterWrite(spec, st, stored)
  {}

  /** What is recorded and counted. */
  predicate SameRecord(a: ReleaseStatus, b: ReleaseStatus) {
    a.patchesSha == b.patchesSha && a.atProvider.digest == b.atProvider.digest && a.failed == b.failed
  }

  /** Late initialisation keeps the fit, and a spec it filled in settles what it asked for. */
  lemma RequestedIsInSync(w: World, spec: ReleaseSpec, st: ReleaseStatus, helm: HelmRelease)
    requires Fits(w, State(spec, st)) && ComposeValues(w.codec, w.kube, spec.values).Ok?
    requires Holds(helm, Failed, w.chart, ComposeValues(w.codec, w.kube, spec.values).value)
    ensures var s' := State(LateInit(spec, w.chart), st);
            Fits(w, s') && Settled(w, s', Some(helm)) && s'.spec.rollbackLimit == spec.rollbackLimit
  {
    LateInitAccepts(spec, w.chart);
    ComparesEqualToNormalized(ComposeValues(w.codec, w.kube, spec.values).value);
  }

  /** A failed deploy that reached Helm settles it. */
  lemma DeploySettles(w: World, s: State, st: ReleaseStatus, t: Tick, install: bool, kept: bool,
                      helm: Option<HelmRelease>, helm': Option<HelmRelease>)
    requires FixedInputs(w, t, helm) && Fits(w, s) && SameRecord(st, s.status)
    requires var d := DeployStep(w.codec, w.kube, s.spec, st, s.status, t.answers, install);
             FailsEveryDeploy(t, DeployAct(s.spec, d, kept), helm, helm')
    ensures var d := DeployStep(w.codec, w.kube, s.spec, st, s.status, t.answers, install);
            var s' := Stored(s.spec, d);
            SameRecord(s'.status, s.status) && Fits(w, s') && s'.spec.rollbackLimit == s.spec.rollbackLimit &&
            (d.call.Some? ==> Settled(w, s', helm')) &&
            (d.call == None ==> s'.spec == s.spec && helm' == helm)
  {
    var d := DeployStep(w.codec, w.kube, s.spec, st, s.status, t.answers, install);
    DeployCallsHelmIff(w.codec, w.kube, s.spec, st, s.status, t.answers, install);
    if ReachesHelm(w.codec, w.kube, s.spec, t.answers) {
      DeployFails(w, s.spec, st, s.status, t.answers, install);
      RequestedIsInSync(w, s.spec, StatusAfterWrite(s.spec, st, s.status), helm'.value);
    } else {
      DeployStopsEarly(w, s.spec, st, s.status, t.answers, install);
    }
  }

  /** Fit, verdict and retries left depend on the status only through what is recorded and counted. */
  lemma SameRecords(w: World, spec: ReleaseSpec, a: ReleaseStatus, b: ReleaseStatus, helm: Option<HelmRelease>)
    requires SameRecord(a, b)
    ensures Fits(w, State(spec, a)) <==> Fits(w, State(spec, b))
    ensures Settled(w, State(spec, a), helm) <==> Settled(w, State(spec, b), helm)
    ensures RetriesLeft(State(spec, a)) == RetriesLeft(State(spec, b))
  {}

  /** What MeasureDecreases says, of what follows an Observe. */
  ghost predicate Progress(w: World, s: State, helm: Option<HelmRelease>, s': State, act: Act,
                           helm': Option<HelmRelease>) {
    Fits(w, s') && !act.Delete? &&
    RetriesLeft(s') == RetriesLeft(s) - Bit(act.Retry?) &&
    (Deploys(act) ==> Phase(w, s, helm) == 1 && Phase(w, s', helm') == 0) &&
    (!Mutates(act) ==> Phase(w, s', helm') == Phase(w, s, helm))
  }

  lemma DeployProgress(w: World, s: State, st: ReleaseStatus, t: Tick, install: bool, kept: bool,
                       helm: Option<HelmRelease>, helm': Option<HelmRelease>)
    requires FixedInputs(w, t, helm) && Fits(w, s) && SameRecord(st, s.status)
    requires !Settled(w, s, helm)
    requires var d := DeployStep(w.codec, w.kube, s.spec, st, s.status, t.answers, install);
             FailsEveryDeploy(t, DeployAct(s.spec, d, kept), helm, helm')
    ensures var d := DeployStep(w.codec, w.kube, s.spec, st, s.status, t.answers, install);
            Progress(w, s, helm, Created(s.spec, d, s.status, kept), DeployAct(s.spec, d, kept), helm')
  {
    var d := DeployStep(w.codec, w.kube, s.spec, st, s.status, t.answers, install);
    DeploySettles(w, s, st, t, install, kept, helm, helm');
    SameRecords(w, s.spec, Stored(s.spec, d).status, s.status, helm);
    SameRecords(w, Stored(s.spec, d).spec, Stored(s.spec, d).status, s.status, helm');
  }

  lemma CreateProgress(w: World, s: State, st: ReleaseStatus, t: Tick, helm': Option<HelmRelease>)
    requires FixedInputs(w, t, None) && Fits(w, s) && SameRecord(st, s.status)
    requires var d := CreateStep(w.codec, w.kube, s.spec, st, s.status, t.namespaceOk, t.answers);
             FailsEveryDeploy(t, DeployAct(s.spec, d, t.keepsCreate), None, helm')
    ensures var d := CreateStep(w.codec, w.kube, s.spec, st, s.status, t.namespaceOk, t.answers);
            Progress(w, s, None, Created(s.spec, d, s.status, t.keepsCreate), DeployAct(s.spec, d, t.keepsCreate),
              helm')
  {
    if s.spec.skipCreateNamespace || t.namespaceOk {
      DeployProgress(w, s, st, t, true, t.keepsCreate, None, helm');
    } else {
      SameRecords(w, s.spec, st, s.status, None);
    }
  }

  lemma UpdateProgress(w: World, s: State, st: ReleaseStatus, t: Tick, helm: Option<HelmRelease>,
                       helm': Option<HelmRelease>)
    requires FixedInputs(w, t, helm) && Fits(w, s) && SameRecord(st, s.status)
    requires Settled(w, s, helm) ==> st.synced && st.atProvider.state == Failed
    requires var (s', act) := React(w.codec, s.spec, st, s.status, t, Ok(Seen(true, false, map[])));
             FailsEveryDeploy(t, act, helm, helm')
    requires !st.synced || WillRetry(s.spec, st)
    ensures var (s', act) := React(w.codec, s.spec, st, s.status, t, Ok(Seen(true, false, map[])));
            Progress(w, s, helm, s', act, helm')
  {
    if ShouldRollBack(s.spec, st) {
      SameRecords(w, s.spec, st, s.status, helm);
    } else {
      DeployProgress(w, s, st, t, false, true, helm, helm');
    }
  }

  /** Every reconcile keeps the fit, and every one that changes Helm decreases the measure. */
  lemma MeasureDecreases(w: World, s: State, t: Tick, helm: Option<HelmRelease>, helm': Option<HelmRelease>)
    requires FixedInputs(w, t, helm) && Fits(w, s)
    requires !Reconcile(w.codec, s, t).1.reset
    requires FailsEveryDeploy(t, Reconcile(w.codec, s, t).1.act, helm, helm')
    ensures Progress(w, s, helm, Reconcile(w.codec, s, t).0, Reconcile(w.codec, s, t).1.act, helm')
  {
    var (st, r) := Observed(w.codec, s, t);
    UnhealthyObserve(w, s, t, helm);
    SameRecords(w, s.spec, st, s.status, helm);
    if r.Ok? && !r.value.present {
      CreateProgress(w, s, st, t, helm');
    } else if r.Ok? && !r.value.upToDate {
      ObserveReports(w.codec, w.kube, s.spec, s.status, t.last.rel, t.reader);
      UpdateProgress(w, s, st, t, helm, helm');
    }
  }

  // ---------- Whole runs ----------

  function DeployRequests(trace: seq<Record>): nat {
    if trace == [] then 0 else Bit(Deploys(trace[0].act)) + DeployRequests(trace[1..])
  }

  /** At most the retries left, and at most one install or upgrade more than that. */
  lemma {:induction false} BoundedRetry(w: World, s: State, helm: Option<HelmRelease>, ticks: seq<Tick>,
                                        helms: seq<Option<HelmRelease>>)
    requires Fits(w, s) && Episode(w, s, helm, ticks, helms)
    ensures var (s', trace) := Run(w.codec, s, ticks);
            var final := if ticks == [] then helm else helms[|helms| - 1];
            Fits(w, s') &&
            Retries(trace) == RetriesLeft(s) - RetriesLeft(s') &&
            DeployRequests(trace) + Phase(w, s', final) <= Retries(trace) + Phase(w, s, helm)
    decreases |ticks|
  {
    if ticks != [] {
      var (s1, rec) := Reconcile(w.codec, s, ticks[0]);
      MeasureDecreases(w, s, ticks[0], helm, helms[0]);
      BoundedRetry(w, s1, helms[0], ticks[1..], helms[1..]);
      var trace := Run(w.codec, s, ticks).1;
      assert trace[0] == rec && trace[1..] == Run(w.codec, s1, ticks[1..]).1;
    }
  }

  lemma CountsWithinLimit(w: World, s: State, helm: Option<HelmRelease>, ticks: seq<Tick>,
                          helms: seq<Option<HelmRelease>>)
    requires Fits(w, s) && Episode(w, s, helm, ticks, helms)
    ensures var trace := Run(w.codec, s, ticks).1;
            Retries(trace) <= RetriesLeft(s) && DeployRequests(trace) <= RetriesLeft(s) + 1
  {
    BoundedRetry(w, s, helm, ticks, helms);
  }

  /** Once the retries are used up on a settled release, no reconcile touches Helm again. */
  lemma {:induction false} ThenQuiet(w: World, s: State, helm: Option<HelmRelease>, ticks: seq<Tick>,
                                     helms: seq<Option<HelmRelease>>)
    requires Fits(w, s) && Episode(w, s, helm, ticks, helms)
    requires RetriesLeft(s) == 0 && Settled(w, s, helm)
    ensures forall rec | rec in Run(w.codec, s, ticks).1 :: !Mutates(rec.act)
    decreases |ticks|
  {
    if ticks != [] {
      var (s1, rec) := Reconcile(w.codec, s, ticks[0]);
      MeasureDecreases(w, s, ticks[0], helm, helms[0]);
      assert !Mutates(rec.act);
      ThenQuiet(w, s1, helms[0], ticks[1..], helms[1..]);
      assert Run(w.codec, s, ticks).1 == [rec] + Run(w.codec, s1, ticks[1..]).1;
    }
  }

}
