/**
 Whole runs of the controller. The reconcile loop itself belongs to crossplane-runtime and is an
 assumption: each reconcile reads the stored resource (which users may have edited), connects,
 observes, then deletes a resource marked for deletion, creates an absent release, or updates one
 reported out of date, and stores the status at the end whatever happened.
 */
module Runs {
  import opened Wrappers
  import ConnectionDetails
  import opened Values
  import opened Sources
  import opened Compose
  import opened Patches
  import opened Drift
  import opened Release

  // ---------- One reconcile ----------

  /** Everything one reconcile meets: a user's edit of the spec, the sources, the answers it gets, and
      whether the status that a Create wrote is stored or discarded. */
  datatype Tick = Tick(
    edit: Option<ReleaseSpec>,
    kube: Kube,
    last: LastRelease,
    deleted: bool,
    reader: ConnectionDetails.Reader,
    namespaceOk: bool,
    answers: DeployAnswers,
    keepsCreate: bool)

  datatype State = State(spec: ReleaseSpec, status: ReleaseStatus)

  datatype Act =
    | Idle
    | Delete
    | Retry(call: HelmCall)
    | Deploy(request: Option<HelmCall>, owning: bool, done: bool, wrote: bool, kept: bool)

  /** What one reconcile did: the ownership flag Helm was given, whether a release was found, the drift
      verdict if one was reached, whether the retry count was cleared, and the action taken. A deploy is
      described by what it asked of Helm, the flag it would record, its success, whether it wrote
      late-initialised fields, and whether the status it left is stored. */
  datatype Record = Record(takesOwnership: bool, found: bool, verdict: Option<bool>, reset: bool, act: Act)

  function EffectiveSpec(s: State, t: Tick): ReleaseSpec {
    if t.edit.Some? then t.edit.value else s.spec
  }

  function VerdictOf(codec: Codec, s: State, t: Tick): Option<bool> {
    if !t.last.Found? || t.deleted then None
    else
      match Verdict(codec, t.kube, EffectiveSpec(s, t), s.status, t.last.rel)
      case Err(_) => None
      case Ok(b) => Some(b)
  }

  /** Late-initialised fields that could not be written are lost with the in-memory resource. */
  function Stored(spec: ReleaseSpec, d: Deployment): State {
    State(if d.err == Some(LateInitFailed) then spec else d.spec, d.status)
  }

  /** The same after a Create, whose status may be discarded. */
  function Created(spec: ReleaseSpec, d: Deployment, stored: ReleaseStatus, kept: bool): State {
    if kept then Stored(spec, d) else Stored(spec, d).(status := stored)
  }

  function DeployAct(spec: ReleaseSpec, d: Deployment, kept: bool): Act {
    Deploy(d.call, spec.takeOwnership, d.err == None, d.call.Some? && NeedsWrite(spec), kept)
  }

  /** What follows an Observe that reported `r`, while the API holds the status `stored`. */
  function React(codec: Codec, spec: ReleaseSpec, st: ReleaseStatus, stored: ReleaseStatus, t: Tick,
                 r: Result<Seen, Error>): (State, Act) {
    if r.Err? then (State(spec, st), Idle)
    else if t.deleted then (State(spec, st), if r.value.present then Delete else Idle)
    else if !r.value.present then
      var d := CreateStep(codec, t.kube, spec, st, stored, t.namespaceOk, t.answers);
      (Created(spec, d, stored, t.keepsCreate), DeployAct(spec, d, t.keepsCreate))
    else if r.value.upToDate then (State(spec, st), Idle)
    else
      var d := UpdateStep(codec, t.kube, spec, st, stored, t.answers);
      var act := if WillRetry(spec, st) then Retry(RetryCall(st))
                 else if ShouldRollBack(spec, st) then Idle
                 else DeployAct(spec, d, true);
      (Stored(spec, d), act)
  }

  function Observed(codec: Codec, s: State, t: Tick): (ReleaseStatus, Result<Seen, Error>) {
    ObserveStep(codec, t.kube, EffectiveSpec(s, t), s.status, t.last, t.deleted, t.reader)
  }

  /** The Observe saw the wanted release deployed. */
  predicate Healthy(codec: Codec, s: State, t: Tick) {
    VerdictOf(codec, s, t) == Some(true) && Observed(codec, s, t).0.atProvider.state == Deployed
  }

  function Reconcile(codec: Codec, s: State, t: Tick): (State, Record) {
    var spec := EffectiveSpec(s, t);
    var (st, r) := Observed(codec, s, t);
    var (s', act) := React(codec, spec, st, s.status, t, r);
    (s', Record(ConnectsTakingOwnership(spec, s.status), t.last.Found?, VerdictOf(codec, s, t), Healthy(codec, s, t),
      act))
  }

  function Run(codec: Codec, s: State, ticks: seq<Tick>): (r: (State, seq<Record>))
    ensures |r.1| == |ticks|
    decreases |ticks|
  {
    if ticks == [] then (s, [])
    else
      var (s1, rec) := Reconcile(codec, s, ticks[0]);
      var (s2, trace) := Run(codec, s1, ticks[1..]);
      (s2, [rec] + trace)
  }

  // ---------- Retry accounting ----------

  function Bit(b: bool): nat {
    if b then 1 else 0
  }

  function Retries(trace: seq<Record>): nat {
    if trace == [] then 0 else Bit(trace[0].act.Retry?) + Retries(trace[1..])
  }

  function Resets(trace: seq<Record>): nat {
    if trace == [] then 0 else Bit(trace[0].reset) + Resets(trace[1..])
  }

  /** Retries since the last reset, given `before` of them before the trace. */
  function RetriesSinceReset(trace: seq<Record>, before: int): int {
    if trace == [] then before
    else
      var carried := if trace[0].reset then 0 else before;
      RetriesSinceReset(trace[1..], carried + Bit(trace[0].act.Retry?))
  }

  /** The number of retries a limit allows. */
  function Allowance(limit: Option<int32>): nat {
    if limit.Some? && limit.value > 0 then limit.value as nat else 0
  }

  ghost predicate LimitFixed(s: State, ticks: seq<Tick>, limit: Option<int32>) {
    s.spec.rollbackLimit == limit &&
    forall t | t in ticks && t.edit.Some? :: t.edit.value.rollbackLimit == limit
  }

  lemma ObserveCounts(codec: Codec, s: State, t: Tick)
    ensures Observed(codec, s, t).0.failed == if Healthy(codec, s, t) then 0 else s.status.failed
    ensures Healthy(codec, s, t) ==>
            var r := Observed(codec, s, t).1;
            !t.deleted && (r.Ok? ==> r.value.present && r.value.upToDate)
  {}

  lemma DeployCounts(codec: Codec, spec: ReleaseSpec, st: ReleaseStatus, stored: ReleaseStatus, t: Tick, install: bool)
    requires stored.failed == st.failed
    ensures var s' := Stored(spec, DeployStep(codec, t.kube, spec, st, stored, t.answers, install));
            s'.status.failed == st.failed && s'.spec.rollbackLimit == spec.rollbackLimit
  {
    DeployNeverRetries(codec, t.kube, spec, st, stored, t.answers, install);
  }

  lemma CreateCounts(codec: Codec, spec: ReleaseSpec, st: ReleaseStatus, stored: ReleaseStatus, t: Tick)
    requires stored.failed == st.failed
    ensures var d := CreateStep(codec, t.kube, spec, st, stored, t.namespaceOk, t.answers);
            var s' := Created(spec, d, stored, t.keepsCreate);
            s'.status.failed == st.failed && s'.spec.rollbackLimit == spec.rollbackLimit
  {
    DeployCounts(codec, spec, st, stored, t, true);
  }

  lemma UpdateCounts(codec: Codec, spec: ReleaseSpec, st: ReleaseStatus, stored: ReleaseStatus, t: Tick)
    requires stored.failed == st.failed
    ensures var s' := Stored(spec, UpdateStep(codec, t.kube, spec, st, stored, t.answers));
            s'.status.failed as int == st.failed as int + Bit(WillRetry(spec, st)) &&
            s'.spec.rollbackLimit == spec.rollbackLimit
  {
    DeployCounts(codec, spec, st, stored, t, false);
  }

  lemma ReactCounts(codec: Codec, spec: ReleaseSpec, st: ReleaseStatus, stored: ReleaseStatus, t: Tick,
                    r: Result<Seen, Error>)
    requires r.Ok? && !(r.value.present && r.value.upToDate) ==> stored.failed == st.failed
    ensures var (s', act) := React(codec, spec, st, stored, t, r);
            s'.status.failed as int == st.failed as int + Bit(act.Retry?) &&
            (act.Retry? ==> spec.rollbackLimit.Some? && st.failed < spec.rollbackLimit.value) &&
            s'.spec.rollbackLimit == spec.rollbackLimit
  {
    if r.Ok? && !(r.value.present && r.value.upToDate) {
      CreateCounts(codec, spec, st, stored, t);
      UpdateCounts(codec, spec, st, stored, t);
    }
  }

  lemma RetryAccountingStep(codec: Codec, s: State, t: Tick)
    ensures var (s', rec) := Reconcile(codec, s, t);
            var carried: int := if rec.reset then 0 else s.status.failed as int;
            s'.status.failed as int == carried + Bit(rec.act.Retry?) &&
            (rec.act.Retry? && 0 <= carried ==> carried < Allowance(EffectiveSpec(s, t).rollbackLimit)) &&
            (rec.reset ==> !rec.act.Retry?) &&
            s'.spec.rollbackLimit == EffectiveSpec(s, t).rollbackLimit
  {
    var (st, r) := Observed(codec, s, t);
    ObserveCounts(codec, s, t);
    ReactCounts(codec, EffectiveSpec(s, t), st, s.status, t, r);
  }

  /** Between stored counts `before` and `after`: the count is the number of retries since the last reset,
      it is within the allowance `a`, and the retries are bounded by it times the number of resets. */
  predicate Accounts(before: int, trace: seq<Record>, after: int, a: nat) {
    after == RetriesSinceReset(trace, before) && 0 <= after <= a &&
    Retries(trace) <= a * Resets(trace) + a - before
  }

  lemma AccountsLonger(before: int, rec: Record, mid: int, rest: seq<Record>, after: int, a: nat)
    requires 0 <= before <= a && Accounts(mid, rest, after, a)
    requires mid == (if rec.reset then 0 else before) + Bit(rec.act.Retry?)
    requires rec.reset ==> !rec.act.Retry?
    ensures Accounts(before, [rec] + rest, after, a)
  {}

  /** This holds over every run with a fixed limit. */
  lemma {:induction false} RetryAccounting(codec: Codec, s: State, ticks: seq<Tick>, limit: Option<int32>)
    requires LimitFixed(s, ticks, limit)
    requires 0 <= s.status.failed as int <= Allowance(limit)
    ensures var (s', trace) := Run(codec, s, ticks);
            Accounts(s.status.failed as int, trace, s'.status.failed as int, Allowance(limit))
    decreases |ticks|
  {
    if ticks != [] {
      var (s1, rec) := Reconcile(codec, s, ticks[0]);
      RetryAccountingStep(codec, s, ticks[0]);
      LimitStaysFixed(codec, s, ticks, limit);
      RetryAccounting(codec, s1, ticks[1..], limit);
      var (s2, rest) := Run(codec, s1, ticks[1..]);
      AccountsLonger(s.status.failed as int, rec, s1.status.failed as int, rest, s2.status.failed as int,
        Allowance(limit));
    }
  }

  lemma LimitStaysFixed(codec: Codec, s: State, ticks: seq<Tick>, limit: Option<int32>)
    requires LimitFixed(s, ticks, limit) && ticks != []
    ensures EffectiveSpec(s, ticks[0]).rollbackLimit == limit
    ensures LimitFixed(Reconcile(codec, s, ticks[0]).0, ticks[1..], limit)
  {
    RetryAccountingStep(codec, s, ticks[0]);
  }

  /** From a new resource: at most the limit times one more than the number of resets. */
  lemma RetriesBoundedByResets(codec: Codec, spec: ReleaseSpec, ticks: seq<Tick>, limit: Option<int32>)
    requires LimitFixed(State(spec, NEW_STATUS), ticks, limit)
    ensures var trace := Run(codec, State(spec, NEW_STATUS), ticks).1;
            Retries(trace) <= Allowance(limit) * (Resets(trace) + 1)
  {
    RetryAccounting(codec, State(spec, NEW_STATUS), ticks, limit);
    var (s', trace) := Run(codec, State(spec, NEW_STATUS), ticks);
    BoundFromNothing(trace, s'.status.failed as int, Allowance(limit));
  }

  lemma BoundFromNothing(trace: seq<Record>, after: int, a: nat)
    requires Accounts(0, trace, after, a)
    ensures Retries(trace) <= a * (Resets(trace) + 1)
  {}

  // ---------- Ownership ----------

  /** Whether the latest event was a deploy with takeOwnership on, among successful deploys whose status was
      stored and Observes that found a release and whose reconcile did not go on to write late-initialised
      fields: the reply to that write brings back the status from before the Observe. */
  predicate LastTookOwnership(trace: seq<Record>, before: bool)
    decreases |trace|
  {
    if trace == [] then before
    else
      var rec := trace[0];
      var now := if rec.act.Deploy? && rec.act.done && rec.act.kept then rec.act.owning
                 else if rec.found && !(rec.act.Deploy? && rec.act.wrote) then false
                 else before;
      LastTookOwnership(trace[1..], now)
  }

  lemma DeployOwnership(codec: Codec, spec: ReleaseSpec, st: ReleaseStatus, stored: ReleaseStatus, t: Tick,
                        install: bool)
    ensures var d := DeployStep(codec, t.kube, spec, st, stored, t.answers, install);
            Stored(spec, d).status.atProvider.ownershipTaken ==
            if d.err == None then spec.takeOwnership
            else if d.call.Some? && NeedsWrite(spec) then stored.atProvider.ownershipTaken
            else st.atProvider.ownershipTaken
  {}

  predicate OwnershipAfter(st: ReleaseStatus, stored: ReleaseStatus, act: Act) {
    if act.Deploy? && !act.kept then stored.atProvider.ownershipTaken
    else if act.Deploy? && act.done then act.owning
    else if act.Deploy? && act.wrote then stored.atProvider.ownershipTaken
    else st.atProvider.ownershipTaken
  }

  lemma CreateOwnership(codec: Codec, spec: ReleaseSpec, st: ReleaseStatus, stored: ReleaseStatus, t: Tick)
    ensures var d := CreateStep(codec, t.kube, spec, st, stored, t.namespaceOk, t.answers);
            Created(spec, d, stored, t.keepsCreate).status.atProvider.ownershipTaken ==
            OwnershipAfter(st, stored, DeployAct(spec, d, t.keepsCreate))
  {
    DeployOwnership(codec, spec, st, stored, t, true);
  }

  lemma UpdateOwnership(codec: Codec, spec: ReleaseSpec, st: ReleaseStatus, stored: ReleaseStatus, t: Tick)
    ensures var d := UpdateStep(codec, t.kube, spec, st, stored, t.answers);
            Stored(spec, d).status.atProvider.ownershipTaken ==
            OwnershipAfter(st, stored, if ShouldRollBack(spec, st) then Idle else DeployAct(spec, d, true))
  {
    DeployOwnership(codec, spec, st, stored, t, false);
  }

  lemma ReactOwnership(codec: Codec, spec: ReleaseSpec, st: ReleaseStatus, stored: ReleaseStatus, t: Tick,
                       r: Result<Seen, Error>)
    ensures var (s', act) := React(codec, spec, st, stored, t, r);
            s'.status.atProvider.ownershipTaken == OwnershipAfter(st, stored, act)
  {
    CreateOwnership(codec, spec, st, stored, t);
    UpdateOwnership(codec, spec, st, stored, t);
  }

  lemma OwnershipStep(codec: Codec, s: State, t: Tick)
    ensures var (s', rec) := Reconcile(codec, s, t);
            s'.status.atProvider.ownershipTaken == LastTookOwnership([rec], s.status.atProvider.ownershipTaken)
  {
    var (st, r) := Observed(codec, s, t);
    assert st.atProvider.ownershipTaken == if t.last.Found? then false else s.status.atProvider.ownershipTaken;
    ReactOwnership(codec, EffectiveSpec(s, t), st, s.status, t, r);
  }

  /** The exact ownership rule, and the flag the next reconcile passes to Helm. */
  lemma {:induction false} OwnershipRule(codec: Codec, s: State, ticks: seq<Tick>, next: Tick)
    ensures var (s', trace) := Run(codec, s, ticks);
            var taken := LastTookOwnership(trace, s.status.atProvider.ownershipTaken);
            s'.status.atProvider.ownershipTaken == taken &&
            Reconcile(codec, s', next).1.takesOwnership == (EffectiveSpec(s', next).takeOwnership && !taken)
    decreases |ticks|
  {
    if ticks != [] {
      var (s1, rec) := Reconcile(codec, s, ticks[0]);
      OwnershipStep(codec, s, ticks[0]);
      OwnershipRule(codec, s1, ticks[1..], next);
      var trace := Run(codec, s, ticks).1;
      assert trace[0] == rec && trace[1..] == Run(codec, s1, ticks[1..]).1;
      assert LastTookOwnership([rec], s.status.atProvider.ownershipTaken) == s1.status.atProvider.ownershipTaken;
    }
  }

  // A resource with takeOwnership on: install, one quiet reconcile, an edit of the version.

  const CODEC := Codec(text => Some(map[]), (text, base) => Some(base), text => Some([]), patches => Some("0"))
  const KUBE := Kube(ref => NotFound, ref => NotFound)
  const READER := ConnectionDetails.Reader(ref => None, text => None)
  const SPEC := ReleaseSpec(ChartSpec("r", "c", "1", "", ""), "n", true, true, ValuesSpec("", [], []), [], [], None, [])
  const EDITED := SPEC.(chart := SPEC.chart.(version := "2"))

  function OnVersion(version: string): HelmRelease {
    HelmRelease("r", "n", Some(Info(Deployed, "")), 1, Some(HelmChart(Some(ChartMeta("c", version)))), None)
  }

  function Answers(version: string): DeployAnswers {
    DeployAnswers(true, Some(ChartMeta("c", version)), true, ActionDone(OnVersion(version)))
  }

  const QUIET := Tick(None, KUBE, Found(OnVersion("1")), false, READER, true, Answers("1"), true)
  const UPGRADE := Tick(Some(EDITED), KUBE, Found(OnVersion("1")), false, READER, true, Answers("2"), true)

  function Installing(kept: bool): Tick {
    Tick(None, KUBE, Absent, false, READER, true, Answers("1"), kept)
  }

  lemma InstallTakesOwnership(kept: bool)
    ensures var (s', rec) := Reconcile(CODEC, State(SPEC, NEW_STATUS), Installing(kept));
            rec.takesOwnership && DeploySucceeded(rec) &&
            s'.spec == SPEC && s'.status.patchesSha == "" && s'.status.atProvider.digest == ""
  {}

  lemma QuietForgetsOwnership(s: State)
    requires s.spec == SPEC && s.status.patchesSha == "" && s.status.atProvider.digest == ""
    ensures var (s', rec) := Reconcile(CODEC, s, QUIET);
            rec.verdict == Some(true) && !s'.status.atProvider.ownershipTaken &&
            s'.status.patchesSha == "" && s'.status.atProvider.digest == ""
  {
    EmptyValues(CODEC, KUBE);
    assert VerdictOf(CODEC, s, QUIET) == Some(true);
  }

  lemma UpgradeIsDue(s: State)
    ensures VerdictOf(CODEC, s, UPGRADE) == Some(false)
  {
    EmptyValues(CODEC, KUBE);
  }

  lemma UpgradeSucceeds(st: ReleaseStatus, stored: ReleaseStatus)
    ensures DeployStep(CODEC, KUBE, EDITED, st, stored, Answers("2"), false).err == None
  {
    EmptyValues(CODEC, KUBE);
  }

  lemma UpgradeTakesOwnership(s: State)
    requires !s.status.atProvider.ownershipTaken
    ensures var rec := Reconcile(CODEC, s, UPGRADE).1;
            rec.takesOwnership && DeploySucceeded(rec)
  {
    UpgradeIsDue(s);
    UpgradeSucceeds(Observed(CODEC, s, UPGRADE).0, s.status);
  }

  /** So takeOwnership is not used only once: the upgrade takes ownership a second time, whether or not the
      status of the install is kept. */
  lemma OwnershipTakenTwice(kept: bool)
    ensures var trace := Run(CODEC, State(SPEC, NEW_STATUS), [Installing(kept), QUIET, UPGRADE]).1;
            trace[0].takesOwnership && DeploySucceeded(trace[0]) &&
            trace[2].takesOwnership && DeploySucceeded(trace[2])
  {
    var s0 := State(SPEC, NEW_STATUS);
    var (s1, r1) := Reconcile(CODEC, s0, Installing(kept));
    var (s2, r2) := Reconcile(CODEC, s1, QUIET);
    InstallTakesOwnership(kept);
    QuietForgetsOwnership(s1);
    UpgradeTakesOwnership(s2);
    RunOfOne(CODEC, s2, UPGRADE);
    RunStep(CODEC, s1, QUIET, [UPGRADE]);
    RunStep(CODEC, s0, Installing(kept), [QUIET, UPGRADE]);
    assert [Installing(kept)] + [QUIET, UPGRADE] == [Installing(kept), QUIET, UPGRADE];
    assert [QUIET] + [UPGRADE] == [QUIET, UPGRADE];
  }

  lemma RunStep(codec: Codec, s: State, t: Tick, rest: seq<Tick>)
    ensures var (s1, rec) := Reconcile(codec, s, t);
            var (s2, trace) := Run(codec, s1, rest);
            Run(codec, s, [t] + rest) == (s2, [rec] + trace)
  {
    assert ([t] + rest)[1..] == rest;
  }

  lemma RunOfOne(codec: Codec, s: State, t: Tick)
    ensures Run(codec, s, [t]).1 == [Reconcile(codec, s, t).1]
  {}

  lemma EmptyValues(codec: Codec, kube: Kube)
    requires codec.parseValues("") == Some(map[])
    ensures ComposeValues(codec, kube, ValuesSpec("", [], [])) == Ok(map[])
    ensures PatchesFrom(codec, kube, []) == Ok([])
  {
    MergeAllSnoc([], map[]);
    MergeRightIdentity(map[]);
  }

  // ---------- Digest drift ----------

  /** Updates are allowed and the spec asks for another digest than `recorded`. */
  predicate WantsOtherDigest(spec: ReleaseSpec, recorded: string) {
    UpdatesAllowed(spec) && spec.chart.digest != "" && spec.chart.digest != recorded
  }

  predicate DeploySucceeded(rec: Record) {
    rec.act.Deploy? && rec.act.done
  }

  predicate DeployRecorded(rec: Record) {
    DeploySucceeded(rec) && rec.act.kept
  }

  lemma ReactKeepsDigest(codec: Codec, spec: ReleaseSpec, st: ReleaseStatus, stored: ReleaseStatus, t: Tick,
                         r: Result<Seen, Error>)
    requires stored.atProvider.digest == st.atProvider.digest
    ensures var (s', act) := React(codec, spec, st, stored, t, r);
            s'.spec.policies == spec.policies && s'.spec.chart.digest == spec.chart.digest &&
            (if act.Deploy? && act.done && act.kept then s'.status.atProvider.digest == spec.chart.digest
             else s'.status.atProvider.digest == st.atProvider.digest)
  {
    CreateKeepsDigest(codec, spec, st, stored, t);
    UpdateKeepsDigest(codec, spec, st, stored, t);
  }

  predicate DigestKept(spec: ReleaseSpec, st: ReleaseStatus, s': State, deployed: bool) {
    s'.spec.policies == spec.policies && s'.spec.chart.digest == spec.chart.digest &&
    s'.status.atProvider.digest == if deployed then spec.chart.digest else st.atProvider.digest
  }

  lemma CreateKeepsDigest(codec: Codec, spec: ReleaseSpec, st: ReleaseStatus, stored: ReleaseStatus, t: Tick)
    requires stored.atProvider.digest == st.atProvider.digest
    ensures var d := CreateStep(codec, t.kube, spec, st, stored, t.namespaceOk, t.answers);
            DigestKept(spec, st, Created(spec, d, stored, t.keepsCreate), d.err == None && t.keepsCreate)
  {
    DeployKeepsDigest(codec, spec, st, stored, t, true);
  }

  lemma UpdateKeepsDigest(codec: Codec, spec: ReleaseSpec, st: ReleaseStatus, stored: ReleaseStatus, t: Tick)
    requires stored.atProvider.digest == st.atProvider.digest
    ensures var d := UpdateStep(codec, t.kube, spec, st, stored, t.answers);
            DigestKept(spec, st, Stored(spec, d), d.err == None && !ShouldRollBack(spec, st))
  {
    DeployKeepsDigest(codec, spec, st, stored, t, false);
  }

  lemma DeployKeepsDigest(codec: Codec, spec: ReleaseSpec, st: ReleaseStatus, stored: ReleaseStatus, t: Tick,
                          install: bool)
    requires stored.atProvider.digest == st.atProvider.digest
    ensures var d := DeployStep(codec, t.kube, spec, st, stored, t.answers, install);
            d.spec.policies == spec.policies && d.spec.chart.digest == spec.chart.digest &&
            d.status.atProvider.digest == if d.err == None then spec.chart.digest else st.atProvider.digest
  {
    if HasInputs(codec, t.kube, spec, t.answers) {
      ActionKeepsDigest(codec, LateInit(spec, t.answers.pulled.value), StatusAfterWrite(spec, st, stored),
                        DeployCall(codec, t.kube, spec, t.answers, install),
                        PatchesFrom(codec, t.kube, spec.patchesFrom).value, t.answers.action);
    }
  }

  lemma ActionKeepsDigest(codec: Codec, spec: ReleaseSpec, st: ReleaseStatus, call: HelmCall, patches: seq<Patch>,
                          answer: ActionAnswer)
    ensures var d := AfterAction(codec, spec, st, call, patches, answer);
            d.spec == spec && d.err != Some(LateInitFailed) &&
            d.status.atProvider.digest == if d.err == None then spec.chart.digest else st.atProvider.digest
  {}

  /** While the wanted digest differs from the recorded one, every verdict is out of sync and the recorded
      digest stays, over any run in which no deploy succeeds and is recorded. */
  lemma {:induction false} DigestDriftPersists(codec: Codec, s: State, ticks: seq<Tick>, recorded: string)
    requires recorded != "" && s.status.atProvider.digest == recorded
    requires WantsOtherDigest(s.spec, recorded)
    requires forall t | t in ticks && t.edit.Some? :: WantsOtherDigest(t.edit.value, recorded)
    requires forall rec | rec in Run(codec, s, ticks).1 :: !DeployRecorded(rec)
    ensures var (s', trace) := Run(codec, s, ticks);
            s'.status.atProvider.digest == recorded &&
            forall rec | rec in trace :: rec.verdict != Some(true) && !rec.reset
    decreases |ticks|
  {
    if ticks != [] {
      var t := ticks[0];
      var (s1, rec) := Reconcile(codec, s, t);
      var (st, r) := Observed(codec, s, t);
      var (s2, rest) := Run(codec, s1, ticks[1..]);
      assert Run(codec, s, ticks).1 == [rec] + rest;
      assert rec in [rec] + rest;
      OtherDigestIsDrift(codec, s, t, recorded);
      ObserveKeepsDigest(codec, t.kube, EffectiveSpec(s, t), s.status, t.last, t.deleted, t.reader);
      ReactKeepsDigest(codec, EffectiveSpec(s, t), st, s.status, t, r);
      forall x | x in rest ensures !DeployRecorded(x) {
        assert x in [rec] + rest;
      }
      DigestDriftPersists(codec, s1, ticks[1..], recorded);
    }
  }

  lemma OtherDigestIsDrift(codec: Codec, s: State, t: Tick, recorded: string)
    requires recorded != "" && s.status.atProvider.digest == recorded
    requires WantsOtherDigest(EffectiveSpec(s, t), recorded)
    ensures VerdictOf(codec, s, t) != Some(true)
  {}

  // ---------- What Helm is asked for ----------

  lemma DeployAsks(codec: Codec, spec: ReleaseSpec, st: ReleaseStatus, stored: ReleaseStatus, t: Tick, install: bool)
    ensures var d := DeployStep(codec, t.kube, spec, st, stored, t.answers, install);
            d.call.Some? ==>
              t.answers.pulled.Some? && ComposeValues(codec, t.kube, spec.values).Ok? &&
              PatchesFrom(codec, t.kube, spec.patchesFrom).Ok? &&
              var chart, values := t.answers.pulled.value, ComposeValues(codec, t.kube, spec.values).value;
              var patches := PatchesFrom(codec, t.kube, spec.patchesFrom).value;
              d.call.value == if install then Install(chart, values, patches) else Upgrade(chart, values, patches)
  {}

  /** A reconcile installs only what is not there and upgrades only what is, each time with the chart pulled and
      all values and patches of the spec; it rolls back and uninstalls only what it found, and it deletes only a
      resource marked for deletion. */
  lemma AsksHelmFor(codec: Codec, s: State, t: Tick)
    ensures var spec, act := EffectiveSpec(s, t), Reconcile(codec, s, t).1.act;
            (act.Retry? || act.Delete? ==> t.last.Found?) && (act.Delete? ==> t.deleted) &&
            (act.Deploy? ==> !t.deleted && (t.last.Found? || t.last.Absent?)) &&
            (act.Deploy? && act.request.Some? ==>
              t.answers.pulled.Some? && ComposeValues(codec, t.kube, spec.values).Ok? &&
              PatchesFrom(codec, t.kube, spec.patchesFrom).Ok? &&
              var chart, values := t.answers.pulled.value, ComposeValues(codec, t.kube, spec.values).value;
              var patches := PatchesFrom(codec, t.kube, spec.patchesFrom).value;
              act.request.value ==
              if t.last.Absent? then Install(chart, values, patches) else Upgrade(chart, values, patches))
  {
    var (st, r) := Observed(codec, s, t);
    DeployAsks(codec, EffectiveSpec(s, t), st, s.status, t, true);
    DeployAsks(codec, EffectiveSpec(s, t), st, s.status, t, false);
  }

  // ---------- Late initialisation ----------

  ghost predicate NoEdits(ticks: seq<Tick>) {
    forall t | t in ticks :: t.edit == None
  }

  lemma DeployKeepsFilledSpec(codec: Codec, spec: ReleaseSpec, st: ReleaseStatus, stored: ReleaseStatus, t: Tick,
                              install: bool)
    requires !NeedsWrite(spec)
    ensures DeployStep(codec, t.kube, spec, st, stored, t.answers, install).spec == spec
  {}

  lemma ReconcileKeepsFilledSpec(codec: Codec, s: State, t: Tick)
    requires t.edit == None && !NeedsWrite(s.spec)
    ensures Reconcile(codec, s, t).0.spec == s.spec
  {
    var (st, r) := Observed(codec, s, t);
    DeployKeepsFilledSpec(codec, s.spec, st, s.status, t, true);
    DeployKeepsFilledSpec(codec, s.spec, st, s.status, t, false);
  }

  /** A spec with nothing left to fill in is never written again. */
  lemma {:induction false} FilledSpecStays(codec: Codec, s: State, ticks: seq<Tick>)
    requires NoEdits(ticks) && !NeedsWrite(s.spec)
    ensures Run(codec, s, ticks).0.spec == s.spec
    decreases |ticks|
  {
    if ticks != [] {
      ReconcileKeepsFilledSpec(codec, s, ticks[0]);
      FilledSpecStays(codec, Reconcile(codec, s, ticks[0]).0, ticks[1..]);
    }
  }

  lemma DeployFillsSpec(codec: Codec, spec: ReleaseSpec, st: ReleaseStatus, stored: ReleaseStatus, t: Tick,
                        install: bool)
    ensures var d := DeployStep(codec, t.kube, spec, st, stored, t.answers, install);
            d.call.Some? ==> t.answers.pulled.Some? && d.err != Some(LateInitFailed) &&
                             d.spec == LateInit(spec, t.answers.pulled.value)
  {}

  /** The reconcile that first reaches Helm with an open version pins the pulled one; from then on the spec
      never changes again. */
  lemma LateInitPinsVersion(codec: Codec, s: State, t: Tick, ticks: seq<Tick>)
    requires t.edit == None && NoEdits(ticks)
    requires LateInitAllowed(s.spec) && s.spec.chart.version == "" && s.spec.chart.digest == ""
    requires var act := Reconcile(codec, s, t).1.act; act.Deploy? && act.request.Some?
    requires t.answers.pulled.Some? ==> t.answers.pulled.value.name != "" && t.answers.pulled.value.version != ""
    ensures var pinned := Reconcile(codec, s, t).0.spec;
            t.answers.pulled.Some? && pinned == LateInit(s.spec, t.answers.pulled.value) &&
            pinned.chart.version == t.answers.pulled.value.version &&
            Run(codec, Reconcile(codec, s, t).0, ticks).0.spec == pinned
  {
    var (st, r) := Observed(codec, s, t);
    DeployFillsSpec(codec, s.spec, st, s.status, t, true);
    DeployFillsSpec(codec, s.spec, st, s.status, t, false);
    FilledSpecStays(codec, Reconcile(codec, s, t).0, ticks);
  }

  lemma DeployKeepsPinned(codec: Codec, spec: ReleaseSpec, st: ReleaseStatus, stored: ReleaseStatus, t: Tick,
                          install: bool)
    requires spec.chart.digest != ""
    ensures var d := DeployStep(codec, t.kube, spec, st, stored, t.answers, install);
            d.spec.chart == spec.chart.(name := d.spec.chart.name) &&
            (d.spec.chart.name != spec.chart.name ==> spec.chart.name == "")
  {}

  lemma ReconcileKeepsPinned(codec: Codec, s: State, t: Tick)
    requires t.edit == None && s.spec.chart.digest != ""
    ensures var spec := Reconcile(codec, s, t).0.spec;
            spec.chart == s.spec.chart.(name := spec.chart.name) &&
            (spec.chart.name != s.spec.chart.name ==> s.spec.chart.name == "")
  {
    var (st, r) := Observed(codec, s, t);
    DeployKeepsPinned(codec, s.spec, st, s.status, t, true);
    DeployKeepsPinned(codec, s.spec, st, s.status, t, false);
  }

  /** With a digest in the spec, no run fills in a version: late initialisation changes at most an empty name. */
  lemma {:induction false} DigestLeavesVersion(codec: Codec, s: State, ticks: seq<Tick>)
    requires NoEdits(ticks) && s.spec.chart.digest != ""
    ensures var spec := Run(codec, s, ticks).0.spec;
            spec.chart == s.spec.chart.(name := spec.chart.name) &&
            (spec.chart.name != s.spec.chart.name ==> s.spec.chart.name == "")
    decreases |ticks|
  {
    if ticks != [] {
      ReconcileKeepsPinned(codec, s, ticks[0]);
      DigestLeavesVersion(codec, Reconcile(codec, s, ticks[0]).0, ticks[1..]);
    }
  }

  // ---------- Deletion ----------

  /** A resource marked for deletion has its release uninstalled, if Helm holds one, and nothing else happens,
      whatever has become of the sources: no part of the outcome depends on them, nor on the objects whose values
      are published. */
  lemma DeletionNeedsNoSources(codec: Codec, s: State, t: Tick, codec': Codec, kube: Kube,
                               reader: ConnectionDetails.Reader)
    requires t.deleted
    ensures Reconcile(codec, s, t).1.act == if t.last.Found? then Delete else Idle
    ensures Reconcile(codec', s, t.(kube := kube, reader := reader)) == Reconcile(codec, s, t)
  {}

  // ---------- Quiescence ----------

  /** Nobody edits or deletes the resource, the sources stay, and Helm keeps holding `rel`. */
  ghost predicate NothingChanges(t: Tick, kube: Kube, rel: HelmRelease) {
    t.edit == None && !t.deleted && t.kube == kube && t.last == Found(rel)
  }

  lemma InSyncStep(codec: Codec, kube: Kube, rel: HelmRelease, s: State, t: Tick)
    requires NothingChanges(t, kube, rel) && rel.info.Some? && rel.info.value.status == Deployed
    requires Verdict(codec, kube, s.spec, s.status, rel) == Ok(true)
    ensures var (s', rec) := Reconcile(codec, s, t);
            rec.act == Idle && s'.spec == s.spec && s'.status.patchesSha == s.status.patchesSha &&
            Verdict(codec, kube, s'.spec, s'.status, rel) == Ok(true)
  {}

  /** A deployed release in sync is left alone for ever. */
  lemma {:induction false} InSyncStaysQuiet(codec: Codec, kube: Kube, rel: HelmRelease, s: State, ticks: seq<Tick>)
    requires forall t | t in ticks :: NothingChanges(t, kube, rel)
    requires rel.info.Some? && rel.info.value.status == Deployed
    requires Verdict(codec, kube, s.spec, s.status, rel) == Ok(true)
    ensures var (s', trace) := Run(codec, s, ticks);
            s'.spec == s.spec && forall rec | rec in trace :: rec.act == Idle
    decreases |ticks|
  {
    if ticks != [] {
      var (s1, rec) := Reconcile(codec, s, ticks[0]);
      assert ticks[0] in ticks;
      InSyncStep(codec, kube, rel, s, ticks[0]);
      InSyncStaysQuiet(codec, kube, rel, s1, ticks[1..]);
      assert Run(codec, s, ticks).1 == [rec] + Run(codec, s1, ticks[1..]).1;
    }
  }

  /** An edit of nothing but the URL and the repository. */
  ghost predicate EditsSource(s: State, t: Tick, url: string, repository: string) {
    t.edit == Some(s.spec.(chart := s.spec.chart.(url := url, repository := repository)))
  }

  lemma SourceEditStep(codec: Codec, kube: Kube, rel: HelmRelease, s: State, t: Tick, url: string, repository: string)
    requires EditsSource(s, t, url, repository) && NothingChanges(t.(edit := None), kube, rel)
    requires rel.info.Some? && rel.info.value.status == Deployed
    requires Verdict(codec, kube, s.spec, s.status, rel) == Ok(true)
    ensures var (s', rec) := Reconcile(codec, s, t);
            rec.act == Idle && s'.spec == t.edit.value && Verdict(codec, kube, s'.spec, s'.status, rel) == Ok(true)
  {}

  /** The drift check reads neither the URL nor the repository. An edit of them alone, the tag or digest
      written in a URL included, is stored and never deployed. */
  lemma SourceEditIsNotDeployed(codec: Codec, kube: Kube, rel: HelmRelease, s: State, t: Tick, ticks: seq<Tick>,
                                url: string, repository: string)
    requires EditsSource(s, t, url, repository) && NothingChanges(t.(edit := None), kube, rel)
    requires forall later | later in ticks :: NothingChanges(later, kube, rel)
    requires rel.info.Some? && rel.info.value.status == Deployed
    requires Verdict(codec, kube, s.spec, s.status, rel) == Ok(true)
    ensures var (s', trace) := Run(codec, s, [t] + ticks);
            s'.spec.chart.url == url && s'.spec.chart.repository == repository &&
            forall rec | rec in trace :: rec.act == Idle
  {
    SourceEditStep(codec, kube, rel, s, t, url, repository);
    InSyncStaysQuiet(codec, kube, rel, Reconcile(codec, s, t).0, ticks);
    RunStep(codec, s, t, ticks);
  }

  /** In particular after a deploy of a chart and values that the spec describes. */
  lemma DeployThenQuietForever(codec: Codec, kube: Kube, spec: ReleaseSpec, status: ReleaseStatus,
                               stored: ReleaseStatus,
                               answers: DeployAnswers, install: bool, rel: HelmRelease, ticks: seq<Tick>)
    requires DeployStep(codec, kube, spec, status, stored, answers, install).err == None
    requires Holds(rel, Deployed, answers.pulled.value, ComposeValues(codec, kube, spec.values).value)
    requires Describes(spec, answers.pulled.value, ComposeValues(codec, kube, spec.values).value)
    requires forall t | t in ticks :: NothingChanges(t, kube, rel)
    ensures var done := DeployStep(codec, kube, spec, status, stored, answers, install);
            var (s', trace) := Run(codec, State(done.spec, done.status), ticks);
            s'.spec == done.spec && forall rec | rec in trace :: rec.act == Idle
  {
    var done := DeployStep(codec, kube, spec, status, stored, answers, install);
    DeployThenInSyncIff(codec, kube, spec, status, stored, answers, install, rel);
    InSyncStaysQuiet(codec, kube, rel, State(done.spec, done.status), ticks);
  }
}
