/**
 Charts given by an OCI URL without tag and digest. The version pinned for them is compared, but the
 latest chart is what is pulled.
 */
module UntaggedUrls {
  import opened Wrappers
  import opened Values
  import opened Normalize
  import opened Sources
  import opened Compose
  import opened Patches
  import opened Drift
  import opened Release
  import opened Runs
  import opened FailingHelm
  import opened References
  import opened ChartKeys

  /** An OCI URL with neither version nor digest, in a spec without digest. */
  predicate Untagged(chart: ChartSpec) {
    IsOCI(chart.url) && chart.digest == "" &&
    var r := ResolveOCI(chart.url);
    r.Ok? && r.value.1 == "" && r.value.2 == ""
  }

  lemma UntaggedPlansLatest(chart: ChartSpec)
    requires Untagged(chart)
    ensures Plan(chart) == Ok(PullLatest)
  {
    assert chart.url != "";
  }

  /** The repository serves a newer chart than the one pinned, and Helm holds it. */
  ghost predicate RegistryMovedOn(codec: Codec, spec: ReleaseSpec, latest: ChartMeta, t: Tick) {
    t.edit == None && !t.deleted && ReachesHelm(codec, t.kube, spec, t.answers) && t.answers.pulled == Some(latest) &&
    t.last.Found? && t.last.rel.info.Some? && t.last.rel.info.value.status == Deployed &&
    t.last.rel.chart == Some(HelmChart(Some(latest)))
  }

  lemma MovedOnStep(codec: Codec, s: State, latest: ChartMeta, t: Tick)
    requires RegistryMovedOn(codec, s.spec, latest, t)
    requires UpdatesAllowed(s.spec) && !NeedsWrite(s.spec) && !VersionAccepts(s.spec.chart.version, latest.version)
    ensures var (s', rec) := Reconcile(codec, s, t);
            s'.spec == s.spec && rec.verdict == Some(false) && Deploys(rec.act)
  {
    var (st, r) := Observed(codec, s, t);
    ReconcileKeepsFilledSpec(codec, s, t);
    DeployCallsHelmIff(codec, t.kube, s.spec, st, s.status, t.answers, false);
  }

  /** The version pinned for an untagged URL is compared but never asked for. Once the registry serves
      another one, no Observe finds the release in sync again and every reconcile upgrades, also when every
      upgrade succeeds. */
  lemma {:induction false} UntaggedNeverAgreesAgain(codec: Codec, s: State, latest: ChartMeta, ticks: seq<Tick>)
    requires Untagged(s.spec.chart) && UpdatesAllowed(s.spec) && !NeedsWrite(s.spec)
    requires !VersionAccepts(s.spec.chart.version, latest.version)
    requires forall t | t in ticks :: RegistryMovedOn(codec, s.spec, latest, t)
    ensures Plan(s.spec.chart) == Ok(PullLatest)
    ensures var trace := Run(codec, s, ticks).1;
            DeployRequests(trace) == |ticks| && forall rec | rec in trace :: rec.verdict == Some(false)
    decreases |ticks|
  {
    UntaggedPlansLatest(s.spec.chart);
    if ticks != [] {
      var (s1, rec) := Reconcile(codec, s, ticks[0]);
      assert ticks[0] in ticks;
      MovedOnStep(codec, s, latest, ticks[0]);
      UntaggedNeverAgreesAgain(codec, s1, latest, ticks[1..]);
      var (s2, rest) := Run(codec, s1, ticks[1..]);
      var trace := Run(codec, s, ticks).1;
      assert trace == [rec] + rest && trace[0] == rec && trace[1..] == rest;
    }
  }

  /** Besides, it was deployed with the wanted values. */
  ghost predicate HoldsLatest(codec: Codec, kube: Kube, spec: ReleaseSpec, latest: ChartMeta, t: Tick) {
    RegistryMovedOn(codec, spec, latest, t) && t.kube == kube &&
    Holds(t.last.rel, Deployed, latest, ComposeValues(codec, kube, spec.values).value)
  }

  lemma {:induction false} AcceptedVersionIsQuiet(codec: Codec, kube: Kube, s: State, latest: ChartMeta,
                                                  ticks: seq<Tick>)
    requires Untagged(s.spec.chart) && s.spec.chart.name == latest.name
    requires VersionAccepts(s.spec.chart.version, latest.version)
    requires forall t | t in ticks :: HoldsLatest(codec, kube, s.spec, latest, t)
    requires ComposeValues(codec, kube, s.spec.values).Ok? ==>
               !HoldsNaN(Map(ComposeValues(codec, kube, s.spec.values).value))
    requires HasUpdates(codec, kube, s.spec.patchesFrom, s.status.patchesSha) == Ok(false)
    ensures forall rec | rec in Run(codec, s, ticks).1 :: rec.act == Idle
    decreases |ticks|
  {
    if ticks != [] {
      var t := ticks[0];
      assert t in ticks;
      JudgeHeld(s.spec.chart, s.spec.policies, t.last.rel, latest, ComposeValues(codec, kube, s.spec.values).value,
                s.status.atProvider.digest, Ok(false));
      InSyncStep(codec, kube, t.last.rel, s, t);
      AcceptedVersionIsQuiet(codec, kube, Reconcile(codec, s, t).0, latest, ticks[1..]);
      RunStep(codec, s, t, ticks[1..]);
      assert ticks == [t] + ticks[1..];
    }
  }

  /** With everything else in sync, the version decides: the latest chart is left alone for ever if the spec
      accepts its version, and deployed at every reconcile if not. */
  lemma UntaggedAgreesIff(codec: Codec, kube: Kube, s: State, latest: ChartMeta, ticks: seq<Tick>)
    requires Untagged(s.spec.chart) && UpdatesAllowed(s.spec) && !NeedsWrite(s.spec) && s.spec.chart.name == latest.name
    requires ticks != [] && forall t | t in ticks :: HoldsLatest(codec, kube, s.spec, latest, t)
    requires ComposeValues(codec, kube, s.spec.values).Ok? ==>
               !HoldsNaN(Map(ComposeValues(codec, kube, s.spec.values).value))
    requires HasUpdates(codec, kube, s.spec.patchesFrom, s.status.patchesSha) == Ok(false)
    ensures Plan(s.spec.chart) == Ok(PullLatest)
    ensures var trace := Run(codec, s, ticks).1;
            if VersionAccepts(s.spec.chart.version, latest.version) then forall rec | rec in trace :: rec.act == Idle
            else DeployRequests(trace) == |ticks|
  {
    UntaggedPlansLatest(s.spec.chart);
    if VersionAccepts(s.spec.chart.version, latest.version) {
      AcceptedVersionIsQuiet(codec, kube, s, latest, ticks);
    } else {
      UntaggedNeverAgreesAgain(codec, s, latest, ticks);
    }
  }
}
