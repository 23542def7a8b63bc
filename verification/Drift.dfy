/** Release resources, Helm's record of a release, and the decision whether the two agree. */
module Drift {
  import opened Wrappers
  import opened Values
  import opened Normalize
  import opened Sources
  import opened Compose
  import opened Patches
  import ConnectionDetails

  newtype int32 = x: int | -0x8000_0000 <= x < 0x8000_0000

  const DEVEL := ">0.0.0-0"

  // ---------- Helm's side ----------

  datatype HelmStatus =
    | Unset | Unknown | Deployed | Uninstalled | Superseded | Failed | Uninstalling
    | PendingInstall | PendingUpgrade | PendingRollback

  datatype Info = Info(status: HelmStatus, description: string)

  datatype ChartMeta = ChartMeta(name: string, version: string)

  datatype HelmChart = HelmChart(metadata: Option<ChartMeta>)

  datatype HelmRelease = HelmRelease(
    name: string,
    namespace: string,
    info: Option<Info>,
    version: int,
    chart: Option<HelmChart>,
    config: Option<Entries>)

  // ---------- The custom resource ----------

  datatype ManagementAction = AllActions | ObserveAction | CreateAction | UpdateAction | DeleteAction | LateInitialize

  datatype ChartSpec = ChartSpec(repository: string, name: string, version: string, url: string, digest: string)

  datatype ReleaseSpec = ReleaseSpec(
    chart: ChartSpec,
    namespace: string,
    skipCreateNamespace: bool,
    takeOwnership: bool,
    values: ValuesSpec,
    patchesFrom: seq<ValueFromSource>,
    policies: seq<ManagementAction>,
    rollbackLimit: Option<int32>,
    details: seq<ConnectionDetails.Detail>)

  datatype ReleaseObservation = ReleaseObservation(
    state: HelmStatus,
    description: string,
    revision: int,
    digest: string,
    version: string,
    ownershipTaken: bool)

  const NO_OBSERVATION := ReleaseObservation(Unset, "", 0, "", "", false)

  function GenerateObservation(rel: HelmRelease): ReleaseObservation {
    var o := match rel.info
             case None => NO_OBSERVATION
             case Some(i) => NO_OBSERVATION.(state := i.status, description := i.description, revision := rel.version);
    match rel.chart
    case Some(HelmChart(Some(m))) => o.(version := m.version)
    case _ => o
  }

  predicate IsPending(s: HelmStatus) {
    s == PendingInstall || s == PendingUpgrade || s == PendingRollback
  }

  predicate AllowUpdates(policies: seq<ManagementAction>) {
    policies == [] || UpdateAction in policies || AllActions in policies
  }

  predicate UpdatesAllowed(spec: ReleaseSpec) {
    AllowUpdates(spec.policies)
  }

  predicate LateInitAllowed(spec: ReleaseSpec) {
    spec.policies == [] || LateInitialize in spec.policies || AllActions in spec.policies
  }

  predicate VersionAccepts(wanted: string, actual: string) {
    wanted == "" || wanted == actual || wanted == DEVEL
  }

  predicate DigestsConflict(wanted: string, recorded: string) {
    wanted != "" && recorded != "" && wanted != recorded
  }

  /** A release without config counts as one with the empty config. */
  function ObservedConfig(rel: HelmRelease): Entries {
    match rel.config
    case None => map[]
    case Some(c) => c
  }

  /** The decisions of the drift check, with the desired values and the patch comparison that it
      computes when it gets that far. */
  function Judge(chart: ChartSpec, policies: seq<ManagementAction>, observed: HelmRelease, recordedDigest: string,
                 desired: Result<Entries, Error>, changed: Result<bool, Error>): Result<bool, Error>
  {
    if observed.info.None? then Err(ReleaseInfoNil)
    else if IsPending(observed.info.value.status) then Ok(false)
    else if observed.chart.None? then Err(ChartNil)
    else if observed.chart.value.metadata.None? then Err(ChartMetadataNil)
    else
      var meta := observed.chart.value.metadata.value;
      if chart.name != meta.name then Ok(false)
      else if !AllowUpdates(policies) then Ok(true)
      else if !VersionAccepts(chart.version, meta.version) then Ok(false)
      else if DigestsConflict(chart.digest, recordedDigest) then Ok(false)
      else
        var values :- desired;
        if !ComparesEqual(values, ObservedConfig(observed)) then Ok(false)
        else
          var updates :- changed;
          Ok(!updates)
  }

  /** The drift check, given the recorded digest and patch fingerprint. */
  function IsUpToDate(codec: Codec, kube: Kube, spec: ReleaseSpec, observed: HelmRelease,
                      recordedDigest: string, recordedSha: string): Result<bool, Error>
  {
    Judge(spec.chart, spec.policies, observed, recordedDigest,
          ComposeValues(codec, kube, spec.values),
          HasUpdates(codec, kube, spec.patchesFrom, recordedSha))
  }

  /** In sync means: nothing pending, the chart agrees and, if updates are allowed, so do version, digest,
      values up to the representation of numbers, and patches. */
  lemma InSyncIff(codec: Codec, kube: Kube, spec: ReleaseSpec, observed: HelmRelease, digest: string, sha: string)
    ensures IsUpToDate(codec, kube, spec, observed, digest, sha) == Ok(true) <==>
      (observed.info.Some? &&
       observed.info.value.status !in {PendingInstall, PendingUpgrade, PendingRollback} &&
       observed.chart.Some? && observed.chart.value.metadata.Some? &&
       observed.chart.value.metadata.value.name == spec.chart.name &&
       ((spec.policies == [] || UpdateAction in spec.policies || AllActions in spec.policies) ==>
         spec.chart.version in {"", ">0.0.0-0", observed.chart.value.metadata.value.version} &&
         (spec.chart.digest == "" || digest == "" || spec.chart.digest == digest) &&
         ComposeValues(codec, kube, spec.values).Ok? &&
         SameValues(ComposeValues(codec, kube, spec.values).value, ObservedConfig(observed)) &&
         HasUpdates(codec, kube, spec.patchesFrom, sha) == Ok(false)))
  {
    JudgedInSyncIff(spec.chart, spec.policies, observed, digest,
                    ComposeValues(codec, kube, spec.values), HasUpdates(codec, kube, spec.patchesFrom, sha));
  }

  lemma JudgedInSyncIff(chart: ChartSpec, policies: seq<ManagementAction>, observed: HelmRelease, digest: string,
                        desired: Result<Entries, Error>, changed: Result<bool, Error>)
    ensures Judge(chart, policies, observed, digest, desired, changed) == Ok(true) <==>
      (observed.info.Some? &&
       observed.info.value.status !in {PendingInstall, PendingUpgrade, PendingRollback} &&
       observed.chart.Some? && observed.chart.value.metadata.Some? &&
       observed.chart.value.metadata.value.name == chart.name &&
       ((policies == [] || UpdateAction in policies || AllActions in policies) ==>
         chart.version in {"", ">0.0.0-0", observed.chart.value.metadata.value.version} &&
         (chart.digest == "" || digest == "" || chart.digest == digest) &&
         desired.Ok? && SameValues(desired.value, ObservedConfig(observed)) &&
         changed == Ok(false)))
  {
    if desired.Ok? {
      ComparisonSees(desired.value, ObservedConfig(observed));
    }
  }

  /** The check itself fails exactly if the release has no info, or, with nothing pending, no chart or no metadata,
      or if sources that it has to read fail: the values with everything before them in sync, the patches with the
      values in sync too. */
  lemma VerdictFailsIff(codec: Codec, kube: Kube, spec: ReleaseSpec, observed: HelmRelease, digest: string,
                        sha: string)
    ensures IsUpToDate(codec, kube, spec, observed, digest, sha).Err? <==>
      observed.info.None? ||
      (observed.info.value.status !in {PendingInstall, PendingUpgrade, PendingRollback} &&
       (observed.chart.None? || observed.chart.value.metadata.None? ||
        (spec.chart.name == observed.chart.value.metadata.value.name &&
         (spec.policies == [] || UpdateAction in spec.policies || AllActions in spec.policies) &&
         spec.chart.version in {"", ">0.0.0-0", observed.chart.value.metadata.value.version} &&
         (spec.chart.digest == "" || digest == "" || spec.chart.digest == digest) &&
         (ComposeValues(codec, kube, spec.values).Err? ||
          (SameValues(ComposeValues(codec, kube, spec.values).value, ObservedConfig(observed)) &&
           HasUpdates(codec, kube, spec.patchesFrom, sha).Err?)))))
  {
    JudgeFailsIff(spec.chart, spec.policies, observed, digest,
                  ComposeValues(codec, kube, spec.values), HasUpdates(codec, kube, spec.patchesFrom, sha));
  }

  lemma JudgeFailsIff(chart: ChartSpec, policies: seq<ManagementAction>, observed: HelmRelease, digest: string,
                      desired: Result<Entries, Error>, changed: Result<bool, Error>)
    ensures Judge(chart, policies, observed, digest, desired, changed).Err? <==>
      observed.info.None? ||
      (observed.info.value.status !in {PendingInstall, PendingUpgrade, PendingRollback} &&
       (observed.chart.None? || observed.chart.value.metadata.None? ||
        (chart.name == observed.chart.value.metadata.value.name &&
         (policies == [] || UpdateAction in policies || AllActions in policies) &&
         chart.version in {"", ">0.0.0-0", observed.chart.value.metadata.value.version} &&
         (chart.digest == "" || digest == "" || chart.digest == digest) &&
         (desired.Err? || (SameValues(desired.value, ObservedConfig(observed)) && changed.Err?)))))
  {
    if desired.Ok? {
      ComparisonSees(desired.value, ObservedConfig(observed));
    }
  }

  /** What is recorded of a release with or without info, chart and metadata; digest and ownership never are. */
  lemma ObservationOf(rel: HelmRelease)
    ensures var o := GenerateObservation(rel);
            (rel.info.Some? ==>
              o.state == rel.info.value.status && o.description == rel.info.value.description &&
              o.revision == rel.version) &&
            (rel.info.None? ==> o.state == Unset && o.description == "" && o.revision == 0) &&
            o.version == (if rel.chart.Some? && rel.chart.value.metadata.Some?
              then rel.chart.value.metadata.value.version
              else "") &&
            o.digest == "" && !o.ownershipTaken
  {}

  /** A pending install, upgrade or rollback is always drift, whatever the spec says and without reading any
      source. Every other status is judged as a deployed one. */
  lemma PendingIsDrift(codec: Codec, kube: Kube, spec: ReleaseSpec, observed: HelmRelease, digest: string, sha: string)
    requires observed.info.Some?
    ensures var verdict := IsUpToDate(codec, kube, spec, observed, digest, sha);
            var asDeployed := observed.(info := Some(observed.info.value.(status := Deployed)));
            if observed.info.value.status in {PendingInstall, PendingUpgrade, PendingRollback} then verdict == Ok(false)
            else verdict == IsUpToDate(codec, kube, spec, asDeployed, digest, sha)
  {}

  /** Everything but the values is in sync. */
  predicate InSyncButForValues(codec: Codec, kube: Kube, spec: ReleaseSpec, observed: HelmRelease, digest: string,
                               sha: string) {
    observed.info.Some? && !IsPending(observed.info.value.status) &&
    observed.chart.Some? && observed.chart.value.metadata.Some? &&
    observed.chart.value.metadata.value.name == spec.chart.name &&
    VersionAccepts(spec.chart.version, observed.chart.value.metadata.value.version) &&
    !DigestsConflict(spec.chart.digest, digest) &&
    HasUpdates(codec, kube, spec.patchesFrom, sha) == Ok(false)
  }

  /** A change of a whole number from `i`, as Helm stored it, to `j` is drift exactly if the two round to
      different float64s. So the change from 2^53 to 2^53 + 1 is never deployed. */
  lemma WholeNumberDriftIff(codec: Codec, kube: Kube, spec: ReleaseSpec, observed: HelmRelease, digest: string,
                            sha: string, k: string, i: int, j: int)
    requires InSyncButForValues(codec, kube, spec, observed, digest, sha) && UpdatesAllowed(spec)
    requires observed.config == Some(NormalizeConfig(map[k := Int(i)]))
    requires ComposeValues(codec, kube, spec.values) == Ok(map[k := Int(j)])
    ensures IsUpToDate(codec, kube, spec, observed, digest, sha) == Ok(ToFloat64(i) == ToFloat64(j))
    ensures i == TWO_53 && j == TWO_53 + 1 ==> IsUpToDate(codec, kube, spec, observed, digest, sha) == Ok(true)
  {
    ComparisonOfWholeNumbers(k, i, j);
    ComparisonOfWholeNumbers(k, j, i);
    NormalizeIdempotent(map[k := Int(i)]);
  }
}
