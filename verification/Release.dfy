/**
 The release controller: `Observe`, `Create`, `Update`, `Delete` and `deploy` on a Release whose spec
 and status they write field by field. Each method is proved against a function on values; the
 lemmas here and in `Runs` are about those functions.

 Everything the controller calls outside itself answers through a parameter, so every theorem holds
 whatever Helm, the registry and the Kubernetes API reply.
 */
module Release {
  import opened Wrappers
  import opened Values
  import opened Normalize
  import opened Sources
  import opened Compose
  import opened Patches
  import opened Drift
  import ConnectionDetails

  datatype ReleaseStatus = ReleaseStatus(
    atProvider: ReleaseObservation,
    patchesSha: string,
    failed: int32,
    synced: bool,
    ready: Option<bool>)

  const NEW_STATUS := ReleaseStatus(NO_OBSERVATION, "", 0, false, None)

  // ---------- Answers from outside ----------

  /** What Helm says its last release is. */
  datatype LastRelease = Absent | Unreadable | NilRelease | Found(rel: HelmRelease)

  /** What Observe reports to the reconciler. */
  datatype Seen = Seen(present: bool, upToDate: bool, details: ConnectionDetails.PublishedValues)

  datatype ActionAnswer = ActionFailed | ActionNil | ActionDone(rel: HelmRelease)

  /** The answers `deploy` gets: registry credentials, the pulled chart, whether late-initialised fields
      could be written, and the Helm action itself. */
  datatype DeployAnswers = DeployAnswers(creds: bool, pulled: Option<ChartMeta>, written: bool, action: ActionAnswer)

  /** A call that changes Helm's state. */
  datatype HelmCall =
    | Install(chart: ChartMeta, values: Entries, patches: seq<Patch>)
    | Upgrade(chart: ChartMeta, values: Entries, patches: seq<Patch>)
    | Rollback
    | Uninstall

  // ---------- Specification ----------

  /** The arguments of the Helm client, fixed when the reconciler connects. */
  predicate ConnectsTakingOwnership(spec: ReleaseSpec, status: ReleaseStatus) {
    spec.takeOwnership && !status.atProvider.ownershipTaken
  }

  predicate RollBackEnabled(spec: ReleaseSpec) {
    spec.rollbackLimit.Some?
  }

  predicate ShouldRollBack(spec: ReleaseSpec, status: ReleaseStatus) {
    RollBackEnabled(spec) &&
    ((status.synced && status.atProvider.state == Failed) ||
     status.atProvider.state == PendingInstall ||
     status.atProvider.state == PendingUpgrade)
  }

  predicate RollBackLimitReached(spec: ReleaseSpec, status: ReleaseStatus)
    requires RollBackEnabled(spec)
  {
    status.failed >= spec.rollbackLimit.value
  }

  predicate WillRetry(spec: ReleaseSpec, status: ReleaseStatus) {
    ShouldRollBack(spec, status) && !RollBackLimitReached(spec, status)
  }

  /** The drift verdict an Observe reaches about a release it found. */
  function Verdict(codec: Codec, kube: Kube, spec: ReleaseSpec, status: ReleaseStatus, rel: HelmRelease)
    : Result<bool, Error>
  {
    IsUpToDate(codec, kube, spec, rel, status.atProvider.digest, status.patchesSha)
  }

  function ObserveStep(codec: Codec, kube: Kube, spec: ReleaseSpec, status: ReleaseStatus,
                       last: LastRelease, deleted: bool, reader: ConnectionDetails.Reader)
    : (ReleaseStatus, Result<Seen, Error>)
  {
    match last
    case Absent => (status, Ok(Seen(false, false, map[])))
    case Unreadable => (status, Err(LastReleaseUnreadable))
    case NilRelease => (status, Err(LastReleaseNil))
    case Found(rel) =>
      var st := status.(atProvider := GenerateObservation(rel).(digest := status.atProvider.digest));
      if deleted then (st, Ok(Seen(true, false, map[])))
      else
        match Verdict(codec, kube, spec, status, rel)
        case Err(e) => (st, Err(e))
        case Ok(synced) =>
          var judged := st.(synced := synced);
          if !(judged.atProvider.state == Deployed && synced) then
            var down := judged.(ready := Some(false));
            (down, Ok(Seen(true, synced && !WillRetry(spec, down), map[])))
          else
            var details := ConnectionDetails.Published(reader, spec.details, rel.name, rel.namespace);
            if details.None? then (judged.(failed := 0), Err(ConnectionDetailsFailed))
            else
              var digest := if judged.atProvider.digest == "" then spec.chart.digest else judged.atProvider.digest;
              var up := judged.(failed := 0, ready := Some(true), atProvider := judged.atProvider.(digest := digest));
              (up, Ok(Seen(true, true, details.value)))
  }

  /** The chart fields late initialisation fills in. */
  function LateInit(spec: ReleaseSpec, chart: ChartMeta): ReleaseSpec {
    if !LateInitAllowed(spec) then spec
    else
      var name := if spec.chart.name == "" then chart.name else spec.chart.name;
      var version := if spec.chart.version == "" && spec.chart.digest == "" then chart.version else spec.chart.version;
      spec.(chart := spec.chart.(name := name, version := version))
  }

  predicate NeedsWrite(spec: ReleaseSpec) {
    LateInitAllowed(spec) &&
    (spec.chart.name == "" || (spec.chart.version == "" && spec.chart.digest == ""))
  }

  datatype Deployment = Deployment(spec: ReleaseSpec, status: ReleaseStatus, call: Option<HelmCall>, err: Option<Error>)

  /** What a successful deployment leaves in the status. */
  function DeployedStatus(spec: ReleaseSpec, status: ReleaseStatus, rel: HelmRelease, sha: string): ReleaseStatus {
    status.(
      patchesSha := sha,
      atProvider := GenerateObservation(rel).(digest := spec.chart.digest, ownershipTaken := spec.takeOwnership))
  }

  /** Values, credentials, patches and chart are all there. */
  predicate HasInputs(codec: Codec, kube: Kube, spec: ReleaseSpec, answers: DeployAnswers) {
    ComposeValues(codec, kube, spec.values).Ok? && answers.creds &&
    PatchesFrom(codec, kube, spec.patchesFrom).Ok? && answers.pulled.Some?
  }

  /** The first of them that is missing. */
  function InputError(codec: Codec, kube: Kube, spec: ReleaseSpec, answers: DeployAnswers): Error
    requires !HasInputs(codec, kube, spec, answers)
  {
    var values := ComposeValues(codec, kube, spec.values);
    var patches := PatchesFrom(codec, kube, spec.patchesFrom);
    if values.Err? then values.error
    else if !answers.creds then CredentialsFailed
    else if patches.Err? then patches.error
    else ChartPullFailed
  }

  /** The outcome of the Helm action with the late-initialised spec. */
  function AfterAction(codec: Codec, spec: ReleaseSpec, status: ReleaseStatus, call: HelmCall,
                       patches: seq<Patch>, answer: ActionAnswer): Deployment
  {
    var sha := ShaOf(codec, patches);
    match answer
    case ActionFailed => Deployment(spec, status, Some(call), Some(HelmFailed))
    case ActionNil => Deployment(spec, status, Some(call), Some(LastReleaseNil))
    case ActionDone(rel) =>
      if sha.Err? then Deployment(spec, status, Some(call), Some(PatchesUnhashable))
      else Deployment(spec, DeployedStatus(spec, status, rel, sha.value), Some(call), None)
  }

  function DeployCall(codec: Codec, kube: Kube, spec: ReleaseSpec, answers: DeployAnswers, install: bool): HelmCall
    requires HasInputs(codec, kube, spec, answers)
  {
    var chart, values := answers.pulled.value, ComposeValues(codec, kube, spec.values).value;
    var patches := PatchesFrom(codec, kube, spec.patchesFrom).value;
    if install then Install(chart, values, patches) else Upgrade(chart, values, patches)
  }

  /** The status `deploy` goes on with. The reply to the write of late-initialised fields is decoded into
      the resource: with the spec just written comes the status the API holds, so what Observe wrote into
      the status in memory is lost. */
  function StatusAfterWrite(spec: ReleaseSpec, status: ReleaseStatus, stored: ReleaseStatus): ReleaseStatus {
    if NeedsWrite(spec) then stored else status
  }

  function DeployStep(codec: Codec, kube: Kube, spec: ReleaseSpec, status: ReleaseStatus, stored: ReleaseStatus,
                      answers: DeployAnswers, install: bool): Deployment
  {
    if !HasInputs(codec, kube, spec, answers) then
      Deployment(spec, status, None, Some(InputError(codec, kube, spec, answers)))
    else
      var filled := LateInit(spec, answers.pulled.value);
      if NeedsWrite(spec) && !answers.written then Deployment(filled, status, None, Some(LateInitFailed))
      else
        AfterAction(codec, filled, StatusAfterWrite(spec, status, stored),
                    DeployCall(codec, kube, spec, answers, install),
                    PatchesFrom(codec, kube, spec.patchesFrom).value, answers.action)
  }

  /** What Create gets besides: whether the namespace is there or could be made. */
  function CreateStep(codec: Codec, kube: Kube, spec: ReleaseSpec, status: ReleaseStatus, stored: ReleaseStatus,
                      namespaceOk: bool, answers: DeployAnswers): Deployment
  {
    if !spec.skipCreateNamespace && !namespaceOk then Deployment(spec, status, None, Some(NamespaceFailed))
    else DeployStep(codec, kube, spec, status, stored, answers, true)
  }

  function RetryCall(status: ReleaseStatus): HelmCall {
    if status.atProvider.revision == 1 then Uninstall else Rollback
  }

  function UpdateStep(codec: Codec, kube: Kube, spec: ReleaseSpec, status: ReleaseStatus, stored: ReleaseStatus,
                      answers: DeployAnswers): Deployment
  {
    if !ShouldRollBack(spec, status) then DeployStep(codec, kube, spec, status, stored, answers, false)
    else if RollBackLimitReached(spec, status) then Deployment(spec, status, None, None)
    else
      var err := if answers.action.ActionFailed? then Some(HelmFailed) else None;
      Deployment(spec, status.(failed := status.failed + 1), Some(RetryCall(status)), err)
  }

  // ---------- The controller ----------

  class ReleaseResource {
    var spec: ReleaseSpec
    var atProvider: ReleaseObservation
    var patchesSha: string
    var failed: int32
    var synced: bool
    var ready: Option<bool>

    constructor (spec: ReleaseSpec)
      ensures this.spec == spec && Status() == NEW_STATUS
    {
      this.spec := spec;
      atProvider := NO_OBSERVATION;
      patchesSha := "";
      failed := 0;
      synced := false;
      ready := None;
    }

    function Status(): ReleaseStatus
      reads this
    {
      ReleaseStatus(atProvider, patchesSha, failed, synced, ready)
    }

    method Observe(codec: Codec, kube: Kube, last: LastRelease, deleted: bool, reader: ConnectionDetails.Reader)
      returns (r: Result<Seen, Error>)
      modifies this
      ensures spec == old(spec)
      ensures (Status(), r) == ObserveStep(codec, kube, spec, old(Status()), last, deleted, reader)
    {
      match last
      case Absent => return Ok(Seen(false, false, map[]));
      case Unreadable => return Err(LastReleaseUnreadable);
      case NilRelease => return Err(LastReleaseNil);
      case Found(rel) =>
        var lastDigest := atProvider.digest;
        atProvider := GenerateObservation(rel);
        atProvider := atProvider.(digest := lastDigest);
        if deleted {
          return Ok(Seen(true, false, map[]));
        }
        var s := IsUpToDate(codec, kube, spec, rel, atProvider.digest, patchesSha);
        if s.Err? {
          return Err(s.error);
        }
        synced := s.value;
        var cd: ConnectionDetails.PublishedValues := map[];
        if atProvider.state == Deployed && s.value {
          failed := 0;
          var collected, err, n := ConnectionDetails.Collect(reader, spec.details, rel.name, rel.namespace);
          if err.Some? {
            return Err(ConnectionDetailsFailed);
          }
          cd := collected;
          if atProvider.digest == "" {
            atProvider := atProvider.(digest := spec.chart.digest);
          }
          ready := Some(true);
        } else {
          ready := Some(false);
        }
        return Ok(Seen(true, synced && !(ShouldRollBack(spec, Status()) && !RollBackLimitReached(spec, Status())), cd));
    }

    /** `stored` is the status the API holds. */
    method Deploy(codec: Codec, kube: Kube, stored: ReleaseStatus, answers: DeployAnswers, install: bool)
      returns (call: Option<HelmCall>, err: Option<Error>)
      modifies this
      ensures Deployment(spec, Status(), call, err) ==
              DeployStep(codec, kube, old(spec), old(Status()), stored, answers, install)
    {
      call, err := None, None;
      var cv := ComposeValuesFromSpec(codec, kube, spec.values);
      if cv.Err? {
        return None, Some(cv.error);
      }
      if !answers.creds {
        return None, Some(CredentialsFailed);
      }
      var p := GetFromSpec(codec, kube, spec.patchesFrom);
      if p.Err? {
        return None, Some(p.error);
      }
      if answers.pulled.None? {
        return None, Some(ChartPullFailed);
      }
      var chart := answers.pulled.value;
      var needsUpdate := LateInitialize(chart);
      if needsUpdate {
        if !answers.written {
          return None, Some(LateInitFailed);
        }
        TakeStatus(stored);
      }
      call := Some(if install then Install(chart, cv.value, p.value) else Upgrade(chart, cv.value, p.value));
      match answers.action
      case ActionFailed => return call, Some(HelmFailed);
      case ActionNil => return call, Some(LastReleaseNil);
      case ActionDone(rel) =>
        var sha := ShaOf(codec, p.value);
        if sha.Err? {
          return call, Some(PatchesUnhashable);
        }
        RecordDeployment(rel, sha.value);
    }

    /** The middle of `deploy`: fill in what the spec leaves open. */
    method LateInitialize(chart: ChartMeta) returns (needsUpdate: bool)
      modifies `spec
      ensures spec == LateInit(old(spec), chart)
      ensures needsUpdate == NeedsWrite(old(spec))
    {
      needsUpdate := false;
      if LateInitAllowed(spec) {
        if spec.chart.name == "" {
          spec := spec.(chart := spec.chart.(name := chart.name));
          needsUpdate := true;
        }
        if spec.chart.version == "" && spec.chart.digest == "" {
          spec := spec.(chart := spec.chart.(version := chart.version));
          needsUpdate := true;
        }
      }
    }

    /** The status in the reply to a write replaces the one in memory. */
    method TakeStatus(reply: ReleaseStatus)
      modifies `atProvider, `patchesSha, `failed, `synced, `ready
      ensures Status() == reply
    {
      atProvider, patchesSha, failed, synced, ready :=
        reply.atProvider, reply.patchesSha, reply.failed, reply.synced, reply.ready;
    }

    /** The end of `deploy`: what is remembered of a successful action. */
    method RecordDeployment(rel: HelmRelease, sha: string)
      modifies `atProvider, `patchesSha
      ensures Status() == DeployedStatus(spec, old(Status()), rel, sha)
    {
      patchesSha := sha;
      atProvider := GenerateObservation(rel);
      atProvider := atProvider.(digest := spec.chart.digest);
      if spec.takeOwnership {
        atProvider := atProvider.(ownershipTaken := true);
      }
    }

    method Create(codec: Codec, kube: Kube, stored: ReleaseStatus, namespaceOk: bool, answers: DeployAnswers)
      returns (call: Option<HelmCall>, err: Option<Error>)
      modifies this
      ensures Deployment(spec, Status(), call, err) ==
              CreateStep(codec, kube, old(spec), old(Status()), stored, namespaceOk, answers)
    {
      if !spec.skipCreateNamespace {
        if !namespaceOk {
          return None, Some(NamespaceFailed);
        }
      }
      call, err := Deploy(codec, kube, stored, answers, true);
    }

    method Update(codec: Codec, kube: Kube, stored: ReleaseStatus, answers: DeployAnswers)
      returns (call: Option<HelmCall>, err: Option<Error>)
      modifies this
      ensures Deployment(spec, Status(), call, err) ==
              UpdateStep(codec, kube, old(spec), old(Status()), stored, answers)
    {
      if ShouldRollBack(spec, Status()) {
        if !RollBackLimitReached(spec, Status()) {
          failed := failed + 1;
          err := if answers.action.ActionFailed? then Some(HelmFailed) else None;
          if atProvider.revision == 1 {
            return Some(Uninstall), err;
          }
          return Some(Rollback), err;
        }
        return None, None;
      }
      call, err := Deploy(codec, kube, stored, answers, false);
    }

    /** `uninstalled` is Helm's answer. */
    method Delete(uninstalled: bool) returns (call: HelmCall, err: Option<Error>)
      ensures call == Uninstall && (err.Some? <==> !uninstalled)
    {
      call := Uninstall;
      err := if uninstalled then None else Some(HelmFailed);
    }
  }

  // ---------- Observe and Update agree ----------

  predicate IsRetry(call: Option<HelmCall>) {
    call == Some(Rollback) || call == Some(Uninstall)
  }

  predicate Stuck(st: HelmStatus) {
    st == PendingInstall || st == PendingUpgrade
  }

  /** Everything `deploy` needs before it calls Helm. */
  predicate ReachesHelm(codec: Codec, kube: Kube, spec: ReleaseSpec, answers: DeployAnswers) {
    HasInputs(codec, kube, spec, answers) && (NeedsWrite(spec) ==> answers.written)
  }

  /** Helm is called exactly when all of that is there; otherwise the status is untouched. */
  lemma DeployCallsHelmIff(codec: Codec, kube: Kube, spec: ReleaseSpec, status: ReleaseStatus, stored: ReleaseStatus,
                           answers: DeployAnswers, install: bool)
    ensures var d := DeployStep(codec, kube, spec, status, stored, answers, install);
            if ReachesHelm(codec, kube, spec, answers) then
              d.call == Some(DeployCall(codec, kube, spec, answers, install)) &&
              d.spec == LateInit(spec, answers.pulled.value)
            else d.call == None && d.err != None && d.status == status
  {}

  lemma DeployNeverRetries(codec: Codec, kube: Kube, spec: ReleaseSpec, status: ReleaseStatus, stored: ReleaseStatus,
                           answers: DeployAnswers, install: bool)
    ensures !IsRetry(DeployStep(codec, kube, spec, status, stored, answers, install).call)
    ensures var d := DeployStep(codec, kube, spec, status, stored, answers, install);
            d.status.failed == status.failed || d.status.failed == stored.failed
    ensures DeployStep(codec, kube, spec, status, stored, answers, install).spec.rollbackLimit == spec.rollbackLimit
  {}

  lemma ObserveReports(codec: Codec, kube: Kube, spec: ReleaseSpec, status: ReleaseStatus,
                       rel: HelmRelease, reader: ConnectionDetails.Reader)
    requires ObserveStep(codec, kube, spec, status, Found(rel), false, reader).1.Ok?
    ensures var (seen, r) := ObserveStep(codec, kube, spec, status, Found(rel), false, reader);
            rel.info.Some? && r.value.present &&
            seen.atProvider.state == rel.info.value.status && seen.atProvider.revision == rel.version &&
            seen.atProvider.description == rel.info.value.description &&
            Verdict(codec, kube, spec, status, rel) == Ok(seen.synced) &&
            (rel.chart.Some? && rel.chart.value.metadata.Some? ==>
              seen.atProvider.version == rel.chart.value.metadata.value.version) &&
            (IsPending(seen.atProvider.state) ==> !seen.synced) &&
            seen.ready == Some(seen.atProvider.state == Deployed && seen.synced) &&
            (r.value.upToDate <==> seen.synced && !WillRetry(spec, seen))
  {}

  /** After any Observe that reports an existing release out of date, Update retries, deploys because of
      drift, or does nothing, and this says exactly when. */
  lemma ObserveAndUpdateAgree(codec: Codec, kube: Kube, spec: ReleaseSpec, status: ReleaseStatus,
                              rel: HelmRelease, reader: ConnectionDetails.Reader, stored: ReleaseStatus,
                              answers: DeployAnswers)
    requires ObserveStep(codec, kube, spec, status, Found(rel), false, reader).1.Ok?
    requires !ObserveStep(codec, kube, spec, status, Found(rel), false, reader).1.value.upToDate
    ensures var seen := ObserveStep(codec, kube, spec, status, Found(rel), false, reader).0;
            var done := UpdateStep(codec, kube, spec, seen, stored, answers);
            // it retries exactly when it should and may, uninstalling a first revision, and counts the retry
            (IsRetry(done.call) <==> WillRetry(spec, seen)) &&
            (WillRetry(spec, seen) ==>
              done.status == seen.(failed := seen.failed + 1) && done.spec == spec &&
              (done.err == if answers.action.ActionFailed? then Some(HelmFailed) else None) &&
              (done.call == Some(Uninstall) <==> rel.version == 1)) &&
            // it deploys only on drift, and never while a retry is due
            (!ShouldRollBack(spec, seen) ==>
              Verdict(codec, kube, spec, status, rel) == Ok(false) &&
              done == DeployStep(codec, kube, spec, seen, stored, answers, false)) &&
            // it does nothing exactly for a pending install or upgrade whose retries are used up
            (ShouldRollBack(spec, seen) && !WillRetry(spec, seen) <==>
              rel.info.Some? && Stuck(rel.info.value.status) &&
              spec.rollbackLimit.Some? && seen.failed >= spec.rollbackLimit.value) &&
            (ShouldRollBack(spec, seen) && !WillRetry(spec, seen) ==> done == Deployment(spec, seen, None, None))
  {
    ObserveReports(codec, kube, spec, status, rel, reader);
    var seen := ObserveStep(codec, kube, spec, status, Found(rel), false, reader).0;
    DeployNeverRetries(codec, kube, spec, seen, stored, answers, false);
  }

  // ---------- Deploy, then observe ----------

  predicate NameAfterLateInit(spec: ReleaseSpec, chart: ChartMeta) {
    spec.chart.name == chart.name || (spec.chart.name == "" && LateInitAllowed(spec))
  }

  predicate VersionAfterLateInit(spec: ReleaseSpec, chart: ChartMeta) {
    UpdatesAllowed(spec) ==> VersionAccepts(spec.chart.version, chart.version)
  }

  /** Helm's record of a chart deployed with given values, as it stores them; without values there is no
      config. */
  predicate Holds(rel: HelmRelease, st: HelmStatus, chart: ChartMeta, values: Entries) {
    rel.info.Some? && rel.info.value.status == st &&
    rel.chart == Some(HelmChart(Some(chart))) &&
    ObservedConfig(rel) == NormalizeConfig(values)
  }

  lemma DeploySucceeds(codec: Codec, kube: Kube, spec: ReleaseSpec, status: ReleaseStatus, stored: ReleaseStatus,
                       answers: DeployAnswers, install: bool)
    requires DeployStep(codec, kube, spec, status, stored, answers, install).err == None
    ensures answers.pulled.Some? && answers.action.ActionDone? && ComposeValues(codec, kube, spec.values).Ok?
    ensures PatchesFrom(codec, kube, spec.patchesFrom).Ok?
    ensures ShaOf(codec, PatchesFrom(codec, kube, spec.patchesFrom).value).Ok?
    ensures var done := DeployStep(codec, kube, spec, status, stored, answers, install);
            done.spec == LateInit(spec, answers.pulled.value) &&
            done.status == DeployedStatus(done.spec, StatusAfterWrite(spec, status, stored), answers.action.rel,
                                          ShaOf(codec, PatchesFrom(codec, kube, spec.patchesFrom).value).value)
  {}

  /** The verdict on a release that holds what is wanted turns on the chart and what is recorded. */
  lemma JudgeHeld(chart: ChartSpec, policies: seq<ManagementAction>, rel: HelmRelease, meta: ChartMeta,
                  values: Entries, recorded: string, changed: Result<bool, Error>)
    requires Holds(rel, Deployed, meta, values)
    ensures Judge(chart, policies, rel, recorded, Ok(values), changed) == Ok(true) <==>
            chart.name == meta.name &&
            (AllowUpdates(policies) ==>
              VersionAccepts(chart.version, meta.version) && !DigestsConflict(chart.digest, recorded) &&
              !HoldsNaN(Map(values)) && changed == Ok(false))
  {
    ComparesEqualToNormalized(values);
  }

  lemma NoUpdatesAfter(codec: Codec, kube: Kube, sources: seq<ValueFromSource>)
    requires PatchesFrom(codec, kube, sources).Ok? && ShaOf(codec, PatchesFrom(codec, kube, sources).value).Ok?
    ensures HasUpdates(codec, kube, sources, ShaOf(codec, PatchesFrom(codec, kube, sources).value).value) == Ok(false)
  {}

  lemma LateInitAccepts(spec: ReleaseSpec, chart: ChartMeta)
    ensures var filled := LateInit(spec, chart);
            (filled.chart.name == chart.name <==> NameAfterLateInit(spec, chart)) &&
            (VersionAccepts(filled.chart.version, chart.version) <==>
              VersionAccepts(spec.chart.version, chart.version)) &&
            filled.policies == spec.policies && filled.values == spec.values &&
            filled.patchesFrom == spec.patchesFrom && filled.chart.digest == spec.chart.digest
  {}

  /** The spec names the chart's name and version or leaves them open, and its values equal themselves. */
  predicate Describes(spec: ReleaseSpec, chart: ChartMeta, values: Entries) {
    NameAfterLateInit(spec, chart) && VersionAfterLateInit(spec, chart) &&
      (UpdatesAllowed(spec) ==> !HoldsNaN(Map(values)))
  }

  /** What deploy wrote, the drift check accepts: with unchanged sources and the release Helm was asked
      for, the next check is in sync exactly when the spec describes the chart and the values deployed. */
  lemma DeployThenInSyncIff(codec: Codec, kube: Kube, spec: ReleaseSpec, status: ReleaseStatus, stored: ReleaseStatus,
                            answers: DeployAnswers, install: bool, rel: HelmRelease)
    requires DeployStep(codec, kube, spec, status, stored, answers, install).err == None
    requires Holds(rel, Deployed, answers.pulled.value, ComposeValues(codec, kube, spec.values).value)
    ensures var done := DeployStep(codec, kube, spec, status, stored, answers, install);
            Verdict(codec, kube, done.spec, done.status, rel) == Ok(true) <==>
            Describes(spec, answers.pulled.value, ComposeValues(codec, kube, spec.values).value)
  {
    DeploySucceeds(codec, kube, spec, status, stored, answers, install);
    var meta := answers.pulled.value;
    var filled := LateInit(spec, meta);
    LateInitAccepts(spec, meta);
    NoUpdatesAfter(codec, kube, spec.patchesFrom);
    JudgeHeld(filled.chart, filled.policies, rel, meta, ComposeValues(codec, kube, spec.values).value,
              filled.chart.digest, Ok(false));
  }

  /** Where the status that Create wrote is discarded, the next check goes by the one stored before: besides,
      its digest must not conflict and its fingerprint must be that of the patches just applied. */
  lemma DiscardedCreateInSyncIff(codec: Codec, kube: Kube, spec: ReleaseSpec, status: ReleaseStatus,
                                 stored: ReleaseStatus, namespaceOk: bool, answers: DeployAnswers, rel: HelmRelease)
    requires CreateStep(codec, kube, spec, status, stored, namespaceOk, answers).err == None
    requires Holds(rel, Deployed, answers.pulled.value, ComposeValues(codec, kube, spec.values).value)
    ensures var done := CreateStep(codec, kube, spec, status, stored, namespaceOk, answers);
            Verdict(codec, kube, done.spec, stored, rel) == Ok(true) <==>
            Describes(spec, answers.pulled.value, ComposeValues(codec, kube, spec.values).value) &&
            (UpdatesAllowed(spec) ==>
              !DigestsConflict(spec.chart.digest, stored.atProvider.digest) &&
              HasUpdates(codec, kube, spec.patchesFrom, stored.patchesSha) == Ok(false))
  {
    DeploySucceeds(codec, kube, spec, status, stored, answers, true);
    var meta := answers.pulled.value;
    var filled := LateInit(spec, meta);
    LateInitAccepts(spec, meta);
    JudgeHeld(filled.chart, filled.policies, rel, meta, ComposeValues(codec, kube, spec.values).value,
              stored.atProvider.digest, HasUpdates(codec, kube, spec.patchesFrom, stored.patchesSha));
  }

  /** So a new release with patches is upgraded right after its installation, and one without is not. */
  lemma NewReleaseInSyncIff(codec: Codec, kube: Kube, spec: ReleaseSpec, namespaceOk: bool, answers: DeployAnswers,
                            rel: HelmRelease)
    requires GoodDigest(codec) && UpdatesAllowed(spec)
    requires CreateStep(codec, kube, spec, NEW_STATUS, NEW_STATUS, namespaceOk, answers).err == None
    requires Holds(rel, Deployed, answers.pulled.value, ComposeValues(codec, kube, spec.values).value)
    requires Describes(spec, answers.pulled.value, ComposeValues(codec, kube, spec.values).value)
    ensures var done := CreateStep(codec, kube, spec, NEW_STATUS, NEW_STATUS, namespaceOk, answers);
            Verdict(codec, kube, done.spec, NEW_STATUS, rel) == Ok(true) <==>
            PatchesFrom(codec, kube, spec.patchesFrom) == Ok([])
  {
    DeploySucceeds(codec, kube, spec, NEW_STATUS, NEW_STATUS, answers, true);
    DiscardedCreateInSyncIff(codec, kube, spec, NEW_STATUS, NEW_STATUS, namespaceOk, answers, rel);
    NoFingerprintIff(codec, PatchesFrom(codec, kube, spec.patchesFrom).value);
  }

  lemma NoFingerprintIff(codec: Codec, patches: seq<Patch>)
    requires GoodDigest(codec) && ShaOf(codec, patches).Ok?
    ensures EqualFold(ShaOf(codec, patches).value, "") <==> patches == []
  {}

  /** So the next Observe reports the release up to date and clears the retry count; no Update follows. */
  lemma DeployThenQuiet(codec: Codec, kube: Kube, spec: ReleaseSpec, status: ReleaseStatus, stored: ReleaseStatus,
                        answers: DeployAnswers, install: bool, rel: HelmRelease, reader: ConnectionDetails.Reader)
    requires DeployStep(codec, kube, spec, status, stored, answers, install).err == None
    requires Holds(rel, Deployed, answers.pulled.value, ComposeValues(codec, kube, spec.values).value)
    requires Describes(spec, answers.pulled.value, ComposeValues(codec, kube, spec.values).value)
    requires ConnectionDetails.AllReadable(reader, spec.details, rel.name, rel.namespace)
    ensures var done := DeployStep(codec, kube, spec, status, stored, answers, install);
            var (seen, r) := ObserveStep(codec, kube, done.spec, done.status, Found(rel), false, reader);
            r == Ok(Seen(true, true, ConnectionDetails.ValuesOf(reader, spec.details, rel.name, rel.namespace))) &&
              seen.synced && seen.failed == 0 &&
            seen.patchesSha == done.status.patchesSha && seen.atProvider.digest == spec.chart.digest
  {
    DeploySucceeds(codec, kube, spec, status, stored, answers, install);
    DeployThenInSyncIff(codec, kube, spec, status, stored, answers, install, rel);
  }

  // ---------- Digest ----------

  /** No Observe changes a recorded digest. An empty one is filled from the spec exactly by an Observe that finds
      the release deployed and in sync and reads all published values. */
  lemma ObserveKeepsDigest(codec: Codec, kube: Kube, spec: ReleaseSpec, status: ReleaseStatus,
                           last: LastRelease, deleted: bool, reader: ConnectionDetails.Reader)
    ensures var digest := ObserveStep(codec, kube, spec, status, last, deleted, reader).0.atProvider.digest;
            digest ==
            if status.atProvider.digest == "" && last.Found? && !deleted &&
               Verdict(codec, kube, spec, status, last.rel) == Ok(true) && last.rel.info.value.status == Deployed &&
               ConnectionDetails.AllReadable(reader, spec.details, last.rel.name, last.rel.namespace)
            then spec.chart.digest else status.atProvider.digest
  {}

  // ---------- What fails ----------

  /** An Observe whose drift check fails, or that finds the resource marked for deletion, changes nothing but the
      observation. One whose published values cannot be read also records the verdict and clears the count. */
  lemma UnfinishedObserve(codec: Codec, kube: Kube, spec: ReleaseSpec, status: ReleaseStatus, rel: HelmRelease,
                          deleted: bool, reader: ConnectionDetails.Reader)
    ensures var (seen, r) := ObserveStep(codec, kube, spec, status, Found(rel), deleted, reader);
            var observed := status.(atProvider := GenerateObservation(rel).(digest := status.atProvider.digest));
            (deleted || Verdict(codec, kube, spec, status, rel).Err? ==> seen == observed) &&
            (deleted ==> r == Ok(Seen(true, false, map[]))) &&
            (r == Err(ConnectionDetailsFailed) && !Verdict(codec, kube, spec, status, rel).Err? ==>
              seen == observed.(synced := true, failed := 0))
  {}

  /** What `deploy` can miss before it calls Helm, in order. */
  function Missing(codec: Codec, kube: Kube, spec: ReleaseSpec, answers: DeployAnswers): seq<Option<Error>> {
    var values, patches := ComposeValues(codec, kube, spec.values), PatchesFrom(codec, kube, spec.patchesFrom);
    [if values.Err? then Some(values.error) else None,
     if answers.creds then None else Some(CredentialsFailed),
     if patches.Err? then Some(patches.error) else None,
     if answers.pulled.None? then Some(ChartPullFailed) else None]
  }

  /** It reports the first of them and leaves spec and status alone. */
  lemma DeployMisses(codec: Codec, kube: Kube, spec: ReleaseSpec, status: ReleaseStatus, stored: ReleaseStatus,
                     answers: DeployAnswers, install: bool, i: nat)
    requires i < 4 && Missing(codec, kube, spec, answers)[i].Some?
    requires forall j | 0 <= j < i :: Missing(codec, kube, spec, answers)[j] == None
    ensures DeployStep(codec, kube, spec, status, stored, answers, install) ==
            Deployment(spec, status, None, Missing(codec, kube, spec, answers)[i])
  {
    var missing := Missing(codec, kube, spec, answers);
    assert i > 0 ==> missing[0] == None;
    assert i > 1 ==> missing[1] == None;
    assert i > 2 ==> missing[2] == None;
  }
}
