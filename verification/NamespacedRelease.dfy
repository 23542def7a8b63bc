/**
 The namespaced release controller, step by step. It is the cluster-scoped one on the spec with the
 namespaces filled in, those of sources and those of published objects, except that Create makes the
 namespace named in the spec where Helm installs into the default.
 */
module NamespacedRelease {
  import opened Wrappers
  import opened Sources
  import opened Release
  import Compose
  import Patches
  import ConnectionDetails
  import Drift
  import Namespaced

  type Spec = Namespaced.ReleaseSpec

  predicate ShouldRetry(spec: Spec, status: ReleaseStatus) {
    spec.rollbackLimit.Some? &&
    ((status.synced && status.atProvider.state == Drift.Failed) ||
     status.atProvider.state == Drift.PendingInstall ||
     status.atProvider.state == Drift.PendingUpgrade)
  }

  function ObserveStep(codec: Codec, kube: Kube, spec: Spec, own: string, status: ReleaseStatus,
                       last: LastRelease, deleted: bool, reader: ConnectionDetails.Reader)
    : (ReleaseStatus, Result<Seen, Error>)
  {
    match last
    case Absent => (status, Ok(Seen(false, false, map[])))
    case Unreadable => (status, Err(LastReleaseUnreadable))
    case NilRelease => (status, Err(LastReleaseNil))
    case Found(rel) =>
      var found := status.(atProvider := Drift.GenerateObservation(rel).(digest := status.atProvider.digest));
      if deleted then (found, Ok(Seen(true, false, map[])))
      else
        match Namespaced.IsUpToDate(codec, kube, spec, rel, found.atProvider.digest, found.patchesSha, own)
        case Err(e) => (found, Err(e))
        case Ok(s) =>
          var retry := ShouldRetry(spec, found.(synced := s)) && found.failed < spec.rollbackLimit.value;
          if found.atProvider.state != Drift.Deployed || !s then
            (found.(synced := s, ready := Some(false)), Ok(Seen(true, s && !retry, map[])))
          else
            match Namespaced.FoldDetails(reader, spec.details, rel.name, rel.namespace, map[])
            case Err(_) => (found.(synced := s, failed := 0), Err(ConnectionDetailsFailed))
            case Ok(cd) =>
              var at := if found.atProvider.digest == "" then found.atProvider.(digest := spec.chart.digest)
                else found.atProvider;
              (found.(synced := s, failed := 0, atProvider := at, ready := Some(true)), Ok(Seen(true, true, cd)))
  }

  function FillChart(spec: Spec, chart: Drift.ChartMeta): Spec {
    var allowed := spec.policies == [] || Drift.LateInitialize in spec.policies || Drift.AllActions in spec.policies;
    var c := spec.chart;
    var c1 := if allowed && c.name == "" then c.(name := chart.name) else c;
    var c2 := if allowed && c.version == "" && c.digest == "" then c1.(version := chart.version) else c1;
    spec.(chart := c2)
  }

  datatype Deployed = Deployed(spec: Spec, status: ReleaseStatus, call: Option<HelmCall>, err: Option<Error>)

  /** Late initialisation has something to fill in. */
  predicate Incomplete(spec: Spec) {
    (spec.policies == [] || Drift.LateInitialize in spec.policies || Drift.AllActions in spec.policies) &&
    (spec.chart.name == "" || (spec.chart.version == "" && spec.chart.digest == ""))
  }

  function AfterAction(codec: Codec, spec: Spec, status: ReleaseStatus, call: HelmCall, patches: seq<Patch>,
                       answer: ActionAnswer): Deployed {
    match answer
    case ActionFailed => Deployed(spec, status, Some(call), Some(HelmFailed))
    case ActionNil => Deployed(spec, status, Some(call), Some(LastReleaseNil))
    case ActionDone(rel) =>
      match Patches.ShaOf(codec, patches)
      case Err(_) => Deployed(spec, status, Some(call), Some(PatchesUnhashable))
      case Ok(sha) =>
        var at := Drift.GenerateObservation(rel).(digest := spec.chart.digest);
        var owned := if spec.takeOwnership then at.(ownershipTaken := true) else at;
        Deployed(spec, status.(patchesSha := sha, atProvider := owned), Some(call), None)
  }

  function DeployStep(codec: Codec, kube: Kube, spec: Spec, own: string, status: ReleaseStatus, stored: ReleaseStatus,
                      answers: DeployAnswers, install: bool): Deployed
  {
    var values := Namespaced.ComposeValues(codec, kube, spec.values, own);
    var patches := Namespaced.PatchesFrom(codec, kube, spec.patchesFrom, own, []);
    if values.Err? then Deployed(spec, status, None, Some(values.error))
    else if !answers.creds then Deployed(spec, status, None, Some(CredentialsFailed))
    else if patches.Err? then Deployed(spec, status, None, Some(patches.error))
    else if answers.pulled.None? then Deployed(spec, status, None, Some(ChartPullFailed))
    else
      var chart := answers.pulled.value;
      var filled := FillChart(spec, chart);
      if Incomplete(spec) && !answers.written then Deployed(filled, status, None, Some(LateInitFailed))
      else
        var call := if install then Install(chart, values.value, patches.value)
          else Upgrade(chart, values.value, patches.value);
        AfterAction(codec, filled, if Incomplete(spec) then stored else status, call, patches.value, answers.action)
  }

  /** `created` says for each name whether a namespace of that name is there or could be made. */
  function CreateStep(codec: Codec, kube: Kube, spec: Spec, own: string, status: ReleaseStatus, stored: ReleaseStatus,
                      created: string -> bool, answers: DeployAnswers): Deployed
  {
    if !spec.skipCreateNamespace && !created(spec.namespace) then Deployed(spec, status, None, Some(NamespaceFailed))
    else DeployStep(codec, kube, spec, own, status, stored, answers, true)
  }

  function UpdateStep(codec: Codec, kube: Kube, spec: Spec, own: string, status: ReleaseStatus, stored: ReleaseStatus,
                      answers: DeployAnswers): Deployed
  {
    if ShouldRetry(spec, status) then
      if status.failed >= spec.rollbackLimit.value then Deployed(spec, status, None, None)
      else
        var call := if status.atProvider.revision == 1 then Uninstall else Rollback;
        Deployed(spec, status.(failed := status.failed + 1), Some(call),
                 if answers.action.ActionFailed? then Some(HelmFailed) else None)
    else DeployStep(codec, kube, spec, own, status, stored, answers, false)
  }

  // ---------- Agreement ----------

  /** The cluster-scoped outcome a namespaced one stands for. */
  function Filled(d: Deployed, own: string): Deployment {
    Deployment(Namespaced.Fill(d.spec, own), d.status, d.call, d.err)
  }

  /** The published objects of the spec, in the namespace of the release found. */
  function FillFor(spec: Spec, own: string, last: LastRelease): Drift.ReleaseSpec {
    var filled := Namespaced.Fill(spec, own);
    if last.Found? then filled.(details := Namespaced.FillDetails(spec.details, last.rel.namespace)) else filled
  }

  lemma DetailsAgree(reader: ConnectionDetails.Reader, spec: Spec, relName: string, relNamespace: string)
    ensures var r := Namespaced.FoldDetails(reader, spec.details, relName, relNamespace, map[]);
            var filled := Namespaced.FillDetails(spec.details, relNamespace);
            ConnectionDetails.Published(reader, filled, relName, relNamespace) ==
            if r.Ok? then Some(r.value) else None
  {
    Namespaced.DetailsAgree(reader, [], spec.details, relName, relNamespace);
    var filled := Namespaced.FillDetails(spec.details, relNamespace);
    assert [] + filled == filled;
  }

  lemma VerdictAgrees(codec: Codec, kube: Kube, spec: Spec, own: string, status: ReleaseStatus, last: LastRelease)
    requires last.Found?
    ensures Verdict(codec, kube, FillFor(spec, own, last), status, last.rel) ==
            Namespaced.IsUpToDate(codec, kube, spec, last.rel, status.atProvider.digest, status.patchesSha, own)
  {
    Namespaced.DriftAgrees(codec, kube, spec, last.rel, status.atProvider.digest, status.patchesSha, own);
  }

  /** Every Observe is the cluster-scoped one, with published objects in the namespace of the release. */
  lemma ObserveAgreesFor(codec: Codec, kube: Kube, spec: Spec, own: string, status: ReleaseStatus,
                         last: LastRelease, deleted: bool, reader: ConnectionDetails.Reader)
    ensures Release.ObserveStep(codec, kube, FillFor(spec, own, last), status, last, deleted, reader) ==
            ObserveStep(codec, kube, spec, own, status, last, deleted, reader)
  {
    if last.Found? {
      VerdictAgrees(codec, kube, spec, own, status, last);
      DetailsAgree(reader, spec, last.rel.name, last.rel.namespace);
    }
  }

  /** So it is the cluster-scoped one of the filled-in spec when Helm finds releases where it installs. */
  lemma ObserveAgrees(codec: Codec, kube: Kube, spec: Spec, own: string, status: ReleaseStatus,
                      last: LastRelease, deleted: bool, reader: ConnectionDetails.Reader)
    requires last.Found? ==> last.rel.namespace == Namespaced.TargetNamespace(spec, own)
    ensures Release.ObserveStep(codec, kube, Namespaced.Fill(spec, own), status, last, deleted, reader) ==
            ObserveStep(codec, kube, spec, own, status, last, deleted, reader)
  {
    ObserveAgreesFor(codec, kube, spec, own, status, last, deleted, reader);
  }

  lemma FillCommutes(spec: Spec, own: string, chart: Drift.ChartMeta)
    ensures LateInit(Namespaced.Fill(spec, own), chart) == Namespaced.Fill(FillChart(spec, chart), own)
  {}

  lemma InputsAgree(codec: Codec, kube: Kube, spec: Spec, own: string)
    ensures Compose.ComposeValues(codec, kube, Namespaced.Fill(spec, own).values) ==
            Namespaced.ComposeValues(codec, kube, spec.values, own)
    ensures Patches.PatchesFrom(codec, kube, Namespaced.Fill(spec, own).patchesFrom) ==
            Namespaced.PatchesFrom(codec, kube, spec.patchesFrom, own, [])
  {
    Namespaced.ComposeAgrees(codec, kube, spec.values, own);
    Namespaced.PatchesAgree(codec, kube, [], spec.patchesFrom, own);
    assert [] + Namespaced.FillSources(spec.patchesFrom, own) == Namespaced.FillSources(spec.patchesFrom, own);
  }

  lemma ActionAgrees(codec: Codec, spec: Spec, own: string, status: ReleaseStatus, call: HelmCall,
                     patches: seq<Patch>, answer: ActionAnswer)
    ensures Release.AfterAction(codec, Namespaced.Fill(spec, own), status, call, patches, answer) ==
            Filled(AfterAction(codec, spec, status, call, patches, answer), own)
  {}

  /** Every deployment is the cluster-scoped one. */
  lemma DeployAgrees(codec: Codec, kube: Kube, spec: Spec, own: string, status: ReleaseStatus, stored: ReleaseStatus,
                     answers: DeployAnswers, install: bool)
    ensures Release.DeployStep(codec, kube, Namespaced.Fill(spec, own), status, stored, answers, install) ==
            Filled(DeployStep(codec, kube, spec, own, status, stored, answers, install), own)
  {
    InputsAgree(codec, kube, spec, own);
    var filled := Namespaced.Fill(spec, own);
    if HasInputs(codec, kube, filled, answers) {
      var chart := answers.pulled.value;
      FillCommutes(spec, own, chart);
      ActionAgrees(codec, FillChart(spec, chart), own, StatusAfterWrite(filled, status, stored),
                   DeployCall(codec, kube, filled, answers, install),
                   Patches.PatchesFrom(codec, kube, filled.patchesFrom).value, answers.action);
    }
  }

  lemma UpdateAgrees(codec: Codec, kube: Kube, spec: Spec, own: string, status: ReleaseStatus, stored: ReleaseStatus,
                     answers: DeployAnswers)
    ensures Release.UpdateStep(codec, kube, Namespaced.Fill(spec, own), status, stored, answers) ==
            Filled(UpdateStep(codec, kube, spec, own, status, stored, answers), own)
  {
    DeployAgrees(codec, kube, spec, own, status, stored, answers, false);
  }

  /** Create reaches Helm exactly if the namespace the spec names, not the one Helm installs into, is there
      or not to be made. */
  lemma CreateReachesHelmIff(codec: Codec, kube: Kube, spec: Spec, own: string, status: ReleaseStatus,
                             stored: ReleaseStatus, created: string -> bool, answers: DeployAnswers)
    ensures CreateStep(codec, kube, spec, own, status, stored, created, answers).call.Some? <==>
            (spec.skipCreateNamespace || created(spec.namespace)) &&
            ReachesHelm(codec, kube, Namespaced.Fill(spec, own), answers)
  {
    DeployAgrees(codec, kube, spec, own, status, stored, answers, true);
    DeployCallsHelmIff(codec, kube, Namespaced.Fill(spec, own), status, stored, answers, true);
  }

  /** Where that makes no difference, Create is the cluster-scoped one. */
  lemma CreateAgrees(codec: Codec, kube: Kube, spec: Spec, own: string, status: ReleaseStatus, stored: ReleaseStatus,
                     created: string -> bool, answers: DeployAnswers)
    requires spec.skipCreateNamespace || created(spec.namespace) == created(Namespaced.TargetNamespace(spec, own))
    ensures Release.CreateStep(codec, kube, Namespaced.Fill(spec, own), status, stored,
                               created(Namespaced.TargetNamespace(spec, own)), answers) ==
            Filled(CreateStep(codec, kube, spec, own, status, stored, created, answers), own)
  {
    DeployAgrees(codec, kube, spec, own, status, stored, answers, true);
  }

  /** So the documented default namespace does not work for Create: without a namespace in the spec, and
      with an API that makes no namespace without a name, it fails before anything is installed, unless it
      is told to make none. */
  lemma DefaultNamespaceFails(codec: Codec, kube: Kube, spec: Spec, own: string, status: ReleaseStatus,
                              stored: ReleaseStatus, created: string -> bool, answers: DeployAnswers)
    requires spec.namespace == "" && !created("")
    requires ReachesHelm(codec, kube, Namespaced.Fill(spec, own), answers)
    ensures var d := CreateStep(codec, kube, spec, own, status, stored, created, answers);
            if spec.skipCreateNamespace then d.call.Some?
            else d == Deployed(spec, status, None, Some(NamespaceFailed))
  {
    CreateReachesHelmIff(codec, kube, spec, own, status, stored, created, answers);
  }

  /** Helm installs into the namespace of the spec, by default into the resource's own. */
  lemma InstallsInto(spec: Spec, own: string)
    ensures Namespaced.Fill(spec.(namespace := ""), own).namespace == own
    ensures spec.namespace != "" ==> Namespaced.Fill(spec, own).namespace == spec.namespace
  {}
}
