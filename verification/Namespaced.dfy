/**
 The namespaced Release controller reads every secret and config map from the resource's own
 namespace. Its value, patch and drift functions are the cluster-scoped ones with each source's
 namespace filled in.
 */
module Namespaced {
  import opened Wrappers
  import opened Values
  import Normalize
  import Sources
  import Compose
  import Patches
  import ConnectionDetails
  import Drift

  type Error = Sources.Error

  datatype KeySelector = KeySelector(name: string, key: string, optional: bool)

  datatype ValueFromSource = ValueFromSource(configMap: Option<KeySelector>, secret: Option<KeySelector>)

  datatype SetVal = SetVal(name: string, value: string, valueFrom: Option<ValueFromSource>)

  datatype ValuesSpec = ValuesSpec(values: string, valuesFrom: seq<ValueFromSource>, set_: seq<SetVal>)

  datatype ReleaseSpec = ReleaseSpec(
    chart: Drift.ChartSpec,
    namespace: string,
    skipCreateNamespace: bool,
    takeOwnership: bool,
    values: ValuesSpec,
    patchesFrom: seq<ValueFromSource>,
    policies: seq<Drift.ManagementAction>,
    rollbackLimit: Option<Drift.int32>,
    details: seq<ConnectionDetails.Detail>)

  // ---------- The namespaced functions ----------

  function GetDataValue(kube: Sources.Kube, source: ValueFromSource, defaultKey: string,
                        namespace: string): Result<string, Error> {
    if source.secret.Some? then
      var r := source.secret.value;
      FromObject(kube.secrets(Sources.NamespacedName(namespace, r.name)), r, defaultKey)
    else if source.configMap.Some? then
      var r := source.configMap.value;
      FromObject(kube.configMaps(Sources.NamespacedName(namespace, r.name)), r, defaultKey)
    else Err(Sources.SourceNotSet)
  }

  function FromObject(f: Sources.Fetched, r: KeySelector, defaultKey: string): Result<string, Error> {
    if f.NotFound? && !r.optional then Err(Sources.SourceNotFound)
    else if f.Unreadable? || f.NoData? then Err(Sources.SourceUnreadable)
    else
      var k := if r.key != "" then r.key else defaultKey;
      var present := f.Data? && k in f.entries;
      if !present && !r.optional then Err(Sources.MissingKey(k))
      else Ok(if present then f.entries[k] else "")
  }

  /** The fold of the sources into `base`, from the first. */
  function FoldSources(codec: Sources.Codec, kube: Sources.Kube, sources: seq<ValueFromSource>, namespace: string,
                       base: Entries)
    : Result<Entries, Error>
  {
    if sources == [] then Ok(base)
    else
      var text :- GetDataValue(kube, sources[0], Compose.KEY_VALUES, namespace);
      match codec.parseValues(text)
      case None => Err(Sources.ValuesUnparsable)
      case Some(v) => FoldSources(codec, kube, sources[1..], namespace, Merge(base, v))
  }

  function FoldSets(codec: Sources.Codec, kube: Sources.Kube, sets: seq<SetVal>, namespace: string, base: Entries)
    : Result<Entries, Error>
  {
    if sets == [] then Ok(base)
    else
      var s := sets[0];
      var v :- if s.valueFrom.Some? then GetDataValue(kube, s.valueFrom.value, Compose.KEY_SET, namespace)
        else Ok(s.value);
      if v == "" then Err(Sources.MissingValueForSet)
      else
        match codec.setInto(s.name + "=" + v, base)
        case None => Err(Sources.SetUnparsable)
        case Some(out) => FoldSets(codec, kube, sets[1..], namespace, out)
  }

  function ComposeValues(codec: Sources.Codec, kube: Sources.Kube, spec: ValuesSpec,
                         namespace: string): Result<Entries, Error> {
    var base :- FoldSources(codec, kube, spec.valuesFrom, namespace, map[]);
    match codec.parseValues(spec.values)
    case None => Err(Sources.ValuesUnparsable)
    case Some(inline) => FoldSets(codec, kube, spec.set_, namespace, Merge(base, inline))
  }

  function PatchesFrom(codec: Sources.Codec, kube: Sources.Kube, sources: seq<ValueFromSource>, namespace: string,
                       base: seq<Sources.Patch>)
    : Result<seq<Sources.Patch>, Error>
  {
    if sources == [] then Ok(base)
    else
      var text :- GetDataValue(kube, sources[0], Patches.KEY_PATCH, namespace);
      if text == "" then PatchesFrom(codec, kube, sources[1..], namespace, base)
      else
        match codec.parsePatches(text)
        case None => Err(Sources.PatchesUnparsable)
        case Some(ps) => PatchesFrom(codec, kube, sources[1..], namespace, base + ps)
  }

  function HasUpdates(codec: Sources.Codec, kube: Sources.Kube, sources: seq<ValueFromSource>, recorded: string,
                      namespace: string)
    : Result<bool, Error>
  {
    var patches :- PatchesFrom(codec, kube, sources, namespace, []);
    var sum :- Patches.ShaOf(codec, patches);
    Ok(!Patches.EqualFold(sum, recorded))
  }

  function IsUpToDate(codec: Sources.Codec, kube: Sources.Kube, spec: ReleaseSpec, observed: Drift.HelmRelease,
                      recordedDigest: string, recordedSha: string, namespace: string): Result<bool, Error>
  {
    if observed.info.None? then Err(Sources.ReleaseInfoNil)
    else if Drift.IsPending(observed.info.value.status) then Ok(false)
    else if observed.chart.None? then Err(Sources.ChartNil)
    else if observed.chart.value.metadata.None? then Err(Sources.ChartMetadataNil)
    else
      var wanted, actual, mp := spec.chart, observed.chart.value.metadata.value, spec.policies;
      if wanted.name != actual.name then Ok(false)
      else if mp != [] && Drift.UpdateAction !in mp && Drift.AllActions !in mp then Ok(true)
      else if wanted.version != "" && wanted.version != actual.version && wanted.version != Drift.DEVEL then Ok(false)
      else if wanted.digest != "" && recordedDigest != "" && wanted.digest != recordedDigest then Ok(false)
      else
        var desired :- ComposeValues(codec, kube, spec.values, namespace);
        var config := if observed.config.None? then map[] else observed.config.value;
        if !Normalize.DeepEqual(Map(Normalize.NormalizeConfig(desired)), Map(Normalize.NormalizeConfig(config)))
          then Ok(false)
        else
          var changed :- HasUpdates(codec, kube, spec.patchesFrom, recordedSha, namespace);
          Ok(!changed)
  }

  /** One published value; the object is read in the release's namespace, whatever the reference says. */
  function ReadDetail(reader: ConnectionDetails.Reader, d: ConnectionDetails.Detail, relName: string,
                      relNamespace: string)
    : Result<string, ConnectionDetails.DetailError>
  {
    var ro := reader.get(ConnectionDetails.ObjectRef(d.ref.apiVersion, d.ref.kind, relNamespace, d.ref.name));
    if ro.None? then Err(ConnectionDetails.ObjectUnreadable)
    else if !(d.skipCheck || ConnectionDetails.PartOfRelease(ro.value, relName, relNamespace)) then
      Err(ConnectionDetails.NotPartOfRelease)
    else
      var v := ro.value.field(d.fieldPath);
      if v.None? then Err(ConnectionDetails.NoSuchField)
      else if !ConnectionDetails.HoldsSecretData(d) then Ok(v.value)
      else
        var plain := reader.decode(v.value);
        if plain.None? then Err(ConnectionDetails.NotBase64) else Ok(plain.value)
  }

  /** The details, from the first, written into `mcd`. */
  function FoldDetails(reader: ConnectionDetails.Reader, details: seq<ConnectionDetails.Detail>, relName: string,
                       relNamespace: string, mcd: ConnectionDetails.PublishedValues)
    : Result<ConnectionDetails.PublishedValues, ConnectionDetails.DetailError>
    decreases |details|
  {
    if details == [] then Ok(mcd)
    else
      var v :- ReadDetail(reader, details[0], relName, relNamespace);
      FoldDetails(reader, details[1..], relName, relNamespace, mcd[details[0].key := v])
  }

  /** The namespace Helm installs into. */
  function TargetNamespace(spec: ReleaseSpec, own: string): string {
    if spec.namespace != "" then spec.namespace else own
  }

  // ---------- The loops ----------

  method ComposeValuesFromSpec(codec: Sources.Codec, kube: Sources.Kube, spec: ValuesSpec, namespace: string)
    returns (r: Result<Entries, Error>)
    ensures r == ComposeValues(codec, kube, spec, namespace)
  {
    var base: Entries := map[];
    for i := 0 to |spec.valuesFrom|
      invariant FoldSources(codec, kube, spec.valuesFrom[i..], namespace, base) ==
                FoldSources(codec, kube, spec.valuesFrom, namespace, map[])
    {
      assert spec.valuesFrom[i..][1..] == spec.valuesFrom[i + 1..];
      var text := GetDataValue(kube, spec.valuesFrom[i], Compose.KEY_VALUES, namespace);
      if text.Err? {
        return Err(text.error);
      }
      var current := codec.parseValues(text.value);
      if current.None? {
        return Err(Sources.ValuesUnparsable);
      }
      base := Merge(base, current.value);
    }
    var inline := codec.parseValues(spec.values);
    if inline.None? {
      return Err(Sources.ValuesUnparsable);
    }
    r := ApplyOverrides(codec, kube, spec.set_, namespace, Merge(base, inline.value));
  }

  method ApplyOverrides(codec: Sources.Codec, kube: Sources.Kube, sets: seq<SetVal>, namespace: string, before: Entries)
    returns (r: Result<Entries, Error>)
    ensures r == FoldSets(codec, kube, sets, namespace, before)
  {
    var base := before;
    for i := 0 to |sets|
      invariant FoldSets(codec, kube, sets[i..], namespace, base) == FoldSets(codec, kube, sets, namespace, before)
    {
      assert sets[i..][1..] == sets[i + 1..];
      var s := sets[i];
      var v := s.value;
      if s.valueFrom.Some? {
        var read := GetDataValue(kube, s.valueFrom.value, Compose.KEY_SET, namespace);
        if read.Err? {
          return Err(read.error);
        }
        v := read.value;
      }
      if v == "" {
        return Err(Sources.MissingValueForSet);
      }
      var out := codec.setInto(s.name + "=" + v, base);
      if out.None? {
        return Err(Sources.SetUnparsable);
      }
      base := out.value;
    }
    r := Ok(base);
  }

  method GetFromSpec(codec: Sources.Codec, kube: Sources.Kube, sources: seq<ValueFromSource>, namespace: string)
    returns (r: Result<seq<Sources.Patch>, Error>)
    ensures r == PatchesFrom(codec, kube, sources, namespace, [])
  {
    var base: seq<Sources.Patch> := [];
    for i := 0 to |sources|
      invariant PatchesFrom(codec, kube, sources[i..], namespace, base) ==
                PatchesFrom(codec, kube, sources, namespace, [])
    {
      assert sources[i..][1..] == sources[i + 1..];
      var text := GetDataValue(kube, sources[i], Patches.KEY_PATCH, namespace);
      if text.Err? {
        return Err(text.error);
      }
      if text.value == "" {
        continue;
      }
      var ps := codec.parsePatches(text.value);
      if ps.None? {
        return Err(Sources.PatchesUnparsable);
      }
      base := base + ps.value;
    }
    r := Ok(base);
  }

  method Collect(reader: ConnectionDetails.Reader, details: seq<ConnectionDetails.Detail>, relName: string,
                 relNamespace: string)
    returns (r: Result<ConnectionDetails.PublishedValues, ConnectionDetails.DetailError>)
    ensures r == FoldDetails(reader, details, relName, relNamespace, map[])
  {
    var mcd: ConnectionDetails.PublishedValues := map[];
    for i := 0 to |details|
      invariant FoldDetails(reader, details[i..], relName, relNamespace, mcd) ==
                FoldDetails(reader, details, relName, relNamespace, map[])
    {
      assert details[i..][1..] == details[i + 1..];
      var cd := details[i];
      var ro := reader.get(ConnectionDetails.ObjectRef(cd.ref.apiVersion, cd.ref.kind, relNamespace, cd.ref.name));
      if ro.None? {
        return Err(ConnectionDetails.ObjectUnreadable);
      }
      if !cd.skipCheck && !ConnectionDetails.PartOfRelease(ro.value, relName, relNamespace) {
        return Err(ConnectionDetails.NotPartOfRelease);
      }
      var v := ro.value.field(cd.fieldPath);
      if v.None? {
        return Err(ConnectionDetails.NoSuchField);
      }
      var fv := v.value;
      if ConnectionDetails.HoldsSecretData(cd) {
        var plain := reader.decode(fv);
        if plain.None? {
          return Err(ConnectionDetails.NotBase64);
        }
        fv := plain.value;
      }
      mcd := mcd[cd.key := fv];
    }
    r := Ok(mcd);
  }

  // ---------- Filling in the namespace ----------

  function FillKey(r: Option<KeySelector>, namespace: string): Option<Sources.DataKeySelector> {
    match r
    case None => None
    case Some(k) => Some(Sources.DataKeySelector(Sources.NamespacedName(namespace, k.name), k.key, k.optional))
  }

  function FillSource(s: ValueFromSource, namespace: string): Sources.ValueFromSource {
    Sources.ValueFromSource(FillKey(s.configMap, namespace), FillKey(s.secret, namespace))
  }

  function FillSources(ss: seq<ValueFromSource>, namespace: string): seq<Sources.ValueFromSource> {
    seq(|ss|, i requires 0 <= i < |ss| => FillSource(ss[i], namespace))
  }

  function FillSet(s: SetVal, namespace: string): Compose.SetVal {
    Compose.SetVal(s.name, s.value, if s.valueFrom.Some? then Some(FillSource(s.valueFrom.value, namespace)) else None)
  }

  function FillSets(ss: seq<SetVal>, namespace: string): seq<Compose.SetVal> {
    seq(|ss|, i requires 0 <= i < |ss| => FillSet(ss[i], namespace))
  }

  function FillValues(v: ValuesSpec, namespace: string): Compose.ValuesSpec {
    Compose.ValuesSpec(v.values, FillSources(v.valuesFrom, namespace), FillSets(v.set_, namespace))
  }

  function FillDetail(d: ConnectionDetails.Detail, namespace: string): ConnectionDetails.Detail {
    d.(ref := d.ref.(namespace := namespace))
  }

  function FillDetails(ds: seq<ConnectionDetails.Detail>, namespace: string): seq<ConnectionDetails.Detail> {
    seq(|ds|, i requires 0 <= i < |ds| => FillDetail(ds[i], namespace))
  }

  /** The cluster-scoped spec a namespaced one stands for: its sources are in its own namespace, its
      published objects in the namespace Helm installs into. */
  function Fill(spec: ReleaseSpec, own: string): Drift.ReleaseSpec {
    Drift.ReleaseSpec(spec.chart, TargetNamespace(spec, own), spec.skipCreateNamespace, spec.takeOwnership,
                      FillValues(spec.values, own), FillSources(spec.patchesFrom, own), spec.policies,
                      spec.rollbackLimit, FillDetails(spec.details, TargetNamespace(spec, own)))
  }

  // ---------- Agreement ----------

  lemma SourceAgrees(kube: Sources.Kube, s: ValueFromSource, defaultKey: string, namespace: string)
    ensures Sources.GetDataValue(kube, FillSource(s, namespace), defaultKey) ==
            GetDataValue(kube, s, defaultKey, namespace)
  {}

  /** Folding from the first source is merging the layers of all of them onto what was there before. */
  lemma {:induction false} FoldAgrees(codec: Sources.Codec, kube: Sources.Kube, done: seq<Sources.ValueFromSource>,
                                      todo: seq<ValueFromSource>, namespace: string)
    requires Compose.Layers(codec, kube, done).Ok?
    ensures FoldSources(codec, kube, todo, namespace, Compose.MergeAll(Compose.Layers(codec, kube, done).value)) ==
            Compose.Merged(codec, kube, done + FillSources(todo, namespace))
    decreases |todo|
  {
    var all := done + FillSources(todo, namespace);
    if todo == [] {
      assert all == done;
    } else {
      var first := FillSource(todo[0], namespace);
      SourceAgrees(kube, todo[0], Compose.KEY_VALUES, namespace);
      Compose.MergedSnoc(codec, kube, done, first);
      assert all == (done + [first]) + FillSources(todo[1..], namespace);
      assert all[..|done| + 1] == done + [first];
      if Compose.Layer(codec, kube, first).Ok? {
        FoldAgrees(codec, kube, done + [first], todo[1..], namespace);
      } else {
        Compose.LayersFail(codec, kube, all, |done| + 1);
      }
    }
  }

  lemma {:induction false} SetsAgree(codec: Sources.Codec, kube: Sources.Kube, done: seq<Compose.SetVal>,
                                     todo: seq<SetVal>, namespace: string, base: Entries)
    requires Compose.ApplySets(codec, kube, done, base).Ok?
    ensures FoldSets(codec, kube, todo, namespace, Compose.ApplySets(codec, kube, done, base).value) ==
            Compose.ApplySets(codec, kube, done + FillSets(todo, namespace), base)
    decreases |todo|
  {
    var all := done + FillSets(todo, namespace);
    if todo == [] {
      assert all == done;
    } else {
      var first := FillSet(todo[0], namespace);
      if todo[0].valueFrom.Some? {
        SourceAgrees(kube, todo[0].valueFrom.value, Compose.KEY_SET, namespace);
      }
      assert (done + [first])[..|done|] == done;
      assert all == (done + [first]) + FillSets(todo[1..], namespace);
      assert all[..|done| + 1] == done + [first];
      if Compose.ApplySets(codec, kube, done + [first], base).Ok? {
        SetsAgree(codec, kube, done + [first], todo[1..], namespace, base);
      } else {
        Compose.ApplySetsFail(codec, kube, all, base, |done| + 1);
      }
    }
  }

  lemma ComposeAgrees(codec: Sources.Codec, kube: Sources.Kube, spec: ValuesSpec, namespace: string)
    ensures Compose.ComposeValues(codec, kube, FillValues(spec, namespace)) ==
            ComposeValues(codec, kube, spec, namespace)
  {
    var filled := FillValues(spec, namespace);
    FoldAgrees(codec, kube, [], spec.valuesFrom, namespace);
    assert [] + filled.valuesFrom == filled.valuesFrom;
    Compose.BeforeSetFromMerged(codec, kube, filled);
    var base := Compose.BeforeSet(codec, kube, filled);
    if base.Ok? {
      SetsAgree(codec, kube, [], spec.set_, namespace, base.value);
      assert [] + filled.set_ == filled.set_;
    }
  }

  lemma {:induction false} PatchesAgree(codec: Sources.Codec, kube: Sources.Kube, done: seq<Sources.ValueFromSource>,
                                        todo: seq<ValueFromSource>, namespace: string)
    requires Patches.PatchesFrom(codec, kube, done).Ok?
    ensures PatchesFrom(codec, kube, todo, namespace, Patches.PatchesFrom(codec, kube, done).value) ==
            Patches.PatchesFrom(codec, kube, done + FillSources(todo, namespace))
    decreases |todo|
  {
    var all := done + FillSources(todo, namespace);
    var base := Patches.PatchesFrom(codec, kube, done).value;
    if todo == [] {
      assert all == done;
    } else {
      var first := FillSource(todo[0], namespace);
      SourceAgrees(kube, todo[0], Patches.KEY_PATCH, namespace);
      assert (done + [first])[..|done|] == done && base + [] == base;
      assert all == (done + [first]) + FillSources(todo[1..], namespace);
      assert all[..|done| + 1] == done + [first];
      if Patches.PatchesFrom(codec, kube, done + [first]).Ok? {
        PatchesAgree(codec, kube, done + [first], todo[1..], namespace);
      } else {
        Patches.PatchesFail(codec, kube, all, |done| + 1);
      }
    }
  }

  lemma UpdatesAgree(codec: Sources.Codec, kube: Sources.Kube, sources: seq<ValueFromSource>, recorded: string,
                     namespace: string)
    ensures Patches.HasUpdates(codec, kube, FillSources(sources, namespace), recorded) ==
            HasUpdates(codec, kube, sources, recorded, namespace)
  {
    PatchesAgree(codec, kube, [], sources, namespace);
    assert [] + FillSources(sources, namespace) == FillSources(sources, namespace);
  }

  /** Both controllers take the same decisions, from their own values and patches. */
  lemma DecisionsAgree(codec: Sources.Codec, kube: Sources.Kube, spec: ReleaseSpec, observed: Drift.HelmRelease,
                       recordedDigest: string, recordedSha: string, own: string)
    ensures IsUpToDate(codec, kube, spec, observed, recordedDigest, recordedSha, own) ==
            Drift.Judge(spec.chart, spec.policies, observed, recordedDigest,
                        ComposeValues(codec, kube, spec.values, own),
                        HasUpdates(codec, kube, spec.patchesFrom, recordedSha, own))
  {}

  /** The namespaced drift check is the cluster-scoped one on the filled-in spec. */
  lemma DriftAgrees(codec: Sources.Codec, kube: Sources.Kube, spec: ReleaseSpec, observed: Drift.HelmRelease,
                    recordedDigest: string, recordedSha: string, own: string)
    ensures Drift.IsUpToDate(codec, kube, Fill(spec, own), observed, recordedDigest, recordedSha) ==
            IsUpToDate(codec, kube, spec, observed, recordedDigest, recordedSha, own)
  {
    ComposeAgrees(codec, kube, spec.values, own);
    UpdatesAgree(codec, kube, spec.patchesFrom, recordedSha, own);
    DecisionsAgree(codec, kube, spec, observed, recordedDigest, recordedSha, own);
  }

  lemma ReadAgrees(reader: ConnectionDetails.Reader, d: ConnectionDetails.Detail, relName: string, relNamespace: string)
    ensures ReadDetail(reader, d, relName, relNamespace) ==
            ConnectionDetails.Read(reader, FillDetail(d, relNamespace), relName, relNamespace)
  {}

  /** Reading everything in the release's namespace publishes what the cluster-scoped loop publishes for
      references into that namespace. */
  lemma {:induction false} DetailsAgree(reader: ConnectionDetails.Reader, done: seq<ConnectionDetails.Detail>,
                                        todo: seq<ConnectionDetails.Detail>, relName: string, relNamespace: string)
    requires ConnectionDetails.AllReadable(reader, done, relName, relNamespace)
    ensures var before := ConnectionDetails.ValuesOf(reader, done, relName, relNamespace);
            var r := FoldDetails(reader, todo, relName, relNamespace, before);
            ConnectionDetails.Published(reader, done + FillDetails(todo, relNamespace), relName, relNamespace) ==
            if r.Ok? then Some(r.value) else None
    decreases |todo|
  {
    var all := done + FillDetails(todo, relNamespace);
    if todo == [] {
      assert all == done;
    } else {
      var first := FillDetail(todo[0], relNamespace);
      ReadAgrees(reader, todo[0], relName, relNamespace);
      assert all == (done + [first]) + FillDetails(todo[1..], relNamespace);
      assert first in all;
      if ConnectionDetails.Read(reader, first, relName, relNamespace).Ok? {
        assert (done + [first])[..|done|] == done;
        DetailsAgree(reader, done + [first], todo[1..], relName, relNamespace);
      }
    }
  }

  /** The namespace a reference names makes no difference. */
  lemma ReferenceNamespaceIgnored(reader: ConnectionDetails.Reader, d: ConnectionDetails.Detail, other: string,
                                  relName: string, relNamespace: string)
    ensures ReadDetail(reader, FillDetail(d, other), relName, relNamespace) ==
            ReadDetail(reader, d, relName, relNamespace)
  {}

  /** To the cluster-scoped loop it does: on the same detail the two agree for every cluster exactly if the
      reference names the release's namespace. */
  lemma SameDetailAgreesIff(d: ConnectionDetails.Detail, relName: string, relNamespace: string)
    ensures (forall reader: ConnectionDetails.Reader ::
              ReadDetail(reader, d, relName, relNamespace) ==
              ConnectionDetails.Read(reader, d, relName, relNamespace)) <==>
            d.ref.namespace == relNamespace
  {
    if d.ref.namespace != relNamespace {
      var r := ConnectionDetails.ObjectRef(d.ref.apiVersion, d.ref.kind, relNamespace, d.ref.name);
      var there := ConnectionDetails.Object(
        map[ConnectionDetails.RELEASE_NAME := relName, ConnectionDetails.RELEASE_NAMESPACE := relNamespace],
          path => Some(""));
      var reader := ConnectionDetails.Reader(ref => if ref == r then Some(there) else None, text => Some(text));
      assert ReadDetail(reader, d, relName, relNamespace) != ConnectionDetails.Read(reader, d, relName, relNamespace);
    } else {
      forall reader: ConnectionDetails.Reader
        ensures ReadDetail(reader, d, relName, relNamespace) == ConnectionDetails.Read(reader, d, relName, relNamespace)
      {
        ReadAgrees(reader, d, relName, relNamespace);
      }
    }
  }
}
