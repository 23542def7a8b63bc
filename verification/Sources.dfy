/**
 What a Release reads from the cluster: keys of secrets and config maps, and the texts in them.
 The Kubernetes API, the YAML decoder, `strvals` and SHA-256 are parameters.
 */
module Sources {
  import opened Wrappers
  import opened Values

  datatype Error =
    | SourceNotFound
    | SourceUnreadable
    | MissingKey(key: string)
    | SourceNotSet
    | ValuesUnparsable
    | MissingValueForSet
    | SetUnparsable
    | PatchesUnparsable
    | PatchesUnhashable
    | ReleaseInfoNil
    | ChartNil
    | ChartMetadataNil
    | LastReleaseUnreadable
    | LastReleaseNil
    | ConnectionDetailsFailed
    | NamespaceFailed
    | CredentialsFailed
    | ChartPullFailed
    | LateInitFailed
    | HelmFailed

  datatype NamespacedName = NamespacedName(namespace: string, name: string)

  datatype DataKeySelector = DataKeySelector(ref: NamespacedName, key: string, optional: bool)

  datatype ValueFromSource = ValueFromSource(configMap: Option<DataKeySelector>, secret: Option<DataKeySelector>)

  /** The outcome of reading one object: absent, another error, present without data, or its data. */
  datatype Fetched = NotFound | Unreadable | NoData | Data(entries: map<string, string>)

  datatype Kube = Kube(secrets: NamespacedName -> Fetched, configMaps: NamespacedName -> Fetched)

  datatype Patch = Patch(text: string)

  /** Foreign code the controller calls; `None` stands for an error. */
  datatype Codec = Codec(
    parseValues: string -> Option<Entries>,
    setInto: (string, Entries) -> Option<Entries>,
    parsePatches: string -> Option<seq<Patch>>,
    digest: seq<Patch> -> Option<string>)

  function SelectKey(f: Fetched, sel: DataKeySelector, defaultKey: string): Result<string, Error> {
    match f
    case NotFound => if sel.optional then Ok("") else Err(SourceNotFound)
    case Unreadable => Err(SourceUnreadable)
    case NoData => Err(SourceUnreadable)
    case Data(d) =>
      var k := if sel.key != "" then sel.key else defaultKey;
      if k in d then Ok(d[k]) else if sel.optional then Ok("") else Err(MissingKey(k))
  }

  function GetDataValue(kube: Kube, source: ValueFromSource, defaultKey: string): Result<string, Error> {
    match source
    case ValueFromSource(_, Some(sel)) => SelectKey(kube.secrets(sel.ref), sel, defaultKey)
    case ValueFromSource(Some(sel), None) => SelectKey(kube.configMaps(sel.ref), sel, defaultKey)
    case _ => Err(SourceNotSet)
  }

  /** The source is optional and its object, or the key in it, is not there. */
  predicate MissingOptional(kube: Kube, source: ValueFromSource, defaultKey: string) {
    var sel := if source.secret.Some? then source.secret else source.configMap;
    sel.Some? && sel.value.optional &&
    var f := if source.secret.Some? then kube.secrets(sel.value.ref) else kube.configMaps(sel.value.ref);
    f.NotFound? || (f.Data? && (if sel.value.key != "" then sel.value.key else defaultKey) !in f.entries)
  }

  /** The secret or config map a source names; a secret comes first. */
  function Selected(kube: Kube, source: ValueFromSource): Option<(DataKeySelector, Fetched)> {
    if source.secret.Some? then Some((source.secret.value, kube.secrets(source.secret.value.ref)))
    else if source.configMap.Some? then Some((source.configMap.value, kube.configMaps(source.configMap.value.ref)))
    else None
  }

  /** Reading gives exactly what is under the key, or nothing for an optional source without object or key. An
      object that cannot be read, or is there without data, is an error also then. */
  lemma ReadsIff(kube: Kube, source: ValueFromSource, defaultKey: string, v: string)
    ensures GetDataValue(kube, source, defaultKey) == Ok(v) <==>
            Selected(kube, source).Some? &&
            var (sel, f) := Selected(kube, source).value;
            var k := if sel.key != "" then sel.key else defaultKey;
            (f.Data? && k in f.entries && f.entries[k] == v) ||
            (v == "" && sel.optional && (f.NotFound? || (f.Data? && k !in f.entries)))
  {}
}
