/** `connectionDetails`: the values a Release publishes, read from objects of the release. */
module ConnectionDetails {
  import opened Wrappers
  import opened Text

  const RELEASE_NAME := "meta.helm.sh/release-name"
  const RELEASE_NAMESPACE := "meta.helm.sh/release-namespace"

  type PublishedValues = map<string, string>

  datatype DetailError = ObjectUnreadable | NotPartOfRelease | NoSuchField | NotBase64

  datatype ObjectRef = ObjectRef(apiVersion: string, kind: string, namespace: string, name: string)

  datatype Detail = Detail(ref: ObjectRef, fieldPath: string, key: string, skipCheck: bool)

  /** An object's annotations, and its fields by path, printed. */
  datatype Object = Object(annotations: map<string, string>, field: string -> Option<string>)

  /** The cluster, and base64 decoding; `None` stands for an error. */
  datatype Reader = Reader(get: ObjectRef -> Option<Object>, decode: string -> Option<string>)

  function Annotation(o: Object, k: string): string {
    if k in o.annotations then o.annotations[k] else ""
  }

  predicate PartOfRelease(o: Object, name: string, namespace: string) {
    Annotation(o, RELEASE_NAME) == name && Annotation(o, RELEASE_NAMESPACE) == namespace
  }

  predicate HoldsSecretData(d: Detail) {
    d.ref.kind == "Secret" && d.ref.apiVersion == "v1" && HasPrefix(d.fieldPath, "data")
  }

  /** The value one detail asks for. */
  function Read(reader: Reader, d: Detail, name: string, namespace: string): (r: Result<string, DetailError>)
    ensures r.Ok? ==>
              reader.get(d.ref).Some? && (d.skipCheck || PartOfRelease(reader.get(d.ref).value, name, namespace))
  {
    match reader.get(d.ref)
    case None => Err(ObjectUnreadable)
    case Some(o) =>
      if !d.skipCheck && !PartOfRelease(o, name, namespace) then Err(NotPartOfRelease)
      else
        match o.field(d.fieldPath)
        case None => Err(NoSuchField)
        case Some(v) =>
          if !HoldsSecretData(d) then Ok(v)
          else
            match reader.decode(v)
            case None => Err(NotBase64)
            case Some(plain) => Ok(plain)
  }

  predicate AllReadable(reader: Reader, details: seq<Detail>, name: string, namespace: string) {
    forall d | d in details :: Read(reader, d, name, namespace).Ok?
  }

  /** The values of readable details, later ones overwriting earlier ones. */
  function ValuesOf(reader: Reader, details: seq<Detail>, name: string, namespace: string): PublishedValues
    requires AllReadable(reader, details, name, namespace)
  {
    if details == [] then map[]
    else
      var n := |details| - 1;
      ValuesOf(reader, details[..n], name, namespace)[details[n].key := Read(reader, details[n], name, namespace).value]
  }

  /** All values, if every detail can be read. */
  function Published(reader: Reader, details: seq<Detail>, name: string, namespace: string): Option<PublishedValues> {
    if AllReadable(reader, details, name, namespace) then Some(ValuesOf(reader, details, name, namespace)) else None
  }

  /** Collects up to the first detail that cannot be read. */
  method Collect(reader: Reader, details: seq<Detail>, name: string, namespace: string)
    returns (mcd: PublishedValues, err: Option<DetailError>, ghost n: nat)
    ensures n <= |details| && AllReadable(reader, details[..n], name, namespace)
    ensures mcd == ValuesOf(reader, details[..n], name, namespace)
    ensures if err.None? then n == |details|
            else n < |details| && Read(reader, details[n], name, namespace) == Err(err.value)
    ensures Published(reader, details, name, namespace) == if err.None? then Some(mcd) else None
  {
    mcd := map[];
    n := 0;
    for i := 0 to |details|
      invariant n == i && AllReadable(reader, details[..i], name, namespace)
      invariant mcd == ValuesOf(reader, details[..i], name, namespace)
    {
      var cd := details[i];
      var ro := reader.get(cd.ref);
      if ro.None? {
        return mcd, Some(ObjectUnreadable), i;
      }
      if !cd.skipCheck && !PartOfRelease(ro.value, name, namespace) {
        return mcd, Some(NotPartOfRelease), i;
      }
      var v := ro.value.field(cd.fieldPath);
      if v.None? {
        return mcd, Some(NoSuchField), i;
      }
      var fv := v.value;
      if HoldsSecretData(cd) {
        var plain := reader.decode(fv);
        if plain.None? {
          return mcd, Some(NotBase64), i;
        }
        fv := plain.value;
      }
      OneMore(reader, details, name, namespace, i, fv);
      mcd := mcd[cd.key := fv];
      n := i + 1;
    }
    err := None;
    assert details[..n] == details;
  }

  lemma OneMore(reader: Reader, details: seq<Detail>, name: string, namespace: string, i: nat, v: string)
    requires i < |details| && AllReadable(reader, details[..i], name, namespace)
    requires Read(reader, details[i], name, namespace) == Ok(v)
    ensures AllReadable(reader, details[..i + 1], name, namespace)
    ensures ValuesOf(reader, details[..i + 1], name, namespace) ==
            ValuesOf(reader, details[..i], name, namespace)[details[i].key := v]
  {
    assert details[..i + 1][..i] == details[..i];
  }

  /** `details[j]` is the last to write its key. */
  predicate LastFor(details: seq<Detail>, j: nat) {
    j < |details| && forall i | j < i < |details| :: details[i].key != details[j].key
  }

  /** The last detail for a key wins. */
  lemma {:induction false} LastWins(reader: Reader, details: seq<Detail>, name: string, namespace: string, j: nat)
    requires AllReadable(reader, details, name, namespace) && LastFor(details, j)
    ensures var all := ValuesOf(reader, details, name, namespace);
            details[j].key in all && Ok(all[details[j].key]) == Read(reader, details[j], name, namespace)
    decreases |details|
  {
    var n := |details| - 1;
    if j < n {
      LastWins(reader, details[..n], name, namespace, j);
    }
  }

  /** Every published value was read for the last detail of its key, from an object that Helm annotated with
      this release unless the detail says not to check; no other key is published. */
  lemma {:induction false} PublishesOwnValues(reader: Reader, details: seq<Detail>, name: string, namespace: string,
                                              k: string)
    returns (j: nat)
    requires AllReadable(reader, details, name, namespace) && k in ValuesOf(reader, details, name, namespace)
    ensures LastFor(details, j) && details[j].key == k
    ensures Ok(ValuesOf(reader, details, name, namespace)[k]) == Read(reader, details[j], name, namespace)
    ensures reader.get(details[j].ref).Some? &&
            (details[j].skipCheck || AnnotatedWith(reader.get(details[j].ref).value, name, namespace))
    decreases |details|
  {
    var n := |details| - 1;
    if details[n].key == k {
      j := n;
      assert details[n] in details;
      if !details[n].skipCheck {
        AcceptsAnnotatedOnly(reader, details[n], name, namespace);
      }
    } else {
      j := PublishesOwnValues(reader, details[..n], name, namespace, k);
    }
  }

  /** The object has the annotation with this value; the empty value also stands for a missing annotation. */
  predicate Carries(o: Object, annotation: string, value: string) {
    if annotation in o.annotations then o.annotations[annotation] == value else value == ""
  }

  /** The object carries both of Helm's annotations, with these values. */
  predicate AnnotatedWith(o: Object, name: string, namespace: string) {
    Carries(o, "meta.helm.sh/release-name", name) && Carries(o, "meta.helm.sh/release-namespace", namespace)
  }

  /** A checked detail is refused exactly if its object lacks one of the annotations or has another value. */
  lemma AcceptsAnnotatedOnly(reader: Reader, d: Detail, name: string, namespace: string)
    requires reader.get(d.ref).Some? && !d.skipCheck
    ensures Read(reader, d, name, namespace) == Err(NotPartOfRelease) <==>
            !AnnotatedWith(reader.get(d.ref).value, name, namespace)
  {}

  /** What is published is the field as it stands, but decoded for the data of a v1 Secret. */
  lemma SecretDataIsDecoded(reader: Reader, d: Detail, name: string, namespace: string, v: string)
    requires Read(reader, d, name, namespace) == Ok(v)
    ensures reader.get(d.ref).Some? && reader.get(d.ref).value.field(d.fieldPath).Some?
    ensures var text := reader.get(d.ref).value.field(d.fieldPath).value;
            if d.ref.kind == "Secret" && d.ref.apiVersion == "v1" && |d.fieldPath| >= 4 && d.fieldPath[..4] == "data"
            then reader.decode(text) == Some(v)
            else v == text
  {}

  /** An object of another release, at whatever place, stops the collection with that error. */
  lemma ForeignObjectStops(reader: Reader, details: seq<Detail>, name: string, namespace: string, i: nat)
    requires i < |details|
    requires AllReadable(reader, details[..i], name, namespace)
    requires reader.get(details[i].ref).Some? && !details[i].skipCheck
    requires !AnnotatedWith(reader.get(details[i].ref).value, name, namespace)
    ensures Read(reader, details[i], name, namespace) == Err(NotPartOfRelease)
    ensures Published(reader, details, name, namespace) == None
  {
    AcceptsAnnotatedOnly(reader, details[i], name, namespace);
    assert details[i] in details;
  }
}
