/**
 `composeValuesFromSpec`: layers from `valuesFrom` in order, then the inline values, deep-merged,
 then the `set` overrides.
 */
module Compose {
  import opened Wrappers
  import opened Values
  import opened Normalize
  import opened Sources

  const KEY_VALUES := "values.yaml"
  const KEY_SET := "value"

  datatype SetVal = SetVal(name: string, value: string, valueFrom: Option<ValueFromSource>)

  datatype ValuesSpec = ValuesSpec(values: string, valuesFrom: seq<ValueFromSource>, set_: seq<SetVal>)

  // ---------- Specification ----------

  function ParseLayer(codec: Codec, text: string): Result<Entries, Error> {
    match codec.parseValues(text)
    case None => Err(ValuesUnparsable)
    case Some(v) => Ok(v)
  }

  function Layer(codec: Codec, kube: Kube, source: ValueFromSource): Result<Entries, Error> {
    var text :- GetDataValue(kube, source, KEY_VALUES);
    ParseLayer(codec, text)
  }

  /** The layers of all sources, or the error of the first that has one. */
  function Layers(codec: Codec, kube: Kube, sources: seq<ValueFromSource>): (r: Result<seq<Entries>, Error>)
    ensures r.Ok? ==> |r.value| == |sources|
  {
    if sources == [] then Ok([])
    else
      var front :- Layers(codec, kube, sources[..|sources| - 1]);
      var last :- Layer(codec, kube, sources[|sources| - 1]);
      Ok(front + [last])
  }

  function MergeAll(layers: seq<Entries>): Entries {
    if layers == [] then map[]
    else Merge(MergeAll(layers[..|layers| - 1]), layers[|layers| - 1])
  }

  /** The values before any `set` override. */
  function BeforeSet(codec: Codec, kube: Kube, spec: ValuesSpec): Result<Entries, Error> {
    var layers :- Layers(codec, kube, spec.valuesFrom);
    var inline :- ParseLayer(codec, spec.values);
    Ok(MergeAll(layers + [inline]))
  }

  function SetValue(kube: Kube, s: SetVal): Result<string, Error> {
    match s.valueFrom
    case None => Ok(s.value)
    case Some(source) => GetDataValue(kube, source, KEY_SET)
  }

  function ApplySet(codec: Codec, kube: Kube, s: SetVal, base: Entries): Result<Entries, Error> {
    var v :- SetValue(kube, s);
    if v == "" then Err(MissingValueForSet)
    else
      match codec.setInto(s.name + "=" + v, base)
      case None => Err(SetUnparsable)
      case Some(out) => Ok(out)
  }

  function ApplySets(codec: Codec, kube: Kube, sets: seq<SetVal>, base: Entries): Result<Entries, Error> {
    if sets == [] then Ok(base)
    else
      var out :- ApplySets(codec, kube, sets[..|sets| - 1], base);
      ApplySet(codec, kube, sets[|sets| - 1], out)
  }

  function ComposeValues(codec: Codec, kube: Kube, spec: ValuesSpec): Result<Entries, Error> {
    var base :- BeforeSet(codec, kube, spec);
    ApplySets(codec, kube, spec.set_, base)
  }

  // ---------- The loops ----------

  method ComposeValuesFromSpec(codec: Codec, kube: Kube, spec: ValuesSpec) returns (r: Result<Entries, Error>)
    ensures r == ComposeValues(codec, kube, spec)
  {
    var base, layers := MergeSources(codec, kube, spec.valuesFrom);
    if base.Err? {
      return Err(base.error);
    }
    var inline := codec.parseValues(spec.values);
    if inline.None? {
      return Err(ValuesUnparsable);
    }
    MergeAllSnoc(layers, inline.value);
    r := ApplyOverrides(codec, kube, spec.set_, Merge(base.value, inline.value));
  }

  method MergeSources(codec: Codec, kube: Kube, sources: seq<ValueFromSource>)
    returns (r: Result<Entries, Error>, ghost layers: seq<Entries>)
    ensures r.Ok? ==> Layers(codec, kube, sources) == Ok(layers) && r.value == MergeAll(layers)
    ensures r.Err? ==> Layers(codec, kube, sources) == Err(r.error)
  {
    var base: Entries := map[];
    layers := [];
    var n := |sources|;
    assert sources[..n] == sources;
    for i := 0 to n
      invariant Layers(codec, kube, sources[..i]) == Ok(layers)
      invariant base == MergeAll(layers)
    {
      LayersSnoc(codec, kube, sources, i);
      var text := GetDataValue(kube, sources[i], KEY_VALUES);
      if text.Err? {
        LayersFail(codec, kube, sources, i + 1);
        return Err(text.error), layers;
      }
      var current := codec.parseValues(text.value);
      if current.None? {
        LayersFail(codec, kube, sources, i + 1);
        return Err(ValuesUnparsable), layers;
      }
      base := Merge(base, current.value);
      MergeAllSnoc(layers, current.value);
      layers := layers + [current.value];
    }
    r := Ok(base);
  }

  method ApplyOverrides(codec: Codec, kube: Kube, sets: seq<SetVal>, before: Entries)
    returns (r: Result<Entries, Error>)
    ensures r == ApplySets(codec, kube, sets, before)
  {
    var base := before;
    var k := |sets|;
    assert sets[..k] == sets;
    for i := 0 to k
      invariant ApplySets(codec, kube, sets[..i], before) == Ok(base)
    {
      ApplySetsStep(codec, kube, sets, before, i);
      var s := sets[i];
      var v := "";
      if s.value != "" {
        v := s.value;
      }
      if s.valueFrom.Some? {
        var read := GetDataValue(kube, s.valueFrom.value, KEY_SET);
        if read.Err? {
          return Err(read.error);
        }
        v := read.value;
      }
      if v == "" {
        return Err(MissingValueForSet);
      }
      var out := codec.setInto(s.name + "=" + v, base);
      if out.None? {
        return Err(SetUnparsable);
      }
      base := out.value;
    }
    r := Ok(base);
  }

  lemma LayersSnoc(codec: Codec, kube: Kube, sources: seq<ValueFromSource>, i: nat)
    requires i < |sources|
    ensures sources[..i + 1][..i] == sources[..i] && sources[..i + 1][i] == sources[i]
  {}

  /** An error in a prefix is the error of the whole list. */
  lemma {:induction false} LayersFail(codec: Codec, kube: Kube, sources: seq<ValueFromSource>, i: nat)
    requires i <= |sources| && Layers(codec, kube, sources[..i]).Err?
    ensures Layers(codec, kube, sources) == Layers(codec, kube, sources[..i])
    decreases |sources|
  {
    if i == |sources| {
      assert sources[..i] == sources;
    } else {
      var front := sources[..|sources| - 1];
      assert front[..i] == sources[..i];
      LayersFail(codec, kube, front, i);
    }
  }

  lemma MergeAllSnoc(layers: seq<Entries>, last: Entries)
    ensures MergeAll(layers + [last]) == Merge(MergeAll(layers), last)
  {}

  /** One more override, from an error-free prefix. */
  lemma ApplySetsStep(codec: Codec, kube: Kube, sets: seq<SetVal>, before: Entries, i: nat)
    requires i < |sets| && ApplySets(codec, kube, sets[..i], before).Ok?
    ensures var next := ApplySet(codec, kube, sets[i], ApplySets(codec, kube, sets[..i], before).value);
            ApplySets(codec, kube, sets[..i + 1], before) == next &&
            (next.Err? ==> ApplySets(codec, kube, sets, before) == next)
  {
    assert sets[..i + 1][..i] == sets[..i];
    if ApplySets(codec, kube, sets[..i + 1], before).Err? {
      ApplySetsFail(codec, kube, sets, before, i + 1);
    }
  }

  lemma {:induction false} ApplySetsFail(codec: Codec, kube: Kube, sets: seq<SetVal>, base: Entries, i: nat)
    requires i <= |sets| && ApplySets(codec, kube, sets[..i], base).Err?
    ensures ApplySets(codec, kube, sets, base) == ApplySets(codec, kube, sets[..i], base)
    decreases |sets|
  {
    if i == |sets| {
      assert sets[..i] == sets;
    } else {
      var front := sets[..|sets| - 1];
      assert front[..i] == sets[..i];
      ApplySetsFail(codec, kube, front, base, i);
    }
  }

  /** The `i`-th override sets its name to the text of its source, or without a source to its literal value, in what
      the ones before it have made. With nothing to set, or text that cannot be parsed, the composition fails. */
  lemma OverrideApplies(codec: Codec, kube: Kube, spec: ValuesSpec, i: nat, base: Entries)
    requires i < |spec.set_| && ComposeValues(codec, kube, spec.(set_ := spec.set_[..i])) == Ok(base)
    ensures var s := spec.set_[i];
            var v := if s.valueFrom.Some? then GetDataValue(kube, s.valueFrom.value, "value") else Ok(s.value);
            var next := ComposeValues(codec, kube, spec.(set_ := spec.set_[..i + 1]));
            next == (if v.Err? then Err(v.error)
                     else if v.value == "" then Err(MissingValueForSet)
                     else var out := codec.setInto(s.name + "=" + v.value, base);
                          if out.Some? then Ok(out.value) else Err(SetUnparsable)) &&
            (next.Err? ==> ComposeValues(codec, kube, spec) == next)
  {
    ApplySetsStep(codec, kube, spec.set_, BeforeSet(codec, kube, spec).value, i);
  }

  // ---------- Source precedence ----------

  /** `i` is the last layer that fixes the leaf at `p`. */
  predicate LastFixing(layers: seq<Entries>, p: Path, i: nat) {
    i < |layers| && FixesLeaf(Map(layers[i]), p) &&
    forall j | i < j < |layers| :: !FixesLeaf(Map(layers[j]), p)
  }

  /** A leaf of the merged layers comes from the last layer that fixes it. */
  lemma {:induction false} SourcePrecedence(layers: seq<Entries>, p: Path, i: nat)
    requires LastFixing(layers, p, i)
    ensures Leaf(Map(MergeAll(layers)), p) == Leaf(Map(layers[i]), p)
    decreases |layers|
  {
    var n := |layers| - 1;
    MergeLeafAtPath(MergeAll(layers[..n]), layers[n], p);
    if i < n {
      LastFixingInFront(layers, p, i);
      SourcePrecedence(layers[..n], p, i);
    }
  }

  lemma LastFixingInFront(layers: seq<Entries>, p: Path, i: nat)
    requires LastFixing(layers, p, i) && i < |layers| - 1
    ensures LastFixing(layers[..|layers| - 1], p, i) && !FixesLeaf(Map(layers[|layers| - 1]), p)
  {}

  /** There are no other leaves. */
  lemma {:induction false} NoSourceNoLeaf(layers: seq<Entries>, p: Path)
    requires forall l | l in layers :: !FixesLeaf(Map(l), p)
    ensures Leaf(Map(MergeAll(layers)), p) == None
    decreases |layers|
  {
    if layers != [] {
      var n := |layers| - 1;
      assert layers[n] in layers;
      MergeLeafAtPath(MergeAll(layers[..n]), layers[n], p);
      NoSourceNoLeaf(layers[..n], p);
    }
  }

  // ---------- Missing optional sources ----------

  function Merged(codec: Codec, kube: Kube, sources: seq<ValueFromSource>): Result<Entries, Error> {
    var layers :- Layers(codec, kube, sources);
    Ok(MergeAll(layers))
  }

  lemma MergedSnoc(codec: Codec, kube: Kube, sources: seq<ValueFromSource>, last: ValueFromSource)
    ensures Merged(codec, kube, sources + [last]) ==
            var base :- Merged(codec, kube, sources);
            var layer :- Layer(codec, kube, last);
            Ok(Merge(base, layer))
  {}

  lemma {:induction false} MissingSourceMergesNothing(codec: Codec, kube: Kube,
      pre: seq<ValueFromSource>, source: ValueFromSource, post: seq<ValueFromSource>)
    requires codec.parseValues("") == Some(map[])
    requires MissingOptional(kube, source, KEY_VALUES)
    ensures Merged(codec, kube, pre + [source] + post) == Merged(codec, kube, pre + post)
    decreases |post|
  {
    if post == [] {
      MergedSnoc(codec, kube, pre, source);
      assert pre + [source] + post == pre + [source] && pre + post == pre;
      var base := Merged(codec, kube, pre);
      if base.Ok? {
        MergeRightIdentity(base.value);
      }
    } else {
      var n := |post| - 1;
      MissingSourceMergesNothing(codec, kube, pre, source, post[..n]);
      MergedSnoc(codec, kube, pre + [source] + post[..n], post[n]);
      MergedSnoc(codec, kube, pre + post[..n], post[n]);
      assert pre + [source] + post == pre + [source] + post[..n] + [post[n]];
      assert pre + post == pre + post[..n] + [post[n]];
    }
  }

  lemma BeforeSetFromMerged(codec: Codec, kube: Kube, spec: ValuesSpec)
    ensures BeforeSet(codec, kube, spec) ==
            var base :- Merged(codec, kube, spec.valuesFrom);
            var inline :- ParseLayer(codec, spec.values);
            Ok(Merge(base, inline))
  {}

  /** Inserting or removing a missing optional source anywhere changes neither the values nor the error. */
  lemma MissingOptionalSourceIsNeutral(codec: Codec, kube: Kube, spec: ValuesSpec,
      pre: seq<ValueFromSource>, source: ValueFromSource, post: seq<ValueFromSource>)
    requires codec.parseValues("") == Some(map[])
    requires MissingOptional(kube, source, KEY_VALUES)
    ensures ComposeValues(codec, kube, spec.(valuesFrom := pre + [source] + post)) ==
            ComposeValues(codec, kube, spec.(valuesFrom := pre + post))
  {
    MissingSourceMergesNothing(codec, kube, pre, source, post);
    BeforeSetFromMerged(codec, kube, spec.(valuesFrom := pre + [source] + post));
    BeforeSetFromMerged(codec, kube, spec.(valuesFrom := pre + post));
  }

  // ---------- Normalisation of a composition ----------

  /** Normalising every layer first gives the normalised composition. */
  lemma {:induction false} NormalizeMergeAll(layers: seq<Entries>)
    requires forall l | l in layers :: Representable(Map(l))
    ensures Representable(Map(MergeAll(layers)))
    ensures NormalizeConfig(MergeAll(layers)) ==
            MergeAll(seq(|layers|, i requires 0 <= i < |layers| => NormalizeConfig(layers[i])))
    decreases |layers|
  {
    if layers != [] {
      var n := |layers| - 1;
      var front := layers[..n];
      NormalizeMergeAll(front);
      MergeRepresentable(MergeAll(front), layers[n]);
      NormalizeHomomorphism(MergeAll(front), layers[n]);
      var all := seq(|layers|, i requires 0 <= i < |layers| => NormalizeConfig(layers[i]));
      var part := seq(|front|, i requires 0 <= i < |front| => NormalizeConfig(front[i]));
      assert all[..n] == part;
    }
  }

  // ---------- Default keys ----------

  /** Without a key in the source, values are under "values.yaml" and an override under "value". */
  lemma DefaultKeys(codec: Codec, kube: Kube, sel: DataKeySelector, d: map<string, string>, s: SetVal)
    requires sel.key == "" && kube.secrets(sel.ref) == Data(d) && "values.yaml" in d && "value" in d
    requires s.valueFrom == Some(ValueFromSource(None, Some(sel)))
    ensures Layer(codec, kube, ValueFromSource(None, Some(sel))) == ParseLayer(codec, d["values.yaml"])
    ensures SetValue(kube, s) == Ok(d["value"])
  {}
}
