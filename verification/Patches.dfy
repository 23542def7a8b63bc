/** Kustomize patches of a Release: collecting them and noticing that they changed. */
module Patches {
  import opened Wrappers
  import opened Sources

  const KEY_PATCH := "patch.yaml"

  // ---------- Specification ----------

  function PatchesOf(codec: Codec, kube: Kube, source: ValueFromSource): Result<seq<Patch>, Error> {
    var text :- GetDataValue(kube, source, KEY_PATCH);
    if text == "" then Ok([])
    else
      match codec.parsePatches(text)
      case None => Err(PatchesUnparsable)
      case Some(ps) => Ok(ps)
  }

  function PatchesFrom(codec: Codec, kube: Kube, sources: seq<ValueFromSource>): Result<seq<Patch>, Error> {
    if sources == [] then Ok([])
    else
      var front :- PatchesFrom(codec, kube, sources[..|sources| - 1]);
      var last :- PatchesOf(codec, kube, sources[|sources| - 1]);
      Ok(front + last)
  }

  /** The recorded fingerprint of a patch list; the empty list has the empty one. */
  function ShaOf(codec: Codec, patches: seq<Patch>): Result<string, Error> {
    if patches == [] then Ok("")
    else
      match codec.digest(patches)
      case None => Err(PatchesUnhashable)
      case Some(sum) => Ok(sum)
  }

  function FoldChar(c: char): char {
    if 'A' <= c <= 'Z' then c - 'A' + 'a' else c
  }

  function FoldCase(s: string): (f: string)
    ensures |f| == |s|
  {
    seq(|s|, i requires 0 <= i < |s| => FoldChar(s[i]))
  }

  predicate EqualFold(s: string, t: string) {
    FoldCase(s) == FoldCase(t)
  }

  function HasUpdates(codec: Codec, kube: Kube, sources: seq<ValueFromSource>, recorded: string): Result<bool, Error> {
    var patches :- PatchesFrom(codec, kube, sources);
    var sum :- ShaOf(codec, patches);
    Ok(!EqualFold(sum, recorded))
  }

  // ---------- The loop ----------

  method GetFromSpec(codec: Codec, kube: Kube, sources: seq<ValueFromSource>) returns (r: Result<seq<Patch>, Error>)
    ensures r == PatchesFrom(codec, kube, sources)
  {
    var base: seq<Patch> := [];
    assert sources[..|sources|] == sources;
    for i := 0 to |sources|
      invariant PatchesFrom(codec, kube, sources[..i]) == Ok(base)
    {
      assert sources[..i + 1][..i] == sources[..i];
      var text := GetDataValue(kube, sources[i], KEY_PATCH);
      if text.Err? {
        PatchesFail(codec, kube, sources, i + 1);
        return Err(text.error);
      }
      if text.value == "" {
        assert base + [] == base;
        continue;
      }
      var ps := codec.parsePatches(text.value);
      if ps.None? {
        PatchesFail(codec, kube, sources, i + 1);
        return Err(PatchesUnparsable);
      }
      base := base + ps.value;
    }
    return Ok(base);
  }

  lemma {:induction false} PatchesFail(codec: Codec, kube: Kube, sources: seq<ValueFromSource>, i: nat)
    requires i <= |sources| && PatchesFrom(codec, kube, sources[..i]).Err?
    ensures PatchesFrom(codec, kube, sources) == PatchesFrom(codec, kube, sources[..i])
    decreases |sources|
  {
    if i == |sources| {
      assert sources[..i] == sources;
    } else {
      var front := sources[..|sources| - 1];
      assert front[..i] == sources[..i];
      PatchesFail(codec, kube, front, i);
    }
  }

  // ---------- Noticing changes ----------

  /** `c` is the capital of the ASCII letter `d`. */
  predicate CapitalOf(c: char, d: char) {
    'A' <= c <= 'Z' && d as int == c as int + 32
  }

  /** Texts are equal under folding exactly if they are so character by character, up to capital letters. */
  lemma EqualFoldIff(s: string, t: string)
    ensures EqualFold(s, t) <==>
            |s| == |t| && forall i | 0 <= i < |s| :: s[i] == t[i] || CapitalOf(s[i], t[i]) || CapitalOf(t[i], s[i])
  {
    if |s| == |t| {
      forall i | 0 <= i < |s|
        ensures FoldCase(s)[i] == FoldCase(t)[i] <==> s[i] == t[i] || CapitalOf(s[i], t[i]) || CapitalOf(t[i], s[i])
      {}
    }
  }

  predicate LowerHex(s: string) {
    s != "" && forall i | 0 <= i < |s| :: '0' <= s[i] <= '9' || 'a' <= s[i] <= 'f'
  }

  /** What is assumed of SHA-256 printed in hexadecimal. */
  ghost predicate GoodDigest(codec: Codec) {
    (forall p: seq<Patch> | p != [] && codec.digest(p).Some? :: LowerHex(codec.digest(p).value)) &&
    forall p: seq<Patch>, q: seq<Patch>
      | p != [] && q != [] && codec.digest(p).Some? && codec.digest(p) == codec.digest(q) ::
      p == q
  }

  lemma FingerprintsFoldApart(s: string, t: string)
    requires (s == "" || LowerHex(s)) && (t == "" || LowerHex(t))
    ensures EqualFold(s, t) <==> s == t
  {
    EqualFoldIff(s, t);
    if EqualFold(s, t) {
      assert forall i | 0 <= i < |s| :: s[i] == t[i];
    }
  }

  /** Against the fingerprint recorded for `deployed`, an update is reported exactly when the patches differ. */
  lemma UpdateIffPatchesDiffer(codec: Codec, kube: Kube, sources: seq<ValueFromSource>, deployed: seq<Patch>,
                               current: seq<Patch>)
    requires GoodDigest(codec)
    requires PatchesFrom(codec, kube, sources) == Ok(current)
    requires ShaOf(codec, current).Ok? && ShaOf(codec, deployed).Ok?
    ensures HasUpdates(codec, kube, sources, ShaOf(codec, deployed).value) == Ok(current != deployed)
  {
    FingerprintsFoldApart(ShaOf(codec, current).value, ShaOf(codec, deployed).value);
  }

  /** Exactly when the recorded fingerprint is, up to capital letters, that of the current patches, there is no
      update. */
  lemma NoUpdateIff(codec: Codec, kube: Kube, sources: seq<ValueFromSource>, current: seq<Patch>, sum: string,
                    recorded: string)
    requires PatchesFrom(codec, kube, sources) == Ok(current) && ShaOf(codec, current) == Ok(sum)
    ensures HasUpdates(codec, kube, sources, recorded) == Ok(false) <==>
            |sum| == |recorded| &&
            forall i | 0 <= i < |sum| ::
              sum[i] == recorded[i] || CapitalOf(sum[i], recorded[i]) || CapitalOf(recorded[i], sum[i])
  {
    EqualFoldIff(sum, recorded);
  }

  lemma PatchesSnoc(codec: Codec, kube: Kube, sources: seq<ValueFromSource>, last: ValueFromSource)
    ensures PatchesFrom(codec, kube, sources + [last]) ==
            var front :- PatchesFrom(codec, kube, sources);
            var ps :- PatchesOf(codec, kube, last);
            Ok(front + ps)
  {
    assert (sources + [last])[..|sources|] == sources;
  }

  /** The patches of two lists of sources, one after the other, are those of the first and then those of the
      second, or the first error. */
  lemma {:induction false} PatchesInOrder(codec: Codec, kube: Kube, first: seq<ValueFromSource>,
                                          second: seq<ValueFromSource>)
    ensures PatchesFrom(codec, kube, first + second) ==
            var ps :- PatchesFrom(codec, kube, first);
            var qs :- PatchesFrom(codec, kube, second);
            Ok(ps + qs)
    decreases |second|
  {
    var ps := PatchesFrom(codec, kube, first);
    if second == [] {
      assert first + second == first;
      assert ps.Ok? ==> ps.value + [] == ps.value;
    } else {
      var front, x := second[..|second| - 1], second[|second| - 1];
      assert second == front + [x] && first + second == (first + front) + [x];
      PatchesInOrder(codec, kube, first, front);
      PatchesSnoc(codec, kube, first + front, x);
      var qs, last := PatchesFrom(codec, kube, front), PatchesOf(codec, kube, x);
      assert ps.Ok? && qs.Ok? && last.Ok? ==> ps.value + qs.value + last.value == ps.value + (qs.value + last.value);
    }
  }

  /** A source with an empty text has no patches, whatever parsing it would give. */
  lemma EmptyTextHasNoPatches(codec: Codec, kube: Kube, source: ValueFromSource)
    requires GetDataValue(kube, source, "patch.yaml") == Ok("")
    ensures PatchesFrom(codec, kube, [source]) == Ok([])
  {
    assert [source][..0] == [];
    assert PatchesFrom(codec, kube, []) == Ok([]) && PatchesOf(codec, kube, source) == Ok([]);
    var none: seq<Patch> := [];
    assert none + none == none;
  }

  /** Without a key in the source, patches are under "patch.yaml". */
  lemma DefaultPatchKey(codec: Codec, kube: Kube, sel: DataKeySelector, d: map<string, string>)
    requires sel.key == "" && kube.secrets(sel.ref) == Data(d) && "patch.yaml" in d && d["patch.yaml"] != ""
    requires codec.parsePatches(d["patch.yaml"]).Some?
    ensures var source := ValueFromSource(None, Some(sel));
            PatchesFrom(codec, kube, [source]) == Ok(codec.parsePatches(d["patch.yaml"]).value)
  {
    assert [ValueFromSource(None, Some(sel))][..0] == [];
    assert PatchesFrom(codec, kube, [ValueFromSource(None, Some(sel))][..0]) == Ok([]);
    assert [] + codec.parsePatches(d["patch.yaml"]).value == codec.parsePatches(d["patch.yaml"]).value;
  }
}
