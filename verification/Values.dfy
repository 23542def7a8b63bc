/**
 Helm values and their deep merge (`mergeMaps`), as a function on values.

 A path is the list of keys leading into nested maps. The theorems say what the merge holds
 at every path, and what algebra it does and does not satisfy.
 */
module Values {
  import opened Wrappers

  datatype Value =
    | Null
    | Bool(b: bool)
    | Int(i: int)                 // an int64, as --set parsing produces it
    | Float(f: real)              // a finite float64, as JSON decoding produces it
    | NaN                         // a float64, like the infinities, that JSON cannot express
    | Infinite(positive: bool)
    | Text(s: string)
    | List(items: seq<Value>)
    | Map(entries: Entries)

  type Entries = map<string, Value>
  type Path = seq<string>

  /** The value a map holds under `k`, if any. */
  function Get(m: Entries, k: string): Option<Value> {
    if k in m then Some(m[k]) else None
  }

  /** Right-biased deep merge: nested maps are merged, anything else in `b` replaces what `a` holds. */
  function Merge(a: Entries, b: Entries): Entries
    decreases Map(b)
  {
    map k | k in a.Keys + b.Keys ::
      if k !in b then a[k]
      else if b[k].Map? && k in a && a[k].Map? then Map(Merge(a[k].entries, b[k].entries))
      else b[k]
  }

  /** What stands at `p` below `v`; list elements have no path. */
  function Lookup(v: Value, p: Path): Option<Value> {
    if p == [] then Some(v)
    else if v.Map? && p[0] in v.entries then Lookup(v.entries[p[0]], p[1..])
    else None
  }

  /** `v` holds a non-map at `p` or on the way to `p`, so nothing merged below `v` shows at `p`. */
  predicate Decides(v: Value, p: Path) {
    if !v.Map? then true
    else if p == [] || p[0] !in v.entries then false
    else Decides(v.entries[p[0]], p[1..])
  }

  predicate IsMapAt(v: Value, p: Path) {
    var x := Lookup(v, p);
    x.Some? && x.value.Map?
  }

  predicate IsLeafAt(v: Value, p: Path) {
    var x := Lookup(v, p);
    x.Some? && !x.value.Map?
  }

  /** The leaf at `p`, if `p` ends in one. */
  function Leaf(v: Value, p: Path): Option<Value> {
    if IsLeafAt(v, p) then Lookup(v, p) else None
  }

  /** `v` fixes the leaf at `p`: it decides `p` or holds a map there. */
  predicate FixesLeaf(v: Value, p: Path) {
    Decides(v, p) || IsMapAt(v, p)
  }

  /** What a merge holds at a path, from what its two sides hold there. */
  function Over(x: Option<Value>, y: Option<Value>): Option<Value> {
    match (x, y)
    case (_, None) => x
    case (Some(Map(a)), Some(Map(b))) => Some(Map(Merge(a, b)))
    case (_, Some(_)) => y
  }

  /** Path semantics of the merge, for every path. */
  lemma {:induction false} MergeAtPath(a: Entries, b: Entries, p: Path)
    ensures Lookup(Map(Merge(a, b)), p) ==
            if Decides(Map(b), p) then Lookup(Map(b), p) else Over(Lookup(Map(a), p), Lookup(Map(b), p))
    decreases p
  {
    if p != [] {
      var k := p[0];
      if k in a && k in b && a[k].Map? && b[k].Map? {
        MergeAtPath(a[k].entries, b[k].entries, p[1..]);
      } else if k in b && b[k].Map? {
        if !Decides(b[k], p[1..]) {
          NotDecidedIsMapOrAbsent(b[k], p[1..]);
        }
        if k in a {
          NonMapHasNothingBelow(a[k], p[1..]);
        }
      } else if k in b {
        NonMapHasNothingBelow(b[k], p[1..]);
      }
    }
  }

  lemma LookupKey(m: Entries, k: string)
    requires k in m
    ensures Lookup(Map(m), [k]) == Some(m[k])
  {}

  lemma NonMapHasNothingBelow(v: Value, p: Path)
    requires !v.Map?
    ensures Lookup(v, p) == if p == [] then Some(v) else None
  {}

  lemma {:induction false} NotDecidedIsMapOrAbsent(v: Value, p: Path)
    requires !Decides(v, p)
    ensures Lookup(v, p).None? || IsMapAt(v, p)
    decreases p
  {
    if p != [] && p[0] in v.entries {
      NotDecidedIsMapOrAbsent(v.entries[p[0]], p[1..]);
    }
  }

  lemma {:induction false} MapIsNotDecided(v: Value, p: Path)
    requires IsMapAt(v, p)
    ensures !Decides(v, p)
    decreases p
  {
    if p != [] {
      MapIsNotDecided(v.entries[p[0]], p[1..]);
    }
  }

  /** Leaves and maps of the merge separately; together they fix it. */
  lemma MergeLeafAtPath(a: Entries, b: Entries, p: Path)
    ensures Leaf(Map(Merge(a, b)), p) == if FixesLeaf(Map(b), p) then Leaf(Map(b), p) else Leaf(Map(a), p)
    ensures IsMapAt(Map(Merge(a, b)), p) <==>
            IsMapAt(Map(b), p) || (IsMapAt(Map(a), p) && !Decides(Map(b), p))
  {
    MergeAtPath(a, b, p);
    if IsMapAt(Map(b), p) {
      MapIsNotDecided(Map(b), p);
    }
    if !Decides(Map(b), p) {
      NotDecidedIsMapOrAbsent(Map(b), p);
    }
  }

  // ---------- Algebra ----------

  lemma MergeRightIdentity(a: Entries)
    ensures Merge(a, map[]) == a
  {}

  lemma MergeLeftIdentity(b: Entries)
    ensures Merge(map[], b) == b
  {}

  /** Merging the same layer twice changes nothing more. */
  lemma {:induction false} MergeAbsorbs(a: Entries, b: Entries)
    ensures Merge(Merge(a, b), b) == Merge(a, b)
    decreases Map(b)
  {
    var ab := Merge(a, b);
    forall k | k in ab
      ensures Get(Merge(ab, b), k) == Get(ab, k)
    {
      if k in b && b[k].Map? {
        if k in a && a[k].Map? {
          MergeAbsorbs(a[k].entries, b[k].entries);
        } else {
          MergeIdempotent(b[k].entries);
        }
      }
    }
    SameEntries(Merge(ab, b), ab);
  }

  lemma {:induction false} MergeIdempotent(a: Entries)
    ensures Merge(a, a) == a
    decreases Map(a), 0
  {
    forall k | k in a
      ensures Get(Merge(a, a), k) == Get(a, k)
    {
      if a[k].Map? {
        MergeIdempotent(a[k].entries);
      }
    }
    SameEntries(Merge(a, a), a);
  }

  lemma SameEntries(x: Entries, y: Entries)
    requires x.Keys == y.Keys
    requires forall k | k in y :: Get(x, k) == Get(y, k)
    ensures x == y
  {}

  /** Every key of `a` is in `c`, and so on below keys under which both hold maps. */
  predicate Covered(a: Entries, c: Entries)
    decreases Map(a)
  {
    forall k | k in a :: k in c && (a[k].Map? && c[k].Map? ==> Covered(a[k].entries, c[k].entries))
  }

  /** `c` hides all of `a` exactly when it covers it. */
  lemma {:induction false} HiddenIffCovered(a: Entries, c: Entries)
    ensures Merge(a, c) == c <==> Covered(a, c)
    decreases Map(a)
  {
    var m := Merge(a, c);
    forall k | k in a && k in c && a[k].Map? && c[k].Map?
      ensures m[k] == c[k] <==> Covered(a[k].entries, c[k].entries)
    {
      HiddenIffCovered(a[k].entries, c[k].entries);
    }
    if Covered(a, c) {
      assert m.Keys == c.Keys;
      SameEntries(m, c);
    } else {
      var k :| k in a && !(k in c && (a[k].Map? && c[k].Map? ==> Covered(a[k].entries, c[k].entries)));
      assert k in m;
    }
  }

  /** `k` holds maps in `a` and `c`, and something in `b`. */
  predicate Between(a: Entries, b: Entries, c: Entries, k: string) {
    k in a && k in b && k in c && a[k].Map? && c[k].Map?
  }

  /** Where `b` puts a non-map between a map of `a` and a map of `c`, `c` covers the map of `a`. */
  predicate NoLeak(a: Entries, b: Entries, c: Entries)
    decreases Map(a)
  {
    forall k | k in a && Between(a, b, c, k) ::
      if b[k].Map? then NoLeak(a[k].entries, b[k].entries, c[k].entries)
      else Covered(a[k].entries, c[k].entries)
  }

  lemma KeyAssociates(a: Entries, b: Entries, c: Entries, k: string)
    requires !Between(a, b, c, k)
    ensures Get(Merge(Merge(a, b), c), k) == Get(Merge(a, Merge(b, c)), k)
  {}

  lemma {:induction false} KeyAssociatesIff(a: Entries, b: Entries, c: Entries, k: string)
    requires Between(a, b, c, k)
    ensures Get(Merge(Merge(a, b), c), k) == Get(Merge(a, Merge(b, c)), k) <==>
            if b[k].Map? then NoLeak(a[k].entries, b[k].entries, c[k].entries)
            else Covered(a[k].entries, c[k].entries)
    decreases Map(a), 0
  {
    if b[k].Map? {
      MergeAssociativeIff(a[k].entries, b[k].entries, c[k].entries);
    } else {
      HiddenIffCovered(a[k].entries, c[k].entries);
    }
  }

  /** The merge is associative on exactly the triples without a leak. */
  lemma {:induction false} MergeAssociativeIff(a: Entries, b: Entries, c: Entries)
    ensures Merge(Merge(a, b), c) == Merge(a, Merge(b, c)) <==> NoLeak(a, b, c)
    decreases Map(a), 1
  {
    var left := Merge(Merge(a, b), c);
    var right := Merge(a, Merge(b, c));
    assert left.Keys == right.Keys;
    if NoLeak(a, b, c) {
      forall k | k in right ensures Get(left, k) == Get(right, k) {
        if Between(a, b, c, k) {
          KeyAssociatesIff(a, b, c, k);
        } else {
          KeyAssociates(a, b, c, k);
        }
      }
      SameEntries(left, right);
    } else {
      var k :| Between(a, b, c, k) &&
        !(if b[k].Map? then NoLeak(a[k].entries, b[k].entries, c[k].entries)
          else Covered(a[k].entries, c[k].entries));
      KeyAssociatesIff(a, b, c, k);
    }
  }

  /** `p` holds a map in `a`, a non-map in `b` and a map in `c`. */
  predicate Clash(a: Entries, b: Entries, c: Entries, p: Path) {
    IsMapAt(Map(a), p) && IsLeafAt(Map(b), p) && IsMapAt(Map(c), p)
  }

  /** Without a clash at any path the merge is associative. */
  lemma {:induction false} MergeAssociativeWithoutClash(a: Entries, b: Entries, c: Entries)
    requires forall p: Path :: !Clash(a, b, c, p)
    ensures Merge(Merge(a, b), c) == Merge(a, Merge(b, c))
  {
    NoClashNoLeak(a, b, c);
    MergeAssociativeIff(a, b, c);
  }

  lemma {:induction false} NoClashNoLeak(a: Entries, b: Entries, c: Entries)
    requires forall p: Path :: !Clash(a, b, c, p)
    ensures NoLeak(a, b, c)
    decreases Map(a)
  {
    forall k | Between(a, b, c, k)
      ensures if b[k].Map? then NoLeak(a[k].entries, b[k].entries, c[k].entries)
              else Covered(a[k].entries, c[k].entries)
    {
      assert b[k].Map? by {
        assert !Clash(a, b, c, [k]);
        LookupKey(a, k);
        LookupKey(b, k);
        LookupKey(c, k);
      }
      forall p: Path ensures !Clash(a[k].entries, b[k].entries, c[k].entries, p) {
        assert ([k] + p)[1..] == p;
        assert !Clash(a, b, c, [k] + p);
      }
      NoClashNoLeak(a[k].entries, b[k].entries, c[k].entries);
    }
  }

  /** A scalar between two maps breaks associativity. */
  lemma MergeNotAssociative()
    ensures exists a: Entries, b: Entries, c: Entries :: Merge(Merge(a, b), c) != Merge(a, Merge(b, c))
  {
    var x: Entries := map["x" := Null];
    var a: Entries := map["k" := Map(x)];
    var b: Entries := map["k" := Null];
    var c: Entries := map["k" := Map(map[])];
    assert !Covered(x, map[]) by {
      assert "x" in x;
    }
    assert Between(a, b, c, "k");
    KeyAssociatesIff(a, b, c, "k");
  }
}
