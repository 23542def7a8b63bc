/**
 `mergeMaps` on Go's mutable maps. A nested map is a reference, so the result shares the nested
 maps it did not have to merge. The method is proved to compute `Values.Merge` whatever order the
 two loops visit the keys in, and to write to no map that existed before the call.
 */
module GoMaps {
  import opened Values

  datatype GoValue = Plain(v: Value) | Nested(m: GoMap)

  class GoMap {
    var entries: map<string, GoValue>
    ghost var repr: set<GoMap>

    constructor ()
      ensures Valid() && repr == {this}
      ensures Contents() == map[]
    {
      entries := map[];
      repr := {this};
    }

    /** No map is reachable from itself, and only maps are held by reference. */
    ghost predicate Valid()
      reads this, repr
      decreases repr
    {
      this in repr &&
      forall k | k in entries ::
        match entries[k]
        case Plain(v) => !v.Map?
        case Nested(m) => m in repr && m.repr <= repr - {this} && m.Valid()
    }

    ghost function Contents(): (c: Entries)
      requires Valid()
      reads this, repr
      ensures c.Keys == entries.Keys
      decreases repr
    {
      map k | k in entries ::
        match entries[k]
        case Plain(v) => v
        case Nested(m) => Map(m.Contents())
    }

    method Put(k: string, x: GoValue)
      requires Valid() && ValidValue(x) && this !in Footprint(x)
      modifies this
      ensures Valid() && repr == old(repr) + Footprint(x)
      ensures Contents() == old(Contents()[k := Denotes(x)])
      ensures entries == old(entries)[k := x]
    {
      ghost var value := Denotes(x);
      repr := repr + Footprint(x);
      assert Valid();
      entries := entries[k := x];
      assert ValidValue(x) && Denotes(x) == value;
    }
  }

  ghost function Footprint(x: GoValue): set<GoMap>
    reads if x.Nested? then {x.m} else {}
  {
    if x.Nested? then x.m.repr else {}
  }

  ghost predicate ValidValue(x: GoValue)
    reads if x.Nested? then {x.m} + x.m.repr else {}
  {
    if x.Nested? then x.m.Valid() else !x.v.Map?
  }

  ghost function Denotes(x: GoValue): Value
    requires ValidValue(x)
    reads if x.Nested? then {x.m} + x.m.repr else {}
  {
    if x.Nested? then Map(x.m.Contents()) else x.v
  }

  /** A nil map reads as an empty one. */
  ghost function ContentsOf(m: GoMap?): Entries
    requires m != null ==> m.Valid()
    reads if m == null then {} else {m} + m.repr
  {
    if m == null then map[] else m.Contents()
  }

  ghost function ReprOf(m: GoMap?): set<GoMap>
    reads if m == null then {} else {m}
  {
    if m == null then {} else m.repr
  }

  /** The merge with only the keys in `done` of the right side taken over so far. */
  ghost function MergedSoFar(a: Entries, b: Entries, done: set<string>): Entries {
    map k | k in a.Keys + b.Keys && (k in a || k in done) :: if k in done && k in b then Merge(a, b)[k] else a[k]
  }

  /** The first loop: a shallow copy. */
  method CopyMap(a: GoMap) returns (out: GoMap)
    requires a.Valid()
    ensures fresh(out) && out.Valid() && out.repr <= {out} + a.repr
    ensures out.Contents() == a.Contents()
  {
    out := new GoMap();
    var todo := a.entries.Keys;
    while todo != {}
      invariant todo <= a.entries.Keys
      invariant a.Valid() && out.Valid() && out.repr <= {out} + a.repr
      invariant out.entries.Keys == a.entries.Keys - todo
      invariant forall k | k in out.entries :: out.entries[k] == a.entries[k]
    {
      var k :| k in todo;
      todo := todo - {k};
      out.Put(k, a.entries[k]);
    }
    assert out.entries == a.entries;
  }

  method MergeMaps(a: GoMap, b: GoMap?) returns (out: GoMap)
    requires a.Valid() && (b != null ==> b.Valid())
    ensures fresh(out) && out.Valid()
    ensures forall o | o in out.repr :: o in a.repr || o in ReprOf(b) || fresh(o)
    ensures out.Contents() == old(Merge(a.Contents(), ContentsOf(b)))
    decreases ReprOf(b), 3
  {
    ghost var ca, cb := a.Contents(), ContentsOf(b);
    out := CopyMap(a);
    if b == null {
      MergeRightIdentity(ca);
    } else {
      assert out.Contents() == ca && b.Contents() == cb;
      MergeInto(out, b);
    }
    assert out.Contents() == Merge(ca, cb);
  }

  /** The second loop: the copy takes over the right side key by key. */
  method MergeInto(out: GoMap, b: GoMap)
    requires out.Valid() && b.Valid() && out !in b.repr
    modifies out
    ensures out.Valid()
    ensures forall o | o in out.repr :: o in old(out.repr) || o in b.repr || fresh(o)
    ensures out.Contents() == old(Merge(out.Contents(), b.Contents()))
    decreases b.repr, 2
  {
    ghost var ca, cb, base := out.Contents(), b.Contents(), out.repr + b.repr;
    var todo := b.entries.Keys;
    ghost var done: set<string> := {};
    MergedNone(ca, cb);
    while todo != {}
      invariant todo + done == cb.Keys && todo !! done
      invariant b.Valid() && b.Contents() == cb
      invariant out.Valid()
      invariant forall o | o in out.repr :: o in base || fresh(o)
      invariant out.Contents() == MergedSoFar(ca, cb, done)
    {
      var k :| k in todo;
      TakeOver(out, b, k, ca, done);
      todo, done := todo - {k}, done + {k};
    }
    assert done == cb.Keys;
    MergedAll(ca, cb);
  }

  method TakeOver(out: GoMap, b: GoMap, k: string, ghost ca: Entries, ghost done: set<string>)
    requires out.Valid() && b.Valid() && out !in b.repr
    requires k in b.entries && k !in done
    requires out.Contents() == MergedSoFar(ca, b.Contents(), done)
    modifies out
    ensures out.Valid() && b.Valid() && b.Contents() == old(b.Contents())
    ensures forall o | o in out.repr :: o in old(out.repr) || o in b.repr || fresh(o)
    ensures out.Contents() == MergedSoFar(ca, old(b.Contents()), done + {k})
    decreases b.repr, 1
  {
    MergedStep(ca, b.Contents(), done, k);
    assert b.Contents()[k] == Denotes(b.entries[k]);
    MergeKey(out, k, b.entries[k]);
  }

  /** The body of the second loop. */
  method MergeKey(out: GoMap, k: string, v: GoValue)
    requires out.Valid() && ValidValue(v) && out !in Footprint(v)
    modifies out
    ensures out.Valid()
    ensures forall o | o in out.repr :: o in old(out.repr) || o in Footprint(v) || fresh(o)
    ensures out.Contents() == old(out.Contents()[k := MergedValue(out.Contents(), k, Denotes(v))])
    decreases Footprint(v), 4
  {
    ghost var before, x := out.Contents(), MergedValue(out.Contents(), k, Denotes(v));
    if v.Nested? && k in out.entries && out.entries[k].Nested? {
      MergedNested(before, k, out.entries[k].m.Contents(), v.m.Contents());
      var merged := MergeMaps(out.entries[k].m, v.m);
      assert Denotes(Nested(merged)) == x;
      assert out.Contents() == before;
      out.Put(k, Nested(merged));
      assert out.Contents() == before[k := x];
    } else {
      assert Denotes(v) == x;
      out.Put(k, v);
    }
  }

  ghost function MergedValue(c: Entries, k: string, v: Value): Value {
    if v.Map? && k in c && c[k].Map? then Map(Merge(c[k].entries, v.entries)) else v
  }

  lemma MergedNested(c: Entries, k: string, left: Entries, right: Entries)
    requires k in c && c[k] == Map(left)
    ensures MergedValue(c, k, Map(right)) == Map(Merge(left, right))
  {}

  lemma MergedStep(a: Entries, b: Entries, done: set<string>, k: string)
    requires k in b && k !in done
    ensures MergedSoFar(a, b, done + {k}) ==
            MergedSoFar(a, b, done)[k := MergedValue(MergedSoFar(a, b, done), k, b[k])]
  {}

  lemma MergedNone(a: Entries, b: Entries)
    ensures MergedSoFar(a, b, {}) == a
  {}

  lemma MergedAll(a: Entries, b: Entries)
    ensures MergedSoFar(a, b, b.Keys) == Merge(a, b)
  {}
}
