/**
 `normalizeConfig`: a JSON round trip that turns every int64 into a float64, so that desired and
 stored values can be compared. A value JSON cannot express leaves the whole config as it was.
 */
module Normalize {
  import opened Values

  const TWO_53: int := 0x20_0000_0000_0000

  // ---------- int64 to float64 ----------

  /** The spacing of float64 values around a whole number `m`. */
  function Spacing(m: nat): (u: nat)
    ensures 1 <= u
    ensures m <= TWO_53 ==> m % u == 0
  {
    if m < TWO_53 then 1 else 2 * Spacing(m / 2)
  }

  /** The nearest multiple of `u`, ties to the even one. */
  function RoundTo(m: nat, u: nat): nat
    requires u > 0
  {
    var q, r := m / u, m % u;
    if 2 * r < u || (2 * r == u && q % 2 == 0) then m - r else m - r + u
  }

  /** The float64 nearest to a whole number, ties to the even significand. */
  function RoundMagnitude(m: nat): nat {
    RoundTo(m, Spacing(m))
  }

  function ToFloat64(i: int): int {
    if i < 0 then 0 - RoundMagnitude(-i) else RoundMagnitude(i)
  }

  predicate PowerOfTwo(u: nat) {
    u == 1 || (u > 0 && u % 2 == 0 && PowerOfTwo(u / 2))
  }

  /** A power of two that leaves `m` at most 53 bits of significand, and all of them unless it is 1. */
  lemma {:induction false} SpacingFits(m: nat)
    ensures m / Spacing(m) < TWO_53 && PowerOfTwo(Spacing(m))
    ensures Spacing(m) == 1 || TWO_53 / 2 <= m / Spacing(m)
  {
    if m >= TWO_53 {
      SpacingFits(m / 2);
      DoubledFits(m, Spacing(m / 2));
    }
  }

  lemma DoubledFits(m: nat, u: nat)
    requires m >= TWO_53 && PowerOfTwo(u) && m / 2 / u < TWO_53 && (u == 1 || TWO_53 / 2 <= m / 2 / u)
    ensures PowerOfTwo(2 * u) && TWO_53 / 2 <= m / (2 * u) < TWO_53
  {
    HalfQuotient(m, u);
    assert 2 * u / 2 == u;
  }

  lemma HalfQuotient(m: nat, u: nat)
    requires u > 0
    ensures m / (2 * u) == m / 2 / u
  {
    var q := m / 2 / u;
    assert m / 2 == q * u + m / 2 % u;
    assert m == 2 * u * q + (2 * (m / 2 % u) + m % 2);
    QuotientIs(m, 2 * u, q, 2 * (m / 2 % u) + m % 2);
  }

  lemma QuotientIs(m: nat, u: nat, q: nat, r: nat)
    requires u > 0 && m == u * q + r && r < u
    ensures m / u == q
  {
    var d := m / u - q;
    assert m == u * (m / u) + m % u;
    assert u * d == r - m % u;
    MultiplesLieApart(u, d);
  }

  lemma MultiplesLieApart(u: nat, d: int)
    ensures d >= 1 ==> u * d >= u
    ensures d <= -1 ==> u * d <= 0 - u
  {}

  /** The `k`-th multiple of `u`, no further from `m` than any other; of two equally near the even one. */
  predicate NearestMultiple(m: nat, u: nat, k: nat) {
    -(u as int) <= 2 * (k * u - m) <= u && (2 * (k * u - m) == u || 2 * (m - k * u) == u ==> k % 2 == 0)
  }

  /** That is what a whole number becomes, and its negative the negative of it. */
  lemma RoundsToNearestEven(m: nat)
    ensures exists k: nat :: ToFloat64(m) == k * Spacing(m) && NearestMultiple(m, Spacing(m), k)
    ensures ToFloat64(0 - m) == 0 - ToFloat64(m)
  {
    var k := RoundsToMultiple(m, Spacing(m));
    assert ToFloat64(m) == k * Spacing(m);
  }

  lemma RoundsToMultiple(m: nat, u: nat) returns (k: nat)
    requires u > 0
    ensures RoundTo(m, u) == k * u && NearestMultiple(m, u, k)
  {
    var q, r := m / u, m % u;
    QuotientAndRest(m, u);
    k := if 2 * r < u || (2 * r == u && q % 2 == 0) then q else q + 1;
    NearestIs(m, u, q, r, k);
  }

  lemma QuotientAndRest(m: nat, u: nat)
    requires u > 0
    ensures m == m / u * u + m % u && (m / u + 1) * u == m / u * u + u
  {}

  lemma NearestIs(m: nat, u: nat, q: nat, r: nat, k: nat)
    requires m == q * u + r && r < u && (q + 1) * u == q * u + u
    requires k == if 2 * r < u || (2 * r == u && q % 2 == 0) then q else q + 1
    ensures NearestMultiple(m, u, k)
  {
    if k == q {
      assert m - k * u == r;
    } else {
      assert k * u - m == u - r;
    }
  }

  lemma ToFloat64Exact(i: int)
    requires -TWO_53 <= i <= TWO_53
    ensures ToFloat64(i) == i
  {}

  // ---------- Normalisation ----------

  /** JSON can express the value. */
  predicate Representable(v: Value) {
    match v
    case NaN => false
    case Infinite(_) => false
    case List(items) => forall x | x in items :: Representable(x)
    case Map(entries) => forall k | k in entries :: Representable(entries[k])
    case _ => true
  }

  function Norm(v: Value): (n: Value)
    ensures n.Map? <==> v.Map?
  {
    match v
    case Int(i) => Float(ToFloat64(i) as real)
    case List(items) => List(seq(|items|, i requires 0 <= i < |items| => Norm(items[i])))
    case Map(entries) => Map(map k | k in entries :: Norm(entries[k]))
    case _ => v
  }

  function NormalizeConfig(cfg: Entries): Entries {
    if Representable(Map(cfg)) then Norm(Map(cfg)).entries else cfg
  }

  lemma {:induction false} NormIdempotent(v: Value)
    ensures Norm(Norm(v)) == Norm(v)
    ensures Representable(Norm(v)) <==> Representable(v)
  {
    match v
    case List(items) =>
      var n := Norm(v).items;
      forall i | 0 <= i < |items|
        ensures Norm(n[i]) == n[i] && (Representable(n[i]) <==> Representable(items[i]))
      {
        NormIdempotent(items[i]);
      }
      assert Norm(List(n)).items == n;
      forall x | x in items && Representable(Norm(v)) ensures Representable(x) {
        var i :| 0 <= i < |items| && items[i] == x;
        assert n[i] in n;
      }
    case Map(entries) =>
      var n := Norm(v).entries;
      forall k | k in entries
        ensures Norm(n[k]) == n[k] && (Representable(n[k]) <==> Representable(entries[k]))
      {
        NormIdempotent(entries[k]);
      }
      assert Norm(Map(n)).entries == n;
    case _ =>
  }

  /** Normalising a second time changes nothing, whether or not JSON can express the config. */
  lemma NormalizeIdempotent(cfg: Entries)
    ensures NormalizeConfig(NormalizeConfig(cfg)) == NormalizeConfig(cfg)
  {
    NormIdempotent(Map(cfg));
  }

  lemma {:induction false} NormCommutesWithMerge(a: Entries, b: Entries)
    ensures Norm(Map(Merge(a, b))) == Map(Merge(Norm(Map(a)).entries, Norm(Map(b)).entries))
    decreases Map(b)
  {
    var left := Norm(Map(Merge(a, b))).entries;
    var right := Merge(Norm(Map(a)).entries, Norm(Map(b)).entries);
    assert left.Keys == right.Keys;
    forall k | k in right ensures Get(left, k) == Get(right, k) {
      if k in a && k in b && a[k].Map? && b[k].Map? {
        NormCommutesWithMerge(a[k].entries, b[k].entries);
        assert a[k] == Map(a[k].entries) && b[k] == Map(b[k].entries);
      }
    }
    SameEntries(left, right);
  }

  lemma {:induction false} MergeRepresentable(a: Entries, b: Entries)
    requires Representable(Map(a)) && Representable(Map(b))
    ensures Representable(Map(Merge(a, b)))
    decreases Map(b)
  {
    var m := Merge(a, b);
    forall k | k in m ensures Representable(m[k]) {
      if k in a && k in b && a[k].Map? && b[k].Map? {
        MergeRepresentable(a[k].entries, b[k].entries);
      }
    }
  }

  /** Normalising layers and merging them, or merging and normalising, gives the same config. */
  lemma NormalizeHomomorphism(a: Entries, b: Entries)
    requires Representable(Map(a)) && Representable(Map(b))
    ensures NormalizeConfig(Merge(a, b)) == Merge(NormalizeConfig(a), NormalizeConfig(b))
  {
    MergeRepresentable(a, b);
    NormCommutesWithMerge(a, b);
  }

  // ---------- What the comparison sees ----------

  predicate IsNumber(v: Value) {
    v.Int? || v.Float?
  }

  function NumberValue(v: Value): real
    requires IsNumber(v)
  {
    if v.Int? then ToFloat64(v.i) as real else v.f
  }

  /** Equal but for the way numbers are represented, at any depth. */
  predicate SameButForNumbers(x: Value, y: Value) {
    if IsNumber(x) then IsNumber(y) && NumberValue(x) == NumberValue(y)
    else if x.List? then
      y.List? && |x.items| == |y.items| &&
      forall i | 0 <= i < |x.items| :: SameButForNumbers(x.items[i], y.items[i])
    else if x.Map? then
      y.Map? && x.entries.Keys == y.entries.Keys &&
      forall k | k in x.entries :: SameButForNumbers(x.entries[k], y.entries[k])
    else x == y
  }

  lemma {:induction false} NormEqualIff(x: Value, y: Value)
    ensures Norm(x) == Norm(y) <==> SameButForNumbers(x, y)
    decreases x, 1
  {
    if x.List? && y.List? {
      ListsNormEqualIff(x.items, y.items);
    } else if x.Map? && y.Map? {
      MapsNormEqualIff(x.entries, y.entries);
    }
  }

  lemma {:induction false} ListsNormEqualIff(xs: seq<Value>, ys: seq<Value>)
    ensures Norm(List(xs)) == Norm(List(ys)) <==> SameButForNumbers(List(xs), List(ys))
    decreases List(xs), 0
  {
    var nx, ny := Norm(List(xs)).items, Norm(List(ys)).items;
    if |xs| == |ys| {
      forall i | 0 <= i < |xs|
        ensures nx[i] == ny[i] <==> SameButForNumbers(xs[i], ys[i])
      {
        NormEqualIff(xs[i], ys[i]);
      }
      if SameButForNumbers(List(xs), List(ys)) {
        assert nx == ny;
      }
    } else {
      assert |nx| != |ny|;
    }
  }

  lemma {:induction false} MapsNormEqualIff(xs: Entries, ys: Entries)
    ensures Norm(Map(xs)) == Norm(Map(ys)) <==> SameButForNumbers(Map(xs), Map(ys))
    decreases Map(xs), 0
  {
    var nx, ny := Norm(Map(xs)).entries, Norm(Map(ys)).entries;
    assert nx.Keys == xs.Keys && ny.Keys == ys.Keys;
    forall k | k in xs && k in ys
      ensures nx[k] == ny[k] <==> SameButForNumbers(xs[k], ys[k])
    {
      NormEqualIff(xs[k], ys[k]);
    }
    if SameButForNumbers(Map(xs), Map(ys)) {
      assert nx == ny;
    }
  }

  /** `DeepEqual` of two values held apart: as `==`, except that NaN equals nothing. */
  predicate DeepEqual(x: Value, y: Value) {
    match x
    case NaN => false
    case List(items) =>
      y.List? && |items| == |y.items| && forall i | 0 <= i < |items| :: DeepEqual(items[i], y.items[i])
    case Map(entries) =>
      y.Map? && entries.Keys == y.entries.Keys && forall k | k in entries :: DeepEqual(entries[k], y.entries[k])
    case _ => x == y
  }

  predicate HoldsNaN(v: Value) {
    match v
    case NaN => true
    case List(items) => exists i | 0 <= i < |items| :: HoldsNaN(items[i])
    case Map(entries) => exists k | k in entries :: HoldsNaN(entries[k])
    case _ => false
  }

  lemma {:induction false} DeepEqualIff(x: Value, y: Value)
    ensures DeepEqual(x, y) <==> x == y && !HoldsNaN(x)
  {
    if x.List? && y.List? && |x.items| == |y.items| {
      forall i | 0 <= i < |x.items|
        ensures DeepEqual(x.items[i], y.items[i]) <==> x.items[i] == y.items[i] && !HoldsNaN(x.items[i])
      {
        DeepEqualIff(x.items[i], y.items[i]);
      }
      if DeepEqual(x, y) {
        assert x.items == y.items;
      }
    } else if x.Map? && y.Map? && x.entries.Keys == y.entries.Keys {
      forall k | k in x.entries
        ensures DeepEqual(x.entries[k], y.entries[k]) <==> x.entries[k] == y.entries[k] && !HoldsNaN(x.entries[k])
      {
        DeepEqualIff(x.entries[k], y.entries[k]);
      }
      if DeepEqual(x, y) {
        assert x.entries == y.entries;
      }
    }
  }

  lemma {:induction false} RepresentableHasNoNaN(v: Value)
    requires Representable(v)
    ensures !HoldsNaN(v)
  {
    if v.List? {
      forall i | 0 <= i < |v.items| ensures !HoldsNaN(v.items[i]) {
        assert v.items[i] in v.items;
        RepresentableHasNoNaN(v.items[i]);
      }
    } else if v.Map? {
      forall k | k in v.entries ensures !HoldsNaN(v.entries[k]) {
        RepresentableHasNoNaN(v.entries[k]);
      }
    }
  }

  predicate HoldsNonFinite(v: Value) {
    match v
    case NaN => true
    case Infinite(_) => true
    case List(items) => exists i | 0 <= i < |items| :: HoldsNonFinite(items[i])
    case Map(entries) => exists k | k in entries :: HoldsNonFinite(entries[k])
    case _ => false
  }

  /** JSON can express exactly the values without NaN and infinities at any depth. */
  lemma {:induction false} RepresentableIff(v: Value)
    ensures Representable(v) <==> !HoldsNonFinite(v)
  {
    if v.List? {
      forall i | 0 <= i < |v.items| ensures Representable(v.items[i]) <==> !HoldsNonFinite(v.items[i]) {
        RepresentableIff(v.items[i]);
      }
      assert forall i | 0 <= i < |v.items| :: v.items[i] in v.items;
      if !HoldsNonFinite(v) {
        forall x | x in v.items ensures Representable(x) {
          var i :| 0 <= i < |v.items| && v.items[i] == x;
        }
      }
    } else if v.Map? {
      forall k | k in v.entries ensures Representable(v.entries[k]) <==> !HoldsNonFinite(v.entries[k]) {
        RepresentableIff(v.entries[k]);
      }
    }
  }

  /** What the drift comparison takes for the same values. */
  predicate SameValues(x: Entries, y: Entries) {
    if Representable(Map(x)) && Representable(Map(y)) then SameButForNumbers(Map(x), Map(y))
    else DeepEqual(Map(x), Map(y))
  }

  predicate ComparesEqual(x: Entries, y: Entries) {
    DeepEqual(Map(NormalizeConfig(x)), Map(NormalizeConfig(y)))
  }

  /** The drift comparison sees every difference except the representation of numbers; configs JSON
      cannot express are compared as they are. */
  lemma ComparisonSees(x: Entries, y: Entries)
    ensures ComparesEqual(x, y) <==> SameValues(x, y)
  {
    var nx, ny := NormalizeConfig(x), NormalizeConfig(y);
    NormIdempotent(Map(x));
    NormIdempotent(Map(y));
    NormEqualIff(Map(x), Map(y));
    DeepEqualIff(Map(nx), Map(ny));
    DeepEqualIff(Map(x), Map(y));
    if Representable(Map(x)) {
      RepresentableHasNoNaN(Map(nx));
    }
  }

  /** A config compares equal to what normalising it gives exactly if it holds no NaN. */
  lemma ComparesEqualToNormalized(x: Entries)
    ensures ComparesEqual(x, NormalizeConfig(x)) <==> !HoldsNaN(Map(x))
  {
    NormalizeIdempotent(x);
    DeepEqualIff(Map(NormalizeConfig(x)), Map(NormalizeConfig(x)));
    if Representable(Map(x)) {
      NormIdempotent(Map(x));
      RepresentableHasNoNaN(Map(x));
      RepresentableHasNoNaN(Map(NormalizeConfig(x)));
    }
  }

  /** Two whole numbers are the same to the comparison exactly if they round to the same float64: up to 2^53
      that is equality, and just beyond two int64s are one float64. */
  lemma ComparisonOfWholeNumbers(k: string, i: int, j: int)
    ensures ComparesEqual(map[k := Int(i)], map[k := Int(j)]) <==> ToFloat64(i) == ToFloat64(j)
    ensures -TWO_53 <= i <= TWO_53 && -TWO_53 <= j <= TWO_53 ==> (ToFloat64(i) == ToFloat64(j) <==> i == j)
    ensures ToFloat64(TWO_53) == ToFloat64(TWO_53 + 1)
  {
    ComparisonSees(map[k := Int(i)], map[k := Int(j)]);
    SingleNumbersSame(k, i, j);
    if -TWO_53 <= i <= TWO_53 && -TWO_53 <= j <= TWO_53 {
      ToFloat64Exact(i);
      ToFloat64Exact(j);
    }
    assert Spacing(TWO_53 / 2) == 1 && Spacing((TWO_53 + 1) / 2) == 1;
  }

  lemma SingleNumbersSame(k: string, i: int, j: int)
    ensures SameValues(map[k := Int(i)], map[k := Int(j)]) <==> ToFloat64(i) == ToFloat64(j)
  {
    var x: Entries, y: Entries := map[k := Int(i)], map[k := Int(j)];
    assert x[k] == Int(i) && y[k] == Int(j) && x.Keys == y.Keys == {k};
    assert Representable(Map(x)) && Representable(Map(y));
    assert SameButForNumbers(Map(x), Map(y)) <==> SameButForNumbers(x[k], y[k]);
  }
}
