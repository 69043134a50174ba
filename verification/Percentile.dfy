/** Percentiles of timing samples: two interpolated forms and the nearest-rank index. */
module Percentile {

  // ---- sorting ----

  ghost predicate Sorted(xs: seq<real>) {
    forall i, j :: 0 <= i < j < |xs| ==> xs[i] <= xs[j]
  }

  function Insert(x: real, sorted: seq<real>): (r: seq<real>)
    ensures |r| == |sorted| + 1
  {
    if sorted == [] || x <= sorted[0] then [x] + sorted else [sorted[0]] + Insert(x, sorted[1..])
  }

  function Sort(xs: seq<real>): (r: seq<real>)
    ensures |r| == |xs|
  {
    if xs == [] then [] else Insert(xs[0], Sort(xs[1..]))
  }

  lemma Prepend(x: real, rest: seq<real>)
    requires Sorted(rest) && forall j :: 0 <= j < |rest| ==> x <= rest[j]
    ensures Sorted([x] + rest) && multiset([x] + rest) == multiset(rest) + multiset{x}
  {
  }

  lemma HeadLowest(sorted: seq<real>, rest: seq<real>, x: real)
    requires sorted != [] && Sorted(sorted) && sorted[0] <= x && multiset(rest) == multiset(sorted[1..]) + multiset{x}
    ensures forall j :: 0 <= j < |rest| ==> sorted[0] <= rest[j]
  {
    forall j | 0 <= j < |rest| ensures sorted[0] <= rest[j] {
      assert rest[j] in multiset(rest);
      assert rest[j] == x || rest[j] in sorted[1..];
    }
  }

  lemma {:induction false} InsertFacts(x: real, sorted: seq<real>)
    requires Sorted(sorted)
    ensures Sorted(Insert(x, sorted)) && multiset(Insert(x, sorted)) == multiset(sorted) + multiset{x}
  {
    if sorted == [] || x <= sorted[0] {
      Prepend(x, sorted);
    } else {
      var rest := Insert(x, sorted[1..]);
      InsertFacts(x, sorted[1..]);
      HeadLowest(sorted, rest, x);
      Prepend(sorted[0], rest);
      Prepend(sorted[0], sorted[1..]);
      assert sorted == [sorted[0]] + sorted[1..];
    }
  }

  lemma {:induction false} SortFacts(xs: seq<real>)
    ensures Sorted(Sort(xs)) && multiset(Sort(xs)) == multiset(xs)
  {
    if xs != [] {
      SortFacts(xs[1..]);
      InsertFacts(xs[0], Sort(xs[1..]));
      assert xs == [xs[0]] + xs[1..];
    }
  }

  lemma SmallestFirst(a: seq<real>, b: seq<real>)
    requires Sorted(a) && Sorted(b) && multiset(a) == multiset(b) && a != []
    ensures b != [] && a[0] == b[0]
  {
    assert |a| == |multiset(a)| == |b|;
    assert a[0] in multiset(b) && b[0] in multiset(a);
    var i :| 0 <= i < |b| && b[i] == a[0];
    var j :| 0 <= j < |a| && a[j] == b[0];
  }

  /** There is one sorted order. */
  lemma {:induction false} SortedUnique(a: seq<real>, b: seq<real>)
    requires Sorted(a) && Sorted(b) && multiset(a) == multiset(b)
    ensures a == b
  {
    if a == [] {
      assert |b| == |multiset(b)| == 0;
    } else {
      SmallestFirst(a, b);
      assert a == [a[0]] + a[1..] && b == [b[0]] + b[1..];
      assert multiset(a[1..]) == multiset(a) - multiset{a[0]} == multiset(b[1..]);
      SortedUnique(a[1..], b[1..]);
    }
  }

  // ---- the two forms ----

  function Ceil(x: real): int {
    -(-x).Floor
  }

  lemma FloorBounds(x: real, n: nat)
    requires 0.0 <= x <= n as real
    ensures 0 <= x.Floor <= Ceil(x) <= n && x.Floor as real <= x < x.Floor as real + 1.0
    ensures Ceil(x) == if x == x.Floor as real then x.Floor else x.Floor + 1
  {
  }

  /** The position of a fraction among sorted samples. */
  function Position(n: nat, fraction: real): real {
    (n - 1) as real * fraction
  }

  lemma PositionInRange(n: nat, fraction: real)
    requires n > 0 && 0.0 <= fraction <= 1.0
    ensures 0.0 <= Position(n, fraction) <= (n - 1) as real
  {
    var m := (n - 1) as real;
    assert m * (1.0 - fraction) >= 0.0;
  }

  /** Between the samples below and above the position. */
  function FloorCeil(ordered: seq<real>, x: real): real
    requires 0.0 <= x <= (|ordered| - 1) as real
  {
    FloorBounds(x, |ordered| - 1);
    var low, high := x.Floor, Ceil(x);
    ordered[low] + (ordered[high] - ordered[low]) * (x - low as real)
  }

  function Min(a: int, b: int): int {
    if a < b then a else b
  }

  /** Weighing the sample below and the next one, which is clamped to the last. */
  function Weighted(ordered: seq<real>, x: real): real
    requires 0.0 <= x <= (|ordered| - 1) as real
  {
    FloorBounds(x, |ordered| - 1);
    var lower := x.Floor;
    var upper := Min(lower + 1, |ordered| - 1);
    var weight := x - lower as real;
    ordered[lower] * (1.0 - weight) + ordered[upper] * weight
  }

  function PercentileSplit(values: seq<real>, fraction: real): real
    requires values != [] && 0.0 <= fraction <= 1.0
  {
    PositionInRange(|values|, fraction);
    FloorCeil(Sort(values), Position(|values|, fraction))
  }

  function PercentileClamped(values: seq<real>, fraction: real): real
    requires values != [] && 0.0 <= fraction <= 1.0
  {
    PositionInRange(|values|, fraction);
    Weighted(Sort(values), Position(|values|, fraction))
  }

  lemma Blend(a: real, b: real, w: real)
    ensures a * (1.0 - w) + b * w == a + (b - a) * w
  {
  }

  lemma FormsAgreeAt(ordered: seq<real>, x: real)
    requires 0.0 <= x <= (|ordered| - 1) as real
    ensures FloorCeil(ordered, x) == Weighted(ordered, x)
  {
    FloorBounds(x, |ordered| - 1);
    var low := x.Floor;
    Blend(ordered[low], ordered[Min(low + 1, |ordered| - 1)], x - low as real);
    if x == low as real {
      assert (ordered[Ceil(x)] - ordered[low]) * 0.0 == 0.0;
    }
  }

  /** The two forms agree for every sample list and every fraction. */
  lemma FormsAgree(values: seq<real>, fraction: real)
    requires values != [] && 0.0 <= fraction <= 1.0
    ensures PercentileSplit(values, fraction) == PercentileClamped(values, fraction)
  {
    PositionInRange(|values|, fraction);
    FormsAgreeAt(Sort(values), Position(|values|, fraction));
  }

  lemma Product(x: real, y: real)
    requires x >= 0.0 && y >= 0.0
    ensures x * y >= 0.0
  {
  }

  lemma BlendBetween(a: real, b: real, w: real)
    requires a <= b && 0.0 <= w <= 1.0
    ensures a <= a + (b - a) * w <= b
  {
    Product(b - a, w);
    Product(b - a, 1.0 - w);
    assert (b - a) * (1.0 - w) == (b - a) - (b - a) * w;
  }

  /** The value lies between the two adjacent order statistics. */
  lemma Between(ordered: seq<real>, x: real)
    requires Sorted(ordered) && 0.0 <= x <= (|ordered| - 1) as real
    ensures 0 <= x.Floor <= Ceil(x) < |ordered| && ordered[x.Floor] <= FloorCeil(ordered, x) <= ordered[Ceil(x)]
  {
    FloorBounds(x, |ordered| - 1);
    BlendBetween(ordered[x.Floor], ordered[Ceil(x)], x - x.Floor as real);
  }

  lemma BlendMonotone(a: real, b: real, v: real, w: real)
    requires a <= b && v <= w
    ensures a + (b - a) * v <= a + (b - a) * w
  {
    Product(b - a, w - v);
    assert (b - a) * w - (b - a) * v == (b - a) * (w - v);
  }

  lemma MonotoneAt(ordered: seq<real>, x: real, y: real)
    requires Sorted(ordered) && 0.0 <= x <= y <= (|ordered| - 1) as real
    ensures FloorCeil(ordered, x) <= FloorCeil(ordered, y)
  {
    FloorBounds(x, |ordered| - 1);
    FloorBounds(y, |ordered| - 1);
    Between(ordered, x);
    Between(ordered, y);
    if x.Floor < y.Floor {
      assert Ceil(x) <= y.Floor;
      assert ordered[Ceil(x)] <= ordered[y.Floor];
    } else {
      if x > x.Floor as real {
        BlendMonotone(ordered[x.Floor], ordered[Ceil(x)], x - x.Floor as real, y - x.Floor as real);
      }
    }
  }

  /** A larger fraction never gives a smaller percentile. */
  lemma Monotone(values: seq<real>, f: real, g: real)
    requires values != [] && 0.0 <= f <= g <= 1.0
    ensures PercentileSplit(values, f) <= PercentileSplit(values, g)
  {
    PositionInRange(|values|, f);
    PositionInRange(|values|, g);
    SortFacts(values);
    assert (|values| - 1) as real * (g - f) >= 0.0;
    MonotoneAt(Sort(values), Position(|values|, f), Position(|values|, g));
  }

  /** The order of the samples is irrelevant. */
  lemma OrderIrrelevant(a: seq<real>, b: seq<real>, fraction: real)
    requires a != [] && multiset(a) == multiset(b) && 0.0 <= fraction <= 1.0
    ensures b != [] && PercentileSplit(a, fraction) == PercentileSplit(b, fraction)
  {
    assert |a| == |multiset(a)| == |multiset(b)| == |b|;
    SortFacts(a);
    SortFacts(b);
    SortedUnique(Sort(a), Sort(b));
  }

  lemma AtPosition(ordered: seq<real>, k: nat)
    requires k < |ordered|
    ensures FloorCeil(ordered, k as real) == ordered[k]
  {
    FloorBounds(k as real, |ordered| - 1);
  }

  /** The point a part `w` of the way from `a` to `b`. */
  ghost function Along(a: real, b: real, w: real): real {
    a + (b - a) * w
  }

  lemma BetweenPositions(ordered: seq<real>, k: nat, w: real)
    requires k + 1 < |ordered| && 0.0 < w < 1.0
    ensures FloorCeil(ordered, k as real + w) == Along(ordered[k], ordered[k + 1], w)
  {
    FloorBounds(k as real + w, |ordered| - 1);
    assert (k as real + w).Floor == k;
  }

  lemma PositionIs(n: nat, fraction: real, x: real)
    requires n > 0 && 0.0 <= fraction <= 1.0 && fraction * (n - 1) as real == x
    ensures Position(n, fraction) == x && 0.0 <= x <= (n - 1) as real
  {
    PositionInRange(n, fraction);
  }

  lemma SplitAt(values: seq<real>, fraction: real, x: real)
    requires values != [] && 0.0 <= fraction <= 1.0 && fraction * (|values| - 1) as real == x
    ensures 0.0 <= x <= (|values| - 1) as real && PercentileSplit(values, fraction) == FloorCeil(Sort(values), x)
  {
    PositionIs(|values|, fraction, x);
  }

  /** Fraction `k / (n - 1)` gives the sample of rank `k` in sorted order. */
  lemma AtRank(values: seq<real>, k: nat, fraction: real)
    requires k < |values| && fraction * (|values| - 1) as real == k as real && 0.0 <= fraction <= 1.0
    ensures PercentileSplit(values, fraction) == Sort(values)[k]
  {
    SplitAt(values, fraction, k as real);
    AtPosition(Sort(values), k);
  }

  /** From one rank to the next the percentile moves in proportion to the fraction. */
  lemma BetweenRanks(values: seq<real>, k: nat, fraction: real, w: real)
    requires k + 1 < |values| && 0.0 < w < 1.0 && 0.0 <= fraction <= 1.0
    requires fraction * (|values| - 1) as real == k as real + w
    ensures PercentileSplit(values, fraction) == Along(Sort(values)[k], Sort(values)[k + 1], w)
  {
    var x, ordered := k as real + w, Sort(values);
    SplitAt(values, fraction, x);
    assert FloorCeil(ordered, x) == Along(ordered[k], ordered[k + 1], w) by {
      BetweenPositions(ordered, k, w);
    }
  }

  lemma SortedPlace(values: seq<real>, i: nat) returns (j: nat)
    requires i < |values|
    ensures j < |values| && Sort(values)[j] == values[i]
  {
    SortFacts(values);
    assert values[i] in multiset(values);
    assert values[i] in multiset(Sort(values));
    j :| 0 <= j < |values| && Sort(values)[j] == values[i];
  }

  lemma EndsBound(sorted: seq<real>, j: nat)
    requires Sorted(sorted) && j < |sorted|
    ensures sorted[0] <= sorted[j] <= sorted[|sorted| - 1]
  {
  }

  lemma AllSorted(values: seq<real>, i: nat)
    requires i < |values|
    ensures Sort(values)[0] <= values[i] <= Sort(values)[|values| - 1]
  {
    var j := SortedPlace(values, i);
    SortFacts(values);
    EndsBound(Sort(values), j);
  }

  /** Fraction 0 gives the smallest sample and fraction 1 the largest. */
  lemma Extremes(values: seq<real>)
    requires values != []
    ensures PercentileSplit(values, 0.0) in values && PercentileSplit(values, 1.0) in values
    ensures forall i :: 0 <= i < |values| ==> PercentileSplit(values, 0.0) <= values[i] <= PercentileSplit(values, 1.0)
  {
    AtRank(values, 0, 0.0);
    AtRank(values, |values| - 1, 1.0);
    SortFacts(values);
    assert Sort(values)[0] in multiset(values) && Sort(values)[|values| - 1] in multiset(values);
    forall i | 0 <= i < |values| ensures Sort(values)[0] <= values[i] <= Sort(values)[|values| - 1] {
      AllSorted(values, i);
    }
  }

  // ---- nearest rank ----

  /** The index of the 95th percentile as the code computes it. */
  function RankIndex(n: nat): int {
    var index := (0.95 * n as real + 0.999999).Floor - 1;
    if index < 0 then 0 else index
  }

  /** It is the rank 19 n / 20 rounded up, less one. */
  lemma RankIsCeiling(n: nat)
    requires n > 0
    ensures RankIndex(n) == (19 * n + 19) / 20 - 1 && 0 <= RankIndex(n) < n
    ensures 20 * RankIndex(n) < 19 * n <= 20 * (RankIndex(n) + 1)
  {
    var q, r := (19 * n) / 20, (19 * n) % 20;
    assert 0.95 * n as real == q as real + r as real / 20.0;
    assert r > 0 ==> r as real / 20.0 >= 0.05;
  }

  function CountAtMost(xs: seq<real>, v: real): nat {
    if xs == [] then 0 else CountAtMost(xs[1..], v) + if xs[0] <= v then 1 else 0
  }

  /** The places of the samples not above `v`. */
  ghost function AtMost(xs: seq<real>, v: real): set<nat> {
    set i: nat | i < |xs| && xs[i] <= v
  }

  lemma {:induction false} CountIs(xs: seq<real>, v: real)
    ensures CountAtMost(xs, v) == |AtMost(xs, v)|
  {
    if xs == [] {
      assert AtMost(xs, v) == {};
    } else {
      CountIs(xs[1..], v);
      var later := Next(AtMost(xs[1..], v));
      NextSize(AtMost(xs[1..], v));
      assert AtMost(xs, v) == later + (if xs[0] <= v then {0} else {}) by {
        forall i: nat | i < |xs| && xs[i] <= v && i > 0 ensures i in later {
          assert i - 1 in AtMost(xs[1..], v);
        }
      }
      assert 0 !in later;
    }
  }

  ghost function Next(places: set<nat>): set<nat> {
    set i: nat | i in places :: i + 1
  }

  lemma NextWithout(places: set<nat>, p: nat)
    requires p in places
    ensures Next(places) == Next(places - {p}) + {p + 1} && p + 1 !in Next(places - {p})
  {
    forall i: nat | i in places && i != p ensures i + 1 in Next(places - {p}) {
      assert i in places - {p};
    }
  }

  lemma {:induction false} NextSize(places: set<nat>)
    ensures |Next(places)| == |places|
    decreases |places|
  {
    if places == {} {
      assert Next(places) == {};
    } else {
      var p :| p in places;
      NextSize(places - {p});
      NextWithout(places, p);
    }
  }

  lemma {:induction false} InsertCount(x: real, sorted: seq<real>, v: real)
    ensures CountAtMost(Insert(x, sorted), v) == CountAtMost(sorted, v) + if x <= v then 1 else 0
  {
    if sorted == [] || x <= sorted[0] {
      assert ([x] + sorted)[1..] == sorted;
    } else {
      InsertCount(x, sorted[1..], v);
      assert ([sorted[0]] + Insert(x, sorted[1..]))[1..] == Insert(x, sorted[1..]);
    }
  }

  lemma {:induction false} SortCount(xs: seq<real>, v: real)
    ensures CountAtMost(Sort(xs), v) == CountAtMost(xs, v)
  {
    if xs != [] {
      SortCount(xs[1..], v);
      InsertCount(xs[0], Sort(xs[1..]), v);
    }
  }

  lemma {:induction false} PrefixCount(xs: seq<real>, k: nat, v: real)
    requires k < |xs| && forall i :: 0 <= i <= k ==> xs[i] <= v
    ensures CountAtMost(xs, v) >= k + 1
  {
    if k > 0 {
      PrefixCount(xs[1..], k - 1, v);
    }
  }

  /** Every order statistic has as many samples at or below it as its rank. */
  lemma StatisticCovers(values: seq<real>, k: nat)
    requires k < |values|
    ensures CountAtMost(values, Sort(values)[k]) >= k + 1
  {
    SortFacts(values);
    PrefixCount(Sort(values), k, Sort(values)[k]);
    SortCount(values, Sort(values)[k]);
  }

  /** At least 95 in 100 samples are at or below the reported one. */
  lemma RankCovers(values: seq<real>)
    requires values != []
    ensures 0 <= RankIndex(|values|) < |values|
    ensures 20 * |AtMost(values, Sort(values)[RankIndex(|values|)])| >= 19 * |values|
  {
    RankIsCeiling(|values|);
    StatisticCovers(values, RankIndex(|values|));
    CountIs(values, Sort(values)[RankIndex(|values|)]);
  }
}
