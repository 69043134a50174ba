/** Integer quantiles: the rounding form that picks episode steps and the floor form that picks
    reference observations. */
module Quantiles {
  import opened Wrappers

  datatype QuantileError = TooFew | DuplicateSteps

  /** The index of quantile `rank` of `count` over `n` values, rounded to the nearest. */
  function Index(rank: nat, n: nat, count: nat): int
    requires count > 1
  {
    (rank * (n - 1) + (count - 1) / 2) / (count - 1)
  }

  /** The floor form. */
  function FloorIndex(rank: nat, n: nat, count: nat): int
    requires count > 1
  {
    rank * (n - 1) / (count - 1)
  }

  lemma DivBounds(a: int, d: int)
    requires d > 0
    ensures (a / d) * d <= a < (a / d) * d + d
  {
  }

  lemma DivExact(m: int, d: int, r: int)
    requires d > 0 && 0 <= r < d
    ensures (d * m + r) / d == m
  {
    DivBounds(d * m + r, d);
    DivUnique(d * m + r, d, m);
  }

  lemma DivUnique(a: int, d: int, q: int)
    requires d > 0 && q * d <= a < q * d + d
    ensures a / d == q
  {
    DivBounds(a, d);
    var p := a / d;
    if p < q {
      MulMono(p + 1, q, d);
    } else if q < p {
      MulMono(q + 1, p, d);
    }
  }

  lemma MulMono(x: int, y: int, d: int)
    requires x <= y && d >= 0
    ensures x * d <= y * d
  {
  }

  lemma MulMonoStrict(x: int, y: int, d: int)
    requires x * d < y * d && d > 0
    ensures x < y
  {
    if y <= x {
      MulMono(y, x, d);
    }
  }

  /** Floors of two numbers `m` apart, over `d`, differ by the quotient of `m` or one more. */
  lemma FloorGap(a: int, m: int, d: int)
    requires d > 0
    ensures m / d <= (a + m) / d - a / d <= m / d + (if m % d == 0 then 0 else 1)
  {
    var p, q, g := a / d, (a + m) / d, m / d;
    DivBounds(a, d);
    DivBounds(a + m, d);
    DivBounds(m, d);
    assert (g + p) * d == g * d + p * d;
    assert (q + 1) * d == q * d + d;
    assert (g + p + 2) * d == g * d + p * d + 2 * d;
    MulMonoStrict(g + p, q + 1, d);
    MulMonoStrict(q, g + p + 2, d);
    if m % d == 0 {
      assert m == g * d;
      assert (g + p + 1) * d == g * d + p * d + d;
      MulMonoStrict(q, g + p + 1, d);
    }
  }

  /** Both ends are hit. */
  lemma Ends(n: nat, count: nat)
    requires count > 1 && n >= 1
    ensures Index(0, n, count) == 0 && Index(count - 1, n, count) == n - 1
    ensures FloorIndex(0, n, count) == 0 && FloorIndex(count - 1, n, count) == n - 1
  {
    var d := count - 1;
    DivExact(0, d, d / 2);
    DivExact(n - 1, d, d / 2);
    DivExact(n - 1, d, 0);
  }

  /** Neighbouring indices differ by the quotient of `n - 1` over `count - 1`, or one more. */
  lemma Gaps(rank: nat, n: nat, count: nat)
    requires count > 1 && n >= 1
    ensures var step, extra := (n - 1) / (count - 1), if (n - 1) % (count - 1) == 0 then 0 else 1;
            && step <= Index(rank + 1, n, count) - Index(rank, n, count) <= step + extra
            && step <= FloorIndex(rank + 1, n, count) - FloorIndex(rank, n, count) <= step + extra
  {
    var m, d := n - 1, count - 1;
    assert (rank + 1) * m == rank * m + m;
    FloorGap(rank * m + d / 2, m, d);
    FloorGap(rank * m, m, d);
  }

  /** The rounding form is the nearest index, the higher of two as near: it is off by at most half a
      rank. The floor form never exceeds the exact position. */
  lemma Nearest(rank: nat, n: nat, count: nat)
    requires count > 1 && n >= 1
    ensures var d := count - 1;
            && -d < 2 * (Index(rank, n, count) * d - rank * (n - 1)) <= d
            && 0 <= rank * (n - 1) - FloorIndex(rank, n, count) * d < d
  {
    var d := count - 1;
    DivBounds(rank * (n - 1) + d / 2, d);
    DivBounds(rank * (n - 1), d);
  }

  lemma {:induction false} Increasing(i: nat, j: nat, n: nat, count: nat)
    requires i < j < count <= n
    ensures Index(i, n, count) < Index(j, n, count)
    ensures FloorIndex(i, n, count) < FloorIndex(j, n, count)
    decreases j
  {
    assert (n - 1) / (count - 1) >= 1 by {
      DivBounds(n - 1, count - 1);
      if (n - 1) / (count - 1) < 1 {
        MulMono((n - 1) / (count - 1), 0, count - 1);
      }
    }
    Gaps(j - 1, n, count);
    if i < j - 1 {
      Increasing(i, j - 1, n, count);
    }
  }

  /** Every index is in range. */
  lemma InRange(rank: nat, n: nat, count: nat)
    requires rank < count <= n && count > 1
    ensures 0 <= Index(rank, n, count) < n && 0 <= FloorIndex(rank, n, count) < n
  {
    Ends(n, count);
    if rank > 0 {
      Increasing(0, rank, n, count);
    }
    if rank < count - 1 {
      Increasing(rank, count - 1, n, count);
    }
  }

  predicate AllDistinct(xs: seq<int>) {
    forall i, j :: 0 <= i < j < |xs| ==> xs[i] != xs[j]
  }

  predicate StrictlyIncreasing(xs: seq<int>) {
    forall i, j :: 0 <= i < j < |xs| ==> xs[i] < xs[j]
  }

  function Picked(values: seq<int>, count: nat): seq<int>
    requires 1 < count <= |values|
  {
    seq(count, rank requires 0 <= rank < count =>
          (InRange(rank, |values|, count); values[Index(rank, |values|, count)]))
  }

  /** Selects `count` values at integer quantiles. */
  function Select(values: seq<int>, count: int): Result<seq<int>, QuantileError> {
    if count <= 0 || |values| < count then Err(TooFew)
    else if count == 1 then Ok([values[(|values| - 1) / 2]])
    else
      var selected := Picked(values, count);
      if AllDistinct(selected) then Ok(selected) else Err(DuplicateSteps)
  }

  lemma PickedFacts(values: seq<int>, count: nat)
    requires StrictlyIncreasing(values) && 1 < count <= |values|
    ensures var r := Picked(values, count);
            && StrictlyIncreasing(r) && r[0] == values[0] && r[count - 1] == values[|values| - 1]
  {
    var r := Picked(values, count);
    forall i, j | 0 <= i < j < |r| ensures r[i] < r[j] {
      Increasing(i, j, |values|, count);
      InRange(i, |values|, count);
      InRange(j, |values|, count);
    }
    Ends(|values|, count);
  }

  /** Index `k` is the nearest to the exact position of quantile `rank`, the higher of two as near. */
  predicate IsNearest(k: int, rank: nat, n: nat, count: nat) {
    1 - count < 2 * (k * (count - 1) - rank * (n - 1)) <= count - 1
  }

  ghost predicate NearestPick(values: seq<int>, count: nat, rank: nat, value: int) {
    exists k :: 0 <= k < |values| && value == values[k] && IsNearest(k, rank, |values|, count)
  }

  /** Over strictly increasing values the selection never fails once there are enough of them:
      it is strictly increasing, takes the first and the last, and at each rank the value nearest to it.
      A single one is the middle value, the lower of two. */
  lemma SelectIncreasing(values: seq<int>, count: int)
    requires StrictlyIncreasing(values) && 0 < count <= |values|
    ensures Select(values, count).Ok?
    ensures var r := Select(values, count).value;
            && |r| == count && StrictlyIncreasing(r) && (forall i :: 0 <= i < |r| ==> r[i] in values)
            && (count > 1 ==> r[0] == values[0] && r[count - 1] == values[|values| - 1])
            && (count > 1 ==> forall rank :: 0 <= rank < count ==> NearestPick(values, count, rank, r[rank]))
            && (count == 1 ==>
                exists k :: 0 <= k < |values| && r == [values[k]] && |values| - 2 <= 2 * k <= |values| - 1)
  {
    if count > 1 {
      PickedFacts(values, count);
      forall rank | 0 <= rank < count ensures NearestPick(values, count, rank, Picked(values, count)[rank]) {
        InRange(rank, |values|, count);
        Nearest(rank, |values|, count);
        assert IsNearest(Index(rank, |values|, count), rank, |values|, count);
      }
      IncreasingDistinct(Picked(values, count));
      forall i | 0 <= i < count ensures Picked(values, count)[i] in values {
        InRange(i, |values|, count);
      }
    }
  }

  lemma IncreasingDistinct(xs: seq<int>)
    requires StrictlyIncreasing(xs)
    ensures AllDistinct(xs)
  {
  }

  /** The floor form over a dataset, or None where the source raises. */
  function UniformIndices(length: nat, count: int): Option<seq<int>> {
    if count < 1 || count > length then None
    else if count == 1 then Some([0])
    else Some(seq(count, i requires 0 <= i => FloorIndex(i, length, count)))
  }

  /** Distinct indices in order, with both ends, none above its exact position or a rank below it;
      it fails exactly without enough frames. */
  lemma UniformFacts(length: nat, count: int)
    ensures UniformIndices(length, count).Some? <==> 1 <= count <= length
    ensures UniformIndices(length, count).Some? ==>
              var r := UniformIndices(length, count).value;
              && |r| == count && StrictlyIncreasing(r) && r[0] == 0
                 && (forall i :: 0 <= i < count ==> 0 <= r[i] < length)
              && (count > 1 ==> r[count - 1] == length - 1)
              && forall i :: 0 <= i < count ==>
                   0 <= i * (length - 1) - r[i] * (count - 1) <= if count == 1 then 0 else count - 2
  {
    if 1 < count <= length {
      Ends(length, count);
      forall i | 0 <= i < count ensures 0 <= i * (length - 1) - FloorIndex(i, length, count) * (count - 1) < count - 1 {
        Nearest(i, length, count);
      }
      forall i, j | 0 <= i < j < count ensures FloorIndex(i, length, count) < FloorIndex(j, length, count) {
        Increasing(i, j, length, count);
      }
      forall i | 0 <= i < count ensures 0 <= FloorIndex(i, length, count) < length {
        InRange(i, length, count);
      }
    }
  }
}
