/** The numerical gate over snapshots and traces, and its error metrics in exact arithmetic. */
module Lossless {
  import opened Wrappers

  datatype Number = Finite(x: real) | Nonfinite

  /** An array: its shape, its type, its bytes and the numbers they stand for. */
  datatype Snapshot = Snapshot(shape: seq<nat>, dtype: string, storage: seq<int>, values: seq<Number>)

  datatype Thresholds = Thresholds(maxAbs: real, rms: real, relative: real, exactBits: bool, floor: real)

  const LOSSLESS := Thresholds(0.0, 0.0, 0.0, true, 0.000000000001)

  datatype Failure =
    | ShapeMismatch | EmptyTensor | DtypeMismatch | NonfiniteTensor
    | MaxAbsOver | RmsOver | RelativeOver | BitMismatch

  datatype Metrics = Metrics(maxAbs: real, rms: real, relative: real, referenceRms: real)

  datatype Row = Row(passed: bool, exactBits: bool, metrics: Option<Metrics>, failures: seq<Failure>)

  function Volume(shape: seq<nat>): nat {
    if shape == [] then 1 else Volume(shape[..|shape| - 1]) * shape[|shape| - 1]
  }

  /** The numbers of a snapshot are what its bytes mean in its type, as many as its shape holds. */
  ghost predicate Formed(s: Snapshot, decode: (string, seq<int>) -> seq<Number>) {
    s.values == decode(s.dtype, s.storage) && |s.values| == Volume(s.shape)
  }

  predicate AllFinite(values: seq<Number>) {
    forall i :: 0 <= i < |values| ==> values[i].Finite?
  }

  function Reals(values: seq<Number>): (r: seq<real>)
    requires AllFinite(values)
    ensures |r| == |values|
  {
    seq(|values|, i requires 0 <= i < |values| => values[i].x)
  }

  function Errors(candidate: seq<real>, reference: seq<real>): (r: seq<real>)
    requires |candidate| == |reference|
    ensures |r| == |candidate|
  {
    seq(|candidate|, i requires 0 <= i < |candidate| => candidate[i] - reference[i])
  }

  // ---- metrics ----

  function Abs(x: real): real {
    if x < 0.0 then -x else x
  }

  /** The largest magnitude among the first `n`. */
  function MaxOver(xs: seq<real>, n: nat): (m: real)
    requires n <= |xs|
    ensures m >= 0.0
  {
    if n == 0 then 0.0
    else
      var m := MaxOver(xs, n - 1);
      if Abs(xs[n - 1]) > m then Abs(xs[n - 1]) else m
  }

  function MaxAbs(xs: seq<real>): real {
    MaxOver(xs, |xs|)
  }

  /** The sum of squares of the first `n`. */
  function SumOver(xs: seq<real>, n: nat): real
    requires n <= |xs|
  {
    if n == 0 then 0.0 else SumOver(xs, n - 1) + xs[n - 1] * xs[n - 1]
  }

  function SumSquares(xs: seq<real>): real {
    SumOver(xs, |xs|)
  }

  function Scaled(xs: seq<real>, scale: real): (r: seq<real>)
    requires scale != 0.0
    ensures |r| == |xs|
  {
    seq(|xs|, i requires 0 <= i < |xs| => xs[i] / scale)
  }

  ghost predicate IsSqrt(sqrt: real -> real) {
    forall x: real :: x >= 0.0 ==> sqrt(x) >= 0.0 && sqrt(x) * sqrt(x) == x
  }

  /** Root mean square of the values divided by their largest magnitude, scaled back. */
  function Rms(xs: seq<real>, sqrt: real -> real): real
    requires xs != []
  {
    var scale := MaxAbs(xs);
    if scale == 0.0 then 0.0 else scale * sqrt(SumSquares(Scaled(xs, scale)) / |xs| as real)
  }

  function PlainRms(xs: seq<real>, sqrt: real -> real): real
    requires xs != []
  {
    sqrt(SumSquares(xs) / |xs| as real)
  }

  function Larger(a: real, b: real): real {
    if a < b then b else a
  }

  function MetricsOf(reference: seq<real>, candidate: seq<real>, floor: real, sqrt: real -> real): Metrics
    requires |reference| == |candidate| && reference != [] && floor > 0.0
  {
    var error := Errors(candidate, reference);
    var rms, referenceRms := Rms(error, sqrt), Rms(reference, sqrt);
    Metrics(MaxAbs(error), rms, rms / Larger(referenceRms, floor), referenceRms)
  }

  predicate Within(m: Metrics, t: Thresholds) {
    m.maxAbs <= t.maxAbs && m.rms <= t.rms && m.relative <= t.relative
  }

  // ---- the gate ----

  predicate SameBits(a: Snapshot, b: Snapshot) {
    a.dtype == b.dtype && a.storage == b.storage
  }

  predicate Comparable(a: Snapshot, b: Snapshot) {
    a.shape == b.shape && |a.values| == |b.values| > 0 && AllFinite(a.values) && AllFinite(b.values)
  }

  /** When the gate passes. */
  predicate Passes(reference: Snapshot, candidate: Snapshot, t: Thresholds, sqrt: real -> real)
    requires t.floor > 0.0
  {
    && Comparable(reference, candidate) && reference.dtype == candidate.dtype
       && (t.exactBits ==> SameBits(reference, candidate))
    && Within(MetricsFor(reference, candidate, t, sqrt), t)
  }

  /** Both arrays have the same shape and some elements, so their contents are looked at. */
  predicate Reached(a: Snapshot, b: Snapshot) {
    a.shape == b.shape && a.values != []
  }

  /** What is wrong with the candidate. */
  ghost predicate Fails(f: Failure, reference: Snapshot, candidate: Snapshot, t: Thresholds, sqrt: real -> real)
    requires t.floor > 0.0
  {
    var comparable := Comparable(reference, candidate);
    match f
    case ShapeMismatch => reference.shape != candidate.shape
    case EmptyTensor => reference.shape == candidate.shape && reference.values == []
    case DtypeMismatch => Reached(reference, candidate) && reference.dtype != candidate.dtype
    case NonfiniteTensor => Reached(reference, candidate) && !comparable
    case _ => comparable && Exceeds(f, MetricsFor(reference, candidate, t, sqrt), t, SameBits(reference, candidate))
  }

  /** What the metrics and the bytes of comparable snapshots fail. */
  predicate Exceeds(f: Failure, m: Metrics, t: Thresholds, exact: bool) {
    match f
    case MaxAbsOver => m.maxAbs > t.maxAbs
    case RmsOver => m.rms > t.rms
    case RelativeOver => m.relative > t.relative
    case BitMismatch => t.exactBits && !exact
    case _ => false
  }

  ghost predicate NoRepeats(failures: seq<Failure>) {
    forall i, j :: 0 <= i < j < |failures| ==> failures[i] != failures[j]
  }

  method Exceeded(m: Metrics, t: Thresholds, exact: bool) returns (failures: seq<Failure>)
    ensures NoRepeats(failures) && forall f :: f in failures <==> Exceeds(f, m, t, exact)
    ensures failures == [] <==> Within(m, t) && (t.exactBits ==> exact)
  {
    failures := [];
    if m.maxAbs > t.maxAbs {
      failures := failures + [MaxAbsOver];
    }
    if m.rms > t.rms {
      failures := failures + [RmsOver];
    }
    if m.relative > t.relative {
      failures := failures + [RelativeOver];
    }
    if t.exactBits && !exact {
      failures := failures + [BitMismatch];
    }
  }

  function MetricsFor(reference: Snapshot, candidate: Snapshot, t: Thresholds, sqrt: real -> real): Metrics
    requires t.floor > 0.0 && Comparable(reference, candidate)
  {
    MetricsOf(Reals(reference.values), Reals(candidate.values), t.floor, sqrt)
  }

  lemma AllFailures(first: seq<Failure>, second: seq<Failure>, reference: Snapshot, candidate: Snapshot, t: Thresholds,
                    sqrt: real -> real)
    requires t.floor > 0.0 && Comparable(reference, candidate)
    requires first == if reference.dtype != candidate.dtype then [DtypeMismatch] else []
    requires forall f :: f in second
               <==> Exceeds(f, MetricsFor(reference, candidate, t, sqrt), t, SameBits(reference, candidate))
    requires NoRepeats(second)
    ensures forall f :: f in first + second <==> Fails(f, reference, candidate, t, sqrt)
    ensures NoRepeats(first + second)
  {
    assert DtypeMismatch !in second by {
      assert !Exceeds(DtypeMismatch, MetricsFor(reference, candidate, t, sqrt), t, SameBits(reference, candidate));
    }
    forall f ensures f in first + second <==> Fails(f, reference, candidate, t, sqrt) {
      assert f in first + second <==> f in first || f in second;
      assert f in second <==> Exceeds(f, MetricsFor(reference, candidate, t, sqrt), t, SameBits(reference, candidate));
    }
  }

  // ---- a comparison in terms of the numbers alone ----

  /** The sum of `f(0)`, `f(1)` and so on, `n` terms. */
  ghost function SumTo(f: nat -> real, n: nat): real {
    if n == 0 then 0.0 else SumTo(f, n - 1) + f(n - 1)
  }

  /** Two snapshots of as many finite numbers, and some. */
  ghost predicate BothFinite(a: Snapshot, b: Snapshot) {
    && |a.values| == |b.values| > 0
    && forall i :: 0 <= i < |a.values| ==> a.values[i].Finite? && b.values[i].Finite?
  }

  ghost function Difference(a: Snapshot, b: Snapshot, i: nat): real {
    if i < |a.values| && i < |b.values| && a.values[i].Finite? && b.values[i].Finite?
    then b.values[i].x - a.values[i].x else 0.0
  }

  ghost function ValueAt(a: Snapshot, i: nat): real {
    if i < |a.values| && a.values[i].Finite? then a.values[i].x else 0.0
  }

  /** No term is above the number or below its negation, and one of them is reached. */
  ghost predicate IsLargest(largest: real, f: nat -> real, n: nat) {
    && (forall i: nat :: i < n ==> -largest <= f(i) <= largest)
    && (exists i: nat :: i < n && (f(i) == largest || f(i) == -largest))
  }

  /** The square of the number, `n` times, is the sum of the squares of the terms. */
  ghost predicate RmsOfTerms(rms: real, f: nat -> real, n: nat) {
    rms >= 0.0 && rms * rms * n as real == SumTo((i: nat) => f(i) * f(i), n)
  }

  /** The largest difference, the root mean squares of the differences and of the reference, and the
      former over the latter, or over the floor when that is larger. */
  ghost predicate PlainMetrics(m: Metrics, a: Snapshot, b: Snapshot, floor: real) {
    && BothFinite(a, b)
    && IsLargest(m.maxAbs, (i: nat) => Difference(a, b, i), |a.values|)
    && RmsOfTerms(m.rms, (i: nat) => Difference(a, b, i), |a.values|)
    && RmsOfTerms(m.referenceRms, (i: nat) => ValueAt(a, i), |a.values|)
    && m.relative * (if m.referenceRms < floor then floor else m.referenceRms) == m.rms
  }

  /** When a comparison passes, and when it has metrics. */
  ghost predicate PlainRow(row: Row, a: Snapshot, b: Snapshot, t: Thresholds) {
    && (row.metrics != None <==> a.shape == b.shape && BothFinite(a, b))
    && (row.passed <==>
        && a.shape == b.shape && a.dtype == b.dtype && BothFinite(a, b) && (t.exactBits ==> a.storage == b.storage)
        && row.metrics != None
        && var m := row.metrics.value; m.maxAbs <= t.maxAbs && m.rms <= t.rms && m.relative <= t.relative)
    && (row.exactBits <==> a.shape == b.shape && a.values != [] && a.dtype == b.dtype && a.storage == b.storage)
    && forall f :: f in row.failures <==> PlainFailure(f, row, a, b, t)
  }

  /** What each failure says is wrong; those of the numbers are only looked for once there are metrics. */
  ghost predicate PlainFailure(f: Failure, row: Row, a: Snapshot, b: Snapshot, t: Thresholds) {
    match f
    case ShapeMismatch => a.shape != b.shape
    case EmptyTensor => a.shape == b.shape && a.values == []
    case DtypeMismatch => a.shape == b.shape && a.values != [] && a.dtype != b.dtype
    case NonfiniteTensor => a.shape == b.shape && a.values != [] && !BothFinite(a, b)
    case MaxAbsOver => row.metrics.Some? && row.metrics.value.maxAbs > t.maxAbs
    case RmsOver => row.metrics.Some? && row.metrics.value.rms > t.rms
    case RelativeOver => row.metrics.Some? && row.metrics.value.relative > t.relative
    case BitMismatch => row.metrics.Some? && t.exactBits && (a.dtype != b.dtype || a.storage != b.storage)
  }

  lemma {:induction false} SumIs(xs: seq<real>, f: nat -> real, n: nat)
    requires n <= |xs| && forall i: nat :: i < |xs| ==> f(i) == xs[i] * xs[i]
    ensures SumOver(xs, n) == SumTo(f, n)
  {
    if n > 0 {
      SumIs(xs, f, n - 1);
      assert f(n - 1) == xs[n - 1] * xs[n - 1];
    }
  }

  lemma {:induction false} MaxReached(xs: seq<real>, n: nat) returns (k: nat)
    requires 0 < n <= |xs|
    ensures k < n && Abs(xs[k]) == MaxOver(xs, n)
  {
    if n == 1 || Abs(xs[n - 1]) > MaxOver(xs, n - 1) {
      k := n - 1;
    } else {
      k := MaxReached(xs, n - 1);
    }
  }

  lemma LargestIs(xs: seq<real>)
    requires xs != []
    ensures forall i :: 0 <= i < |xs| ==> -MaxAbs(xs) <= xs[i] <= MaxAbs(xs)
    ensures exists i :: 0 <= i < |xs| && (xs[i] == MaxAbs(xs) || xs[i] == -MaxAbs(xs))
  {
    forall i | 0 <= i < |xs| ensures -MaxAbs(xs) <= xs[i] <= MaxAbs(xs) {
      MaxBound(xs, |xs|, i);
    }
    var k := MaxReached(xs, |xs|);
    assert xs[k] == MaxAbs(xs) || xs[k] == -MaxAbs(xs);
  }

  lemma RmsTerms(xs: seq<real>, f: nat -> real, sqrt: real -> real)
    requires xs != [] && IsSqrt(sqrt) && forall i: nat :: i < |xs| ==> f(i) == xs[i] * xs[i]
    ensures Rms(xs, sqrt) >= 0.0 && Rms(xs, sqrt) * Rms(xs, sqrt) * |xs| as real == SumTo(f, |xs|)
  {
    RmsSquare(xs, sqrt);
    SumIs(xs, f, |xs|);
  }

  lemma SpreadOf(xs: seq<real>, f: nat -> real, sqrt: real -> real)
    requires xs != [] && IsSqrt(sqrt) && forall i: nat :: i < |xs| ==> f(i) == xs[i]
    ensures IsLargest(MaxAbs(xs), f, |xs|) && RmsOfTerms(Rms(xs, sqrt), f, |xs|)
  {
    LargestIs(xs);
    var k :| 0 <= k < |xs| && (xs[k] == MaxAbs(xs) || xs[k] == -MaxAbs(xs));
    assert f(k) == MaxAbs(xs) || f(k) == -MaxAbs(xs);
    RmsTerms(xs, (i: nat) => f(i) * f(i), sqrt);
  }

  lemma SpreadsOf(a: Snapshot, b: Snapshot, sqrt: real -> real)
    requires Comparable(a, b) && IsSqrt(sqrt)
    ensures var error := Errors(Reals(b.values), Reals(a.values));
            && IsLargest(MaxAbs(error), (i: nat) => Difference(a, b, i), |a.values|)
            && RmsOfTerms(Rms(error, sqrt), (i: nat) => Difference(a, b, i), |a.values|)
    ensures RmsOfTerms(Rms(Reals(a.values), sqrt), (i: nat) => ValueAt(a, i), |a.values|)
  {
    SpreadOf(Errors(Reals(b.values), Reals(a.values)), (i: nat) => Difference(a, b, i), sqrt);
    SpreadOf(Reals(a.values), (i: nat) => ValueAt(a, i), sqrt);
  }

  lemma MetricsPlainly(a: Snapshot, b: Snapshot, t: Thresholds, sqrt: real -> real)
    requires t.floor > 0.0 && Comparable(a, b) && IsSqrt(sqrt)
    ensures PlainMetrics(MetricsFor(a, b, t, sqrt), a, b, t.floor)
  {
    SpreadsOf(a, b, sqrt);
    Quotient(Rms(Errors(Reals(b.values), Reals(a.values)), sqrt), Larger(Rms(Reals(a.values), sqrt), t.floor));
  }

  /** Compares two snapshots, collecting every failure it reaches. */
  method Compare(reference: Snapshot, candidate: Snapshot, t: Thresholds, sqrt: real -> real,
                 ghost decode: (string, seq<int>) -> seq<Number>) returns (row: Row)
    requires t.floor > 0.0 && Formed(reference, decode) && Formed(candidate, decode)
    ensures row.passed <==> Passes(reference, candidate, t, sqrt)
    ensures row.passed <==> row.failures == []
    ensures row.metrics.Some? <==> Comparable(reference, candidate)
    ensures row.metrics.Some? ==> row.metrics.value == MetricsFor(reference, candidate, t, sqrt)
    ensures row.exactBits <==> Reached(reference, candidate) && SameBits(reference, candidate)
    ensures forall f :: f in row.failures <==> Fails(f, reference, candidate, t, sqrt)
    ensures NoRepeats(row.failures)
    ensures PlainRow(row, reference, candidate, t)
    ensures row.metrics.Some? && IsSqrt(sqrt) ==> PlainMetrics(row.metrics.value, reference, candidate, t.floor)
  {
    row := Judge(reference, candidate, t, sqrt, decode);
    if row.metrics.Some? && IsSqrt(sqrt) {
      MetricsPlainly(reference, candidate, t, sqrt);
    }
  }

  /** The tests in order. */
  method Judge(reference: Snapshot, candidate: Snapshot, t: Thresholds, sqrt: real -> real,
               ghost decode: (string, seq<int>) -> seq<Number>) returns (row: Row)
    requires t.floor > 0.0 && Formed(reference, decode) && Formed(candidate, decode)
    ensures row.passed <==> Passes(reference, candidate, t, sqrt)
    ensures row.passed <==> row.failures == []
    ensures row.metrics.Some? <==> Comparable(reference, candidate)
    ensures row.metrics.Some? ==> row.metrics.value == MetricsFor(reference, candidate, t, sqrt)
    ensures row.exactBits <==> Reached(reference, candidate) && SameBits(reference, candidate)
    ensures forall f :: f in row.failures <==> Fails(f, reference, candidate, t, sqrt)
    ensures NoRepeats(row.failures)
    ensures PlainRow(row, reference, candidate, t)
  {
    if reference.shape != candidate.shape {
      return Row(false, false, None, [ShapeMismatch]);
    }
    if reference.values == [] {
      return Row(false, false, None, [EmptyTensor]);
    }
    var failures := if reference.dtype != candidate.dtype then [DtypeMismatch] else [];
    var exact := SameBits(reference, candidate);
    if !AllFinite(reference.values) || !AllFinite(candidate.values) {
      return Row(false, exact, None, failures + [NonfiniteTensor]);
    }
    var m := MetricsFor(reference, candidate, t, sqrt);
    var exceeded := Exceeded(m, t, exact);
    AllFailures(failures, exceeded, reference, candidate, t, sqrt);
    return Row(failures + exceeded == [], exact, Some(m), failures + exceeded);
  }

  // ---- what the metrics are ----

  lemma Product(a: real, b: real)
    requires a >= 0.0 && b >= 0.0
    ensures a * b >= 0.0 && (a > 0.0 && b > 0.0 ==> a * b > 0.0)
  {
  }

  lemma ScaleDown(a: real, b: real, n: real)
    requires a * n <= b * n && n > 0.0
    ensures a <= b
  {
    if a > b {
      Product(a - b, n);
    }
  }

  lemma CancelTimes(a: real, b: real, n: real)
    requires a * n == b * n && n > 0.0
    ensures a == b
  {
    ScaleDown(a, b, n);
    ScaleDown(b, a, n);
  }

  lemma SquareMonotone(a: real, b: real)
    requires 0.0 <= a < b
    ensures a * a < b * b
  {
    Product(b - a, b + a);
    assert (b - a) * (b + a) == b * b - a * a;
  }

  lemma SquareUnique(a: real, b: real)
    requires a >= 0.0 && b >= 0.0 && a * a == b * b
    ensures a == b
  {
    if a < b {
      SquareMonotone(a, b);
    } else if b < a {
      SquareMonotone(b, a);
    }
  }

  lemma AbsSquare(x: real)
    ensures Abs(x) * Abs(x) == x * x >= 0.0
  {
  }

  lemma SquareBelow(x: real, m: real)
    requires Abs(x) <= m
    ensures x * x <= m * m
  {
    AbsSquare(x);
    if Abs(x) < m {
      SquareMonotone(Abs(x), m);
    }
  }

  lemma ScaledStep(scale: real, x: real, y: real, sum: real, scaled: real)
    requires y * scale == x && scale * scale * scaled == sum
    ensures scale * scale * (scaled + y * y) == sum + x * x
  {
    assert scale * scale * (y * y) == x * x;
  }

  lemma Quotient(x: real, d: real)
    requires d != 0.0
    ensures (x / d) * d == x
  {
  }

  lemma {:induction false} MaxBound(xs: seq<real>, n: nat, i: nat)
    requires i < n <= |xs|
    ensures Abs(xs[i]) <= MaxOver(xs, n)
  {
    if i < n - 1 {
      MaxBound(xs, n - 1, i);
    }
  }

  lemma {:induction false} SumNonnegative(xs: seq<real>, n: nat)
    requires n <= |xs|
    ensures SumOver(xs, n) >= 0.0
  {
    if n > 0 {
      SumNonnegative(xs, n - 1);
      AbsSquare(xs[n - 1]);
    }
  }

  lemma {:induction false} ScaledSum(xs: seq<real>, ys: seq<real>, scale: real, n: nat)
    requires |ys| == |xs| && n <= |xs| && forall i :: 0 <= i < |xs| ==> ys[i] * scale == xs[i]
    ensures scale * scale * SumOver(ys, n) == SumOver(xs, n)
  {
    if n > 0 {
      ScaledSum(xs, ys, scale, n - 1);
      ScaledStep(scale, xs[n - 1], ys[n - 1], SumOver(xs, n - 1), SumOver(ys, n - 1));
    }
  }

  lemma ScaledBack(xs: seq<real>, scale: real)
    requires scale != 0.0
    ensures forall i :: 0 <= i < |xs| ==> Scaled(xs, scale)[i] * scale == xs[i]
  {
    forall i | 0 <= i < |xs| ensures Scaled(xs, scale)[i] * scale == xs[i] {
      Quotient(xs[i], scale);
    }
  }

  lemma {:induction false} ZeroSum(xs: seq<real>, n: nat)
    requires n <= |xs| && MaxOver(xs, n) == 0.0
    ensures SumOver(xs, n) == 0.0
  {
    if n > 0 {
      ZeroSum(xs, n - 1);
    }
  }

  lemma Mean(sum: real, n: real) returns (mean: real)
    requires sum >= 0.0 && n > 0.0
    ensures mean == sum / n && mean * n == sum && mean >= 0.0
  {
    mean := sum / n;
    ScaleDown(0.0, mean, n);
  }

  lemma SqrtOf(sqrt: real -> real, x: real)
    requires IsSqrt(sqrt) && x >= 0.0
    ensures sqrt(x) >= 0.0 && sqrt(x) * sqrt(x) == x
  {
  }

  /** A root mean square times itself and the length is the sum of squares. */
  predicate IsRms(r: real, n: real, sum: real) {
    r >= 0.0 && r * r * n == sum
  }

  lemma RootTimes(r: real, scale: real, root: real, n: real, mean: real, sum: real, total: real)
    requires r == scale * root && root * root == mean && mean * n == sum && scale >= 0.0 && root >= 0.0
             && total == scale * scale * sum
    ensures IsRms(r, n, total)
  {
    Product(scale, root);
    assert (scale * root) * (scale * root) == scale * scale * mean;
    assert scale * scale * mean * n == scale * scale * (mean * n);
  }

  lemma RmsParts(xs: seq<real>, scale: real, sqrt: real -> real) returns (root: real, mean: real, squares: real)
    requires xs != [] && scale == MaxAbs(xs) != 0.0 && IsSqrt(sqrt)
    ensures Rms(xs, sqrt) == scale * root && root >= 0.0 && root * root == mean
    ensures squares == SumSquares(Scaled(xs, scale)) && mean * |xs| as real == squares
  {
    squares := SumSquares(Scaled(xs, scale));
    SumNonnegative(Scaled(xs, scale), |xs|);
    mean := Mean(squares, |xs| as real);
    root := sqrt(mean);
    SqrtOf(sqrt, mean);
  }

  lemma SquaresScaled(xs: seq<real>, scale: real, squares: real)
    requires scale != 0.0 && squares == SumSquares(Scaled(xs, scale))
    ensures SumSquares(xs) == scale * scale * squares
  {
    ScaledBack(xs, scale);
    ScaledSum(xs, Scaled(xs, scale), scale, |xs|);
  }

  lemma RmsRescaled(xs: seq<real>, scale: real, sqrt: real -> real, r: real, total: real)
    requires xs != [] && scale == MaxAbs(xs) != 0.0 && IsSqrt(sqrt) && r == Rms(xs, sqrt) && total == SumSquares(xs)
    ensures IsRms(r, |xs| as real, total)
  {
    var root, mean, squares := RmsParts(xs, scale, sqrt);
    SquaresScaled(xs, scale, squares);
    RootTimes(r, scale, root, |xs| as real, mean, squares, total);
  }

  /** The square of the rescaled form is the mean square. */
  lemma RmsSquare(xs: seq<real>, sqrt: real -> real)
    requires xs != [] && IsSqrt(sqrt)
    ensures IsRms(Rms(xs, sqrt), |xs| as real, SumSquares(xs))
  {
    if MaxAbs(xs) == 0.0 {
      ZeroSum(xs, |xs|);
    } else {
      RmsRescaled(xs, MaxAbs(xs), sqrt, Rms(xs, sqrt), SumSquares(xs));
    }
  }

  lemma PlainSquare(xs: seq<real>, sqrt: real -> real)
    requires xs != [] && IsSqrt(sqrt)
    ensures IsRms(PlainRms(xs, sqrt), |xs| as real, SumSquares(xs))
  {
    SumNonnegative(xs, |xs|);
    var mean := Mean(SumSquares(xs), |xs| as real);
    SqrtOf(sqrt, mean);
  }

  lemma RmsUnique(r: real, s: real, n: real, sum: real)
    requires IsRms(r, n, sum) && IsRms(s, n, sum) && n > 0.0
    ensures r == s
  {
    CancelTimes(r * r, s * s, n);
    SquareUnique(r, s);
  }

  /** Rescaling changes nothing: the rescaled form is the plain root mean square. */
  lemma RmsIsPlain(xs: seq<real>, sqrt: real -> real)
    requires xs != [] && IsSqrt(sqrt)
    ensures Rms(xs, sqrt) == PlainRms(xs, sqrt)
  {
    RmsSquare(xs, sqrt);
    PlainSquare(xs, sqrt);
    RmsUnique(Rms(xs, sqrt), PlainRms(xs, sqrt), |xs| as real, SumSquares(xs));
  }

  lemma RatioBounded(x: real, m: real, y: real)
    requires m > 0.0 && Abs(x) <= m && y * m == x
    ensures 0.0 <= y * y <= 1.0
  {
    ScaleDown(y, 1.0, m);
    ScaleDown(-1.0, y, m);
    SquareBelow(y, 1.0);
    AbsSquare(y);
  }

  /** What is squared is never out of range: every ratio's square lies in [0, 1]. */
  lemma RatiosBounded(xs: seq<real>, i: nat)
    requires i < |xs| && MaxAbs(xs) != 0.0
    ensures 0.0 <= Scaled(xs, MaxAbs(xs))[i] * Scaled(xs, MaxAbs(xs))[i] <= 1.0
  {
    Quotient(xs[i], MaxAbs(xs));
    MaxBound(xs, |xs|, i);
    RatioBounded(xs[i], MaxAbs(xs), Scaled(xs, MaxAbs(xs))[i]);
  }

  lemma {:induction false} SumBounds(xs: seq<real>, m: real, n: nat)
    requires n <= |xs| && forall i :: 0 <= i < |xs| ==> Abs(xs[i]) <= m
    ensures SumOver(xs, n) <= n as real * (m * m)
  {
    if n > 0 {
      SumBounds(xs, m, n - 1);
      SquareBelow(xs[n - 1], m);
      assert n as real * (m * m) == (n - 1) as real * (m * m) + m * m;
    }
  }

  lemma MaxStep(m: real, after: real, x: real, sum: real)
    requires m * m <= sum && (after == Abs(x) || after == m)
    ensures after * after <= sum + x * x
  {
    AbsSquare(x);
    AbsSquare(m);
  }

  lemma {:induction false} SumAtLeast(xs: seq<real>, n: nat)
    requires n <= |xs|
    ensures MaxOver(xs, n) * MaxOver(xs, n) <= SumOver(xs, n)
  {
    if n > 0 {
      SumAtLeast(xs, n - 1);
      MaxStep(MaxOver(xs, n - 1), MaxOver(xs, n), xs[n - 1], SumOver(xs, n - 1));
    }
  }

  /** The root mean square and the largest error bound each other. */
  lemma RmsBounds(xs: seq<real>, sqrt: real -> real)
    requires xs != [] && IsSqrt(sqrt)
    ensures Bounded(Rms(xs, sqrt), MaxAbs(xs), |xs| as real)
  {
    RmsSquare(xs, sqrt);
    BoundsOf(xs, Rms(xs, sqrt));
  }

  lemma BoundsOf(xs: seq<real>, r: real)
    requires xs != [] && IsRms(r, |xs| as real, SumSquares(xs))
    ensures Bounded(r, MaxAbs(xs), |xs| as real)
  {
    forall i | 0 <= i < |xs| ensures Abs(xs[i]) <= MaxAbs(xs) {
      MaxBound(xs, |xs|, i);
    }
    SumBounds(xs, MaxAbs(xs), |xs|);
    SumAtLeast(xs, |xs|);
    BoundsFrom(r, MaxAbs(xs), |xs| as real, SumSquares(xs));
  }

  /** The square of `r` is at most that of `m`, which is at most `n` times the former. */
  predicate Bounded(r: real, m: real, n: real) {
    r * r <= m * m <= n * (r * r)
  }

  lemma BoundsFrom(r: real, m: real, n: real, sum: real)
    requires IsRms(r, n, sum) && m * m <= sum <= n * (m * m) && n > 0.0
    ensures Bounded(r, m, n)
  {
    ScaleDown(r * r, m * m, n);
  }

  // ---- the lossless gate ----

  /** Nonempty, finite, and alike in shape, type and bytes. */
  predicate Same(a: Snapshot, b: Snapshot) {
    Comparable(a, b) && SameBits(a, b)
  }

  lemma NoErrors(xs: seq<real>, sqrt: real -> real)
    requires xs != []
    ensures MaxAbs(Errors(xs, xs)) == 0.0 && Rms(Errors(xs, xs), sqrt) == 0.0
  {
    ZeroMax(Errors(xs, xs), |xs|);
  }

  lemma {:induction false} ZeroMax(xs: seq<real>, n: nat)
    requires n <= |xs| && forall i :: 0 <= i < |xs| ==> xs[i] == 0.0
    ensures MaxOver(xs, n) == 0.0
  {
    if n > 0 {
      ZeroMax(xs, n - 1);
    }
  }

  /** The lossless gate passes exactly for nonempty finite snapshots alike in shape, type and bytes. */
  lemma LosslessIff(a: Snapshot, b: Snapshot, sqrt: real -> real, decode: (string, seq<int>) -> seq<Number>)
    requires Formed(a, decode) && Formed(b, decode)
    ensures Passes(a, b, LOSSLESS, sqrt) <==> Same(a, b)
  {
    if Same(a, b) {
      assert a.values == b.values;
      NoErrors(Reals(a.values), sqrt);
    }
  }

  // ---- traces ----

  type Trace = map<string, Snapshot>

  ghost predicate AllFormed(t: Trace, decode: (string, seq<int>) -> seq<Number>) {
    forall k :: k in t ==> Formed(t[k], decode)
  }

  /** A nonempty reference, the same keys, and every pair passing. */
  predicate TracesPass(reference: Trace, candidate: Trace, t: Thresholds, sqrt: real -> real)
    requires t.floor > 0.0
  {
    && reference != map[] && reference.Keys == candidate.Keys
    && forall k :: k in reference ==> Passes(reference[k], candidate[k], t, sqrt)
  }

  /** Compares two traces key by key; the rows cover the shared keys. */
  method CompareTraces(reference: Trace, candidate: Trace, t: Thresholds, sqrt: real -> real,
                       ghost decode: (string, seq<int>) -> seq<Number>) returns (passed: bool, rows: map<string, Row>)
    requires t.floor > 0.0 && AllFormed(reference, decode) && AllFormed(candidate, decode)
    ensures passed <==> TracesPass(reference, candidate, t, sqrt)
    ensures rows.Keys == reference.Keys * candidate.Keys
    ensures RowsJudge(rows, reference, candidate, t, sqrt)
    ensures passed
            <==> reference != map[] && reference.Keys == candidate.Keys && forall k :: k in rows ==> rows[k].passed
  {
    rows := map[];
    var rest := reference.Keys * candidate.Keys;
    while rest != {}
      invariant rest <= reference.Keys * candidate.Keys && rows.Keys + rest == reference.Keys * candidate.Keys
      invariant RowsJudge(rows, reference, candidate, t, sqrt)
    {
      var k :| k in rest;
      var row := Compare(reference[k], candidate[k], t, sqrt, decode);
      assert RowJudges(row, reference[k], candidate[k], t, sqrt);
      rows, rest := rows[k := row], rest - {k};
    }
    passed := reference != map[] && reference.Keys == candidate.Keys && forall k :: k in rows ==> rows[k].passed;
    RowsDecide(rows, reference, candidate, t, sqrt);
  }

  lemma RowsDecide(rows: map<string, Row>, reference: Trace, candidate: Trace, t: Thresholds, sqrt: real -> real)
    requires t.floor > 0.0 && RowsJudge(rows, reference, candidate, t, sqrt)
             && rows.Keys == reference.Keys * candidate.Keys
    ensures TracesPass(reference, candidate, t, sqrt)
            <==> reference != map[] && reference.Keys == candidate.Keys && forall k :: k in rows ==> rows[k].passed
  {
    if reference.Keys == candidate.Keys {
      forall k | k in reference ensures k in rows && (rows[k].passed <==> Passes(reference[k], candidate[k], t, sqrt)) {
        assert k in candidate.Keys && k in rows.Keys;
        assert RowJudges(rows[k], reference[k], candidate[k], t, sqrt);
      }
    }
  }

  /** Every row passes exactly when its two snapshots do, with the metrics and failures they give. */
  ghost predicate RowsJudge(rows: map<string, Row>, reference: Trace, candidate: Trace, t: Thresholds,
                            sqrt: real -> real)
    requires t.floor > 0.0
  {
    forall k :: k in rows ==>
      k in reference && k in candidate && RowJudges(rows[k], reference[k], candidate[k], t, sqrt)
  }

  ghost predicate RowJudges(row: Row, reference: Snapshot, candidate: Snapshot, t: Thresholds, sqrt: real -> real)
    requires t.floor > 0.0
  {
    && (row.passed <==> Passes(reference, candidate, t, sqrt)) && PlainRow(row, reference, candidate, t)
    && (row.metrics.Some? && IsSqrt(sqrt) ==> PlainMetrics(row.metrics.value, reference, candidate, t.floor))
  }

  /** Traces that can pass at all. */
  predicate Sound(t: Trace) {
    t != map[] && forall k :: k in t ==> t[k].values != [] && AllFinite(t[k].values)
  }

  /** The lossless gate on traces is an equivalence on sound traces, and no other trace passes. */
  lemma LosslessEquivalence(a: Trace, b: Trace, c: Trace, sqrt: real -> real, decode: (string, seq<int>) -> seq<Number>)
    requires AllFormed(a, decode) && AllFormed(b, decode) && AllFormed(c, decode)
    ensures TracesPass(a, a, LOSSLESS, sqrt) <==> Sound(a)
    ensures TracesPass(a, b, LOSSLESS, sqrt) <==> TracesPass(b, a, LOSSLESS, sqrt)
    ensures TracesPass(a, b, LOSSLESS, sqrt) && TracesPass(b, c, LOSSLESS, sqrt) ==> TracesPass(a, c, LOSSLESS, sqrt)
    ensures TracesPass(a, b, LOSSLESS, sqrt) ==> Sound(a) && Sound(b)
  {
    AllIff(a, a, sqrt, decode);
    AllIff(a, b, sqrt, decode);
    AllIff(b, a, sqrt, decode);
    AllIff(b, c, sqrt, decode);
    AllIff(a, c, sqrt, decode);
  }

  /** Lossless traces are those with the same keys and the same snapshots. */
  lemma AllIff(a: Trace, b: Trace, sqrt: real -> real, decode: (string, seq<int>) -> seq<Number>)
    requires AllFormed(a, decode) && AllFormed(b, decode)
    ensures TracesPass(a, b, LOSSLESS, sqrt)
            <==> a != map[] && a.Keys == b.Keys && forall k :: k in a ==> Same(a[k], b[k])
  {
    forall k | k in a && k in b ensures Passes(a[k], b[k], LOSSLESS, sqrt) <==> Same(a[k], b[k]) {
      LosslessIff(a[k], b[k], sqrt, decode);
    }
  }
}
