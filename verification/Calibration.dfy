/** Tolerances derived from a baseline's own error, and the comparison that enforces them. */
module Calibration {
  import opened Wrappers

  /** Machine precision of the output type: its epsilon and its smallest normal number. */
  datatype Precision = Precision(eps: real, tiny: real)

  datatype Output = Output(dtype: string, shape: seq<nat>, device: string, values: seq<Option<real>>)

  datatype Bound = Bound(dtype: string, atol: real, rtol: real, maxAbs: real, residual: real, rms: real)

  datatype CalibrationError = CountChanged | LayoutChanged | NotFinite | Exceeds

  function Abs(x: real): real {
    if x < 0.0 then -x else x
  }

  function Larger(a: real, b: real): real {
    if a < b then b else a
  }

  predicate Finite(values: seq<Option<real>>) {
    forall i :: 0 <= i < |values| ==> values[i].Some?
  }

  /** Error of element `i`. */
  function Error(value: seq<Option<real>>, reference: seq<Option<real>>, i: nat): real
    requires |value| == |reference| && i < |value| && Finite(value) && Finite(reference)
  {
    Abs(value[i].value - reference[i].value)
  }

  /** What the error of element `i` exceeds its own precision by, never negative. */
  function Excess(value: seq<Option<real>>, reference: seq<Option<real>>, i: nat, eps: real): real
    requires |value| == |reference| && i < |value| && Finite(value) && Finite(reference)
  {
    Larger(Error(value, reference, i) - eps * Abs(reference[i].value), 0.0)
  }

  predicate Aligned(value: seq<Option<real>>, reference: seq<Option<real>>) {
    |value| == |reference| && Finite(value) && Finite(reference)
  }

  // ---- largest values, zero when there are none ----

  function MaxError(value: seq<Option<real>>, reference: seq<Option<real>>, n: nat): (m: real)
    requires Aligned(value, reference) && n <= |value|
    ensures m >= 0.0
  {
    if n == 0 then 0.0 else Larger(MaxError(value, reference, n - 1), Error(value, reference, n - 1))
  }

  function MaxExcess(value: seq<Option<real>>, reference: seq<Option<real>>, eps: real, n: nat): (m: real)
    requires Aligned(value, reference) && n <= |value|
    ensures m >= 0.0
  {
    if n == 0 then 0.0 else Larger(MaxExcess(value, reference, eps, n - 1), Excess(value, reference, n - 1, eps))
  }

  lemma {:induction false} MaxErrorFacts(value: seq<Option<real>>, reference: seq<Option<real>>, n: nat)
    requires Aligned(value, reference) && n <= |value|
    ensures forall i :: 0 <= i < n ==> Error(value, reference, i) <= MaxError(value, reference, n)
    ensures MaxError(value, reference, n) == 0.0
            || exists i :: 0 <= i < n && Error(value, reference, i) == MaxError(value, reference, n)
  {
    if n > 0 {
      MaxErrorFacts(value, reference, n - 1);
    }
  }

  lemma {:induction false} MaxExcessFacts(value: seq<Option<real>>, reference: seq<Option<real>>, eps: real, n: nat)
    requires Aligned(value, reference) && n <= |value|
    ensures forall i :: 0 <= i < n ==> Excess(value, reference, i, eps) <= MaxExcess(value, reference, eps, n)
    ensures MaxExcess(value, reference, eps, n) == 0.0
            || exists i :: 0 <= i < n && Excess(value, reference, i, eps) == MaxExcess(value, reference, eps, n)
  {
    if n > 0 {
      MaxExcessFacts(value, reference, eps, n - 1);
    }
  }

  /** The absolute tolerance: the reference's own precision, twice the residual, or the smallest number. */
  function Tolerance(precision: real, residual: real, tiny: real): (t: real)
    ensures IsLargest(t, precision, 2.0 * residual, tiny)
  {
    Larger(Larger(precision, 2.0 * residual), tiny)
  }

  /** `m` is one of the three and none is above it. */
  ghost predicate IsLargest(m: real, x: real, y: real, z: real) {
    m >= x && m >= y && m >= z && (m == x || m == y || m == z)
  }

  /** Names of the floating types: float16 and its kin, and bfloat16. */
  predicate Floating(dtype: string) {
    "float" <= dtype || dtype == "bfloat16"
  }

  /** Derives the frozen bound of a floating baseline from its error alone; `rms` is the reference's root
      mean square. */
  function DeriveBound(baseline: Output, reference: Output, p: Precision, rms: real): Result<Bound, CalibrationError>
    requires baseline.shape == reference.shape ==> |baseline.values| == |reference.values|
  {
    if baseline.shape != reference.shape || !Floating(baseline.dtype) || reference.dtype != "float64"
    then Err(LayoutChanged)
    else if !Finite(baseline.values) || !Finite(reference.values) then Err(NotFinite)
    else
      var n := |baseline.values|;
      var residual := MaxExcess(baseline.values, reference.values, p.eps, n);
      Ok(Bound(baseline.dtype, Tolerance(p.eps * rms, residual, p.tiny), p.eps,
               MaxError(baseline.values, reference.values, n),
               residual, rms))
  }

  /** Element `i` is within the frozen threshold. */
  predicate Within(value: seq<Option<real>>, reference: seq<Option<real>>, b: Bound, i: nat)
    requires Aligned(value, reference) && i < |value|
  {
    Error(value, reference, i) <= b.atol + b.rtol * Abs(reference[i].value)
  }

  predicate LayoutOk(value: Output, reference: Output, b: Bound) {
    value.dtype == b.dtype && value.shape == reference.shape && value.device == reference.device
    && |value.values| == |reference.values|
  }

  predicate Accepted(value: Output, reference: Output, b: Bound) {
    && LayoutOk(value, reference, b) && Finite(value.values) && Finite(reference.values)
    && forall i :: 0 <= i < |value.values| ==> Within(value.values, reference.values, b, i)
  }

  /** The error relative to the reference, floored at the absolute tolerance. */
  function Relative(value: seq<Option<real>>, reference: seq<Option<real>>, b: Bound, i: nat): real
    requires Aligned(value, reference) && i < |value| && b.atol > 0.0
  {
    Error(value, reference, i) / Larger(Abs(reference[i].value), b.atol)
  }

  function MaxRelative(value: seq<Option<real>>, reference: seq<Option<real>>, b: Bound, n: nat): (m: real)
    requires Aligned(value, reference) && n <= |value| && b.atol > 0.0
    ensures m >= 0.0
  {
    if n == 0 then 0.0 else Larger(MaxRelative(value, reference, b, n - 1), Relative(value, reference, b, n - 1))
  }

  lemma {:induction false} MaxRelativeFacts(value: seq<Option<real>>, reference: seq<Option<real>>, b: Bound, n: nat)
    requires Aligned(value, reference) && n <= |value| && b.atol > 0.0 && b.rtol >= 0.0
    requires forall i :: 0 <= i < n ==> Within(value, reference, b, i)
    ensures forall i :: 0 <= i < n ==> Relative(value, reference, b, i) <= MaxRelative(value, reference, b, n)
    ensures MaxRelative(value, reference, b, n) == 0.0
            || exists i :: 0 <= i < n && Relative(value, reference, b, i) == MaxRelative(value, reference, b, n)
    ensures MaxRelative(value, reference, b, n) <= 1.0 + b.rtol
  {
    if n > 0 {
      MaxRelativeFacts(value, reference, b, n - 1);
      RelativeBound(value, reference, b, n - 1);
    }
  }

  /** No error and no relative error of an output is above the two maxima. */
  ghost predicate Covers(maximum: real, relative: real, value: Output, reference: Output, b: Bound)
    requires b.atol > 0.0 && Aligned(value.values, reference.values)
  {
    forall i :: 0 <= i < |value.values| ==>
      Error(value.values, reference.values, i) <= maximum && Relative(value.values, reference.values, b, i) <= relative
  }

  /** The number is the error of some element of the output. */
  ghost predicate ErrorReached(maximum: real, value: Output, reference: Output) {
    && Aligned(value.values, reference.values)
    && exists i :: 0 <= i < |value.values| && Error(value.values, reference.values, i) == maximum
  }

  /** The number is the relative error of some element of the output. */
  ghost predicate RelativeReached(relative: real, value: Output, reference: Output, b: Bound) {
    && b.atol > 0.0 && Aligned(value.values, reference.values)
    && exists i :: 0 <= i < |value.values| && Relative(value.values, reference.values, b, i) == relative
  }

  /** The first `n` outputs are accepted; the two numbers are the largest error and relative error of
      their elements, and the latter is at most one more than some relative tolerance. */
  ghost predicate Judged(actual: seq<Output>, reference: seq<Output>, bounds: seq<Bound>, n: nat, maximum: real,
                         relative: real)
    requires n <= |actual| == |reference| == |bounds| && forall k :: 0 <= k < |bounds| ==> bounds[k].atol > 0.0
  {
    && (forall k :: 0 <= k < n ==> Accepted(actual[k], reference[k], bounds[k])
                                   && Covers(maximum, relative, actual[k], reference[k], bounds[k]))
    && (maximum == 0.0 || exists k :: 0 <= k < n && ErrorReached(maximum, actual[k], reference[k]))
    && (relative == 0.0
        || exists k :: 0 <= k < n && RelativeReached(relative, actual[k], reference[k], bounds[k])
                       && relative <= 1.0 + bounds[k].rtol)
  }

  lemma JudgedMore(actual: seq<Output>, reference: seq<Output>, bounds: seq<Bound>, n: nat, maximum: real,
                   relative: real, most: real, furthest: real)
    requires n < |actual| == |reference| == |bounds| && forall k :: 0 <= k < |bounds| ==> bounds[k].atol > 0.0
    requires Judged(actual, reference, bounds, n, maximum, relative)
    requires Accepted(actual[n], reference[n], bounds[n]) && Covers(most, furthest, actual[n], reference[n], bounds[n])
    requires most == 0.0 || ErrorReached(most, actual[n], reference[n])
    requires furthest == 0.0 || (RelativeReached(furthest, actual[n], reference[n], bounds[n])
                                 && furthest <= 1.0 + bounds[n].rtol)
    requires maximum >= 0.0 && relative >= 0.0 && most >= 0.0 && furthest >= 0.0
    ensures Judged(actual, reference, bounds, n + 1, Larger(maximum, most), Larger(relative, furthest))
  {
    forall k | 0 <= k < n
      ensures Covers(Larger(maximum, most), Larger(relative, furthest), actual[k], reference[k], bounds[k])
    {
      assert Covers(maximum, relative, actual[k], reference[k], bounds[k]);
    }
  }

  /** The comparison, output by output. */
  method CompareOutputs(actual: seq<Output>, reference: seq<Output>, bounds: seq<Bound>)
    returns (r: Result<(real, real), CalibrationError>)
    requires forall k :: 0 <= k < |bounds| ==> bounds[k].atol > 0.0 && bounds[k].rtol >= 0.0
    ensures r.Ok?
            <==> |actual| == |reference| == |bounds| && forall k :: 0 <= k < |actual| ==>
                                                          Accepted(actual[k], reference[k], bounds[k])
    ensures r.Ok? ==> Judged(actual, reference, bounds, |actual|, r.value.0, r.value.1)
  {
    if |actual| != |reference| || |actual| != |bounds| {
      return Err(CountChanged);
    }
    var maximum, relative := 0.0, 0.0;
    for k := 0 to |actual|
      invariant maximum >= 0.0 && relative >= 0.0 && Judged(actual, reference, bounds, k, maximum, relative)
    {
      var value, target, bound := actual[k], reference[k], bounds[k];
      if !LayoutOk(value, target, bound) {
        return Err(LayoutChanged);
      }
      if !Finite(value.values) || !Finite(target.values) {
        return Err(NotFinite);
      }
      var n := |value.values|;
      if !(forall i :: 0 <= i < n ==> Within(value.values, target.values, bound, i)) {
        return Err(Exceeds);
      }
      var most, furthest := MaxError(value.values, target.values, n),
        MaxRelative(value.values, target.values, bound, n);
      MaxErrorFacts(value.values, target.values, n);
      MaxRelativeFacts(value.values, target.values, bound, n);
      JudgedMore(actual, reference, bounds, k, maximum, relative, most, furthest);
      maximum, relative := Larger(maximum, most), Larger(relative, furthest);
    }
    return Ok((maximum, relative));
  }

  // ---- acceptance in terms of the numbers alone ----

  ghost function Magnitude(x: real): real {
    if x < 0.0 then -x else x
  }

  /** Both numbers are finite and the value lies in the interval around the reference. */
  ghost predicate Near(value: Option<real>, reference: Option<real>, atol: real, rtol: real) {
    && value.Some? && reference.Some?
    && var slack := atol + rtol * Magnitude(reference.value);
       reference.value - slack <= value.value <= reference.value + slack
  }

  /** Every element of the output lies in its interval. */
  ghost predicate PlainAccepted(value: Output, reference: Output, b: Bound) {
    && value.dtype == b.dtype && value.shape == reference.shape && value.device == reference.device
    && |value.values| == |reference.values|
    && forall i :: 0 <= i < |value.values| ==> Near(value.values[i], reference.values[i], b.atol, b.rtol)
  }

  /** The value is at most `most` away from the reference, and at most `furthest` times the larger of
      the reference and the absolute tolerance. */
  ghost predicate Apart(value: Option<real>, reference: Option<real>, atol: real, most: real, furthest: real) {
    && value.Some? && reference.Some?
    && var unit := if Magnitude(reference.value) < atol then atol else Magnitude(reference.value);
       && -most <= value.value - reference.value <= most
       && -(furthest * unit) <= value.value - reference.value <= furthest * unit
  }

  /** The two numbers bound every element of every output. */
  ghost predicate PlainMaxima(actual: seq<Output>, reference: seq<Output>, bounds: seq<Bound>, most: real,
                              furthest: real) {
    && |actual| == |reference| == |bounds|
    && forall k :: 0 <= k < |actual| ==> PlainMaximum(actual[k], reference[k], bounds[k], most, furthest)
  }

  ghost predicate PlainMaximum(value: Output, reference: Output, b: Bound, most: real, furthest: real) {
    && |value.values| == |reference.values|
    && forall i :: 0 <= i < |value.values| ==> Apart(value.values[i], reference.values[i], b.atol, most, furthest)
  }

  lemma WithinIff(value: seq<Option<real>>, reference: seq<Option<real>>, b: Bound, i: nat)
    requires Aligned(value, reference) && i < |value|
    ensures Within(value, reference, b, i) <==> Near(value[i], reference[i], b.atol, b.rtol)
  {
  }

  /** The comparison of magnitudes accepts exactly the outputs whose elements lie in their intervals. */
  lemma AcceptedIff(value: Output, reference: Output, b: Bound)
    ensures Accepted(value, reference, b) <==> PlainAccepted(value, reference, b)
  {
    if Accepted(value, reference, b) {
      forall i | 0 <= i < |value.values| ensures Near(value.values[i], reference.values[i], b.atol, b.rtol) {
        WithinIff(value.values, reference.values, b, i);
      }
    }
    if PlainAccepted(value, reference, b) {
      assert Finite(value.values) && Finite(reference.values) by {
        assert forall i :: 0 <= i < |value.values| ==> Near(value.values[i], reference.values[i], b.atol, b.rtol);
      }
      forall i | 0 <= i < |value.values| ensures Within(value.values, reference.values, b, i) {
        WithinIff(value.values, reference.values, b, i);
      }
    }
  }

  lemma Undivided(x: real, d: real, q: real)
    requires d > 0.0 && x / d <= q
    ensures x <= q * d
  {
    var r := x / d;
    assert r * d == x;
    Scale(d, r, q);
  }

  lemma ApartWhen(value: seq<Option<real>>, reference: seq<Option<real>>, b: Bound, i: nat, most: real, furthest: real)
    requires Aligned(value, reference) && i < |value| && b.atol > 0.0
    requires Error(value, reference, i) <= most && Relative(value, reference, b, i) <= furthest
    ensures Apart(value[i], reference[i], b.atol, most, furthest)
  {
    Undivided(Error(value, reference, i), Larger(Abs(reference[i].value), b.atol), furthest);
  }

  lemma MaximaPlainly(actual: seq<Output>, reference: seq<Output>, bounds: seq<Bound>, most: real, furthest: real)
    requires |actual| == |reference| == |bounds| && forall k :: 0 <= k < |bounds| ==> bounds[k].atol > 0.0
    requires Judged(actual, reference, bounds, |actual|, most, furthest)
    ensures PlainMaxima(actual, reference, bounds, most, furthest)
  {
    forall k | 0 <= k < |actual| ensures PlainMaximum(actual[k], reference[k], bounds[k], most, furthest) {
      assert Covers(most, furthest, actual[k], reference[k], bounds[k]);
      forall i | 0 <= i < |actual[k].values|
        ensures Apart(actual[k].values[i], reference[k].values[i], bounds[k].atol, most, furthest)
      {
        ApartWhen(actual[k].values, reference[k].values, bounds[k], i, most, furthest);
      }
    }
  }

  /** The value lies on an end of the interval around the reference. */
  ghost predicate OnEdge(value: Option<real>, reference: Option<real>, atol: real, rtol: real) {
    && value.Some? && reference.Some?
    && var slack := atol + rtol * Magnitude(reference.value);
       value.value == reference.value - slack || value.value == reference.value + slack
  }

  /** `m` is the least number, not negative, with every value within `m` and its relative tolerance of
      its reference. */
  ghost predicate LeastSlack(m: real, value: seq<Option<real>>, reference: seq<Option<real>>, rtol: real) {
    && |value| == |reference| && m >= 0.0
    && (forall i :: 0 <= i < |value| ==> Near(value[i], reference[i], m, rtol))
    && (m == 0.0 || exists i :: 0 <= i < |value| && OnEdge(value[i], reference[i], m, rtol))
  }

  /** Compares every output with its reference under its frozen bound. */
  method CompareCalibrated(actual: seq<Output>, reference: seq<Output>, bounds: seq<Bound>)
    returns (r: Result<(real, real), CalibrationError>)
    requires forall k :: 0 <= k < |bounds| ==> bounds[k].atol > 0.0 && bounds[k].rtol >= 0.0
    ensures r.Ok?
            <==> |actual| == |reference| == |bounds| && forall k :: 0 <= k < |actual| ==>
                                                          PlainAccepted(actual[k], reference[k], bounds[k])
    ensures r.Ok? ==> Judged(actual, reference, bounds, |actual|, r.value.0, r.value.1)
    ensures r.Ok? ==> PlainMaxima(actual, reference, bounds, r.value.0, r.value.1)
  {
    r := CompareOutputs(actual, reference, bounds);
    if |actual| == |reference| == |bounds| {
      forall k | 0 <= k < |actual|
        ensures Accepted(actual[k], reference[k], bounds[k]) <==> PlainAccepted(actual[k], reference[k], bounds[k])
      {
        AcceptedIff(actual[k], reference[k], bounds[k]);
      }
    }
    if r.Ok? {
      MaximaPlainly(actual, reference, bounds, r.value.0, r.value.1);
    }
  }

  // ---- what the bounds guarantee ----

  lemma Quotient(x: real, d: real, limit: real)
    requires d > 0.0 && 0.0 <= x <= limit * d
    ensures 0.0 <= x / d <= limit
  {
    var q := x / d;
    assert q * d == x;
    if q > limit {
      Positive(q - limit, d);
    }
    if q < 0.0 {
      Positive(-q, d);
    }
  }

  lemma Positive(a: real, b: real)
    requires a > 0.0 && b > 0.0
    ensures a * b > 0.0
  {
  }

  /** An accepted element reports relative error at most `1 + rtol`. */
  lemma RelativeBound(value: seq<Option<real>>, reference: seq<Option<real>>, b: Bound, i: nat)
    requires Aligned(value, reference) && i < |value| && b.atol > 0.0 && b.rtol >= 0.0 && Within(value, reference, b, i)
    ensures 0.0 <= Relative(value, reference, b, i) <= 1.0 + b.rtol
  {
    var d := Larger(Abs(reference[i].value), b.atol);
    Scale(b.rtol, Abs(reference[i].value), d);
    assert (1.0 + b.rtol) * d == d + b.rtol * d;
    Quotient(Error(value, reference, i), d, 1.0 + b.rtol);
  }

  lemma Scale(k: real, x: real, y: real)
    requires k >= 0.0 && x <= y
    ensures k * x <= k * y
  {
    if k > 0.0 && x < y {
      Positive(k, y - x);
    }
  }

  lemma ExcessBelow(value: seq<Option<real>>, reference: seq<Option<real>>, eps: real, i: nat)
    requires Aligned(value, reference) && i < |value|
    ensures Larger(Error(value, reference, i) - eps * Abs(reference[i].value), 0.0)
            <= MaxExcess(value, reference, eps, |value|)
  {
    MaxExcessFacts(value, reference, eps, |value|);
    assert Excess(value, reference, i, eps) <= MaxExcess(value, reference, eps, |value|);
  }

  lemma WithinWhen(value: seq<Option<real>>, reference: seq<Option<real>>, b: Bound, i: nat)
    requires Aligned(value, reference) && i < |value|
    requires Larger(Error(value, reference, i) - b.rtol * Abs(reference[i].value), 0.0) <= b.residual
             && 0.0 <= 2.0 * b.residual <= b.atol
    ensures Within(value, reference, b, i)
  {
  }

  /** Every element is within the bound derived from it. */
  lemma WithinOwn(value: seq<Option<real>>, reference: seq<Option<real>>, b: Bound, i: nat)
    requires Aligned(value, reference) && i < |value|
    requires b.residual == MaxExcess(value, reference, b.rtol, |value|) && 2.0 * b.residual <= b.atol
    ensures Within(value, reference, b, i)
  {
    ExcessBelow(value, reference, b.rtol, i);
    WithinWhen(value, reference, b, i);
  }

  /** A derived tolerance always accepts the baseline it came from, elementwise, with at most half
      of it used up by the residual. */
  lemma BaselineAccepted(baseline: Output, reference: Output, p: Precision, rms: real)
    requires p.tiny > 0.0 && baseline.device == reference.device
             && (baseline.shape == reference.shape ==> |baseline.values| == |reference.values|)
    ensures var r := DeriveBound(baseline, reference, p, rms);
            && (r.Ok? <==>
                baseline.shape == reference.shape && ("float" <= baseline.dtype || baseline.dtype == "bfloat16")
                && reference.dtype == "float64" && Finite(baseline.values) && Finite(reference.values))
            && (r.Ok? ==>
                PlainAccepted(baseline, reference, r.value) && 2.0 * r.value.residual <= r.value.atol
                && r.value.atol > 0.0)
            && (r.Ok? ==> r.value.rtol == p.eps && r.value.atol == Tolerance(p.eps * rms, r.value.residual, p.tiny))
  {
    var r := DeriveBound(baseline, reference, p, rms);
    if r.Ok? {
      forall i | 0 <= i < |baseline.values| ensures Within(baseline.values, reference.values, r.value, i) {
        WithinOwn(baseline.values, reference.values, r.value, i);
      }
      AcceptedIff(baseline, reference, r.value);
    }
  }

  /** `m` bounds every element's excess and is reached, or is zero. */
  ghost predicate IsResidual(m: real, value: seq<Option<real>>, reference: seq<Option<real>>, eps: real)
    requires Aligned(value, reference)
  {
    && (forall i :: 0 <= i < |value| ==> Excess(value, reference, i, eps) <= m)
    && (m == 0.0 || exists i :: 0 <= i < |value| && Excess(value, reference, i, eps) == m)
  }

  ghost predicate IsMaxError(m: real, value: seq<Option<real>>, reference: seq<Option<real>>)
    requires Aligned(value, reference)
  {
    && (forall i :: 0 <= i < |value| ==> Error(value, reference, i) <= m)
    && (m == 0.0 || exists i :: 0 <= i < |value| && Error(value, reference, i) == m)
  }

  lemma MaximaReached(value: seq<Option<real>>, reference: seq<Option<real>>, eps: real)
    requires Aligned(value, reference)
    ensures IsResidual(MaxExcess(value, reference, eps, |value|), value, reference, eps)
    ensures IsMaxError(MaxError(value, reference, |value|), value, reference)
  {
    MaxExcessFacts(value, reference, eps, |value|);
    MaxErrorFacts(value, reference, |value|);
  }

  /** The residual of the bound and its largest error belong to elements, or are zero. */
  lemma BoundReached(baseline: Output, reference: Output, p: Precision, rms: real, b: Bound)
    requires |baseline.values| == |reference.values| && DeriveBound(baseline, reference, p, rms) == Ok(b)
    ensures IsResidual(b.residual, baseline.values, reference.values, p.eps)
    ensures IsMaxError(b.maxAbs, baseline.values, reference.values)
  {
    MaximaReached(baseline.values, reference.values, p.eps);
  }

  lemma ExcessPlainly(value: seq<Option<real>>, reference: seq<Option<real>>, eps: real, i: nat, m: real)
    requires Aligned(value, reference) && i < |value| && m >= 0.0
    ensures Excess(value, reference, i, eps) <= m ==> Near(value[i], reference[i], m, eps)
    ensures Excess(value, reference, i, eps) == m > 0.0 ==> OnEdge(value[i], reference[i], m, eps)
  {
  }

  lemma ResidualPlainly(m: real, value: seq<Option<real>>, reference: seq<Option<real>>, eps: real)
    requires Aligned(value, reference) && m >= 0.0 && IsResidual(m, value, reference, eps)
    ensures LeastSlack(m, value, reference, eps)
  {
    forall i | 0 <= i < |value| ensures Near(value[i], reference[i], m, eps) {
      ExcessPlainly(value, reference, eps, i, m);
    }
    if m > 0.0 {
      var i :| 0 <= i < |value| && Excess(value, reference, i, eps) == m;
      ExcessPlainly(value, reference, eps, i, m);
    }
  }

  lemma ErrorIsExcess(m: real, value: seq<Option<real>>, reference: seq<Option<real>>)
    requires Aligned(value, reference) && IsMaxError(m, value, reference)
    ensures IsResidual(m, value, reference, 0.0)
  {
    forall i | 0 <= i < |value| ensures Excess(value, reference, i, 0.0) == Error(value, reference, i) {
      assert 0.0 * Abs(reference[i].value) == 0.0;
    }
  }

  lemma MaximaPlain(residual: real, most: real, value: seq<Option<real>>, reference: seq<Option<real>>, eps: real)
    requires Aligned(value, reference)
    requires residual == MaxExcess(value, reference, eps, |value|) && most == MaxError(value, reference, |value|)
    ensures LeastSlack(residual, value, reference, eps) && LeastSlack(most, value, reference, 0.0)
  {
    MaximaReached(value, reference, eps);
    ErrorIsExcess(most, value, reference);
    ResidualPlainly(residual, value, reference, eps);
    ResidualPlainly(most, value, reference, 0.0);
  }

  lemma DerivedParts(baseline: Output, reference: Output, p: Precision, rms: real, b: Bound)
    requires |baseline.values| == |reference.values| && DeriveBound(baseline, reference, p, rms) == Ok(b)
    ensures Aligned(baseline.values, reference.values)
    ensures b.dtype == baseline.dtype && b.rtol == p.eps && b.rms == rms
    ensures b.atol == Tolerance(p.eps * rms, b.residual, p.tiny)
    ensures b.residual == MaxExcess(baseline.values, reference.values, p.eps, |baseline.values|)
    ensures b.maxAbs == MaxError(baseline.values, reference.values, |baseline.values|)
  {
  }

  /** A derived bound: its residual is the least that brings every element of the baseline within its
      precision, its largest error is the least that bounds them all, and its tolerance is the largest
      of its floors. */
  lemma BoundPlainly(baseline: Output, reference: Output, p: Precision, rms: real, b: Bound)
    requires |baseline.values| == |reference.values| && DeriveBound(baseline, reference, p, rms) == Ok(b)
    ensures b.dtype == baseline.dtype && b.rtol == p.eps && b.rms == rms
    ensures IsLargest(b.atol, p.eps * rms, 2.0 * b.residual, p.tiny)
    ensures LeastSlack(b.residual, baseline.values, reference.values, p.eps)
    ensures LeastSlack(b.maxAbs, baseline.values, reference.values, 0.0)
  {
    DerivedParts(baseline, reference, p, rms, b);
    MaximaPlain(b.residual, b.maxAbs, baseline.values, reference.values, p.eps);
  }

  /** Calibrating never refuses its own baseline: with every bound derived from its own output, all
      outputs pass. */
  lemma CalibrationSelfConsistent(bounds: seq<Bound>, baseline: seq<Output>, reference: seq<Output>, ps: seq<Precision>,
                                  rms: seq<real>)
    requires |bounds| == |baseline| == |reference| == |ps| == |rms|
    requires forall k :: 0 <= k < |ps| ==>
               && ps[k].tiny > 0.0 && |baseline[k].values| == |reference[k].values|
                  && baseline[k].device == reference[k].device
               && DeriveBound(baseline[k], reference[k], ps[k], rms[k]) == Ok(bounds[k])
    ensures forall k :: 0 <= k < |baseline| ==> PlainAccepted(baseline[k], reference[k], bounds[k])
  {
    forall k | 0 <= k < |baseline| ensures PlainAccepted(baseline[k], reference[k], bounds[k]) {
      BaselineAccepted(baseline[k], reference[k], ps[k], rms[k]);
    }
  }
}
