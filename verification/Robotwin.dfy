/** Joint normalisation, its restoration, and the image resize of the Robotwin workload. */
module Robotwin {
  import Quantiles

  /** The quantiles of one column. */
  datatype Stats = Stats(low: real, high: real)

  function Spread(s: Stats): real {
    s.high - s.low + 0.000001
  }

  function Normalized(v: real, s: Stats): real
    requires Spread(s) != 0.0
  {
    (v - s.low) / Spread(s) * 2.0 - 1.0
  }

  function Restored(a: real, s: Stats): real {
    (a + 1.0) / 2.0 * Spread(s) + s.low
  }

  /** `x` is `v` in units of half the column's width from its middle: -1 for the low quantile, and 1 for
      a millionth past the high one. */
  ghost predicate IsScaled(x: real, v: real, s: Stats) {
    (x + 1.0) * (s.high - s.low + 0.000001) == 2.0 * (v - s.low)
  }

  lemma NormalizedIs(v: real, s: Stats)
    requires Spread(s) != 0.0
    ensures IsScaled(Normalized(v, s), v, s)
  {
    var y := (v - s.low) / Spread(s);
    Quotient(v - s.low, Spread(s));
    assert (y * 2.0 - 1.0 + 1.0) * Spread(s) == 2.0 * (y * Spread(s));
  }

  /** Restoring undoes the scaling, whatever was scaled. */
  lemma RestoredIs(x: real, v: real, s: Stats)
    requires IsScaled(x, v, s)
    ensures Restored(x, s) == v
  {
    assert (x + 1.0) / 2.0 * Spread(s) == ((x + 1.0) * Spread(s)) / 2.0;
  }

  /** Restoring under another column's statistics moves and stretches the value. */
  lemma RoundTripIs(v: real, s: Stats, t: Stats)
    requires Spread(s) != 0.0
    ensures Restored(Normalized(v, s), t) == (v - s.low) / Spread(s) * Spread(t) + t.low
  {
    var y := (v - s.low) / Spread(s);
    assert (y * 2.0 - 1.0 + 1.0) / 2.0 == y;
  }

  lemma Quotient(x: real, d: real)
    requires d != 0.0
    ensures x / d * d == x
  {
  }

  /** The round trip gives back every value of a column exactly when both statistics agree. */
  lemma RoundTripIff(s: Stats, t: Stats)
    requires Spread(s) != 0.0
    ensures (forall v :: Restored(Normalized(v, s), t) == v) <==> s == t
  {
    if s == t {
      forall v ensures Restored(Normalized(v, s), t) == v {
        RoundTripIs(v, s, t);
        Quotient(v - s.low, Spread(s));
      }
    }
    if forall v :: Restored(Normalized(v, s), t) == v {
      RoundTripIs(s.low, s, t);
      assert Restored(Normalized(s.low, s), t) == s.low;
      assert (s.low - s.low) / Spread(s) == 0.0;
      assert t.low == s.low;
      var v := s.low + Spread(s);
      RoundTripIs(v, s, t);
      assert Restored(Normalized(v, s), t) == v;
      assert (v - s.low) / Spread(s) == 1.0;
      assert Spread(t) == Spread(s);
    }
  }

  // ---- the joint layout ----

  /** Statistics of the 12 arm and 2 gripper columns. */
  ghost predicate Usable(arm: seq<Stats>, gripper: seq<Stats>) {
    && |arm| == 12 && |gripper| == 2
    && (forall i :: 0 <= i < 12 ==> arm[i].high - arm[i].low + 0.000001 != 0.0)
    && (forall i :: 0 <= i < 2 ==> gripper[i].high - gripper[i].low + 0.000001 != 0.0)
  }

  function ArmOf(joint: seq<real>): seq<real>
    requires |joint| == 14
  {
    joint[..6] + joint[7..13]
  }

  function GripperOf(joint: seq<real>): seq<real>
    requires |joint| == 14
  {
    [joint[6], joint[13]]
  }

  function NormalizedAll(values: seq<real>, stats: seq<Stats>): (r: seq<real>)
    requires |values| == |stats| && forall i :: 0 <= i < |stats| ==> Spread(stats[i]) != 0.0
    ensures |r| == |values|
  {
    seq(|values|, i requires 0 <= i < |values| => Normalized(values[i], stats[i]))
  }

  /** The two arms of six joints in columns 0 to 11, the grippers in 14 and 15, zero elsewhere. */
  ghost predicate IsState(state: seq<real>, joint: seq<real>, arm: seq<Stats>, gripper: seq<Stats>)
    requires |joint| == 14 && Usable(arm, gripper)
  {
    && |state| == 75
    && (forall i :: 0 <= i < 12 ==> IsScaled(state[i], joint[if i < 6 then i else i + 1], arm[i]))
    && IsScaled(state[14], joint[6], gripper[0]) && IsScaled(state[15], joint[13], gripper[1])
    && (forall i :: 0 <= i < 75 && (12 <= i < 14 || i >= 16) ==> state[i] == 0.0)
  }

  /** Writes one normalised group into its columns. */
  method WriteGroup(state: array<real>, start: nat, values: seq<real>)
    requires start + |values| <= state.Length
    modifies state
    ensures forall i :: 0 <= i < state.Length ==>
              state[i] == if start <= i < start + |values| then values[i - start] else old(state[i])
  {
    for k := 0 to |values|
      invariant forall i :: 0 <= i < state.Length ==>
                  state[i] == if start <= i < start + k then values[i - start] else old(state[i])
    {
      state[start + k] := values[k];
    }
  }

  /** The 75-column state of a 14-joint observation. */
  method PrepareState(joint: seq<real>, arm: seq<Stats>, gripper: seq<Stats>) returns (state: array<real>)
    requires |joint| == 14 && Usable(arm, gripper)
    ensures fresh(state) && state.Length == 75 && IsState(state[..], joint, arm, gripper)
  {
    state := new real[75](_ => 0.0);
    WriteGroup(state, 0, NormalizedAll(ArmOf(joint), arm));
    WriteGroup(state, 14, NormalizedAll(GripperOf(joint), gripper));
    forall i | 0 <= i < 12 ensures IsScaled(state[i], joint[if i < 6 then i else i + 1], arm[i]) {
      NormalizedIs(ArmOf(joint)[i], arm[i]);
    }
    NormalizedIs(joint[6], gripper[0]);
    NormalizedIs(joint[13], gripper[1]);
  }

  function RestoredAll(columns: seq<real>, stats: seq<Stats>): (r: seq<real>)
    requires |columns| == |stats|
    ensures |r| == |columns| && forall i :: 0 <= i < |r| ==> r[i] == Restored(columns[i], stats[i])
  {
    seq(|columns|, i requires 0 <= i < |columns| => Restored(columns[i], stats[i]))
  }

  /** Left arm, left gripper, right arm, right gripper. */
  function Restore(action: seq<real>, arm: seq<Stats>, gripper: seq<Stats>): (joint: seq<real>)
    requires |action| >= 16 && |arm| == 12 && |gripper| == 2
    ensures |joint| == 14
  {
    var a, g := RestoredAll(action[..12], arm), RestoredAll(action[14..16], gripper);
    a[..6] + g[..1] + a[6..] + g[1..]
  }

  /** With equal statistics for state and action, restoring the prepared state gives back all
      fourteen joints, each in its own column. */
  lemma LayoutRoundTrip(state: seq<real>, joint: seq<real>, arm: seq<Stats>, gripper: seq<Stats>)
    requires |joint| == 14 && Usable(arm, gripper) && IsState(state, joint, arm, gripper)
    ensures Restore(state, arm, gripper) == joint
  {
    var restored := Restore(state, arm, gripper);
    var a, g := RestoredAll(state[..12], arm), RestoredAll(state[14..16], gripper);
    forall i | 0 <= i < 12 ensures a[i] == joint[if i < 6 then i else i + 1] {
      RestoredIs(state[i], joint[if i < 6 then i else i + 1], arm[i]);
    }
    RestoredIs(state[14], joint[6], gripper[0]);
    RestoredIs(state[15], joint[13], gripper[1]);
    assert g == [joint[6], joint[13]];
    forall k | 0 <= k < 14 ensures restored[k] == joint[k] {
      if k < 6 {
        assert restored[k] == a[k];
      } else if k == 6 {
        assert restored[k] == g[0];
      } else if k < 13 {
        assert restored[k] == a[k - 1];
      } else {
        assert restored[k] == g[1];
      }
    }
  }

  // ---- resize and pad ----

  const SIDE := 224

  function Larger(a: real, b: real): real {
    if a < b then b else a
  }

  function Max(a: nat, b: nat): nat {
    if a < b then b else a
  }

  function Min(a: nat, b: nat): nat {
    if a < b then a else b
  }

  function Ratio(width: nat, height: nat): real {
    Larger(width as real / SIDE as real, height as real / SIDE as real)
  }

  /** One side after resizing. */
  function Resized(side: nat, width: nat, height: nat): int
    requires width > 0 && height > 0
  {
    (side as real / Ratio(width, height)).Floor
  }

  lemma FloorOfQuotient(a: nat, b: nat, x: real)
    requires b > 0 && x * b as real == a as real
    ensures x.Floor == a / b
  {
    var q, r := a / b, a % b;
    assert a == q * b + r;
    assert (x - q as real) * b as real == r as real;
    Between(x - q as real, r, b);
  }

  lemma Between(y: real, r: nat, b: nat)
    requires b > 0 && r < b && y * b as real == r as real
    ensures 0.0 <= y < 1.0
  {
    if y < 0.0 {
      Positive(-y, b as real);
    } else if y >= 1.0 {
      Nonnegative(y - 1.0, b as real);
    }
  }

  lemma Positive(a: real, b: real)
    requires a > 0.0 && b > 0.0
    ensures a * b > 0.0
  {
  }

  lemma Nonnegative(a: real, b: real)
    requires a >= 0.0 && b >= 0.0
    ensures a * b >= 0.0
  {
  }

  /** A resized side is 224 times it over the longer side, rounded down. */
  lemma ResizedIs(side: nat, width: nat, height: nat)
    requires width > 0 && height > 0
    ensures Resized(side, width, height) == (224 * side) / (if width < height then height else width)
  {
    var m := Max(width, height);
    var ratio := Ratio(width, height);
    assert ratio * SIDE as real == m as real;
    var x := side as real / ratio;
    assert x * ratio == side as real;
    assert x * (ratio * SIDE as real) == (x * ratio) * SIDE as real;
    FloorOfQuotient(SIDE * side, m, x);
  }

  lemma DivideWhole(k: nat, m: nat)
    requires m > 0
    ensures (k * m) / m == k
  {
    Quantiles.DivExact(k, m, 0);
    assert m * k + 0 == k * m;
  }

  lemma DivideLess(a: nat, b: nat, m: nat)
    requires m > 0 && a <= b
    ensures a / m <= b / m
  {
    Quantiles.DivBounds(a, m);
    Quantiles.DivBounds(b, m);
    assert (b / m + 1) * m == (b / m) * m + m;
    Quantiles.MulMonoStrict(a / m, b / m + 1, m);
  }

  /** The padding of either side, 224 less the resized side, is never negative and never cuts; the
      longer side is filled exactly. A side vanishes, and leaves nothing to interpolate to, exactly
      when the image is over 224 times as long as it is wide. */
  lemma ResizeFits(width: nat, height: nat)
    requires width > 0 && height > 0
    ensures var w, h := Resized(width, width, height), Resized(height, width, height);
            && 0 <= w <= 224 && 0 <= h <= 224
            && (width >= height ==> w == 224) && (height >= width ==> h == 224)
            && (w == 0 || h == 0 <==> 224 * width < height || 224 * height < width)
  {
    var m, n := Max(width, height), Min(width, height);
    ResizedIs(width, width, height);
    ResizedIs(height, width, height);
    DivideWhole(SIDE, m);
    DivideLess(SIDE * n, SIDE * m, m);
    Vanishes(SIDE * n, m);
  }

  lemma Vanishes(a: nat, m: nat)
    requires m > 0
    ensures a / m == 0 <==> a < m
  {
    if a >= m {
      DivideLess(m, a, m);
    }
  }
}
