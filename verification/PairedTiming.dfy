/** Timing schedules: alternating rounds over several modes, ABBA/BAAB, and round-robin cases. */
module PairedTiming {
  import opened Wrappers
  import Quantiles

  /** One measured call: its mode, round, case and place in the round. */
  datatype Slot<M> = Slot(mode: M, iteration: nat, case_: nat, position: nat)

  datatype Timed<M> = Timed(slot: Slot<M>, wall: real)

  predicate Distinct<M(==)>(names: seq<M>) {
    forall i, j :: 0 <= i < j < |names| ==> names[i] != names[j]
  }

  function Reversed<T>(s: seq<T>): seq<T> {
    seq(|s|, k requires 0 <= k < |s| => s[|s| - 1 - k])
  }

  /** Insertion order in even rounds, the reverse in odd ones. */
  function OrderOf<M>(names: seq<M>, iteration: nat): (r: seq<M>)
    ensures |r| == |names|
  {
    if iteration % 2 == 0 then names else Reversed(names)
  }

  /** Where a mode comes in its round. */
  function PositionOf(a: nat, modes: nat, iteration: nat): (p: nat)
    requires a < modes
    ensures p < modes
  {
    if iteration % 2 == 0 then a else modes - 1 - a
  }

  /** The first `n` slots of a round. */
  function RoundOf<M>(order: seq<M>, iteration: nat, case_: nat, n: nat): seq<Slot<M>>
    requires n <= |order|
  {
    seq(n, p requires 0 <= p < n => Slot(order[p], iteration, case_, p))
  }

  /** The slots of the first `n` rounds, the case of round `i` being `turn(i)`. */
  function Plan<M>(names: seq<M>, n: nat, turn: nat -> nat): seq<Slot<M>> {
    if n == 0 then [] else Plan(names, n - 1, turn) + RoundOf(OrderOf(names, n - 1), n - 1, turn(n - 1), |names|)
  }

  /** Cases take turns. */
  function Turn(cases: nat): nat -> nat
    requires cases > 0
  {
    (i: nat) => i % cases
  }

  /** Samples follow the slots, each with the wall time of its slot number. */
  ghost predicate Measures<M>(samples: seq<Timed<M>>, slots: seq<Slot<M>>, elapsed: nat -> real) {
    |samples| == |slots| && forall k :: 0 <= k < |samples| ==> samples[k] == Timed(slots[k], elapsed(k))
  }

  /** Where place `p` of round `i` comes. */
  ghost function PlaceOf(i: nat, modes: nat, p: nat): nat {
    i * modes + p
  }

  /** Round `i` measures case `i` modulo the cases, the modes forwards when `i` is even and backwards
      when it is odd. */
  ghost predicate AlternatingRounds<M>(samples: seq<Timed<M>>, names: seq<M>, cases: nat, iterations: nat,
                                       elapsed: nat -> real)
    requires cases > 0
  {
    && |samples| == iterations * |names|
    && forall i: nat, p: nat :: i < iterations && p < |names| ==>
         && PlaceOf(i, |names|, p) < |samples|
         && samples[PlaceOf(i, |names|, p)]
            == Timed(Slot(names[if i % 2 == 0 then p else |names| - 1 - p], i, i % cases, p),
                     elapsed(PlaceOf(i, |names|, p)))
  }

  lemma {:induction false} PlanAt<M>(names: seq<M>, n: nat, turn: nat -> nat, i: nat, p: nat)
    requires i < n && p < |names|
    ensures |Plan(names, n, turn)| == n * |names| && PlaceOf(i, |names|, p) < n * |names|
    ensures Plan(names, n, turn)[PlaceOf(i, |names|, p)]
            == Slot(names[if i % 2 == 0 then p else |names| - 1 - p], i, turn(i), p)
    decreases n
  {
    PlanLength(names, n - 1, turn);
    assert n * |names| == (n - 1) * |names| + |names|;
    if i < n - 1 {
      PlanAt(names, n - 1, turn, i, p);
    }
  }

  lemma {:induction false} PlanLength<M>(names: seq<M>, n: nat, turn: nat -> nat)
    ensures |Plan(names, n, turn)| == n * |names|
  {
    if n > 0 {
      PlanLength(names, n - 1, turn);
      assert n * |names| == (n - 1) * |names| + |names|;
    }
  }

  lemma RoundsPlainly<M>(samples: seq<Timed<M>>, names: seq<M>, cases: nat, iterations: nat, elapsed: nat -> real)
    requires cases > 0 && Measures(samples, Plan(names, iterations, Turn(cases)), elapsed)
    ensures AlternatingRounds(samples, names, cases, iterations, elapsed)
  {
    PlanLength(names, iterations, Turn(cases));
    forall i: nat, p: nat | i < iterations && p < |names|
      ensures PlaceOf(i, |names|, p) < |samples|
      ensures samples[PlaceOf(i, |names|, p)]
              == Timed(Slot(names[if i % 2 == 0 then p else |names| - 1 - p], i, i % cases, p),
                       elapsed(PlaceOf(i, |names|, p)))
    {
      PlanAt(names, iterations, Turn(cases), i, p);
    }
  }

  /** Measures every mode once per round; `elapsed(k)` is the wall time of slot `k`. */
  method BenchmarkPaired<M>(names: seq<M>, cases: int, warmup: int, iterations: int, elapsed: nat -> real)
    returns (r: Option<seq<Timed<M>>>)
    ensures r.Some? <==> |names| >= 2 && cases >= 1 && warmup >= 1 && iterations >= 1
    ensures r.Some? ==> Measures(r.value, Plan(names, iterations, Turn(cases)), elapsed)
    ensures r.Some? ==> AlternatingRounds(r.value, names, cases, iterations, elapsed)
  {
    r := MeasureRounds(names, cases, warmup, iterations, elapsed);
    if r.Some? {
      RoundsPlainly(r.value, names, cases, iterations, elapsed);
    }
  }

  method MeasureRounds<M>(names: seq<M>, cases: int, warmup: int, iterations: int, elapsed: nat -> real)
    returns (r: Option<seq<Timed<M>>>)
    ensures r.Some? <==> |names| >= 2 && cases >= 1 && warmup >= 1 && iterations >= 1
    ensures r.Some? ==> Measures(r.value, Plan(names, iterations, Turn(cases)), elapsed)
  {
    if |names| < 2 || cases < 1 || warmup < 1 || iterations < 1 {
      return None;
    }
    var samples: seq<Timed<M>>, turn := [], Turn(cases);
    for iteration := 0 to iterations
      invariant Measures(samples, Plan(names, iteration, turn), elapsed)
    {
      samples := RunRound(samples, OrderOf(names, iteration), iteration, turn(iteration), elapsed,
                          Plan(names, iteration, turn));
    }
    return Some(samples);
  }

  method RunRound<M>(before: seq<Timed<M>>, order: seq<M>, iteration: nat, case_: nat, elapsed: nat -> real,
                     ghost slots: seq<Slot<M>>)
    returns (samples: seq<Timed<M>>)
    requires Measures(before, slots, elapsed)
    ensures Measures(samples, slots + RoundOf(order, iteration, case_, |order|), elapsed)
  {
    samples := before;
    for p := 0 to |order|
      invariant Measures(samples, slots + RoundOf(order, iteration, case_, p), elapsed)
    {
      samples := samples + [Timed(Slot(order[p], iteration, case_, p), elapsed(|samples|))];
    }
  }

  // ---- what a schedule costs each mode ----

  /** The sum over a mode's slots among the first `n` of some per-slot quantity. */
  function Total<M(==)>(slots: seq<Slot<M>>, n: nat, mode: M, weight: nat -> real): real
    requires n <= |slots|
  {
    if n == 0 then 0.0 else Total(slots, n - 1, mode, weight) + if slots[n - 1].mode == mode then weight(n - 1) else 0.0
  }

  /** The cases a mode is measured on among the first `n` slots, in order. */
  function Cases<M(==)>(slots: seq<Slot<M>>, n: nat, mode: M): seq<nat>
    requires n <= |slots|
  {
    if n == 0 then [] else Cases(slots, n - 1, mode) + if slots[n - 1].mode == mode then [slots[n - 1].case_] else []
  }

  lemma {:induction false} Prefix<M>(slots: seq<Slot<M>>, longer: seq<Slot<M>>, n: nat, mode: M, weight: nat -> real)
    requires n <= |slots| <= |longer| && forall k :: 0 <= k < |slots| ==> longer[k] == slots[k]
    ensures Total(longer, n, mode, weight) == Total(slots, n, mode, weight)
            && Cases(longer, n, mode) == Cases(slots, n, mode)
  {
    if n > 0 {
      Prefix(slots, longer, n - 1, mode, weight);
    }
  }

  /** A stretch in which a mode comes only at slot `p` adds that slot. */
  lemma {:induction false} Stretch<M>(slots: seq<Slot<M>>, lo: nat, hi: nat, mode: M, weight: nat -> real, p: nat)
    requires lo <= hi <= |slots| && lo <= p && forall k :: lo <= k < hi ==> (slots[k].mode == mode <==> k == p)
    ensures Total(slots, hi, mode, weight) == Total(slots, lo, mode, weight) + if p < hi then weight(p) else 0.0
    ensures Cases(slots, hi, mode) == Cases(slots, lo, mode) + if p < hi then [slots[p].case_] else []
    decreases hi
  {
    if lo < hi {
      Stretch(slots, lo, hi - 1, mode, weight, p);
    }
  }

  lemma OrderAt<M>(names: seq<M>, a: nat, iteration: nat, p: nat)
    requires Distinct(names) && a < |names| && p < |names|
    ensures OrderOf(names, iteration)[p] == names[a] <==> p == PositionOf(a, |names|, iteration)
  {
  }

  /** The mode of slot `k` of the round that starts at `offset`. */
  ghost predicate RoundAt<M>(after: seq<Slot<M>>, offset: nat, mode: M, slot: nat, case_: nat) {
    forall k :: offset <= k < |after| ==> (after[k].mode == mode <==> k == slot) && after[k].case_ == case_
  }

  lemma RoundIs<M>(before: seq<Slot<M>>, order: seq<M>, iteration: nat, case_: nat, mode: M, p: nat)
    requires p < |order| && forall q :: 0 <= q < |order| ==> (order[q] == mode <==> q == p)
    ensures RoundAt(before + RoundOf(order, iteration, case_, |order|), |before|, mode, |before| + p, case_)
  {
    var after := before + RoundOf(order, iteration, case_, |order|);
    forall k | |before| <= k < |after|
      ensures (after[k].mode == mode <==> k == |before| + p) && after[k].case_ == case_
    {
      assert after[k] == RoundOf(order, iteration, case_, |order|)[k - |before|];
    }
  }

  lemma OneSlot<M>(before: seq<Slot<M>>, after: seq<Slot<M>>, mode: M, slot: nat, case_: nat, weight: nat -> real)
    requires before <= after && |before| <= slot < |after| && RoundAt(after, |before|, mode, slot, case_)
    ensures Total(after, |after|, mode, weight) == Total(before, |before|, mode, weight) + weight(slot)
    ensures Cases(after, |after|, mode) == Cases(before, |before|, mode) + [case_]
  {
    Stretch(after, |before|, |after|, mode, weight, slot);
    Prefix(before, after, |before|, mode, weight);
  }

  /** A round adds one slot of each mode: the one at its position. */
  lemma RoundAdds<M>(before: seq<Slot<M>>, after: seq<Slot<M>>, names: seq<M>, a: nat, iteration: nat, case_: nat,
                     weight: nat -> real, slot: nat)
    requires Distinct(names) && a < |names|
             && after == before + RoundOf(OrderOf(names, iteration), iteration, case_, |names|)
    requires slot == |before| + PositionOf(a, |names|, iteration)
    ensures Total(after, |after|, names[a], weight) == Total(before, |before|, names[a], weight) + weight(slot)
    ensures Cases(after, |after|, names[a]) == Cases(before, |before|, names[a]) + [case_]
  {
    var order := OrderOf(names, iteration);
    forall q | 0 <= q < |order| ensures order[q] == names[a] <==> q == PositionOf(a, |names|, iteration) {
      OrderAt(names, a, iteration, q);
    }
    RoundIs(before, order, iteration, case_, names[a], PositionOf(a, |names|, iteration));
    OneSlot(before, after, names[a], slot, case_, weight);
  }

  /** All of a plan's slots. */
  function PlanTotal<M(==)>(names: seq<M>, n: nat, turn: nat -> nat, mode: M, weight: nat -> real): real {
    Total(Plan(names, n, turn), |Plan(names, n, turn)|, mode, weight)
  }

  function PlanCases<M(==)>(names: seq<M>, n: nat, turn: nat -> nat, mode: M): seq<nat> {
    Cases(Plan(names, n, turn), |Plan(names, n, turn)|, mode)
  }

  lemma PlanNext<M>(names: seq<M>, n: nat, turn: nat -> nat)
    ensures Plan(names, n + 1, turn) == Plan(names, n, turn) + RoundOf(OrderOf(names, n), n, turn(n), |names|)
  {
  }

  lemma PlanAdds<M>(names: seq<M>, n: nat, turn: nat -> nat, a: nat, weight: nat -> real, slot: nat)
    requires Distinct(names) && a < |names| && slot == |Plan(names, n, turn)| + PositionOf(a, |names|, n)
    ensures PlanTotal(names, n + 1, turn, names[a], weight)
            == PlanTotal(names, n, turn, names[a], weight) + weight(slot)
    ensures PlanCases(names, n + 1, turn, names[a]) == PlanCases(names, n, turn, names[a]) + [turn(n)]
  {
    PlanNext(names, n, turn);
    RoundAdds(Plan(names, n, turn), Plan(names, n + 1, turn), names, a, n, turn(n), weight, slot);
  }

  ghost predicate TakesTurnAt(list: nat -> seq<nat>, turn: nat -> nat, k: nat) {
    list(k + 1) == list(k) + [turn(k)]
  }

  lemma {:induction false} TurnsTaken(list: nat -> seq<nat>, turn: nat -> nat, n: nat)
    requires list(0) == [] && forall k: nat :: TakesTurnAt(list, turn, k)
    ensures |list(n)| == n && forall i :: 0 <= i < n ==> list(n)[i] == turn(i)
  {
    if n > 0 {
      TurnsTaken(list, turn, n - 1);
      assert TakesTurnAt(list, turn, n - 1);
    }
  }

  function CasesOf<M(==)>(names: seq<M>, turn: nat -> nat, mode: M): nat -> seq<nat> {
    (k: nat) => PlanCases(names, k, turn, mode)
  }

  /** Every mode is measured on the same cases in the same order. */
  lemma SameCases<M>(names: seq<M>, n: nat, turn: nat -> nat, a: nat)
    requires Distinct(names) && a < |names|
    ensures var cases := CasesOf(names, turn, names[a])(n);
            |cases| == n && forall i :: 0 <= i < n ==> cases[i] == turn(i)
  {
    forall k: nat ensures TakesTurnAt(CasesOf(names, turn, names[a]), turn, k) {
      PlanAdds(names, k, turn, a, k => 0.0, |Plan(names, k, turn)| + PositionOf(a, |names|, k));
    }
    TurnsTaken(CasesOf(names, turn, names[a]), turn, n);
  }

  /** Slot `k` costs `start + slope * k`. */
  ghost predicate Linear(drift: nat -> real, start: real, slope: real) {
    forall k: nat :: drift(k) == start + slope * k as real
  }

  /** `total` grows in round `k` by the drift of one slot: the one at the mode's position. */
  ghost predicate GrowsAt(total: nat -> real, drift: nat -> real, offset: nat -> nat, a: nat, modes: nat, k: nat)
    requires a < modes
  {
    total(k + 1) == total(k) + drift(offset(k) + PositionOf(a, modes, k))
  }

  ghost predicate GrowsBy(total: nat -> real, drift: nat -> real, offset: nat -> nat, a: nat, modes: nat)
    requires a < modes
  {
    total(0) == 0.0 && forall k: nat :: GrowsAt(total, drift, offset, a, modes, k)
  }

  function TotalsOf<M(==)>(names: seq<M>, turn: nat -> nat, mode: M, drift: nat -> real): nat -> real {
    (k: nat) => PlanTotal(names, k, turn, mode, drift)
  }

  function OffsetsOf<M>(names: seq<M>, turn: nat -> nat): nat -> nat {
    (k: nat) => |Plan(names, k, turn)|
  }

  lemma PlanGrows<M>(names: seq<M>, turn: nat -> nat, a: nat, drift: nat -> real)
    requires Distinct(names) && a < |names|
    ensures GrowsBy(TotalsOf(names, turn, names[a], drift), drift, OffsetsOf(names, turn), a, |names|)
  {
    forall k: nat
      ensures GrowsAt(TotalsOf(names, turn, names[a], drift), drift, OffsetsOf(names, turn), a, |names|, k)
    {
      PlanGrowsAt(names, turn, a, drift, k);
    }
  }

  lemma PlanGrowsAt<M>(names: seq<M>, turn: nat -> nat, a: nat, drift: nat -> real, k: nat)
    requires Distinct(names) && a < |names|
    ensures GrowsAt(TotalsOf(names, turn, names[a], drift), drift, OffsetsOf(names, turn), a, |names|, k)
  {
    TotalsAre(names, turn, names[a], drift, k);
    TotalsAre(names, turn, names[a], drift, k + 1);
    PlanAdds(names, k, turn, a, drift, OffsetsOf(names, turn)(k) + PositionOf(a, |names|, k));
  }

  lemma TotalsAre<M>(names: seq<M>, turn: nat -> nat, mode: M, drift: nat -> real, k: nat)
    ensures TotalsOf(names, turn, mode, drift)(k) == PlanTotal(names, k, turn, mode, drift)
    ensures OffsetsOf(names, turn)(k) == |Plan(names, k, turn)|
  {
  }

  lemma {:induction false} GrowthDifference(f: nat -> real, g: nat -> real, drift: nat -> real, offset: nat -> nat,
                                            a: nat, b: nat, modes: nat,
                                            n: nat, start: real, slope: real, gap: real)
    requires a < modes && b < modes && Linear(drift, start, slope) && gap == slope * (a - b) as real
    requires GrowsBy(f, drift, offset, a, modes) && GrowsBy(g, drift, offset, b, modes)
    ensures f(n) - g(n) == if n % 2 == 0 then 0.0 else gap
  {
    if n > 0 {
      var k := n - 1;
      GrowthDifference(f, g, drift, offset, a, b, modes, k, start, slope, gap);
      RoundDrift(drift, start, slope, offset(k) + PositionOf(a, modes, k), offset(k) + PositionOf(b, modes, k));
      RoundGap(slope, a, b, modes, k, offset(k), gap);
      assert GrowsAt(f, drift, offset, a, modes, k) && GrowsAt(g, drift, offset, b, modes, k);
    }
  }

  /** Between two modes, a linear drift is off by nothing after an even number of rounds and by one
      round's distance after an odd number. */
  lemma DriftDifference<M>(names: seq<M>, n: nat, turn: nat -> nat, a: nat, b: nat, drift: nat -> real, start: real,
                           slope: real)
    requires Distinct(names) && a < |names| && b < |names| && Linear(drift, start, slope)
    ensures TotalsOf(names, turn, names[a], drift)(n) - TotalsOf(names, turn, names[b], drift)(n)
            == if n % 2 == 0 then 0.0 else slope * (a - b) as real
  {
    PlanGrows(names, turn, a, drift);
    PlanGrows(names, turn, b, drift);
    GrowthDifference(TotalsOf(names, turn, names[a], drift), TotalsOf(names, turn, names[b], drift), drift,
                     OffsetsOf(names, turn), a, b, |names|,
                     n, start, slope, slope * (a - b) as real);
  }

  lemma RoundDrift(drift: nat -> real, start: real, slope: real, x: nat, y: nat)
    requires Linear(drift, start, slope)
    ensures drift(x) - drift(y) == slope * (x - y) as real
  {
    assert (x - y) as real == x as real - y as real;
  }

  /** What one round adds to the difference: forwards in even rounds, backwards in odd ones. */
  lemma RoundGap(slope: real, a: nat, b: nat, modes: nat, iteration: nat, offset: nat, gap: real)
    requires a < modes && b < modes && gap == slope * (a - b) as real
    ensures slope * ((offset + PositionOf(a, modes, iteration)) - (offset + PositionOf(b, modes, iteration))) as real
            == if iteration % 2 == 0 then gap else -gap
  {
    var step := (offset + PositionOf(a, modes, iteration)) - (offset + PositionOf(b, modes, iteration));
    assert step as real == if iteration % 2 == 0 then (a - b) as real else -((a - b) as real);
  }

  ghost predicate Balanced<M>(names: seq<M>, n: nat, turn: nat -> nat, drift: nat -> real) {
    forall a, b :: 0 <= a < |names| && 0 <= b < |names| ==>
      TotalsOf(names, turn, names[a], drift)(n) == TotalsOf(names, turn, names[b], drift)(n)
  }

  /** A genuine linear drift adds the same to every mode exactly when the number of rounds is even. */
  lemma DriftFairIff<M>(names: seq<M>, n: nat, turn: nat -> nat, drift: nat -> real, start: real, slope: real)
    requires Distinct(names) && |names| >= 2 && Linear(drift, start, slope) && slope != 0.0
    ensures Balanced(names, n, turn, drift) <==> n % 2 == 0
  {
    if n % 2 == 0 {
      forall a, b | 0 <= a < |names| && 0 <= b < |names|
        ensures TotalsOf(names, turn, names[a], drift)(n) == TotalsOf(names, turn, names[b], drift)(n)
      {
        DriftDifference(names, n, turn, a, b, drift, start, slope);
      }
    } else {
      DriftDifference(names, n, turn, 1, 0, drift, start, slope);
      assert slope * (1 - 0) as real == slope;
    }
  }

  // ---- ABBA and BAAB ----

  const PLAIN := "none"
  const CACHED := "rgb_bytes"

  function AbbaOrder(iteration: nat): seq<string> {
    if iteration % 2 == 0 then [PLAIN, CACHED, CACHED, PLAIN] else [CACHED, PLAIN, PLAIN, CACHED]
  }

  /** The modes of the sessions of `n` iterations, four to each. */
  ghost predicate AbbaModes(modes: seq<string>, n: nat) {
    && |modes| == 4 * n
    && forall i, slot :: 0 <= i < n && 0 <= slot < 4 ==> modes[4 * i + slot] == AbbaOrder(i)[slot]
  }

  lemma ModeAt(modes: seq<string>, n: nat, k: nat)
    requires AbbaModes(modes, n) && k < |modes|
    ensures modes[k] == if k % 8 in {0, 3, 5, 6} then "none" else "rgb_bytes"
  {
    var i, slot := k / 4, k % 4;
    assert modes[4 * i + slot] == AbbaOrder(i)[slot];
  }

  /** The modes of all sessions, in order. */
  method AbbaSchedule(iterations: nat) returns (modes: seq<string>)
    ensures AbbaModes(modes, iterations)
    ensures forall k :: 0 <= k < |modes| ==> modes[k] == if k % 8 in {0, 3, 5, 6} then "none" else "rgb_bytes"
  {
    modes := [];
    for i := 0 to iterations
      invariant |modes| == 4 * i
      invariant forall j, slot :: 0 <= j < i && 0 <= slot < 4 ==> modes[4 * j + slot] == AbbaOrder(j)[slot]
    {
      modes := modes + AbbaOrder(i);
    }
    forall k | 0 <= k < |modes| ensures modes[k] == if k % 8 in {0, 3, 5, 6} then "none" else "rgb_bytes" {
      ModeAt(modes, iterations, k);
    }
  }

  function SlotCost(mode: string, iteration: nat, slot: nat, drift: nat -> real): real
    requires slot < 4
  {
    if AbbaOrder(iteration)[slot] == mode then drift(4 * iteration + slot) else 0.0
  }

  /** What a per-slot drift adds to a mode in the first `n` iterations. */
  function AbbaTotal(mode: string, n: nat, drift: nat -> real): real {
    if n == 0 then 0.0
    else
      AbbaTotal(mode, n - 1, drift) + SlotCost(mode, n - 1, 0, drift) + SlotCost(mode, n - 1, 1, drift)
      + SlotCost(mode, n - 1, 2, drift) + SlotCost(mode, n - 1, 3, drift)
  }

  /** What a per-slot drift adds to the sessions of a mode among the first `n` of a list. */
  function ModeTotal(modes: seq<string>, n: nat, mode: string, drift: nat -> real): real
    requires n <= |modes|
  {
    if n == 0 then 0.0 else ModeTotal(modes, n - 1, mode, drift) + if modes[n - 1] == mode then drift(n - 1) else 0.0
  }

  /** The four sessions of an iteration have the modes of its order. */
  lemma FourModes(modes: seq<string>, n: nat, i: nat)
    requires AbbaModes(modes, n) && i < n
    ensures 4 * i + 4 <= |modes| && modes[4 * i] == AbbaOrder(i)[0] && modes[4 * i + 1] == AbbaOrder(i)[1]
    ensures modes[4 * i + 2] == AbbaOrder(i)[2] && modes[4 * i + 3] == AbbaOrder(i)[3]
  {
    assert modes[4 * i + 0] == AbbaOrder(i)[0];
  }

  lemma FourSessions(modes: seq<string>, n: nat, i: nat, mode: string, drift: nat -> real)
    requires AbbaModes(modes, n) && i < n
    ensures 4 * i + 4 <= |modes|
    ensures ModeTotal(modes, 4 * i + 4, mode, drift) == ModeTotal(modes, 4 * i, mode, drift)
            + SlotCost(mode, i, 0, drift) + SlotCost(mode, i, 1, drift)
            + SlotCost(mode, i, 2, drift) + SlotCost(mode, i, 3, drift)
  {
    FourModes(modes, n, i);
    var k := 4 * i;
    assert ModeTotal(modes, k + 1, mode, drift) == ModeTotal(modes, k, mode, drift) + SlotCost(mode, i, 0, drift);
    assert ModeTotal(modes, k + 2, mode, drift) == ModeTotal(modes, k + 1, mode, drift) + SlotCost(mode, i, 1, drift);
    assert ModeTotal(modes, k + 3, mode, drift) == ModeTotal(modes, k + 2, mode, drift) + SlotCost(mode, i, 2, drift);
    assert ModeTotal(modes, k + 4, mode, drift) == ModeTotal(modes, k + 3, mode, drift) + SlotCost(mode, i, 3, drift);
  }

  /** Iteration by iteration a mode's total is the one of its own sessions in the list. */
  lemma {:induction false} SessionsTotal(modes: seq<string>, iterations: nat, n: nat, mode: string, drift: nat -> real)
    requires AbbaModes(modes, iterations) && n <= iterations
    ensures ModeTotal(modes, 4 * n, mode, drift) == AbbaTotal(mode, n, drift)
  {
    if n > 0 {
      SessionsTotal(modes, iterations, n - 1, mode, drift);
      FourSessions(modes, iterations, n - 1, mode, drift);
    }
  }

  ghost predicate Quadratic(drift: nat -> real, start: real, slope: real, bend: real) {
    forall k: nat :: drift(k) == start + slope * k as real + bend * (k * k) as real
  }

  /** The plain mode takes the outer pair of slots in even iterations and the inner pair in odd ones. */
  lemma AbbaPairs(i: nat, drift: nat -> real, outer: real, inner: real)
    requires outer == drift(4 * i) + drift(4 * i + 3) && inner == drift(4 * i + 1) + drift(4 * i + 2)
    ensures AbbaTotal(PLAIN, i + 1, drift) == AbbaTotal(PLAIN, i, drift) + if i % 2 == 0 then outer else inner
    ensures AbbaTotal(CACHED, i + 1, drift) == AbbaTotal(CACHED, i, drift) + if i % 2 == 0 then inner else outer
  {
    assert PLAIN[0] != CACHED[0];
  }

  /** One iteration's outer slots cost four bends more than its inner ones, and a straight line
      costs both alike. */
  lemma OuterInner(drift: nat -> real, start: real, slope: real, bend: real, k: nat)
    requires Quadratic(drift, start, slope, bend)
    ensures (drift(k) + drift(k + 3)) - (drift(k + 1) + drift(k + 2)) == 4.0 * bend
  {
    var x := k as real;
    assert ((k + 1) * (k + 1)) as real == x * x + 2.0 * x + 1.0;
    assert ((k + 2) * (k + 2)) as real == x * x + 4.0 * x + 4.0;
    assert ((k + 3) * (k + 3)) as real == x * x + 6.0 * x + 9.0;
  }

  function AbbaTotals(mode: string, drift: nat -> real): nat -> real {
    (k: nat) => AbbaTotal(mode, k, drift)
  }

  /** In iteration `i` one total grows by the outer pair of slots and the other by the inner pair. */
  ghost predicate AbbaGrowsAt(plain: nat -> real, cached: nat -> real, drift: nat -> real, i: nat) {
    var outer, inner := drift(4 * i) + drift(4 * i + 3), drift(4 * i + 1) + drift(4 * i + 2);
    && plain(i + 1) == plain(i) + (if i % 2 == 0 then outer else inner)
    && cached(i + 1) == cached(i) + (if i % 2 == 0 then inner else outer)
  }

  lemma AbbaGrows(drift: nat -> real, i: nat)
    ensures AbbaGrowsAt(AbbaTotals(PLAIN, drift), AbbaTotals(CACHED, drift), drift, i)
  {
    AbbaPairs(i, drift, drift(4 * i) + drift(4 * i + 3), drift(4 * i + 1) + drift(4 * i + 2));
  }

  lemma {:induction false} AbbaGrowth(plain: nat -> real, cached: nat -> real, n: nat, drift: nat -> real, start: real,
                                      slope: real, bend: real)
    requires Quadratic(drift, start, slope, bend)
    requires plain(0) == cached(0) && forall i: nat :: AbbaGrowsAt(plain, cached, drift, i)
    ensures plain(n) - cached(n) == if n % 2 == 0 then 0.0 else 4.0 * bend
  {
    if n > 0 {
      AbbaGrowth(plain, cached, n - 1, drift, start, slope, bend);
      OuterInner(drift, start, slope, bend, 4 * (n - 1));
      assert AbbaGrowsAt(plain, cached, drift, n - 1);
    }
  }

  lemma AbbaDifference(n: nat, drift: nat -> real, start: real, slope: real, bend: real)
    requires Quadratic(drift, start, slope, bend)
    ensures AbbaTotals(PLAIN, drift)(n) - AbbaTotals(CACHED, drift)(n) == if n % 2 == 0 then 0.0 else 4.0 * bend
  {
    forall i: nat ensures AbbaGrowsAt(AbbaTotals(PLAIN, drift), AbbaTotals(CACHED, drift), drift, i) {
      AbbaGrows(drift, i);
    }
    AbbaGrowth(AbbaTotals(PLAIN, drift), AbbaTotals(CACHED, drift), n, drift, start, slope, bend);
  }

  /** ABBA then BAAB balances a linear drift in each iteration, and a bent one over pairs of them:
      exactly when the bend vanishes or the iterations are even in number. */
  lemma AbbaFairIff(modes: seq<string>, n: nat, drift: nat -> real, start: real, slope: real, bend: real)
    requires AbbaModes(modes, n) && Quadratic(drift, start, slope, bend)
    ensures ModeTotal(modes, |modes|, PLAIN, drift) == ModeTotal(modes, |modes|, CACHED, drift) <==>
            bend == 0.0 || n % 2 == 0
  {
    AbbaDifference(n, drift, start, slope, bend);
    SessionsTotal(modes, n, n, PLAIN, drift);
    SessionsTotal(modes, n, n, CACHED, drift);
  }

  // ---- round-robin requests ----

  datatype Sample = Sample(iteration: nat, case_: nat, wall: real)

  /** Iteration `i` measured the case whose turn it was. */
  ghost predicate Requested(samples: seq<Sample>, cases: nat, elapsed: nat -> real)
    requires cases > 0
  {
    forall i :: 0 <= i < |samples| ==> samples[i] == Sample(i, i % cases, elapsed(i))
  }

  /** The wall times of a case among the first `n` samples, in order. */
  function WallsOf(samples: seq<Sample>, n: nat, case_: nat): seq<real>
    requires n <= |samples|
  {
    if n == 0 then []
    else WallsOf(samples, n - 1, case_) + if samples[n - 1].case_ == case_ then [samples[n - 1].wall] else []
  }

  /** The samples are those of iterations `case_`, `case_ + cases`, `case_ + 2 * cases` and so on. */
  ghost predicate EveryTurn(walls: seq<real>, case_: nat, cases: nat, elapsed: nat -> real) {
    forall j: nat :: j < |walls| ==> walls[j] == elapsed(j * cases + case_)
  }

  lemma Remainder(q: nat, r: nat, cases: nat)
    requires r < cases
    ensures (q * cases + r) % cases == r && (q * cases + r) / cases == q
  {
    Quantiles.DivExact(q, cases, r);
    assert cases * q + r == q * cases + r;
  }

  lemma WallsNext(samples: seq<Sample>, cases: nat, elapsed: nat -> real, case_: nat, n: nat, q: nat, r: nat)
    requires cases > 0 && Requested(samples, cases, elapsed) && r < cases && n == q * cases + r < |samples|
    ensures WallsOf(samples, n + 1, case_)
            == WallsOf(samples, n, case_) + if r == case_ then [elapsed(q * cases + case_)] else []
  {
    Remainder(q, r, cases);
  }

  /** After `q` whole turns and `r` more cases, the first `r` cases are one sample ahead. */
  lemma {:induction false} WallsAre(samples: seq<Sample>, cases: nat, elapsed: nat -> real, case_: nat, n: nat, q: nat,
                                    r: nat)
    requires case_ < cases && r <= cases && Requested(samples, cases, elapsed) && n == q * cases + r <= |samples|
    ensures |WallsOf(samples, n, case_)| == q + if case_ < r then 1 else 0
    ensures EveryTurn(WallsOf(samples, n, case_), case_, cases, elapsed)
    decreases q, r
  {
    if r > 0 {
      WallsAre(samples, cases, elapsed, case_, n - 1, q, r - 1);
      WallsNext(samples, cases, elapsed, case_, n - 1, q, r - 1);
    } else if q > 0 {
      assert (q - 1) * cases + cases == q * cases;
      WallsAre(samples, cases, elapsed, case_, n, q - 1, cases);
    }
  }

  /** The samples of each summarised case: all its turns, no case more than one sample ahead of
      another, none without a sample, and no sample left out. */
  ghost predicate Summarised(perCase: seq<seq<real>>, cases: nat, iterations: nat, elapsed: nat -> real)
    requires cases > 0
  {
    && |perCase| == (if cases < iterations then cases else iterations)
    && (forall c :: 0 <= c < |perCase| ==> EveryTurn(perCase[c], c, cases, elapsed) && perCase[c] != [])
    && (forall a, b :: 0 <= a < |perCase| && 0 <= b < |perCase| ==> |perCase[a]| <= |perCase[b]| + 1)
    && (forall i :: 0 <= i < iterations ==> i % cases < |perCase| && i / cases < |perCase[i % cases]|)
  }

  /** `q` whole turns over the cases and `r` more cases. */
  ghost predicate Counted(perCase: seq<seq<real>>, cases: nat, n: nat, q: nat, r: nat) {
    && 1 <= n == q * cases + r && r < cases && |perCase| == (if cases < n then cases else n)
    && forall c :: 0 <= c < |perCase| ==> |perCase[c]| == q + if c < r then 1 else 0
  }

  lemma NoneEmpty(perCase: seq<seq<real>>, cases: nat, n: nat, q: nat, r: nat)
    requires Counted(perCase, cases, n, q, r)
    ensures forall c :: 0 <= c < |perCase| ==> perCase[c] != []
  {
    if q == 0 {
      assert q * cases == 0;
    }
  }

  lemma NoneLeftOut(perCase: seq<seq<real>>, cases: nat, n: nat, i: nat)
    requires cases > 0 && Counted(perCase, cases, n, n / cases, n % cases) && i < n
    ensures i % cases < |perCase| && i / cases < |perCase[i % cases]|
  {
    TurnBefore(i, n, cases);
  }

  lemma SummaryCounts(perCase: seq<seq<real>>, samples: seq<Sample>, cases: nat, elapsed: nat -> real, n: nat, q: nat,
                      r: nat)
    requires cases > 0 && samples != [] && Requested(samples, cases, elapsed) && r < cases
             && |samples| == n == q * cases + r
    requires |perCase| == (if cases < n then cases else n)
    requires forall c :: 0 <= c < |perCase| ==> perCase[c] == WallsOf(samples, n, c)
    ensures Counted(perCase, cases, n, q, r)
            && forall c :: 0 <= c < |perCase| ==> EveryTurn(perCase[c], c, cases, elapsed)
  {
    forall c | 0 <= c < |perCase|
      ensures EveryTurn(perCase[c], c, cases, elapsed) && |perCase[c]| == q + if c < r then 1 else 0
    {
      WallsAre(samples, cases, elapsed, c, n, q, r);
    }
  }

  lemma DivMod(n: nat, cases: nat)
    requires cases > 0
    ensures n == (n / cases) * cases + n % cases
  {
  }

  lemma SummaryIs(perCase: seq<seq<real>>, samples: seq<Sample>, cases: nat, elapsed: nat -> real, n: nat)
    requires cases > 0 && samples != [] && Requested(samples, cases, elapsed) && n == |samples|
    requires |perCase| == (if cases < n then cases else n)
    requires forall c :: 0 <= c < |perCase| ==> perCase[c] == WallsOf(samples, n, c)
    ensures Summarised(perCase, cases, n, elapsed)
  {
    DivMod(n, cases);
    SummaryCounts(perCase, samples, cases, elapsed, n, n / cases, n % cases);
    NoneEmpty(perCase, cases, n, n / cases, n % cases);
    forall i | 0 <= i < n ensures i % cases < |perCase| && i / cases < |perCase[i % cases]| {
      NoneLeftOut(perCase, cases, n, i);
    }
  }

  lemma TurnBefore(i: nat, n: nat, cases: nat)
    requires cases > 0 && i < n
    ensures i % cases <= i && i / cases < n / cases + if i % cases < n % cases then 1 else 0
  {
    var a, b := i / cases, n / cases;
    if a > b {
      MulOrder(b + 1, a, cases);
    } else if a == b {
      assert i % cases == i - a * cases && n % cases == n - b * cases;
    }
  }

  lemma MulOrder(x: nat, y: nat, c: nat)
    requires x <= y
    ensures x * c <= y * c
  {
  }

  /** The wall times of one case, in order. */
  method SummariseCase(samples: seq<Sample>, case_: nat) returns (walls: seq<real>)
    ensures walls == WallsOf(samples, |samples|, case_)
  {
    walls := [];
    for i := 0 to |samples|
      invariant walls == WallsOf(samples, i, case_)
    {
      if samples[i].case_ == case_ {
        walls := walls + [samples[i].wall];
      }
    }
  }

  /** Times requests over the cases in turn and groups the samples by case; `elapsed(i)` is the
      wall time of iteration `i`. */
  method BenchmarkRequests(cases: int, warmup: int, iterations: int, elapsed: nat -> real)
    returns (r: Option<seq<seq<real>>>)
    ensures r.Some? <==> cases >= 1 && warmup >= 1 && iterations >= 1
    ensures r.Some? ==> Summarised(r.value, cases, iterations, elapsed)
  {
    if cases < 1 || warmup < 1 || iterations < 1 {
      return None;
    }
    var samples: seq<Sample> := [];
    for i := 0 to iterations
      invariant |samples| == i && Requested(samples, cases, elapsed)
    {
      samples := samples + [Sample(i, i % cases, elapsed(i))];
    }
    var perCase: seq<seq<real>> := [];
    var summarised := if cases < iterations then cases else iterations;
    for c := 0 to summarised
      invariant |perCase| == c && forall k :: 0 <= k < c ==> perCase[k] == WallsOf(samples, |samples|, k)
    {
      var walls := SummariseCase(samples, c);
      perCase := perCase + [walls];
    }
    SummaryIs(perCase, samples, cases, elapsed, iterations);
    return Some(perCase);
  }
}
