/** What the slot-refill schedule guarantees for every list of episode lengths. */
module RefillTheorems {
  import opened Refill

  // ---- coverage ----

  /** The steps at which episode `e` appears in one batch. */
  function StepsIn(batch: seq<Slot>, e: nat): seq<nat> {
    if batch == [] then [] else
      (if batch[0].ep == e then [batch[0].step] else []) + StepsIn(batch[1..], e)
  }

  /** The steps at which episode `e` is replayed, in replay order. */
  function Steps(batches: seq<seq<Slot>>, e: nat): seq<nat> {
    if batches == [] then [] else StepsIn(batches[0], e) + Steps(batches[1..], e)
  }

  function From(s: nat, len: nat): seq<nat>
    requires s <= len
  {
    seq(len - s, i requires 0 <= i => s + i)
  }

  function Total(batches: seq<seq<Slot>>): nat {
    if batches == [] then 0 else |batches[0]| + Total(batches[1..])
  }

  lemma {:induction false} StepsInAppend(xs: seq<Slot>, y: Slot, e: nat)
    ensures StepsIn(xs + [y], e) == StepsIn(xs, e) + if y.ep == e then [y.step] else []
  {
    if xs != [] {
      StepsInAppend(xs[1..], y, e);
      assert (xs + [y])[1..] == xs[1..] + [y];
    }
  }

  lemma StepsInBelow(active: seq<Slot>, e: nat)
    requires forall i :: 0 <= i < |active| ==> active[i].ep != e
    ensures StepsIn(active, e) == []
  {
  }

  lemma {:induction false} StepsInUnique(active: seq<Slot>, next: nat, lens: seq<nat>, e: nat)
    requires Valid(active, next, lens)
    ensures |StepsIn(active, e)| <= 1
    ensures StepsIn(active, e) != [] ==> e < next && e < |lens| && StepsIn(active, e)[0] < lens[e]
  {
    if active != [] {
      assert Unfinished(active[0], next, lens);
      if active[0].ep == e {
        StepsInBelow(active[1..], e);
      } else {
        StepsInUnique(active[1..], next, lens, e);
      }
    }
  }

  lemma {:induction false} RefillSteps(active: seq<Slot>, next: nat, lens: seq<nat>, b: nat, e: nat)
    requires Valid(active, next, lens) && Positive(lens)
    ensures StepsIn(Refilled(active, next, |lens|, b), e)
         == StepsIn(active, e) + if next <= e < NextAfter(active, next, |lens|, b) then [0] else []
    decreases |lens| - next
  {
    if |active| < b && next < |lens| {
      RefillOnce(active, next, lens);
      RefillSteps(active + [Slot(next, 0)], next + 1, lens, b, e);
      RefillFacts(active + [Slot(next, 0)], next + 1, lens, b);
      StepsInAppend(active, Slot(next, 0), e);
    }
  }

  /** The steps that survive one batch: each moves on, the last frame leaves. */
  function Bumped(steps: seq<nat>, len: nat): seq<nat> {
    if steps == [] then [] else (if steps[0] + 1 < len then [steps[0] + 1] else []) + Bumped(steps[1..], len)
  }

  lemma StepsInCons(s: Slot, rest: seq<Slot>, e: nat)
    ensures StepsIn([s] + rest, e) == (if s.ep == e then [s.step] else []) + StepsIn(rest, e)
  {
    assert ([s] + rest)[1..] == rest;
  }

  lemma BumpedCons(s: nat, rest: seq<nat>, len: nat)
    ensures Bumped([s] + rest, len) == (if s + 1 < len then [s + 1] else []) + Bumped(rest, len)
  {
    assert ([s] + rest)[1..] == rest;
  }

  lemma {:induction false} AdvanceSteps(batch: seq<Slot>, next: nat, lens: seq<nat>, e: nat)
    requires Valid(batch, next, lens) && e < |lens|
    ensures StepsIn(Advanced(batch, lens), e) == Bumped(StepsIn(batch, e), lens[e])
  {
    if batch != [] {
      var s, tail := batch[0], batch[1..];
      AdvanceCons(batch, next, lens);
      AdvanceSteps(tail, next, lens, e);
      StepsInCons(Slot(s.ep, s.step + 1), Advanced(tail, lens), e);
      if s.ep == e {
        BumpedCons(s.step, StepsIn(tail, e), lens[e]);
      } else {
        assert StepsIn(batch, e) == StepsIn(tail, e);
      }
    }
  }

  function Rest(steps: seq<nat>, len: nat): seq<nat>
    requires steps != [] ==> steps[0] < len
  {
    if steps == [] then [] else From(steps[0], len)
  }

  /** What is left to replay of episode `e`, from a state. */
  function Remaining(active: seq<Slot>, next: nat, lens: seq<nat>, e: nat): seq<nat>
    requires Valid(active, next, lens) && e < |lens|
  {
    StepsInUnique(active, next, lens, e);
    if e >= next then From(0, lens[e]) else Rest(StepsIn(active, e), lens[e])
  }

  lemma RestBumped(steps: seq<nat>, len: nat)
    requires |steps| <= 1 && (steps != [] ==> steps[0] < len)
    ensures Bumped(steps, len) != [] ==> Bumped(steps, len)[0] < len
    ensures Rest(steps, len) == steps + Rest(Bumped(steps, len), len)
  {
    if steps != [] {
      assert Bumped(steps[1..], len) == [];
      assert From(steps[0], len) == [steps[0]] + From(steps[0] + 1, len);
    }
  }

  lemma RemainingRefilled(active: seq<Slot>, next: nat, lens: seq<nat>, b: nat, e: nat)
    requires Valid(active, next, lens) && Positive(lens) && e < |lens|
    ensures var batch, next' := Refilled(active, next, |lens|, b), NextAfter(active, next, |lens|, b);
            Valid(batch, next', lens) && Remaining(batch, next', lens, e) == Remaining(active, next, lens, e)
  {
    RefillFacts(active, next, lens, b);
    RefillSteps(active, next, lens, b, e);
    StepsInUnique(active, next, lens, e);
  }

  lemma RemainingAdvanced(batch: seq<Slot>, next: nat, lens: seq<nat>, e: nat)
    requires Valid(batch, next, lens) && Valid(Advanced(batch, lens), next, lens) && e < |lens|
    ensures Remaining(batch, next, lens, e) == StepsIn(batch, e) + Remaining(Advanced(batch, lens), next, lens, e)
  {
    AdvanceSteps(batch, next, lens, e);
    StepsInUnique(batch, next, lens, e);
    RestBumped(StepsIn(batch, e), lens[e]);
  }

  lemma {:induction false} CoverageFrom(active: seq<Slot>, next: nat, lens: seq<nat>, b: nat, e: nat)
    requires Valid(active, next, lens) && Positive(lens) && 1 <= b && e < |lens|
    ensures Steps(Batches(active, next, lens, b), e) == Remaining(active, next, lens, e)
    decreases Work(active, next, lens)
  {
    var batch, next' := Refilled(active, next, |lens|, b), NextAfter(active, next, |lens|, b);
    RefillFacts(active, next, lens, b);
    RemainingRefilled(active, next, lens, b, e);
    if batch != [] {
      AdvanceFacts(batch, next', lens);
      RemainingAdvanced(batch, next', lens, e);
      CoverageFrom(Advanced(batch, lens), next', lens, b, e);
      var rest := Batches(Advanced(batch, lens), next', lens, b);
      assert ([batch] + rest)[1..] == rest;
    }
  }

  /** Every frame of every episode is replayed exactly once, in frame order. */
  lemma Coverage(lens: seq<nat>, b: nat, e: nat)
    requires Positive(lens) && 1 <= b && e < |lens|
    ensures Steps(Schedule(lens, b), e) == From(0, lens[e])
  {
    CoverageFrom([], 0, lens, b, e);
  }

  lemma {:induction false} TotalFrom(active: seq<Slot>, next: nat, lens: seq<nat>, b: nat)
    requires Valid(active, next, lens) && Positive(lens) && |active| <= b && 1 <= b
    ensures Total(Batches(active, next, lens, b)) == Work(active, next, lens)
    ensures forall k :: 0 <= k < |Batches(active, next, lens, b)| ==>
              1 <= |Batches(active, next, lens, b)[k]| <= b
    decreases Work(active, next, lens)
  {
    var batch, next' := Refilled(active, next, |lens|, b), NextAfter(active, next, |lens|, b);
    RefillFacts(active, next, lens, b);
    if batch != [] {
      AdvanceFacts(batch, next', lens);
      TotalFrom(Advanced(batch, lens), next', lens, b);
      var rest := Batches(Advanced(batch, lens), next', lens, b);
      assert ([batch] + rest)[1..] == rest;
    } else {
      assert lens[next..] == [];
    }
  }

  /** The replay forms exactly the expected number of rows, in batches of 1 to `b`. */
  lemma Conservation(lens: seq<nat>, b: nat)
    requires Positive(lens) && 1 <= b
    ensures Total(Schedule(lens, b)) == Sum(lens)
    ensures forall k :: 0 <= k < |Schedule(lens, b)| ==> 1 <= |Schedule(lens, b)[k]| <= b
  {
    TotalFrom([], 0, lens, b);
    assert lens[0..] == lens;
  }

  // ---- full batches while an episode is pending ----

  lemma {:induction false} NoStartsLeft(active: seq<Slot>, lens: seq<nat>, b: nat, j: nat, s: Slot)
    requires Valid(active, |lens|, lens) && Positive(lens)
    requires forall i :: 0 <= i < |active| ==> active[i].step > 0
    requires j < |Batches(active, |lens|, lens, b)| && s in Batches(active, |lens|, lens, b)[j]
    ensures s.step > 0
    decreases j
  {
    AdvanceFacts(active, |lens|, lens);
    AdvanceMembers(active, |lens|, lens);
    if j > 0 {
      NoStartsLeft(Advanced(active, lens), lens, b, j - 1, s);
    }
  }

  lemma BatchesSplit(active: seq<Slot>, next: nat, lens: seq<nat>, b: nat)
    requires Valid(active, next, lens) && Positive(lens) && Batches(active, next, lens, b) != []
    ensures var batch, next' := Refilled(active, next, |lens|, b), NextAfter(active, next, |lens|, b);
            && Valid(batch, next', lens) && Valid(Advanced(batch, lens), next', lens)
            && Batches(active, next, lens, b) == [batch] + Batches(Advanced(batch, lens), next', lens, b)
  {
    RefillFacts(active, next, lens, b);
    AdvanceFacts(Refilled(active, next, |lens|, b), NextAfter(active, next, |lens|, b), lens);
  }

  lemma {:induction false} FullFrom(active: seq<Slot>, next: nat, lens: seq<nat>, b: nat, k: nat, j: nat, s: Slot)
    requires Valid(active, next, lens) && Positive(lens) && |active| <= b
    requires k < j < |Batches(active, next, lens, b)|
    requires s in Batches(active, next, lens, b)[j] && s.step == 0
    ensures |Batches(active, next, lens, b)[k]| == b
    decreases k
  {
    var batch, next' := Refilled(active, next, |lens|, b), NextAfter(active, next, |lens|, b);
    RefillFacts(active, next, lens, b);
    AdvanceFacts(batch, next', lens);
    BatchesSplit(active, next, lens, b);
    if k > 0 {
      FullFrom(Advanced(batch, lens), next', lens, b, k - 1, j - 1, s);
    } else if next' == |lens| {
      AdvanceMembers(batch, next', lens);
      NoStartsLeft(Advanced(batch, lens), lens, b, j - 1, s);
    }
  }

  /** While an episode still waits for its first batch `j`, every earlier batch is exactly full. */
  lemma FullWhilePending(lens: seq<nat>, b: nat, k: nat, j: nat, e: nat)
    requires Positive(lens) && k < j < |Schedule(lens, b)| && Slot(e, 0) in Schedule(lens, b)[j]
    ensures |Schedule(lens, b)[k]| == b
  {
    FullFrom([], 0, lens, b, k, j, Slot(e, 0));
  }

  // ---- makespan ----

  /** The longest remaining run among the active slots. */
  function Longest(active: seq<Slot>, lens: seq<nat>): nat
    requires forall i :: 0 <= i < |active| ==> Unfinished(active[i], |lens|, lens)
  {
    if active == [] then 0 else
      assert Unfinished(active[0], |lens|, lens);
      var (l, m) := (lens[active[0].ep] - active[0].step, Longest(active[1..], lens));
      if l > m then l else m
  }

  lemma MaxBounds(lens: seq<nat>, e: nat)
    requires e < |lens|
    ensures lens[e] <= Max(lens)
  {
    if e > 0 {
      MaxBounds(lens[1..], e - 1);
    }
  }

  lemma {:induction false} LongestBounds(active: seq<Slot>, lens: seq<nat>)
    requires forall i :: 0 <= i < |active| ==> Unfinished(active[i], |lens|, lens)
    ensures Longest(active, lens) <= Left(active, lens)
    ensures Longest(active, lens) <= Max(lens)
  {
    if active != [] {
      assert Unfinished(active[0], |lens|, lens);
      LongestBounds(active[1..], lens);
      MaxBounds(lens, active[0].ep);
    }
  }

  lemma {:induction false} LongestAdvanced(active: seq<Slot>, next: nat, lens: seq<nat>)
    requires Valid(active, next, lens) && active != [] && Valid(Advanced(active, lens), next, lens)
    ensures Longest(active, lens) == Longest(Advanced(active, lens), lens) + 1
  {
    AdvanceCons(active, next, lens);
    assert Unfinished(active[0], next, lens);
    var tail := active[1..];
    AdvanceValid(tail, next, lens);
    if tail != [] {
      LongestAdvanced(tail, next, lens);
    }
    if active[0].step + 1 < lens[active[0].ep] {
      assert Advanced(active, lens)[1..] == Advanced(tail, lens);
    }
  }

  /** Once nothing is pending, the batches left are the longest remaining run. */
  lemma {:induction false} DrainTime(active: seq<Slot>, lens: seq<nat>, b: nat)
    requires Valid(active, |lens|, lens) && Positive(lens)
    ensures |Batches(active, |lens|, lens, b)| == Longest(active, lens)
    decreases Work(active, |lens|, lens)
  {
    if active != [] {
      AdvanceFacts(active, |lens|, lens);
      LongestAdvanced(active, |lens|, lens);
      DrainTime(Advanced(active, lens), lens, b);
    }
  }

  lemma DrainBound(active: seq<Slot>, lens: seq<nat>, b: nat)
    requires Valid(active, |lens|, lens) && Positive(lens) && 1 <= b
    ensures b * |Batches(active, |lens|, lens, b)| <= Work(active, |lens|, lens) + (b - 1) * Max(lens)
  {
    DrainTime(active, lens, b);
    LongestBounds(active, lens);
    var t := Longest(active, lens);
    Scale(b - 1, t, Max(lens));
    assert b * t == t + (b - 1) * t;
    assert lens[|lens|..] == [];
  }

  lemma Scale(c: nat, x: nat, y: nat)
    requires x <= y
    ensures c * x <= c * y
  {
  }

  lemma OneMoreBatch(b: nat, count: nat, rest: nat, after: nat, before: nat, slack: nat)
    requires count == 1 + rest && b * rest <= after + slack && after + b <= before
    ensures b * count <= before + slack
  {
    assert b * (1 + rest) == b + b * rest;
  }

  lemma {:induction false} MakespanFrom(active: seq<Slot>, next: nat, lens: seq<nat>, b: nat, slack: nat)
    requires Valid(active, next, lens) && Positive(lens) && |active| <= b && 1 <= b && slack == (b - 1) * Max(lens)
    ensures b * |Batches(active, next, lens, b)| <= Work(active, next, lens) + slack
    decreases Work(active, next, lens)
  {
    var batch, next' := Refilled(active, next, |lens|, b), NextAfter(active, next, |lens|, b);
    RefillFacts(active, next, lens, b);
    if next' == |lens| {
      DrainBound(batch, lens, b);
      assert Refilled(batch, |lens|, |lens|, b) == batch;
    } else {
      AdvanceFacts(batch, next', lens);
      var rest := Batches(Advanced(batch, lens), next', lens, b);
      MakespanFrom(Advanced(batch, lens), next', lens, b, slack);
      OneMoreBatch(b, |Batches(active, next, lens, b)|, |rest|, Work(Advanced(batch, lens), next', lens),
                   Work(active, next, lens), slack);
    }
  }

  /** Greedy refill is within `(b - 1)` longest episodes of a perfectly packed replay. */
  lemma MakespanUpper(lens: seq<nat>, b: nat)
    requires Positive(lens) && 1 <= b
    ensures b * |Schedule(lens, b)| <= Sum(lens) + (b - 1) * Max(lens)
  {
    MakespanFrom([], 0, lens, b, (b - 1) * Max(lens));
    assert lens[0..] == lens;
  }

  /** Any way to replay all frames: at most `b` rows a batch, one row of an episode a batch. */
  ghost predicate Feasible(batches: seq<seq<Slot>>, lens: seq<nat>, b: nat) {
    && (forall k :: 0 <= k < |batches| ==> |batches[k]| <= b)
    && (forall k, e :: 0 <= k < |batches| && 0 <= e < |lens| ==> |StepsIn(batches[k], e)| <= 1)
    && (forall e :: 0 <= e < |lens| ==> |Steps(batches, e)| == lens[e])
  }

  function CountIn(batch: seq<Slot>, n: nat): nat {
    if n == 0 then 0 else CountIn(batch, n - 1) + |StepsIn(batch, n - 1)|
  }

  function Count(batches: seq<seq<Slot>>, n: nat): nat {
    if n == 0 then 0 else Count(batches, n - 1) + |Steps(batches, n - 1)|
  }

  lemma {:induction false} CountCons(s: Slot, rest: seq<Slot>, n: nat)
    ensures CountIn([s] + rest, n) == CountIn(rest, n) + if s.ep < n then 1 else 0
  {
    if n > 0 {
      CountCons(s, rest, n - 1);
      StepsInCons(s, rest, n - 1);
    }
  }

  lemma {:induction false} CountInBound(batch: seq<Slot>, n: nat)
    ensures CountIn(batch, n) <= |batch|
    decreases |batch|, n
  {
    if batch != [] {
      CountCons(batch[0], batch[1..], n);
      assert [batch[0]] + batch[1..] == batch;
      CountInBound(batch[1..], n);
    } else if n > 0 {
      CountInBound(batch, n - 1);
    }
  }

  lemma {:induction false} CountSplit(batches: seq<seq<Slot>>, n: nat)
    ensures Count(batches, n) == if batches == [] then 0 else CountIn(batches[0], n) + Count(batches[1..], n)
  {
    if n > 0 {
      CountSplit(batches, n - 1);
    }
  }

  lemma {:induction false} CountBound(batches: seq<seq<Slot>>, n: nat)
    ensures Count(batches, n) <= Total(batches)
  {
    CountSplit(batches, n);
    if batches != [] {
      CountInBound(batches[0], n);
      CountBound(batches[1..], n);
    }
  }

  lemma {:induction false} CountIsSum(batches: seq<seq<Slot>>, lens: seq<nat>, n: nat)
    requires n <= |lens| && forall e :: 0 <= e < |lens| ==> |Steps(batches, e)| == lens[e]
    ensures Count(batches, n) == Sum(lens[..n])
  {
    if n > 0 {
      CountIsSum(batches, lens, n - 1);
      assert lens[..n] == lens[..n - 1] + [lens[n - 1]];
      SumAppend(lens[..n - 1], lens[n - 1]);
    }
  }

  lemma {:induction false} SumAppend(xs: seq<nat>, y: nat)
    ensures Sum(xs + [y]) == Sum(xs) + y
  {
    if xs != [] {
      SumAppend(xs[1..], y);
      assert (xs + [y])[1..] == xs[1..] + [y];
    }
  }

  lemma {:induction false} StepsBound(batches: seq<seq<Slot>>, e: nat)
    requires forall k :: 0 <= k < |batches| ==> |StepsIn(batches[k], e)| <= 1
    ensures |Steps(batches, e)| <= |batches|
  {
    if batches != [] {
      StepsBound(batches[1..], e);
    }
  }

  lemma {:induction false} TotalBound(batches: seq<seq<Slot>>, b: nat)
    requires forall k :: 0 <= k < |batches| ==> |batches[k]| <= b
    ensures Total(batches) <= b * |batches|
  {
    if batches != [] {
      TotalBound(batches[1..], b);
      assert b * |batches| == b + b * |batches[1..]|;
    }
  }

  lemma MaxAttained(lens: seq<nat>) returns (e: nat)
    requires lens != []
    ensures e < |lens| && lens[e] == Max(lens)
  {
    e := 0;
    if |lens| > 1 {
      var rest := MaxAttained(lens[1..]);
      if lens[0] < lens[rest + 1] {
        e := rest + 1;
      }
    }
  }

  /** No feasible replay is shorter than the longest episode or the perfectly packed total. */
  lemma FeasibleLower(batches: seq<seq<Slot>>, lens: seq<nat>, b: nat)
    requires Feasible(batches, lens, b)
    ensures Max(lens) <= |batches|
    ensures Sum(lens) <= b * |batches|
  {
    if lens != [] {
      var e := MaxAttained(lens);
      StepsBound(batches, e);
    }
    CountIsSum(batches, lens, |lens|);
    assert lens[..|lens|] == lens;
    CountBound(batches, |lens|);
    TotalBound(batches, b);
  }

  lemma {:induction false} BatchesValid(active: seq<Slot>, next: nat, lens: seq<nat>, b: nat)
    requires Valid(active, next, lens) && Positive(lens)
    ensures forall k :: 0 <= k < |Batches(active, next, lens, b)| ==>
              Valid(Batches(active, next, lens, b)[k], |lens|, lens)
    decreases Work(active, next, lens)
  {
    var batch, next' := Refilled(active, next, |lens|, b), NextAfter(active, next, |lens|, b);
    RefillFacts(active, next, lens, b);
    if batch != [] {
      AdvanceFacts(batch, next', lens);
      BatchesValid(Advanced(batch, lens), next', lens, b);
      assert Valid(batch, |lens|, lens) by {
        assert forall i :: 0 <= i < |batch| ==> Unfinished(batch[i], next', lens);
      }
    }
  }

  /** The greedy schedule itself is feasible. */
  lemma ScheduleFeasible(lens: seq<nat>, b: nat)
    requires Positive(lens) && 1 <= b
    ensures Feasible(Schedule(lens, b), lens, b)
  {
    Conservation(lens, b);
    BatchesValid([], 0, lens, b);
    forall e | 0 <= e < |lens| ensures |Steps(Schedule(lens, b), e)| == lens[e] {
      Coverage(lens, b, e);
    }
    forall k, e | 0 <= k < |Schedule(lens, b)| && 0 <= e < |lens| ensures |StepsIn(Schedule(lens, b)[k], e)| <= 1 {
      StepsInUnique(Schedule(lens, b)[k], |lens|, lens, e);
    }
  }

  /** Greedy refill needs at most `2 - 1/b` times the batches of any feasible replay. */
  lemma WithinTwiceOptimal(other: seq<seq<Slot>>, lens: seq<nat>, b: nat)
    requires Positive(lens) && 1 <= b && Feasible(other, lens, b)
    ensures b * |Schedule(lens, b)| <= (2 * b - 1) * |other|
  {
    MakespanUpper(lens, b);
    FeasibleLower(other, lens, b);
    TwiceBound(b, |Schedule(lens, b)|, Sum(lens), Max(lens), |other|);
  }

  lemma TwiceBound(b: nat, greedy: nat, total: nat, longest: nat, other: nat)
    requires 1 <= b && b * greedy <= total + (b - 1) * longest && total <= b * other && longest <= other
    ensures b * greedy <= (2 * b - 1) * other
  {
    Scale(b - 1, longest, other);
    assert (2 * b - 1) * other == b * other + (b - 1) * other;
  }

  // ---- the makespan bound is met ----

  /** `n` episodes of one frame, then one of `b` frames. */
  function LongLast(n: nat, b: nat): (lens: seq<nat>)
    requires b >= 1
    ensures |lens| == n + 1 && lens[n] == b && (forall e :: 0 <= e < n ==> lens[e] == 1) && Positive(lens)
  {
    seq(n, i => 1) + [b]
  }

  lemma {:induction false} LongLastTotals(n: nat, b: nat)
    requires b >= 1
    ensures Sum(LongLast(n, b)) == n + b && Max(LongLast(n, b)) == b
  {
    if n > 0 {
      LongLastTotals(n - 1, b);
      assert LongLast(n, b)[1..] == LongLast(n - 1, b);
    } else {
      assert LongLast(0, b)[1..] == [];
    }
  }

  /** The long episode alone takes a batch per frame. */
  lemma LongAlone(n: nat, lens: seq<nat>, b: nat)
    requires b >= 1 && lens == LongLast(n, b)
    ensures |Batches([], n, lens, b)| >= b
  {
    var batches := Batches([], n, lens, b);
    CoverageFrom([], n, lens, b, n);
    BatchesValid([], n, lens, b);
    forall k | 0 <= k < |batches| ensures |StepsIn(batches[k], n)| <= 1 {
      StepsInUnique(batches[k], |lens|, lens, n);
    }
    StepsBound(batches, n);
  }

  /** One-frame episodes all leave after their batch. */
  lemma OnesLeave(n: nat, lens: seq<nat>, b: nat, batch: seq<Slot>, next: nat)
    requires b >= 1 && lens == LongLast(n, b) && Valid(batch, next, lens) && next <= n
    ensures Advanced(batch, lens) == []
  {
    AdvanceMembers(batch, next, lens);
  }

  lemma OneBatch(lens: seq<nat>, b: nat, batch: seq<Slot>, next: nat, next': nat)
    requires Valid([], next, lens) && Positive(lens) && Valid(batch, next', lens)
    requires batch == Refilled([], next, |lens|, b) && next' == NextAfter([], next, |lens|, b)
    requires batch != [] && Advanced(batch, lens) == []
    ensures |Batches([], next, lens, b)| == 1 + |Batches([], next', lens, b)|
  {
  }

  /** While `b` one-frame episodes are left, they make up one batch. */
  lemma OnesBatch(n: nat, lens: seq<nat>, b: nat, next: nat, next': nat)
    requires b >= 1 && lens == LongLast(n, b) && next' == next + b <= n
    ensures |Batches([], next, lens, b)| == 1 + |Batches([], next', lens, b)|
  {
    var batch := Refilled([], next, |lens|, b);
    RefillClosed([], next, b, |lens|, b);
    RefillFacts([], next, lens, b);
    OnesLeave(n, lens, b, batch, next');
    OneBatch(lens, b, batch, next, next');
  }

  lemma {:induction false} OnesThenLong(n: nat, lens: seq<nat>, b: nat, next: nat, k: nat)
    requires b >= 1 && lens == LongLast(n, b) && next + k * b == n
    ensures |Batches([], next, lens, b)| >= k + b
    decreases k
  {
    if k == 0 {
      LongAlone(n, lens, b);
    } else {
      assert next + b + (k - 1) * b == n;
      Scale(b, 1, k);
      OnesBatch(n, lens, b, next, next + b);
      OnesThenLong(n, lens, b, next + b, k - 1);
    }
  }

  /** The makespan bound cannot be improved, whatever the number of slots: `b * (b - 1)` episodes of
      one frame followed by one of `b` frames meet it. */
  lemma MakespanTight(b: nat)
    requires b >= 1
    ensures var lens := LongLast(b * (b - 1), b); b * |Schedule(lens, b)| == Sum(lens) + (b - 1) * Max(lens)
  {
    var n := b * (b - 1);
    var lens := LongLast(n, b);
    OnesThenLong(n, lens, b, 0, b - 1);
    LongLastTotals(n, b);
    MakespanUpper(lens, b);
    TightArithmetic(b, n, |Schedule(lens, b)|);
  }

  lemma TightArithmetic(b: nat, n: nat, batches: nat)
    requires b >= 1 && n == b * (b - 1) && batches >= (b - 1) + b
    ensures b * batches >= n + b + (b - 1) * b
  {
    Scale(b, (b - 1) + b, batches);
    assert b * ((b - 1) + b) == b * (b - 1) + b * b;
  }
}
