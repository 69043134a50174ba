/** The slot-refill schedule of the replay benchmarks, on values.

    Episodes are numbered in replay order and `lens[e]` is the number of frames
    episode `e` replays.  At most `b` slots are active; before each batch the
    free slots take the next episodes, after each batch finished slots leave and
    the rest keep their order. */
module Refill {

  datatype Slot = Slot(ep: nat, step: nat)

  predicate Positive(lens: seq<nat>) {
    forall e :: 0 <= e < |lens| ==> lens[e] >= 1
  }

  predicate Unfinished(s: Slot, next: nat, lens: seq<nat>) {
    s.ep < next && s.ep < |lens| && s.step < lens[s.ep]
  }

  predicate Increasing(active: seq<Slot>) {
    forall i, j :: 0 <= i < j < |active| ==> active[i].ep < active[j].ep
  }

  /** One unfinished slot per episode, all admitted already, in admission order. */
  predicate Valid(active: seq<Slot>, next: nat, lens: seq<nat>) {
    && next <= |lens|
    && (forall i :: 0 <= i < |active| ==> Unfinished(active[i], next, lens))
    && Increasing(active)
  }

  function Refilled(active: seq<Slot>, next: nat, n: nat, b: nat): seq<Slot>
    decreases n - next
  {
    if |active| < b && next < n then Refilled(active + [Slot(next, 0)], next + 1, n, b) else active
  }

  function NextAfter(active: seq<Slot>, next: nat, n: nat, b: nat): nat
    decreases n - next
  {
    if |active| < b && next < n then NextAfter(active + [Slot(next, 0)], next + 1, n, b) else next
  }

  /** First slots of `k` consecutive episodes. */
  function Starts(next: nat, k: nat): seq<Slot> {
    if k == 0 then [] else Starts(next, k - 1) + [Slot(next + k - 1, 0)]
  }

  lemma StartsGrow(now: seq<Slot>, active: seq<Slot>, next: nat, k: nat, e: nat)
    requires now == active + Starts(next, k) && e == next + k
    ensures now + [Slot(e, 0)] == active + Starts(next, k + 1)
  {
  }

  lemma {:induction false} StartsFront(next: nat, k: nat)
    requires k > 0
    ensures Starts(next, k) == [Slot(next, 0)] + Starts(next + 1, k - 1)
  {
    if k > 1 {
      StartsFront(next, k - 1);
    }
  }

  /** Adding the next `k` episodes until the slots or the episodes run out is the refill. */
  lemma {:induction false} RefillClosed(active: seq<Slot>, next: nat, k: nat, n: nat, b: nat)
    requires next + k <= n && (k > 0 ==> |active| + k <= b) && (|active| + k >= b || next + k == n)
    ensures Refilled(active, next, n, b) == active + Starts(next, k) && NextAfter(active, next, n, b) == next + k
    decreases k
  {
    if k > 0 {
      RefillClosed(active + [Slot(next, 0)], next + 1, k - 1, n, b);
      StartsFront(next, k);
      assert active + [Slot(next, 0)] + Starts(next + 1, k - 1) == active + Starts(next, k);
    } else {
      assert active + Starts(next, k) == active;
    }
  }

  /** Every slot of the batch moves one step on; finished slots are dropped. */
  function Advanced(batch: seq<Slot>, lens: seq<nat>): seq<Slot>
    requires forall i :: 0 <= i < |batch| ==> batch[i].ep < |lens|
  {
    if batch == [] then []
    else
      var s := batch[0];
      (if s.step + 1 < lens[s.ep] then [Slot(s.ep, s.step + 1)] else []) + Advanced(batch[1..], lens)
  }

  function Sum(xs: seq<nat>): nat {
    if xs == [] then 0 else xs[0] + Sum(xs[1..])
  }

  function Max(xs: seq<nat>): nat {
    if xs == [] then 0 else var m := Max(xs[1..]); if xs[0] > m then xs[0] else m
  }

  /** Frames the active slots still have to replay. */
  function Left(active: seq<Slot>, lens: seq<nat>): nat
    requires forall i :: 0 <= i < |active| ==> Unfinished(active[i], |lens|, lens)
  {
    if active == [] then 0 else
      assert Unfinished(active[0], |lens|, lens);
      lens[active[0].ep] - active[0].step + Left(active[1..], lens)
  }

  /** Frames still to be replayed. */
  function Work(active: seq<Slot>, next: nat, lens: seq<nat>): nat
    requires Valid(active, next, lens)
  {
    Left(active, lens) + Sum(lens[next..])
  }

  lemma {:induction false} LeftAppend(active: seq<Slot>, s: Slot, lens: seq<nat>)
    requires forall i :: 0 <= i < |active| ==> Unfinished(active[i], |lens|, lens)
    requires Unfinished(s, |lens|, lens)
    ensures forall i :: 0 <= i < |active + [s]| ==> Unfinished((active + [s])[i], |lens|, lens)
    ensures Left(active + [s], lens) == Left(active, lens) + lens[s.ep] - s.step
  {
    if active != [] {
      LeftAppend(active[1..], s, lens);
      assert (active + [s])[1..] == active[1..] + [s];
    }
  }

  lemma SumSplit(lens: seq<nat>, next: nat)
    requires next < |lens|
    ensures Sum(lens[next..]) == lens[next] + Sum(lens[next + 1..])
  {
    assert lens[next..][1..] == lens[next + 1..];
  }

  lemma RefillOnce(active: seq<Slot>, next: nat, lens: seq<nat>)
    requires Valid(active, next, lens) && Positive(lens) && next < |lens|
    ensures Valid(active + [Slot(next, 0)], next + 1, lens)
    ensures Work(active + [Slot(next, 0)], next + 1, lens) == Work(active, next, lens)
  {
    LeftAppend(active, Slot(next, 0), lens);
    SumSplit(lens, next);
  }

  lemma {:induction false} RefillFacts(active: seq<Slot>, next: nat, lens: seq<nat>, b: nat)
    requires Valid(active, next, lens) && Positive(lens)
    ensures var batch, next' := Refilled(active, next, |lens|, b), NextAfter(active, next, |lens|, b);
            && Valid(batch, next', lens)
            && Work(batch, next', lens) == Work(active, next, lens)
            && active <= batch
            && next <= next'
            && |batch| == |active| + (next' - next)
            && (next' < |lens| ==> |batch| >= b)
            && (|active| <= b ==> |batch| <= b)
            && (forall i :: |active| <= i < |batch| ==> batch[i] == Slot(next + i - |active|, 0))
    decreases |lens| - next
  {
    if |active| < b && next < |lens| {
      RefillOnce(active, next, lens);
      RefillFacts(active + [Slot(next, 0)], next + 1, lens, b);
      var batch := Refilled(active, next, |lens|, b);
      assert batch[|active|] == (active + [Slot(next, 0)])[|active|];
    }
  }

  lemma {:induction false} AdvanceMembers(batch: seq<Slot>, next: nat, lens: seq<nat>)
    requires Valid(batch, next, lens)
    ensures |Advanced(batch, lens)| <= |batch|
    ensures forall s :: s in Advanced(batch, lens) <==>
              s.step > 0 && Slot(s.ep, s.step - 1) in batch && s.step < lens[s.ep]
  {
    if batch != [] {
      AdvanceMembers(batch[1..], next, lens);
      assert batch == [batch[0]] + batch[1..];
    }
  }

  lemma AdvanceCons(batch: seq<Slot>, next: nat, lens: seq<nat>)
    requires batch != [] && Valid(batch, next, lens)
    ensures Valid(batch[1..], next, lens)
    ensures var s, rest := batch[0], Advanced(batch[1..], lens);
            Advanced(batch, lens) == if s.step + 1 < lens[s.ep] then [Slot(s.ep, s.step + 1)] + rest else rest
  {
    assert forall i :: 0 <= i < |batch[1..]| ==> batch[1..][i] == batch[i + 1];
    assert Unfinished(batch[0], next, lens);
  }

  lemma {:induction false} AdvanceValid(batch: seq<Slot>, next: nat, lens: seq<nat>)
    requires Valid(batch, next, lens)
    ensures Valid(Advanced(batch, lens), next, lens)
    ensures forall i :: 0 <= i < |Advanced(batch, lens)| ==> Advanced(batch, lens)[i].ep >= batch[0].ep
  {
    if batch != [] {
      var s, tail := batch[0], batch[1..];
      AdvanceCons(batch, next, lens);
      AdvanceValid(tail, next, lens);
      PrependValid(s, Advanced(tail, lens), next, lens);
    }
  }

  lemma PrependValid(s: Slot, rest: seq<Slot>, next: nat, lens: seq<nat>)
    requires Valid(rest, next, lens) && Unfinished(s, next, lens)
    requires forall i :: 0 <= i < |rest| ==> s.ep < rest[i].ep
    ensures s.step + 1 < lens[s.ep] ==> Valid([Slot(s.ep, s.step + 1)] + rest, next, lens)
  {
  }

  lemma {:induction false} AdvanceWork(batch: seq<Slot>, next: nat, lens: seq<nat>)
    requires Valid(batch, next, lens) && Valid(Advanced(batch, lens), next, lens)
    ensures Left(Advanced(batch, lens), lens) + |batch| == Left(batch, lens)
  {
    if batch != [] {
      AdvanceCons(batch, next, lens);
      AdvanceValid(batch[1..], next, lens);
      AdvanceWork(batch[1..], next, lens);
      if batch[0].step + 1 < lens[batch[0].ep] {
        assert Advanced(batch, lens)[1..] == Advanced(batch[1..], lens);
      }
    }
  }

  lemma AdvanceFacts(batch: seq<Slot>, next: nat, lens: seq<nat>)
    requires Valid(batch, next, lens)
    ensures Valid(Advanced(batch, lens), next, lens)
    ensures |Advanced(batch, lens)| <= |batch|
    ensures Work(Advanced(batch, lens), next, lens) + |batch| == Work(batch, next, lens)
  {
    AdvanceMembers(batch, next, lens);
    AdvanceValid(batch, next, lens);
    AdvanceWork(batch, next, lens);
  }

  /** The batches formed from a state, until no slot is left. */
  function Batches(active: seq<Slot>, next: nat, lens: seq<nat>, b: nat): seq<seq<Slot>>
    requires Valid(active, next, lens) && Positive(lens)
    decreases Work(active, next, lens)
  {
    RefillFacts(active, next, lens, b);
    var batch, next' := Refilled(active, next, |lens|, b), NextAfter(active, next, |lens|, b);
    if batch == [] then [] else
      AdvanceFacts(batch, next', lens);
      [batch] + Batches(Advanced(batch, lens), next', lens, b)
  }

  /** The schedule of a whole replay. */
  function Schedule(lens: seq<nat>, b: nat): seq<seq<Slot>>
    requires Positive(lens)
  {
    Batches([], 0, lens, b)
  }
}
