/** The tensor-batch replay loop: episodes of different lengths share at most
    `batchSize` slots, each slot with its own recurrent memory. */
module BatchReplay {
  import opened Wrappers
  import opened Refill
  import opened RefillTheorems

  datatype Episode<F> = Episode(id: int, instruction: string, frames: seq<F>)

  datatype Observation<F> = Observation(frame: F, instruction: string)

  datatype Outcome<M, O> = Outcome(memory: M, output: O, finite: bool)

  datatype Row<O> = Row(batchIndex: nat, episodeId: int, step: nat, output: O)

  datatype Status = Complete | Failed

  /** One model call on a whole batch: an observation and an earlier memory per row. */
  type Runtime<!F, !M, !O> = seq<(Observation<F>, Option<M>)> -> seq<Outcome<M, O>>

  function FramesOf<F>(ep: Episode<F>, limit: Option<nat>): nat {
    if limit.None? || |ep.frames| < limit.value then |ep.frames| else limit.value
  }

  function Lens<F>(episodes: seq<Episode<F>>, limit: Option<nat>): seq<nat> {
    seq(|episodes|, i requires 0 <= i < |episodes| => FramesOf(episodes[i], limit))
  }

  /** Episodes come with at least one frame, and a step limit is positive. */
  ghost predicate Loaded<F>(episodes: seq<Episode<F>>, limit: Option<nat>) {
    && (limit.Some? ==> limit.value >= 1)
    && (forall i :: 0 <= i < |episodes| ==> |episodes[i].frames| >= 1)
  }

  // ---- the simple loop: one episode alone, from empty memory ----

  /** Each row of a batch depends on its own observation and memory only. */
  ghost predicate RowWise<F(!new), M(!new), O(!new)>(rt: Runtime<F, M, O>) {
    && (forall xs :: |rt(xs)| == |xs|)
    && (forall xs, i :: 0 <= i < |xs| ==> rt(xs)[i] == rt([xs[i]])[0])
  }

  ghost function MemoryBefore<F(!new), M(!new), O(!new)>(rt: Runtime<F, M, O>, ep: Episode<F>, step: nat): Option<M>
    requires RowWise(rt) && step <= |ep.frames|
    decreases step, 0
  {
    if step == 0 then None else Some(Alone(rt, ep, step - 1).memory)
  }

  ghost function Alone<F(!new), M(!new), O(!new)>(rt: Runtime<F, M, O>, ep: Episode<F>, step: nat): Outcome<M, O>
    requires RowWise(rt) && step < |ep.frames|
    decreases step, 1
  {
    rt([(Observation(ep.frames[step], ep.instruction), MemoryBefore(rt, ep, step))])[0]
  }

  // ---- the slots of the batched loop ----

  /** Another step of so many frames is left, below the step limit if there is one. */
  ghost predicate StepLeft(step: nat, frames: nat, limit: Option<nat>) {
    step < frames && (limit.None? || step < limit.value)
  }

  /** One episode in progress: the next step and the memory after the steps before it, or None at step 0. */
  class ReplaySlot<F, M> {
    const episode: Episode<F>
    ghost const ep: nat
    var step: nat
    var memory: Option<M>

    constructor (episode: Episode<F>, ghost ep: nat)
      ensures this.episode == episode && this.ep == ep && step == 0 && memory == None
    {
      this.episode, this.ep, step, memory := episode, ep, 0, None;
    }
  }

  /** Those kept of the first `n` slots are the ones with a step left. */
  ghost predicate LeftIn<F, M>(slots: seq<ReplaySlot<F, M>>, kept: seq<ReplaySlot<F, M>>, limit: Option<nat>, n: nat)
    requires n <= |slots|
    reads slots
  {
    && Distinct(kept) && (forall k :: 0 <= k < |kept| ==> kept[k] in slots[..n])
    && forall k :: 0 <= k < n ==> (slots[k] in kept <==> StepLeft(slots[k].step, |slots[k].episode.frames|, limit))
  }

  lemma LeftInMore<F, M>(slots: seq<ReplaySlot<F, M>>, kept: seq<ReplaySlot<F, M>>, limit: Option<nat>, n: nat)
    requires n < |slots| && Distinct(slots) && LeftIn(slots, kept, limit, n)
    ensures if StepLeft(slots[n].step, |slots[n].episode.frames|, limit)
            then LeftIn(slots, kept + [slots[n]], limit, n + 1)
            else LeftIn(slots, kept, limit, n + 1)
  {
    assert slots[..n + 1] == slots[..n] + [slots[n]];
    assert slots[n] !in slots[..n];
  }

  ghost function Abs<F, M>(slots: seq<ReplaySlot<F, M>>): seq<Slot>
    reads slots
  {
    seq(|slots|, i requires 0 <= i < |slots| reads slots => Slot(slots[i].ep, slots[i].step))
  }

  ghost predicate Distinct<F, M>(slots: seq<ReplaySlot<F, M>>) {
    forall i, j :: 0 <= i < j < |slots| ==> slots[i] != slots[j]
  }

  /** The slot holds its episode and the memory that episode alone would hold. */
  ghost predicate SlotOk<F(!new), M(!new), O(!new)>(s: ReplaySlot<F, M>, episodes: seq<Episode<F>>,
                                                    rt: Runtime<F, M, O>)
    reads s
  {
    && s.ep < |episodes| && s.episode == episodes[s.ep] && s.step <= |s.episode.frames|
    && (RowWise(rt) ==> s.memory == MemoryBefore(rt, s.episode, s.step))
  }

  ghost predicate SlotsOk<F(!new), M(!new), O(!new)>(slots: seq<ReplaySlot<F, M>>, episodes: seq<Episode<F>>,
                                                     rt: Runtime<F, M, O>)
    reads slots
  {
    Distinct(slots) && forall i :: 0 <= i < |slots| ==> SlotOk(slots[i], episodes, rt)
  }

  // ---- the log ----

  /** Which episode and step a row shows, and at which batch and place of the batch. */
  datatype Key = Key(batch: nat, ep: nat, step: nat, place: nat)

  function KeysIn(batch: seq<Slot>, index: nat): seq<Key> {
    seq(|batch|, i requires 0 <= i < |batch| => Key(index, batch[i].ep, batch[i].step, i))
  }

  /** The rows a schedule must log, batch after batch in slot order. */
  function Keys(batches: seq<seq<Slot>>): seq<Key> {
    if batches == [] then [] else
      Keys(batches[..|batches| - 1]) + KeysIn(batches[|batches| - 1], |batches| - 1)
  }

  /** Row `row` logs key `key`, with the output that episode alone would give. */
  ghost predicate RowOk<F(!new), M(!new), O(!new)>(row: Row<O>, key: Key, episodes: seq<Episode<F>>,
                                                   rt: Runtime<F, M, O>) {
    && key.ep < |episodes| && key.step < |episodes[key.ep].frames|
    && row.batchIndex == key.batch && row.episodeId == episodes[key.ep].id && row.step == key.step
    && (RowWise(rt) ==>
        var alone := Alone(rt, episodes[key.ep], key.step); alone.finite && row.output == alone.output)
  }

  ghost predicate RowsOk<F(!new), M(!new), O(!new)>(rows: seq<Row<O>>, keys: seq<Key>, episodes: seq<Episode<F>>,
                                                    rt: Runtime<F, M, O>) {
    |rows| == |keys| && forall k :: 0 <= k < |rows| ==> RowOk(rows[k], keys[k], episodes, rt)
  }

  lemma RowsMore<F(!new), M(!new), O(!new)>(rows: seq<Row<O>>, keys: seq<Key>, add: seq<Key>, i: nat, row: Row<O>,
                                            episodes: seq<Episode<F>>,
                                            rt: Runtime<F, M, O>)
    requires i < |add| && RowsOk(rows, keys + add[..i], episodes, rt) && RowOk(row, add[i], episodes, rt)
    ensures RowsOk(rows + [row], keys + add[..i + 1], episodes, rt)
  {
    TakeMore(add, i);
    assert keys + add[..i + 1] == keys + add[..i] + [add[i]];
  }

  /** The episode of `key`, replayed alone, gives a nonfinite output at this step. */
  ghost predicate NonfiniteAt<F(!new), M(!new), O(!new)>(key: Key, episodes: seq<Episode<F>>, rt: Runtime<F, M, O>)
    requires RowWise(rt)
  {
    key.ep < |episodes| && key.step < |episodes[key.ep].frames| && !Alone(rt, episodes[key.ep], key.step).finite
  }

  // ---- the log in terms of frames and limit alone ----

  /** The row shows a frame of its episode, not at or past the step limit. */
  ghost predicate ShowsFrame<F, O>(row: Row<O>, episodes: seq<Episode<F>>, limit: Option<nat>) {
    && (limit.Some? ==> row.step < limit.value)
    && exists e :: 0 <= e < |episodes| && row.episodeId == episodes[e].id && row.step < |episodes[e].frames|
  }

  ghost predicate WithinLimit<F, O>(rows: seq<Row<O>>, episodes: seq<Episode<F>>, limit: Option<nat>) {
    forall k :: 0 <= k < |rows| ==> ShowsFrame(rows[k], episodes, limit)
  }

  /** The rows of an episode come in the order of their steps, each step at most once. */
  ghost predicate StepsAscend<O>(rows: seq<Row<O>>) {
    forall j, k :: 0 <= j < k < |rows| && rows[j].episodeId == rows[k].episodeId ==> rows[j].step < rows[k].step
  }

  ghost predicate ShowsStep<O>(rows: seq<Row<O>>, id: int, t: nat) {
    exists k :: 0 <= k < |rows| && rows[k].episodeId == id && rows[k].step == t
  }

  /** Every frame of every episode below the step limit has a row. */
  ghost predicate EveryFrame<F, O>(rows: seq<Row<O>>, episodes: seq<Episode<F>>, limit: Option<nat>) {
    forall e, t :: 0 <= e < |episodes| && 0 <= t < |episodes[e].frames| && (limit.None? || t < limit.value) ==>
      ShowsStep(rows, episodes[e].id, t)
  }

  /** How many rows belong to batch `n`. */
  ghost function RowsIn<O>(rows: seq<Row<O>>, n: nat): nat {
    if rows == [] then 0
    else RowsIn(rows[..|rows| - 1], n) + if rows[|rows| - 1].batchIndex == n then 1 else 0
  }

  /** Each batch holds between one and `b` rows, as many as the log shows for it. */
  ghost predicate Occupied<O>(batches: seq<nat>, rows: seq<Row<O>>, b: nat) {
    && (forall n :: 0 <= n < |batches| ==> 1 <= batches[n] <= b && batches[n] == RowsIn(rows, n))
    && forall k :: 0 <= k < |rows| ==> rows[k].batchIndex < |batches|
  }

  /** What a log shows, and what a complete one shows besides. */
  ghost predicate PlainLog<F, O>(rows: seq<Row<O>>, batches: seq<nat>, episodes: seq<Episode<F>>, limit: Option<nat>,
                                 b: nat, complete: bool) {
    && WithinLimit(rows, episodes, limit) && (DistinctIds(episodes) ==> StepsAscend(rows))
    && (complete ==> EveryFrame(rows, episodes, limit) && Occupied(batches, rows, b))
  }

  class BatchReplay<F(!new), M(!new), O(!new)> {
    const batchSize: nat
    const limit: Option<nat>
    const runtime: Runtime<F, M, O>
    var rows: seq<Row<O>>
    var batches: seq<nat>

    constructor (batchSize: nat, limit: Option<nat>, runtime: Runtime<F, M, O>)
      ensures this.batchSize == batchSize && this.limit == limit && this.runtime == runtime
      ensures rows == [] && batches == []
    {
      this.batchSize, this.limit, this.runtime := batchSize, limit, runtime;
      rows, batches := [], [];
    }

    /** Fills free slots with the next episodes. */
    method Admit(slots: seq<ReplaySlot<F, M>>, pending: nat, episodes: seq<Episode<F>>)
      returns (filled: seq<ReplaySlot<F, M>>, next: nat)
      requires SlotsOk(slots, episodes, runtime) && pending <= |episodes|
      ensures forall i :: 0 <= i < |filled| ==> filled[i] in slots || fresh(filled[i])
      ensures SlotsOk(filled, episodes, runtime)
      ensures Abs(filled) == Refilled(old(Abs(slots)), pending, |episodes|, batchSize)
      ensures next == NextAfter(old(Abs(slots)), pending, |episodes|, batchSize) <= |episodes|
    {
      filled, next := slots, pending;
      while |filled| < batchSize
        invariant pending <= next <= |episodes|
        invariant forall i :: 0 <= i < |filled| ==> filled[i] in slots || fresh(filled[i])
        invariant SlotsOk(filled, episodes, runtime)
        invariant Refilled(Abs(filled), next, |episodes|, batchSize)
                  == Refilled(old(Abs(slots)), pending, |episodes|, batchSize)
        invariant NextAfter(Abs(filled), next, |episodes|, batchSize)
                  == NextAfter(old(Abs(slots)), pending, |episodes|, batchSize)
        decreases |episodes| - next
      {
        if next == |episodes| {
          break;
        }
        var slot := new ReplaySlot(episodes[next], next);
        ghost var before := Abs(filled);
        filled := filled + [slot];
        assert Abs(filled) == before + [Slot(next, 0)];
        next := next + 1;
      }
    }

    /** The rows of one model call: the current frame and the private memory of each slot. */
    method Observe(slots: seq<ReplaySlot<F, M>>) returns (inputs: seq<(Observation<F>, Option<M>)>)
      requires forall i :: 0 <= i < |slots| ==> slots[i].step < |slots[i].episode.frames|
      ensures |inputs| == |slots|
      ensures forall i :: 0 <= i < |slots| ==> inputs[i] == Input(slots[i])
    {
      inputs := [];
      for i := 0 to |slots|
        invariant |inputs| == i && forall k :: 0 <= k < i ==> inputs[k] == Input(slots[k])
      {
        inputs := inputs + [(Observation(slots[i].episode.frames[slots[i].step], slots[i].episode.instruction),
                             slots[i].memory)];
      }
    }

    static ghost function Input(s: ReplaySlot<F, M>): (Observation<F>, Option<M>)
      requires s.step < |s.episode.frames|
      reads s
    {
      (Observation(s.episode.frames[s.step], s.episode.instruction), s.memory)
    }

    /** The results are the model's on the observations and memories of the slots. */
    ghost predicate ModelRan(results: seq<Outcome<M, O>>, slots: seq<ReplaySlot<F, M>>)
      reads slots
    {
      exists inputs ::
        |inputs| == |slots| && results == runtime(inputs)
        && forall i :: 0 <= i < |slots| ==>
                         slots[i].step < |slots[i].episode.frames| && inputs[i] == Input(slots[i])
    }

    /** Of a row-wise runtime every slot gets what its episode alone would get. */
    ghost predicate AnswersAlone(results: seq<Outcome<M, O>>, slots: seq<ReplaySlot<F, M>>)
      reads slots
    {
      RowWise(runtime) ==>
        |results| == |slots|
        && forall i :: 0 <= i < |slots| ==>
                         slots[i].step < |slots[i].episode.frames|
                         && results[i] == Alone(runtime, slots[i].episode, slots[i].step)
    }

    /** Stores the returned memories and logs one row per slot, stopping at a nonfinite output
        or where the model returned fewer rows than slots. */
    method Commit(slots: seq<ReplaySlot<F, M>>, results: seq<Outcome<M, O>>, episodes: seq<Episode<F>>,
                  ghost keys: seq<Key>)
      returns (ok: bool, ghost logged: nat)
      requires SlotsOk(slots, episodes, runtime)
      requires forall i :: 0 <= i < |slots| ==> slots[i].step < |slots[i].episode.frames|
      requires AnswersAlone(results, slots)
      requires RowsOk(rows, keys, episodes, runtime) && |batches| > 0
      modifies this`rows, slots
      ensures logged <= |slots| && SlotsOk(slots, episodes, runtime)
      ensures RowsOk(rows, keys + KeysIn(old(Abs(slots)), |batches| - 1)[..logged], episodes, runtime)
      ensures ok ==> logged == |slots| && forall i :: 0 <= i < |slots| ==> slots[i].step == old(slots[i].step) + 1
      ensures !ok && RowWise(runtime) ==>
                logged < |slots| && !old(Alone(runtime, slots[logged].episode, slots[logged].step)).finite
    {
      logged := 0;
      ghost var add := KeysIn(Abs(slots), |batches| - 1);
      for i := 0 to |slots|
        invariant logged == i && SlotsOk(slots, episodes, runtime)
        invariant forall k :: 0 <= k < i ==> slots[k].step == old(slots[k].step) + 1
        invariant forall k :: i <= k < |slots| ==> slots[k].step == old(slots[k].step)
        invariant RowsOk(rows, keys + add[..i], episodes, runtime)
      {
        if i >= |results| || !results[i].finite {
          return false, i;
        }
        var slot := slots[i];
        RowsMore(rows, keys, add, i, Row(|batches| - 1, slot.episode.id, slot.step, results[i].output), episodes,
                 runtime);
        rows := rows + [Row(|batches| - 1, slot.episode.id, slot.step, results[i].output)];
        MoveOn(slots, i, results[i].memory, episodes);
        logged := logged + 1;
      }
      ok := |results| == |slots|;
    }

    /** One slot takes its new memory and moves to its next frame. */
    method MoveOn(slots: seq<ReplaySlot<F, M>>, i: nat, memory: M, ghost episodes: seq<Episode<F>>)
      requires i < |slots| && SlotsOk(slots, episodes, runtime) && slots[i].step < |slots[i].episode.frames|
      requires RowWise(runtime) ==> memory == Alone(runtime, slots[i].episode, slots[i].step).memory
      modifies slots[i]
      ensures SlotsOk(slots, episodes, runtime) && slots[i].step == old(slots[i].step) + 1
    {
      slots[i].memory, slots[i].step := Some(memory), slots[i].step + 1;
      forall k | 0 <= k < |slots| ensures SlotOk(slots[k], episodes, runtime) {
        if k != i {
          assert old(SlotOk(slots[k], episodes, runtime));
        }
      }
    }

    /** Drops the slots whose episode is finished, keeping the order of the rest. */
    method KeepUnfinished(slots: seq<ReplaySlot<F, M>>, episodes: seq<Episode<F>>, ghost batch: seq<Slot>)
      returns (kept: seq<ReplaySlot<F, M>>)
      requires SlotsOk(slots, episodes, runtime)
      requires |batch| == |slots|
               && forall i :: 0 <= i < |slots| ==>
                    Slot(slots[i].ep, slots[i].step) == Slot(batch[i].ep, batch[i].step + 1)
      ensures SlotsOk(kept, episodes, runtime)
      ensures forall i :: 0 <= i < |kept| ==> kept[i] in slots
      ensures forall i :: 0 <= i < |batch| ==> batch[i].ep < |Lens(episodes, limit)|
      ensures Abs(kept) == Advanced(batch, Lens(episodes, limit))
      ensures forall i :: 0 <= i < |slots| ==>
                (slots[i] in kept <==> StepLeft(slots[i].step, |slots[i].episode.frames|, limit))
    {
      kept := [];
      ghost var lens := Lens(episodes, limit);
      for i := 0 to |slots|
        invariant LeftIn(slots, kept, limit, i)
        invariant Abs(kept) == Advanced(batch[..i], lens)
      {
        LeftInMore(slots, kept, limit, i);
        AdvancedAppend(batch[..i], batch[i], lens);
        assert batch[..i + 1] == batch[..i] + [batch[i]];
        if slots[i].step < FramesOf(slots[i].episode, limit) {
          ghost var before := Abs(kept);
          kept := kept + [slots[i]];
          assert Abs(kept) == before + [Slot(slots[i].ep, slots[i].step)];
        }
      }
      assert batch[..|slots|] == batch;
    }

    /** Row by row a row-wise runtime gives what each episode alone would get. */
    lemma RowsAlone(slots: seq<ReplaySlot<F, M>>, inputs: seq<(Observation<F>, Option<M>)>, episodes: seq<Episode<F>>)
      requires RowWise(runtime) && SlotsOk(slots, episodes, runtime) && |inputs| == |slots|
      requires forall i :: 0 <= i < |slots| ==>
                             slots[i].step < |slots[i].episode.frames| && inputs[i] == Input(slots[i])
      ensures |runtime(inputs)| == |slots|
      ensures forall i :: 0 <= i < |slots| ==> runtime(inputs)[i] == Alone(runtime, slots[i].episode, slots[i].step)
    {
      forall i | 0 <= i < |slots| ensures runtime(inputs)[i] == Alone(runtime, slots[i].episode, slots[i].step) {
        assert inputs[i] == Input(slots[i]);
      }
    }

    /** Observes the slots and calls the model. */
    method ModelRows(slots: seq<ReplaySlot<F, M>>, ghost episodes: seq<Episode<F>>)
      returns (results: seq<Outcome<M, O>>)
      requires SlotsOk(slots, episodes, runtime)
      requires forall i :: 0 <= i < |slots| ==> slots[i].step < |slots[i].episode.frames|
      ensures ModelRan(results, slots) && AnswersAlone(results, slots)
    {
      var inputs := Observe(slots);
      results := runtime(inputs);
      if RowWise(runtime) {
        RowsAlone(slots, inputs, episodes);
      }
    }

    /** Counts the batch, commits its rows and names the key of the first one refused. */
    method CommitRows(slots: seq<ReplaySlot<F, M>>, results: seq<Outcome<M, O>>, episodes: seq<Episode<F>>,
                      ghost keys: seq<Key>)
      returns (ok: bool, ghost count: nat)
      requires SlotsOk(slots, episodes, runtime) && RowsOk(rows, keys, episodes, runtime)
      requires forall i :: 0 <= i < |slots| ==> slots[i].step < |slots[i].episode.frames|
      requires AnswersAlone(results, slots)
      modifies this, slots
      ensures batches == old(batches) + [|slots|] && count <= |slots| && SlotsOk(slots, episodes, runtime)
      ensures RowsOk(rows, keys + KeysIn(old(Abs(slots)), old(|batches|))[..count], episodes, runtime)
      ensures ok ==> count == |slots| && forall i :: 0 <= i < |slots| ==> slots[i].step == old(slots[i].step) + 1
      ensures !ok && RowWise(runtime) ==>
                count < |slots| && NonfiniteAt(KeysIn(old(Abs(slots)), old(|batches|))[count], episodes, runtime)
    {
      batches := batches + [|slots|];
      ok, count := Commit(slots, results, episodes, keys);
    }

    /** One model call over the current slots: observe, run and commit. */
    method CallBatch(slots: seq<ReplaySlot<F, M>>, episodes: seq<Episode<F>>, ghost keys: seq<Key>,
                     ghost after: seq<Key>)
      returns (ok: bool, ghost logged: seq<Key>)
      requires SlotsOk(slots, episodes, runtime)
               && forall i :: 0 <= i < |slots| ==> slots[i].step < |slots[i].episode.frames|
      requires RowsOk(rows, keys, episodes, runtime) && after == keys + KeysIn(Abs(slots), |batches|)
      modifies this, slots
      ensures batches == old(batches) + [|slots|]
      ensures logged <= after && RowsOk(rows, logged, episodes, runtime)
      ensures ok ==> logged == after
      ensures !ok && RowWise(runtime) ==> |logged| < |after| && NonfiniteAt(after[|logged|], episodes, runtime)
      ensures SlotsOk(slots, episodes, runtime)
      ensures ok ==> forall i :: 0 <= i < |slots| ==> slots[i].step == old(slots[i].step) + 1
    {
      ghost var add := KeysIn(Abs(slots), |batches|);
      ghost var count;
      var results := ModelRows(slots, episodes);
      ok, count := CommitRows(slots, results, episodes, keys);
      PartTaken(keys, add, count);
      logged := keys + add[..count];
    }

    /** One batch: call the model, then drop the finished slots. */
    method ReplayBatch(slots: seq<ReplaySlot<F, M>>, episodes: seq<Episode<F>>, ghost next: nat, ghost keys: seq<Key>,
                       ghost after: seq<Key>)
      returns (kept: seq<ReplaySlot<F, M>>, ok: bool, ghost logged: seq<Key>)
      requires SlotsOk(slots, episodes, runtime) && Valid(Abs(slots), next, Lens(episodes, limit))
      requires RowsOk(rows, keys, episodes, runtime) && after == keys + KeysIn(Abs(slots), |batches|)
      modifies this, slots
      ensures batches == old(batches) + [|slots|]
      ensures logged <= after && RowsOk(rows, logged, episodes, runtime)
      ensures ok ==> logged == after
      ensures !ok && RowWise(runtime) ==> |logged| < |after| && NonfiniteAt(after[|logged|], episodes, runtime)
      ensures ok ==> SlotsOk(kept, episodes, runtime) && (forall i :: 0 <= i < |kept| ==> kept[i] in slots)
      ensures forall i :: 0 <= i < |slots| ==> slots[i].ep < |episodes|
      ensures ok ==> Abs(kept) == Advanced(old(Abs(slots)), Lens(episodes, limit))
    {
      ReadyFrames(slots, episodes, next, limit, runtime);
      ghost var batch := Abs(slots);
      ok, logged := CallBatch(slots, episodes, keys, after);
      kept := [];
      if ok {
        kept := KeepUnfinished(slots, episodes, batch);
      }
    }

    /** Replays every episode; the log is a prefix of the schedule's rows, complete on success. It
        shows each episode's frames in order, none past the step limit, and on success all below it. */
    method Run(episodes: seq<Episode<F>>) returns (status: Status, ghost keys: seq<Key>)
      requires 1 <= batchSize && Loaded(episodes, limit)
      modifies this
      ensures Positive(Lens(episodes, limit))
      ensures var all := Keys(Schedule(Lens(episodes, limit), batchSize));
              && keys <= all && RowsOk(rows, keys, episodes, runtime)
              && (status == Complete ==> keys == all)
              && (status == Failed && RowWise(runtime) ==>
                  |keys| < |all| && NonfiniteAt(all[|keys|], episodes, runtime))
      ensures status == Complete ==> batches == Sizes(Schedule(Lens(episodes, limit), batchSize))
      ensures RowWise(runtime) ==> (status == Complete <==> AllFinite(episodes, limit, runtime))
      ensures PlainLog(rows, batches, episodes, limit, batchSize, status == Complete)
    {
      status, keys := Loop(episodes);
      if RowWise(runtime) {
        if status == Complete {
          CompleteIsFinite(rows, episodes, limit, batchSize, runtime);
        } else {
          FailedIsNonfinite(keys, episodes, limit, batchSize, runtime);
        }
      }
      RowsPlaced(rows, keys, episodes, runtime);
      LogPlainly(rows, keys, batches, episodes, limit, batchSize, status == Complete);
    }

    /** The replay loop: fill the slots, call the batch, until none is left or a row is refused. */
    method Loop(episodes: seq<Episode<F>>) returns (status: Status, ghost keys: seq<Key>)
      requires 1 <= batchSize && Loaded(episodes, limit)
      modifies this
      ensures Positive(Lens(episodes, limit))
      ensures var all := Keys(Schedule(Lens(episodes, limit), batchSize));
              && keys <= all && RowsOk(rows, keys, episodes, runtime)
              && (status == Complete ==> keys == all)
              && (status == Failed && RowWise(runtime) ==>
                  |keys| < |all| && NonfiniteAt(all[|keys|], episodes, runtime))
      ensures status == Complete ==> batches == Sizes(Schedule(Lens(episodes, limit), batchSize))
    {
      rows, batches, keys := [], [], [];
      var slots: seq<ReplaySlot<F, M>>, pending: nat := [], 0;
      ghost var lens := Lens(episodes, limit);
      ghost var done: seq<seq<Slot>> := [];
      assert Positive(lens);
      while true
        invariant (forall s :: s in slots ==> fresh(s)) && SlotsOk(slots, episodes, runtime)
        invariant Underway(done, Abs(slots), pending, lens, batchSize)
        invariant keys == Keys(done) && RowsOk(rows, keys, episodes, runtime) && batches == Sizes(done)
        decreases Work(Abs(slots), pending, lens)
      {
        ghost var active, next := Abs(slots), pending;
        slots, pending := Admit(slots, pending, episodes);
        assert forall s :: s in slots ==> fresh(s);
        ghost var batch := Abs(slots);
        if slots == [] {
          UnderwayDone(done, active, next, lens, batchSize);
          break;
        }
        UnderwayStep(done, active, next, lens, batchSize);
        var ok;
        slots, ok, keys := ReplayBatch(slots, episodes, pending, keys, keys + KeysIn(batch, |done|));
        if !ok {
          return Failed, keys;
        }
        done := done + [batch];
      }
      status := Complete;
    }
  }

  /** The batches done and those still to come are the schedule. */
  ghost predicate Underway(done: seq<seq<Slot>>, active: seq<Slot>, next: nat, lens: seq<nat>, b: nat) {
    Valid(active, next, lens) && Positive(lens) && 1 <= b && done + Batches(active, next, lens, b) == Schedule(lens, b)
  }

  lemma UnderwayDone(done: seq<seq<Slot>>, active: seq<Slot>, next: nat, lens: seq<nat>, b: nat)
    requires Underway(done, active, next, lens, b) && Refilled(active, next, |lens|, b) == []
    ensures done == Schedule(lens, b)
  {
    assert done + [] == done;
  }

  lemma UnderwayStep(done: seq<seq<Slot>>, active: seq<Slot>, next: nat, lens: seq<nat>, b: nat)
    requires Underway(done, active, next, lens, b) && Refilled(active, next, |lens|, b) != []
    ensures var batch, next' := Refilled(active, next, |lens|, b), NextAfter(active, next, |lens|, b);
            && Valid(batch, next', lens) && Underway(done + [batch], Advanced(batch, lens), next', lens, b)
            && Work(Advanced(batch, lens), next', lens) < Work(active, next, lens)
            && Keys(done + [batch]) == Keys(done) + KeysIn(batch, |done|)
            && Keys(done + [batch]) <= Keys(Schedule(lens, b))
            && Sizes(done + [batch]) == Sizes(done) + [|batch|]
  {
    BatchStep(done, active, next, lens, b);
  }

  /** One batch of a schedule, seen from the log. */
  lemma BatchStep(done: seq<seq<Slot>>, active: seq<Slot>, next: nat, lens: seq<nat>, b: nat)
    requires Valid(active, next, lens) && Positive(lens)
    requires Refilled(active, next, |lens|, b) != []
    ensures var batch, next' := Refilled(active, next, |lens|, b), NextAfter(active, next, |lens|, b);
            && Valid(batch, next', lens) && Valid(Advanced(batch, lens), next', lens)
            && Work(Advanced(batch, lens), next', lens) < Work(active, next, lens)
            && |Advanced(batch, lens)| <= |batch|
            && (done + [batch]) + Batches(Advanced(batch, lens), next', lens, b)
               == done + Batches(active, next, lens, b)
            && done + [batch] <= done + Batches(active, next, lens, b)
            && Keys(done + [batch]) == Keys(done) + KeysIn(batch, |done|)
            && Keys(done + [batch]) <= Keys(done + Batches(active, next, lens, b))
            && Sizes(done + [batch]) == Sizes(done) + [|batch|]
  {
    var batch, next' := Refilled(active, next, |lens|, b), NextAfter(active, next, |lens|, b);
    RefillFacts(active, next, lens, b);
    AdvanceFacts(batch, next', lens);
    KeysStep(done, batch, Batches(Advanced(batch, lens), next', lens, b));
  }

  lemma PartTaken<T>(a: seq<T>, b: seq<T>, n: nat)
    requires n <= |b|
    ensures a + b[..n] <= a + b && (n == |b| ==> a + b[..n] == a + b)
    ensures n < |b| ==> |a + b[..n]| < |a + b| && (a + b)[|a + b[..n]|] == b[n]
  {
  }

  lemma Reassociate<T>(a: seq<T>, x: T, b: seq<T>)
    ensures (a + [x]) + b == a + ([x] + b) && (a + [x])[..|a|] == a
  {
  }

  lemma KeysStep(done: seq<seq<Slot>>, batch: seq<Slot>, rest: seq<seq<Slot>>)
    ensures (done + [batch]) + rest == done + ([batch] + rest)
    ensures Keys(done + [batch]) == Keys(done) + KeysIn(batch, |done|)
    ensures Keys(done + [batch]) <= Keys(done + ([batch] + rest))
    ensures Sizes(done + [batch]) == Sizes(done) + [|batch|]
  {
    Reassociate(done, batch, rest);
    KeysPrefix(done + [batch], rest);
  }

  /** How many slots each batch held. */
  function Sizes(batches: seq<seq<Slot>>): (sizes: seq<nat>)
    ensures |sizes| == |batches|
  {
    if batches == [] then [] else Sizes(batches[..|batches| - 1]) + [|batches[|batches| - 1]|]
  }

  lemma {:induction false} KeysPrefix(batches: seq<seq<Slot>>, rest: seq<seq<Slot>>)
    ensures Keys(batches) <= Keys(batches + rest)
    decreases |rest|
  {
    if rest == [] {
      assert batches + rest == batches;
    } else {
      var n := |rest| - 1;
      KeysPrefix(batches, rest[..n]);
      assert (batches + rest)[..|batches| + n] == batches + rest[..n];
    }
  }

  lemma ReadyFrames<F(!new), M(!new), O(!new)>(slots: seq<ReplaySlot<F, M>>, episodes: seq<Episode<F>>, next: nat,
                                               limit: Option<nat>, rt: Runtime<F, M, O>)
    requires SlotsOk(slots, episodes, rt) && Valid(Abs(slots), next, Lens(episodes, limit))
    ensures forall i :: 0 <= i < |slots| ==> slots[i].step < |slots[i].episode.frames|
  {
    forall i | 0 <= i < |slots| ensures slots[i].step < |slots[i].episode.frames| {
      assert Unfinished(Abs(slots)[i], next, Lens(episodes, limit));
    }
  }

  lemma {:induction false} AdvancedAppend(batch: seq<Slot>, s: Slot, lens: seq<nat>)
    requires forall i :: 0 <= i < |batch| ==> batch[i].ep < |lens|
    requires s.ep < |lens|
    ensures Advanced(batch + [s], lens)
            == Advanced(batch, lens) + if s.step + 1 < lens[s.ep] then [Slot(s.ep, s.step + 1)] else []
  {
    var last := if s.step + 1 < lens[s.ep] then [Slot(s.ep, s.step + 1)] else [];
    if batch == [] {
      assert batch + [s] == [s] && [s][1..] == [];
      assert Advanced([s], lens) == last + [];
    } else {
      var first := if batch[0].step + 1 < lens[batch[0].ep] then [Slot(batch[0].ep, batch[0].step + 1)] else [];
      AdvancedAppend(batch[1..], s, lens);
      assert (batch + [s])[1..] == batch[1..] + [s];
      assert first + (Advanced(batch[1..], lens) + last) == (first + Advanced(batch[1..], lens)) + last;
    }
  }

  // ---- the batched log refines the simple loop ----

  /** The steps and outputs the log holds for one episode id, in log order. */
  function LogOf<O>(rows: seq<Row<O>>, id: int): seq<(nat, O)> {
    if rows == [] then [] else
      LogOf(rows[..|rows| - 1], id) +
      (var last := rows[|rows| - 1]; if last.episodeId == id then [(last.step, last.output)] else [])
  }

  /** The log of one episode replayed alone from empty memory. */
  ghost function AloneLog<F(!new), M(!new), O(!new)>(rt: Runtime<F, M, O>, ep: Episode<F>, len: nat): seq<(nat, O)>
    requires RowWise(rt) && len <= |ep.frames|
  {
    seq(len, i requires 0 <= i < len => (i, Alone(rt, ep, i).output))
  }

  function StepsOfKeys(keys: seq<Key>, e: nat): seq<nat> {
    if keys == [] then [] else
      StepsOfKeys(keys[..|keys| - 1], e) + (var last := keys[|keys| - 1]; if last.ep == e then [last.step] else [])
  }

  lemma {:induction false} StepsOfKeysIn(keys: seq<Key>, batch: seq<Slot>, index: nat, e: nat)
    ensures StepsOfKeys(keys + KeysIn(batch, index), e) == StepsOfKeys(keys, e) + StepsIn(batch, e)
  {
    if batch == [] {
      assert keys + KeysIn(batch, index) == keys;
    } else {
      var n := |batch| - 1;
      var all := keys + KeysIn(batch, index);
      StepsOfKeysIn(keys, batch[..n], index, e);
      assert all[..|all| - 1] == keys + KeysIn(batch[..n], index);
      StepsInAppend(batch[..n], batch[n], e);
      assert batch == batch[..n] + [batch[n]];
    }
  }

  lemma {:induction false} StepsAppend(batches: seq<seq<Slot>>, batch: seq<Slot>, e: nat)
    ensures Steps(batches + [batch], e) == Steps(batches, e) + StepsIn(batch, e)
  {
    if batches != [] {
      StepsAppend(batches[1..], batch, e);
      assert (batches + [batch])[1..] == batches[1..] + [batch];
    }
  }

  lemma {:induction false} StepsOfSchedule(batches: seq<seq<Slot>>, e: nat)
    ensures StepsOfKeys(Keys(batches), e) == Steps(batches, e)
  {
    if batches != [] {
      var n := |batches| - 1;
      StepsOfSchedule(batches[..n], e);
      StepsOfKeysIn(Keys(batches[..n]), batches[n], n, e);
      StepsAppend(batches[..n], batches[n], e);
      assert batches == batches[..n] + [batches[n]];
    }
  }

  ghost predicate DistinctIds<F>(episodes: seq<Episode<F>>) {
    forall i, j :: 0 <= i < j < |episodes| ==> episodes[i].id != episodes[j].id
  }

  lemma {:induction false} LogMatchesKeys<F(!new), M(!new), O(!new)>(rows: seq<Row<O>>, keys: seq<Key>,
                                                                     episodes: seq<Episode<F>>,
                                                                     rt: Runtime<F, M, O>, e: nat)
    requires RowWise(rt) && RowsOk(rows, keys, episodes, rt) && DistinctIds(episodes) && e < |episodes|
    ensures forall i :: 0 <= i < |StepsOfKeys(keys, e)| ==> StepsOfKeys(keys, e)[i] < |episodes[e].frames|
    ensures |LogOf(rows, episodes[e].id)| == |StepsOfKeys(keys, e)|
    ensures forall i :: 0 <= i < |StepsOfKeys(keys, e)| ==>
              LogOf(rows, episodes[e].id)[i] == (StepsOfKeys(keys, e)[i],
                                                 Alone(rt, episodes[e], StepsOfKeys(keys, e)[i]).output)
  {
    if rows != [] {
      var n := |rows| - 1;
      assert RowOk(rows[n], keys[n], episodes, rt);
      LogMatchesKeys(rows[..n], keys[..n], episodes, rt, e);
    }
  }

  /** The batched log, restricted to an episode, is that episode replayed alone. */
  lemma BatchedRefinesAlone<F(!new), M(!new), O(!new)>(rows: seq<Row<O>>, episodes: seq<Episode<F>>, limit: Option<nat>,
                                                       b: nat, rt: Runtime<F, M, O>, e: nat)
    requires Loaded(episodes, limit) && 1 <= b && RowWise(rt) && DistinctIds(episodes) && e < |episodes|
    requires Positive(Lens(episodes, limit))
    requires RowsOk(rows, Keys(Schedule(Lens(episodes, limit), b)), episodes, rt)
    ensures LogOf(rows, episodes[e].id) == AloneLog(rt, episodes[e], FramesOf(episodes[e], limit))
  {
    var lens := Lens(episodes, limit);
    var keys := Keys(Schedule(lens, b));
    LogMatchesKeys(rows, keys, episodes, rt, e);
    StepsOfSchedule(Schedule(lens, b), e);
    Coverage(lens, b, e);
  }

  /** The log of a complete replay has exactly the expected number of rows. */
  lemma {:induction false} KeysTotal(batches: seq<seq<Slot>>)
    ensures |Keys(batches)| == Total(batches)
  {
    if batches != [] {
      var n := |batches| - 1;
      KeysTotal(batches[..n]);
      TotalAppend(batches[..n], batches[n]);
      assert batches == batches[..n] + [batches[n]];
    }
  }

  lemma {:induction false} TotalAppend(batches: seq<seq<Slot>>, batch: seq<Slot>)
    ensures Total(batches + [batch]) == Total(batches) + |batch|
  {
    if batches != [] {
      TotalAppend(batches[1..], batch);
      assert (batches + [batch])[1..] == batches[1..] + [batch];
    }
  }

  lemma CompleteCoverage<F(!new), M(!new), O(!new)>(rows: seq<Row<O>>, episodes: seq<Episode<F>>, limit: Option<nat>,
                                                    b: nat, rt: Runtime<F, M, O>)
    requires Loaded(episodes, limit) && 1 <= b && Positive(Lens(episodes, limit))
    requires RowsOk(rows, Keys(Schedule(Lens(episodes, limit), b)), episodes, rt)
    ensures |rows| == Sum(Lens(episodes, limit))
  {
    KeysTotal(Schedule(Lens(episodes, limit), b));
    Conservation(Lens(episodes, limit), b);
  }

  /** The step of a key is the number of earlier keys of its episode. */
  lemma {:induction false} RankInSteps(keys: seq<Key>, k: nat, e: nat)
    requires k < |keys| && keys[k].ep == e
    ensures |StepsOfKeys(keys[..k], e)| < |StepsOfKeys(keys, e)|
    ensures StepsOfKeys(keys, e)[|StepsOfKeys(keys[..k], e)|] == keys[k].step
    decreases |keys|
  {
    var n := |keys| - 1;
    if k < n {
      RankInSteps(keys[..n], k, e);
      assert keys[..n][..k] == keys[..k];
    }
  }

  lemma {:induction false} RanksGrow(keys: seq<Key>, j: nat, k: nat, e: nat)
    requires j < k <= |keys| && keys[j].ep == e
    ensures |StepsOfKeys(keys[..j], e)| < |StepsOfKeys(keys[..k], e)|
  {
    RankInSteps(keys[..k], j, e);
    assert keys[..k][..j] == keys[..j];
  }

  /** A key of the schedule comes after all keys of its episode with a smaller step, and no others. */
  lemma KeyOrder(lens: seq<nat>, b: nat, j: nat, k: nat)
    requires Positive(lens) && 1 <= b && j < k < |Keys(Schedule(lens, b))|
    requires Keys(Schedule(lens, b))[j].ep == Keys(Schedule(lens, b))[k].ep < |lens|
    ensures Keys(Schedule(lens, b))[j].step < Keys(Schedule(lens, b))[k].step
  {
    var keys := Keys(Schedule(lens, b));
    var e := keys[j].ep;
    StepsOfSchedule(Schedule(lens, b), e);
    Coverage(lens, b, e);
    RankInSteps(keys, j, e);
    RankInSteps(keys, k, e);
    RanksGrow(keys, j, k, e);
  }

  /** Row for row the log shows the batches, episodes and steps of the keys. */
  ghost predicate Placed<F, O>(rows: seq<Row<O>>, keys: seq<Key>, episodes: seq<Episode<F>>) {
    |rows| == |keys|
    && forall k :: 0 <= k < |rows| ==>
         && keys[k].ep < |episodes| && rows[k].episodeId == episodes[keys[k].ep].id
         && rows[k].step == keys[k].step && rows[k].batchIndex == keys[k].batch
  }

  lemma RowsPlaced<F(!new), M(!new), O(!new)>(rows: seq<Row<O>>, keys: seq<Key>, episodes: seq<Episode<F>>,
                                              rt: Runtime<F, M, O>)
    requires RowsOk(rows, keys, episodes, rt)
    ensures Placed(rows, keys, episodes)
  {
    forall k | 0 <= k < |rows| ensures RowOk(rows[k], keys[k], episodes, rt) {
    }
  }

  lemma RowsWithin<F, O>(rows: seq<Row<O>>, keys: seq<Key>, episodes: seq<Episode<F>>, limit: Option<nat>, b: nat)
    requires 1 <= b && Positive(Lens(episodes, limit)) && Placed(rows, keys, episodes)
    requires keys <= Keys(Schedule(Lens(episodes, limit), b))
    ensures WithinLimit(rows, episodes, limit)
  {
    var lens := Lens(episodes, limit);
    BatchesValid([], 0, lens, b);
    forall k | 0 <= k < |rows| ensures ShowsFrame(rows[k], episodes, limit) {
      KeyInSchedule(Schedule(lens, b), lens, k);
      assert keys[k] == Keys(Schedule(lens, b))[k];
    }
  }

  lemma RowsAscend<F, O>(rows: seq<Row<O>>, keys: seq<Key>, episodes: seq<Episode<F>>, limit: Option<nat>, b: nat)
    requires 1 <= b && Positive(Lens(episodes, limit)) && DistinctIds(episodes) && Placed(rows, keys, episodes)
    requires keys <= Keys(Schedule(Lens(episodes, limit), b))
    ensures StepsAscend(rows)
  {
    var all := Keys(Schedule(Lens(episodes, limit), b));
    forall j, k | 0 <= j < k < |rows| && rows[j].episodeId == rows[k].episodeId ensures rows[j].step < rows[k].step {
      assert keys[j] == all[j] && keys[k] == all[k];
      KeyOrder(Lens(episodes, limit), b, j, k);
    }
  }

  lemma FramesShown<F, O>(rows: seq<Row<O>>, episodes: seq<Episode<F>>, limit: Option<nat>, b: nat)
    requires 1 <= b && Positive(Lens(episodes, limit))
    requires Placed(rows, Keys(Schedule(Lens(episodes, limit), b)), episodes)
    ensures EveryFrame(rows, episodes, limit)
  {
    var lens := Lens(episodes, limit);
    forall e, t | 0 <= e < |episodes| && 0 <= t < |episodes[e].frames| && (limit.None? || t < limit.value)
      ensures ShowsStep(rows, episodes[e].id, t)
    {
      StepsOfSchedule(Schedule(lens, b), e);
      Coverage(lens, b, e);
      var k := StepHasKey(Keys(Schedule(lens, b)), e, t);
    }
  }

  /** The rows of all batches but the last, and those of the last. */
  lemma PlacedParts<F, O>(rows: seq<Row<O>>, done: seq<seq<Slot>>, episodes: seq<Episode<F>>, m: nat, before: nat)
    requires Placed(rows, Keys(done), episodes) && m + 1 == |done| && before == |Keys(done[..m])|
    ensures |rows| == before + |done[m]| && Placed(rows[..before], Keys(done[..m]), episodes)
    ensures forall k :: 0 <= k < |done[m]| ==> rows[before..][k].batchIndex == m
  {
    assert Keys(done) == Keys(done[..m]) + KeysIn(done[m], m);
    forall k | 0 <= k < |done[m]| ensures rows[before..][k].batchIndex == m {
      assert Keys(done)[before + k] == KeysIn(done[m], m)[k];
    }
    assert forall k :: 0 <= k < before ==> rows[..before][k] == rows[k] && Keys(done)[k] == Keys(done[..m])[k];
  }

  lemma {:induction false} RowsOfBatch<F, O>(rows: seq<Row<O>>, done: seq<seq<Slot>>, episodes: seq<Episode<F>>, n: nat)
    requires Placed(rows, Keys(done), episodes)
    ensures RowsIn(rows, n) == if n < |done| then |done[n]| else 0
    ensures forall k :: 0 <= k < |rows| ==> rows[k].batchIndex < |done|
    decreases |done|
  {
    if done != [] {
      var m := |done| - 1;
      var before := |Keys(done[..m])|;
      PlacedParts(rows, done, episodes, m, before);
      RowsOfBatch(rows[..before], done[..m], episodes, n);
      RowsInMore(rows[..before], rows[before..], m, n);
      assert rows == rows[..before] + rows[before..];
      forall k | 0 <= k < |rows| ensures rows[k].batchIndex <= m {
        assert k >= before ==> rows[before..][k - before].batchIndex == m;
        assert k < before ==> rows[..before][k] == rows[k];
      }
    }
  }

  lemma {:induction false} RowsInMore<O>(rows: seq<Row<O>>, more: seq<Row<O>>, m: nat, n: nat)
    requires forall k :: 0 <= k < |more| ==> more[k].batchIndex == m
    ensures RowsIn(rows + more, n) == RowsIn(rows, n) + if n == m then |more| else 0
    decreases |more|
  {
    if more == [] {
      assert rows + more == rows;
    } else {
      RowsInMore(rows, more[..|more| - 1], m, n);
      assert (rows + more)[..|rows + more| - 1] == rows + more[..|more| - 1];
    }
  }

  lemma RankInLast<F, O>(rows: seq<Row<O>>, done: seq<seq<Slot>>, episodes: seq<Episode<F>>, m: nat, before: nat,
                         k: nat)
    requires Placed(rows, Keys(done), episodes) && m + 1 == |done| && before == |Keys(done[..m])|
             && before <= k < |rows|
    ensures RowsIn(rows[..k], m) == k - before
  {
    PlacedParts(rows, done, episodes, m, before);
    RowsOfBatch(rows[..before], done[..m], episodes, m);
    var more := rows[before..k];
    forall i | 0 <= i < k - before ensures more[i].batchIndex == m {
      assert more[i] == rows[before..][i];
    }
    RowsInMore(rows[..before], more, m, m);
    assert rows[..k] == rows[..before] + more;
  }

  lemma KeyOfLast(done: seq<seq<Slot>>, m: nat, before: nat, k: nat)
    requires m + 1 == |done| && before == |Keys(done[..m])| && k < |Keys(done)|
    ensures |Keys(done)| == before + |done[m]|
    ensures Keys(done)[k] == if k < before then Keys(done[..m])[k] else KeysIn(done[m], m)[k - before]
  {
    assert Keys(done) == Keys(done[..m]) + KeysIn(done[m], m);
  }

  /** The place of a key is the number of earlier rows of its batch. */
  lemma {:induction false} PlaceIsRank<F, O>(rows: seq<Row<O>>, done: seq<seq<Slot>>, episodes: seq<Episode<F>>, k: nat)
    requires Placed(rows, Keys(done), episodes) && k < |rows|
    ensures RowsIn(rows[..k], rows[k].batchIndex) == Keys(done)[k].place
    decreases |done|
  {
    var m := |done| - 1;
    var before := |Keys(done[..m])|;
    KeyOfLast(done, m, before, k);
    if k < before {
      PlacedParts(rows, done, episodes, m, before);
      PlaceIsRank(rows[..before], done[..m], episodes, k);
      assert rows[..before][..k] == rows[..k] && rows[..before][k] == rows[k];
    } else {
      RankInLast(rows, done, episodes, m, before, k);
      assert rows[k].batchIndex == m && Keys(done)[k].place == k - before;
    }
  }

  lemma {:induction false} SizesAre(done: seq<seq<Slot>>, n: nat)
    requires n < |done|
    ensures Sizes(done)[n] == |done[n]|
  {
    if n < |done| - 1 {
      SizesAre(done[..|done| - 1], n);
    }
  }

  lemma BatchesOccupied<F, O>(rows: seq<Row<O>>, lens: seq<nat>, b: nat, episodes: seq<Episode<F>>)
    requires Positive(lens) && 1 <= b && Placed(rows, Keys(Schedule(lens, b)), episodes)
    ensures Occupied(Sizes(Schedule(lens, b)), rows, b)
  {
    var schedule := Schedule(lens, b);
    TotalFrom([], 0, lens, b);
    RowsOfBatch(rows, schedule, episodes, 0);
    forall n | 0 <= n < |schedule| ensures 1 <= Sizes(schedule)[n] <= b && Sizes(schedule)[n] == RowsIn(rows, n) {
      SizesAre(schedule, n);
      RowsOfBatch(rows, schedule, episodes, n);
    }
  }

  /** What any prefix of the schedule's log shows, and what the whole shows. */
  lemma LogPlainly<F, O>(rows: seq<Row<O>>, keys: seq<Key>, batches: seq<nat>, episodes: seq<Episode<F>>,
                         limit: Option<nat>, b: nat, complete: bool)
    requires 1 <= b && Positive(Lens(episodes, limit)) && Placed(rows, keys, episodes)
    requires keys <= Keys(Schedule(Lens(episodes, limit), b))
    requires complete ==>
               keys == Keys(Schedule(Lens(episodes, limit), b)) && batches == Sizes(Schedule(Lens(episodes, limit), b))
    ensures PlainLog(rows, batches, episodes, limit, b, complete)
  {
    RowsWithin(rows, keys, episodes, limit, b);
    if DistinctIds(episodes) {
      RowsAscend(rows, keys, episodes, limit, b);
    }
    if complete {
      FramesShown(rows, episodes, limit, b);
      BatchesOccupied(rows, Lens(episodes, limit), b, episodes);
    }
  }

  /** The outcome is the runtime's on frame `t` alone, with the given memory. */
  ghost predicate AnswersFrame<F(!new), M(!new), O(!new)>(outcome: Outcome<M, O>, rt: Runtime<F, M, O>, ep: Episode<F>,
                                                          t: nat, memory: Option<M>) {
    t < |ep.frames| && rt([(Observation(ep.frames[t], ep.instruction), memory)]) == [outcome]
  }

  /** The memory left by the answers before frame `t`. */
  function MemoryLeft<M, O>(outcomes: seq<Outcome<M, O>>, t: nat): Option<M>
    requires t <= |outcomes|
  {
    if t == 0 then None else Some(outcomes[t - 1].memory)
  }

  /** Each frame is answered with the memory of the answer before, the first with none. */
  ghost predicate Chains<F(!new), M(!new), O(!new)>(outcomes: seq<Outcome<M, O>>, rt: Runtime<F, M, O>, ep: Episode<F>)
  {
    && |outcomes| == |ep.frames|
    && forall t :: 0 <= t < |outcomes| ==> AnswersFrame(outcomes[t], rt, ep, t, MemoryLeft(outcomes, t))
  }

  lemma AloneAnswers<F(!new), M(!new), O(!new)>(rt: Runtime<F, M, O>, ep: Episode<F>, t: nat)
    requires RowWise(rt) && t < |ep.frames|
    ensures AnswersFrame(Alone(rt, ep, t), rt, ep, t, if t == 0 then None else Some(Alone(rt, ep, t - 1).memory))
  {
    var memory := if t == 0 then None else Some(Alone(rt, ep, t - 1).memory);
    var inputs := [(Observation(ep.frames[t], ep.instruction), memory)];
    assert |rt(inputs)| == |inputs| && rt(inputs) == [rt(inputs)[0]];
  }

  /** Every logged output is the one of its step when its episode alone is run from no memory, and finite. */
  lemma LoggedInTurn<F(!new), M(!new), O(!new)>(rows: seq<Row<O>>, keys: seq<Key>, episodes: seq<Episode<F>>,
                                                rt: Runtime<F, M, O>, e: nat)
    returns (outcomes: seq<Outcome<M, O>>)
    requires RowWise(rt) && RowsOk(rows, keys, episodes, rt) && DistinctIds(episodes) && e < |episodes|
    ensures Chains(outcomes, rt, episodes[e])
    ensures forall k :: 0 <= k < |rows| && rows[k].episodeId == episodes[e].id ==>
              rows[k].step < |outcomes| && outcomes[rows[k].step].finite
              && rows[k].output == outcomes[rows[k].step].output
  {
    var ep := episodes[e];
    outcomes := seq(|ep.frames|, t requires 0 <= t < |ep.frames| => Alone(rt, ep, t));
    forall t | 0 <= t < |outcomes| ensures AnswersFrame(outcomes[t], rt, ep, t, MemoryLeft(outcomes, t)) {
      AloneAnswers(rt, ep, t);
      assert outcomes[t] == Alone(rt, ep, t) && (t > 0 ==> outcomes[t - 1] == Alone(rt, ep, t - 1));
    }
    forall k | 0 <= k < |rows| && rows[k].episodeId == ep.id
      ensures rows[k].step < |outcomes| && outcomes[rows[k].step].finite
              && rows[k].output == outcomes[rows[k].step].output
    {
      assert RowOk(rows[k], keys[k], episodes, rt);
    }
  }

  // ---- success is exactly finiteness of every episode alone ----

  ghost predicate AllFinite<F(!new), M(!new), O(!new)>(episodes: seq<Episode<F>>, limit: Option<nat>,
                                                       rt: Runtime<F, M, O>)
    requires RowWise(rt)
  {
    forall e, t :: 0 <= e < |episodes| && 0 <= t < FramesOf(episodes[e], limit) ==> Alone(rt, episodes[e], t).finite
  }

  lemma {:induction false} KeyInSchedule(batches: seq<seq<Slot>>, lens: seq<nat>, k: nat)
    requires forall i :: 0 <= i < |batches| ==> Valid(batches[i], |lens|, lens)
    requires k < |Keys(batches)|
    ensures Keys(batches)[k].ep < |lens| && Keys(batches)[k].step < lens[Keys(batches)[k].ep]
  {
    var n := |batches| - 1;
    var before := Keys(batches[..n]);
    if k < |before| {
      KeyInSchedule(batches[..n], lens, k);
    } else {
      assert Unfinished(batches[n][k - |before|], |lens|, lens);
    }
  }

  lemma {:induction false} StepHasKey(keys: seq<Key>, e: nat, i: nat) returns (k: nat)
    requires i < |StepsOfKeys(keys, e)|
    ensures k < |keys| && keys[k].ep == e && keys[k].step == StepsOfKeys(keys, e)[i]
  {
    var n := |keys| - 1;
    if i < |StepsOfKeys(keys[..n], e)| {
      k := StepHasKey(keys[..n], e, i);
    } else {
      k := n;
    }
  }

  lemma CompleteIsFinite<F(!new), M(!new), O(!new)>(rows: seq<Row<O>>, episodes: seq<Episode<F>>, limit: Option<nat>,
                                                    b: nat, rt: Runtime<F, M, O>)
    requires Loaded(episodes, limit) && 1 <= b && RowWise(rt) && Positive(Lens(episodes, limit))
    requires RowsOk(rows, Keys(Schedule(Lens(episodes, limit), b)), episodes, rt)
    ensures AllFinite(episodes, limit, rt)
  {
    var lens := Lens(episodes, limit);
    var keys := Keys(Schedule(lens, b));
    forall e, t | 0 <= e < |episodes| && 0 <= t < FramesOf(episodes[e], limit)
      ensures Alone(rt, episodes[e], t).finite
    {
      StepsOfSchedule(Schedule(lens, b), e);
      Coverage(lens, b, e);
      var k := StepHasKey(keys, e, t);
      assert RowOk(rows[k], keys[k], episodes, rt);
    }
  }

  lemma FailedIsNonfinite<F(!new), M(!new), O(!new)>(keys: seq<Key>, episodes: seq<Episode<F>>, limit: Option<nat>,
                                                     b: nat, rt: Runtime<F, M, O>)
    requires Loaded(episodes, limit) && 1 <= b && RowWise(rt) && Positive(Lens(episodes, limit))
    requires var all := Keys(Schedule(Lens(episodes, limit), b));
             |keys| < |all| && NonfiniteAt(all[|keys|], episodes, rt)
    ensures !AllFinite(episodes, limit, rt)
  {
    var lens := Lens(episodes, limit);
    BatchesValid([], 0, lens, b);
    KeyInSchedule(Schedule(lens, b), lens, |keys|);
  }
}
