/** A whole token-engine replay: episodes are multiplexed over the sessions, batch after batch. */
module SessionRun {
  import opened Wrappers
  import opened Refill
  import opened RefillTheorems
  import opened StopRouting
  import opened BatchReplay
  import opened SessionReplay
  import opened Names

  datatype Logged = Logged(batchIndex: nat, episodeId: int, step: nat, record: Record, historyImages: nat)

  /** What drives a run: `engine(k)` is what the engine does for batch `k`, and the requests of
      batch 0 carry the call number `call`. */
  datatype Source = Source(engine: nat -> seq<seq<Output>>, call: nat, stop: StopTest) {
    /** The record is the one that request `key.place` of batch `key.batch` must have, judged
        from its own outputs in that batch's trace only. */
    ghost predicate Gives(key: Key, record: Record) {
      RecordOk(record, Flatten(engine(key.batch)), RequestId(call + key.batch, key.place), stop)
    }

    /** What history may keep of the stream of request `place` of batch `batch`. */
    ghost predicate Kept(batch: nat, place: nat, kept: seq<Token>) {
      Keeps(kept, Latest(Flatten(engine(batch)), RequestId(call + batch, place)), stop)
    }

    /** The trace of batch `k` is good for its `n` requests. */
    ghost predicate Good(k: nat, n: nat) {
      GoodTrace(engine(k), Requests(call + k, n), stop)
    }

    /** The trace is the one for batch `index`, whose call has number `now`. */
    ghost predicate Feeds(trace: seq<seq<Output>>, now: nat, index: nat, stop: StopTest) {
      trace == engine(index) && now == call + index && stop == this.stop
    }
  }

  ghost function AbsSessions<F>(sessions: seq<ReplaySession<F>>): seq<Slot>
    reads sessions
  {
    seq(|sessions|, i requires 0 <= i < |sessions| reads sessions => Slot(sessions[i].ep, sessions[i].step))
  }

  /** The slots the sessions are at. */
  ghost predicate AtSlots<F>(sessions: seq<ReplaySession<F>>, slots: seq<Slot>)
    reads sessions`step
  {
    |slots| == |sessions| && forall i :: 0 <= i < |slots| ==> slots[i] == Slot(sessions[i].ep, sessions[i].step)
  }

  /** No request of the session is open: one turn, one image and one image name per frame so far. */
  ghost predicate Closed<F>(s: ReplaySession<F>, e: nat, episodes: seq<Episode<F>>, render: Render, stop: StopTest)
    reads s`turns, s`history, s`images, s`imageIds
  {
    && e < |episodes| && s.ep == e && s.episode == episodes[e] && s.identity == SessionId(episodes[e].id)
    && s.Holds(false, render, stop) && |s.turns| <= |s.episode.frames| && s.images == s.episode.frames[..|s.turns|]
  }

  ghost predicate AllClosed<F>(all: seq<ReplaySession<F>>, episodes: seq<Episode<F>>, render: Render, stop: StopTest)
    reads all`turns, all`history, all`images, all`imageIds
  {
    |all| <= |episodes| && forall e :: 0 <= e < |all| ==> Closed(all[e], e, episodes, render, stop)
  }

  /** A session between batches: closed, and at the frame after its turns. */
  ghost predicate Resting<F>(s: ReplaySession<F>, e: nat, episodes: seq<Episode<F>>, render: Render, stop: StopTest)
    reads s
  {
    Closed(s, e, episodes, render, stop) && s.step == |s.turns|
  }

  /** The sessions are one step past the slots of their batch. */
  ghost predicate Moved<F>(sessions: seq<ReplaySession<F>>, batch: seq<Slot>)
    reads sessions`step
  {
    |batch| == |sessions|
    && forall i :: 0 <= i < |sessions| ==> sessions[i].ep == batch[i].ep && sessions[i].step == batch[i].step + 1
  }

  ghost predicate AllRest<F>(all: seq<ReplaySession<F>>, episodes: seq<Episode<F>>, render: Render, stop: StopTest)
    reads all
  {
    |all| <= |episodes| && forall e :: 0 <= e < |all| ==> Resting(all[e], e, episodes, render, stop)
  }

  /** `sessions` are sessions of `all`, which holds the session of every admitted episode. */
  ghost predicate Drawn<F>(sessions: seq<ReplaySession<F>>, all: seq<ReplaySession<F>>) {
    && (forall e :: 0 <= e < |all| ==> all[e].ep == e)
    && (forall i :: 0 <= i < |sessions| ==> sessions[i].ep < |all| && sessions[i] == all[sessions[i].ep])
    && (forall i, j :: 0 <= i < j < |sessions| ==> sessions[i].ep < sessions[j].ep)
  }

  /** The batch, episode, step and record of every logged row. */
  function AsRows(rows: seq<Logged>): (shown: seq<Row<Record>>)
    ensures |shown| == |rows|
  {
    seq(|rows|, k requires 0 <= k < |rows| =>
          Row(rows[k].batchIndex, rows[k].episodeId, rows[k].step, rows[k].record))
  }

  lemma LoggedPlaced<F>(rows: seq<Logged>, keys: seq<Key>, turns: seq<seq<Turn>>, episodes: seq<Episode<F>>,
                        source: Source)
    requires AllLogged(rows, keys, turns, episodes, source)
    ensures Placed(AsRows(rows), keys, episodes)
  {
    forall k | 0 <= k < |rows| ensures LoggedOk(rows[k], keys[k], turns, episodes, source) {
    }
  }

  /** A logged row shows the record its own request has to have, and the tokens of that record
      are those that entered its session's history at that step. */
  ghost predicate LoggedOk<F>(row: Logged, key: Key, turns: seq<seq<Turn>>, episodes: seq<Episode<F>>, source: Source) {
    && key.ep < |turns| <= |episodes| && key.step < |turns[key.ep]|
    && row.batchIndex == key.batch && row.step == key.step && row.historyImages == key.step + 1
    && row.episodeId == episodes[key.ep].id && row.record.tokens == turns[key.ep][key.step].kept
    && source.Gives(key, row.record)
  }

  ghost predicate AllLogged<F>(rows: seq<Logged>, keys: seq<Key>, turns: seq<seq<Turn>>, episodes: seq<Episode<F>>,
                               source: Source) {
    |rows| == |keys| && forall k :: 0 <= k < |rows| ==> LoggedOk(rows[k], keys[k], turns, episodes, source)
  }

  ghost predicate Grown(after: seq<seq<Turn>>, before: seq<seq<Turn>>) {
    |before| <= |after| && forall e :: 0 <= e < |before| ==> before[e] <= after[e]
  }

  lemma LoggedStays<F>(rows: seq<Logged>, keys: seq<Key>, before: seq<seq<Turn>>, after: seq<seq<Turn>>,
                       episodes: seq<Episode<F>>, source: Source)
    requires AllLogged(rows, keys, before, episodes, source) && Grown(after, before) && |after| <= |episodes|
    ensures AllLogged(rows, keys, after, episodes, source)
  {
    forall k | 0 <= k < |rows| ensures LoggedOk(rows[k], keys[k], after, episodes, source) {
      assert LoggedOk(rows[k], keys[k], before, episodes, source);
      assert before[keys[k].ep] <= after[keys[k].ep];
    }
  }

  lemma RowShows<F>(s: ReplaySession<F>, row: Logged, key: Key, all: seq<ReplaySession<F>>, turns: seq<seq<Turn>>,
                    episodes: seq<Episode<F>>, source: Source)
    requires Answered(s, row.record, episodes) && turns == Turns(all) && s.ep < |all| <= |episodes| && all[s.ep] == s
    requires key.ep == s.ep && key.step == s.step && source.Gives(key, row.record)
    requires row == Logged(key.batch, s.episode.id, s.step, row.record, |s.images|)
    ensures LoggedOk(row, key, turns, episodes, source)
  {
  }

  lemma LoggedMore<F>(rows: seq<Logged>, keys: seq<Key>, add: seq<Key>, i: nat, row: Logged, turns: seq<seq<Turn>>,
                      episodes: seq<Episode<F>>, source: Source)
    requires i < |add| && AllLogged(rows, keys + add[..i], turns, episodes, source)
    requires LoggedOk(row, add[i], turns, episodes, source)
    ensures AllLogged(rows + [row], keys + add[..i + 1], turns, episodes, source)
  {
    TakeMore(add, i);
    assert keys + add[..i + 1] == keys + add[..i] + [add[i]];
  }

  class SessionRun<F(!new)> {
    const limit: Option<nat>
    const runtime: SessionReplay<F>
    var rows: seq<Logged>
    var batches: seq<nat>

    constructor (limit: Option<nat>, runtime: SessionReplay<F>)
      ensures this.limit == limit && this.runtime == runtime && rows == [] && batches == []
    {
      this.limit, this.runtime, rows, batches := limit, runtime, [], [];
    }

    /** Admits the next episode with an empty session. */
    method AdmitOne(sessions: seq<ReplaySession<F>>, all: seq<ReplaySession<F>>, episodes: seq<Episode<F>>)
      returns (session: ReplaySession<F>)
      requires AllRest(all, episodes, runtime.render, runtime.stop) && Drawn(sessions, all) && |all| < |episodes|
      ensures fresh(session) && session.step == 0
      ensures AllRest(all + [session], episodes, runtime.render, runtime.stop)
              && Drawn(sessions + [session], all + [session])
      ensures AbsSessions(sessions + [session]) == old(AbsSessions(sessions)) + [Slot(|all|, 0)]
    {
      session := new ReplaySession(SessionId(episodes[|all|].id), episodes[|all|], |all|);
      assert Resting(session, |all|, episodes, runtime.render, runtime.stop);
    }

    /** Fills free places with sessions for the next episodes. */
    method Admit(sessions: seq<ReplaySession<F>>, all: seq<ReplaySession<F>>, episodes: seq<Episode<F>>)
      returns (filled: seq<ReplaySession<F>>, after: seq<ReplaySession<F>>)
      requires AllRest(all, episodes, runtime.render, runtime.stop) && Drawn(sessions, all)
      ensures all <= after && forall e :: |all| <= e < |after| ==> fresh(after[e]) && after[e].step == 0
      ensures AllRest(after, episodes, runtime.render, runtime.stop) && Drawn(filled, after)
      ensures AbsSessions(filled) == Refilled(old(AbsSessions(sessions)), |all|, |episodes|, runtime.batchSize)
      ensures |after| == NextAfter(old(AbsSessions(sessions)), |all|, |episodes|, runtime.batchSize)
    {
      filled, after := sessions, all;
      ghost var active, now := AbsSessions(sessions), AbsSessions(sessions);
      ghost var k: nat := 0;
      while |filled| < runtime.batchSize && |after| < |episodes|
        invariant all <= after && |after| == |all| + k && |filled| == |sessions| + k
        invariant k > 0 ==> |filled| <= runtime.batchSize
        invariant forall e :: |all| <= e < |after| ==> fresh(after[e]) && after[e].step == 0
        invariant AllRest(after, episodes, runtime.render, runtime.stop) && Drawn(filled, after)
        invariant now == AbsSessions(filled)
        invariant now == active + Starts(|all|, k)
        decreases |episodes| - |after|
      {
        var session := AdmitOne(filled, after, episodes);
        StartsGrow(now, active, |all|, k, |after|);
        now := now + [Slot(|after|, 0)];
        filled, after, k := filled + [session], after + [session], k + 1;
      }
      RefillClosed(active, |all|, k, |episodes|, runtime.batchSize);
    }

    method ReadFrames(sessions: seq<ReplaySession<F>>) returns (images: seq<F>)
      requires forall i :: 0 <= i < |sessions| ==> sessions[i].step < |sessions[i].episode.frames|
      ensures |images| == |sessions|
              && forall i :: 0 <= i < |sessions| ==> images[i] == sessions[i].episode.frames[sessions[i].step]
    {
      images := [];
      for i := 0 to |sessions|
        invariant |images| == i && forall k :: 0 <= k < i ==> images[k] == sessions[k].episode.frames[sessions[k].step]
      {
        images := images + [sessions[i].episode.frames[sessions[i].step]];
      }
    }

    /** One engine call for the current frames of the sessions. */
    method Ask(sessions: seq<ReplaySession<F>>, ghost all: seq<ReplaySession<F>>, episodes: seq<Episode<F>>,
               trace: seq<seq<Output>>)
      returns (r: Result<(map<string, Record>, nat), BatchError>)
      requires AllRest(all, episodes, runtime.render, runtime.stop) && Drawn(sessions, all) && DistinctIds(episodes)
      requires 1 <= |sessions| <= runtime.batchSize
      requires forall i :: 0 <= i < |sessions| ==> sessions[i].step < |sessions[i].episode.frames|
      modifies runtime`callIndex, sessions`history, sessions`images, sessions`imageIds, sessions`turns
      ensures runtime.callIndex == old(runtime.callIndex) + 1
      ensures r.Ok? <==> GoodTrace(trace, Requests(old(runtime.callIndex), |sessions|), runtime.stop)
      ensures r.Ok? ==>
                AdvancedAll(sessions, old(Turns(sessions)), Requests(old(runtime.callIndex), |sessions|), r.value.0,
                            runtime.render, runtime.stop)
      ensures r.Ok? ==> Collected(r.value.0, Requests(old(runtime.callIndex), |sessions|), trace, runtime.stop)
      ensures OthersRest(sessions, all, episodes, runtime.render, runtime.stop)
    {
      RestingConsts(sessions, all, episodes, runtime.render, runtime.stop);
      var images := ReadFrames(sessions);
      DueNow(sessions, all, images, episodes, runtime.render, runtime.stop);
      r := AskFor(sessions, images, trace, Turns(sessions), Images(sessions), runtime.callIndex);
    }

    /** A batch of distinct sessions within the batch size reaches the engine. */
    method CallOnce(sessions: seq<ReplaySession<F>>, images: seq<F>, trace: seq<seq<Output>>)
      returns (r: Result<(map<string, Record>, nat), BatchError>)
      requires Separate(sessions) && AllHold(sessions, false, runtime.render, runtime.stop)
               && DistinctIdentities(sessions)
      requires 1 <= |sessions| == |images| <= runtime.batchSize
      modifies runtime`callIndex, sessions`history, sessions`images, sessions`imageIds, sessions`turns
      ensures runtime.callIndex == old(runtime.callIndex) + 1
      ensures AllHold(sessions, r.Err?, runtime.render, runtime.stop)
      ensures Images(sessions) == AppendEach(old(Images(sessions)), images)
      ensures Answer(r, trace, Requests(old(runtime.callIndex), |sessions|), runtime.stop)
      ensures r.Ok? ==>
                AllExtended(Turns(sessions), old(Turns(sessions)), Requests(old(runtime.callIndex), |sessions|),
                            r.value.0)
    {
      r := runtime.CallBatch(sessions, images, trace);
    }

    method AskFor(sessions: seq<ReplaySession<F>>, images: seq<F>, trace: seq<seq<Output>>,
                  ghost before: seq<seq<Turn>>,
                  ghost oldImages: seq<seq<F>>, ghost call: nat)
      returns (r: Result<(map<string, Record>, nat), BatchError>)
      requires Separate(sessions) && AllHold(sessions, false, runtime.render, runtime.stop)
               && DistinctIdentities(sessions)
      requires before == Turns(sessions) && oldImages == Images(sessions) && call == runtime.callIndex
      requires 1 <= |sessions| == |images| <= runtime.batchSize && Due(sessions, before, oldImages, images)
      modifies runtime`callIndex, sessions`history, sessions`images, sessions`imageIds, sessions`turns
      ensures runtime.callIndex == call + 1
      ensures r.Ok? <==> GoodTrace(trace, Requests(call, |sessions|), runtime.stop)
      ensures r.Ok? ==>
                AdvancedAll(sessions, before, Requests(call, |sessions|), r.value.0, runtime.render, runtime.stop)
      ensures r.Ok? ==> Collected(r.value.0, Requests(call, |sessions|), trace, runtime.stop)
    {
      r := CallOnce(sessions, images, trace);
      AnswerIffGood(r, trace, call, |sessions|, runtime.stop);
      if r.Ok? {
        AllAdvance(sessions, before, oldImages, images, Requests(call, |sessions|), r.value.0, runtime.render,
                   runtime.stop);
      }
    }

    /** Asks the engine for one batch; what its log and the other sessions need stays. */
    method AskBatch(sessions: seq<ReplaySession<F>>, ghost all: seq<ReplaySession<F>>, episodes: seq<Episode<F>>,
                  trace: seq<seq<Output>>, ghost before: seq<seq<Turn>>, ghost allBefore: seq<seq<Turn>>,
                  ghost slots: seq<Slot>, ghost index: nat, ghost source: Source)
      returns (r: Result<(map<string, Record>, nat), BatchError>)
      requires AtSlots(sessions, slots) && before == Turns(sessions) && allBefore == Turns(all)
      requires source.Feeds(trace, runtime.callIndex, index, runtime.stop)
      requires AllRest(all, episodes, runtime.render, runtime.stop) && Drawn(sessions, all) && DistinctIds(episodes)
      requires 1 <= |sessions| <= runtime.batchSize
      requires forall i :: 0 <= i < |sessions| ==> sessions[i].step < |sessions[i].episode.frames|
      modifies runtime`callIndex, sessions`history, sessions`images, sessions`imageIds, sessions`turns
      ensures runtime.callIndex == old(runtime.callIndex) + 1
      ensures r.Ok? <==> source.Good(index, |sessions|)
      ensures r.Ok? ==>
                AdvancedAll(sessions, before, Requests(old(runtime.callIndex), |sessions|), r.value.0, runtime.render,
                            runtime.stop)
      ensures r.Ok? ==>
                AllGiven(r.value.0, Requests(old(runtime.callIndex), |sessions|), KeysIn(slots, index), source)
      ensures Fixed(sessions, episodes) && Before(sessions, all, before, allBefore)
      ensures OthersRest(sessions, all, episodes, runtime.render, runtime.stop)
    {
      ghost var call := runtime.callIndex;
      RestingConsts(sessions, all, episodes, runtime.render, runtime.stop);
      FeedsGood(source, trace, call, index, runtime.stop, |sessions|);
      r := Ask(sessions, all, episodes, trace);
      if r.Ok? {
        GivenByEngine(r.value.0, Requests(call, |sessions|), slots, index, trace, source, call, |sessions|);
      }
    }

    /** One batch: ask the engine, log the rows, move every session one step on. */
    method Serve(sessions: seq<ReplaySession<F>>, ghost all: seq<ReplaySession<F>>, episodes: seq<Episode<F>>,
                 trace: seq<seq<Output>>,
                 ghost keys: seq<Key>, ghost slots: seq<Slot>, ghost index: nat, ghost source: Source)
      returns (ok: bool)
      requires AtSlots(sessions, slots) && index == |batches|
               && source.Feeds(trace, runtime.callIndex, index, runtime.stop)
      requires AllRest(all, episodes, runtime.render, runtime.stop) && Drawn(sessions, all) && DistinctIds(episodes)
      requires 1 <= |sessions| <= runtime.batchSize
      requires forall i :: 0 <= i < |sessions| ==> sessions[i].step < |sessions[i].episode.frames|
      requires AllLogged(rows, keys, Turns(all), episodes, source)
      modifies this, runtime`callIndex, sessions
      ensures ok <==> source.Good(index, |sessions|)
      ensures !ok ==> rows == old(rows) && batches == old(batches)
      ensures runtime.callIndex == old(runtime.callIndex) + 1
      ensures ok ==> batches == old(batches) + [|sessions|] && AllRest(all, episodes, runtime.render, runtime.stop)
      ensures ok ==> AllLogged(rows, keys + KeysIn(slots, index), Turns(all), episodes, source)
      ensures ok ==> forall i :: 0 <= i < |sessions| ==> sessions[i].step == old(sessions[i].step) + 1
    {
      ghost var before, allBefore := Turns(sessions), Turns(all);
      var ids := Requests(runtime.callIndex, |sessions|);
      var r := AskBatch(sessions, all, episodes, trace, before, allBefore, slots, index, source);
      ok := r.Ok?;
      if ok {
        Finish(sessions, ids, r.value.0, all, episodes, keys, before, allBefore, slots, index, source);
      }
    }

    /** Logs the answered batch and moves every session one step on. */
    method Finish(sessions: seq<ReplaySession<F>>, ids: seq<string>, records: map<string, Record>,
                  ghost all: seq<ReplaySession<F>>,
                  episodes: seq<Episode<F>>, ghost keys: seq<Key>, ghost before: seq<seq<Turn>>,
                  ghost allBefore: seq<seq<Turn>>,
                  ghost slots: seq<Slot>, ghost index: nat, ghost source: Source)
      requires Drawn(sessions, all) && Fixed(sessions, episodes)
               && OthersRest(sessions, all, episodes, runtime.render, runtime.stop)
      requires AdvancedAll(sessions, before, ids, records, runtime.render, runtime.stop)
      requires Before(sessions, all, before, allBefore) && AllGiven(records, ids, KeysIn(slots, index), source)
      requires AllLogged(rows, keys, allBefore, episodes, source) && AtSlots(sessions, slots) && index == |batches|
      modifies this, sessions`step
      ensures batches == old(batches) + [|sessions|] && AllRest(all, episodes, runtime.render, runtime.stop)
      ensures AllLogged(rows, keys + KeysIn(slots, index), Turns(all), episodes, source)
      ensures forall i :: 0 <= i < |sessions| ==> sessions[i].step == old(sessions[i].step) + 1
    {
      AskedLogged(sessions, all, before, allBefore, ids, records, episodes, rows, keys, runtime.render, runtime.stop,
                  source);
      ghost var turns := Turns(all);
      CloseAgain(sessions, all, before, ids, records, episodes, runtime.render, runtime.stop);
      LogAndRest(sessions, ids, records, all, episodes, keys, turns, slots, index, source);
      assert Turns(all) == turns;
    }

    method LogAndRest(sessions: seq<ReplaySession<F>>, ids: seq<string>, records: map<string, Record>,
                      ghost all: seq<ReplaySession<F>>,
                      episodes: seq<Episode<F>>, ghost keys: seq<Key>, ghost turns: seq<seq<Turn>>,
                      ghost slots: seq<Slot>,
                      ghost index: nat, ghost source: Source)
      requires Drawn(sessions, all) && AllClosed(all, episodes, runtime.render, runtime.stop)
      requires forall e :: 0 <= e < |all| ==> all[e].step == |all[e].turns| - if all[e] in sessions then 1 else 0
      requires AllAnswered(sessions, ids, records, episodes) && AllGiven(records, ids, KeysIn(slots, index), source)
      requires AtSlots(sessions, slots) && index == |batches|
      requires turns == Turns(all) && AllLogged(rows, keys, turns, episodes, source)
      modifies this, sessions`step
      ensures batches == old(batches) + [|sessions|] && AllRest(all, episodes, runtime.render, runtime.stop)
      ensures AllLogged(rows, keys + KeysIn(slots, index), turns, episodes, source)
      ensures forall i :: 0 <= i < |sessions| ==> sessions[i].step == old(sessions[i].step) + 1
    {
      ghost var steps := StepCounts(all);
      CountAndLog(sessions, ids, records, all, episodes, keys, turns, slots, index, source);
      CaughtUp(sessions, all, steps);
      RestNow(all, episodes, runtime.render, runtime.stop);
    }

    /** Counts the batch and logs its rows. */
    method CountAndLog(sessions: seq<ReplaySession<F>>, ids: seq<string>, records: map<string, Record>,
                       ghost all: seq<ReplaySession<F>>,
                       episodes: seq<Episode<F>>, ghost keys: seq<Key>, ghost turns: seq<seq<Turn>>,
                       ghost slots: seq<Slot>, ghost index: nat, ghost source: Source)
      requires AtSlots(sessions, slots) && index == |batches|
      requires Drawn(sessions, all) && |all| <= |episodes| && turns == Turns(all)
               && AllLogged(rows, keys, turns, episodes, source)
      requires AllAnswered(sessions, ids, records, episodes) && AllGiven(records, ids, KeysIn(slots, index), source)
      modifies this, sessions`step
      ensures batches == old(batches) + [|sessions|]
      ensures AllLogged(rows, keys + KeysIn(slots, index), turns, episodes, source)
      ensures forall i :: 0 <= i < |sessions| ==> sessions[i].step == old(sessions[i].step) + 1
    {
      batches := batches + [|sessions|];
      LogRows(sessions, ids, records, all, episodes, keys, turns, slots, index, source);
    }

    /** Logs one row per session and moves every session one step on. */
    method LogRows(sessions: seq<ReplaySession<F>>, ids: seq<string>, records: map<string, Record>,
                   ghost all: seq<ReplaySession<F>>,
                   episodes: seq<Episode<F>>, ghost keys: seq<Key>, ghost turns: seq<seq<Turn>>, ghost slots: seq<Slot>,
                   ghost index: nat, ghost source: Source)
      requires AtSlots(sessions, slots) && |batches| == index + 1
      requires Drawn(sessions, all) && |all| <= |episodes| && turns == Turns(all)
               && AllLogged(rows, keys, turns, episodes, source)
      requires AllAnswered(sessions, ids, records, episodes) && AllGiven(records, ids, KeysIn(slots, index), source)
      modifies this`rows, sessions`step
      ensures AllLogged(rows, keys + KeysIn(slots, index), turns, episodes, source)
      ensures forall i :: 0 <= i < |sessions| ==> sessions[i].step == old(sessions[i].step) + 1
    {
      ghost var add := KeysIn(slots, index);
      for i := 0 to |sessions|
        invariant forall k :: 0 <= k < i ==> sessions[k].step == old(sessions[k].step) + 1
        invariant forall k :: i <= k < |sessions| ==> sessions[k].step == old(sessions[k].step)
        invariant AllLogged(rows, keys + add[..i], turns, episodes, source)
      {
        var s := sessions[i];
        var row := Logged(|batches| - 1, s.episode.id, s.step, records[ids[i]], |s.images|);
        RowShows(s, row, add[i], all, turns, episodes, source);
        LoggedMore(rows, keys, add, i, row, turns, episodes, source);
        rows := rows + [row];
        s.step := s.step + 1;
      }
      WholeTaken(add, add[..|sessions|]);
    }

    /** Drops the sessions whose episode is finished, keeping the order of the rest. */
    method KeepUnfinished(sessions: seq<ReplaySession<F>>, ghost all: seq<ReplaySession<F>>, episodes: seq<Episode<F>>,
                          ghost batch: seq<Slot>, ghost lens: seq<nat>)
      returns (kept: seq<ReplaySession<F>>)
      requires Drawn(sessions, all) && Fixed(sessions, episodes) && lens == Lens(episodes, limit)
      requires Moved(sessions, batch) && Valid(batch, |all|, lens)
               && forall i :: 0 <= i < |batch| ==> batch[i].ep < |lens|
      ensures Drawn(kept, all) && AbsSessions(kept) == Advanced(batch, lens)
      ensures forall i :: 0 <= i < |sessions| ==>
                (sessions[i] in kept <==> StepLeft(sessions[i].step, |sessions[i].episode.frames|, limit))
    {
      kept := TakeUnfinished(sessions, all, episodes, batch, lens);
      KeptInOrder(kept, all, Advanced(batch, lens), batch, lens);
      forall i | 0 <= i < |sessions|
        ensures sessions[i] in kept <==> StepLeft(sessions[i].step, |sessions[i].episode.frames|, limit)
      {
        KeptAre(sessions, kept, all, episodes, batch, lens, limit, i);
      }
    }

    method TakeUnfinished(sessions: seq<ReplaySession<F>>, ghost all: seq<ReplaySession<F>>, episodes: seq<Episode<F>>,
                          ghost batch: seq<Slot>, ghost lens: seq<nat>)
      returns (kept: seq<ReplaySession<F>>)
      requires FromAll(sessions, all) && Fixed(sessions, episodes) && lens == Lens(episodes, limit)
      requires Moved(sessions, batch) && forall i :: 0 <= i < |batch| ==> batch[i].ep < |lens|
      ensures FromAll(kept, all) && AtSlots(kept, Advanced(batch, lens))
    {
      kept := [];
      for i := 0 to |sessions|
        invariant TakenSoFar(kept, all, batch, lens, i)
      {
        TakeNext(kept, all, sessions[i], episodes, batch, lens, limit, i);
        if sessions[i].step < FramesOf(sessions[i].episode, limit) {
          kept := kept + [sessions[i]];
        }
      }
      WholeTaken(batch, batch[..|sessions|]);
    }

    /** One round over admitted sessions: serve the batch, then drop the finished sessions. */
    method Round(sessions: seq<ReplaySession<F>>, ghost all: seq<ReplaySession<F>>, episodes: seq<Episode<F>>,
                 trace: seq<seq<Output>>,
                 ghost keys: seq<Key>, ghost batch: seq<Slot>, ghost done: seq<seq<Slot>>, ghost lens: seq<nat>,
                   ghost source: Source)
      returns (ok: bool, kept: seq<ReplaySession<F>>)
      requires batch == AbsSessions(sessions) && |done| == |batches| && lens == Lens(episodes, limit)
      requires source.Feeds(trace, runtime.callIndex, |done|, runtime.stop)
      requires AllRest(all, episodes, runtime.render, runtime.stop) && Drawn(sessions, all) && DistinctIds(episodes)
      requires 1 <= |sessions| <= runtime.batchSize && Valid(batch, |all|, lens)
      requires AllLogged(rows, keys, Turns(all), episodes, source) && Stepped(all, done)
      modifies this, runtime`callIndex, sessions
      ensures ok <==> source.Good(|done|, |batch|)
      ensures !ok ==> rows == old(rows) && batches == old(batches)
      ensures runtime.callIndex == old(runtime.callIndex) + 1
      ensures ok ==> batches == old(batches) + [|batch|] && AllRest(all, episodes, runtime.render, runtime.stop)
      ensures ok ==>
                AllLogged(rows, keys + KeysIn(batch, |done|), Turns(all), episodes, source)
                && Stepped(all, done + [batch])
      ensures forall i :: 0 <= i < |batch| ==> batch[i].ep < |lens|
      ensures ok ==> Drawn(kept, all) && AbsSessions(kept) == Advanced(batch, lens)
    {
      FramesLeft(sessions, all, episodes, limit, batch, lens, runtime.render, runtime.stop);
      ok := ServeBatch(sessions, all, episodes, trace, keys, batch, done, source);
      kept := [];
      if ok {
        RestingConsts(sessions, all, episodes, runtime.render, runtime.stop);
        kept := KeepUnfinished(sessions, all, episodes, batch, lens);
      }
    }

    /** Serves one batch and counts it for the sessions in it. */
    method ServeBatch(sessions: seq<ReplaySession<F>>, ghost all: seq<ReplaySession<F>>, episodes: seq<Episode<F>>,
                      trace: seq<seq<Output>>,
                      ghost keys: seq<Key>, ghost batch: seq<Slot>, ghost done: seq<seq<Slot>>, ghost source: Source)
      returns (ok: bool)
      requires AtSlots(sessions, batch) && |done| == |batches| && Increasing(batch)
      requires source.Feeds(trace, runtime.callIndex, |done|, runtime.stop)
      requires AllRest(all, episodes, runtime.render, runtime.stop) && Drawn(sessions, all) && DistinctIds(episodes)
      requires 1 <= |sessions| <= runtime.batchSize
      requires forall i :: 0 <= i < |sessions| ==> sessions[i].step < |sessions[i].episode.frames|
      requires AllLogged(rows, keys, Turns(all), episodes, source) && Stepped(all, done)
      modifies this, runtime`callIndex, sessions
      ensures ok <==> source.Good(|done|, |sessions|)
      ensures !ok ==> rows == old(rows) && batches == old(batches)
      ensures runtime.callIndex == old(runtime.callIndex) + 1
      ensures ok ==> batches == old(batches) + [|sessions|] && AllRest(all, episodes, runtime.render, runtime.stop)
      ensures ok ==>
                AllLogged(rows, keys + KeysIn(batch, |done|), Turns(all), episodes, source)
                && Stepped(all, done + [batch])
      ensures ok ==> Moved(sessions, batch)
    {
      ghost var before := StepsOf(all);
      ok := Serve(sessions, all, episodes, trace, keys, batch, |done|, source);
      if ok {
        MoveStepped(sessions, all, done, batch, before);
      }
    }

    /** The run after the batches `done`: every admitted session rests where the schedule says,
        and the log shows exactly the rows of `done`. */
    ghost predicate Progress(sessions: seq<ReplaySession<F>>, all: seq<ReplaySession<F>>, episodes: seq<Episode<F>>,
                             active: seq<Slot>,
                             lens: seq<nat>, done: seq<seq<Slot>>, source: Source)
      reads this, all
    {
      && AllRest(all, episodes, runtime.render, runtime.stop) && Drawn(sessions, all)
      && active == AbsSessions(sessions) && Valid(active, |all|, lens) && |active| <= runtime.batchSize
      && AllLogged(rows, Keys(done), Turns(all), episodes, source) && batches == Sizes(done) && |batches| == |done|
      && Stepped(all, done) && Admitted(done, |all|)
    }

    /** Where a pass leaves the run after the batches `done`: over, one batch further, or broken by
        the engine's answer for `batch`. */
    ghost predicate Passed(next: Phase, kept: seq<ReplaySession<F>>, all: seq<ReplaySession<F>>,
                           episodes: seq<Episode<F>>,
                           batch: seq<Slot>, lens: seq<nat>, done: seq<seq<Slot>>, source: Source, call: nat)
      reads this, runtime, all
    {
      match next
      case NoMore =>
        batch == [] && Progress(kept, all, episodes, batch, lens, done, source) && runtime.callIndex == call
      case More =>
        && batch != [] && source.Good(|done|, |batch|) && runtime.callIndex == call + 1
        && (forall i :: 0 <= i < |batch| ==> batch[i].ep < |lens|)
        && Progress(kept, all, episodes, Advanced(batch, lens), lens, done + [batch], source)
      case Broken =>
        && batch != [] && !source.Good(|done|, |batch|) && runtime.callIndex == call + 1
        && Placed(AsRows(rows), Keys(done), episodes) && batches == Sizes(done)
    }

    /** One pass of the replay loop: admit, and serve one batch if any session is left. */
    method Pass(sessions: seq<ReplaySession<F>>, all: seq<ReplaySession<F>>, episodes: seq<Episode<F>>,
                trace: seq<seq<Output>>,
                ghost active: seq<Slot>, ghost lens: seq<nat>, ghost done: seq<seq<Slot>>, ghost source: Source)
      returns (next: Phase, kept: seq<ReplaySession<F>>, after: seq<ReplaySession<F>>, ghost batch: seq<Slot>)
      requires 1 <= runtime.batchSize && DistinctIds(episodes) && lens == Lens(episodes, limit) && Positive(lens)
      requires Progress(sessions, all, episodes, active, lens, done, source)
      requires source.Feeds(trace, runtime.callIndex, |done|, runtime.stop)
      modifies this, runtime`callIndex, all
      ensures all <= after && forall e :: |all| <= e < |after| ==> fresh(after[e])
      ensures batch == Refilled(active, |all|, |lens|, runtime.batchSize)
              && |after| == NextAfter(active, |all|, |lens|, runtime.batchSize)
      ensures Passed(next, kept, after, episodes, batch, lens, done, source, old(runtime.callIndex))
    {
      kept, after := Admit(sessions, all, episodes);
      batch := AbsSessions(kept);
      RefillFacts(active, |all|, lens, runtime.batchSize);
      ProgressAdmits(sessions, all, kept, after, episodes, active, batch, lens, done, source);
      next := NoMore;
      if kept != [] {
        PassFacts(done, active, |all|, lens, runtime.batchSize);
        next, kept := ServeOn(kept, after, episodes, trace, batch, lens, done, source);
      }
    }

    lemma ProgressAdmits(before: seq<ReplaySession<F>>, all: seq<ReplaySession<F>>, filled: seq<ReplaySession<F>>,
                         after: seq<ReplaySession<F>>, episodes: seq<Episode<F>>, active: seq<Slot>, batch: seq<Slot>,
                         lens: seq<nat>,
                         done: seq<seq<Slot>>, source: Source)
      requires Progress(before, all, episodes, active, lens, done, source)
      requires all <= after && (forall e :: |all| <= e < |after| ==> after[e].step == 0)
      requires AllRest(after, episodes, runtime.render, runtime.stop) && Drawn(filled, after)
      requires batch == AbsSessions(filled) && Valid(batch, |after|, lens) && |batch| <= runtime.batchSize
      ensures Progress(filled, after, episodes, batch, lens, done, source)
    {
      AfterAdmit(all, after, done, rows, episodes, source);
    }

    /** Serves the admitted sessions, which leaves the run one batch further. */
    method ServeOn(sessions: seq<ReplaySession<F>>, ghost all: seq<ReplaySession<F>>, episodes: seq<Episode<F>>,
                   trace: seq<seq<Output>>,
                   ghost batch: seq<Slot>, ghost lens: seq<nat>, ghost done: seq<seq<Slot>>, ghost source: Source)
      returns (next: Phase, kept: seq<ReplaySession<F>>)
      requires 1 <= |sessions| && DistinctIds(episodes) && lens == Lens(episodes, limit) && Positive(lens)
      requires Progress(sessions, all, episodes, batch, lens, done, source)
      requires source.Feeds(trace, runtime.callIndex, |done|, runtime.stop)
      requires Valid(Advanced(batch, lens), |all|, lens) && |Advanced(batch, lens)| <= |batch|
      requires Keys(done + [batch]) == Keys(done) + KeysIn(batch, |done|)
               && Sizes(done + [batch]) == Sizes(done) + [|batch|]
      modifies this, runtime`callIndex, sessions
      ensures next != NoMore && Passed(next, kept, all, episodes, batch, lens, done, source, old(runtime.callIndex))
    {
      var ok;
      ok, kept := Round(sessions, all, episodes, trace, Keys(done), batch, done, lens, source);
      AdmittedMore(done, batch, |all|);
      next := if ok then More else Broken;
    }

    /** What the replay loop knows: the run so far, and how it stands to the schedule. */
    ghost predicate Reached(phase: Phase, sessions: seq<ReplaySession<F>>, all: seq<ReplaySession<F>>,
                            episodes: seq<Episode<F>>,
                            source: Source, plan: Plan)
      reads this, runtime, all
    {
      match phase
      case Broken =>
        && StoppedAt(plan.schedule, source, plan.done)
        && Placed(AsRows(rows), Keys(plan.done), episodes) && batches == Sizes(plan.done)
      case NoMore =>
        && Progress(sessions, all, episodes, plan.active, plan.lens, plan.done, source) && plan.done == plan.schedule
           && |all| == |plan.lens|
        && AllGood(plan.done, source)
      case More =>
        && Progress(sessions, all, episodes, plan.active, plan.lens, plan.done, source) && AllGood(plan.done, source)
        && runtime.callIndex == source.call + |plan.done| && runtime.stop == source.stop && Positive(plan.lens)
        && plan.done + Batches(plan.active, |all|, plan.lens, runtime.batchSize) == plan.schedule
    }

    lemma ProgressStart(episodes: seq<Episode<F>>, lens: seq<nat>, source: Source)
      requires rows == [] && batches == [] && lens == Lens(episodes, limit)
      ensures Progress([], [], episodes, [], lens, [], source)
    {
    }

    /** Before the first pass nothing is done and the whole schedule is to come. */
    lemma ReachedStart(episodes: seq<Episode<F>>, source: Source, plan: Plan)
      requires rows == [] && batches == [] && runtime.callIndex == source.call && runtime.stop == source.stop
      requires Positive(plan.lens) && plan.lens == Lens(episodes, limit)
      requires plan == Plan([], plan.lens, [], Schedule(plan.lens, runtime.batchSize))
      ensures Reached(More, [], [], episodes, source, plan)
    {
      ProgressStart(episodes, plan.lens, source);
      assert [] + plan.schedule == plan.schedule;
    }

    /** With no batch left, the batches done are the whole schedule. */
    lemma ReachedEnd(sessions: seq<ReplaySession<F>>, all: seq<ReplaySession<F>>, episodes: seq<Episode<F>>,
                     source: Source, plan: Plan,
                     batch: seq<Slot>, next: nat)
      requires Scheduled(plan, batch, next, |all|, runtime.batchSize) && AllGood(plan.done, source)
               && 1 <= runtime.batchSize
      requires Passed(NoMore, sessions, all, episodes, batch, plan.lens, plan.done, source, source.call + |plan.done|)
      ensures Reached(NoMore, sessions, all, episodes, source, plan.(active := batch))
    {
      PassEnds(plan.done, plan.active, next, plan.lens, runtime.batchSize, plan.schedule);
    }

    /** One good batch further, the run still stands to the schedule as before. */
    lemma ReachedNext(sessions: seq<ReplaySession<F>>, all: seq<ReplaySession<F>>, episodes: seq<Episode<F>>,
                      source: Source, plan: Plan,
                      batch: seq<Slot>, next: nat)
      requires Scheduled(plan, batch, next, |all|, runtime.batchSize) && AllGood(plan.done, source)
      requires Passed(More, sessions, all, episodes, batch, plan.lens, plan.done, source, source.call + |plan.done|)
      requires runtime.stop == source.stop
      ensures Reached(More, sessions, all, episodes, source,
                      plan.(active := Advanced(batch, plan.lens), done := plan.done + [batch]))
    {
      PassFacts(plan.done, plan.active, next, plan.lens, runtime.batchSize);
      GoodSoFar(plan.done, batch, plan.schedule, source);
    }

    /** A bad batch means that not every batch of the schedule is good. */
    lemma ReachedBreak(sessions: seq<ReplaySession<F>>, all: seq<ReplaySession<F>>, episodes: seq<Episode<F>>,
                       source: Source, plan: Plan,
                       batch: seq<Slot>, next: nat)
      requires Scheduled(plan, batch, next, |all|, runtime.batchSize) && AllGood(plan.done, source)
      requires Passed(Broken, sessions, all, episodes, batch, plan.lens, plan.done, source, source.call + |plan.done|)
      ensures Reached(Broken, sessions, all, episodes, source, plan)
    {
      PassFacts(plan.done, plan.active, next, plan.lens, runtime.batchSize);
      GoodSoFar(plan.done, batch, plan.schedule, source);
    }

    /** The passes ended with no episode left: the replay is over. */
    lemma ReachedAll(sessions: seq<ReplaySession<F>>, all: seq<ReplaySession<F>>, episodes: seq<Episode<F>>,
                     source: Source, plan: Plan)
      requires Reached(NoMore, sessions, all, episodes, source, plan) && Positive(plan.lens)
      requires 1 <= runtime.batchSize && plan.lens == Lens(episodes, limit)
               && plan.schedule == Schedule(plan.lens, runtime.batchSize)
      ensures Replayed(all, episodes, plan.schedule, source) && AllGood(plan.schedule, source)
    {
      Finished(all, plan.schedule, plan.lens, runtime.batchSize);
    }

    /** One pass of the loop, judged against the schedule. */
    method Advance(sessions: seq<ReplaySession<F>>, all: seq<ReplaySession<F>>, episodes: seq<Episode<F>>,
                   source: Source,
                   ghost plan: Plan)
      returns (phase: Phase, kept: seq<ReplaySession<F>>, after: seq<ReplaySession<F>>, ghost plan': Plan)
      requires 1 <= runtime.batchSize && DistinctIds(episodes) && plan.lens == Lens(episodes, limit)
      requires Reached(More, sessions, all, episodes, source, plan)
      modifies this, runtime`callIndex, all
      ensures forall e :: 0 <= e < |after| ==> after[e] in all || fresh(after[e])
      ensures plan'.lens == plan.lens && plan'.schedule == plan.schedule
      ensures Reached(phase, kept, after, episodes, source, plan')
      ensures phase == More ==> |plan'.done| == |plan.done| + 1
    {
      ghost var batch;
      ghost var next := |all|;
      var trace := source.engine(|batches|);
      phase, kept, after, batch := Pass(sessions, all, episodes, trace, plan.active, plan.lens, plan.done, source);
      match phase {
        case NoMore =>
          plan' := plan.(active := batch);
          ReachedEnd(kept, after, episodes, source, plan, batch, next);
        case More =>
          plan' := plan.(active := Advanced(batch, plan.lens), done := plan.done + [batch]);
          ReachedNext(kept, after, episodes, source, plan, batch, next);
        case Broken =>
          plan' := plan;
          ReachedBreak(kept, after, episodes, source, plan, batch, next);
      }
    }

    /** Replays every episode; `engine(k)` is what the engine does for batch `k`. The replay stops at
        the first batch whose answer is bad, with all batches before it logged. */
    method Run(episodes: seq<Episode<F>>, engine: nat -> seq<seq<Output>>)
      returns (status: Status, all: seq<ReplaySession<F>>)
      requires 1 <= runtime.batchSize && Loaded(episodes, limit) && DistinctIds(episodes)
      modifies this, runtime`callIndex
      ensures Positive(Lens(episodes, limit))
      ensures var schedule, source := Schedule(Lens(episodes, limit), runtime.batchSize),
                                      Source(engine, old(runtime.callIndex), runtime.stop);
              && (status == Complete <==> AllGood(schedule, source))
              && (status == Complete ==> Replayed(all, episodes, schedule, source))
              && (status == Failed ==> exists done :: StoppedAt(schedule, source, done) && Broke(episodes, done))
              && (status == Complete ==> PlainRows(rows, Turns(all), episodes, source))
      ensures PlainLog(AsRows(rows), batches, episodes, limit, runtime.batchSize, status == Complete)
      ensures status == Complete ==> PlainSessions(all, episodes, limit, runtime.render, runtime.stop)
    {
      ghost var source := Source(engine, runtime.callIndex, runtime.stop);
      ghost var done;
      status, all, done := Replay(episodes, engine);
      RunPlainly(status, all, episodes, source, done);
    }

    /** The log shows exactly the batches done. */
    ghost predicate Broke(episodes: seq<Episode<F>>, done: seq<seq<Slot>>)
      reads this
    {
      Placed(AsRows(rows), Keys(done), episodes) && batches == Sizes(done)
    }

    /** What a run leaves, in terms of frames, limit and outputs alone. */
    lemma RunPlainly(status: Status, all: seq<ReplaySession<F>>, episodes: seq<Episode<F>>, source: Source,
                     done: seq<seq<Slot>>)
      requires 1 <= runtime.batchSize && Positive(Lens(episodes, limit)) && DistinctIds(episodes)
      requires var schedule := Schedule(Lens(episodes, limit), runtime.batchSize);
               && (status == Complete ==> Replayed(all, episodes, schedule, source) && AllGood(schedule, source))
               && (status == Failed ==> StoppedAt(schedule, source, done) && Broke(episodes, done))
      requires runtime.stop == source.stop
      ensures PlainLog(AsRows(rows), batches, episodes, limit, runtime.batchSize, status == Complete)
      ensures status == Complete ==> PlainRows(rows, Turns(all), episodes, source)
      ensures status == Complete ==> PlainSessions(all, episodes, limit, runtime.render, runtime.stop)
    {
      var schedule := Schedule(Lens(episodes, limit), runtime.batchSize);
      if status == Complete {
        LoggedPlaced(rows, Keys(schedule), Turns(all), episodes, source);
        RowsPlainly(rows, Turns(all), schedule, episodes, source);
        SessionsPlainly(all, episodes, limit, runtime.render, runtime.stop);
        LogPlainly(AsRows(rows), Keys(schedule), batches, episodes, limit, runtime.batchSize, true);
      } else {
        DonePrefix(schedule, done);
        LogPlainly(AsRows(rows), Keys(done), batches, episodes, limit, runtime.batchSize, false);
      }
    }

    /** The replay over the schedule of all batches. */
    method Replay(episodes: seq<Episode<F>>, engine: nat -> seq<seq<Output>>)
      returns (status: Status, all: seq<ReplaySession<F>>, ghost done: seq<seq<Slot>>)
      requires 1 <= runtime.batchSize && Loaded(episodes, limit) && DistinctIds(episodes)
      modifies this, runtime`callIndex
      ensures Positive(Lens(episodes, limit))
      ensures var schedule, source := Schedule(Lens(episodes, limit), runtime.batchSize),
                                      Source(engine, old(runtime.callIndex), runtime.stop);
              && (status == Complete ==> AllGood(schedule, source) && Replayed(all, episodes, schedule, source))
              && (status == Failed ==> StoppedAt(schedule, source, done) && Broke(episodes, done))
    {
      rows, batches := [], [];
      ghost var lens := Lens(episodes, limit);
      var source := Source(engine, runtime.callIndex, runtime.stop);
      assert Positive(lens);
      ghost var plan := Plan([], lens, [], Schedule(lens, runtime.batchSize));
      ReachedStart(episodes, source, plan);
      var phase, sessions;
      phase, sessions, all, plan := Passes(episodes, source, plan);
      status, done := Failed, plan.done;
      if phase == NoMore {
        ReachedAll(sessions, all, episodes, source, plan);
        status := Complete;
      }
    }

    /** Passes over the episodes until none is left or the engine's answer breaks the run. */
    method Passes(episodes: seq<Episode<F>>, source: Source, ghost start: Plan)
      returns (phase: Phase, sessions: seq<ReplaySession<F>>, all: seq<ReplaySession<F>>, ghost plan: Plan)
      requires 1 <= runtime.batchSize && DistinctIds(episodes) && start.lens == Lens(episodes, limit)
      requires Reached(More, [], [], episodes, source, start)
      modifies this, runtime`callIndex
      ensures phase != More && plan.lens == start.lens && plan.schedule == start.schedule
      ensures forall e :: 0 <= e < |all| ==> fresh(all[e])
      ensures Reached(phase, sessions, all, episodes, source, plan)
    {
      phase, sessions, all, plan := More, [], [], start;
      while phase == More
        invariant forall e :: 0 <= e < |all| ==> fresh(all[e])
        invariant plan.lens == start.lens && plan.schedule == start.schedule
        invariant Reached(phase, sessions, all, episodes, source, plan)
        decreases phase == More, |start.schedule| - |plan.done|
      {
        PlanFits(plan, |all|, runtime.batchSize);
        phase, sessions, all, plan := Advance(sessions, all, episodes, source, plan);
      }
    }

    /** The replay is over: every episode has all its turns, and the log is the schedule's. */
    ghost predicate Replayed(all: seq<ReplaySession<F>>, episodes: seq<Episode<F>>, schedule: seq<seq<Slot>>,
                             source: Source)
      reads this, all
    {
      && AllRest(all, episodes, runtime.render, runtime.stop) && |all| == |episodes|
      && (forall e :: 0 <= e < |all| ==> all[e].step == FramesOf(episodes[e], limit))
      && AllLogged(rows, Keys(schedule), Turns(all), episodes, source) && batches == Sizes(schedule)
    }
  }

  lemma PassEnds(done: seq<seq<Slot>>, active: seq<Slot>, next: nat, lens: seq<nat>, b: nat, schedule: seq<seq<Slot>>)
    requires Valid(active, next, lens) && Positive(lens) && 1 <= b
    requires Refilled(active, next, |lens|, b) == [] && done + Batches(active, next, lens, b) == schedule
    ensures done == schedule && NextAfter(active, next, |lens|, b) == |lens|
  {
    RefillFacts(active, next, lens, b);
    assert done + [] == done;
  }

  datatype Phase = More | NoMore | Broken

  /** Where a run stands: active slots, episode lengths, batches done, and the whole schedule. */
  datatype Plan = Plan(active: seq<Slot>, lens: seq<nat>, done: seq<seq<Slot>>, schedule: seq<seq<Slot>>)

  /** `batch` is the next batch of the plan, which admits the episodes from `next` to `after`. */
  ghost predicate Scheduled(plan: Plan, batch: seq<Slot>, next: nat, after: nat, b: nat) {
    && Valid(plan.active, next, plan.lens) && Positive(plan.lens)
    && batch == Refilled(plan.active, next, |plan.lens|, b) && after == NextAfter(plan.active, next, |plan.lens|, b)
    && plan.done + Batches(plan.active, next, plan.lens, b) == plan.schedule
  }

  lemma PlanFits(plan: Plan, next: nat, b: nat)
    requires Valid(plan.active, next, plan.lens) && Positive(plan.lens)
    requires plan.done + Batches(plan.active, next, plan.lens, b) == plan.schedule
    ensures |plan.done| <= |plan.schedule|
  {
  }

  lemma PassFacts(done: seq<seq<Slot>>, active: seq<Slot>, next: nat, lens: seq<nat>, b: nat)
    requires Valid(active, next, lens) && Positive(lens)
    requires Refilled(active, next, |lens|, b) != []
    ensures var batch, next' := Refilled(active, next, |lens|, b), NextAfter(active, next, |lens|, b);
            && Valid(batch, next', lens) && Valid(Advanced(batch, lens), next', lens)
            && Work(Advanced(batch, lens), next', lens) < Work(active, next, lens)
            && |Advanced(batch, lens)| <= |batch|
            && (done + [batch]) + Batches(Advanced(batch, lens), next', lens, b)
               == done + Batches(active, next, lens, b)
            && done + [batch] <= done + Batches(active, next, lens, b)
            && Keys(done + [batch]) == Keys(done) + KeysIn(batch, |done|)
            && Sizes(done + [batch]) == Sizes(done) + [|batch|]
  {
    BatchStep(done, active, next, lens, b);
  }

  /** The sessions kept of the first `n` are at the slots that go on. */
  ghost predicate TakenSoFar<F>(kept: seq<ReplaySession<F>>, all: seq<ReplaySession<F>>, batch: seq<Slot>,
                                lens: seq<nat>, n: nat)
    reads kept`step
  {
    && n <= |batch| && (forall i :: 0 <= i < n ==> batch[i].ep < |lens|)
    && FromAll(kept, all) && AtSlots(kept, Advanced(batch[..n], lens))
  }

  lemma TakeNext<F>(kept: seq<ReplaySession<F>>, all: seq<ReplaySession<F>>, s: ReplaySession<F>,
                    episodes: seq<Episode<F>>, batch: seq<Slot>, lens: seq<nat>, limit: Option<nat>, n: nat)
    requires TakenSoFar(kept, all, batch, lens, n) && n < |batch| && lens == Lens(episodes, limit)
    requires batch[n].ep < |lens| && Slot(s.ep, s.step) == Slot(batch[n].ep, batch[n].step + 1)
    requires s.ep < |all| && s == all[s.ep] && s.ep < |episodes| && s.episode == episodes[s.ep]
    ensures var more := if s.step < FramesOf(s.episode, limit) then [s] else [];
            TakenSoFar(kept + more, all, batch, lens, n + 1)
  {
    WholeTaken(batch[..n + 1], batch[..n] + [batch[n]]);
    KeepStep(batch[..n], batch[n], lens, episodes, limit);
    if s.step < FramesOf(s.episode, limit) {
      KeptMore(kept, all, Advanced(batch[..n], lens), s, Slot(s.ep, s.step));
    } else {
      assert kept + [] == kept;
    }
  }

  /** Slot `i` of the batch goes on as this slot. */
  ghost predicate GoesOn(batch: seq<Slot>, lens: seq<nat>, i: nat, slot: Slot) {
    && i < |batch| && batch[i].ep < |lens| && batch[i].step + 1 < lens[batch[i].ep]
    && slot == Slot(batch[i].ep, batch[i].step + 1)
  }

  lemma {:induction false} AdvancedHas(batch: seq<Slot>, lens: seq<nat>, slot: Slot)
    requires forall i :: 0 <= i < |batch| ==> batch[i].ep < |lens|
    ensures slot in Advanced(batch, lens) <==> exists i: nat :: GoesOn(batch, lens, i, slot)
  {
    if batch != [] {
      AdvancedHas(batch[1..], lens, slot);
      if i: nat :| GoesOn(batch[1..], lens, i, slot) {
        assert GoesOn(batch, lens, i + 1, slot);
      }
      if i: nat :| GoesOn(batch, lens, i, slot) {
        assert i > 0 ==> GoesOn(batch[1..], lens, i - 1, slot);
        assert i == 0 ==> Advanced(batch, lens)[0] == slot;
      }
      if slot in Advanced(batch, lens) && slot !in Advanced(batch[1..], lens) {
        assert GoesOn(batch, lens, 0, slot);
      }
    }
  }

  lemma KeptIs<F>(kept: seq<ReplaySession<F>>, s: ReplaySession<F>, all: seq<ReplaySession<F>>, slot: Slot)
    requires Drawn(kept, all) && s.ep < |all| && all[s.ep] == s && slot == Slot(s.ep, s.step)
    ensures s in kept <==> slot in AbsSessions(kept)
  {
    var slots := AbsSessions(kept);
    if s in kept {
      var k :| 0 <= k < |kept| && kept[k] == s;
      assert slots[k] == slot;
    }
    if slot in slots {
      var k :| 0 <= k < |slots| && slots[k] == slot;
      assert kept[k] == all[kept[k].ep];
    }
  }

  /** The sessions that go on are those with a step left, below the step limit. */
  lemma KeptAre<F>(sessions: seq<ReplaySession<F>>, kept: seq<ReplaySession<F>>, all: seq<ReplaySession<F>>,
                   episodes: seq<Episode<F>>, batch: seq<Slot>, lens: seq<nat>, limit: Option<nat>, i: nat)
    requires Drawn(sessions, all) && Drawn(kept, all) && Fixed(sessions, episodes) && lens == Lens(episodes, limit)
    requires Moved(sessions, batch) && Increasing(batch) && forall k :: 0 <= k < |batch| ==> batch[k].ep < |lens|
    requires AbsSessions(kept) == Advanced(batch, lens) && i < |sessions|
    ensures sessions[i] in kept <==> StepLeft(sessions[i].step, |sessions[i].episode.frames|, limit)
  {
    var slot := Slot(batch[i].ep, batch[i].step + 1);
    KeptIs(kept, sessions[i], all, slot);
    AdvancedHas(batch, lens, slot);
    if k: nat :| GoesOn(batch, lens, k, slot) {
      assert k == i;
    }
    assert GoesOn(batch, lens, i, slot) <==> batch[i].step + 1 < lens[batch[i].ep];
  }

  ghost predicate FromAll<F>(kept: seq<ReplaySession<F>>, all: seq<ReplaySession<F>>) {
    forall k :: 0 <= k < |kept| ==> kept[k].ep < |all| && kept[k] == all[kept[k].ep]
  }

  lemma DrawnInOrder<F>(kept: seq<ReplaySession<F>>, all: seq<ReplaySession<F>>, now: seq<Slot>)
    requires FromAll(kept, all) && now == AbsSessions(kept) && Increasing(now)
    requires forall e :: 0 <= e < |all| ==> all[e].ep == e
    ensures Drawn(kept, all)
  {
    forall i, j | 0 <= i < j < |kept| ensures kept[i].ep < kept[j].ep {
      assert now[i].ep < now[j].ep;
    }
  }

  lemma SlotsAre<F>(sessions: seq<ReplaySession<F>>, slots: seq<Slot>)
    requires AtSlots(sessions, slots)
    ensures AbsSessions(sessions) == slots
  {
  }

  lemma KeepStep<F>(taken: seq<Slot>, slot: Slot, lens: seq<nat>, episodes: seq<Episode<F>>, limit: Option<nat>)
    requires lens == Lens(episodes, limit) && slot.ep < |lens| && forall i :: 0 <= i < |taken| ==> taken[i].ep < |lens|
    ensures |lens| == |episodes|
    ensures slot.step + 1 < FramesOf(episodes[slot.ep], limit) ==>
              Advanced(taken + [slot], lens) == Advanced(taken, lens) + [Slot(slot.ep, slot.step + 1)]
    ensures slot.step + 1 >= FramesOf(episodes[slot.ep], limit) ==>
              Advanced(taken + [slot], lens) == Advanced(taken, lens)
  {
    AdvancedAppend(taken, slot, lens);
  }

  lemma KeptMore<F>(kept: seq<ReplaySession<F>>, all: seq<ReplaySession<F>>, now: seq<Slot>, s: ReplaySession<F>,
                    slot: Slot)
    requires FromAll(kept, all) && AtSlots(kept, now) && s.ep < |all| && s == all[s.ep] && slot == Slot(s.ep, s.step)
    ensures FromAll(kept + [s], all) && AtSlots(kept + [s], now + [slot])
  {
  }

  lemma KeptInOrder<F>(kept: seq<ReplaySession<F>>, all: seq<ReplaySession<F>>, now: seq<Slot>, batch: seq<Slot>,
                       lens: seq<nat>)
    requires Valid(batch, |all|, lens) && (forall i :: 0 <= i < |batch| ==> batch[i].ep < |lens|)
    requires FromAll(kept, all) && AtSlots(kept, now) && now == Advanced(batch, lens)
    requires forall e :: 0 <= e < |all| ==> all[e].ep == e
    ensures Drawn(kept, all) && AbsSessions(kept) == now
  {
    AdvanceValid(batch, |all|, lens);
    SlotsAre(kept, now);
    DrawnInOrder(kept, all, now);
  }

  lemma WholeTaken<T>(batch: seq<T>, taken: seq<T>)
    requires taken == batch[..|batch|]
    ensures taken == batch
  {
  }

  /** Every engine trace of the schedule is good for the requests of its batch. */
  ghost predicate AllGood(batches: seq<seq<Slot>>, source: Source) {
    forall k :: 0 <= k < |batches| ==> source.Good(k, |batches[k]|)
  }

  /** Each session has moved once for every batch it was in. */
  ghost predicate Stepped<F>(all: seq<ReplaySession<F>>, done: seq<seq<Slot>>)
    reads all`step
  {
    forall e :: 0 <= e < |all| ==> all[e].step == |Steps(done, e)|
  }

  ghost function StepsOf<F>(all: seq<ReplaySession<F>>): seq<nat>
    reads all
  {
    seq(|all|, e requires 0 <= e < |all| reads all => all[e].step)
  }

  /** Only the first `n` episodes appear. */
  ghost predicate Admitted(batches: seq<seq<Slot>>, n: nat) {
    forall k, i :: 0 <= k < |batches| && 0 <= i < |batches[k]| ==> batches[k][i].ep < n
  }

  lemma AdmittedMore(done: seq<seq<Slot>>, batch: seq<Slot>, n: nat)
    requires Admitted(done, n) && forall i :: 0 <= i < |batch| ==> batch[i].ep < n
    ensures Admitted(done + [batch], n)
  {
  }

  lemma {:induction false} NotAdmitted(batches: seq<seq<Slot>>, n: nat, e: nat)
    requires Admitted(batches, n) && e >= n
    ensures Steps(batches, e) == []
  {
    if batches != [] {
      StepsInBelow(batches[0], e);
      NotAdmitted(batches[1..], n, e);
    }
  }

  lemma AdmitStepped<F>(before: seq<ReplaySession<F>>, all: seq<ReplaySession<F>>, done: seq<seq<Slot>>)
    requires before <= all && Stepped(before, done) && Admitted(done, |before|)
    requires forall e :: |before| <= e < |all| ==> all[e].step == 0
    ensures Stepped(all, done) && Admitted(done, |all|) && Grown(Turns(all), Turns(before))
  {
    forall e | 0 <= e < |all| ensures all[e].step == |Steps(done, e)| {
      if e < |before| {
        assert before[e] == all[e];
      } else {
        NotAdmitted(done, |before|, e);
      }
    }
  }

  lemma AfterAdmit<F>(before: seq<ReplaySession<F>>, all: seq<ReplaySession<F>>, done: seq<seq<Slot>>,
                      rows: seq<Logged>, episodes: seq<Episode<F>>, source: Source)
    requires before <= all && Stepped(before, done) && Admitted(done, |before|) && |all| <= |episodes|
    requires forall e :: |before| <= e < |all| ==> all[e].step == 0
    requires AllLogged(rows, Keys(done), Turns(before), episodes, source)
    ensures Stepped(all, done) && Admitted(done, |all|) && AllLogged(rows, Keys(done), Turns(all), episodes, source)
  {
    AdmitStepped(before, all, done);
    LoggedStays(rows, Keys(done), Turns(before), Turns(all), episodes, source);
  }

  lemma {:induction false} StepsInMember(batch: seq<Slot>, i: nat)
    requires Increasing(batch) && i < |batch|
    ensures |StepsIn(batch, batch[i].ep)| == 1
  {
    if i == 0 {
      StepsInBelow(batch[1..], batch[0].ep);
    } else {
      assert batch[0].ep < batch[i].ep;
      StepsInMember(batch[1..], i - 1);
    }
  }

  lemma MoveStepped<F>(sessions: seq<ReplaySession<F>>, all: seq<ReplaySession<F>>, done: seq<seq<Slot>>,
                       batch: seq<Slot>, before: seq<nat>)
    requires Drawn(sessions, all) && |before| == |all| && |batch| == |sessions| && Increasing(batch)
    requires forall e :: 0 <= e < |all| ==> before[e] == |Steps(done, e)|
    requires forall e :: 0 <= e < |all| && all[e] !in sessions ==> all[e].step == before[e]
    requires forall i :: 0 <= i < |sessions| ==>
               batch[i].ep == sessions[i].ep && sessions[i].step == before[sessions[i].ep] + 1
    ensures Stepped(all, done + [batch])
  {
    forall e | 0 <= e < |all| ensures all[e].step == |Steps(done + [batch], e)| {
      StepsAppend(done, batch, e);
      if all[e] in sessions {
        var i :| 0 <= i < |sessions| && sessions[i] == all[e];
        StepsInMember(batch, i);
      } else {
        forall i | 0 <= i < |batch| ensures batch[i].ep != e {
          assert sessions[i] in sessions;
        }
        StepsInBelow(batch, e);
      }
    }
  }

  lemma FramesLeft<F>(sessions: seq<ReplaySession<F>>, all: seq<ReplaySession<F>>, episodes: seq<Episode<F>>,
                      limit: Option<nat>,
                      batch: seq<Slot>, lens: seq<nat>, render: Render, stop: StopTest)
    requires AllRest(all, episodes, render, stop) && Drawn(sessions, all)
    requires batch == AbsSessions(sessions) && lens == Lens(episodes, limit) && Valid(batch, |all|, lens)
    ensures forall i :: 0 <= i < |sessions| ==> sessions[i].step < |sessions[i].episode.frames|
    ensures forall i :: 0 <= i < |batch| ==> batch[i].ep < |lens|
  {
    RestingConsts(sessions, all, episodes, render, stop);
    forall i | 0 <= i < |sessions| ensures sessions[i].step < |sessions[i].episode.frames| {
      assert Unfinished(batch[i], |all|, lens);
    }
  }

  /** The engine's answer was good for the batches done and bad for the next one. */
  ghost predicate StoppedAt(schedule: seq<seq<Slot>>, source: Source, done: seq<seq<Slot>>) {
    && |done| < |schedule| && done == schedule[..|done|] && AllGood(done, source)
    && !source.Good(|done|, |schedule[|done|]|)
  }

  lemma StoppedNotGood(schedule: seq<seq<Slot>>, source: Source, done: seq<seq<Slot>>)
    requires StoppedAt(schedule, source, done)
    ensures !AllGood(schedule, source)
  {
  }

  lemma DonePrefix(schedule: seq<seq<Slot>>, done: seq<seq<Slot>>)
    requires |done| <= |schedule| && done == schedule[..|done|]
    ensures Keys(done) <= Keys(schedule)
  {
    KeysPrefix(done, schedule[|done|..]);
    assert done + schedule[|done|..] == schedule;
  }

  // ---- a finished replay in terms of frames, limit and outputs alone ----

  /** From `lo` to `hi` the history is the turn text, then the kept tokens. */
  ghost predicate PieceIs(history: seq<Token>, lo: nat, hi: nat, turn: Turn) {
    lo <= hi <= |history| && history[lo..hi] == turn.prompt + turn.kept
  }

  /** The history is cut into the turns. */
  ghost predicate CutAt(history: seq<Token>, turns: seq<Turn>, cuts: seq<nat>) {
    && |cuts| == |turns| + 1 && cuts[0] == 0 && cuts[|turns|] == |history|
    && forall t :: 0 <= t < |turns| ==> PieceIs(history, cuts[t], cuts[t + 1], turns[t])
  }

  /** The session of a replayed episode: a turn, an image and an image name for each frame below the
      limit, and the turns' texts and kept tokens, none of which goes on after a stop, as its history. */
  ghost predicate PlainSession<F>(s: ReplaySession<F>, ep: Episode<F>, limit: Option<nat>, render: Render,
                                  stop: StopTest)
    reads s
  {
    && s.episode == ep && |s.turns| == |s.imageIds|
    && |s.turns| == (if limit.Some? && limit.value < |ep.frames| then limit.value else |ep.frames|)
    && s.images == ep.frames[..|s.turns|] && (exists cuts :: CutAt(s.history, s.turns, cuts))
    && forall t :: 0 <= t < |s.turns| ==>
         && s.turns[t].prompt == render(ep.instruction, t == 0)
         && s.turns[t].kept != [] && NoneInside(s.turns[t].kept, stop)
  }

  ghost predicate PlainSessions<F>(all: seq<ReplaySession<F>>, episodes: seq<Episode<F>>, limit: Option<nat>,
                                   render: Render, stop: StopTest)
    reads all
  {
    |all| == |episodes| && forall e :: 0 <= e < |all| ==> PlainSession(all[e], episodes[e], limit, render, stop)
  }

  /** Row `k` keeps what the last output of its own request calls for, and its episode's turn at that
      step has the same tokens. Its request is named after the batch's call and the rows before it. */
  ghost predicate PlainRow<F>(rows: seq<Logged>, k: nat, turns: seq<seq<Turn>>, episodes: seq<Episode<F>>,
                              source: Source)
    requires k < |rows|
  {
    && AskedAt(rows[k].record, rows[k].batchIndex, RowsIn(AsRows(rows)[..k], rows[k].batchIndex), source)
    && ShowsTurn(rows[k], turns, episodes)
  }

  /** The record is what the last output of the request at this place of the batch calls for. */
  ghost predicate AskedAt(record: Record, batch: nat, place: nat, source: Source) {
    PlainRecordOf(record, Flatten(source.engine(batch)), RequestId(source.call + batch, place), source.stop)
  }

  ghost predicate ShowsTurn<F>(row: Logged, turns: seq<seq<Turn>>, episodes: seq<Episode<F>>) {
    && row.historyImages == row.step + 1
    && exists e :: 0 <= e < |turns| <= |episodes| && episodes[e].id == row.episodeId && row.step < |turns[e]|
                   && turns[e][row.step].kept == row.record.tokens
  }

  ghost predicate PlainRows<F>(rows: seq<Logged>, turns: seq<seq<Turn>>, episodes: seq<Episode<F>>, source: Source) {
    forall k :: 0 <= k < |rows| ==> PlainRow(rows, k, turns, episodes, source)
  }

  lemma PieceStays(short: seq<Token>, long: seq<Token>, lo: nat, hi: nat, turn: Turn)
    requires short <= long && PieceIs(short, lo, hi, turn)
    ensures PieceIs(long, lo, hi, turn)
  {
    assert long[lo..hi] == short[lo..hi];
  }

  lemma {:induction false} HistoryCuts(turns: seq<Turn>) returns (cuts: seq<nat>)
    ensures CutAt(History(turns), turns, cuts)
  {
    if turns == [] {
      cuts := [0];
    } else {
      var n := |turns| - 1;
      var before := HistoryCuts(turns[..n]);
      var short, history := History(turns[..n]), History(turns);
      cuts := before + [|history|];
      assert history == short + (turns[n].prompt + turns[n].kept);
      assert PieceIs(history, |short|, |history|, turns[n]);
      forall t | 0 <= t < |turns| ensures PieceIs(history, cuts[t], cuts[t + 1], turns[t]) {
        if t < n {
          assert PieceIs(short, before[t], before[t + 1], turns[..n][t]);
          PieceStays(short, history, before[t], before[t + 1], turns[t]);
        }
      }
    }
  }

  lemma KeptMinimal(kept: seq<Token>, stop: StopTest)
    requires Minimal(kept, stop)
    ensures kept != [] && NoneInside(kept, stop)
  {
    forall n: nat | n < |kept| ensures !StopAt(kept, n, stop) {
      assert !EndsAt(kept, stop, n);
    }
  }

  lemma SessionsPlainly<F>(all: seq<ReplaySession<F>>, episodes: seq<Episode<F>>, limit: Option<nat>, render: Render,
                           stop: StopTest)
    requires AllRest(all, episodes, render, stop) && |all| == |episodes|
    requires forall e :: 0 <= e < |all| ==> all[e].step == FramesOf(episodes[e], limit)
    ensures PlainSessions(all, episodes, limit, render, stop)
  {
    forall e | 0 <= e < |all| ensures PlainSession(all[e], episodes[e], limit, render, stop) {
      assert Resting(all[e], e, episodes, render, stop);
      var cuts := HistoryCuts(all[e].turns);
      forall t | 0 <= t < |all[e].turns|
        ensures all[e].turns[t].kept != [] && NoneInside(all[e].turns[t].kept, stop)
      {
        KeptMinimal(all[e].turns[t].kept, stop);
      }
      assert all[e].history == History(all[e].turns);
    }
  }

  lemma RowTurn<F>(row: Logged, key: Key, turns: seq<seq<Turn>>, episodes: seq<Episode<F>>, source: Source)
    requires LoggedOk(row, key, turns, episodes, source)
    ensures ShowsTurn(row, turns, episodes) && row.batchIndex == key.batch && source.Gives(key, row.record)
  {
  }

  /** A record given in a good batch is the one its own request calls for. */
  lemma GivenPlainly(record: Record, key: Key, n: nat, source: Source)
    requires source.Gives(key, record) && source.Good(key.batch, n) && key.place < n
    ensures AskedAt(record, key.batch, key.place, source)
  {
    var ids := Requests(source.call + key.batch, n);
    RequestsAre(source.call + key.batch, n);
    assert ids[key.place] in Ids(ids);
    RecordPlainly(record, Flatten(source.engine(key.batch)), Ids(ids), ids[key.place], source.stop);
  }

  lemma RowPlainly<F>(rows: seq<Logged>, k: nat, turns: seq<seq<Turn>>, schedule: seq<seq<Slot>>,
                      episodes: seq<Episode<F>>, source: Source)
    requires AllLogged(rows, Keys(schedule), turns, episodes, source) && AllGood(schedule, source) && k < |rows|
    ensures PlainRow(rows, k, turns, episodes, source)
  {
    var key := Keys(schedule)[k];
    RowTurn(rows[k], key, turns, episodes, source);
    KeyPlaced(schedule, k);
    LoggedPlaced(rows, Keys(schedule), turns, episodes, source);
    PlaceIsRank(AsRows(rows), schedule, episodes, k);
    GivenPlainly(rows[k].record, key, |schedule[key.batch]|, source);
    assert rows[k].batchIndex == key.batch && RowsIn(AsRows(rows)[..k], key.batch) == key.place;
  }

  lemma RowsPlainly<F>(rows: seq<Logged>, turns: seq<seq<Turn>>, schedule: seq<seq<Slot>>, episodes: seq<Episode<F>>,
                       source: Source)
    requires AllLogged(rows, Keys(schedule), turns, episodes, source) && AllGood(schedule, source)
    ensures PlainRows(rows, turns, episodes, source)
  {
    forall k | 0 <= k < |rows| ensures PlainRow(rows, k, turns, episodes, source) {
      RowPlainly(rows, k, turns, schedule, episodes, source);
    }
  }

  lemma GoodSoFar(done: seq<seq<Slot>>, batch: seq<Slot>, schedule: seq<seq<Slot>>, source: Source)
    requires done + [batch] <= schedule && AllGood(done, source)
    ensures if source.Good(|done|, |batch|) then AllGood(done + [batch], source)
            else StoppedAt(schedule, source, done)
  {
    assert schedule[|done|] == (done + [batch])[|done|] == batch;
    forall k | 0 <= k < |done| ensures source.Good(k, |(done + [batch])[k]|) {
      assert (done + [batch])[k] == done[k];
    }
  }

  lemma Finished<F>(all: seq<ReplaySession<F>>, done: seq<seq<Slot>>, lens: seq<nat>, b: nat)
    requires Positive(lens) && 1 <= b && done == Schedule(lens, b) && |all| == |lens| && Stepped(all, done)
    ensures forall e :: 0 <= e < |all| ==> all[e].step == lens[e]
  {
    forall e | 0 <= e < |all| ensures all[e].step == lens[e] {
      Coverage(lens, b, e);
    }
  }

  /** The session got its answer but has not moved on yet. */
  ghost predicate Answered<F>(s: ReplaySession<F>, record: Record, episodes: seq<Episode<F>>)
    reads s
  {
    && s.ep < |episodes| && s.episode == episodes[s.ep]
    && |s.images| == |s.turns| == s.step + 1 && s.turns[s.step].kept == record.tokens
  }

  /** Each session is at the frame after its turns and images so far, and is given that frame. */
  ghost predicate Due<F>(sessions: seq<ReplaySession<F>>, before: seq<seq<Turn>>, oldImages: seq<seq<F>>,
                         images: seq<F>)
    reads sessions`step
  {
    && |before| == |oldImages| == |images| == |sessions|
    && forall i :: 0 <= i < |sessions| ==>
         && sessions[i].step == |before[i]| && sessions[i].step < |sessions[i].episode.frames|
         && oldImages[i] == sessions[i].episode.frames[..sessions[i].step]
            && images[i] == sessions[i].episode.frames[sessions[i].step]
  }

  lemma DueNow<F>(sessions: seq<ReplaySession<F>>, all: seq<ReplaySession<F>>, images: seq<F>,
                  episodes: seq<Episode<F>>,
                  render: Render, stop: StopTest)
    requires AllRest(all, episodes, render, stop) && Drawn(sessions, all) && DistinctIds(episodes)
             && |images| == |sessions|
    requires forall i :: 0 <= i < |sessions| ==>
               sessions[i].step < |sessions[i].episode.frames|
               && images[i] == sessions[i].episode.frames[sessions[i].step]
    ensures Separate(sessions) && AllHold(sessions, false, render, stop) && DistinctIdentities(sessions)
    ensures Due(sessions, Turns(sessions), Images(sessions), images)
  {
    forall i | 0 <= i < |sessions| ensures Resting(sessions[i], sessions[i].ep, episodes, render, stop) {
      assert Resting(all[sessions[i].ep], sessions[i].ep, episodes, render, stop);
    }
    IdentitiesDiffer(sessions, all, episodes, render, stop);
  }

  /** The session gained one turn and the image of the frame it was at. */
  ghost predicate Advances<F>(s: ReplaySession<F>, before: seq<Turn>, record: Record, render: Render, stop: StopTest)
    reads s`turns, s`history, s`images, s`imageIds
  {
    && s.Holds(false, render, stop) && Extended(s.turns, before, record.tokens)
    && |before| < |s.episode.frames| && s.images == s.episode.frames[..|before| + 1]
  }

  ghost predicate AdvancedAll<F>(sessions: seq<ReplaySession<F>>, before: seq<seq<Turn>>, ids: seq<string>,
                                 records: map<string, Record>,
                                 render: Render, stop: StopTest)
    reads sessions`turns, sessions`history, sessions`images, sessions`imageIds
  {
    && |before| == |ids| == |sessions|
    && forall i :: 0 <= i < |sessions| ==>
         ids[i] in records && Advances(sessions[i], before[i], records[ids[i]], render, stop)
  }

  /** A trace that conforms and ends every request with a nonempty output. */
  ghost predicate GoodTrace(trace: seq<seq<Output>>, identities: seq<string>, stop: StopTest) {
    Conforming(Flatten(trace), Ids(identities), stop) && AllEnded(Flatten(trace), Ids(identities), stop)
  }

  /** Each request has the record its own outputs in the trace call for. */
  ghost predicate Collected(records: map<string, Record>, ids: seq<string>, trace: seq<seq<Output>>, stop: StopTest) {
    forall i :: 0 <= i < |ids| ==> ids[i] in records && RecordOk(records[ids[i]], Flatten(trace), ids[i], stop)
  }

  lemma AnswerIffGood(r: Result<(map<string, Record>, nat), BatchError>, trace: seq<seq<Output>>, call: nat, n: nat,
                      stop: StopTest)
    requires Answer(r, trace, Requests(call, n), stop)
    ensures r.Ok? <==> GoodTrace(trace, Requests(call, n), stop)
    ensures r.Ok? ==> Collected(r.value.0, Requests(call, n), trace, stop)
  {
    var ids := Requests(call, n);
    RequestsDistinct(call, n);
    forall i | r.Ok? && 0 <= i < |ids|
      ensures ids[i] in r.value.0 && RecordOk(r.value.0[ids[i]], Flatten(trace), ids[i], stop)
    {
      assert ids[i] in Ids(ids);
    }
  }

  /** The record of each request is the one its row has to show. */
  ghost predicate AllGiven(records: map<string, Record>, ids: seq<string>, keys: seq<Key>, source: Source) {
    |keys| == |ids| && forall i :: 0 <= i < |ids| ==> ids[i] in records && source.Gives(keys[i], records[ids[i]])
  }

  lemma FeedsGood(source: Source, trace: seq<seq<Output>>, call: nat, index: nat, stop: StopTest, n: nat)
    requires source.Feeds(trace, call, index, stop)
    ensures source.Good(index, n) <==> GoodTrace(trace, Requests(call, n), stop)
  {
  }

  lemma GivenByEngine(records: map<string, Record>, ids: seq<string>, slots: seq<Slot>, index: nat,
                      trace: seq<seq<Output>>, source: Source,
                      call: nat, n: nat)
    requires call == source.call + index && n == |slots| && ids == Requests(call, n) && trace == source.engine(index)
    requires Collected(records, ids, trace, source.stop)
    ensures AllGiven(records, ids, KeysIn(slots, index), source)
  {
    RequestsAre(call, n);
  }

  lemma IdentitiesDiffer<F>(sessions: seq<ReplaySession<F>>, all: seq<ReplaySession<F>>, episodes: seq<Episode<F>>,
                            render: Render, stop: StopTest)
    requires AllRest(all, episodes, render, stop) && Drawn(sessions, all) && DistinctIds(episodes)
    ensures DistinctIdentities(sessions)
  {
    forall i, j | 0 <= i < j < |sessions| ensures sessions[i].identity != sessions[j].identity {
      assert Resting(all[sessions[i].ep], sessions[i].ep, episodes, render, stop);
      assert Resting(all[sessions[j].ep], sessions[j].ep, episodes, render, stop);
      if SessionId(episodes[sessions[i].ep].id) == SessionId(episodes[sessions[j].ep].id) {
        SessionIdInjective(episodes[sessions[i].ep].id, episodes[sessions[j].ep].id);
      }
    }
  }

  lemma TakeOneMore<F>(frames: seq<F>, k: nat, taken: seq<F>, item: F)
    requires k < |frames| && taken == frames[..k] && item == frames[k]
    ensures taken + [item] == frames[..k + 1]
  {
  }

  lemma AllAdvance<F>(sessions: seq<ReplaySession<F>>, before: seq<seq<Turn>>, oldImages: seq<seq<F>>, images: seq<F>,
                      ids: seq<string>, records: map<string, Record>, render: Render, stop: StopTest)
    requires AllHold(sessions, false, render, stop) && AllExtended(Turns(sessions), before, ids, records)
    requires |images| == |oldImages| == |sessions| && Images(sessions) == AppendEach(oldImages, images)
    requires Due(sessions, before, oldImages, images)
    ensures AdvancedAll(sessions, before, ids, records, render, stop)
  {
    forall i | 0 <= i < |sessions|
      ensures ids[i] in records && Advances(sessions[i], before[i], records[ids[i]], render, stop)
    {
      assert Extended(Turns(sessions)[i], before[i], records[ids[i]].tokens);
      assert Images(sessions)[i] == oldImages[i] + [images[i]];
      TakeOneMore(sessions[i].episode.frames, sessions[i].step, oldImages[i], images[i]);
    }
  }

  /** Every session not among `sessions` still rests. */
  ghost predicate OthersRest<F>(sessions: seq<ReplaySession<F>>, all: seq<ReplaySession<F>>, episodes: seq<Episode<F>>,
                                render: Render, stop: StopTest)
    reads set s | s in all && s !in sessions
  {
    |all| <= |episodes|
    && forall e :: 0 <= e < |all| && all[e] !in sessions ==> Resting(all[e], e, episodes, render, stop)
  }

  ghost predicate AllAnswered<F>(sessions: seq<ReplaySession<F>>, ids: seq<string>, records: map<string, Record>,
                                 episodes: seq<Episode<F>>)
    reads sessions
  {
    |ids| == |sessions|
    && forall i :: 0 <= i < |sessions| ==> ids[i] in records && Answered(sessions[i], records[ids[i]], episodes)
  }

  /** The sessions belong to the episodes they say. */
  ghost predicate Fixed<F>(sessions: seq<ReplaySession<F>>, episodes: seq<Episode<F>>) {
    forall i :: 0 <= i < |sessions| ==>
      sessions[i].ep < |episodes| && sessions[i].episode == episodes[sessions[i].ep]
      && sessions[i].identity == SessionId(episodes[sessions[i].ep].id)
  }

  lemma RestingConsts<F>(sessions: seq<ReplaySession<F>>, all: seq<ReplaySession<F>>, episodes: seq<Episode<F>>,
                         render: Render, stop: StopTest)
    requires AllRest(all, episodes, render, stop) && Drawn(sessions, all)
    ensures Fixed(sessions, episodes) && Before(sessions, all, Turns(sessions), Turns(all))
    ensures OthersRest(sessions, all, episodes, render, stop)
  {
    forall i | 0 <= i < |sessions| ensures Resting(sessions[i], sessions[i].ep, episodes, render, stop) {
      assert Resting(all[sessions[i].ep], sessions[i].ep, episodes, render, stop);
    }
  }

  /** Turns recorded before a batch: of the sessions in it, and of all sessions. */
  ghost predicate Before<F>(sessions: seq<ReplaySession<F>>, all: seq<ReplaySession<F>>, before: seq<seq<Turn>>,
                            allBefore: seq<seq<Turn>>)
    requires Drawn(sessions, all)
    reads all`turns, sessions`step
  {
    && |before| == |sessions| && |allBefore| == |all|
    && (forall e :: 0 <= e < |all| && all[e] !in sessions ==> all[e].turns == allBefore[e])
    && (forall i :: 0 <= i < |sessions| ==> before[i] == allBefore[sessions[i].ep] && sessions[i].step == |before[i]|)
  }

  lemma AskedFacts<F>(sessions: seq<ReplaySession<F>>, all: seq<ReplaySession<F>>, before: seq<seq<Turn>>,
                      allBefore: seq<seq<Turn>>,
                      ids: seq<string>, records: map<string, Record>, episodes: seq<Episode<F>>, render: Render,
                      stop: StopTest)
    requires Drawn(sessions, all) && Fixed(sessions, episodes) && Before(sessions, all, before, allBefore)
    requires AdvancedAll(sessions, before, ids, records, render, stop)
    ensures AllAnswered(sessions, ids, records, episodes) && Grown(Turns(all), allBefore)
  {
    forall i | 0 <= i < |sessions| ensures Answered(sessions[i], records[ids[i]], episodes) {
      assert Advances(sessions[i], before[i], records[ids[i]], render, stop);
    }
    forall e | 0 <= e < |all| ensures allBefore[e] <= Turns(all)[e] {
      if all[e] in sessions {
        var i :| 0 <= i < |sessions| && sessions[i] == all[e];
        assert Advances(sessions[i], before[i], records[ids[i]], render, stop);
        assert sessions[i] == all[sessions[i].ep];
      }
    }
  }

  lemma AskedLogged<F>(sessions: seq<ReplaySession<F>>, all: seq<ReplaySession<F>>, before: seq<seq<Turn>>,
                       allBefore: seq<seq<Turn>>,
                       ids: seq<string>, records: map<string, Record>, episodes: seq<Episode<F>>, rows: seq<Logged>,
                       keys: seq<Key>,
                       render: Render, stop: StopTest, source: Source)
    requires Drawn(sessions, all) && Fixed(sessions, episodes) && Before(sessions, all, before, allBefore)
             && |all| <= |episodes|
    requires AdvancedAll(sessions, before, ids, records, render, stop)
             && AllLogged(rows, keys, allBefore, episodes, source)
    ensures AllAnswered(sessions, ids, records, episodes) && AllLogged(rows, keys, Turns(all), episodes, source)
  {
    AskedFacts(sessions, all, before, allBefore, ids, records, episodes, render, stop);
    LoggedStays(rows, keys, allBefore, Turns(all), episodes, source);
  }

  lemma CloseAgain<F>(sessions: seq<ReplaySession<F>>, all: seq<ReplaySession<F>>, before: seq<seq<Turn>>,
                      ids: seq<string>,
                      records: map<string, Record>, episodes: seq<Episode<F>>, render: Render, stop: StopTest)
    requires Drawn(sessions, all) && OthersRest(sessions, all, episodes, render, stop)
    requires AdvancedAll(sessions, before, ids, records, render, stop)
    requires Fixed(sessions, episodes) && forall i :: 0 <= i < |sessions| ==> sessions[i].step == |before[i]|
    ensures AllClosed(all, episodes, render, stop)
    ensures forall e :: 0 <= e < |all| ==> all[e].step == |all[e].turns| - if all[e] in sessions then 1 else 0
  {
    forall e | 0 <= e < |all|
      ensures Closed(all[e], e, episodes, render, stop)
      ensures all[e].step == |all[e].turns| - if all[e] in sessions then 1 else 0
    {
      if all[e] in sessions {
        var i :| 0 <= i < |sessions| && sessions[i] == all[e];
        assert Advances(sessions[i], before[i], records[ids[i]], render, stop);
      } else {
        assert Resting(all[e], e, episodes, render, stop);
      }
    }
  }

  ghost function StepCounts<F>(all: seq<ReplaySession<F>>): (steps: seq<nat>)
    reads all
    ensures |steps| == |all| && forall e :: 0 <= e < |all| ==> steps[e] == all[e].step
  {
    seq(|all|, e requires 0 <= e < |all| reads all => all[e].step)
  }

  /** Sessions one step behind their turns are level with them after one step. */
  lemma CaughtUp<F>(sessions: seq<ReplaySession<F>>, all: seq<ReplaySession<F>>, steps: seq<nat>)
    requires Drawn(sessions, all) && |steps| == |all|
    requires forall e :: 0 <= e < |all| ==> steps[e] == |all[e].turns| - if all[e] in sessions then 1 else 0
    requires forall i :: 0 <= i < |sessions| ==> sessions[i].step == steps[sessions[i].ep] + 1
    requires forall e :: 0 <= e < |all| && all[e] !in sessions ==> all[e].step == steps[e]
    ensures forall e :: 0 <= e < |all| ==> all[e].step == |all[e].turns|
  {
    forall e | 0 <= e < |all| ensures all[e].step == |all[e].turns| {
      if all[e] in sessions {
        var i :| 0 <= i < |sessions| && sessions[i] == all[e];
      }
    }
  }

  lemma RestNow<F>(all: seq<ReplaySession<F>>, episodes: seq<Episode<F>>, render: Render, stop: StopTest)
    requires AllClosed(all, episodes, render, stop) && forall e :: 0 <= e < |all| ==> all[e].step == |all[e].turns|
    ensures AllRest(all, episodes, render, stop)
  {
  }

  /** Row `k` of the log belongs to the request at the place its key says. */
  lemma {:induction false} KeyPlaced(batches: seq<seq<Slot>>, k: nat)
    requires k < |Keys(batches)|
    ensures var key := Keys(batches)[k];
            && key.batch < |batches| && key.place < |batches[key.batch]|
            && batches[key.batch][key.place] == Slot(key.ep, key.step)
  {
    var n := |batches| - 1;
    if k < |Keys(batches[..n])| {
      KeyPlaced(batches[..n], k);
    }
  }

  /** Every step of every episode is logged, by the request at its own place of the schedule. */
  lemma StepLogged(lens: seq<nat>, b: nat, e: nat, t: nat) returns (k: nat)
    requires Positive(lens) && 1 <= b && e < |lens| && t < lens[e]
    ensures var schedule := Schedule(lens, b);
            && k < |Keys(schedule)|
            && var key := Keys(schedule)[k];
               && key.ep == e && key.step == t && key.batch < |schedule| && key.place < |schedule[key.batch]|
               && schedule[key.batch][key.place] == Slot(e, t)
  {
    var schedule := Schedule(lens, b);
    StepsOfSchedule(schedule, e);
    Coverage(lens, b, e);
    k := StepHasKey(Keys(schedule), e, t);
    KeyPlaced(schedule, k);
  }

  lemma GivesKeeps(source: Source, key: Key, record: Record, kept: seq<Token>)
    requires source.Gives(key, record) && kept == record.tokens
    ensures source.Kept(key.batch, key.place, kept)
  {
  }

  /** Each turn of a finished replay keeps what one request's own stream calls for: its shortest
      stopping prefix, or all of it. That request is the turn's own place in the schedule. */
  lemma KeptFromEngine<F(!new)>(run: SessionRun<F>, all: seq<ReplaySession<F>>, episodes: seq<Episode<F>>,
                                source: Source, e: nat, t: nat)
    returns (n: nat, i: nat)
    requires 1 <= run.runtime.batchSize && Loaded(episodes, run.limit) && Positive(Lens(episodes, run.limit))
    requires run.Replayed(all, episodes, Schedule(Lens(episodes, run.limit), run.runtime.batchSize), source)
    requires e < |all| && t < |all[e].turns|
    ensures var schedule := Schedule(Lens(episodes, run.limit), run.runtime.batchSize);
            n < |schedule| && i < |schedule[n]| && schedule[n][i] == Slot(e, t)
    ensures source.Kept(n, i, all[e].turns[t].kept)
  {
    assert Resting(all[e], e, episodes, run.runtime.render, run.runtime.stop);
    var k := StepLogged(Lens(episodes, run.limit), run.runtime.batchSize, e, t);
    ghost var key := Keys(Schedule(Lens(episodes, run.limit), run.runtime.batchSize))[k];
    assert LoggedOk(run.rows[k], key, Turns(all), episodes, source);
    n, i := key.batch, key.place;
    GivesKeeps(source, key, run.rows[k].record, all[e].turns[t].kept);
  }

  /** No image name is ever used twice, in one session or in two. */
  lemma ImageNamesNeverRepeat<F>(all: seq<ReplaySession<F>>, episodes: seq<Episode<F>>, render: Render, stop: StopTest,
                                 e: nat, k: nat, e': nat, k': nat)
    requires AllRest(all, episodes, render, stop) && DistinctIds(episodes)
    requires e < |all| && k < |all[e].imageIds| && e' < |all| && k' < |all[e'].imageIds|
    requires all[e].imageIds[k] == all[e'].imageIds[k']
    ensures e == e' && k == k'
  {
    assert Resting(all[e], e, episodes, render, stop) && Resting(all[e'], e', episodes, render, stop);
    FrameIdInjective(all[e].identity, k + 1, all[e'].identity, k' + 1);
    SessionIdInjective(episodes[e].id, episodes[e'].id);
  }
}
