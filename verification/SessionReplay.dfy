/** Batched replay on a token engine: each session owns its episode's full private history. */
module SessionReplay {
  import opened Wrappers
  import opened StopRouting
  import opened BatchReplay
  import opened Names

  /** One completed observation: the tokens of its turn text, and the generated tokens kept. */
  datatype Turn = Turn(prompt: seq<Token>, kept: seq<Token>)

  /** Rendering and tokenizing the turn text of an instruction, for the first or a later turn. */
  type Render = (string, bool) -> seq<Token>

  datatype BatchError = InvalidBatch | SharedIdentity | Engine(error: CollectError)

  function History(turns: seq<Turn>): seq<Token> {
    if turns == [] then [] else
      History(turns[..|turns| - 1]) + turns[|turns| - 1].prompt + turns[|turns| - 1].kept
  }

  /** Generated tokens with no stop before their end. */
  ghost predicate Minimal(kept: seq<Token>, stop: StopTest) {
    kept != [] && forall end: nat :: end < |kept| ==> !EndsAt(kept, stop, end)
  }

  ghost predicate TurnsOk(turns: seq<Turn>, instruction: string, render: Render, stop: StopTest) {
    forall k :: 0 <= k < |turns| ==> turns[k].prompt == render(instruction, k == 0) && Minimal(turns[k].kept, stop)
  }

  class ReplaySession<F> {
    const identity: string
    const episode: Episode<F>
    ghost const ep: nat
    var step: nat
    var history: seq<Token>
    var images: seq<F>
    var imageIds: seq<string>
    ghost var turns: seq<Turn>

    constructor (identity: string, episode: Episode<F>, ghost ep: nat)
      ensures this.identity == identity && this.episode == episode && this.ep == ep && step == 0
      ensures history == [] && images == [] && imageIds == [] && turns == []
    {
      this.identity, this.episode, this.ep, step := identity, episode, ep, 0;
      history, images, imageIds, turns := [], [], [], [];
    }

    /** The history is the turns so far, plus the current turn text while a request is open;
        there is one image and one image name per turn. */
    ghost predicate Holds(open: bool, render: Render, stop: StopTest)
      reads this`turns, this`history, this`images, this`imageIds
    {
      && TurnsOk(turns, episode.instruction, render, stop)
      && history == History(turns) + (if open then render(episode.instruction, turns == []) else [])
      && |images| == |imageIds| == |turns| + (if open then 1 else 0)
      && forall k :: 0 <= k < |imageIds| ==> imageIds[k] == FrameId(identity, k + 1)
    }

    /** Appends the turn text, the image and its name. */
    method Open(rgb: F, render: Render, ghost stop: StopTest)
      requires Holds(false, render, stop)
      modifies this`history, this`images, this`imageIds
      ensures Holds(true, render, stop) && images == old(images) + [rgb]
    {
      history := history + render(episode.instruction, images == []);
      images := images + [rgb];
      imageIds := imageIds + [FrameId(identity, |images|)];
    }

    /** Appends the kept tokens of the answered request. */
    method Close(tokens: seq<Token>, ghost render: Render, ghost stop: StopTest)
      requires Holds(true, render, stop) && Minimal(tokens, stop)
      modifies this`history, this`turns
      ensures Holds(false, render, stop)
              && turns == old(turns) + [Turn(render(episode.instruction, old(turns) == []), tokens)]
    {
      history := history + tokens;
      turns := turns + [Turn(render(episode.instruction, turns == []), tokens)];
      assert turns[..|turns| - 1] == old(turns);
    }
  }

  ghost predicate Separate<F>(sessions: seq<ReplaySession<F>>) {
    forall i, j :: 0 <= i < j < |sessions| ==> sessions[i] != sessions[j]
  }

  predicate DistinctIdentities<F>(sessions: seq<ReplaySession<F>>) {
    forall i, j :: 0 <= i < j < |sessions| ==> sessions[i].identity != sessions[j].identity
  }

  ghost predicate AllHold<F>(sessions: seq<ReplaySession<F>>, open: bool, render: Render, stop: StopTest)
    reads sessions`turns, sessions`history, sessions`images, sessions`imageIds
  {
    forall i :: 0 <= i < |sessions| ==> sessions[i].Holds(open, render, stop)
  }

  /** The request identities of one batch. */
  function Requests(call: nat, n: nat): seq<string> {
    if n == 0 then [] else Requests(call, n - 1) + [RequestId(call, n - 1)]
  }

  lemma {:induction false} RequestsAre(call: nat, n: nat)
    ensures |Requests(call, n)| == n && forall k :: 0 <= k < n ==> Requests(call, n)[k] == RequestId(call, k)
  {
    if n > 0 {
      RequestsAre(call, n - 1);
    }
  }

  lemma RequestsDistinct(call: nat, n: nat)
    ensures AllDistinct(Requests(call, n)) && |Requests(call, n)| == n
  {
    RequestsAre(call, n);
    forall i, j | 0 <= i < j < n ensures Requests(call, n)[i] != Requests(call, n)[j] {
      if RequestId(call, i) == RequestId(call, j) {
        RequestIdInjective(call, i, call, j);
      }
    }
  }

  lemma KeptIsMinimal(r: Record, events: seq<Output>, id: string, stop: StopTest)
    requires RecordOk(r, events, id, stop) && Latest(events, id) != []
    ensures Minimal(r.tokens, stop)
  {
    var tokens := Latest(events, id);
    forall end: nat | end < |r.tokens| ensures !EndsAt(r.tokens, stop, end) {
      EndsInPrefix(r.tokens, tokens, stop, end);
      assert HasStop(tokens, stop) || !EndsAt(tokens, stop, end);
    }
  }

  class SessionReplay<F> {
    const batchSize: nat
    const render: Render
    const stop: StopTest
    var callIndex: nat

    constructor (batchSize: nat, render: Render, stop: StopTest)
      ensures this.batchSize == batchSize && this.render == render && this.stop == stop && callIndex == 0
    {
      this.batchSize, this.render, this.stop, callIndex := batchSize, render, stop, 0;
    }

    /** Opens one request per session, in slot order. */
    method OpenAll(sessions: seq<ReplaySession<F>>, images: seq<F>)
      requires Separate(sessions) && AllHold(sessions, false, render, stop) && |images| == |sessions|
      modifies sessions`history, sessions`images, sessions`imageIds
      ensures AllHold(sessions, true, render, stop) && Turns(sessions) == old(Turns(sessions))
      ensures Images(sessions) == AppendEach(old(Images(sessions)), images)
    {
      ghost var before := Images(sessions);
      NoneOpened(sessions, images);
      for i := 0 to |sessions|
        invariant OpenedUpTo(sessions, images, before, i)
      {
        OpenNext(sessions[i], sessions, images, before, i);
      }
      OpenedAll(sessions, images, before);
    }

    /** The first `i` sessions have been opened, the others not yet. */
    ghost predicate OpenedUpTo(sessions: seq<ReplaySession<F>>, images: seq<F>, before: seq<seq<F>>, i: nat)
      reads this, sessions`turns, sessions`history, sessions`images, sessions`imageIds
    {
      && |before| == |sessions| == |images| && i <= |sessions|
      && forall k :: 0 <= k < |sessions| ==>
           && sessions[k].Holds(k < i, render, stop)
           && sessions[k].images == if k < i then before[k] + [images[k]] else before[k]
    }

    lemma NoneOpened(sessions: seq<ReplaySession<F>>, images: seq<F>)
      requires AllHold(sessions, false, render, stop) && |images| == |sessions|
      ensures OpenedUpTo(sessions, images, Images(sessions), 0)
    {
    }

    lemma OpenedAll(sessions: seq<ReplaySession<F>>, images: seq<F>, before: seq<seq<F>>)
      requires OpenedUpTo(sessions, images, before, |sessions|)
      ensures AllHold(sessions, true, render, stop) && Images(sessions) == AppendEach(before, images)
    {
    }

    method OpenNext(s: ReplaySession<F>, ghost sessions: seq<ReplaySession<F>>, images: seq<F>,
                    ghost before: seq<seq<F>>, i: nat)
      requires Separate(sessions) && i < |sessions| && s == sessions[i] && OpenedUpTo(sessions, images, before, i)
      modifies s`history, s`images, s`imageIds
      ensures OpenedUpTo(sessions, images, before, i + 1)
    {
      s.Open(images[i], render, stop);
    }

    /** The first `i` sessions have been closed, the others not yet. */
    ghost predicate ClosedUpTo(sessions: seq<ReplaySession<F>>, before: seq<seq<Turn>>, identities: seq<string>,
                               records: map<string, Record>, i: nat)
      reads this, sessions`turns, sessions`history, sessions`images, sessions`imageIds
    {
      && |before| == |sessions| == |identities| && i <= |sessions|
      && forall k :: 0 <= k < |sessions| ==>
           && sessions[k].Holds(k >= i, render, stop) && identities[k] in records
           && if k < i then Extended(sessions[k].turns, before[k], records[identities[k]].tokens)
              else sessions[k].turns == before[k]
    }

    method CloseNext(s: ReplaySession<F>, ghost sessions: seq<ReplaySession<F>>, identities: seq<string>,
                     records: map<string, Record>, ghost before: seq<seq<Turn>>, i: nat)
      requires Separate(sessions) && i < |sessions| && s == sessions[i]
               && ClosedUpTo(sessions, before, identities, records, i)
      requires Minimal(records[identities[i]].tokens, stop)
      modifies s`history, s`turns
      ensures ClosedUpTo(sessions, before, identities, records, i + 1)
    {
      s.Close(records[identities[i]].tokens, render, stop);
    }

    /** Puts the kept tokens of every request into its session's history. */
    method CloseAll(sessions: seq<ReplaySession<F>>, identities: seq<string>, records: map<string, Record>)
      requires Separate(sessions) && AllHold(sessions, true, render, stop) && |identities| == |sessions|
      requires forall i :: 0 <= i < |sessions| ==>
                 identities[i] in records && Minimal(records[identities[i]].tokens, stop)
      modifies sessions`history, sessions`turns
      ensures AllHold(sessions, false, render, stop) && Images(sessions) == old(Images(sessions))
      ensures AllExtended(Turns(sessions), old(Turns(sessions)), identities, records)
    {
      ghost var before := Turns(sessions);
      for i := 0 to |sessions|
        invariant ClosedUpTo(sessions, before, identities, records, i)
      {
        CloseNext(sessions[i], sessions, identities, records, before, i);
      }
    }

    /** Collects the outputs of the open requests and, on success, closes every session. */
    method Collect(sessions: seq<ReplaySession<F>>, identities: seq<string>, trace: seq<seq<Output>>)
      returns (collected: Result<(map<string, Record>, nat), CollectError>)
      requires Separate(sessions) && AllHold(sessions, true, render, stop)
      requires AllDistinct(identities) && |identities| == |sessions|
      modifies sessions`history, sessions`turns
      ensures Verdict(collected, trace, identities, stop)
      ensures AllHold(sessions, collected.Err?, render, stop) && Images(sessions) == old(Images(sessions))
      ensures collected.Err? ==> Turns(sessions) == old(Turns(sessions))
      ensures collected.Ok? ==> AllExtended(Turns(sessions), old(Turns(sessions)), identities, collected.value.0)
    {
      collected := CollectOutputs(trace, identities, stop);
      if collected.Ok? {
        CollectedMinimal(collected, trace, identities, stop);
        CloseAll(sessions, identities, collected.value.0);
      }
    }

    /** Opens one request per session, then collects them. */
    method Process(sessions: seq<ReplaySession<F>>, images: seq<F>, trace: seq<seq<Output>>)
      returns (collected: Result<(map<string, Record>, nat), CollectError>)
      requires Separate(sessions) && AllHold(sessions, false, render, stop) && |images| == |sessions|
      modifies this`callIndex, sessions`history, sessions`images, sessions`imageIds, sessions`turns
      ensures callIndex == old(callIndex) + 1
      ensures Images(sessions) == AppendEach(old(Images(sessions)), images)
      ensures Verdict(collected, trace, Requests(old(callIndex), |sessions|), stop)
      ensures AllHold(sessions, collected.Err?, render, stop)
      ensures if collected.Err? then Turns(sessions) == old(Turns(sessions))
              else AllExtended(Turns(sessions), old(Turns(sessions)), Requests(old(callIndex), |sessions|),
                               collected.value.0)
    {
      OpenAll(sessions, images);
      var identities := Requests(callIndex, |sessions|);
      RequestsDistinct(callIndex, |sessions|);
      callIndex := callIndex + 1;
      collected := Collect(sessions, identities, trace);
    }

    /** One observation batch: refused before any session changes, or answered by the engine. */
    method CallBatch(sessions: seq<ReplaySession<F>>, images: seq<F>, trace: seq<seq<Output>>)
      returns (r: Result<(map<string, Record>, nat), BatchError>)
      requires Separate(sessions) && AllHold(sessions, false, render, stop)
      modifies this`callIndex, sessions`history, sessions`images, sessions`imageIds, sessions`turns
      ensures r == Err(InvalidBatch) <==> sessions == [] || |sessions| != |images| || |sessions| > batchSize
      ensures r == Err(SharedIdentity) <==> r != Err(InvalidBatch) && !DistinctIdentities(sessions)
      ensures r == Err(InvalidBatch) || r == Err(SharedIdentity) ==>
                AllHold(sessions, false, render, stop) && Turns(sessions) == old(Turns(sessions))
                && callIndex == old(callIndex)
      ensures r != Err(InvalidBatch) && r != Err(SharedIdentity) ==>
                && |images| == |sessions| && callIndex == old(callIndex) + 1
                && AllHold(sessions, r.Err?, render, stop)
                && Images(sessions) == AppendEach(old(Images(sessions)), images)
                && Answer(r, trace, Requests(old(callIndex), |sessions|), stop)
                && if r.Err? then Turns(sessions) == old(Turns(sessions))
                   else AllExtended(Turns(sessions), old(Turns(sessions)), Requests(old(callIndex), |sessions|),
                                    r.value.0)
    {
      if sessions == [] || |sessions| != |images| || |sessions| > batchSize {
        return Err(InvalidBatch);
      }
      if !DistinctIdentities(sessions) {
        return Err(SharedIdentity);
      }
      var collected := Process(sessions, images, trace);
      r := if collected.Ok? then Ok(collected.value) else Err(Engine(collected.error));
    }
  }

  /** The engine's part of a batch answer is the collector's verdict on the trace. */
  ghost predicate Answer(r: Result<(map<string, Record>, nat), BatchError>, trace: seq<seq<Output>>,
                         identities: seq<string>, stop: StopTest) {
    match r
    case Ok(v) => Verdict(Ok(v), trace, identities, stop)
    case Err(Engine(e)) => Verdict(Err(e), trace, identities, stop)
    case Err(_) => false
  }

  ghost function Turns<F>(sessions: seq<ReplaySession<F>>): seq<seq<Turn>>
    reads sessions
  {
    seq(|sessions|, i requires 0 <= i < |sessions| reads sessions => sessions[i].turns)
  }

  ghost function Images<F>(sessions: seq<ReplaySession<F>>): seq<seq<F>>
    reads sessions
  {
    seq(|sessions|, i requires 0 <= i < |sessions| reads sessions => sessions[i].images)
  }

  function AppendEach<F>(lists: seq<seq<F>>, items: seq<F>): seq<seq<F>>
    requires |items| == |lists|
  {
    seq(|lists|, i requires 0 <= i < |lists| => lists[i] + [items[i]])
  }

  /** Every session gained one turn, with the tokens kept for its own request. */
  ghost predicate AllExtended(after: seq<seq<Turn>>, before: seq<seq<Turn>>, identities: seq<string>,
                              records: map<string, Record>) {
    && |after| == |before| == |identities|
    && forall i :: 0 <= i < |after| ==>
         identities[i] in records && Extended(after[i], before[i], records[identities[i]].tokens)
  }

  /** One more turn, whose kept tokens are `tokens`. */
  ghost predicate Extended(after: seq<Turn>, before: seq<Turn>, tokens: seq<Token>) {
    |after| == |before| + 1 && after[..|before|] == before && after[|before|].kept == tokens
  }

  lemma CollectedMinimal(collected: Result<(map<string, Record>, nat), CollectError>, trace: seq<seq<Output>>,
                         identities: seq<string>, stop: StopTest)
    requires Verdict(collected, trace, identities, stop) && collected.Ok?
    ensures forall i :: 0 <= i < |identities| ==> identities[i] in collected.value.0
    ensures forall i :: 0 <= i < |identities| ==> Minimal(collected.value.0[identities[i]].tokens, stop)
  {
    var ids, events := Ids(identities), Flatten(trace);
    forall i | 0 <= i < |identities|
      ensures identities[i] in collected.value.0 && Minimal(collected.value.0[identities[i]].tokens, stop)
    {
      var id := identities[i];
      assert id in ids;
      assert AllEnded(events, ids, stop);
      KeptIsMinimal(collected.value.0[id], events, id, stop);
    }
  }
}
