/** The three generation loops: the batched collector, the modern one-request loop and the
    older loop that tests only the newest token and the whole text. */
module GenerationLoops {
  import opened Wrappers
  import opened StopRouting

  // ---- the stream of a request decides what is kept ----

  /** The kept tokens of a request that stopped are the shortest stopping prefix of its own
      stream, however far the trace showed that stream. */
  lemma KeptIsStreamStop(r: Record, events: seq<Output>, id: string, stop: StopTest, stream: seq<Token>)
    requires RecordOk(r, events, id, stop) && HasStop(Latest(events, id), stop) && Latest(events, id) <= stream
    ensures ShortestStop(r.tokens, stream, stop)
  {
    OverrunIsInvisible(r.tokens, Latest(events, id), stream, stop);
  }

  /** Block sizes, overrun and other requests do not matter: two traces of the same stream keep the same tokens. */
  lemma BlocksDoNotMatter(r: Record, events: seq<Output>, r': Record, events': seq<Output>, id: string, stop: StopTest,
                          stream: seq<Token>)
    requires RecordOk(r, events, id, stop) && HasStop(Latest(events, id), stop) && Latest(events, id) <= stream
    requires RecordOk(r', events', id, stop) && HasStop(Latest(events', id), stop) && Latest(events', id) <= stream
    ensures r.tokens == r'.tokens && r.stopReason == r'.stopReason
  {
    KeptIsStreamStop(r, events, id, stop, stream);
    KeptIsStreamStop(r', events', id, stop, stream);
    ShortestUnique(r.tokens, r'.tokens, stream, stop);
    StopEnds(events, id, stop);
    StopEnds(events', id, stop);
  }

  lemma {:induction false} LatestIsEvent(events: seq<Output>, id: string) returns (k: nat)
    requires LatestOutput(events, id).Some?
    ensures k < |events| && events[k].id == id && LatestOutput(events, id).value == events[k]
  {
    var n := |events| - 1;
    if events[n].id == id {
      k := n;
    } else {
      k := LatestIsEvent(events[..n], id);
    }
  }

  lemma StopEnds(events: seq<Output>, id: string, stop: StopTest)
    requires HasStop(Latest(events, id), stop)
    ensures LatestOutput(events, id).Some? && Ended(events, id, stop)
  {
    var k := LatestIsEvent(events, id);
    assert Final(events[k], stop);
  }

  /** The outputs of one request. */
  function Own(events: seq<Output>, id: string): seq<Output> {
    if events == [] then [] else
      var last := events[|events| - 1];
      Own(events[..|events| - 1], id) + if last.id == id then [last] else []
  }

  lemma {:induction false} OwnFacts(events: seq<Output>, id: string, stop: StopTest)
    ensures LatestOutput(Own(events, id), id) == LatestOutput(events, id)
    ensures Ended(Own(events, id), id, stop) <==> Ended(events, id, stop)
  {
    if events != [] {
      var n := |events| - 1;
      OwnFacts(events[..n], id, stop);
      assert events == events[..n] + [events[n]];
      EndedAppend(events[..n], events[n], id, stop);
      if events[n].id == id {
        EndedAppend(Own(events[..n], id), events[n], id, stop);
        LatestAppend(Own(events[..n], id), events[n], id);
      } else {
        assert Own(events, id) == Own(events[..n], id);
      }
    }
  }

  /** What is recorded for a request depends on its own outputs only. */
  lemma InterleavingDoesNotMatter(r: Record, events: seq<Output>, id: string, stop: StopTest)
    ensures RecordOk(r, events, id, stop) <==> RecordOk(r, Own(events, id), id, stop)
  {
    OwnFacts(events, id, stop);
  }

  // ---- the one-request loops ----

  datatype CallError = IdentityChanged | NoCandidate | NoModelInterval | RemainedActive

  datatype Call = Call(tokens: seq<Token>, stopReason: string)

  /** A step of a one-request engine: no output, or one output of that request. */
  predicate Fit(outputs: seq<Output>, id: string) {
    outputs == [] || (|outputs| == 1 && outputs[0].id == id && outputs[0].candidates != [])
  }

  predicate AllFit(trace: seq<seq<Output>>, id: string) {
    forall k :: 0 <= k < |trace| ==> Fit(trace[k], id)
  }

  /** The cumulative token blocks of a one-request trace, one per step that gave an output. */
  function Blocks(trace: seq<seq<Output>>): seq<seq<Token>> {
    if trace == [] then [] else
      var outputs := trace[|trace| - 1];
      Blocks(trace[..|trace| - 1])
      + if outputs == [] || outputs[0].candidates == [] then [] else [outputs[0].candidates[0].tokens]
  }

  ghost predicate Cumulative(blocks: seq<seq<Token>>) {
    forall i, j :: 0 <= i <= j < |blocks| ==> blocks[i] <= blocks[j]
  }

  function LastBlock(blocks: seq<seq<Token>>): seq<Token> {
    if blocks == [] then [] else blocks[|blocks| - 1]
  }

  ghost predicate NoStop(blocks: seq<seq<Token>>, stop: StopTest) {
    forall j :: 0 <= j < |blocks| ==> !HasStop(blocks[j], stop)
  }

  ghost predicate FirstStop(blocks: seq<seq<Token>>, stop: StopTest, k: nat) {
    k < |blocks| && HasStop(blocks[k], stop) && NoStop(blocks[..k], stop)
  }

  ghost predicate NoWholeStop(blocks: seq<seq<Token>>, stop: StopTest) {
    forall j :: 0 <= j < |blocks| ==> !EndsAt(blocks[j], stop, |blocks[j]|)
  }

  ghost predicate FirstWholeStop(blocks: seq<seq<Token>>, stop: StopTest, k: nat) {
    k < |blocks| && EndsAt(blocks[k], stop, |blocks[k]|) && NoWholeStop(blocks[..k], stop)
  }

  function StopName(kept: seq<Token>): string
    requires kept != []
  {
    if IsEos(kept[|kept| - 1]) then "eos" else "stop"
  }

  /** The modern loop: the shortest stopping prefix of the first block that has one. */
  ghost predicate ModernKeeps(c: Call, blocks: seq<seq<Token>>, stop: StopTest) {
    if NoStop(blocks, stop) then c == Call(LastBlock(blocks), "max_tokens")
    else c.tokens != [] && c.stopReason == StopName(c.tokens)
         && exists k: nat :: FirstStop(blocks, stop, k) && ShortestStop(c.tokens, blocks[k], stop)
  }

  /** The older loop: the first block that stops as a whole. */
  ghost predicate NativeKeeps(c: Call, blocks: seq<seq<Token>>, stop: StopTest) {
    if NoWholeStop(blocks, stop) then c == Call(LastBlock(blocks), "max_tokens")
    else c.tokens != [] && c.stopReason == StopName(c.tokens)
         && exists k: nat :: FirstWholeStop(blocks, stop, k) && c.tokens == blocks[k]
  }

  // ---- what the loops answer on any trace ----

  /** How many steps come before the first that is not an output of the request. */
  function FitLength(trace: seq<seq<Output>>, id: string): nat {
    if trace == [] then 0
    else
      var before := FitLength(trace[..|trace| - 1], id);
      if before == |trace| - 1 && Fit(trace[|trace| - 1], id) then |trace| else before
  }

  lemma {:induction false} FitLengthIs(trace: seq<seq<Output>>, id: string)
    ensures FitLength(trace, id) <= |trace|
    ensures forall k :: 0 <= k < FitLength(trace, id) ==> Fit(trace[k], id)
    ensures FitLength(trace, id) < |trace| ==> !Fit(trace[FitLength(trace, id)], id)
  {
    if trace != [] {
      FitLengthIs(trace[..|trace| - 1], id);
    }
  }

  /** What is wrong with a step that does not fit. */
  function Misfit(outputs: seq<Output>, id: string): CallError {
    if |outputs| != 1 || outputs[0].id != id then IdentityChanged else NoCandidate
  }

  function LastNonempty(blocks: seq<seq<Token>>): seq<Token> {
    if blocks == [] then []
    else if blocks[|blocks| - 1] != [] then blocks[|blocks| - 1] else LastNonempty(blocks[..|blocks| - 1])
  }

  /** Block `k` has no stop past the length of the last nonempty block before it. */
  ghost predicate Quiet(blocks: seq<seq<Token>>, k: nat, stop: StopTest)
    requires k < |blocks|
  {
    forall end: nat :: |LastNonempty(blocks[..k])| < end ==> !EndsAt(blocks[k], stop, end)
  }

  ghost predicate AllQuiet(blocks: seq<seq<Token>>, stop: StopTest) {
    forall k :: 0 <= k < |blocks| ==> Quiet(blocks, k, stop)
  }

  /** The first stop of block `k` past the length of the last nonempty block before it. */
  ghost predicate NewStop(kept: seq<Token>, blocks: seq<seq<Token>>, k: nat, stop: StopTest)
    requires k < |blocks|
  {
    && kept <= blocks[k] && |LastNonempty(blocks[..k])| < |kept| && EndsAt(blocks[k], stop, |kept|)
    && forall end: nat :: |LastNonempty(blocks[..k])| < end < |kept| ==> !EndsAt(blocks[k], stop, end)
  }

  ghost predicate ModernFinds(c: Call, blocks: seq<seq<Token>>, stop: StopTest) {
    exists k: nat :: k < |blocks| && AllQuiet(blocks[..k], stop) && NewStop(c.tokens, blocks, k, stop)
                     && c.stopReason == StopName(c.tokens)
  }

  /** The modern loop on any trace: the first stop past what was seen, before a misfit is reached. */
  ghost predicate ModernAnswer(r: Result<Call, CallError>, trace: seq<seq<Output>>, id: string, stop: StopTest) {
    FitLengthIs(trace, id);
    var n := FitLength(trace, id);
    var blocks := Blocks(trace[..n]);
    if !AllQuiet(blocks, stop) then r.Ok? && ModernFinds(r.value, blocks, stop)
    else if n < |trace| then r == Err(Misfit(trace[n], id))
    else if LastNonempty(blocks) == [] then r == Err(NoModelInterval)
    else r == Ok(Call(LastNonempty(blocks), "max_tokens"))
  }

  /** What the steps before the last one showed. While steps remain, the engine holds the request. */
  function Earlier(trace: seq<seq<Output>>): seq<seq<Token>> {
    if trace == [] then [] else Blocks(trace[..|trace| - 1])
  }

  /** The older loop leaves an engine that it did not abort, and EOS does not abort: a request that
      was still active then refuses the call. */
  ghost function Settled(c: Call, trace: seq<seq<Output>>, stop: StopTest): Result<Call, CallError> {
    if c.stopReason == "eos" && !NoWholeStop(Earlier(trace), stop) then Err(RemainedActive) else Ok(c)
  }

  ghost predicate NativeFinds(r: Result<Call, CallError>, trace: seq<seq<Output>>, blocks: seq<seq<Token>>,
                              stop: StopTest) {
    exists c :: NativeKeeps(c, blocks, stop) && r == Settled(c, trace, stop)
  }

  /** The older loop on any trace: the first block that stops as a whole, before a misfit is reached,
      unless that stop is EOS and the engine goes on. */
  ghost predicate NativeAnswer(r: Result<Call, CallError>, trace: seq<seq<Output>>, id: string, stop: StopTest) {
    FitLengthIs(trace, id);
    var n := FitLength(trace, id);
    var blocks := Blocks(trace[..n]);
    if !NoWholeStop(blocks, stop) then NativeFinds(r, trace, blocks, stop)
    else if n < |trace| then r == Err(Misfit(trace[n], id))
    else if LastNonempty(blocks) == [] then r == Err(NoModelInterval)
    else r == Ok(Call(LastBlock(blocks), "max_tokens"))
  }

  lemma QuietIn(short: seq<seq<Token>>, long: seq<seq<Token>>, k: nat, stop: StopTest)
    requires short <= long && k < |short|
    ensures Quiet(short, k, stop) <==> Quiet(long, k, stop)
  {
    assert short[..k] == long[..k];
  }

  /** A stop found in the first blocks is the one found in all of them. */
  lemma FindsLater(c: Call, short: seq<seq<Token>>, long: seq<seq<Token>>, stop: StopTest)
    requires short <= long && ModernFinds(c, short, stop)
    ensures ModernFinds(c, long, stop) && !AllQuiet(long, stop)
  {
    var k: nat :| k < |short| && AllQuiet(short[..k], stop) && NewStop(c.tokens, short, k, stop)
      && c.stopReason == StopName(c.tokens);
    assert short[..k] == long[..k];
    assert NewStop(c.tokens, long, k, stop);
    assert !Quiet(long, k, stop);
  }

  /** What scanning one more block tells. */
  lemma ScannedNext(prior: seq<seq<Token>>, block: seq<Token>, kept: seq<Token>, reason: Option<string>, stop: StopTest)
    requires AllQuiet(prior, stop) && Scanned(block, |LastNonempty(prior)|, kept, reason, stop) && block != []
    ensures reason.None? ==> AllQuiet(prior + [block], stop) && kept == LastNonempty(prior + [block])
    ensures reason.Some? ==> kept != [] && ModernFinds(Call(kept, reason.value), prior + [block], stop)
  {
    var all, n := prior + [block], |prior|;
    assert all[..n] == prior;
    forall k | 0 <= k < n ensures Quiet(all, k, stop) {
      QuietIn(prior, all, k, stop);
    }
    if reason.Some? {
      assert NewStop(kept, all, n, stop);
    }
  }

  lemma EmptyNext(prior: seq<seq<Token>>, stop: StopTest)
    requires AllQuiet(prior, stop)
    ensures AllQuiet(prior + [[]], stop) && LastNonempty(prior + [[]]) == LastNonempty(prior)
  {
    var all, n := prior + [[]], |prior|;
    assert all[..n] == prior;
    forall k | 0 <= k < n ensures Quiet(all, k, stop) {
      QuietIn(prior, all, k, stop);
    }
  }

  // ---- on cumulative blocks ----

  lemma {:induction false} LastNonemptyIsLast(blocks: seq<seq<Token>>)
    requires Cumulative(blocks)
    ensures LastNonempty(blocks) == LastBlock(blocks)
  {
    if blocks != [] && blocks[|blocks| - 1] == [] {
      LastNonemptyIsLast(blocks[..|blocks| - 1]);
      if |blocks| > 1 {
        assert blocks[|blocks| - 2] <= blocks[|blocks| - 1];
      }
    }
  }

  lemma {:induction false} QuietIsNoStop(blocks: seq<seq<Token>>, k: nat, stop: StopTest)
    requires Cumulative(blocks) && k <= |blocks| && AllQuiet(blocks[..k], stop)
    ensures NoStop(blocks[..k], stop)
  {
    if k > 0 {
      var n := k - 1;
      var prior, block := blocks[..n], blocks[n];
      forall j | 0 <= j < n ensures Quiet(prior, j, stop) {
        assert Quiet(blocks[..k], j, stop);
        QuietIn(prior, blocks[..k], j, stop);
      }
      QuietIsNoStop(blocks, n, stop);
      LastNonemptyIsLast(prior);
      assert Quiet(blocks[..k], n, stop) && blocks[..k][..n] == prior;
      assert prior != [] ==> prior[n - 1] <= block;
      forall end: nat | end <= |block| ensures !EndsAt(block, stop, end) {
        if end <= |LastBlock(prior)| {
          EndsInPrefix(LastBlock(prior), block, stop, end);
          assert prior != [] ==> !HasStop(prior[n - 1], stop);
        }
      }
    }
  }

  lemma NoStopIsQuiet(blocks: seq<seq<Token>>, stop: StopTest)
    requires NoStop(blocks, stop)
    ensures AllQuiet(blocks, stop)
  {
    forall k, end: nat | 0 <= k < |blocks| ensures !EndsAt(blocks[k], stop, end) {
      assert !HasStop(blocks[k], stop);
    }
  }

  /** On cumulative blocks the modern loop keeps the shortest stopping prefix of the first block
      that has one. */
  lemma ModernOnCumulative(c: Call, blocks: seq<seq<Token>>, stop: StopTest)
    requires Cumulative(blocks)
    ensures AllQuiet(blocks, stop) <==> NoStop(blocks, stop)
    ensures ModernFinds(c, blocks, stop) ==> ModernKeeps(c, blocks, stop) && LastBlock(blocks) != []
  {
    assert blocks[..|blocks|] == blocks;
    if AllQuiet(blocks, stop) {
      QuietIsNoStop(blocks, |blocks|, stop);
    }
    if NoStop(blocks, stop) {
      NoStopIsQuiet(blocks, stop);
    }
    if ModernFinds(c, blocks, stop) {
      var k: nat :| k < |blocks| && AllQuiet(blocks[..k], stop) && NewStop(c.tokens, blocks, k, stop)
        && c.stopReason == StopName(c.tokens);
      NewStopIsFirst(c, blocks, k, stop);
    }
  }

  lemma NewStopIsFirst(c: Call, blocks: seq<seq<Token>>, k: nat, stop: StopTest)
    requires Cumulative(blocks) && k < |blocks| && AllQuiet(blocks[..k], stop) && NewStop(c.tokens, blocks, k, stop)
    requires c.stopReason == StopName(c.tokens)
    ensures FirstStop(blocks, stop, k) && ShortestStop(c.tokens, blocks[k], stop) && ModernKeeps(c, blocks, stop)
            && LastBlock(blocks) != []
  {
    QuietIsNoStop(blocks, k, stop);
    LastNonemptyIsLast(blocks[..k]);
    var before := LastBlock(blocks[..k]);
    assert before <= blocks[k] by {
      assert k > 0 ==> blocks[k - 1] <= blocks[k] && before == blocks[k - 1];
    }
    forall end: nat | end < |c.tokens| ensures !EndsAt(blocks[k], stop, end) {
      if end <= |before| {
        EndsInPrefix(before, blocks[k], stop, end);
        assert k > 0 ==> !HasStop(blocks[..k][k - 1], stop);
      }
    }
    assert HasStop(blocks[k], stop) && blocks[k] <= LastBlock(blocks);
    assert ShortestStop(c.tokens, blocks[k], stop);
  }

  lemma BlocksStep(trace: seq<seq<Output>>, n: nat)
    requires n < |trace|
    ensures Blocks(trace[..n + 1]) == Blocks(trace[..n]) +
              if trace[n] == [] || trace[n][0].candidates == [] then [] else [trace[n][0].candidates[0].tokens]
  {
    assert trace[..n + 1][..n] == trace[..n];
  }

  lemma {:induction false} BlocksPrefix(trace: seq<seq<Output>>, n: nat)
    requires n <= |trace|
    ensures Blocks(trace[..n]) <= Blocks(trace)
    decreases |trace|
  {
    if n == |trace| {
      assert trace[..n] == trace;
    } else {
      BlocksPrefix(trace[..|trace| - 1], n);
      assert trace[..|trace| - 1][..n] == trace[..n];
    }
  }

  // ---- the answers in terms of steps and tokens alone ----

  /** No output, or one output of the request, with a candidate. */
  ghost predicate StepOf(outputs: seq<Output>, id: string) {
    outputs == [] || (|outputs| == 1 && outputs[0].id == id && outputs[0].candidates != [])
  }

  /** The step gave no tokens. */
  ghost predicate Silent(outputs: seq<Output>) {
    outputs == [] || (outputs[0].candidates != [] && outputs[0].candidates[0].tokens == [])
  }

  /** Step `at` shows these tokens, and no step before it is of another request. */
  ghost predicate Showing(trace: seq<seq<Output>>, at: nat, id: string, block: seq<Token>) {
    && at < |trace| && (forall j :: 0 <= j <= at ==> StepOf(trace[j], id))
    && trace[at] != [] && trace[at][0].candidates[0].tokens == block
  }

  ghost predicate AllOf(trace: seq<seq<Output>>, id: string) {
    forall j :: 0 <= j < |trace| ==> StepOf(trace[j], id)
  }

  ghost predicate SilentFrom(trace: seq<seq<Output>>, lo: nat, hi: nat) {
    forall j :: lo <= j < hi && j < |trace| ==> Silent(trace[j])
  }

  ghost predicate EosLast(tokens: seq<Token>) {
    tokens != [] && tokens[|tokens| - 1] in {151643, 151645}
  }

  /** The reason is "eos" for tokens that end in either EOS token, and "stop" for others that parse to STOP. */
  ghost predicate EndNamed(c: Call, stop: StopTest) {
    c.tokens != [] && if EosLast(c.tokens) then c.stopReason == "eos" else c.stopReason == "stop" && stop(c.tokens)
  }

  /** The block of a step, or what is wrong with the step. */
  ghost predicate PlainBlock(r: Result<Option<seq<Token>>, CallError>, outputs: seq<Output>, id: string) {
    match r
    case Ok(None) => outputs == []
    case Ok(Some(block)) =>
      |outputs| == 1 && outputs[0].id == id && outputs[0].candidates != [] && block == outputs[0].candidates[0].tokens
    case Err(e) =>
      && (e == IdentityChanged || e == NoCandidate) && outputs != []
      && (e == IdentityChanged <==> |outputs| != 1 || outputs[0].id != id)
      && (e == NoCandidate ==> outputs[0].candidates == [])
  }

  /** Some step is of another request, or of several, or lacks its candidate, and none before it is. */
  ghost predicate MisfitAt(trace: seq<seq<Output>>, at: nat, id: string, e: CallError) {
    && at < |trace| && (forall j :: 0 <= j < at ==> StepOf(trace[j], id)) && PlainBlock(Err(e), trace[at], id)
  }

  ghost predicate MisfitSomewhere(trace: seq<seq<Output>>, id: string, e: CallError) {
    exists at: nat :: MisfitAt(trace, at, id, e)
  }

  /** The tokens end a prefix of some block, or are the last block that has any. */
  ghost predicate ModernFrom(c: Call, trace: seq<seq<Output>>, at: nat, id: string, block: seq<Token>, stop: StopTest) {
    && Showing(trace, at, id, block) && c.tokens != []
    && if c.stopReason == "max_tokens"
       then c.tokens == block && AllOf(trace, id) && SilentFrom(trace, at + 1, |trace|)
       else c.tokens <= block && EndNamed(c, stop)
  }

  /** What the modern loop answers. */
  ghost predicate PlainModern(r: Result<Call, CallError>, trace: seq<seq<Output>>, id: string, stop: StopTest) {
    match r
    case Ok(c) => exists at: nat, block :: ModernFrom(c, trace, at, id, block, stop)
    case Err(NoModelInterval) => AllOf(trace, id) && SilentFrom(trace, 0, |trace|)
    case Err(RemainedActive) => false
    case Err(e) => MisfitSomewhere(trace, id, e)
  }

  /** The tokens are a whole block: one that ends generation, or the last. */
  ghost predicate NativeFrom(c: Call, trace: seq<seq<Output>>, at: nat, id: string, stop: StopTest) {
    && Showing(trace, at, id, c.tokens)
    && if c.stopReason == "max_tokens"
       then
         && AllOf(trace, id) && (forall j :: at < j < |trace| ==> trace[j] == [])
         && !SilentFrom(trace, 0, |trace|)
       else EndNamed(c, stop) && (c.stopReason == "eos" ==> at + 1 == |trace|)
  }

  /** Step `at` shows a block that ends in EOS, and steps remain. */
  ghost predicate ActiveAt(trace: seq<seq<Output>>, at: nat, id: string, block: seq<Token>) {
    Showing(trace, at, id, block) && EosLast(block) && at + 1 < |trace|
  }

  /** What the older loop answers. */
  ghost predicate PlainNative(r: Result<Call, CallError>, trace: seq<seq<Output>>, id: string, stop: StopTest) {
    match r
    case Ok(c) => exists at: nat :: NativeFrom(c, trace, at, id, stop)
    case Err(NoModelInterval) => AllOf(trace, id) && SilentFrom(trace, 0, |trace|)
    case Err(RemainedActive) => exists at: nat, block :: ActiveAt(trace, at, id, block)
    case Err(e) => MisfitSomewhere(trace, id, e)
  }

  /** What the modern loop has taken from the first `steps` steps, the last from step `at`. */
  ghost predicate Took(c: Call, trace: seq<seq<Output>>, steps: nat, at: nat, block: seq<Token>, id: string,
                       stop: StopTest)
  {
    match c
    case Call(tokens, reason) =>
      && steps <= |trace| && (forall j :: 0 <= j < steps ==> StepOf(trace[j], id))
      && if tokens == [] then reason == "max_tokens" && SilentFrom(trace, 0, steps)
         else
           && at < steps && Showing(trace, at, id, block)
           && if reason == "max_tokens" then tokens == block && SilentFrom(trace, at + 1, steps)
              else tokens <= block && EndNamed(c, stop)
  }

  lemma TookSilence(c: Call, trace: seq<seq<Output>>, steps: nat, at: nat, block: seq<Token>, id: string,
                    stop: StopTest)
    requires Took(c, trace, steps, at, block, id, stop) && c.stopReason == "max_tokens"
    requires steps < |trace| && StepOf(trace[steps], id) && Silent(trace[steps])
    ensures Took(c, trace, steps + 1, at, block, id, stop)
  {
  }

  lemma TookBlock(c: Call, trace: seq<seq<Output>>, steps: nat, checked: nat, complete: seq<Token>,
                  reason: Option<string>,
                  id: string, stop: StopTest)
    requires steps < |trace| && forall j :: 0 <= j < steps ==> StepOf(trace[j], id)
    requires PlainBlock(Ok(Some(complete)), trace[steps], id) && complete != []
    requires PlainScan(complete, checked, c.tokens, reason, stop)
    requires c.stopReason == if reason.Some? then reason.value else "max_tokens"
    ensures Took(c, trace, steps + 1, steps, complete, id, stop)
  {
  }

  lemma TookAll(c: Call, trace: seq<seq<Output>>, steps: nat, at: nat, block: seq<Token>, id: string, stop: StopTest)
    requires Took(c, trace, steps, at, block, id, stop) && (c.stopReason == "max_tokens" ==> steps == |trace|)
    ensures PlainModern(if c.tokens == [] then Err(NoModelInterval) else Ok(c), trace, id, stop)
  {
    if c.tokens != [] {
      assert ModernFrom(c, trace, at, id, block, stop);
    }
  }

  /** What the older loop has taken from the first `steps` steps, the last block from step `at`. */
  ghost predicate TookWhole(c: Call, trace: seq<seq<Output>>, steps: nat, at: nat, started: bool, id: string,
                            stop: StopTest)
  {
    match c
    case Call(tokens, reason) =>
      && steps <= |trace| && (forall j :: 0 <= j < steps ==> StepOf(trace[j], id))
      && (started <==> !SilentFrom(trace, 0, steps))
      && (started ==> at < steps && Showing(trace, at, id, tokens) && forall j :: at < j < steps ==> trace[j] == [])
      && (reason != "max_tokens" ==> started && steps == at + 1 && EndNamed(c, stop))
  }

  lemma WholeIdle(c: Call, trace: seq<seq<Output>>, steps: nat, at: nat, started: bool, id: string, stop: StopTest)
    requires TookWhole(c, trace, steps, at, started, id, stop) && c.stopReason == "max_tokens"
    requires steps < |trace| && trace[steps] == []
    ensures TookWhole(c, trace, steps + 1, at, started, id, stop)
  {
  }

  lemma WholeBlock(c: Call, d: Call, trace: seq<seq<Output>>, steps: nat, at: nat, started: bool, id: string,
                   stop: StopTest)
    requires TookWhole(c, trace, steps, at, started, id, stop) && c.stopReason == "max_tokens"
    requires steps < |trace| && PlainBlock(Ok(Some(d.tokens)), trace[steps], id)
    requires d.stopReason == "max_tokens" || EndNamed(d, stop)
    ensures TookWhole(d, trace, steps + 1, steps, started || d.tokens != [], id, stop)
  {
    if !started && d.tokens == [] {
      assert SilentFrom(trace, 0, steps + 1);
    } else if d.tokens != [] {
      assert !Silent(trace[steps]);
    } else {
      assert !SilentFrom(trace, 0, steps);
    }
  }

  lemma WholeAll(c: Call, trace: seq<seq<Output>>, steps: nat, at: nat, started: bool, id: string, stop: StopTest)
    requires TookWhole(c, trace, steps, at, started, id, stop) && (c.stopReason == "max_tokens" ==> steps == |trace|)
    ensures var r := if !started then Err(NoModelInterval)
                     else if c.stopReason == "eos" && steps < |trace| then Err(RemainedActive) else Ok(c);
            PlainNative(r, trace, id, stop)
  {
    if started {
      if c.stopReason == "eos" && steps < |trace| {
        assert ActiveAt(trace, at, id, c.tokens);
      } else {
        assert NativeFrom(c, trace, at, id, stop);
      }
    }
  }

  /** Checks one engine step and returns its block, if it gave an output. */
  method TakeBlock(outputs: seq<Output>, id: string) returns (r: Result<Option<seq<Token>>, CallError>)
    ensures r.Ok? <==> Fit(outputs, id)
    ensures r.Ok? ==> r.value == if outputs == [] then None else Some(outputs[0].candidates[0].tokens)
    ensures r.Err? ==> r.error == Misfit(outputs, id)
    ensures PlainBlock(r, outputs, id)
  {
    if outputs == [] {
      return Ok(None);
    }
    if |outputs| != 1 || outputs[0].id != id {
      return Err(IdentityChanged);
    }
    if outputs[0].candidates == [] {
      return Err(NoCandidate);
    }
    return Ok(Some(outputs[0].candidates[0].tokens));
  }

  lemma FitsUpTo(trace: seq<seq<Output>>, id: string, n: nat)
    requires n <= |trace| && (forall k :: 0 <= k < n ==> Fit(trace[k], id)) && (n < |trace| ==> !Fit(trace[n], id))
    ensures FitLength(trace, id) == n
  {
    FitLengthIs(trace, id);
  }

  lemma FitsAtLeast(trace: seq<seq<Output>>, id: string, n: nat)
    requires n <= |trace| && forall k :: 0 <= k < n ==> Fit(trace[k], id)
    ensures n <= FitLength(trace, id) <= |trace| && Blocks(trace[..n]) <= Blocks(trace[..FitLength(trace, id)])
  {
    FitLengthIs(trace, id);
    var m := FitLength(trace, id);
    BlocksPrefix(trace[..m], n);
    assert trace[..m][..n] == trace[..n];
  }

  /** The modern loop: scans the new part of each block and stops inside it. */
  method ModernCall(trace: seq<seq<Output>>, id: string, stop: StopTest) returns (r: Result<Call, CallError>)
    ensures ModernAnswer(r, trace, id, stop)
    ensures AllFit(trace, id) && Cumulative(Blocks(trace)) ==>
              if LastBlock(Blocks(trace)) == [] then r == Err(NoModelInterval)
                else r.Ok? && ModernKeeps(r.value, Blocks(trace), stop)
    ensures r.Err? && r.error != NoModelInterval ==> !AllFit(trace, id)
    ensures r != Err(RemainedActive)
    ensures PlainModern(r, trace, id, stop)
  {
    r := ModernLoop(trace, id, stop);
    FitLengthIs(trace, id);
    if AllFit(trace, id) && Cumulative(Blocks(trace)) {
      ModernWhenCumulative(r, trace, id, stop);
    }
  }

  lemma ModernWhenCumulative(r: Result<Call, CallError>, trace: seq<seq<Output>>, id: string, stop: StopTest)
    requires ModernAnswer(r, trace, id, stop) && AllFit(trace, id) && Cumulative(Blocks(trace))
    ensures if LastBlock(Blocks(trace)) == [] then r == Err(NoModelInterval)
            else r.Ok? && ModernKeeps(r.value, Blocks(trace), stop)
  {
    FitsUpTo(trace, id, |trace|);
    assert trace[..|trace|] == trace;
    LastNonemptyIsLast(Blocks(trace));
    ModernOnCumulative(if r.Ok? then r.value else Call([], ""), Blocks(trace), stop);
  }

  /** Where the modern loop stands after some steps. */
  ghost predicate ModernSoFar(c: Call, trace: seq<seq<Output>>, id: string, steps: nat, prior: seq<seq<Token>>,
                              stop: StopTest)
  {
    match c
    case Call(tokens, reason) =>
      && steps <= |trace| && (forall k :: 0 <= k < steps ==> Fit(trace[k], id)) && prior == Blocks(trace[..steps])
      && if reason == "max_tokens" then AllQuiet(prior, stop) && tokens == LastNonempty(prior)
         else tokens != [] && ModernFinds(c, prior, stop)
  }

  lemma ModernMisfit(c: Call, trace: seq<seq<Output>>, id: string, steps: nat, prior: seq<seq<Token>>, stop: StopTest,
                     error: CallError)
    requires ModernSoFar(c, trace, id, steps, prior, stop) && c.stopReason == "max_tokens" && steps < |trace|
    requires !Fit(trace[steps], id) && error == Misfit(trace[steps], id)
    requires PlainBlock(Err(error), trace[steps], id) && forall j :: 0 <= j < steps ==> StepOf(trace[j], id)
    ensures ModernAnswer(Err(error), trace, id, stop) && PlainModern(Err(error), trace, id, stop)
  {
    FitsUpTo(trace, id, steps);
    assert MisfitAt(trace, steps, id, error);
  }

  lemma ModernLeaves(c: Call, trace: seq<seq<Output>>, id: string, steps: nat, prior: seq<seq<Token>>, stop: StopTest)
    requires ModernSoFar(c, trace, id, steps, prior, stop) && (c.stopReason == "max_tokens" ==> steps == |trace|)
    ensures ModernAnswer(if c.tokens == [] then Err(NoModelInterval) else Ok(c), trace, id, stop)
  {
    FitsAtLeast(trace, id, steps);
    if c.stopReason == "max_tokens" {
      FitsUpTo(trace, id, steps);
    } else {
      FindsLater(c, prior, Blocks(trace[..FitLength(trace, id)]), stop);
    }
  }

  /** One more step: nothing, an empty block, or a scanned one. */
  lemma ModernNext(c: Call, d: Call, trace: seq<seq<Output>>, id: string, steps: nat, prior: seq<seq<Token>>,
                   block: Option<seq<Token>>, reason: Option<string>, stop: StopTest)
    requires ModernSoFar(c, trace, id, steps, prior, stop) && c.stopReason == "max_tokens" && steps < |trace|
    requires Fit(trace[steps], id)
             && block == if trace[steps] == [] then None else Some(trace[steps][0].candidates[0].tokens)
    requires if block in {None, Some([])} then d == c
             else Scanned(block.value, |c.tokens|, d.tokens, reason, stop)
                  && d.stopReason == if reason.Some? then reason.value else "max_tokens"
    ensures ModernSoFar(d, trace, id, steps + 1, prior + if block == None then [] else [block.value], stop)
  {
    BlocksStep(trace, steps);
    if block == Some([]) {
      EmptyNext(prior, stop);
    } else if block.Some? {
      ScannedNext(prior, block.value, d.tokens, reason, stop);
    } else {
      assert prior + [] == prior;
    }
  }

  method ModernLoop(trace: seq<seq<Output>>, id: string, stop: StopTest) returns (r: Result<Call, CallError>)
    ensures ModernAnswer(r, trace, id, stop) && PlainModern(r, trace, id, stop)
  {
    var tokens, stopReason := [], "max_tokens";
    var steps := 0;
    ghost var at, block: seq<Token> := 0, [];
    ghost var prior: seq<seq<Token>> := [];
    while steps < |trace| && stopReason == "max_tokens"
      invariant 0 <= steps && ModernSoFar(Call(tokens, stopReason), trace, id, steps, prior, stop)
      invariant Took(Call(tokens, stopReason), trace, steps, at, block, id, stop)
    {
      var taken := TakeBlock(trace[steps], id);
      if taken.Err? {
        ModernMisfit(Call(tokens, stopReason), trace, id, steps, prior, stop, taken.error);
        return Err(taken.error);
      }
      ghost var before := Call(tokens, stopReason);
      if taken.value == None || taken.value == Some([]) {
        ModernNext(before, before, trace, id, steps, prior, taken.value, None, stop);
        TookSilence(before, trace, steps, at, block, id, stop);
        prior := prior + if taken.value == None then [] else [taken.value.value];
        steps := steps + 1;
        continue;
      }
      var complete := taken.value.value;
      var reason;
      tokens, reason := StoppingPrefix(complete, |tokens|, stop);
      if reason.Some? {
        stopReason := reason.value;
      }
      ModernNext(before, Call(tokens, stopReason), trace, id, steps, prior, taken.value, reason, stop);
      TookBlock(Call(tokens, stopReason), trace, steps, |before.tokens|, complete, reason, id, stop);
      prior, at, block := prior + [complete], steps, complete;
      steps := steps + 1;
    }
    ModernLeaves(Call(tokens, stopReason), trace, id, steps, prior, stop);
    TookAll(Call(tokens, stopReason), trace, steps, at, block, id, stop);
    if tokens == [] {
      return Err(NoModelInterval);
    }
    return Ok(Call(tokens, stopReason));
  }

  lemma WholeStopLater(c: Call, short: seq<seq<Token>>, long: seq<seq<Token>>, stop: StopTest)
    requires short <= long && !NoWholeStop(short, stop) && NativeKeeps(c, short, stop)
    ensures !NoWholeStop(long, stop) && NativeKeeps(c, long, stop)
  {
    var k: nat :| FirstWholeStop(short, stop, k) && c.tokens == short[k];
    assert short[..k] == long[..k];
    assert FirstWholeStop(long, stop, k);
  }

  lemma WholeNext(prior: seq<seq<Token>>, block: seq<Token>, stop: StopTest)
    requires NoWholeStop(prior, stop)
    ensures EndsAt(block, stop, |block|) ==>
              !NoWholeStop(prior + [block], stop) && NativeKeeps(Call(block, StopName(block)), prior + [block], stop)
    ensures !EndsAt(block, stop, |block|) ==> NoWholeStop(prior + [block], stop)
  {
    var all, n := prior + [block], |prior|;
    assert all[..n] == prior && all[n] == block;
    if EndsAt(block, stop, |block|) {
      assert FirstWholeStop(all, stop, n);
    }
  }

  lemma SeenNext(prior: seq<seq<Token>>, block: seq<Token>)
    ensures LastNonempty(prior + [block]) == if block != [] then block else LastNonempty(prior)
  {
    assert (prior + [block])[..|prior|] == prior;
  }

  /** The older loop: tests the newest token and the whole text of each block. */
  method NativeCall(trace: seq<seq<Output>>, id: string, stop: StopTest) returns (r: Result<Call, CallError>)
    ensures NativeAnswer(r, trace, id, stop)
    ensures AllFit(trace, id) && Cumulative(Blocks(trace)) ==>
              if LastBlock(Blocks(trace)) == [] then r == Err(NoModelInterval)
                else NativeFinds(r, trace, Blocks(trace), stop)
    ensures r == Err(IdentityChanged) || r == Err(NoCandidate) ==> !AllFit(trace, id)
    ensures PlainNative(r, trace, id, stop)
  {
    r := NativeLoop(trace, id, stop);
    FitLengthIs(trace, id);
    if AllFit(trace, id) && Cumulative(Blocks(trace)) {
      NativeWhenCumulative(r, trace, id, stop);
    }
  }

  lemma NativeWhenCumulative(r: Result<Call, CallError>, trace: seq<seq<Output>>, id: string, stop: StopTest)
    requires NativeAnswer(r, trace, id, stop) && AllFit(trace, id) && Cumulative(Blocks(trace))
    ensures if LastBlock(Blocks(trace)) == [] then r == Err(NoModelInterval)
            else NativeFinds(r, trace, Blocks(trace), stop)
  {
    var blocks := Blocks(trace);
    FitsUpTo(trace, id, |trace|);
    assert trace[..|trace|] == trace;
    LastNonemptyIsLast(blocks);
    if k: nat :| k < |blocks| && EndsAt(blocks[k], stop, |blocks[k]|) {
      assert blocks[k] <= LastBlock(blocks);
    } else if LastBlock(blocks) != [] {
      assert NativeKeeps(r.value, blocks, stop) && r == Settled(r.value, trace, stop);
    }
  }

  /** A whole stop in the last step taken is the first one, and an earlier step shows none exactly
      when no step remains. */
  lemma ActiveIff(trace: seq<seq<Output>>, steps: nat, stop: StopTest)
    requires 0 < steps <= |trace| && NoWholeStop(Blocks(trace[..steps - 1]), stop)
    requires !NoWholeStop(Blocks(trace[..steps]), stop)
    ensures NoWholeStop(Earlier(trace), stop) <==> steps == |trace|
  {
    if steps < |trace| {
      BlocksPrefix(trace[..|trace| - 1], steps);
      assert trace[..|trace| - 1][..steps] == trace[..steps];
    }
  }

  /** What stopping after `steps` steps answers. */
  lemma StoppedAt(c: Call, trace: seq<seq<Output>>, id: string, steps: nat, stop: StopTest)
    requires 0 < steps <= |trace| && forall k :: 0 <= k < steps ==> Fit(trace[k], id)
    requires NoWholeStop(Blocks(trace[..steps - 1]), stop) && !NoWholeStop(Blocks(trace[..steps]), stop)
    requires NativeKeeps(c, Blocks(trace[..steps]), stop)
    ensures var r := if c.stopReason == "eos" && steps < |trace| then Err(RemainedActive) else Ok(c);
            NativeAnswer(r, trace, id, stop)
  {
    FitsAtLeast(trace, id, steps);
    var blocks := Blocks(trace[..FitLength(trace, id)]);
    WholeStopLater(c, Blocks(trace[..steps]), blocks, stop);
    ActiveIff(trace, steps, stop);
    assert NativeFinds(Settled(c, trace, stop), trace, blocks, stop);
  }

  /** Where the older loop stands after some steps. */
  ghost predicate NativeSoFar(trace: seq<seq<Output>>, id: string, steps: nat, tokens: seq<Token>, stopReason: string,
                              started: bool, stop: StopTest)
  {
    match Call(tokens, stopReason)
    case Call(last, reason) =>
      && steps <= |trace| && (forall k :: 0 <= k < steps ==> Fit(trace[k], id))
      && last == LastBlock(Blocks(trace[..steps])) && (started <==> LastNonempty(Blocks(trace[..steps])) != [])
      && if reason == "max_tokens" then NoWholeStop(Blocks(trace[..steps]), stop)
         else
           && started && 0 < steps && NoWholeStop(Blocks(trace[..steps - 1]), stop)
           && !NoWholeStop(Blocks(trace[..steps]), stop)
           && NativeKeeps(Call(last, reason), Blocks(trace[..steps]), stop)
  }

  lemma NativeIdle(trace: seq<seq<Output>>, id: string, steps: nat, tokens: seq<Token>, started: bool, stop: StopTest)
    requires NativeSoFar(trace, id, steps, tokens, "max_tokens", started, stop) && steps < |trace| && trace[steps] == []
    ensures NativeSoFar(trace, id, steps + 1, tokens, "max_tokens", started, stop)
  {
    BlocksStep(trace, steps);
    assert Blocks(trace[..steps + 1]) == Blocks(trace[..steps]);
  }

  lemma NativeStep(trace: seq<seq<Output>>, id: string, steps: nat, tokens: seq<Token>, started: bool, stop: StopTest,
                   block: seq<Token>)
    requires NativeSoFar(trace, id, steps, tokens, "max_tokens", started, stop) && steps < |trace|
    requires Fit(trace[steps], id) && trace[steps] != [] && block == trace[steps][0].candidates[0].tokens
    ensures var reason := if EndsAt(block, stop, |block|) then StopName(block) else "max_tokens";
            NativeSoFar(trace, id, steps + 1, block, reason, started || block != [], stop)
  {
    var prior := Blocks(trace[..steps]);
    BlocksStep(trace, steps);
    SeenNext(prior, block);
    WholeNext(prior, block, stop);
    assert LastBlock(prior + [block]) == block && trace[..steps + 1 - 1] == trace[..steps];
  }

  /** What the loop answers when it leaves. */
  lemma NativeLeaves(trace: seq<seq<Output>>, id: string, steps: nat, tokens: seq<Token>, stopReason: string,
                     started: bool, stop: StopTest, r: Result<Call, CallError>)
    requires NativeSoFar(trace, id, steps, tokens, stopReason, started, stop)
    requires steps == |trace| || stopReason != "max_tokens"
    requires r == if !started then Err(NoModelInterval)
                  else if stopReason == "eos" && steps < |trace| then Err(RemainedActive)
                  else Ok(Call(tokens, stopReason))
    ensures NativeAnswer(r, trace, id, stop)
  {
    if stopReason == "max_tokens" {
      FitsUpTo(trace, id, steps);
      assert "max_tokens"[0] != "eos"[0];
    } else {
      StoppedAt(Call(tokens, stopReason), trace, id, steps, stop);
    }
  }

  lemma NativeMisfit(trace: seq<seq<Output>>, id: string, steps: nat, tokens: seq<Token>, started: bool, stop: StopTest,
                     error: CallError)
    requires NativeSoFar(trace, id, steps, tokens, "max_tokens", started, stop) && steps < |trace|
    requires !Fit(trace[steps], id) && error == Misfit(trace[steps], id)
    requires PlainBlock(Err(error), trace[steps], id) && forall j :: 0 <= j < steps ==> StepOf(trace[j], id)
    ensures NativeAnswer(Err(error), trace, id, stop) && PlainNative(Err(error), trace, id, stop)
  {
    FitsUpTo(trace, id, steps);
    assert MisfitAt(trace, steps, id, error);
  }

  /** The newest token, then the whole text. */
  method EndOf(tokens: seq<Token>, stop: StopTest) returns (reason: string)
    requires tokens != []
    ensures reason == if EndsAt(tokens, stop, |tokens|) then StopName(tokens) else "max_tokens"
    ensures reason == "max_tokens" || EndNamed(Call(tokens, reason), stop)
  {
    assert tokens[..|tokens|] == tokens;
    if IsEos(tokens[|tokens| - 1]) {
      return "eos";
    }
    if stop(tokens) {
      return "stop";
    }
    return "max_tokens";
  }

  method NativeLoop(trace: seq<seq<Output>>, id: string, stop: StopTest) returns (r: Result<Call, CallError>)
    ensures NativeAnswer(r, trace, id, stop) && PlainNative(r, trace, id, stop)
  {
    var tokens, stopReason, started := [], "max_tokens", false;
    var steps := 0;
    ghost var at := 0;
    while steps < |trace| && stopReason == "max_tokens"
      invariant 0 <= steps && NativeSoFar(trace, id, steps, tokens, stopReason, started, stop)
      invariant TookWhole(Call(tokens, stopReason), trace, steps, at, started, id, stop)
    {
      var taken := TakeBlock(trace[steps], id);
      if taken.Err? {
        NativeMisfit(trace, id, steps, tokens, started, stop, taken.error);
        return Err(taken.error);
      }
      if taken.value == None {
        NativeIdle(trace, id, steps, tokens, started, stop);
        WholeIdle(Call(tokens, stopReason), trace, steps, at, started, id, stop);
        steps := steps + 1;
        continue;
      }
      NativeStep(trace, id, steps, tokens, started, stop, taken.value.value);
      ghost var before, began := tokens, started;
      steps := steps + 1;
      tokens := taken.value.value;
      if tokens == [] {
        WholeBlock(Call(before, stopReason), Call(tokens, stopReason), trace, steps - 1, at, began, id, stop);
        at := steps - 1;
        continue;
      }
      started := true;
      stopReason := EndOf(tokens, stop);
      WholeBlock(Call(before, "max_tokens"), Call(tokens, stopReason), trace, steps - 1, at, began, id, stop);
      at := steps - 1;
    }
    WholeAll(Call(tokens, stopReason), trace, steps, at, started, id, stop);
    r := if !started then Err(NoModelInterval)
         else if stopReason == "eos" && steps < |trace| then Err(RemainedActive)
         else Ok(Call(tokens, stopReason));
    NativeLeaves(trace, id, steps, tokens, stopReason, started, stop, r);
  }

  // ---- agreement ----

  lemma LastHasStop(blocks: seq<seq<Token>>, stop: StopTest)
    requires Cumulative(blocks)
    ensures NoStop(blocks, stop) <==> !HasStop(LastBlock(blocks), stop)
  {
    if k: nat :| k < |blocks| && HasStop(blocks[k], stop) {
      assert blocks[k] <= blocks[|blocks| - 1];
      StopExtends(blocks[k], LastBlock(blocks), stop);
    }
  }

  /** In terms of the whole stream: the modern loop keeps what history may keep of it. */
  lemma ModernKeepsStream(c: Call, blocks: seq<seq<Token>>, stop: StopTest)
    requires Cumulative(blocks) && ModernKeeps(c, blocks, stop)
    ensures Keeps(c.tokens, LastBlock(blocks), stop)
  {
    LastHasStop(blocks, stop);
    if !NoStop(blocks, stop) {
      var k: nat :| FirstStop(blocks, stop, k) && ShortestStop(c.tokens, blocks[k], stop);
      assert blocks[k] <= LastBlock(blocks);
      OverrunIsInvisible(c.tokens, blocks[k], LastBlock(blocks), stop);
    }
  }

  lemma {:induction false} BlocksAreOutputs(trace: seq<seq<Output>>, id: string)
    requires AllFit(trace, id)
             && forall k :: 0 <= k < |trace| ==> forall i :: 0 <= i < |trace[k]| ==> |trace[k][i].candidates| == 1
    ensures LastBlock(Blocks(trace)) == Latest(Flatten(trace), id)
    ensures |Blocks(trace)| == |Flatten(trace)|
    ensures forall k :: 0 <= k < |Flatten(trace)| ==>
              Blocks(trace)[k] == TokensOf(Flatten(trace)[k]) && Flatten(trace)[k].id == id
  {
    if trace != [] {
      var n := |trace| - 1;
      BlocksAreOutputs(trace[..n], id);
      assert Fit(trace[n], id);
      if trace[n] == [] {
        assert Flatten(trace) == Flatten(trace[..n]);
      } else {
        assert trace[n] == [trace[n][0]];
        LatestAppend(Flatten(trace[..n]), trace[n][0], id);
      }
    }
  }

  lemma {:induction false} OneCandidateEach(trace: seq<seq<Output>>, ids: set<string>, stop: StopTest)
    requires Conforming(Flatten(trace), ids, stop)
    ensures forall k :: 0 <= k < |trace| ==> forall i :: 0 <= i < |trace[k]| ==> |trace[k][i].candidates| == 1
  {
    if trace != [] {
      var n := |trace| - 1;
      var init := Flatten(trace[..n]);
      forall k | 0 <= k < |init| ensures Fault(init, k, ids, stop) == None {
        FaultPrefix(init, Flatten(trace), ids, stop, k);
      }
      OneCandidateEach(trace[..n], ids, stop);
      forall i | 0 <= i < |trace[n]| ensures |trace[n][i].candidates| == 1 {
        assert Flatten(trace)[|init| + i] == trace[n][i];
        assert Fault(Flatten(trace), |init| + i, ids, stop) == None;
      }
    }
  }

  lemma {:induction false} ConformingGrows(events: seq<Output>, id: string, stop: StopTest, i: nat, j: nat)
    requires Conforming(events, {id}, stop) && i <= j < |events|
    ensures TokensOf(events[i]) <= TokensOf(events[j])
    decreases j
  {
    if i < j {
      ConformingGrows(events, id, stop, i, j - 1);
      assert Fault(events, j, {id}, stop) == None && Fault(events, j - 1, {id}, stop) == None;
      assert events[..j][j - 1] == events[j - 1];
    }
  }

  lemma OneRequestStream(trace: seq<seq<Output>>, id: string, stop: StopTest)
    requires AllFit(trace, id) && Conforming(Flatten(trace), {id}, stop)
    ensures Cumulative(Blocks(trace)) && LastBlock(Blocks(trace)) == Latest(Flatten(trace), id)
  {
    OneCandidateEach(trace, {id}, stop);
    BlocksAreOutputs(trace, id);
    forall i, j | 0 <= i <= j < |Blocks(trace)| ensures Blocks(trace)[i] <= Blocks(trace)[j] {
      ConformingGrows(Flatten(trace), id, stop, i, j);
    }
  }

  /** The record of a stream and a call on that stream, compared. */
  lemma RecordAndCall(r: Record, c: Call, events: seq<Output>, id: string, stop: StopTest)
    requires RecordOk(r, events, id, stop) && Ended(events, id, stop) && LatestOutput(events, id).Some?
    requires Keeps(c.tokens, Latest(events, id), stop)
    requires c.stopReason == if HasStop(Latest(events, id), stop) && c.tokens != [] then StopName(c.tokens)
             else "max_tokens"
    ensures r.tokens == c.tokens
    ensures r.stopReason == Some(c.stopReason) <==>
              HasStop(Latest(events, id), stop) || FinishName(LatestOutput(events, id).value) == "max_tokens"
  {
    if HasStop(Latest(events, id), stop) {
      ShortestUnique(r.tokens, c.tokens, Latest(events, id), stop);
    }
  }

  /** A one-request batch keeps the same tokens as the modern loop; the stop reasons agree
      unless the engine gave a finish reason of its own. */
  lemma BatchOfOneAgrees(trace: seq<seq<Output>>, id: string, stop: StopTest, r: Record, c: Call)
    requires AllFit(trace, id) && Conforming(Flatten(trace), {id}, stop) && Ended(Flatten(trace), id, stop)
    requires RecordOk(r, Flatten(trace), id, stop) && ModernKeeps(c, Blocks(trace), stop)
    requires LatestOutput(Flatten(trace), id).Some?
    ensures r.tokens == c.tokens
    ensures r.stopReason == Some(c.stopReason) <==>
              HasStop(Latest(Flatten(trace), id), stop)
              || FinishName(LatestOutput(Flatten(trace), id).value) == "max_tokens"
  {
    OneRequestStream(trace, id, stop);
    ModernKeepsStream(c, Blocks(trace), stop);
    LastHasStop(Blocks(trace), stop);
    RecordAndCall(r, c, Flatten(trace), id, stop);
  }

  lemma WholeStopBefore(m: Call, blocks: seq<seq<Token>>, stop: StopTest, k: nat, i: nat, f: nat)
    requires Cumulative(blocks) && k < |blocks| && ShortestStop(m.tokens, blocks[k], stop)
    requires i < |blocks| && blocks[i] == m.tokens && FirstWholeStop(blocks, stop, f)
    ensures m.tokens == blocks[f]
  {
    EndsInPrefix(m.tokens, blocks[k], stop, |m.tokens|);
    forall j | 0 <= j < f ensures blocks[j] != m.tokens {
      assert blocks[..f][j] == blocks[j];
    }
    assert blocks[f] <= blocks[i];
    EndsInPrefix(blocks[f], blocks[k], stop, |blocks[f]|);
  }

  lemma BoundaryIsWholeStop(m: Call, blocks: seq<seq<Token>>, stop: StopTest, k: nat, i: nat)
    requires k < |blocks| && ShortestStop(m.tokens, blocks[k], stop) && i < |blocks| && blocks[i] == m.tokens
    ensures !NoWholeStop(blocks, stop)
  {
    EndsInPrefix(m.tokens, blocks[k], stop, |m.tokens|);
  }

  lemma NoStopNoWhole(blocks: seq<seq<Token>>, stop: StopTest)
    requires NoStop(blocks, stop)
    ensures NoWholeStop(blocks, stop)
  {
    forall j | 0 <= j < |blocks| ensures !EndsAt(blocks[j], stop, |blocks[j]|) {
      assert !HasStop(blocks[j], stop);
    }
  }

  lemma NativeKeepsBlock(n: Call, blocks: seq<seq<Token>>, stop: StopTest)
    requires NativeKeeps(n, blocks, stop) && blocks != []
    ensures n.tokens in blocks
  {
  }

  lemma OlderLoopAgreesAtBlock(m: Call, n: Call, blocks: seq<seq<Token>>, stop: StopTest)
    requires Cumulative(blocks) && ModernKeeps(m, blocks, stop) && NativeKeeps(n, blocks, stop)
    ensures m == n <==> NoStop(blocks, stop) || m.tokens in blocks
  {
    if NoStop(blocks, stop) {
      NoStopNoWhole(blocks, stop);
    } else {
      NativeKeepsBlock(n, blocks, stop);
      if m.tokens in blocks {
        var k: nat :| FirstStop(blocks, stop, k) && ShortestStop(m.tokens, blocks[k], stop);
        var i: nat :| i < |blocks| && blocks[i] == m.tokens;
        BoundaryIsWholeStop(m, blocks, stop, k, i);
        var f: nat :| FirstWholeStop(blocks, stop, f) && n.tokens == blocks[f];
        WholeStopBefore(m, blocks, stop, k, i, f);
      }
    }
  }

  /** The stream has no stop, or its first stop is where some block ends. */
  ghost predicate StopsAtBlock(blocks: seq<seq<Token>>, stop: StopTest) {
    !HasStop(LastBlock(blocks), stop)
    || exists i :: 0 <= i < |blocks| && ShortestStop(blocks[i], LastBlock(blocks), stop)
  }

  lemma KeepSameTokens(m: Call, n: Call, blocks: seq<seq<Token>>, stop: StopTest)
    requires Cumulative(blocks) && ModernKeeps(m, blocks, stop) && NativeKeeps(n, blocks, stop)
    ensures m == n <==> StopsAtBlock(blocks, stop)
  {
    OlderLoopAgreesAtBlock(m, n, blocks, stop);
    LastHasStop(blocks, stop);
    ModernKeepsStream(m, blocks, stop);
    if i :| 0 <= i < |blocks| && HasStop(LastBlock(blocks), stop) && ShortestStop(blocks[i], LastBlock(blocks), stop) {
      ShortestUnique(m.tokens, blocks[i], LastBlock(blocks), stop);
    }
  }

  ghost predicate FirstStopIsEos(stream: seq<Token>, stop: StopTest) {
    exists p :: ShortestStop(p, stream, stop) && IsEos(p[|p| - 1])
  }

  /** The first stop of the stream is EOS, and a step before the last one showed it. */
  ghost predicate EosWhileActive(trace: seq<seq<Output>>, stop: StopTest) {
    !NoStop(Earlier(trace), stop) && FirstStopIsEos(LastBlock(Blocks(trace)), stop)
  }

  lemma EarlierIsPrefix(trace: seq<seq<Output>>)
    ensures Earlier(trace) <= Blocks(trace)
  {
    if trace != [] {
      BlocksPrefix(trace, |trace| - 1);
    }
  }

  lemma FirstWholeNotAfter(blocks: seq<seq<Token>>, stop: StopTest, k: nat, f: nat, j: nat)
    requires Cumulative(blocks) && k <= j < |blocks| && f < |blocks| && blocks[f] <= blocks[k]
    requires EndsAt(blocks[f], stop, |blocks[f]|)
    requires forall i :: 0 <= i < f ==> !EndsAt(blocks[i], stop, |blocks[i]|)
    ensures f <= j
  {
    assert blocks[k] <= blocks[j];
    if j <= f {
      assert blocks[j] <= blocks[f];
      assert blocks[j] == blocks[f];
    }
  }

  /** A first stop that ends a block is shown by the same steps, whether blocks are tested at every
      token or as a whole. */
  lemma EarlierWholeStop(c: Call, blocks: seq<seq<Token>>, earlier: seq<seq<Token>>, stop: StopTest)
    requires Cumulative(blocks) && earlier <= blocks && !NoStop(blocks, stop)
    requires ModernKeeps(c, blocks, stop) && NativeKeeps(c, blocks, stop)
    ensures NoWholeStop(earlier, stop) <==> NoStop(earlier, stop)
  {
    NativeKeepsBlock(c, blocks, stop);
    if NoStop(earlier, stop) {
      NoStopNoWhole(earlier, stop);
    } else {
      var k: nat :| FirstStop(blocks, stop, k) && ShortestStop(c.tokens, blocks[k], stop);
      var i: nat :| i < |blocks| && blocks[i] == c.tokens;
      BoundaryIsWholeStop(c, blocks, stop, k, i);
      var f: nat :| FirstWholeStop(blocks, stop, f) && c.tokens == blocks[f];
      forall j | 0 <= j < k ensures !HasStop(blocks[j], stop) {
        assert blocks[..k][j] == blocks[j];
      }
      forall j | 0 <= j < f ensures !EndsAt(blocks[j], stop, |blocks[j]|) {
        assert blocks[..f][j] == blocks[j];
      }
      var j: nat :| j < |earlier| && HasStop(earlier[j], stop);
      assert earlier[j] == blocks[j] && k <= j;
      FirstWholeNotAfter(blocks, stop, k, f, j);
      assert earlier[f] == blocks[f];
    }
  }

  /** The call both loops found is refused by the older one exactly when EOS ended it early. */
  lemma RefusedIff(c: Call, trace: seq<seq<Output>>, stop: StopTest)
    requires Cumulative(Blocks(trace)) && ModernKeeps(c, Blocks(trace), stop) && NativeKeeps(c, Blocks(trace), stop)
    ensures Settled(c, trace, stop) == if EosWhileActive(trace, stop) then Err(RemainedActive) else Ok(c)
  {
    var blocks := Blocks(trace);
    EarlierIsPrefix(trace);
    LastHasStop(blocks, stop);
    if NoStop(blocks, stop) {
      assert NoStop(Earlier(trace), stop) by {
        forall j | 0 <= j < |Earlier(trace)| ensures !HasStop(Earlier(trace)[j], stop) {
          assert Earlier(trace)[j] == blocks[j];
        }
      }
    } else {
      EarlierWholeStop(c, blocks, Earlier(trace), stop);
      ModernKeepsStream(c, blocks, stop);
      EosStop(c, trace, stop);
    }
  }

  lemma EosStop(c: Call, trace: seq<seq<Output>>, stop: StopTest)
    requires ShortestStop(c.tokens, LastBlock(Blocks(trace)), stop) && c.stopReason == StopName(c.tokens)
    ensures EosWhileActive(trace, stop) <==> c.stopReason == "eos" && !NoStop(Earlier(trace), stop)
  {
    assert "stop"[0] != "eos"[0];
    FirstEosIff(c.tokens, LastBlock(Blocks(trace)), stop);
  }

  lemma FirstEosIff(p: seq<Token>, stream: seq<Token>, stop: StopTest)
    requires ShortestStop(p, stream, stop)
    ensures FirstStopIsEos(stream, stop) <==> IsEos(p[|p| - 1])
  {
    if q :| ShortestStop(q, stream, stop) && IsEos(q[|q| - 1]) {
      ShortestUnique(p, q, stream, stop);
    }
  }

  /** What the older loop answers for the call it found, against the one of the newer loop. */
  lemma SettledAgrees(m: Call, n: Call, trace: seq<seq<Output>>, stop: StopTest)
    requires Cumulative(Blocks(trace)) && ModernKeeps(m, Blocks(trace), stop) && NativeKeeps(n, Blocks(trace), stop)
    ensures Ok(m) == Settled(n, trace, stop) <==> StopsAtBlock(Blocks(trace), stop) && !EosWhileActive(trace, stop)
  {
    KeepSameTokens(m, n, Blocks(trace), stop);
    if m == n {
      RefusedIff(m, trace, stop);
    }
  }

  /** Exactly when both loops answer alike, refusals included: the stream has no stop at all, or its
      first stop is where some block ends and, if it is EOS, the last step is the first to show it. */
  lemma OlderLoopAgreesIff(trace: seq<seq<Output>>, id: string, stop: StopTest, modern: Result<Call, CallError>,
                           native: Result<Call, CallError>)
    requires AllFit(trace, id) && Cumulative(Blocks(trace))
    requires ModernAnswer(modern, trace, id, stop) && NativeAnswer(native, trace, id, stop)
    ensures modern == native <==> StopsAtBlock(Blocks(trace), stop) && !EosWhileActive(trace, stop)
  {
    ModernWhenCumulative(modern, trace, id, stop);
    NativeWhenCumulative(native, trace, id, stop);
    if LastBlock(Blocks(trace)) != [] {
      var n :| NativeKeeps(n, Blocks(trace), stop) && native == Settled(n, trace, stop);
      SettledAgrees(modern.value, n, trace, stop);
    }
  }

  // ---- where the loops disagree ----

  const EOS := 151645

  /** EOS ends the first block while the engine goes on: the newer loop keeps it, the older call is
      refused. */
  lemma OlderLoopRefuses()
    ensures var trace, never := [[Output("replay-0", [Candidate([EOS], None)], false)],
                                 [Output("replay-0", [Candidate([EOS, 7], None)], true)]],
              (prefix: seq<Token>) => false;
            && ModernAnswer(Ok(Call([EOS], "eos")), trace, "replay-0", never)
            && NativeAnswer(Err(RemainedActive), trace, "replay-0", never)
  {
    var never := (prefix: seq<Token>) => false;
    var trace := [[Output("replay-0", [Candidate([EOS], None)], false)],
                  [Output("replay-0", [Candidate([EOS, 7], None)], true)]];
    FitsUpTo(trace, "replay-0", 2);
    assert trace[..2] == trace;
    BlocksStep(trace, 0);
    BlocksStep(trace, 1);
    assert Blocks(trace) == [[EOS], [EOS, 7]] && Earlier(trace) == [[EOS]];
    EosFirst(never);
    var c := Call([EOS], "eos");
    assert NativeKeeps(c, Blocks(trace), never) && Settled(c, trace, never) == Err(RemainedActive);
  }

  lemma EosFirst(never: StopTest)
    ensures var blocks := [[EOS], [EOS, 7]];
            && !AllQuiet(blocks, never) && ModernFinds(Call([EOS], "eos"), blocks, never)
            && !NoWholeStop(blocks, never) && NativeKeeps(Call([EOS], "eos"), blocks, never)
            && !NoWholeStop([[EOS]], never)
  {
    var first, blocks := [[EOS]], [[EOS], [EOS, 7]];
    assert blocks[..0] == [] && EndsAt(first[0], never, 1);
    assert NewStop([EOS], blocks, 0, never) && !Quiet(blocks, 0, never);
    assert FirstWholeStop(blocks, never, 0);
  }

  /** One block with EOS inside it: the newer loop cuts there, the older one runs on. */
  lemma OlderLoopOverruns()
    ensures var trace, never := [[Output("replay-0", [Candidate([7, EOS, 9], None)], true)]],
              (prefix: seq<Token>) => false;
            && ModernAnswer(Ok(Call([7, EOS], "eos")), trace, "replay-0", never)
            && NativeAnswer(Ok(Call([7, EOS, 9], "max_tokens")), trace, "replay-0", never)
  {
    var block := [7, EOS, 9];
    var trace, never := [[Output("replay-0", [Candidate(block, None)], true)]], (prefix: seq<Token>) => false;
    FitsUpTo(trace, "replay-0", 1);
    assert trace[..1] == trace;
    BlocksStep(trace, 0);
    assert Blocks(trace) == [block];
    EosInside(block, never);
  }

  lemma EosInside(block: seq<Token>, never: StopTest)
    requires block == [7, EOS, 9] && never == ((prefix: seq<Token>) => false)
    ensures !AllQuiet([block], never) && ModernFinds(Call([7, EOS], "eos"), [block], never)
    ensures NoWholeStop([block], never) && LastNonempty([block]) == LastBlock([block]) == block
  {
    var blocks := [block];
    assert blocks[..0] == [];
    assert EndsAt(block, never, 2) && !EndsAt(block, never, 1) && [7, EOS] <= block;
    assert NewStop([7, EOS], blocks, 0, never);
    assert !Quiet(blocks, 0, never);
  }

  /** One block with a parsed STOP inside it: the older loop tests the whole block and misses it. */
  lemma OlderLoopMissesStop()
    ensures var trace, parsed := [[Output("replay-0", [Candidate([7, 8, 9], None)], true)]],
              (prefix: seq<Token>) => prefix == [7, 8];
            && ModernAnswer(Ok(Call([7, 8], "stop")), trace, "replay-0", parsed)
            && NativeAnswer(Ok(Call([7, 8, 9], "max_tokens")), trace, "replay-0", parsed)
  {
    var block := [7, 8, 9];
    var trace := [[Output("replay-0", [Candidate(block, None)], true)]];
    var parsed := (prefix: seq<Token>) => prefix == [7, 8];
    FitsUpTo(trace, "replay-0", 1);
    assert trace[..1] == trace;
    BlocksStep(trace, 0);
    assert Blocks(trace) == [block];
    StopInside(block, parsed);
  }

  lemma StopInside(block: seq<Token>, parsed: StopTest)
    requires block == [7, 8, 9] && parsed == ((prefix: seq<Token>) => prefix == [7, 8])
    ensures !AllQuiet([block], parsed) && ModernFinds(Call([7, 8], "stop"), [block], parsed)
    ensures NoWholeStop([block], parsed) && LastNonempty([block]) == LastBlock([block]) == block
  {
    var blocks := [block];
    assert blocks[..0] == [] && block[..2] == [7, 8] && block[..3] == block;
    assert |block[..1]| == 1;
    assert EndsAt(block, parsed, 2) && !EndsAt(block, parsed, 1) && [7, 8] <= block;
    assert NewStop([7, 8], blocks, 0, parsed);
    assert !Quiet(blocks, 0, parsed);
  }

  /** Without a stop, a batch of one reports the engine's own reason and the newer loop does not. */
  lemma ReasonsDiffer()
    ensures var trace, never := [[Output("replay-0", [Candidate([7], Some("length"))], true)]],
              (prefix: seq<Token>) => false;
            && RecordOk(Record([7], 1, Some("length")), Flatten(trace), "replay-0", never)
            && ModernAnswer(Ok(Call([7], "max_tokens")), trace, "replay-0", never)
  {
    var o, never := Output("replay-0", [Candidate([7], Some("length"))], true), (prefix: seq<Token>) => false;
    FlattenOne(o);
    LengthRecorded(o, never);
    LengthUnnamed(o, [[o]], never);
  }

  lemma LengthRecorded(o: Output, never: StopTest)
    requires o == Output("replay-0", [Candidate([7], Some("length"))], true) && never == ((prefix: seq<Token>) => false)
    ensures RecordOk(Record([7], 1, Some("length")), [o], "replay-0", never)
  {
    NothingStops([7], never);
    FlattenOne(o);
    assert Final([o][0], never);
  }

  lemma LengthUnnamed(o: Output, trace: seq<seq<Output>>, never: StopTest)
    requires o == Output("replay-0", [Candidate([7], Some("length"))], true) && never == ((prefix: seq<Token>) => false)
    requires trace == [[o]]
    ensures ModernAnswer(Ok(Call([7], "max_tokens")), trace, "replay-0", never)
  {
    FitsUpTo(trace, "replay-0", 1);
    assert trace[..1] == trace;
    BlocksStep(trace, 0);
    assert Blocks(trace) == [[7]];
    NothingStops([7], never);
  }

  lemma FlattenOne(o: Output)
    ensures Flatten([[o]]) == [o] && LatestOutput([o], o.id) == Some(o)
  {
    assert Flatten([[o]][..0]) == [];
  }

  lemma NothingStops(block: seq<Token>, never: StopTest)
    requires block == [7] && never == ((prefix: seq<Token>) => false)
    ensures !HasStop(block, never) && AllQuiet([block], never) && LastNonempty([block]) == block
  {
    assert [block][..0] == [];
    forall end: nat ensures !EndsAt(block, never, end) {
    }
  }

  lemma OneTokenBoundary(p: seq<Token>, blocks: seq<seq<Token>>, stop: StopTest, k: nat)
    requires Cumulative(blocks) && FirstStop(blocks, stop, k) && ShortestStop(p, blocks[k], stop)
    requires |blocks[k]| <= 1 + if k == 0 then 0 else |blocks[k - 1]|
    ensures p == blocks[k]
  {
    if |p| < |blocks[k]| && k > 0 {
      var before := blocks[k - 1];
      assert blocks[..k][k - 1] == before;
      assert before <= blocks[k];
      EndsInPrefix(before, blocks[k], stop, |p|);
      assert false;
    }
  }

  ghost predicate OneTokenSteps(blocks: seq<seq<Token>>) {
    forall i :: 0 <= i < |blocks| ==> |blocks[i]| <= 1 + if i == 0 then 0 else |blocks[i - 1]|
  }

  lemma OneTokenStopsAtBlock(blocks: seq<seq<Token>>, stop: StopTest)
    requires Cumulative(blocks) && OneTokenSteps(blocks)
    ensures StopsAtBlock(blocks, stop)
  {
    LastHasStop(blocks, stop);
    if !NoStop(blocks, stop) {
      var k := FirstStopIndex(blocks, stop);
      var p := ShortestStopOf(blocks[k], stop);
      OneTokenBoundary(p, blocks, stop, k);
      assert blocks[k] <= LastBlock(blocks);
      OverrunIsInvisible(p, blocks[k], LastBlock(blocks), stop);
    }
  }

  lemma FirstStopIndex(blocks: seq<seq<Token>>, stop: StopTest) returns (k: nat)
    requires !NoStop(blocks, stop)
    ensures FirstStop(blocks, stop, k)
  {
    k := 0;
    while k < |blocks| && !HasStop(blocks[k], stop)
      invariant k <= |blocks| && forall j :: 0 <= j < k ==> !HasStop(blocks[j], stop)
    {
      k := k + 1;
    }
  }

  lemma ShortestStopOf(tokens: seq<Token>, stop: StopTest) returns (p: seq<Token>)
    requires HasStop(tokens, stop)
    ensures ShortestStop(p, tokens, stop)
  {
    var end: nat := 0;
    while !EndsAt(tokens, stop, end)
      invariant end <= |tokens| && forall e: nat :: e < end ==> !EndsAt(tokens, stop, e)
      decreases |tokens| - end
    {
      end := end + 1;
    }
    p := tokens[..end];
  }

  /** When every step adds at most one token, the older loop answers as the newer one, but for a
      refusal when EOS is the first stop and the engine goes on after it. */
  lemma OneTokenStepsAgree(trace: seq<seq<Output>>, id: string, stop: StopTest, modern: Result<Call, CallError>,
                           native: Result<Call, CallError>)
    requires AllFit(trace, id) && Cumulative(Blocks(trace)) && OneTokenSteps(Blocks(trace))
    requires ModernAnswer(modern, trace, id, stop) && NativeAnswer(native, trace, id, stop)
    ensures native == if EosWhileActive(trace, stop) then Err(RemainedActive) else modern
  {
    OneTokenStopsAtBlock(Blocks(trace), stop);
    ModernWhenCumulative(modern, trace, id, stop);
    NativeWhenCumulative(native, trace, id, stop);
    if LastBlock(Blocks(trace)) != [] {
      var n :| NativeKeeps(n, Blocks(trace), stop) && native == Settled(n, trace, stop);
      KeepSameTokens(modern.value, n, Blocks(trace), stop);
      RefusedIff(n, trace, stop);
    }
  }

  ghost predicate NoneEndsInEos(blocks: seq<seq<Token>>) {
    forall j :: 0 <= j < |blocks| ==> blocks[j] == [] || !IsEos(blocks[j][|blocks[j]| - 1])
  }

  lemma EosIsLast(trace: seq<seq<Output>>, stop: StopTest)
    requires Cumulative(Blocks(trace)) && OneTokenSteps(Blocks(trace)) && NoneEndsInEos(Earlier(trace))
    ensures !EosWhileActive(trace, stop)
  {
    if EosWhileActive(trace, stop) {
      EarlierIsPrefix(trace);
      EarlierEos(Blocks(trace), Earlier(trace), stop);
    }
  }

  /** An engine that adds one token a step and ends the request with the step that shows EOS: both
      loops answer alike. */
  lemma EndingAtEosAgrees(trace: seq<seq<Output>>, id: string, stop: StopTest, modern: Result<Call, CallError>,
                          native: Result<Call, CallError>)
    requires AllFit(trace, id) && Cumulative(Blocks(trace)) && OneTokenSteps(Blocks(trace))
             && NoneEndsInEos(Earlier(trace))
    requires ModernAnswer(modern, trace, id, stop) && NativeAnswer(native, trace, id, stop)
    ensures native == modern
  {
    OneTokenStepsAgree(trace, id, stop, modern, native);
    EosIsLast(trace, stop);
  }

  lemma EarlierEos(blocks: seq<seq<Token>>, earlier: seq<seq<Token>>, stop: StopTest)
    requires Cumulative(blocks) && OneTokenSteps(blocks) && earlier <= blocks && !NoStop(earlier, stop)
    requires FirstStopIsEos(LastBlock(blocks), stop)
    ensures !NoneEndsInEos(earlier)
  {
    var k := FirstStopIndex(earlier, stop);
    FirstStopLater(earlier, blocks, stop, k);
    var p := ShortestStopOf(blocks[k], stop);
    assert blocks[k] <= LastBlock(blocks);
    OverrunIsInvisible(p, blocks[k], LastBlock(blocks), stop);
    FirstEosIff(p, LastBlock(blocks), stop);
    OneTokenBoundary(p, blocks, stop, k);
  }

  lemma FirstStopLater(short: seq<seq<Token>>, long: seq<seq<Token>>, stop: StopTest, k: nat)
    requires short <= long && FirstStop(short, stop, k)
    ensures FirstStop(long, stop, k)
  {
    assert short[..k] == long[..k];
  }
}
