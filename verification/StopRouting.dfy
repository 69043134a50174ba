/** Stop detection on speculative token blocks, and the routing of an engine's
    unordered cumulative outputs to their requests.

    `stop(prefix)` stands for decoding and parsing a token prefix and finding a
    valid action list that ends in STOP; nothing is assumed about it. */
module StopRouting {
  import opened Wrappers

  type Token = int

  type StopTest = seq<Token> -> bool

  predicate IsEos(t: Token) {
    t == 151645 || t == 151643
  }

  /** The prefix of length `end` ends generation. */
  predicate EndsAt(tokens: seq<Token>, stop: StopTest, end: nat) {
    1 <= end <= |tokens| && (IsEos(tokens[end - 1]) || stop(tokens[..end]))
  }

  predicate HasStop(tokens: seq<Token>, stop: StopTest) {
    exists end: nat :: end <= |tokens| && EndsAt(tokens, stop, end)
  }

  /** `p` is the shortest stopping prefix of `tokens`. */
  ghost predicate ShortestStop(p: seq<Token>, tokens: seq<Token>, stop: StopTest) {
    p <= tokens && EndsAt(tokens, stop, |p|) && forall end: nat :: end < |p| ==> !EndsAt(tokens, stop, end)
  }

  /** What history may keep of a stream: its shortest stopping prefix, or all of it. */
  ghost predicate Keeps(kept: seq<Token>, tokens: seq<Token>, stop: StopTest) {
    if HasStop(tokens, stop) then ShortestStop(kept, tokens, stop) else kept == tokens
  }

  /** What a scan of the unchecked part of `tokens` reports. */
  ghost predicate Scanned(tokens: seq<Token>, checked: nat, kept: seq<Token>, reason: Option<string>, stop: StopTest) {
    && (reason.None? ==> kept == tokens && forall end: nat :: checked < end ==> !EndsAt(tokens, stop, end))
    && (reason.Some? ==> kept <= tokens && checked < |kept| && EndsAt(tokens, stop, |kept|)
                         && (forall end: nat :: checked < end < |kept| ==> !EndsAt(tokens, stop, end))
                         && reason.value == if IsEos(kept[|kept| - 1]) then "eos" else "stop")
  }

  /** The first `n` tokens end in one of the two EOS tokens or parse to STOP. */
  ghost predicate StopAt(tokens: seq<Token>, n: nat, stop: StopTest) {
    1 <= n <= |tokens| && (tokens[n - 1] == 151645 || tokens[n - 1] == 151643 || stop(tokens[..n]))
  }

  /** A scan keeps the tokens up to the first stop past the checked ones and names it, or keeps all. */
  ghost predicate PlainScan(tokens: seq<Token>, checked: nat, kept: seq<Token>, reason: Option<string>,
                            stop: StopTest)
  {
    && kept <= tokens && (forall n: nat :: checked < n < |kept| ==> !StopAt(tokens, n, stop))
    && (if reason.None? then kept == tokens && (checked < |tokens| ==> !StopAt(tokens, |tokens|, stop))
        else
          && checked < |kept|
          && (if kept[|kept| - 1] == 151645 || kept[|kept| - 1] == 151643 then reason == Some("eos")
              else stop(kept) && reason == Some("stop")))
  }

  method StoppingPrefix(tokens: seq<Token>, checked: nat, stop: StopTest)
    returns (kept: seq<Token>, reason: Option<string>)
    ensures Scanned(tokens, checked, kept, reason, stop)
    ensures PlainScan(tokens, checked, kept, reason, stop)
  {
    var end := checked + 1;
    while end <= |tokens|
      invariant checked < end && forall e: nat :: checked < e < end ==> !EndsAt(tokens, stop, e)
      invariant forall n: nat :: checked < n < end ==> !StopAt(tokens, n, stop)
    {
      if IsEos(tokens[end - 1]) {
        return tokens[..end], Some("eos");
      }
      if stop(tokens[..end]) {
        return tokens[..end], Some("stop");
      }
      end := end + 1;
    }
    return tokens, None;
  }

  // ---- the shortest stopping prefix belongs to the stream, not to its blocks ----

  lemma EndsInPrefix(short: seq<Token>, long: seq<Token>, stop: StopTest, end: nat)
    requires short <= long && end <= |short|
    ensures EndsAt(short, stop, end) <==> EndsAt(long, stop, end)
  {
    assert short[..end] == long[..end];
  }

  lemma ShortestUnique(p: seq<Token>, q: seq<Token>, tokens: seq<Token>, stop: StopTest)
    requires ShortestStop(p, tokens, stop) && ShortestStop(q, tokens, stop)
    ensures p == q
  {
    assert EndsAt(tokens, stop, |p|) && EndsAt(tokens, stop, |q|);
  }

  lemma StopExtends(short: seq<Token>, long: seq<Token>, stop: StopTest)
    requires short <= long && HasStop(short, stop)
    ensures HasStop(long, stop)
  {
    var end: nat :| end <= |short| && EndsAt(short, stop, end);
    EndsInPrefix(short, long, stop, end);
  }

  /** However far the engine ran past the stop, the kept tokens are the same. */
  lemma OverrunIsInvisible(p: seq<Token>, short: seq<Token>, long: seq<Token>, stop: StopTest)
    requires short <= long && HasStop(short, stop)
    ensures ShortestStop(p, short, stop) <==> ShortestStop(p, long, stop)
  {
    var end: nat :| end <= |short| && EndsAt(short, stop, end);
    EndsInPrefix(short, long, stop, end);
    forall e: nat | e <= |short| ensures EndsAt(short, stop, e) <==> EndsAt(long, stop, e) {
      EndsInPrefix(short, long, stop, e);
    }
    if ShortestStop(p, long, stop) {
      assert |p| <= end;
      assert p == long[..|p|] == short[..|p|];
    }
  }

  /** Scanning only the part not checked before finds the shortest stopping prefix of the whole. */
  lemma ScanSuffix(previous: seq<Token>, tokens: seq<Token>, kept: seq<Token>, reason: Option<string>, stop: StopTest)
    requires previous <= tokens && !HasStop(previous, stop)
    requires Scanned(tokens, |previous|, kept, reason, stop)
    ensures reason.Some? <==> HasStop(tokens, stop)
    ensures Keeps(kept, tokens, stop)
  {
    forall end: nat | end <= |previous| ensures !EndsAt(tokens, stop, end) {
      EndsInPrefix(previous, tokens, stop, end);
    }
  }

  // ---- engine traces ----

  datatype Candidate = Candidate(tokens: seq<Token>, finishReason: Option<string>)

  /** One request output of an engine step: cumulative tokens, and whether the request ended. */
  datatype Output = Output(id: string, candidates: seq<Candidate>, finished: bool)

  datatype Record = Record(tokens: seq<Token>, returned: nat, stopReason: Option<string>)

  datatype CollectError =
    | DuplicateIdentity
    | UnexpectedOutput(id: string)
    | SeveralCandidates
    | RewroteTokens
    | EndedEarly

  /** All outputs of a trace in the order they are handled. */
  function Flatten(trace: seq<seq<Output>>): seq<Output> {
    if trace == [] then [] else Flatten(trace[..|trace| - 1]) + trace[|trace| - 1]
  }

  /** The latest output of a request. */
  function LatestOutput(events: seq<Output>, id: string): Option<Output> {
    if events == [] then None else
      var last := events[|events| - 1];
      if last.id == id then Some(last) else LatestOutput(events[..|events| - 1], id)
  }

  function TokensOf(o: Output): seq<Token> {
    if |o.candidates| == 1 then o.candidates[0].tokens else []
  }

  /** The latest cumulative tokens of a request, empty before its first output. */
  function Latest(events: seq<Output>, id: string): seq<Token> {
    var o := LatestOutput(events, id);
    if o.None? then [] else TokensOf(o.value)
  }

  /** The engine's own reason, or the default when it gives none. */
  function FinishName(o: Output): string {
    if |o.candidates| == 1 && o.candidates[0].finishReason.Some? && o.candidates[0].finishReason.value != ""
    then o.candidates[0].finishReason.value else "max_tokens"
  }

  /** The output ends its request: a stop inside its tokens, or the engine's own finish. */
  predicate Final(o: Output, stop: StopTest) {
    o.finished || HasStop(TokensOf(o), stop)
  }

  predicate Ended(events: seq<Output>, id: string, stop: StopTest) {
    exists k :: 0 <= k < |events| && events[k].id == id && Final(events[k], stop)
  }

  /** What is wrong with output `k`, judged from the raw trace alone. */
  function Fault(events: seq<Output>, k: nat, ids: set<string>, stop: StopTest): Option<CollectError>
    requires k < |events|
  {
    var o := events[k];
    if o.id !in ids || Ended(events[..k], o.id, stop) then Some(UnexpectedOutput(o.id))
    else if |o.candidates| != 1 then Some(SeveralCandidates)
    else if !(Latest(events[..k], o.id) <= TokensOf(o)) then Some(RewroteTokens)
    else None
  }

  /** Outputs only extend, only for known requests, and never after a request ended. */
  ghost predicate Conforming(events: seq<Output>, ids: set<string>, stop: StopTest) {
    forall k :: 0 <= k < |events| ==> Fault(events, k, ids, stop) == None
  }

  /** Every request ended with a nonempty output. */
  ghost predicate AllEnded(events: seq<Output>, ids: set<string>, stop: StopTest) {
    forall id :: id in ids ==> Ended(events, id, stop) && Latest(events, id) != []
  }

  /** The stop reason after `events`: the kind of stop, else the engine's finish reason. */
  function Reason(kept: seq<Token>, events: seq<Output>, id: string, stop: StopTest): Option<string> {
    if !Ended(events, id, stop) || LatestOutput(events, id).None? then None
    else if !HasStop(Latest(events, id), stop) then Some(FinishName(LatestOutput(events, id).value))
    else if kept != [] && IsEos(kept[|kept| - 1]) then Some("eos") else Some("stop")
  }

  /** The record a request must have after `events`, from its own outputs only. */
  ghost predicate RecordOk(r: Record, events: seq<Output>, id: string, stop: StopTest) {
    && Keeps(r.tokens, Latest(events, id), stop)
    && r.returned == |Latest(events, id)|
    && r.stopReason == Reason(r.tokens, events, id, stop)
  }

  /** The collector's view of one request: its record, and whether it is in `finished`. */
  ghost predicate Routed(r: Record, done: bool, events: seq<Output>, id: string, stop: StopTest) {
    && RecordOk(r, events, id, stop)
    && (done <==> Ended(events, id, stop))
    && (!done ==> !HasStop(Latest(events, id), stop))
  }

  ghost predicate RecordsOk(records: map<string, Record>, finished: set<string>, events: seq<Output>, ids: set<string>,
                            stop: StopTest) {
    && records.Keys == ids && finished <= ids
    && forall id :: id in ids ==> Routed(records[id], id in finished, events, id, stop)
  }

  lemma EndedAppend(events: seq<Output>, o: Output, id: string, stop: StopTest)
    ensures Ended(events + [o], id, stop) <==> Ended(events, id, stop) || (o.id == id && Final(o, stop))
  {
    var after := events + [o];
    if Ended(events, id, stop) {
      var k :| 0 <= k < |events| && events[k].id == id && Final(events[k], stop);
      assert after[k] == events[k];
    }
    if o.id == id && Final(o, stop) {
      assert after[|events|] == o;
    }
    if Ended(after, id, stop) {
      var k :| 0 <= k < |after| && after[k].id == id && Final(after[k], stop);
      assert k < |events| ==> after[k] == events[k];
    }
  }

  lemma LatestAppend(events: seq<Output>, o: Output, id: string)
    ensures LatestOutput(events + [o], id) == if o.id == id then Some(o) else LatestOutput(events, id)
  {
    assert (events + [o])[..|events|] == events;
  }

  /** The record written for output `o`. */
  function Updated(o: Output, kept: seq<Token>, reason: Option<string>): Record {
    Record(kept, |TokensOf(o)|, if reason.Some? then reason else if o.finished then Some(FinishName(o)) else None)
  }

  lemma RouteOwn(r: Record, events: seq<Output>, stop: StopTest, o: Output, kept: seq<Token>, reason: Option<string>)
    requires Routed(r, false, events, o.id, stop)
    requires |o.candidates| == 1 && Latest(events, o.id) <= TokensOf(o)
    requires Scanned(TokensOf(o), |Latest(events, o.id)|, kept, reason, stop)
    ensures var r' := Updated(o, kept, reason); Routed(r', r'.stopReason.Some?, events + [o], o.id, stop)
  {
    ScanSuffix(Latest(events, o.id), TokensOf(o), kept, reason, stop);
    EndedAppend(events, o, o.id, stop);
    LatestAppend(events, o, o.id);
  }

  lemma RouteOther(r: Record, done: bool, events: seq<Output>, stop: StopTest, o: Output, id: string)
    requires Routed(r, done, events, id, stop) && id != o.id
    ensures Routed(r, done, events + [o], id, stop)
  {
    EndedAppend(events, o, id, stop);
    LatestAppend(events, o, id);
  }

  /** Handling one faultless output keeps every record right. */
  lemma RouteOne(records: map<string, Record>, finished: set<string>, events: seq<Output>, ids: set<string>,
                 stop: StopTest,
                 o: Output, kept: seq<Token>, reason: Option<string>)
    requires RecordsOk(records, finished, events, ids, stop)
    requires o.id in ids && o.id !in finished && |o.candidates| == 1 && Latest(events, o.id) <= TokensOf(o)
    requires Scanned(TokensOf(o), |Latest(events, o.id)|, kept, reason, stop)
    ensures var r := Updated(o, kept, reason);
            RecordsOk(records[o.id := r], if r.stopReason.Some? then finished + {o.id} else finished,
                      events + [o], ids, stop)
  {
    RouteOwn(records[o.id], events, stop, o, kept, reason);
    forall id | id in ids && id != o.id
      ensures Routed(records[id], id in finished, events + [o], id, stop)
    {
      RouteOther(records[id], id in finished, events, stop, o, id);
    }
  }

  // ---- the collector ----

  predicate AllDistinct(identities: seq<string>) {
    forall i, j :: 0 <= i < j < |identities| ==> identities[i] != identities[j]
  }

  function Ids(identities: seq<string>): set<string> {
    set i | 0 <= i < |identities| :: identities[i]
  }

  /** Output `k` is the first faulty one, and `e` says what is wrong with it. */
  ghost predicate FirstFault(events: seq<Output>, k: nat, ids: set<string>, stop: StopTest, e: CollectError) {
    && k < |events| && Fault(events, k, ids, stop) == Some(e)
    && forall j :: 0 <= j < k ==> Fault(events, j, ids, stop) == None
  }

  /** The one admissible answer for a trace. */
  ghost predicate Verdict(r: Result<(map<string, Record>, nat), CollectError>, trace: seq<seq<Output>>,
                          identities: seq<string>, stop: StopTest) {
    var events, ids := Flatten(trace), Ids(identities);
    if !AllDistinct(identities) then r == Err(DuplicateIdentity)
    else if !Conforming(events, ids, stop) then r.Err? && exists k: nat :: FirstFault(events, k, ids, stop, r.error)
    else if !AllEnded(events, ids, stop) then r == Err(EndedEarly)
    else r.Ok? && r.value.1 == |trace| && r.value.0.Keys == ids && forall id :: id in ids ==>
                                                                     RecordOk(r.value.0[id], events, id, stop)
  }

  lemma IdsMore(identities: seq<string>, n: nat)
    requires n + 1 == |identities|
    ensures Ids(identities) == Ids(identities[..n]) + {identities[n]}
    ensures AllDistinct(identities) <==> AllDistinct(identities[..n]) && identities[n] !in Ids(identities[..n])
  {
    forall id | id in Ids(identities) ensures id in Ids(identities[..n]) + {identities[n]} {
      var i :| 0 <= i < |identities| && identities[i] == id;
      assert i < n ==> identities[..n][i] == id;
    }
    forall id | id in Ids(identities[..n]) ensures id in Ids(identities) {
      var i :| 0 <= i < n && identities[..n][i] == id;
      assert identities[i] == id;
    }
    if identities[n] in Ids(identities[..n]) {
      var i :| 0 <= i < n && identities[..n][i] == identities[n];
      assert identities[i] == identities[n];
    }
  }

  lemma {:induction false} DistinctCount(identities: seq<string>)
    ensures |Ids(identities)| <= |identities|
    ensures |Ids(identities)| == |identities| <==> AllDistinct(identities)
  {
    if identities == [] {
      assert Ids(identities) == {};
    } else {
      var n := |identities| - 1;
      DistinctCount(identities[..n]);
      IdsMore(identities, n);
      SizeMore(Ids(identities[..n]), identities[n]);
    }
  }

  lemma SizeMore(ids: set<string>, id: string)
    ensures |ids + {id}| == |ids| + if id in ids then 0 else 1
  {
    if id in ids {
      assert ids + {id} == ids;
    }
  }

  lemma {:induction false} FlattenPrefix(trace: seq<seq<Output>>, n: nat)
    requires n <= |trace|
    ensures Flatten(trace[..n]) <= Flatten(trace)
    decreases |trace|
  {
    if n == |trace| {
      assert trace[..n] == trace;
    } else {
      var m := |trace| - 1;
      FlattenPrefix(trace[..m], n);
      assert trace[..m][..n] == trace[..n];
    }
  }

  lemma FaultPrefix(seen: seq<Output>, events: seq<Output>, ids: set<string>, stop: StopTest, k: nat)
    requires seen <= events && k < |seen|
    ensures Fault(events, k, ids, stop) == Fault(seen, k, ids, stop)
  {
    assert events[..k] == seen[..k];
  }

  lemma FaultStays(seen: seq<Output>, events: seq<Output>, ids: set<string>, stop: StopTest, k: nat, e: CollectError)
    requires seen <= events && FirstFault(seen, k, ids, stop, e)
    ensures FirstFault(events, k, ids, stop, e) && !Conforming(events, ids, stop)
  {
    forall j: nat | j <= k ensures Fault(events, j, ids, stop) == Fault(seen, j, ids, stop) {
      FaultPrefix(seen, events, ids, stop, j);
    }
  }

  lemma ConformingFault(seen: seq<Output>, o: Output, ids: set<string>, stop: StopTest, e: CollectError)
    requires Conforming(seen, ids, stop) && Fault(seen + [o], |seen|, ids, stop) == Some(e)
    ensures FirstFault(seen + [o], |seen|, ids, stop, e)
  {
    forall j | 0 <= j < |seen| ensures Fault(seen + [o], j, ids, stop) == None {
      FaultPrefix(seen, seen + [o], ids, stop, j);
    }
  }

  lemma ConformingAppend(seen: seq<Output>, o: Output, ids: set<string>, stop: StopTest)
    requires Conforming(seen, ids, stop) && Fault(seen + [o], |seen|, ids, stop) == None
    ensures Conforming(seen + [o], ids, stop)
  {
    forall j | 0 <= j < |seen| ensures Fault(seen + [o], j, ids, stop) == None {
      FaultPrefix(seen, seen + [o], ids, stop, j);
    }
  }

  /** The final test on the collector's own state decides whether every request ended. */
  lemma EndingCheck(records: map<string, Record>, finished: set<string>, seen: seq<Output>, ids: set<string>,
                    stop: StopTest)
    requires RecordsOk(records, finished, seen, ids, stop)
    ensures finished == ids && (forall id :: id in records ==> records[id].tokens != []) <==> AllEnded(seen, ids, stop)
    ensures forall id :: id in ids ==> RecordOk(records[id], seen, id, stop)
  {
    forall id | id in ids
      ensures RecordOk(records[id], seen, id, stop)
      ensures records[id].tokens != [] <==> Latest(seen, id) != []
      ensures id in finished <==> Ended(seen, id, stop)
    {
      assert Routed(records[id], id in finished, seen, id, stop);
    }
  }

  /** Handles one output: scans its new part, updates its record, and says whether its request is over. */
  method Route(records: map<string, Record>, finished: set<string>, output: Output, ghost seen: seq<Output>,
               ghost ids: set<string>,
               stop: StopTest)
    returns (r: Result<Record, CollectError>)
    requires RecordsOk(records, finished, seen, ids, stop)
    ensures r.Err? ==> Fault(seen + [output], |seen|, ids, stop) == Some(r.error)
    ensures r.Ok? ==> Fault(seen + [output], |seen|, ids, stop) == None
    ensures r.Ok? ==>
              RecordsOk(records[output.id := r.value],
                        if r.value.stopReason.Some? then finished + {output.id} else finished,
                        seen + [output], ids, stop)
  {
    assert (seen + [output])[..|seen|] == seen;
    if output.id !in records || output.id in finished {
      return Err(UnexpectedOutput(output.id));
    }
    if |output.candidates| != 1 {
      return Err(SeveralCandidates);
    }
    assert Routed(records[output.id], false, seen, output.id, stop);
    var complete, previous := output.candidates[0].tokens, records[output.id].tokens;
    if !(previous <= complete) {
      return Err(RewroteTokens);
    }
    var kept, reason := StoppingPrefix(complete, |previous|, stop);
    RouteOne(records, finished, seen, ids, stop, output, kept, reason);
    var stopReason := reason;
    if reason.None? && output.finished {
      stopReason := Some(FinishName(output));
    }
    return Ok(Record(kept, |complete|, stopReason));
  }

  /** Handles the outputs of one engine step in turn. */
  method RouteStep(records: map<string, Record>, finished: set<string>, outputs: seq<Output>, ghost seen: seq<Output>,
                   ghost ids: set<string>, stop: StopTest)
    returns (r: Result<(map<string, Record>, set<string>), CollectError>)
    requires Conforming(seen, ids, stop) && RecordsOk(records, finished, seen, ids, stop)
    ensures r.Err? ==> exists k: nat :: FirstFault(seen + outputs, k, ids, stop, r.error)
    ensures r.Ok? ==>
              Conforming(seen + outputs, ids, stop) && RecordsOk(r.value.0, r.value.1, seen + outputs, ids, stop)
  {
    var records', finished' := records, finished;
    ghost var now := seen;
    for i := 0 to |outputs|
      invariant now == seen + outputs[..i]
      invariant Conforming(now, ids, stop) && RecordsOk(records', finished', now, ids, stop)
    {
      var routed := Route(records', finished', outputs[i], now, ids, stop);
      assert now + [outputs[i]] == seen + outputs[..i + 1] <= seen + outputs;
      if routed.Err? {
        ConformingFault(now, outputs[i], ids, stop, routed.error);
        FaultStays(now + [outputs[i]], seen + outputs, ids, stop, |now|, routed.error);
        return Err(routed.error);
      }
      ConformingAppend(now, outputs[i], ids, stop);
      records' := records'[outputs[i].id := routed.value];
      if routed.value.stopReason.Some? {
        finished' := finished' + {outputs[i].id};
      }
      now := now + [outputs[i]];
    }
    assert outputs[..|outputs|] == outputs;
    return Ok((records', finished'));
  }

  // ---- the same answer in terms of outputs and tokens alone ----

  /** Output `k` is the last one of the request. */
  ghost predicate LastAt(events: seq<Output>, id: string, k: nat) {
    k < |events| && events[k].id == id && forall j :: k < j < |events| ==> events[j].id != id
  }

  ghost predicate StopsWithin(tokens: seq<Token>, stop: StopTest) {
    exists n: nat :: StopAt(tokens, n, stop)
  }

  /** There is no stop before the end of the tokens. */
  ghost predicate NoneInside(tokens: seq<Token>, stop: StopTest) {
    forall n: nat :: n < |tokens| ==> !StopAt(tokens, n, stop)
  }

  /** The output names its request's end: it was finished, or a stop is in its tokens. */
  ghost predicate EndsRequest(o: Output, stop: StopTest) {
    o.finished || (|o.candidates| == 1 && StopsWithin(o.candidates[0].tokens, stop))
  }

  /** Outputs belong to requests, have one candidate, only extend, and follow no end. */
  ghost predicate PlainSound(events: seq<Output>, identities: seq<string>, stop: StopTest) {
    && (forall k :: 0 <= k < |events| ==> events[k].id in identities && |events[k].candidates| == 1)
    && forall j, k :: 0 <= j < k < |events| && events[j].id == events[k].id ==>
         !EndsRequest(events[j], stop) && events[j].candidates[0].tokens <= events[k].candidates[0].tokens
  }

  /** The request's last output ends it and has tokens. */
  ghost predicate PlainEnd(events: seq<Output>, id: string, k: nat, stop: StopTest) {
    LastAt(events, id, k) && EndsRequest(events[k], stop)
    && |events[k].candidates| == 1 && events[k].candidates[0].tokens != []
  }

  ghost predicate PlainEnds(events: seq<Output>, identities: seq<string>, stop: StopTest) {
    forall id :: id in identities ==> exists k: nat :: PlainEnd(events, id, k, stop)
  }

  /** The record of a request whose last output is `o`: its tokens up to the first stop, how many were
      returned, and "eos" for either EOS token, "stop" for a parsed STOP, else the engine's reason. */
  ghost predicate PlainRecord(r: Record, o: Output, stop: StopTest) {
    && |o.candidates| == 1 && r.tokens != [] && r.tokens <= o.candidates[0].tokens && NoneInside(r.tokens, stop)
    && r.returned == |o.candidates[0].tokens|
    && var last := r.tokens[|r.tokens| - 1];
       if last == 151645 || last == 151643 then r.stopReason == Some("eos")
       else if stop(r.tokens) then r.stopReason == Some("stop")
       else
         && r.tokens == o.candidates[0].tokens && o.finished
         && r.stopReason == if o.candidates[0].finishReason in {None, Some("")} then Some("max_tokens")
                            else o.candidates[0].finishReason
  }

  ghost predicate PlainRecordOf(r: Record, events: seq<Output>, id: string, stop: StopTest) {
    exists k: nat :: PlainEnd(events, id, k, stop) && PlainRecord(r, events[k], stop)
  }

  ghost predicate PlainRecords(records: map<string, Record>, events: seq<Output>, identities: seq<string>,
                               stop: StopTest) {
    && (forall id :: id in records <==> id in identities)
    && forall id :: id in records ==> PlainRecordOf(records[id], events, id, stop)
  }

  /** An output of the request before output `k` ended it. */
  ghost predicate EndedBefore(events: seq<Output>, k: nat, id: string, stop: StopTest) {
    exists j :: 0 <= j < k && j < |events| && events[j].id == id && EndsRequest(events[j], stop)
  }

  /** Output `j` of the same request showed tokens that output `k` no longer begins with. */
  ghost predicate Rewrites(events: seq<Output>, j: nat, k: nat) {
    && j < k < |events| && events[j].id == events[k].id
    && |events[j].candidates| == 1 && |events[k].candidates| == 1
    && !(events[j].candidates[0].tokens <= events[k].candidates[0].tokens)
  }

  /** Output `k` is the first that is not sound, and the error says why: of an unknown or ended
      request, else with several candidates, else not extending an earlier one. */
  ghost predicate BlamedAt(events: seq<Output>, k: nat, identities: seq<string>, stop: StopTest, e: CollectError) {
    && k < |events| && PlainSound(events[..k], identities, stop)
    && if events[k].id !in identities || EndedBefore(events, k, events[k].id, stop)
       then e == UnexpectedOutput(events[k].id)
       else if |events[k].candidates| != 1 then e == SeveralCandidates
       else e == RewroteTokens && exists j: nat :: Rewrites(events, j, k)
  }

  /** The error names what is wrong. */
  ghost predicate Names(e: CollectError, events: seq<Output>, identities: seq<string>, stop: StopTest) {
    match e
    case DuplicateIdentity => exists i, j :: 0 <= i < j < |identities| && identities[i] == identities[j]
    case EndedEarly => PlainSound(events, identities, stop) && !PlainEnds(events, identities, stop)
    case _ => exists k: nat :: BlamedAt(events, k, identities, stop, e)
  }

  /** When a collection succeeds, what it then gives, and what a refusal means. */
  ghost predicate PlainVerdict(r: Result<(map<string, Record>, nat), CollectError>, events: seq<Output>, steps: nat,
                               identities: seq<string>, stop: StopTest) {
    && (r.Ok? <==>
        && (forall i, j :: 0 <= i < j < |identities| ==> identities[i] != identities[j])
        && PlainSound(events, identities, stop) && PlainEnds(events, identities, stop))
    && (r.Ok? ==> r.value.1 == steps && PlainRecords(r.value.0, events, identities, stop))
    && (r.Err? ==> Names(r.error, events, identities, stop))
  }

  lemma StopsIff(tokens: seq<Token>, stop: StopTest)
    ensures HasStop(tokens, stop) <==> StopsWithin(tokens, stop)
  {
    if HasStop(tokens, stop) {
      var end: nat :| end <= |tokens| && EndsAt(tokens, stop, end);
      assert StopAt(tokens, end, stop);
    }
    if StopsWithin(tokens, stop) {
      var n: nat :| StopAt(tokens, n, stop);
      assert EndsAt(tokens, stop, n);
    }
  }

  lemma FinalIff(o: Output, stop: StopTest)
    ensures Final(o, stop) <==> EndsRequest(o, stop)
  {
    StopsIff(TokensOf(o), stop);
  }

  lemma {:induction false} LatestAt(events: seq<Output>, id: string) returns (k: nat)
    requires LatestOutput(events, id).Some?
    ensures LastAt(events, id, k) && LatestOutput(events, id).value == events[k]
  {
    var n := |events| - 1;
    if events[n].id == id {
      k := n;
    } else {
      k := LatestAt(events[..n], id);
      assert forall j :: k < j < n ==> events[..n][j] == events[j];
    }
  }

  lemma {:induction false} LastIsLatest(events: seq<Output>, id: string, k: nat)
    requires LastAt(events, id, k)
    ensures LatestOutput(events, id) == Some(events[k])
  {
    var n := |events| - 1;
    if k < n {
      LastIsLatest(events[..n], id, k);
    }
  }

  lemma EndedIff(events: seq<Output>, id: string, stop: StopTest)
    ensures Ended(events, id, stop) <==>
              exists k :: 0 <= k < |events| && events[k].id == id && EndsRequest(events[k], stop)
  {
    if Ended(events, id, stop) {
      var k :| 0 <= k < |events| && events[k].id == id && Final(events[k], stop);
      FinalIff(events[k], stop);
    }
    if k :| 0 <= k < |events| && events[k].id == id && EndsRequest(events[k], stop) {
      FinalIff(events[k], stop);
    }
  }

  lemma IdsAre(identities: seq<string>)
    ensures forall id :: id in Ids(identities) <==> id in identities
  {
  }

  /** In a conforming trace an earlier output of a request ends nothing and is a prefix of a later one. */
  lemma {:induction false} ConformingPair(events: seq<Output>, ids: set<string>, stop: StopTest, j: nat, k: nat)
    requires Conforming(events, ids, stop) && j < k < |events| && events[j].id == events[k].id
    ensures !EndsRequest(events[j], stop) && |events[j].candidates| == 1 == |events[k].candidates|
    ensures events[j].candidates[0].tokens <= events[k].candidates[0].tokens
    decreases k
  {
    var id := events[j].id;
    assert Fault(events, j, ids, stop) == None && Fault(events, k, ids, stop) == None;
    assert events[..k][j] == events[j];
    FinalIff(events[j], stop);
    if LatestOutput(events[..k], id).None? {
      NoneLatest(events[..k], id, j);
    }
    var l := LatestAt(events[..k], id);
    assert events[..k][l] == events[l] && Fault(events, l, ids, stop) == None;
    if j < l {
      ConformingPair(events, ids, stop, j, l);
    }
  }

  lemma {:induction false} NoneLatest(events: seq<Output>, id: string, j: nat)
    requires j < |events| && events[j].id == id
    ensures LatestOutput(events, id).Some?
  {
    var n := |events| - 1;
    if j < n {
      NoneLatest(events[..n], id, j);
    }
  }

  lemma PlainNoFault(events: seq<Output>, identities: seq<string>, stop: StopTest, k: nat)
    requires PlainSound(events, identities, stop) && k < |events|
    ensures Fault(events, k, Ids(identities), stop) == None
  {
    var o := events[k];
    IdsAre(identities);
    EndedIff(events[..k], o.id, stop);
    forall j | 0 <= j < k && events[j].id == o.id ensures !EndsRequest(events[j], stop) {
    }
    if LatestOutput(events[..k], o.id).Some? {
      var l := LatestAt(events[..k], o.id);
      assert events[..k][l] == events[l];
    }
  }

  lemma SoundIff(events: seq<Output>, identities: seq<string>, stop: StopTest)
    ensures Conforming(events, Ids(identities), stop) <==> PlainSound(events, identities, stop)
  {
    if PlainSound(events, identities, stop) {
      forall k | 0 <= k < |events| ensures Fault(events, k, Ids(identities), stop) == None {
        PlainNoFault(events, identities, stop, k);
      }
    }
    if Conforming(events, Ids(identities), stop) {
      IdsAre(identities);
      forall k | 0 <= k < |events| ensures events[k].id in identities && |events[k].candidates| == 1 {
        assert Fault(events, k, Ids(identities), stop) == None;
      }
      forall j, k | 0 <= j < k < |events| && events[j].id == events[k].id
        ensures !EndsRequest(events[j], stop) && events[j].candidates[0].tokens <= events[k].candidates[0].tokens
      {
        ConformingPair(events, Ids(identities), stop, j, k);
      }
    }
  }

  /** In a conforming trace a request has ended exactly when its last output ends it. */
  lemma EndIff(events: seq<Output>, ids: set<string>, id: string, stop: StopTest)
    requires Conforming(events, ids, stop)
    ensures Ended(events, id, stop) && Latest(events, id) != [] <==> exists k: nat :: PlainEnd(events, id, k, stop)
  {
    EndedIff(events, id, stop);
    if Ended(events, id, stop) && Latest(events, id) != [] {
      var j :| 0 <= j < |events| && events[j].id == id && EndsRequest(events[j], stop);
      var k := LatestAt(events, id);
      if j < k {
        ConformingPair(events, ids, stop, j, k);
      }
      assert PlainEnd(events, id, k, stop);
    }
    if k: nat :| PlainEnd(events, id, k, stop) {
      LastIsLatest(events, id, k);
    }
  }

  lemma EndsIff(events: seq<Output>, identities: seq<string>, stop: StopTest)
    requires Conforming(events, Ids(identities), stop)
    ensures AllEnded(events, Ids(identities), stop) <==> PlainEnds(events, identities, stop)
  {
    IdsAre(identities);
    forall id | id in identities
      ensures Ended(events, id, stop) && Latest(events, id) != [] <==> exists k: nat :: PlainEnd(events, id, k, stop)
    {
      EndIff(events, Ids(identities), id, stop);
    }
  }

  /** What is kept of a stream, at its own tokens. */
  lemma KeptPlainly(kept: seq<Token>, tokens: seq<Token>, stop: StopTest)
    requires Keeps(kept, tokens, stop) && tokens != []
    ensures kept != [] && kept <= tokens && NoneInside(kept, stop)
    ensures HasStop(tokens, stop) <==>
              kept[|kept| - 1] == 151645 || kept[|kept| - 1] == 151643 || stop(kept)
    ensures !HasStop(tokens, stop) ==> kept == tokens
  {
    StopsIff(tokens, stop);
    if HasStop(tokens, stop) {
      assert EndsAt(tokens, stop, |kept|) && kept == tokens[..|kept|];
    }
    forall n: nat | n < |kept| ensures !StopAt(kept, n, stop) {
      assert kept[..n] == tokens[..n];
      assert !EndsAt(tokens, stop, n);
    }
    if !HasStop(tokens, stop) {
      assert tokens[..|tokens|] == tokens;
      assert !EndsAt(tokens, stop, |tokens|);
    }
  }

  lemma RecordPlainly(r: Record, events: seq<Output>, ids: set<string>, id: string, stop: StopTest)
    requires Conforming(events, ids, stop) && RecordOk(r, events, id, stop)
    requires Ended(events, id, stop) && Latest(events, id) != []
    ensures PlainRecordOf(r, events, id, stop)
  {
    EndIff(events, ids, id, stop);
    var k: nat :| PlainEnd(events, id, k, stop);
    LastIsLatest(events, id, k);
    KeptPlainly(r.tokens, Latest(events, id), stop);
    FinalIff(events[k], stop);
    assert PlainRecord(r, events[k], stop);
  }

  lemma FaultInPrefix(events: seq<Output>, k: nat, ids: set<string>, stop: StopTest)
    requires k <= |events| && forall j :: 0 <= j < k ==> Fault(events, j, ids, stop) == None
    ensures Conforming(events[..k], ids, stop)
  {
    forall j | 0 <= j < k ensures Fault(events[..k], j, ids, stop) == None {
      assert events[..k][..j] == events[..j];
      assert Fault(events, j, ids, stop) == None;
    }
  }

  lemma EndedBeforeIff(events: seq<Output>, k: nat, id: string, stop: StopTest)
    requires k <= |events|
    ensures Ended(events[..k], id, stop) <==> EndedBefore(events, k, id, stop)
  {
    EndedIff(events[..k], id, stop);
    if j :| 0 <= j < k && events[..k][j].id == id && EndsRequest(events[..k][j], stop) {
      assert events[..k][j] == events[j];
    }
    if j :| 0 <= j < k && events[j].id == id && EndsRequest(events[j], stop) {
      assert events[..k][j] == events[j];
    }
  }

  lemma FaultNamed(events: seq<Output>, k: nat, identities: seq<string>, stop: StopTest, e: CollectError)
    requires FirstFault(events, k, Ids(identities), stop, e)
    ensures BlamedAt(events, k, identities, stop, e)
  {
    var o := events[k];
    IdsAre(identities);
    EndedBeforeIff(events, k, o.id, stop);
    FaultInPrefix(events, k, Ids(identities), stop);
    SoundIff(events[..k], identities, stop);
    if e.RewroteTokens? {
      assert LatestOutput(events[..k], o.id).Some?;
      var l := LatestAt(events[..k], o.id);
      assert events[..k][l] == events[l];
      assert Fault(events, l, Ids(identities), stop) == None;
      assert Rewrites(events, l, k);
    }
  }

  /** The one admissible answer, in terms of outputs and tokens alone. */
  lemma VerdictPlainly(r: Result<(map<string, Record>, nat), CollectError>, trace: seq<seq<Output>>,
                       identities: seq<string>, stop: StopTest)
    requires Verdict(r, trace, identities, stop)
    ensures PlainVerdict(r, Flatten(trace), |trace|, identities, stop)
  {
    var events, ids := Flatten(trace), Ids(identities);
    IdsAre(identities);
    SoundIff(events, identities, stop);
    if Conforming(events, ids, stop) {
      EndsIff(events, identities, stop);
    } else if AllDistinct(identities) {
      var k: nat :| FirstFault(events, k, ids, stop, r.error);
      FaultNamed(events, k, identities, stop, r.error);
    }
    if r.Ok? {
      forall id | id in r.value.0 ensures PlainRecordOf(r.value.0[id], events, id, stop) {
        RecordPlainly(r.value.0[id], events, ids, id, stop);
      }
    }
  }

  /** How many outputs come in the steps before step `s`. */
  function OutputsBefore(trace: seq<seq<Output>>, s: nat): nat
    requires s <= |trace|
  {
    if s == 0 then 0 else OutputsBefore(trace, s - 1) + |trace[s - 1]|
  }

  /** Output `i` of step `s` is handled after all outputs of earlier steps and the `i` before it. */
  lemma {:induction false} FlattenAt(trace: seq<seq<Output>>, s: nat, i: nat)
    requires s < |trace| && i < |trace[s]|
    ensures |Flatten(trace)| == OutputsBefore(trace, |trace|)
    ensures OutputsBefore(trace, s) + i < |Flatten(trace)| && Flatten(trace)[OutputsBefore(trace, s) + i] == trace[s][i]
    decreases |trace|
  {
    var n := |trace| - 1;
    FlattenLength(trace);
    FlattenLength(trace[..n]);
    BeforePrefix(trace, n, s);
    BeforePrefix(trace, n, n);
    if s < n {
      FlattenAt(trace[..n], s, i);
    }
  }

  lemma {:induction false} FlattenLength(trace: seq<seq<Output>>)
    ensures |Flatten(trace)| == OutputsBefore(trace, |trace|)
  {
    if trace != [] {
      FlattenLength(trace[..|trace| - 1]);
      BeforePrefix(trace, |trace| - 1, |trace| - 1);
    }
  }

  lemma {:induction false} BeforePrefix(trace: seq<seq<Output>>, n: nat, s: nat)
    requires s <= n <= |trace|
    ensures OutputsBefore(trace[..n], s) == OutputsBefore(trace, s)
  {
    if s > 0 {
      BeforePrefix(trace, n, s - 1);
    }
  }

  /** Answers any engine trace: the first fault of the call or the trace, or for every request the
      record that its own outputs call for. */
  method CollectOutputs(trace: seq<seq<Output>>, identities: seq<string>, stop: StopTest)
    returns (r: Result<(map<string, Record>, nat), CollectError>)
    ensures Verdict(r, trace, identities, stop) && PlainVerdict(r, Flatten(trace), |trace|, identities, stop)
  {
    r := CollectAll(trace, identities, stop);
    VerdictPlainly(r, trace, identities, stop);
  }

  /** The collector's loop over the engine's steps. */
  method CollectAll(trace: seq<seq<Output>>, identities: seq<string>, stop: StopTest)
    returns (r: Result<(map<string, Record>, nat), CollectError>)
    ensures Verdict(r, trace, identities, stop)
  {
    var records := map i | i in Ids(identities) :: Record([], 0, None);
    DistinctCount(identities);
    assert records.Keys == Ids(identities) && |records| == |records.Keys|;
    if |records| != |identities| {
      return Err(DuplicateIdentity);
    }
    ghost var ids := Ids(identities);
    var finished: set<string>, steps: nat := {}, 0;
    while steps < |trace|
      invariant 0 <= steps <= |trace|
      invariant Conforming(Flatten(trace[..steps]), ids, stop)
      invariant RecordsOk(records, finished, Flatten(trace[..steps]), ids, stop)
    {
      var routed := RouteStep(records, finished, trace[steps], Flatten(trace[..steps]), ids, stop);
      assert trace[..steps + 1][..steps] == trace[..steps];
      steps := steps + 1;
      FlattenPrefix(trace, steps);
      if routed.Err? {
        ghost var k: nat :| FirstFault(Flatten(trace[..steps]), k, ids, stop, routed.error);
        FaultStays(Flatten(trace[..steps]), Flatten(trace), ids, stop, k, routed.error);
        return Err(routed.error);
      }
      records, finished := routed.value.0, routed.value.1;
    }
    assert trace[..|trace|] == trace;
    EndingCheck(records, finished, Flatten(trace), ids, stop);
    if finished != Ids(identities) || exists id :: id in records && records[id].tokens == [] {
      return Err(EndedEarly);
    }
    return Ok((records, steps));
  }
}
