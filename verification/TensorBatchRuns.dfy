/** Whole runs of the tensor-batch adapter: any sequence of calls, failures and resets. */
module TensorBatchRuns {
  import opened Wrappers
  import opened SlotOrder
  import opened TensorBatchAdapter

  datatype Event<D, !P, !M, !O> =
    | Called(requests: seq<Request<D>>, model: Model<P, M, O>, recorded: bool,
             answer: Result<seq<Reply<O>>, InferError>)
    | Reset(session: string)

  ghost predicate Step<D, P, M, O>(s: State<M>, s': State<M>, e: Event<D, P, M, O>, cfg: Config<D, P>) {
    match e
    case Called(requests, model, recorded, answer) => InferStep(s, s', answer, requests, model, recorded, cfg)
    case Reset(session) => s' == Forgotten(s, session, cfg.residentKv)
  }

  ghost predicate IsRun<D, P, M, O>(states: seq<State<M>>, events: seq<Event<D, P, M, O>>, cfg: Config<D, P>) {
    && |states| == |events| + 1 && states[0] == State(map[], 0, false, 0)
    && forall k :: 0 <= k < |events| ==> Step(states[k], states[k + 1], events[k], cfg)
  }

  // ---- one call ----

  /** A raising call changes no memory and no index; it never clears the latch. */
  lemma RaisingChangesNothing<D, P, M, O>(s: State<M>, s': State<M>, r: Result<seq<Reply<O>>, InferError>,
                                          requests: seq<Request<D>>,
                                          model: Model<P, M, O>, recorded: bool, cfg: Config<D, P>)
    requires InferStep(s, s', r, requests, model, recorded, cfg) && r.Err?
    ensures s'.memories == s.memories && s'.index == s.index && (s.failed ==> s'.failed)
  {
  }

  /** Which raising calls close the latch: those that reached the model, except a model that
      returned clean, recorded rows in the wrong number. */
  lemma LatchIff<D, P, M, O>(s: State<M>, s': State<M>, r: Result<seq<Reply<O>>, InferError>, requests: seq<Request<D>>,
                             model: Model<P, M, O>, recorded: bool, cfg: Config<D, P>)
    requires InferStep(s, s', r, requests, model, recorded, cfg) && r.Err? && Refusal(requests, cfg).None? && !s.failed
    ensures forall i :: 0 <= i < |Ordered(requests)| ==> ImageOk(Ordered(requests)[i], cfg)
    ensures var phase := model(Inputs(Ordered(requests), s.memories, cfg));
            s'.failed <==> !(phase.Ran? && AllFinite(phase.rows) && recorded)
  {
    RefusedNot(requests, cfg);
  }

  /** A model that returns too few clean rows raises, yet leaves the adapter in use: the very
      next call may commit. */
  lemma WrongCountKeepsAdapterOpen<D, P, M, O>(s: State<M>, s1: State<M>, s2: State<M>,
                                               r1: Result<seq<Reply<O>>, InferError>,
      r2: Result<seq<Reply<O>>, InferError>, requests: seq<Request<D>>, empty: Model<P, M, O>, good: Model<P, M, O>,
      cfg: Config<D, P>)
    requires !s.failed && Refusal(requests, cfg).None?
    requires forall xs :: empty(xs) == Ran([])
    requires forall xs :: Clean(good(xs), true, |xs|)
    requires InferStep(s, s1, r1, requests, empty, true, cfg) && InferStep(s1, s2, r2, requests, good, true, cfg)
    ensures r1 == Err(WrongCount) && s1 == s && r2.Ok? && s2.index == s.index + 1
  {
    RefusedNot(requests, cfg);
  }

  /** One slot, one request with one image, a model that returns no row: the call raises, and the
      same request commits on the next one. */
  lemma NoRowsThenCommit()
    ensures var cfg := Config(1, false, (pixels: nat) => Some(pixels));
            var request := Request("a", Some(0), [Image("observation.images.rgb", 5)], "go");
            var empty: Model<nat, nat, nat> := rows => Ran([]);
            var good: Model<nat, nat, nat> := rows => Ran(seq(|rows|, k => Decoded(3, 7, true)));
            var start: State<nat> := State(map[], 0, false, 0);
            && InferStep(start, start, Err(WrongCount), [request], empty, true, cfg)
            && InferStep(start, State(map["a" := 3], 1, false, 0), Ok([Reply(7, 0, 1)]), [request], good, true, cfg)
  {
    var cfg := Config(1, false, (pixels: nat) => Some(pixels));
    var request := Request("a", Some(0), [Image("observation.images.rgb", 5)], "go");
    var requests := [request];
    assert request in requests && ImageOk(request, cfg);
    assert Refusal(requests, cfg).None?;
    OrderedFacts(requests, 1);
    assert Ordered(requests)[0] in Ordered(requests);
    assert Ordered(requests) == requests;
    assert Serves(requests, "a") by {
      assert requests[0].session == "a";
    }
  }

  /** The same call with its requests in another arrival order: refused for the same reason or not
      at all, same memories, and each request gets the same reply. */
  lemma PermutedCallsAgree<D, P, M, O>(s: State<M>, s1: State<M>, r1: Result<seq<Reply<O>>, InferError>, s2: State<M>,
      r2: Result<seq<Reply<O>>, InferError>, requests: seq<Request<D>>, p: seq<nat>, model: Model<P, M, O>,
      recorded: bool, cfg: Config<D, P>)
    requires IsPermutation(p, |requests|)
    requires InferStep(s, s1, r1, requests, model, recorded, cfg)
    requires InferStep(s, s2, r2, Permuted(requests, p), model, recorded, cfg)
    ensures s1 == s2 && r1.Ok? == r2.Ok? && (r1.Err? ==> r2 == r1)
    ensures r1.Ok? ==>
              |r1.value| == |r2.value| == |requests|
              && forall i :: 0 <= i < |requests| ==> r2.value[i] == r1.value[p[i]]
  {
    PermutedRefusal(requests, p, cfg);
    if Refusal(requests, cfg).None? {
      AcceptedAgree(s, s1, r1, s2, r2, requests, p, model, recorded, cfg);
    }
  }

  lemma AcceptedAgree<D, P, M, O>(s: State<M>, s1: State<M>, r1: Result<seq<Reply<O>>, InferError>, s2: State<M>,
      r2: Result<seq<Reply<O>>, InferError>, requests: seq<Request<D>>, p: seq<nat>, model: Model<P, M, O>,
      recorded: bool, cfg: Config<D, P>)
    requires IsPermutation(p, |requests|) && Refusal(requests, cfg).None? && Refusal(Permuted(requests, p), cfg).None?
    requires InferStep(s, s1, r1, requests, model, recorded, cfg)
    requires InferStep(s, s2, r2, Permuted(requests, p), model, recorded, cfg)
    ensures s1 == s2 && r1.Ok? == r2.Ok? && (r1.Err? ==> r2 == r1)
    ensures r1.Ok? ==>
              |r1.value| == |r2.value| == |requests|
              && forall i :: 0 <= i < |requests| ==> r2.value[i] == r1.value[p[i]]
  {
    var permuted := Permuted(requests, p);
    RefusedNot(requests, cfg);
    RefusedNot(permuted, cfg);
    ArrivalOrderIrrelevant(requests, p, cfg.capacity);
    var ordered := Ordered(requests);
    if r1.Ok? {
      var rows := model(Inputs(ordered, s.memories, cfg)).rows;
      CommittedUnique(s1.memories, s2.memories, s.memories, ordered, rows);
      OrderedFacts(requests, cfg.capacity);
      forall i | 0 <= i < |requests| ensures r2.value[i] == r1.value[p[i]] {
        assert permuted[i] == requests[p[i]];
        assert requests[p[i]] in ordered;
        var k :| 0 <= k < |ordered| && ordered[k] == requests[p[i]];
      }
    }
  }

  /** Arrival order decides neither whether a call is refused nor why. */
  lemma PermutedRefusal<D, P>(requests: seq<Request<D>>, p: seq<nat>, cfg: Config<D, P>)
    requires IsPermutation(p, |requests|)
    ensures Refusal(Permuted(requests, p), cfg) == Refusal(requests, cfg)
  {
    var permuted := Permuted(requests, p);
    PermutedValid(requests, p, cfg.capacity);
    PermutedSame(requests, p);
    if i :| 0 <= i < |requests| && !ImageOk(requests[i], cfg) {
      assert requests[i] in permuted;
    }
    if i :| 0 <= i < |p| && !ImageOk(permuted[i], cfg) {
      assert permuted[i] in requests;
    }
  }

  lemma CommittedUnique<D, M, O>(after1: map<string, M>, after2: map<string, M>, before: map<string, M>,
                                 ordered: seq<Request<D>>,
                                 rows: seq<Decoded<M, O>>)
    requires |rows| == |ordered| && Committed(after1, before, ordered, rows) && Committed(after2, before, ordered, rows)
    ensures after1 == after2
  {
    forall x | x in after1 ensures x in after2 && after2[x] == after1[x] {
      if Serves(ordered, x) {
        var k :| 0 <= k < |ordered| && ordered[k].session == x;
      }
    }
    forall x | x in after2 ensures x in after1 {
      if Serves(ordered, x) {
        var k :| 0 <= k < |ordered| && ordered[k].session == x;
      }
    }
  }

  // ---- the latch over whole runs ----

  /** Once the model phase has failed, no later call commits and no session gains a memory. */
  lemma {:induction false} OnceFailed<D, P, M, O>(states: seq<State<M>>, events: seq<Event<D, P, M, O>>,
                                                  cfg: Config<D, P>, k: nat, m: nat)
    requires IsRun(states, events, cfg) && k <= m < |states| && states[k].failed
    ensures states[m].failed && states[m].index == states[k].index
    ensures forall x :: x in states[m].memories ==>
              x in states[k].memories && states[m].memories[x] == states[k].memories[x]
    ensures m < |events| && events[m].Called? ==> events[m].answer.Err?
    decreases m
  {
    if k < m {
      OnceFailed(states, events, cfg, k, m - 1);
      assert Step(states[m - 1], states[m], events[m - 1], cfg);
    }
    if m < |events| {
      assert Step(states[m], states[m + 1], events[m], cfg);
    }
  }

  function Successes<D, P, M, O>(events: seq<Event<D, P, M, O>>): nat {
    if events == [] then 0 else
      Successes(events[..|events| - 1]) + (var e := events[|events| - 1]; if e.Called? && e.answer.Ok? then 1 else 0)
  }

  /** The batch index counts exactly the successful calls. */
  lemma {:induction false} IndexCounts<D, P, M, O>(states: seq<State<M>>, events: seq<Event<D, P, M, O>>,
                                                   cfg: Config<D, P>)
    requires IsRun(states, events, cfg)
    ensures states[|events|].index == Successes(events)
  {
    if events != [] {
      var n := |events| - 1;
      IndexCounts(states[..n + 1], events[..n], cfg);
      assert Step(states[n], states[n + 1], events[n], cfg);
    }
  }

  // ---- resident memory is reset with every session that held something ----

  /** The session had a successful call since its last reset, from the event log alone. */
  ghost predicate Held<D, P, M, O>(events: seq<Event<D, P, M, O>>, session: string) {
    exists k :: 0 <= k < |events| && events[k].Called? && events[k].answer.Ok?
                && (exists i :: 0 <= i < |events[k].requests| && events[k].requests[i].session == session)
                && forall j :: k < j < |events| ==> events[j] != Event<D, P, M, O>.Reset(session)
  }

  /** How many resets met a session that held something. */
  ghost function HeldResets<D(!new), P(!new), M(!new), O(!new)>(events: seq<Event<D, P, M, O>>): nat {
    if events == [] then 0
    else
      var n := |events| - 1;
      HeldResets(events[..n]) + if events[n].Reset? && Held(events[..n], events[n].session) then 1 else 0
  }

  lemma HeldNext<D, P, M, O>(events: seq<Event<D, P, M, O>>, session: string)
    requires events != []
    ensures var n := |events| - 1;
            Held(events, session) <==>
              if events[n].Reset? && events[n].session == session then false
              else if events[n].Called? && events[n].answer.Ok? && Serves(events[n].requests, session) then true
              else Held(events[..n], session)
  {
    var n := |events| - 1;
    if Held(events[..n], session) && events[n] != Event<D, P, M, O>.Reset(session) {
      var k :| 0 <= k < n && events[..n][k].Called? && events[..n][k].answer.Ok?
        && (exists i :: 0 <= i < |events[..n][k].requests| && events[..n][k].requests[i].session == session)
        && forall j :: k < j < n ==> events[..n][j] != Event<D, P, M, O>.Reset(session);
      assert events[k] == events[..n][k];
      assert forall j :: k < j < n ==> events[j] == events[..n][j];
    }
    if events[n].Called? && events[n].answer.Ok? && Serves(events[n].requests, session) {
      assert events[n].Called?;
    }
    if Held(events, session) {
      var k :| 0 <= k < |events| && events[k].Called? && events[k].answer.Ok?
        && (exists i :: 0 <= i < |events[k].requests| && events[k].requests[i].session == session)
        && forall j :: k < j < |events| ==> events[j] != Event<D, P, M, O>.Reset(session);
      if k < n {
        assert events[..n][k] == events[k];
        assert forall j :: k < j < n ==> events[..n][j] == events[j];
      }
    }
  }

  /** A session holds a memory exactly when the log says so. */
  lemma {:induction false} HoldsIff<D, P(!new), M(!new), O(!new)>(states: seq<State<M>>, events: seq<Event<D, P, M, O>>,
                                                cfg: Config<D, P>, session: string)
    requires IsRun(states, events, cfg)
    ensures session in states[|events|].memories <==> Held(events, session)
  {
    if events != [] {
      var n := |events| - 1;
      HoldsIff(states[..n + 1], events[..n], cfg, session);
      HeldNext(events, session);
      assert Step(states[n], states[n + 1], events[n], cfg);
      if events[n].Called? {
        HeldAfterCall(states[n], states[n + 1], events[n], cfg, session);
      }
    }
  }

  lemma HeldAfterCall<D, P(!new), M(!new), O(!new)>(s: State<M>, s': State<M>, e: Event<D, P, M, O>, cfg: Config<D, P>,
                                                    session: string)
    requires Step(s, s', e, cfg) && e.Called?
    ensures session in s'.memories <==> session in s.memories || (e.answer.Ok? && Serves(e.requests, session))
  {
    CallPlainly(s, s', e.answer, e.requests, e.model, e.recorded, cfg);
    if e.answer.Ok? {
      var at, rows, inputs :| ServedBy(at, rows, inputs, s, s', e.answer.value, e.requests, e.model, cfg);
      if Serves(e.requests, session) {
        var i: nat :| i < |e.requests| && e.requests[i].session == session;
        assert i in at;
        var k :| 0 <= k < |at| && at[k] == i;
      }
    }
  }

  /** Resident memory was reset as often as a session was that held something, never without resident KV. */
  lemma {:induction false} ResetsCount<D(!new), P(!new), M(!new), O(!new)>(states: seq<State<M>>,
                                                                          events: seq<Event<D, P, M, O>>,
                                                                          cfg: Config<D, P>)
    requires IsRun(states, events, cfg)
    ensures states[|events|].residentResets == if cfg.residentKv then HeldResets(events) else 0
  {
    if events != [] {
      var n := |events| - 1;
      ResetsCount(states[..n + 1], events[..n], cfg);
      assert Step(states[n], states[n + 1], events[n], cfg);
      match events[n]
      case Called(requests, model, recorded, answer) =>
        CallPlainly(states[n], states[n + 1], answer, requests, model, recorded, cfg);
      case Reset(session) =>
        HoldsIff(states[..n + 1], events[..n], cfg, session);
    }
  }

  // ---- a session's memory is the fold of its own successful calls since its reset ----

  /** Whenever the model returns a row per input, each row comes from its own input. */
  ghost predicate RowWise<P(!new), M(!new), O>(model: Model<P, M, O>,
                                               step: (Observation<P>, Option<M>) -> Decoded<M, O>) {
    forall xs: seq<(Observation<P>, Option<M>)> :: model(xs).Ran? && |model(xs).rows| == |xs| ==>
      forall k :: 0 <= k < |xs| ==> model(xs).rows[k] == step(xs[k].0, xs[k].1)
  }

  ghost predicate AllRowWise<D, P(!new), M(!new), O>(events: seq<Event<D, P, M, O>>,
                                                     step: (Observation<P>, Option<M>) -> Decoded<M, O>) {
    forall k :: 0 <= k < |events| && events[k].Called? ==> RowWise(events[k].model, step)
  }

  function Fold<P, M, O>(step: (Observation<P>, Option<M>) -> Decoded<M, O>, seen: seq<Observation<P>>): Option<M> {
    if seen == [] then None else Some(step(seen[|seen| - 1], Fold(step, seen[..|seen| - 1])).memory)
  }

  /** The request of a session in a batch. */
  function RowFor<D>(requests: seq<Request<D>>, session: string): Option<Request<D>> {
    if requests == [] then None
    else if requests[0].session == session then Some(requests[0])
    else RowFor(requests[1..], session)
  }

  lemma {:induction false} RowForFacts<D>(requests: seq<Request<D>>, session: string)
    ensures RowFor(requests, session).Some? <==> Serves(requests, session)
    ensures RowFor(requests, session).Some? ==> RowFor(requests, session).value in requests
                                                && RowFor(requests, session).value.session == session
  {
    if requests != [] {
      RowForFacts(requests[1..], session);
      assert requests == [requests[0]] + requests[1..];
      if Serves(requests[1..], session) {
        var k :| 0 <= k < |requests[1..]| && requests[1..][k].session == session;
        assert requests[k + 1].session == session;
      }
      if Serves(requests, session) {
        var k :| 0 <= k < |requests| && requests[k].session == session;
        assert k > 0 ==> requests[1..][k - 1].session == session;
      }
    }
  }

  /** What a session saw in its successful calls since its last reset, from the event log alone. */
  function Since<D, P, M, O>(events: seq<Event<D, P, M, O>>, session: string, cfg: Config<D, P>): seq<Observation<P>> {
    if events == [] then [] else
      var before := Since(events[..|events| - 1], session, cfg);
      match events[|events| - 1]
      case Reset(x) => if x == session then [] else before
      case Called(requests, _, _, answer) =>
        var row := RowFor(requests, session);
        if answer.Ok? && row.Some? && ImageOk(row.value, cfg) then before + [Observed(row.value, cfg)] else before
  }

  lemma CommitFolds<D, P(!new), M(!new), O>(s: State<M>, s': State<M>, e: Event<D, P, M, O>, cfg: Config<D, P>,
                                            session: string,
                                step: (Observation<P>, Option<M>) -> Decoded<M, O>)
    requires Step(s, s', e, cfg) && e.Called? && e.answer.Ok? && RowWise(e.model, step)
    ensures var row := RowFor(e.requests, session);
            if row.None? then MemoryOf(s'.memories, session) == MemoryOf(s.memories, session)
            else ImageOk(row.value, cfg)
                 && MemoryOf(s'.memories, session)
                    == Some(step(Observed(row.value, cfg), MemoryOf(s.memories, session)).memory)
  {
    var requests := e.requests;
    RefusedNot(requests, cfg);
    OrderedFacts(requests, cfg.capacity);
    RowForFacts(requests, session);
    var ordered := Ordered(requests);
    var row := RowFor(requests, session);
    if row.Some? {
      assert row.value in ordered;
      var k :| 0 <= k < |ordered| && ordered[k] == row.value;
      assert Inputs(ordered, s.memories, cfg)[k] == (Observed(row.value, cfg), MemoryOf(s.memories, session));
    }
  }

  /** Over every run: the memory of a session is the fold of exactly its successful calls
      since its last reset. */
  lemma {:induction false} MemoryIsFold<D, P(!new), M(!new), O>(states: seq<State<M>>, events: seq<Event<D, P, M, O>>,
                                                                cfg: Config<D, P>,
                                                    session: string, step: (Observation<P>, Option<M>) -> Decoded<M, O>)
    requires IsRun(states, events, cfg) && AllRowWise(events, step)
    ensures MemoryOf(states[|events|].memories, session) == Fold(step, Since(events, session, cfg))
  {
    if events != [] {
      var n := |events| - 1;
      MemoryIsFold(states[..n + 1], events[..n], cfg, session, step);
      var e := events[n];
      assert Step(states[n], states[n + 1], e, cfg);
      if e.Called? && e.answer.Ok? {
        CommitFolds(states[n], states[n + 1], e, cfg, session, step);
      }
    }
  }
}
