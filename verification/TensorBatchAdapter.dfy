/** The transactional tensor-batch adapter: requests are put into slot order, one model call
    may fail at any point, and the memories of all sessions are committed or of none. */
module TensorBatchAdapter {
  import opened Wrappers
  import opened SlotOrder

  datatype Observation<P> = Observation(pixels: P, instruction: string)

  datatype Decoded<M, O> = Decoded(memory: M, output: O, finite: bool)

  /** What the model phase of one call did: it raised, or it returned some rows. */
  datatype Phase<M, O> = Raised | Ran(rows: seq<Decoded<M, O>>)

  type Model<!P, !M, !O> = seq<(Observation<P>, Option<M>)> -> Phase<M, O>

  datatype Reply<O> = Reply(output: O, index: nat, observations: nat)

  datatype InferError = BadOccupancy | BadSlot | Duplicate | BadImage | Invalidated | ModelFailed | WrongCount

  datatype Config<!D, !P> = Config(capacity: nat, residentKv: bool, decode: D -> Option<P>)

  datatype State<M> = State(memories: map<string, M>, index: nat, failed: bool, residentResets: nat)

  // ---- what one call and one reset must do ----

  predicate ImageOk<D, P>(request: Request<D>, cfg: Config<D, P>) {
    |request.images| == 1 && request.images[0].name == "observation.images.rgb"
    && cfg.decode(request.images[0].data).Some?
  }

  /** Why a call is refused before the model is touched. */
  function Refusal<D, P>(requests: seq<Request<D>>, cfg: Config<D, P>): Option<InferError> {
    if requests == [] || |requests| > cfg.capacity then Some(BadOccupancy)
    else if !ValidSlots(requests, cfg.capacity) then Some(BadSlot)
    else if !DistinctSlots(requests) || !DistinctSessions(requests) then Some(Duplicate)
    else if exists i :: 0 <= i < |requests| && !ImageOk(requests[i], cfg) then Some(BadImage)
    else None
  }

  function Observed<D, P>(request: Request<D>, cfg: Config<D, P>): Observation<P>
    requires ImageOk(request, cfg)
  {
    Observation(cfg.decode(request.images[0].data).value, request.instruction)
  }

  function MemoryOf<M>(memories: map<string, M>, session: string): Option<M> {
    if session in memories then Some(memories[session]) else None
  }

  /** The rows handed to the model, in slot order. */
  function Inputs<D, P, M>(ordered: seq<Request<D>>, memories: map<string, M>,
                           cfg: Config<D, P>): seq<(Observation<P>, Option<M>)>
    requires forall i :: 0 <= i < |ordered| ==> ImageOk(ordered[i], cfg)
  {
    seq(|ordered|, k requires 0 <= k < |ordered| => (Observed(ordered[k], cfg), MemoryOf(memories, ordered[k].session)))
  }

  predicate AllFinite<M, O>(rows: seq<Decoded<M, O>>) {
    forall k :: 0 <= k < |rows| ==> rows[k].finite
  }

  /** The call succeeds: enough rows, all finite, and the evidence was recorded. */
  predicate Clean<M, O>(phase: Phase<M, O>, recorded: bool, n: nat) {
    phase.Ran? && AllFinite(phase.rows) && recorded && |phase.rows| == n
  }

  ghost predicate Serves<D>(requests: seq<Request<D>>, session: string) {
    exists k :: 0 <= k < |requests| && requests[k].session == session
  }

  /** Every session of the batch gets its row's memory, nothing else changes. */
  ghost predicate Committed<D, M, O>(after: map<string, M>, before: map<string, M>, ordered: seq<Request<D>>,
                                     rows: seq<Decoded<M, O>>)
    requires |rows| == |ordered|
  {
    && (forall k :: 0 <= k < |ordered| ==> ordered[k].session in after && after[ordered[k].session] == rows[k].memory)
    && (forall s :: s in before ==> s in after)
    && (forall s :: s in after ==> Serves(ordered, s) || (s in before && after[s] == before[s]))
  }

  /** Reply `i` answers request `i`, whatever row of the batch it was. */
  ghost predicate Answered<D, M, O>(replies: seq<Reply<O>>, requests: seq<Request<D>>, ordered: seq<Request<D>>,
                                    rows: seq<Decoded<M, O>>, index: nat)
    requires |rows| == |ordered|
  {
    && |replies| == |requests|
    && forall i, k :: 0 <= i < |requests| && 0 <= k < |ordered| && requests[i] == ordered[k] ==>
         replies[i] == Reply(rows[k].output, index, |requests|)
  }

  /** The model phase of one call: commit all and answer, or change nothing but the latch. */
  ghost predicate RanStep<D, M, O>(s: State<M>, s': State<M>, r: Result<seq<Reply<O>>, InferError>,
                                   requests: seq<Request<D>>,
                                   ordered: seq<Request<D>>, phase: Phase<M, O>, recorded: bool)
    requires |ordered| == |requests|
  {
    if Clean(phase, recorded, |requests|) then
      && s' == s.(memories := s'.memories, index := s.index + 1)
      && Committed(s'.memories, s.memories, ordered, phase.rows)
      && r.Ok? && Answered(r.value, requests, ordered, phase.rows, s.index)
    else if phase.Ran? && AllFinite(phase.rows) && recorded then s' == s && r == Err(WrongCount)
    else s' == s.(failed := true) && r == Err(ModelFailed)
  }

  /** One call, as a relation between the state before, the answer, and the state after. */
  ghost predicate InferStep<D, P, M, O>(s: State<M>, s': State<M>, r: Result<seq<Reply<O>>, InferError>,
                                        requests: seq<Request<D>>,
                                        model: Model<P, M, O>, recorded: bool, cfg: Config<D, P>)
  {
    if Refusal(requests, cfg).Some? then s' == s && r == Err(Refusal(requests, cfg).value)
    else if s.failed then s' == s && r == Err(Invalidated)
    else
      RefusedNot(requests, cfg);
      RanStep(s, s', r, requests, Ordered(requests), model(Inputs(Ordered(requests), s.memories, cfg)), recorded)
  }

  lemma RefusedNot<D, P>(requests: seq<Request<D>>, cfg: Config<D, P>)
    requires Refusal(requests, cfg).None?
    ensures requests != [] && DistinctSessions(requests)
    ensures forall i :: 0 <= i < |Ordered(requests)| ==> ImageOk(Ordered(requests)[i], cfg)
  {
    OrderedFacts(requests, cfg.capacity);
    ImagesInOrder(requests, Ordered(requests), cfg);
  }

  function Forgotten<M>(s: State<M>, session: string, residentKv: bool): State<M> {
    State(map x | x in s.memories && x != session :: s.memories[x], s.index, s.failed,
          s.residentResets + if session in s.memories && residentKv then 1 else 0)
  }

  // ---- one call in terms of its requests alone ----

  /** The request carries one image, under the name the benchmark uses, that can be decoded. */
  ghost predicate OneImage<D, P>(request: Request<D>, cfg: Config<D, P>) {
    |request.images| == 1 && request.images[0].name == "observation.images.rgb"
    && cfg.decode(request.images[0].data) != None
  }

  /** The requests may be served: not too many, distinct slots in range, distinct sessions, an image each. */
  ghost predicate Servable<D, P>(requests: seq<Request<D>>, cfg: Config<D, P>) {
    && 1 <= |requests| <= cfg.capacity
    && (forall i :: 0 <= i < |requests| ==>
          && requests[i].slot.Some? && 0 <= requests[i].slot.value < cfg.capacity && OneImage(requests[i], cfg))
    && forall i, j :: 0 <= i < j < |requests| ==>
         requests[i].slot != requests[j].slot && requests[i].session != requests[j].session
  }

  /** What a refusal that comes before the model says of the requests. */
  ghost predicate Blames<D, P>(e: InferError, requests: seq<Request<D>>, cfg: Config<D, P>) {
    match e
    case BadOccupancy => requests == [] || |requests| > cfg.capacity
    case BadSlot =>
      exists i :: 0 <= i < |requests|
                  && (requests[i].slot == None || requests[i].slot.value < 0 || requests[i].slot.value >= cfg.capacity)
    case Duplicate =>
      exists i, j :: 0 <= i < j < |requests|
                     && (requests[i].slot == requests[j].slot || requests[i].session == requests[j].session)
    case BadImage => exists i :: 0 <= i < |requests| && !OneImage(requests[i], cfg)
    case _ => Servable(requests, cfg)
  }

  /** The places of the requests by ascending slot. */
  ghost predicate BySlots<D>(at: seq<nat>, requests: seq<Request<D>>) {
    && |at| == |requests| && (forall k :: 0 <= k < |at| ==> at[k] < |requests| && requests[at[k]].slot.Some?)
    && (forall i: nat :: i < |requests| ==> i in at)
    && forall i, j :: 0 <= i < j < |at| ==> requests[at[i]].slot.value < requests[at[j]].slot.value
  }

  /** The request's own image, instruction and memory. */
  ghost predicate InputOf<D, P, M>(input: (Observation<P>, Option<M>), request: Request<D>, memories: map<string, M>,
                                   cfg: Config<D, P>) {
    && OneImage(request, cfg) && Some(input.0.pixels) == cfg.decode(request.images[0].data)
    && input.0.instruction == request.instruction
    && input.1 == if request.session in memories then Some(memories[request.session]) else None
  }

  /** The model's inputs are those of the requests by ascending slot. */
  ghost predicate Asked<D, P, M>(at: seq<nat>, inputs: seq<(Observation<P>, Option<M>)>, memories: map<string, M>,
                                 requests: seq<Request<D>>, cfg: Config<D, P>) {
    && BySlots(at, requests) && |inputs| == |requests|
    && forall k :: 0 <= k < |inputs| ==> InputOf(inputs[k], requests[at[k]], memories, cfg)
  }

  /** The model raised, or a row is nonfinite, or the evidence was not recorded. */
  ghost predicate Failing<M, O>(phase: Phase<M, O>, recorded: bool) {
    phase == Raised || !recorded || exists k :: 0 <= k < |phase.rows| && !phase.rows[k].finite
  }

  /** Row `k` of the model answers the request with the `k`-th smallest slot: its output goes to that
      request and its memory to that session. */
  ghost predicate ServedBy<D, P, M, O>(at: seq<nat>, rows: seq<Decoded<M, O>>, inputs: seq<(Observation<P>, Option<M>)>,
                                       s: State<M>, s': State<M>, replies: seq<Reply<O>>, requests: seq<Request<D>>,
                                       model: Model<P, M, O>, cfg: Config<D, P>) {
    && Asked(at, inputs, s.memories, requests, cfg) && |rows| == |requests| == |replies| && model(inputs) == Ran(rows)
    && (forall k :: 0 <= k < |rows| ==>
          && rows[k].finite
          && replies[at[k]] == Reply(rows[k].output, s.index, |requests|)
          && requests[at[k]].session in s'.memories && s'.memories[requests[at[k]].session] == rows[k].memory)
    && (forall x :: x in s.memories ==> x in s'.memories)
    && forall x :: x in s'.memories && (forall i :: 0 <= i < |requests| ==> requests[i].session != x) ==>
         x in s.memories && s'.memories[x] == s.memories[x]
  }

  /** A successful call serves its requests; a refused one changes nothing but the latch. */
  ghost predicate PlainCall<D, P(!new), M(!new), O(!new)>(s: State<M>, s': State<M>,
                                                          r: Result<seq<Reply<O>>, InferError>,
                                        requests: seq<Request<D>>, model: Model<P, M, O>, recorded: bool,
                                        cfg: Config<D, P>)
  {
    && s'.residentResets == s.residentResets
    && (r.Ok? ==>
        && Servable(requests, cfg) && !s.failed && recorded && !s'.failed && s'.index == s.index + 1
        && exists at, rows, inputs :: ServedBy(at, rows, inputs, s, s', r.value, requests, model, cfg))
    && (r.Err? ==>
        && Blames(r.error, requests, cfg) && s'.memories == s.memories && s'.index == s.index
        && (s'.failed <==> s.failed || r.error == ModelFailed) && (r.error == Invalidated ==> s.failed)
        && (r.error in {ModelFailed, WrongCount} ==>
            && !s.failed
            && exists at, inputs ::
                 Asked(at, inputs, s.memories, requests, cfg)
                 && (r.error == ModelFailed <==> Failing(model(inputs), recorded))
                 && (r.error == WrongCount ==> |model(inputs).rows| != |requests|)))
  }

  lemma RefusalPlainly<D, P>(requests: seq<Request<D>>, cfg: Config<D, P>)
    ensures Refusal(requests, cfg).Some? ==>
              Blames(Refusal(requests, cfg).value, requests, cfg)
              && Refusal(requests, cfg).value in {BadOccupancy, BadSlot, Duplicate, BadImage}
    ensures Refusal(requests, cfg).None? ==> Servable(requests, cfg)
  {
    forall i | 0 <= i < |requests| ensures ImageOk(requests[i], cfg) <==> OneImage(requests[i], cfg) {
    }
  }

  lemma OrderPlainly<D>(requests: seq<Request<D>>, capacity: nat)
    requires ValidSlots(requests, capacity) && DistinctSlots(requests)
    ensures BySlots(Order(requests, |requests|), requests)
  {
    OrderComplete(requests, |requests|);
    OrderAscending(requests, |requests|, capacity);
  }

  lemma InputsPlainly<D, P, M>(requests: seq<Request<D>>, memories: map<string, M>, cfg: Config<D, P>)
    requires Refusal(requests, cfg).None?
    requires forall i :: 0 <= i < |Ordered(requests)| ==> ImageOk(Ordered(requests)[i], cfg)
    ensures Asked(Order(requests, |requests|), Inputs(Ordered(requests), memories, cfg), memories, requests, cfg)
  {
    var at, ordered := Order(requests, |requests|), Ordered(requests);
    OrderPlainly(requests, cfg.capacity);
    forall k | 0 <= k < |requests| ensures InputOf(Inputs(ordered, memories, cfg)[k], requests[at[k]], memories, cfg) {
      assert ordered[k] == requests[at[k]];
    }
  }

  lemma CommittedPlainly<D, P, M, O>(s: State<M>, s': State<M>, replies: seq<Reply<O>>, requests: seq<Request<D>>,
                                     rows: seq<Decoded<M, O>>, model: Model<P, M, O>, cfg: Config<D, P>)
    requires Refusal(requests, cfg).None?
    requires forall i :: 0 <= i < |Ordered(requests)| ==> ImageOk(Ordered(requests)[i], cfg)
    requires model(Inputs(Ordered(requests), s.memories, cfg)) == Ran(rows) && AllFinite(rows)
             && |rows| == |requests|
    requires Committed(s'.memories, s.memories, Ordered(requests), rows)
    requires Answered(replies, requests, Ordered(requests), rows, s.index)
    ensures ServedBy(Order(requests, |requests|), rows, Inputs(Ordered(requests), s.memories, cfg), s, s', replies,
                     requests, model, cfg)
  {
    var at, ordered := Order(requests, |requests|), Ordered(requests);
    InputsPlainly(requests, s.memories, cfg);
    forall k | 0 <= k < |rows|
      ensures replies[at[k]] == Reply(rows[k].output, s.index, |requests|)
      ensures requests[at[k]].session in s'.memories && s'.memories[requests[at[k]].session] == rows[k].memory
    {
      assert ordered[k] == requests[at[k]];
    }
    forall x | x in s'.memories && (forall i :: 0 <= i < |requests| ==> requests[i].session != x)
      ensures x in s.memories && s'.memories[x] == s.memories[x]
    {
      assert !Serves(ordered, x);
    }
  }

  /** The relation of one call, in terms of its requests alone. */
  lemma CallPlainly<D, P(!new), M(!new), O(!new)>(s: State<M>, s': State<M>, r: Result<seq<Reply<O>>, InferError>,
                                requests: seq<Request<D>>, model: Model<P, M, O>, recorded: bool, cfg: Config<D, P>)
    requires InferStep(s, s', r, requests, model, recorded, cfg)
    ensures PlainCall(s, s', r, requests, model, recorded, cfg)
  {
    RefusalPlainly(requests, cfg);
    if Refusal(requests, cfg).None? {
      RefusedNot(requests, cfg);
      InputsPlainly(requests, s.memories, cfg);
      if r.Ok? {
        var inputs := Inputs(Ordered(requests), s.memories, cfg);
        var rows := model(inputs).rows;
        CommittedPlainly(s, s', r.value, requests, rows, model, cfg);
        assert ServedBy(Order(requests, |requests|), rows, inputs, s, s', r.value, requests, model, cfg);
      }
    }
  }

  class TensorBatchAdapter<D(!new), P(!new), M(!new), O(!new)> {
    const cfg: Config<D, P>
    var memories: map<string, M>
    var index: nat
    var failed: bool
    var residentResets: nat

    constructor (cfg: Config<D, P>)
      ensures this.cfg == cfg && Now() == State(map[], 0, false, 0)
    {
      this.cfg, memories, index, failed, residentResets := cfg, map[], 0, false, 0;
    }

    ghost function Now(): State<M>
      reads this
    {
      State(memories, index, failed, residentResets)
    }

    /** Decodes one image per request, in slot order. */
    method Decode(ordered: seq<Request<D>>) returns (images: seq<P>, ok: bool)
      ensures ok <==> forall i :: 0 <= i < |ordered| ==> ImageOk(ordered[i], cfg)
      ensures ok ==>
                |images| == |ordered|
                && forall i :: 0 <= i < |ordered| ==>
                     Observation(images[i], ordered[i].instruction) == Observed(ordered[i], cfg)
    {
      images := [];
      for i := 0 to |ordered|
        invariant |images| == i
                  && forall k :: 0 <= k < i ==>
                       ImageOk(ordered[k], cfg) && images[k] == Observed(ordered[k], cfg).pixels
      {
        if |ordered[i].images| != 1 || ordered[i].images[0].name != "observation.images.rgb" {
          return images, false;
        }
        var pixels := cfg.decode(ordered[i].images[0].data);
        if pixels.None? {
          return images, false;
        }
        images := images + [pixels.value];
      }
      ok := true;
    }

    /** Builds the outputs of the batch, unless one of them is nonfinite. */
    method Outputs(rows: seq<Decoded<M, O>>, observations: nat) returns (outputs: seq<Reply<O>>, ok: bool)
      ensures ok <==> AllFinite(rows)
      ensures ok ==>
                |outputs| == |rows|
                && forall k :: 0 <= k < |rows| ==> outputs[k] == Reply(rows[k].output, index, observations)
    {
      outputs := [];
      for k := 0 to |rows|
        invariant |outputs| == k
                  && forall j :: 0 <= j < k ==>
                       rows[j].finite && outputs[j] == Reply(rows[j].output, index, observations)
      {
        if !rows[k].finite {
          return outputs, false;
        }
        outputs := outputs + [Reply(rows[k].output, index, observations)];
      }
      ok := true;
    }

    /** Puts the outputs of the ordered rows back in arrival order. */
    method Restore(requests: seq<Request<D>>, order: seq<nat>, outputs: seq<Reply<O>>) returns (restored: seq<Reply<O>>)
      requires |order| == |outputs| == |requests| && requests != []
      requires forall r: nat :: r < |requests| ==> r in order
      requires forall k :: 0 <= k < |order| ==> order[k] < |requests|
      requires forall i, j :: 0 <= i < j < |order| ==> order[i] != order[j]
      ensures |restored| == |requests| && forall k :: 0 <= k < |order| ==> restored[order[k]] == outputs[k]
    {
      restored := outputs;
      for k := 0 to |order|
        invariant |restored| == |requests|
        invariant forall j :: 0 <= j < k ==> restored[order[j]] == outputs[j]
      {
        restored := restored[order[k] := outputs[k]];
      }
    }

    /** Commits the returned memories, session by session. */
    method Commit(ordered: seq<Request<D>>, rows: seq<Decoded<M, O>>)
      requires |rows| == |ordered| && DistinctSessions(ordered)
      modifies this`memories
      ensures Committed(memories, old(memories), ordered, rows)
    {
      for k := 0 to |ordered|
        invariant Committed(memories, old(memories), ordered[..k], rows[..k])
      {
        ghost var before := memories;
        memories := memories[ordered[k].session := rows[k].memory];
        CommitOne(before, old(memories), ordered, rows, k);
      }
      assert ordered[..|ordered|] == ordered && rows[..|rows|] == rows;
    }

    /** The model phase: run the ordered rows, then commit every session or none. */
    method Execute(requests: seq<Request<D>>, ordered: seq<Request<D>>, order: seq<nat>,
                   inputs: seq<(Observation<P>, Option<M>)>,
                   model: Model<P, M, O>, recorded: bool)
      returns (r: Result<seq<Reply<O>>, InferError>)
      requires requests != [] && DistinctSessions(requests) && DistinctSessions(ordered)
      requires |order| == |ordered| == |requests| && forall r: nat :: r < |requests| ==> r in order
      requires forall k :: 0 <= k < |order| ==> order[k] < |requests| && ordered[k] == requests[order[k]]
      requires forall i, j :: 0 <= i < j < |order| ==> order[i] != order[j]
      modifies this
      ensures RanStep(old(Now()), Now(), r, requests, ordered, model(inputs), recorded)
    {
      var phase := model(inputs);
      if phase.Raised? {
        failed := true;
        return Err(ModelFailed);
      }
      var outputs, finite := Outputs(phase.rows, |requests|);
      if !finite || !recorded {
        failed := true;
        return Err(ModelFailed);
      }
      if |phase.rows| != |ordered| {
        return Err(WrongCount);
      }
      Commit(ordered, phase.rows);
      index := index + 1;
      var restored := Restore(requests, order, outputs);
      RestoredAnswers(restored, requests, ordered, order, outputs);
      return Ok(restored);
    }

    /** One ordered tensor batch; `recorded` says whether the evidence could be written. */
    method InferBatch(requests: seq<Request<D>>, model: Model<P, M, O>, recorded: bool)
      returns (r: Result<seq<Reply<O>>, InferError>)
      modifies this
      ensures InferStep(old(Now()), Now(), r, requests, model, recorded, cfg)
      ensures PlainCall(old(Now()), Now(), r, requests, model, recorded, cfg)
    {
      r := Serve(requests, model, recorded);
      CallPlainly(old(Now()), Now(), r, requests, model, recorded, cfg);
    }

    /** Checks the requests, puts them in slot order and runs the model. */
    method Serve(requests: seq<Request<D>>, model: Model<P, M, O>, recorded: bool)
      returns (r: Result<seq<Reply<O>>, InferError>)
      modifies this
      ensures InferStep(old(Now()), Now(), r, requests, model, recorded, cfg)
    {
      if requests == [] || |requests| > cfg.capacity {
        return Err(BadOccupancy);
      }
      if !ValidSlots(requests, cfg.capacity) {
        return Err(BadSlot);
      }
      if !DistinctSlots(requests) || !DistinctSessions(requests) {
        return Err(Duplicate);
      }
      var order, ordered := Order(requests, |requests|), Ordered(requests);
      OrderedFacts(requests, cfg.capacity);
      ImagesInOrder(requests, ordered, cfg);
      var images, decoded := Decode(ordered);
      if !decoded {
        return Err(BadImage);
      }
      if failed {
        return Err(Invalidated);
      }
      var inputs := Assemble(ordered, images);
      OrderComplete(requests, |requests|);
      OrderAscending(requests, |requests|, cfg.capacity);
      SessionsInOrder(requests, ordered, order);
      r := Execute(requests, ordered, order, inputs, model, recorded);
    }

    /** Pairs each observation with the memory of its session. */
    method Assemble(ordered: seq<Request<D>>, images: seq<P>) returns (inputs: seq<(Observation<P>, Option<M>)>)
      requires |images| == |ordered| && forall i :: 0 <= i < |ordered| ==> ImageOk(ordered[i], cfg)
      requires forall i :: 0 <= i < |ordered| ==>
                 Observation(images[i], ordered[i].instruction) == Observed(ordered[i], cfg)
      ensures inputs == Inputs(ordered, memories, cfg)
    {
      inputs := [];
      for k := 0 to |ordered|
        invariant |inputs| == k
                  && forall j :: 0 <= j < k ==>
                       inputs[j] == (Observed(ordered[j], cfg), MemoryOf(memories, ordered[j].session))
      {
        inputs := inputs + [(Observation(images[k], ordered[k].instruction), MemoryOf(memories, ordered[k].session))];
      }
    }

    /** One request is the batch of that request alone. */
    method Infer(request: Request<D>, model: Model<P, M, O>, recorded: bool) returns (r: Result<Reply<O>, InferError>)
      modifies this
      ensures r.Ok? ==> InferStep(old(Now()), Now(), Ok([r.value]), [request], model, recorded, cfg)
      ensures r.Err? ==> InferStep(old(Now()), Now(), Err(r.error), [request], model, recorded, cfg)
    {
      var batch := InferBatch([request], model, recorded);
      match batch
      case Err(e) => r := Err(e);
      case Ok(replies) =>
        assert replies == [replies[0]];
        r := Ok(replies[0]);
    }

    /** Releases one session only. */
    method Reset(session: string)
      modifies this
      ensures Now() == Forgotten(old(Now()), session, cfg.residentKv)
      ensures session !in memories && forall x :: x != session ==>
                (x in memories <==> x in old(memories)) && (x in memories ==> memories[x] == old(memories[x]))
      ensures index == old(index) && failed == old(failed)
      ensures residentResets == old(residentResets) + if cfg.residentKv && session in old(memories) then 1 else 0
    {
      var memory := MemoryOf(memories, session);
      memories := map x | x in memories && x != session :: memories[x];
      if memory.Some? && cfg.residentKv {
        residentResets := residentResets + 1;
      }
    }
  }

  lemma CommitOne<D, M, O>(before: map<string, M>, start: map<string, M>, ordered: seq<Request<D>>,
                           rows: seq<Decoded<M, O>>, k: nat)
    requires k < |ordered| == |rows| && DistinctSessions(ordered)
    requires Committed(before, start, ordered[..k], rows[..k])
    ensures Committed(before[ordered[k].session := rows[k].memory], start, ordered[..k + 1], rows[..k + 1])
  {
    var after := before[ordered[k].session := rows[k].memory];
    forall j | 0 <= j < k + 1 ensures ordered[j].session in after && after[ordered[j].session] == rows[j].memory {
      if j < k {
        assert ordered[..k][j] == ordered[j] && rows[..k][j] == rows[j];
        assert ordered[j].session != ordered[k].session;
      }
    }
    forall s | s in after
      ensures Serves(ordered[..k + 1], s) || (s in start && after[s] == start[s])
    {
      if s == ordered[k].session {
        assert ordered[..k + 1][k].session == s;
      } else if Serves(ordered[..k], s) {
        var j :| 0 <= j < k && ordered[..k][j].session == s;
        assert ordered[..k + 1][j].session == s;
      }
    }
  }

  lemma ImagesInOrder<D, P>(requests: seq<Request<D>>, ordered: seq<Request<D>>, cfg: Config<D, P>)
    requires forall q :: q in ordered <==> q in requests
    ensures (forall i :: 0 <= i < |ordered| ==> ImageOk(ordered[i], cfg))
            <==> (forall i :: 0 <= i < |requests| ==> ImageOk(requests[i], cfg))
  {
    if forall i :: 0 <= i < |ordered| ==> ImageOk(ordered[i], cfg) {
      forall i | 0 <= i < |requests| ensures ImageOk(requests[i], cfg) {
        assert requests[i] in ordered;
      }
    }
    if forall i :: 0 <= i < |requests| ==> ImageOk(requests[i], cfg) {
      forall i | 0 <= i < |ordered| ensures ImageOk(ordered[i], cfg) {
        assert ordered[i] in requests;
      }
    }
  }

  lemma SessionsInOrder<D>(requests: seq<Request<D>>, ordered: seq<Request<D>>, order: seq<nat>)
    requires DistinctSessions(requests) && order == Order(requests, |requests|) && ordered == Ordered(requests)
    requires Ascending(order, requests)
    ensures DistinctSessions(ordered)
  {
    forall i, j | 0 <= i < j < |ordered| ensures ordered[i].session != ordered[j].session {
      assert order[i] != order[j];
    }
  }

  lemma RestoredAnswers<D, O>(restored: seq<Reply<O>>, requests: seq<Request<D>>, ordered: seq<Request<D>>,
                              order: seq<nat>,
                              outputs: seq<Reply<O>>)
    requires |order| == |outputs| == |requests| == |restored| == |ordered| && DistinctSessions(requests)
    requires forall k :: 0 <= k < |order| ==> order[k] < |requests| && ordered[k] == requests[order[k]]
    requires forall k :: 0 <= k < |order| ==> restored[order[k]] == outputs[k]
    ensures forall i, k :: 0 <= i < |requests| && 0 <= k < |ordered| && requests[i] == ordered[k] ==>
              restored[i] == outputs[k]
  {
    forall i, k | 0 <= i < |requests| && 0 <= k < |ordered| && requests[i] == ordered[k]
      ensures restored[i] == outputs[k]
    {
      assert requests[i].session == requests[order[k]].session;
      assert i == order[k];
    }
  }
}
