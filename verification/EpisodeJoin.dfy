/** Joining annotations with the training file and the image directories, and picking the steps
    of every joined episode. */
module EpisodeJoin {
  import opened Wrappers
  import opened Names
  import opened Manifest
  import Quantiles

  datatype Video = Video(name: string, scene: string, episode: nat)

  /** `video` is None when the annotated path is not one safe episode directory. */
  datatype Annotation = Annotation(id: int, video: Option<Video>, instructions: seq<string>, actions: seq<int>)

  datatype TrainEpisode = TrainEpisode(scene: string, instruction: string)

  datatype Joined = Joined(id: nat, scene: string, instruction: string, frames: seq<File>, actions: seq<int>,
                           steps: seq<int>)

  datatype JoinError =
    | DuplicateEpisode | BadVideo | Mismatch | BadInstructions | MissingInstruction | BadFrameNames
    | BadActions | ActionCount
    | Quantile(error: Quantiles.QuantileError) | TooFewEpisodes

  // ---- actions and eligible steps ----

  predicate IsAction(a: int) {
    0 <= a <= 3
  }

  /** A dummy action first, then navigation actions only. */
  predicate ValidActions(actions: seq<int>) {
    actions != [] && actions[0] == -1 && forall i :: 1 <= i < |actions| ==> IsAction(actions[i])
  }

  method CheckActions(actions: seq<int>) returns (ok: bool)
    ensures ok <==> ValidActions(actions)
  {
    if actions == [] {
      return false;
    }
    for i := 0 to |actions|
      invariant forall k :: 0 <= k < i ==> if k == 0 then actions[k] == -1 else IsAction(actions[k])
    {
      if (i == 0 && actions[i] != -1) || (i > 0 && !IsAction(actions[i])) {
        return false;
      }
    }
    return true;
  }

  /** The actions answered in the history of a step, and the one at the step, are navigation actions. */
  predicate Answerable(actions: seq<int>, step: int, depth: nat) {
    forall a :: step - depth + 1 <= a < step + 2 ==> 0 <= a < |actions| && IsAction(actions[a])
  }

  /** The steps from `step` up to `last` that keep a full history and both neighbours. */
  function Eligible(actions: seq<int>, step: int, last: int, depth: nat): seq<int>
    decreases last - step
  {
    if step >= last then []
    else (if Answerable(actions, step, depth) then [step] else []) + Eligible(actions, step + 1, last, depth)
  }

  function Range(lo: int, hi: int): seq<int>
    decreases hi - lo
  {
    if lo >= hi then [] else [lo] + Range(lo + 1, hi)
  }

  lemma {:induction false} RangeFacts(lo: int, hi: int)
    ensures |Range(lo, hi)| == if lo < hi then hi - lo else 0
    ensures forall k :: 0 <= k < |Range(lo, hi)| ==> Range(lo, hi)[k] == lo + k
    decreases hi - lo
  {
    if lo < hi {
      RangeFacts(lo + 1, hi);
    }
  }

  /** With validated actions the filter keeps the whole range: no step is lost. */
  lemma {:induction false} EligibleIsRange(actions: seq<int>, step: int, last: int, depth: nat)
    requires ValidActions(actions) && depth <= step && last + 1 <= |actions|
    ensures Eligible(actions, step, last, depth) == Range(step, last)
    decreases last - step
  {
    if step < last {
      assert Answerable(actions, step, depth);
      EligibleIsRange(actions, step + 1, last, depth);
    }
  }

  // ---- one annotation ----

  /** JPEG frames named by consecutive numbers from one. */
  predicate Numbered(frames: seq<File>) {
    forall i :: 0 <= i < |frames| ==> Digits(frames[i].stem) && Val(frames[i].stem) == i + 1
  }

  predicate ValidInstructions(instructions: seq<string>) {
    instructions != [] && forall i :: 0 <= i < |instructions| ==> NonBlank(instructions[i])
  }

  /** What one annotation gives: an error, nothing, or a joined episode. */
  function JoinOne(train: map<int, TrainEpisode>, a: Annotation, listing: map<string, seq<File>>, seen: set<int>,
                   steps: nat, depth: nat)
    : Result<Option<Joined>, JoinError>
  {
    if a.id !in train then Ok(None)
    else if a.id in seen then Err(DuplicateEpisode)
    else if a.video.None? then Err(BadVideo)
    else if a.video.value.episode != a.id || a.video.value.scene != train[a.id].scene then Err(Mismatch)
    else if !ValidInstructions(a.instructions) then Err(BadInstructions)
    else if train[a.id].instruction !in a.instructions then Err(MissingInstruction)
    else if a.video.value.name !in listing then Ok(None)
    else
      var frames := listing[a.video.value.name];
      if !Numbered(frames) then Err(BadFrameNames)
      else if !ValidActions(a.actions) then Err(BadActions)
      else if |a.actions| != |frames| then Err(ActionCount)
      else
        var eligible := Eligible(a.actions, depth, |frames| - 2, depth);
        if |eligible| < steps then Ok(None)
        else match Quantiles.Select(eligible, steps)
          case Err(e) => Err(Quantile(e))
          case Ok(chosen) => Ok(Some(Joined(a.id, train[a.id].scene, train[a.id].instruction, frames, a.actions,
                                            chosen)))
  }

  /** A joined episode: aligned frames and actions, and ordered steps whose whole window exists. */
  ghost predicate EpisodeOk(ep: Joined, steps: nat, depth: nat, train: map<int, TrainEpisode>,
                            listing: map<string, seq<File>>) {
    && ep.id in train && train[ep.id] == TrainEpisode(ep.scene, ep.instruction) && NonBlank(ep.instruction)
    && ValidActions(ep.actions) && |ep.actions| == |ep.frames| && Numbered(ep.frames)
    && (exists name :: name in listing && listing[name] == ep.frames)
    && Spans(ep.steps, |ep.frames|, steps, depth)
  }

  /** Reads one annotation, and says what it gives in terms of its own fields. */
  method JoinNext(train: map<int, TrainEpisode>, a: Annotation, listing: map<string, seq<File>>, seen: set<int>,
                  steps: nat, depth: nat)
    returns (r: Result<Option<Joined>, JoinError>)
    ensures r == JoinOne(train, a, listing, seen, steps, depth)
    ensures steps > 0 ==> PlainNext(r, train, a, listing, seen, steps, depth)
  {
    r := CheckInOrder(train, a, listing, seen, steps, depth);
    if steps > 0 {
      NextPlainly(train, a, listing, seen, steps, depth);
    }
  }

  /** The checks of one annotation, in order. */
  method CheckInOrder(train: map<int, TrainEpisode>, a: Annotation, listing: map<string, seq<File>>, seen: set<int>,
                      steps: nat, depth: nat)
    returns (r: Result<Option<Joined>, JoinError>)
    ensures r == JoinOne(train, a, listing, seen, steps, depth)
  {
    if a.id !in train {
      return Ok(None);
    }
    if a.id in seen {
      return Err(DuplicateEpisode);
    }
    if a.video.None? {
      return Err(BadVideo);
    }
    if a.video.value.episode != a.id || a.video.value.scene != train[a.id].scene {
      return Err(Mismatch);
    }
    if !ValidInstructions(a.instructions) {
      return Err(BadInstructions);
    }
    if train[a.id].instruction !in a.instructions {
      return Err(MissingInstruction);
    }
    if a.video.value.name !in listing {
      return Ok(None);
    }
    var frames := listing[a.video.value.name];
    if !Numbered(frames) {
      return Err(BadFrameNames);
    }
    var valid := CheckActions(a.actions);
    if !valid {
      return Err(BadActions);
    }
    if |a.actions| != |frames| {
      return Err(ActionCount);
    }
    var eligible := Eligible(a.actions, depth, |frames| - 2, depth);
    if |eligible| < steps {
      return Ok(None);
    }
    var chosen := Quantiles.Select(eligible, steps);
    if chosen.Err? {
      return Err(Quantile(chosen.error));
    }
    return Ok(Some(Joined(a.id, train[a.id].scene, train[a.id].instruction, frames, a.actions, chosen.value)));
  }

  /** Steps picked from an aligned episode span all steps with a full window, first to last. */
  ghost predicate Spans(chosen: seq<int>, n: nat, steps: nat, depth: nat) {
    && |chosen| == steps && Quantiles.StrictlyIncreasing(chosen)
    && (forall q :: 0 <= q < steps ==> depth <= chosen[q] && chosen[q] + 2 < n)
    && (steps > 1 ==> chosen[0] == depth && chosen[steps - 1] == n - 3)
  }

  lemma EligibleCount(actions: seq<int>, depth: nat) returns (eligible: seq<int>)
    requires ValidActions(actions)
    ensures eligible == Eligible(actions, depth, |actions| - 2, depth)
            && |eligible| == if depth < |actions| - 2 then |actions| - 2 - depth else 0
    ensures forall k :: 0 <= k < |eligible| ==> eligible[k] == depth + k
  {
    eligible := Eligible(actions, depth, |actions| - 2, depth);
    if depth < |actions| - 2 {
      EligibleIsRange(actions, depth, |actions| - 2, depth);
      RangeFacts(depth, |actions| - 2);
    }
  }

  lemma SelectSpans(eligible: seq<int>, n: nat, steps: nat, depth: nat)
    requires 0 < steps <= |eligible| == n - 2 - depth && forall k :: 0 <= k < |eligible| ==> eligible[k] == depth + k
    ensures Quantiles.Select(eligible, steps).Ok? && Spans(Quantiles.Select(eligible, steps).value, n, steps, depth)
  {
    Quantiles.SelectIncreasing(eligible, steps);
    var chosen := Quantiles.Select(eligible, steps).value;
    forall q | 0 <= q < steps ensures depth <= chosen[q] && chosen[q] + 2 < n {
      assert chosen[q] in eligible;
      var k :| 0 <= k < |eligible| && eligible[k] == chosen[q];
    }
  }

  /** Every joined episode is sound and spans all steps with a full window, the quantile error never
      happens, and a listed episode is skipped exactly when it is too short. */
  lemma JoinOneFacts(train: map<int, TrainEpisode>, a: Annotation, listing: map<string, seq<File>>, seen: set<int>,
                     steps: nat, depth: nat)
    requires steps > 0
    ensures var r := JoinOne(train, a, listing, seen, steps, depth);
            && (r.Ok? && a.id in train ==> a.video.Some?)
            && (r.Ok? && r.value.Some? ==>
                && EpisodeOk(r.value.value, steps, depth, train, listing) && r.value.value.id == a.id && a.id !in seen
                && a.video.value.name in listing && r.value.value.frames == listing[a.video.value.name]
                && r.value.value.actions == a.actions)
            && (r.Err? ==> !r.error.Quantile?)
            && (r.Ok? && a.id in train && a.video.value.name in listing ==>
                (r.value.Some? <==> |listing[a.video.value.name]| >= depth + steps + 2))
  {
    if ValidActions(a.actions) {
      var eligible := EligibleCount(a.actions, depth);
      if |eligible| >= steps {
        SelectSpans(eligible, |a.actions|, steps, depth);
      }
    }
  }

  // ---- all annotations ----

  function InsertById(e: Joined, sorted: seq<Joined>): (r: seq<Joined>)
    ensures |r| == |sorted| + 1
  {
    if sorted == [] || e.id < sorted[0].id then [e] + sorted else [sorted[0]] + InsertById(e, sorted[1..])
  }

  function SortById(joined: seq<Joined>): (r: seq<Joined>)
    ensures |r| == |joined|
  {
    if joined == [] then [] else InsertById(joined[|joined| - 1], SortById(joined[..|joined| - 1]))
  }

  ghost predicate IncreasingIds(eps: seq<Joined>) {
    forall i, j :: 0 <= i < j < |eps| ==> eps[i].id < eps[j].id
  }

  ghost predicate DistinctIds(eps: seq<Joined>) {
    forall i, j :: 0 <= i < j < |eps| ==> eps[i].id != eps[j].id
  }

  lemma {:induction false} InsertFacts(e: Joined, sorted: seq<Joined>)
    requires IncreasingIds(sorted) && forall i :: 0 <= i < |sorted| ==> sorted[i].id != e.id
    ensures IncreasingIds(InsertById(e, sorted)) && |InsertById(e, sorted)| == |sorted| + 1
    ensures forall x :: x in InsertById(e, sorted) <==> x == e || x in sorted
    ensures sorted != [] && sorted[0].id < e.id ==> InsertById(e, sorted)[0] == sorted[0]
    ensures sorted == [] || e.id < sorted[0].id ==> InsertById(e, sorted)[0] == e
  {
    if sorted != [] && e.id >= sorted[0].id {
      InsertFacts(e, sorted[1..]);
      assert sorted == [sorted[0]] + sorted[1..];
    } else {
      assert InsertById(e, sorted) == [e] + sorted;
    }
  }

  lemma {:induction false} SortFacts(joined: seq<Joined>)
    requires DistinctIds(joined)
    ensures IncreasingIds(SortById(joined)) && |SortById(joined)| == |joined|
    ensures forall x :: x in SortById(joined) <==> x in joined
  {
    if joined != [] {
      var n := |joined| - 1;
      SortFacts(joined[..n]);
      forall i | 0 <= i < n ensures SortById(joined[..n])[i].id != joined[n].id {
        assert SortById(joined[..n])[i] in joined[..n];
      }
      InsertFacts(joined[n], SortById(joined[..n]));
      assert joined == joined[..n] + [joined[n]];
    }
  }

  /** The episode an annotation gives by itself. */
  function Alone(train: map<int, TrainEpisode>, a: Annotation, listing: map<string, seq<File>>, steps: nat,
                 depth: nat): Option<Joined> {
    var r := JoinOne(train, a, listing, {}, steps, depth);
    if r.Ok? then r.value else None
  }

  /** One of the first `n` annotations gives the episode. */
  ghost predicate GivenBy(e: Joined, train: map<int, TrainEpisode>, annotations: seq<Annotation>, n: nat,
                          listing: map<string, seq<File>>,
                          steps: nat, depth: nat)
    requires n <= |annotations|
  {
    exists k :: 0 <= k < n && Alone(train, annotations[k], listing, steps, depth) == Some(e)
  }

  lemma GivenByMore(e: Joined, train: map<int, TrainEpisode>, annotations: seq<Annotation>, n: nat,
                    listing: map<string, seq<File>>,
                    steps: nat, depth: nat)
    requires n < |annotations|
    requires GivenBy(e, train, annotations, n, listing, steps, depth)
             || Alone(train, annotations[n], listing, steps, depth) == Some(e)
    ensures GivenBy(e, train, annotations, n + 1, listing, steps, depth)
  {
  }

  ghost predicate Holding(joined: seq<Joined>, id: int) {
    exists i :: 0 <= i < |joined| && joined[i].id == id
  }

  lemma HoldingMore(joined: seq<Joined>, e: Joined, id: int)
    requires Holding(joined, id) || e.id == id
    ensures Holding(joined + [e], id)
  {
    var after := joined + [e];
    if Holding(joined, id) {
      var i :| 0 <= i < |joined| && joined[i].id == id;
      assert after[i].id == id;
    } else {
      assert after[|joined|].id == id;
    }
  }

  /** The episodes found in the first `n` annotations, with their ids. */
  ghost predicate Found(joined: seq<Joined>, seen: set<int>, train: map<int, TrainEpisode>,
                        annotations: seq<Annotation>, n: nat,
                        listing: map<string, seq<File>>, steps: nat, depth: nat)
    requires n <= |annotations|
  {
    && DistinctIds(joined)
    && (forall i :: 0 <= i < |joined| ==>
          EpisodeOk(joined[i], steps, depth, train, listing) && joined[i].id as int in seen)
    && (forall x :: x in seen ==> Holding(joined, x))
    && (forall k :: 0 <= k < n && Alone(train, annotations[k], listing, steps, depth).Some? ==>
          Alone(train, annotations[k], listing, steps, depth).value in joined)
    && (forall i :: 0 <= i < |joined| ==> GivenBy(joined[i], train, annotations, n, listing, steps, depth))
  }

  lemma FoundMore(joined: seq<Joined>, seen: set<int>, train: map<int, TrainEpisode>, annotations: seq<Annotation>,
                  n: nat,
                  listing: map<string, seq<File>>, steps: nat, depth: nat)
    requires n < |annotations| && steps > 0 && Found(joined, seen, train, annotations, n, listing, steps, depth)
    requires JoinOne(train, annotations[n], listing, seen, steps, depth).Ok?
    ensures var one := JoinOne(train, annotations[n], listing, seen, steps, depth).value;
            if one.None? then Found(joined, seen, train, annotations, n + 1, listing, steps, depth)
            else
              Found(joined + [one.value], seen + {annotations[n].id}, train, annotations, n + 1, listing, steps, depth)
  {
    var a := annotations[n];
    JoinOneFacts(train, a, listing, seen, steps, depth);
    var one := JoinOne(train, a, listing, seen, steps, depth).value;
    assert a.id in train && a.id !in seen ==>
      JoinOne(train, a, listing, {}, steps, depth) == JoinOne(train, a, listing, seen, steps, depth);
    if one.None? {
      forall i | 0 <= i < |joined| ensures GivenBy(joined[i], train, annotations, n + 1, listing, steps, depth) {
        GivenByMore(joined[i], train, annotations, n, listing, steps, depth);
      }
    } else {
      FoundOne(joined, seen, train, annotations, n, listing, steps, depth, one.value);
    }
  }

  lemma FoundOne(joined: seq<Joined>, seen: set<int>, train: map<int, TrainEpisode>, annotations: seq<Annotation>,
                 n: nat,
                 listing: map<string, seq<File>>, steps: nat, depth: nat, e: Joined)
    requires n < |annotations| && Found(joined, seen, train, annotations, n, listing, steps, depth)
    requires Alone(train, annotations[n], listing, steps, depth) == Some(e)
             && EpisodeOk(e, steps, depth, train, listing)
    requires e.id == annotations[n].id && e.id as int !in seen
    ensures Found(joined + [e], seen + {annotations[n].id}, train, annotations, n + 1, listing, steps, depth)
  {
    var after := joined + [e];
    forall x | x in seen + {annotations[n].id} ensures Holding(after, x) {
      HoldingMore(joined, e, x);
    }
    forall i | 0 <= i < |after| ensures GivenBy(after[i], train, annotations, n + 1, listing, steps, depth) {
      if i < |joined| {
        assert GivenBy(joined[i], train, annotations, n, listing, steps, depth);
      }
      GivenByMore(after[i], train, annotations, n, listing, steps, depth);
    }
  }

  ghost predicate TakenOrLater(eps: seq<Joined>, e: Joined) {
    e in eps || forall i :: 0 <= i < |eps| ==> eps[i].id < e.id
  }

  /** The chosen episodes: the first `count` by id of all that annotations give. */
  ghost predicate Chosen(eps: seq<Joined>, train: map<int, TrainEpisode>, annotations: seq<Annotation>,
                         listing: map<string, seq<File>>,
                         count: nat, steps: nat, depth: nat)
  {
    && |eps| == count && IncreasingIds(eps)
    && (forall i :: 0 <= i < |eps| ==> EpisodeOk(eps[i], steps, depth, train, listing))
    && (forall i :: 0 <= i < |eps| ==> GivenBy(eps[i], train, annotations, |annotations|, listing, steps, depth))
    && (forall k :: 0 <= k < |annotations| && Alone(train, annotations[k], listing, steps, depth).Some? ==>
          TakenOrLater(eps, Alone(train, annotations[k], listing, steps, depth).value))
  }

  lemma TakenOrLaterThan(sorted: seq<Joined>, count: nat, e: Joined)
    requires IncreasingIds(sorted) && count <= |sorted| && e in sorted
    ensures TakenOrLater(sorted[..count], e)
  {
    var j :| 0 <= j < |sorted| && sorted[j] == e;
    assert j < count ==> sorted[..count][j] == e;
  }

  lemma ChosenFromFound(joined: seq<Joined>, seen: set<int>, train: map<int, TrainEpisode>,
                        annotations: seq<Annotation>,
                        listing: map<string, seq<File>>, count: nat, steps: nat, depth: nat)
    requires Found(joined, seen, train, annotations, |annotations|, listing, steps, depth) && count <= |joined|
    ensures |SortById(joined)| == |joined|
            && Chosen(SortById(joined)[..count], train, annotations, listing, count, steps, depth)
  {
    SortFacts(joined);
    var sorted := SortById(joined);
    var eps := sorted[..count];
    forall i | 0 <= i < |eps|
      ensures EpisodeOk(eps[i], steps, depth, train, listing)
      ensures GivenBy(eps[i], train, annotations, |annotations|, listing, steps, depth)
    {
      assert sorted[i] in joined;
    }
    forall k | 0 <= k < |annotations| && Alone(train, annotations[k], listing, steps, depth).Some?
      ensures TakenOrLater(eps, Alone(train, annotations[k], listing, steps, depth).value)
    {
      TakenOrLaterThan(sorted, count, Alone(train, annotations[k], listing, steps, depth).value);
    }
  }

  /** An annotation that raises nothing: sound alone, and no earlier one with its id was joined. */
  ghost predicate Clean(train: map<int, TrainEpisode>, annotations: seq<Annotation>, k: nat,
                        listing: map<string, seq<File>>, steps: nat, depth: nat)
    requires k < |annotations|
  {
    && JoinOne(train, annotations[k], listing, {}, steps, depth).Ok?
    && (forall j :: 0 <= j < k && annotations[j].id == annotations[k].id ==>
          Alone(train, annotations[j], listing, steps, depth).None?)
  }

  lemma CleanIff(joined: seq<Joined>, seen: set<int>, train: map<int, TrainEpisode>, annotations: seq<Annotation>,
                 n: nat,
                 listing: map<string, seq<File>>, steps: nat, depth: nat)
    requires n < |annotations| && Found(joined, seen, train, annotations, n, listing, steps, depth)
    ensures JoinOne(train, annotations[n], listing, seen, steps, depth).Ok?
            <==> Clean(train, annotations, n, listing, steps, depth)
  {
    var a := annotations[n];
    if a.id in seen {
      assert Holding(joined, a.id);
      var i :| 0 <= i < |joined| && joined[i].id == a.id;
      assert GivenBy(joined[i], train, annotations, n, listing, steps, depth);
      var k :| 0 <= k < n && Alone(train, annotations[k], listing, steps, depth) == Some(joined[i]);
      AloneId(train, annotations[k], listing, steps, depth);
      SeenRejected(train, a, listing, seen, steps, depth);
    } else {
      SeenIrrelevant(train, a, listing, seen, steps, depth);
      forall j | 0 <= j < n && annotations[j].id == a.id
        ensures Alone(train, annotations[j], listing, steps, depth).None?
      {
        AloneId(train, annotations[j], listing, steps, depth);
      }
    }
  }

  lemma AloneId(train: map<int, TrainEpisode>, a: Annotation, listing: map<string, seq<File>>, steps: nat, depth: nat)
    ensures var one := Alone(train, a, listing, steps, depth); one.Some? ==> one.value.id == a.id && a.id in train
  {
  }

  lemma SeenIrrelevant(train: map<int, TrainEpisode>, a: Annotation, listing: map<string, seq<File>>, seen: set<int>,
                       steps: nat, depth: nat)
    requires a.id !in seen
    ensures JoinOne(train, a, listing, seen, steps, depth) == JoinOne(train, a, listing, {}, steps, depth)
  {
  }

  lemma SeenRejected(train: map<int, TrainEpisode>, a: Annotation, listing: map<string, seq<File>>, seen: set<int>,
                     steps: nat, depth: nat)
    requires a.id in seen && a.id in train
    ensures JoinOne(train, a, listing, seen, steps, depth) == Err(DuplicateEpisode)
  {
  }

  /** The episodes the first `n` annotations give, in order. */
  ghost function Gathered(train: map<int, TrainEpisode>, annotations: seq<Annotation>, n: nat,
                          listing: map<string, seq<File>>, steps: nat,
                          depth: nat): seq<Joined>
    requires n <= |annotations|
  {
    if n == 0 then []
    else Gathered(train, annotations, n - 1, listing, steps, depth)
         + (var one := Alone(train, annotations[n - 1], listing, steps, depth); if one.Some? then [one.value] else [])
  }

  /** The first `n` annotations have been joined. */
  ghost predicate JoinedUpTo(joined: seq<Joined>, seen: set<int>, train: map<int, TrainEpisode>,
                             annotations: seq<Annotation>, n: nat,
                             listing: map<string, seq<File>>, steps: nat, depth: nat)
    requires n <= |annotations|
  {
    && Found(joined, seen, train, annotations, n, listing, steps, depth)
    && joined == Gathered(train, annotations, n, listing, steps, depth)
  }

  /** The joined episodes and their ids after one more annotation. */
  function Extended(joined: seq<Joined>, seen: set<int>, one: Option<Joined>, id: int): (seq<Joined>, set<int>) {
    if one.Some? then (joined + [one.value], seen + {id}) else (joined, seen)
  }

  lemma JoinStep(joined: seq<Joined>, seen: set<int>, train: map<int, TrainEpisode>, annotations: seq<Annotation>,
                 n: nat,
                 listing: map<string, seq<File>>, steps: nat, depth: nat, one: Result<Option<Joined>, JoinError>)
    requires n < |annotations| && steps > 0 && JoinedUpTo(joined, seen, train, annotations, n, listing, steps, depth)
    requires one == JoinOne(train, annotations[n], listing, seen, steps, depth)
    ensures one.Ok? <==> Clean(train, annotations, n, listing, steps, depth)
    ensures one.Err? ==> !one.error.Quantile?
    ensures one.Ok? ==>
              var (joined', seen') := Extended(joined, seen, one.value, annotations[n].id);
              JoinedUpTo(joined', seen', train, annotations, n + 1, listing, steps, depth)
  {
    JoinOneFacts(train, annotations[n], listing, seen, steps, depth);
    CleanIff(joined, seen, train, annotations, n, listing, steps, depth);
    if one.Ok? {
      FoundMore(joined, seen, train, annotations, n, listing, steps, depth);
      if annotations[n].id !in seen {
        SeenIrrelevant(train, annotations[n], listing, seen, steps, depth);
      }
    }
  }

  /** Joins all annotations in order; it succeeds exactly when none of them raises anything. */
  method Gather(train: map<int, TrainEpisode>, annotations: seq<Annotation>, listing: map<string, seq<File>>,
                steps: nat, depth: nat)
    returns (r: Result<seq<Joined>, JoinError>, ghost seen: set<int>)
    requires steps > 0
    ensures r.Ok? <==> forall k :: 0 <= k < |annotations| ==> Clean(train, annotations, k, listing, steps, depth)
    ensures r.Ok? ==> JoinedUpTo(r.value, seen, train, annotations, |annotations|, listing, steps, depth)
    ensures r.Err? ==> !r.error.Quantile?
  {
    var joined: seq<Joined>, ids: set<int> := [], {};
    for n := 0 to |annotations|
      invariant JoinedUpTo(joined, ids, train, annotations, n, listing, steps, depth)
      invariant forall k :: 0 <= k < n ==> Clean(train, annotations, k, listing, steps, depth)
    {
      var one := JoinNext(train, annotations[n], listing, ids, steps, depth);
      JoinStep(joined, ids, train, annotations, n, listing, steps, depth, one);
      if one.Err? {
        return Err(one.error), ids;
      }
      var (joined', ids') := Extended(joined, ids, one.value, annotations[n].id);
      joined, ids := joined', ids';
    }
    return Ok(joined), ids;
  }

  /** No annotation raises anything, and enough of them give an episode. */
  ghost predicate Joinable(train: map<int, TrainEpisode>, annotations: seq<Annotation>, listing: map<string, seq<File>>,
                           count: nat, steps: nat,
                           depth: nat)
  {
    && (forall k :: 0 <= k < |annotations| ==> Clean(train, annotations, k, listing, steps, depth))
    && |Gathered(train, annotations, |annotations|, listing, steps, depth)| >= count
  }

  /** The first `count` by id of all episodes the annotations give. */
  ghost function FirstById(train: map<int, TrainEpisode>, annotations: seq<Annotation>, listing: map<string, seq<File>>,
                           count: nat, steps: nat,
                           depth: nat): seq<Joined>
    requires Joinable(train, annotations, listing, count, steps, depth)
  {
    SortById(Gathered(train, annotations, |annotations|, listing, steps, depth))[..count]
  }

  // ---- the join in terms of annotations, training index and listing alone ----

  /** An aligned episode directory: JPEG frames named 1, 2, 3 and so on in digits, and an action for each
      frame, a dummy of -1 first and then 0, 1, 2 or 3. */
  ghost predicate AlignedFrames(frames: seq<File>, actions: seq<int>) {
    && (forall i :: 0 <= i < |frames| ==>
          && frames[i].stem != "" && (forall c :: 0 <= c < |frames[i].stem| ==> '0' <= frames[i].stem[c] <= '9')
          && Val(frames[i].stem) == i + 1)
    && |actions| == |frames| && actions != [] && actions[0] == -1
    && forall i :: 1 <= i < |actions| ==> actions[i] in {0, 1, 2, 3}
  }

  /** An annotation of a training episode that raises nothing: its video is that episode's of that
      scene, its instructions have text and name the training one, and a listed directory is aligned. */
  ghost predicate Acceptable(train: map<int, TrainEpisode>, a: Annotation, listing: map<string, seq<File>>) {
    && a.id in train && a.video.Some? && a.video.value.episode == a.id && a.video.value.scene == train[a.id].scene
    && a.instructions != [] && (forall i :: 0 <= i < |a.instructions| ==> HasText(a.instructions[i]))
    && train[a.id].instruction in a.instructions
    && (a.video.value.name in listing ==> AlignedFrames(listing[a.video.value.name], a.actions))
  }

  /** The annotation's directory is listed and long enough for a full window at every step. */
  ghost predicate LongEnough(train: map<int, TrainEpisode>, a: Annotation, listing: map<string, seq<File>>, steps: nat,
                             depth: nat)
  {
    && a.id in train && a.video.Some? && a.video.value.name in listing
    && |listing[a.video.value.name]| >= depth + steps + 2
  }

  /** Of the `n - 2 - depth` steps from `depth` on, the middle one, or the nearest to each quantile,
      the later of two as near. */
  ghost predicate PickedSteps(chosen: seq<int>, n: nat, steps: nat, depth: nat) {
    var last := n - 3 - depth;
    && |chosen| == steps
    && (steps == 1 ==> chosen[0] == depth + last / 2)
    && (steps > 1 ==> forall q :: 0 <= q < steps ==>
                        1 - steps < 2 * ((chosen[q] - depth) * (steps - 1) - q * last) <= steps - 1)
  }

  /** The episode is the annotation's own, with its scene, frames and actions and the picked steps. */
  ghost predicate TakenFrom(e: Joined, train: map<int, TrainEpisode>, a: Annotation, listing: map<string, seq<File>>,
                            steps: nat, depth: nat)
  {
    && LongEnough(train, a, listing, steps, depth) && Acceptable(train, a, listing)
    && e.id == a.id && e.scene == train[a.id].scene && e.instruction == train[a.id].instruction
    && e.frames == listing[a.video.value.name] && e.actions == a.actions
    && PickedSteps(e.steps, |e.frames|, steps, depth)
  }

  ghost predicate TakenFromSome(e: Joined, train: map<int, TrainEpisode>, annotations: seq<Annotation>,
                                listing: map<string, seq<File>>, steps: nat, depth: nat)
  {
    exists k :: 0 <= k < |annotations| && TakenFrom(e, train, annotations[k], listing, steps, depth)
  }

  /** Every annotation of a training episode is acceptable, and none repeats an episode already joined. */
  ghost predicate NothingRaised(train: map<int, TrainEpisode>, annotations: seq<Annotation>,
                                listing: map<string, seq<File>>, steps: nat, depth: nat)
  {
    forall k :: 0 <= k < |annotations| && annotations[k].id in train ==>
      && Acceptable(train, annotations[k], listing)
      && forall j :: 0 <= j < k && annotations[j].id == annotations[k].id ==>
           !LongEnough(train, annotations[j], listing, steps, depth)
  }

  ghost function LongOnes(train: map<int, TrainEpisode>, annotations: seq<Annotation>, n: nat,
                          listing: map<string, seq<File>>, steps: nat, depth: nat): set<nat>
    requires n <= |annotations|
  {
    set k: nat | k < n && LongEnough(train, annotations[k], listing, steps, depth)
  }

  /** The episodes are the first by id of all that are long enough, each taken from an annotation. */
  ghost predicate FirstTaken(eps: seq<Joined>, train: map<int, TrainEpisode>, annotations: seq<Annotation>,
                             listing: map<string, seq<File>>, count: nat, steps: nat, depth: nat)
  {
    && |eps| == count && (forall i, j :: 0 <= i < j < |eps| ==> eps[i].id < eps[j].id)
    && (forall i :: 0 <= i < |eps| ==> TakenFromSome(eps[i], train, annotations, listing, steps, depth))
    && forall k :: 0 <= k < |annotations| && LongEnough(train, annotations[k], listing, steps, depth) ==>
         (exists i :: 0 <= i < |eps| && TakenFrom(eps[i], train, annotations[k], listing, steps, depth))
         || forall i :: 0 <= i < |eps| ==> eps[i].id < annotations[k].id
  }

  /** When a join succeeds, and what it then gives. */
  ghost predicate PlainJoin(r: Result<seq<Joined>, JoinError>, train: map<int, TrainEpisode>,
                            annotations: seq<Annotation>, listing: map<string, seq<File>>, count: nat, steps: nat,
                            depth: nat)
  {
    && (r.Ok? <==>
        && NothingRaised(train, annotations, listing, steps, depth)
        && |LongOnes(train, annotations, |annotations|, listing, steps, depth)| >= count)
    && (r.Ok? ==> FirstTaken(r.value, train, annotations, listing, count, steps, depth))
  }

  lemma AlignedIff(frames: seq<File>, actions: seq<int>)
    ensures AlignedFrames(frames, actions) <==>
              Numbered(frames) && ValidActions(actions) && |actions| == |frames|
  {
  }

  lemma AcceptableIff(train: map<int, TrainEpisode>, a: Annotation, listing: map<string, seq<File>>, steps: nat,
                      depth: nat)
    requires steps > 0 && a.id in train
    ensures JoinOne(train, a, listing, {}, steps, depth).Ok? <==> Acceptable(train, a, listing)
  {
    JoinOneFacts(train, a, listing, {}, steps, depth);
    if a.video.Some? && a.video.value.name in listing {
      AlignedIff(listing[a.video.value.name], a.actions);
    }
    assert forall s: string :: NonBlank(s) <==> HasText(s);
  }

  lemma StepsPlainly(eligible: seq<int>, n: nat, steps: nat, depth: nat)
    requires 0 < steps <= |eligible| == n - 2 - depth && forall k :: 0 <= k < |eligible| ==> eligible[k] == depth + k
    ensures Quantiles.Select(eligible, steps).Ok?
            && PickedSteps(Quantiles.Select(eligible, steps).value, n, steps, depth)
  {
    Quantiles.SelectIncreasing(eligible, steps);
    var chosen := Quantiles.Select(eligible, steps).value;
    forall q | steps > 1 && 0 <= q < steps
      ensures 1 - steps < 2 * ((chosen[q] - depth) * (steps - 1) - q * (n - 3 - depth)) <= steps - 1
    {
      assert Quantiles.NearestPick(eligible, steps, q, chosen[q]);
      var k :| 0 <= k < |eligible| && chosen[q] == eligible[k] && Quantiles.IsNearest(k, q, |eligible|, steps);
    }
  }

  lemma AlonePlainly(train: map<int, TrainEpisode>, a: Annotation, listing: map<string, seq<File>>, steps: nat,
                     depth: nat)
    requires steps > 0 && JoinOne(train, a, listing, {}, steps, depth).Ok?
    ensures Alone(train, a, listing, steps, depth).Some? <==> LongEnough(train, a, listing, steps, depth)
    ensures Alone(train, a, listing, steps, depth).Some? ==>
              TakenFrom(Alone(train, a, listing, steps, depth).value, train, a, listing, steps, depth)
  {
    JoinOneFacts(train, a, listing, {}, steps, depth);
    if LongEnough(train, a, listing, steps, depth) {
      AcceptableIff(train, a, listing, steps, depth);
      var eligible := EligibleCount(a.actions, depth);
      StepsPlainly(eligible, |a.actions|, steps, depth);
    }
  }

  /** What the error of an annotation of a training episode names is wrong. */
  ghost predicate Blames(e: JoinError, train: map<int, TrainEpisode>, a: Annotation, listing: map<string, seq<File>>,
                         seen: set<int>)
  {
    && a.id in train
    && match e
       case DuplicateEpisode => a.id in seen
       case BadVideo => a.video.None?
       case Mismatch =>
         a.video.Some? && (a.video.value.episode != a.id || a.video.value.scene != train[a.id].scene)
       case BadInstructions =>
         a.instructions == [] || exists i :: 0 <= i < |a.instructions| && !HasText(a.instructions[i])
       case MissingInstruction => train[a.id].instruction !in a.instructions
       case BadFrameNames =>
         && a.video.Some? && a.video.value.name in listing
         && exists i :: 0 <= i < |listing[a.video.value.name]|
                        && (!Digits(listing[a.video.value.name][i].stem)
                            || Val(listing[a.video.value.name][i].stem) != i + 1)
       case BadActions =>
         || a.actions == [] || a.actions[0] != -1
         || exists i :: 1 <= i < |a.actions| && a.actions[i] !in {0, 1, 2, 3}
       case ActionCount =>
         a.video.Some? && a.video.value.name in listing && |a.actions| != |listing[a.video.value.name]|
       case _ => false
  }

  /** What reading one annotation gives. */
  ghost predicate PlainNext(r: Result<Option<Joined>, JoinError>, train: map<int, TrainEpisode>, a: Annotation,
                            listing: map<string, seq<File>>, seen: set<int>, steps: nat, depth: nat)
  {
    && (r.Ok? <==> (a.id in train ==> a.id !in seen && Acceptable(train, a, listing)))
    && (r.Ok? ==> (r.value.Some? <==> LongEnough(train, a, listing, steps, depth)))
    && (r.Ok? && r.value.Some? ==> TakenFrom(r.value.value, train, a, listing, steps, depth))
    && (r.Err? ==> Blames(r.error, train, a, listing, seen))
  }

  lemma ErrorPlainly(train: map<int, TrainEpisode>, a: Annotation, listing: map<string, seq<File>>, seen: set<int>,
                     steps: nat, depth: nat)
    requires steps > 0 && JoinOne(train, a, listing, seen, steps, depth).Err?
    ensures Blames(JoinOne(train, a, listing, seen, steps, depth).error, train, a, listing, seen)
  {
    JoinOneFacts(train, a, listing, seen, steps, depth);
    assert forall s: string :: NonBlank(s) <==> HasText(s);
  }

  lemma NextPlainly(train: map<int, TrainEpisode>, a: Annotation, listing: map<string, seq<File>>, seen: set<int>,
                    steps: nat, depth: nat)
    requires steps > 0
    ensures PlainNext(JoinOne(train, a, listing, seen, steps, depth), train, a, listing, seen, steps, depth)
  {
    if a.id in train && a.id in seen {
      SeenRejected(train, a, listing, seen, steps, depth);
    } else {
      if a.id in train {
        SeenIrrelevant(train, a, listing, seen, steps, depth);
        AcceptableIff(train, a, listing, steps, depth);
      }
      if JoinOne(train, a, listing, {}, steps, depth).Ok? {
        AlonePlainly(train, a, listing, steps, depth);
      }
    }
    if JoinOne(train, a, listing, seen, steps, depth).Err? {
      ErrorPlainly(train, a, listing, seen, steps, depth);
    }
  }

  lemma OutsideTraining(train: map<int, TrainEpisode>, a: Annotation, listing: map<string, seq<File>>, steps: nat,
                        depth: nat)
    requires a.id !in train
    ensures JoinOne(train, a, listing, {}, steps, depth) == Ok(None)
    ensures Alone(train, a, listing, steps, depth).None? && !LongEnough(train, a, listing, steps, depth)
  {
  }

  /** An annotation raises nothing exactly when it is acceptable or of no training episode; it then
      gives an episode exactly when its directory is long enough. */
  lemma RaisesIff(train: map<int, TrainEpisode>, a: Annotation, listing: map<string, seq<File>>, steps: nat, depth: nat)
    requires steps > 0
    ensures JoinOne(train, a, listing, {}, steps, depth).Ok? <==> (a.id in train ==> Acceptable(train, a, listing))
    ensures JoinOne(train, a, listing, {}, steps, depth).Ok? ==>
              (Alone(train, a, listing, steps, depth).Some? <==> LongEnough(train, a, listing, steps, depth))
  {
    if a.id in train {
      AcceptableIff(train, a, listing, steps, depth);
      if JoinOne(train, a, listing, {}, steps, depth).Ok? {
        AlonePlainly(train, a, listing, steps, depth);
      }
    } else {
      OutsideTraining(train, a, listing, steps, depth);
    }
  }

  lemma NothingRaisedIff(train: map<int, TrainEpisode>, annotations: seq<Annotation>, listing: map<string, seq<File>>,
                         steps: nat, depth: nat)
    requires steps > 0
    ensures (forall k :: 0 <= k < |annotations| ==> Clean(train, annotations, k, listing, steps, depth))
            <==> NothingRaised(train, annotations, listing, steps, depth)
  {
    if forall k :: 0 <= k < |annotations| ==> Clean(train, annotations, k, listing, steps, depth) {
      CleanRaisesNothing(train, annotations, listing, steps, depth);
    }
    if NothingRaised(train, annotations, listing, steps, depth) {
      NothingRaisedClean(train, annotations, listing, steps, depth);
    }
  }

  lemma CleanRaisesNothing(train: map<int, TrainEpisode>, annotations: seq<Annotation>,
                           listing: map<string, seq<File>>, steps: nat, depth: nat)
    requires steps > 0
    requires forall k :: 0 <= k < |annotations| ==> Clean(train, annotations, k, listing, steps, depth)
    ensures NothingRaised(train, annotations, listing, steps, depth)
  {
    forall k | 0 <= k < |annotations| && annotations[k].id in train
      ensures Acceptable(train, annotations[k], listing)
    {
      assert Clean(train, annotations, k, listing, steps, depth);
      RaisesIff(train, annotations[k], listing, steps, depth);
    }
    forall j, k | 0 <= j < k < |annotations| && annotations[j].id == annotations[k].id && annotations[k].id in train
      ensures !LongEnough(train, annotations[j], listing, steps, depth)
    {
      assert Clean(train, annotations, k, listing, steps, depth) && Clean(train, annotations, j, listing, steps, depth);
      RaisesIff(train, annotations[j], listing, steps, depth);
    }
  }

  lemma NothingRaisedClean(train: map<int, TrainEpisode>, annotations: seq<Annotation>,
                           listing: map<string, seq<File>>, steps: nat, depth: nat)
    requires steps > 0 && NothingRaised(train, annotations, listing, steps, depth)
    ensures forall k :: 0 <= k < |annotations| ==> Clean(train, annotations, k, listing, steps, depth)
  {
    forall k | 0 <= k < |annotations| ensures Clean(train, annotations, k, listing, steps, depth) {
      RaisesIff(train, annotations[k], listing, steps, depth);
      forall j | 0 <= j < k && annotations[j].id == annotations[k].id
        ensures Alone(train, annotations[j], listing, steps, depth).None?
      {
        RaisesIff(train, annotations[j], listing, steps, depth);
      }
    }
  }

  lemma LongOnesNext(train: map<int, TrainEpisode>, annotations: seq<Annotation>, n: nat,
                     listing: map<string, seq<File>>, steps: nat, depth: nat)
    requires n < |annotations|
    ensures |LongOnes(train, annotations, n + 1, listing, steps, depth)|
            == |LongOnes(train, annotations, n, listing, steps, depth)|
               + if LongEnough(train, annotations[n], listing, steps, depth) then 1 else 0
  {
    var before, after := LongOnes(train, annotations, n, listing, steps, depth),
      LongOnes(train, annotations, n + 1, listing, steps, depth);
    if LongEnough(train, annotations[n], listing, steps, depth) {
      assert after == before + {n};
    } else {
      assert after == before;
    }
  }

  /** As many episodes are gathered as annotations are long enough. */
  lemma {:induction false} GatheredCount(train: map<int, TrainEpisode>, annotations: seq<Annotation>, n: nat,
                                         listing: map<string, seq<File>>, steps: nat, depth: nat)
    requires steps > 0 && n <= |annotations|
    requires forall k :: 0 <= k < n ==> JoinOne(train, annotations[k], listing, {}, steps, depth).Ok?
    ensures |Gathered(train, annotations, n, listing, steps, depth)|
            == |LongOnes(train, annotations, n, listing, steps, depth)|
  {
    if n > 0 {
      GatheredCount(train, annotations, n - 1, listing, steps, depth);
      RaisesIff(train, annotations[n - 1], listing, steps, depth);
      LongOnesNext(train, annotations, n - 1, listing, steps, depth);
    }
  }

  lemma ChosenPlainly(eps: seq<Joined>, train: map<int, TrainEpisode>, annotations: seq<Annotation>,
                      listing: map<string, seq<File>>, count: nat, steps: nat, depth: nat)
    requires steps > 0 && Chosen(eps, train, annotations, listing, count, steps, depth)
    requires forall k :: 0 <= k < |annotations| ==> JoinOne(train, annotations[k], listing, {}, steps, depth).Ok?
    ensures FirstTaken(eps, train, annotations, listing, count, steps, depth)
  {
    forall i | 0 <= i < |eps|
      ensures TakenFromSome(eps[i], train, annotations, listing, steps, depth)
    {
      assert GivenBy(eps[i], train, annotations, |annotations|, listing, steps, depth);
      var k :| 0 <= k < |annotations| && Alone(train, annotations[k], listing, steps, depth) == Some(eps[i]);
      RaisesIff(train, annotations[k], listing, steps, depth);
      AlonePlainly(train, annotations[k], listing, steps, depth);
      assert TakenFrom(eps[i], train, annotations[k], listing, steps, depth);
    }
    forall k | 0 <= k < |annotations| && LongEnough(train, annotations[k], listing, steps, depth)
      ensures (exists i :: 0 <= i < |eps| && TakenFrom(eps[i], train, annotations[k], listing, steps, depth))
              || forall i :: 0 <= i < |eps| ==> eps[i].id < annotations[k].id
    {
      AlonePlainly(train, annotations[k], listing, steps, depth);
      assert TakenOrLater(eps, Alone(train, annotations[k], listing, steps, depth).value);
    }
  }

  /** What a join answers, in terms of its inputs alone. */
  lemma JoinPlainly(r: Result<seq<Joined>, JoinError>, train: map<int, TrainEpisode>, annotations: seq<Annotation>,
                    listing: map<string, seq<File>>, count: nat, steps: nat, depth: nat)
    requires steps > 0 && (r.Ok? <==> Joinable(train, annotations, listing, count, steps, depth))
    requires r.Ok? ==> Chosen(r.value, train, annotations, listing, count, steps, depth)
    ensures PlainJoin(r, train, annotations, listing, count, steps, depth)
  {
    NothingRaisedIff(train, annotations, listing, steps, depth);
    if forall k :: 0 <= k < |annotations| ==> Clean(train, annotations, k, listing, steps, depth) {
      forall k | 0 <= k < |annotations| ensures JoinOne(train, annotations[k], listing, {}, steps, depth).Ok? {
        assert Clean(train, annotations, k, listing, steps, depth);
      }
      GatheredCount(train, annotations, |annotations|, listing, steps, depth);
      if r.Ok? {
        ChosenPlainly(r.value, train, annotations, listing, count, steps, depth);
      }
    }
  }

  lemma JoinNextFound(joined: seq<Joined>, seen: set<int>, train: map<int, TrainEpisode>, annotations: seq<Annotation>,
                      n: nat, listing: map<string, seq<File>>, steps: nat, depth: nat)
    returns (joined': seq<Joined>, seen': set<int>)
    requires n < |annotations| && steps > 0 && JoinedUpTo(joined, seen, train, annotations, n, listing, steps, depth)
    requires Clean(train, annotations, n, listing, steps, depth)
    ensures JoinedUpTo(joined', seen', train, annotations, n + 1, listing, steps, depth)
  {
    var one := JoinOne(train, annotations[n], listing, seen, steps, depth);
    JoinStep(joined, seen, train, annotations, n, listing, steps, depth, one);
    joined' := Extended(joined, seen, one.value, annotations[n].id).0;
    seen' := Extended(joined, seen, one.value, annotations[n].id).1;
  }

  lemma NoneFound(train: map<int, TrainEpisode>, annotations: seq<Annotation>, listing: map<string, seq<File>>,
                  steps: nat, depth: nat)
    ensures JoinedUpTo([], {}, train, annotations, 0, listing, steps, depth)
  {
  }

  /** Gathering clean annotations gives what they give one by one. */
  lemma {:induction false} GatheredFound(train: map<int, TrainEpisode>, annotations: seq<Annotation>, n: nat,
                                         listing: map<string, seq<File>>, steps: nat, depth: nat)
    returns (joined: seq<Joined>, seen: set<int>)
    requires steps > 0 && n <= |annotations|
    requires forall k :: 0 <= k < n ==> Clean(train, annotations, k, listing, steps, depth)
    ensures JoinedUpTo(joined, seen, train, annotations, n, listing, steps, depth)
  {
    if n == 0 {
      NoneFound(train, annotations, listing, steps, depth);
      joined, seen := [], {};
    } else {
      joined, seen := GatheredFound(train, annotations, n - 1, listing, steps, depth);
      joined, seen := JoinNextFound(joined, seen, train, annotations, n - 1, listing, steps, depth);
    }
  }

  /** The episodes a join chooses, in terms of its inputs alone. */
  lemma FirstPlainly(train: map<int, TrainEpisode>, annotations: seq<Annotation>, listing: map<string, seq<File>>,
                     count: nat, steps: nat, depth: nat)
    requires steps > 0 && Joinable(train, annotations, listing, count, steps, depth)
    ensures PlainJoin(Ok(FirstById(train, annotations, listing, count, steps, depth)), train, annotations, listing,
                      count, steps, depth)
  {
    var joined, seen := GatheredFound(train, annotations, |annotations|, listing, steps, depth);
    ChosenFromFound(joined, seen, train, annotations, listing, count, steps, depth);
    JoinPlainly(Ok(FirstById(train, annotations, listing, count, steps, depth)), train, annotations, listing, count,
                steps,
                depth);
  }

  /** Joins the annotations in order, sorts by episode id and keeps the first `count`. It succeeds
      exactly when every annotation is clean and enough of them give an episode. */
  method Join(train: map<int, TrainEpisode>, annotations: seq<Annotation>, listing: map<string, seq<File>>, count: nat,
              steps: nat, depth: nat)
    returns (r: Result<seq<Joined>, JoinError>)
    requires steps > 0
    ensures r.Ok? <==> Joinable(train, annotations, listing, count, steps, depth)
    ensures r.Ok? ==> r.value == FirstById(train, annotations, listing, count, steps, depth)
    ensures r.Ok? ==> Chosen(r.value, train, annotations, listing, count, steps, depth)
    ensures PlainJoin(r, train, annotations, listing, count, steps, depth)
    ensures r.Err? ==> !r.error.Quantile?
  {
    r := JoinAll(train, annotations, listing, count, steps, depth);
    JoinPlainly(r, train, annotations, listing, count, steps, depth);
  }

  /** Gathers, sorts and cuts. */
  method JoinAll(train: map<int, TrainEpisode>, annotations: seq<Annotation>, listing: map<string, seq<File>>,
                 count: nat, steps: nat, depth: nat)
    returns (r: Result<seq<Joined>, JoinError>)
    requires steps > 0
    ensures r.Ok? <==> Joinable(train, annotations, listing, count, steps, depth)
    ensures r.Ok? ==> r.value == FirstById(train, annotations, listing, count, steps, depth)
    ensures r.Ok? ==> Chosen(r.value, train, annotations, listing, count, steps, depth)
    ensures r.Err? ==> !r.error.Quantile?
  {
    var gathered, seen := Gather(train, annotations, listing, steps, depth);
    if gathered.Err? {
      return Err(gathered.error);
    }
    var joined := gathered.value;
    if |joined| < count {
      return Err(TooFewEpisodes);
    }
    ChosenFromFound(joined, seen, train, annotations, listing, count, steps, depth);
    var sorted := SortById(joined);
    return Ok(sorted[..count]);
  }
}
