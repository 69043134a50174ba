/** What a manifest sample says about one step of one episode. */
module ManifestSamples {
  import opened Names
  import opened Manifest
  import opened EpisodeJoin
  import opened Derivatives
  import Quantiles

  datatype Sample = Sample(ep: Joined, quantile: nat)

  const FRAME := Size(320, 240)
  const PANORAMA := Size(960, 240)

  /** A sample whose whole window exists in an aligned episode. */
  predicate Usable(s: Sample) {
    && s.quantile < |s.ep.steps| && 4 <= s.ep.steps[s.quantile] && s.ep.steps[s.quantile] + 2 < |s.ep.frames|
    && |s.ep.actions| == |s.ep.frames| && ValidActions(s.ep.actions)
  }

  function Step(s: Sample): nat
    requires Usable(s)
  {
    s.ep.steps[s.quantile]
  }

  function IdOf(s: Sample): string
    requires Usable(s)
  {
    SampleId(s.ep.id, s.quantile, Step(s))
  }

  function Current(s: Sample): File
    requires Usable(s)
  {
    s.ep.frames[Step(s)]
  }

  /** The four frames before the step, oldest first. */
  function History(s: Sample): seq<File>
    requires Usable(s)
  {
    s.ep.frames[Step(s) - 4..Step(s)]
  }

  function HistoryIndexes(s: Sample): seq<int>
    requires Usable(s)
  {
    [Step(s) - 4, Step(s) - 3, Step(s) - 2, Step(s) - 1]
  }

  function CandidateIndexes(s: Sample): seq<int>
    requires Usable(s)
  {
    [Step(s) - 2, Step(s) - 1, Step(s) + 1, Step(s) + 2]
  }

  function CandidateFrames(s: Sample): seq<File>
    requires Usable(s)
  {
    var f, k := s.ep.frames, Step(s);
    [f[k - 2], f[k - 1], f[k + 1], f[k + 2]]
  }

  /** Every frame the sample uses. */
  function Window(s: Sample): seq<File>
    requires Usable(s)
  {
    s.ep.frames[Step(s) - 4..Step(s) + 3]
  }

  function Response(action: int): string
    requires IsAction(action)
  {
    if action == 0 then "Stop" else if action == 1 then "Move" else if action == 2 then "Left" else "Right"
  }

  /** The action that answered a frame is the one after it. */
  function Responses(actions: seq<int>, indexes: seq<int>): (r: seq<string>)
    requires ValidActions(actions) && forall k :: 0 <= k < |indexes| ==> 0 <= indexes[k] < |actions| - 1
    ensures |r| == |indexes|
  {
    if indexes == [] then [] else [Response(actions[indexes[0] + 1])] + Responses(actions, indexes[1..])
  }

  function HistoryResponses(s: Sample): seq<string>
    requires Usable(s)
  {
    Responses(s.ep.actions, HistoryIndexes(s))
  }

  /** How many of the actions up to `hi` move forward. */
  function Moves(actions: seq<int>, hi: nat): nat
    requires hi <= |actions|
  {
    if hi <= 1 then 0 else Moves(actions, hi - 1) + if actions[hi - 1] == 1 then 1 else 0
  }

  function Travelled(s: Sample): real
    requires Usable(s)
  {
    0.25 * Moves(s.ep.actions, Step(s) + 1) as real
  }

  function CanMove(s: Sample): bool
    requires Usable(s)
  {
    s.ep.actions[Step(s) + 1] != 0
  }

  // ---- fits ----

  function Keys(frames: seq<File>, category: string, size: Size): (r: seq<Key>)
    ensures |r| == |frames| && forall i :: 0 <= i < |frames| ==> r[i] == Key(frames[i], category, size)
  {
    if frames == [] then []
      else Keys(frames[..|frames| - 1], category, size) + [Key(frames[|frames| - 1], category, size)]
  }

  /** The derived paths of keys under the root. */
  ghost predicate DerivedFrom(c: Setting, keys: seq<Key>, paths: seq<File>) {
    |paths| == |keys|
    && forall i :: 0 <= i < |keys| ==> c.root <= keys[i].source.dir && paths[i] == RelativeOutput(c, keys[i])
  }

  function NavidaKeys(s: Sample): seq<Key>
    requires Usable(s)
  {
    Keys([Current(s)] + History(s), "navida_320x240", FRAME)
  }

  function CandidateKeys(s: Sample): seq<Key>
    requires Usable(s)
  {
    Keys(CandidateFrames(s), "panoramic_candidates_320x240", FRAME)
  }

  function PanoramaKeys(s: Sample): seq<Key>
    requires Usable(s)
  {
    Keys([Current(s)] + History(s), "panoramic_960x240", PANORAMA)
  }

  function RelativeAll(root: seq<string>, frames: seq<File>): (r: seq<File>)
    requires forall i :: 0 <= i < |frames| ==> root <= frames[i].dir
    ensures |r| == |frames| && forall i :: 0 <= i < |frames| ==> r[i] == Relative(root, frames[i])
  {
    if frames == [] then [] else RelativeAll(root, frames[..|frames| - 1]) + [Relative(root, frames[|frames| - 1])]
  }

  // ---- the records of a sample ----

  ghost predicate LowFor(c: Setting, s: Sample, r: Record) {
    match r
    case LowRecord(id, instruction, current, history, responses, distance, movePossible) =>
      && Usable(s) && id == IdOf(s) && instruction == s.ep.instruction
      && c.root <= Current(s).dir && current == Relative(c.root, Current(s))
      && |history| == 4
         && (forall i :: 0 <= i < 4 ==> c.root <= History(s)[i].dir && history[i] == Relative(c.root, History(s)[i]))
      && responses == HistoryResponses(s) && distance == Travelled(s) && movePossible == CanMove(s)
    case _ => false
  }

  ghost predicate NavidaFor(c: Setting, resize: bool, s: Sample, r: Record) {
    match r
    case NavidaRecord(id, instruction, current, history) =>
      && Usable(s) && id == IdOf(s) && instruction == s.ep.instruction && |history| == 4
      && (if resize then DerivedFrom(c, NavidaKeys(s), [current] + history)
          else
            && c.root <= Current(s).dir && current == Relative(c.root, Current(s))
            && (forall i :: 0 <= i < 4 ==>
                  c.root <= History(s)[i].dir && history[i] == Relative(c.root, History(s)[i])))
    case _ => false
  }

  function Angle(i: nat): real
    requires i < 4
  {
    [-90.0, -30.0, 30.0, 90.0][i]
  }

  function Hop(i: nat): real
    requires i < 4
  {
    [0.5, 0.25, 0.25, 0.5][i]
  }

  ghost predicate PanoramicFor(c: Setting, s: Sample, r: Record) {
    match r
    case PanoramicRecord(id, instruction, current, history, responses, distance, candidates) =>
      && Usable(s) && id == IdOf(s) && instruction == s.ep.instruction && |history| == 4
      && DerivedFrom(c, PanoramaKeys(s), [current] + history)
      && responses == HistoryResponses(s) && distance == Travelled(s)
      && |candidates| == 4
      && (forall i :: 0 <= i < 4 ==>
            && c.root <= CandidateFrames(s)[i].dir
               && candidates[i] == Candidate(RelativeOutput(c, CandidateKeys(s)[i]), Angle(i), Hop(i)))
    case _ => false
  }

  ghost predicate SelectedFor(tools: Tools, s: Sample, d: Selected) {
    Usable(s) && d == Selected(IdOf(s), s.ep.id, s.ep.scene, tools.text(s.ep.instruction), s.quantile, Step(s),
                               HistoryIndexes(s),
                               CandidateIndexes(s), s.ep.actions[Step(s) + 1], HistoryResponses(s))
  }

  // ---- the order of samples ----

  /** The samples of the first `i` episodes, then those of episode `i` before quantile `q`. */
  ghost function Samples(eps: seq<Joined>, i: nat, q: nat): seq<Sample>
    requires i <= |eps| && (i < |eps| || q == 0)
    decreases i, q
  {
    if q > 0 then Samples(eps, i, q - 1) + [Sample(eps[i], q - 1)]
    else if i > 0 then Samples(eps, i - 1, |eps[i - 1].steps|)
    else []
  }

  ghost predicate AllSteps(eps: seq<Joined>, steps: nat) {
    forall i :: 0 <= i < |eps| ==> |eps[i].steps| == steps
  }

  /** Sample `e * steps + r` is quantile `r` of episode `e`. */
  lemma {:induction false} SampleAt(eps: seq<Joined>, steps: nat, i: nat, q: nat, e: nat, r: nat)
    requires AllSteps(eps, steps) && i <= |eps| && q <= steps && (i < |eps| || q == 0)
    requires r < steps && (e < i || (e == i && r < q))
    ensures |Samples(eps, i, q)| == i * steps + q && e * steps + r < i * steps + q
    ensures Samples(eps, i, q)[e * steps + r] == Sample(eps[e], r)
    decreases i, q
  {
    SamplesLength(eps, steps, i, q);
    Quantiles.MulMono(e, i, steps);
    if q > 0 {
      SamplesLength(eps, steps, i, q - 1);
      if e < i || r < q - 1 {
        SampleAt(eps, steps, i, q - 1, e, r);
      }
    } else {
      Quantiles.MulMono(e, i - 1, steps);
      assert i * steps == (i - 1) * steps + steps;
      SampleAt(eps, steps, i - 1, steps, e, r);
    }
  }

  lemma {:induction false} SamplesLength(eps: seq<Joined>, steps: nat, i: nat, q: nat)
    requires AllSteps(eps, steps) && i <= |eps| && q <= steps && (i < |eps| || q == 0)
    ensures |Samples(eps, i, q)| == i * steps + q
    decreases i, q
  {
    if q > 0 {
      SamplesLength(eps, steps, i, q - 1);
    } else if i > 0 {
      SamplesLength(eps, steps, i - 1, steps);
      assert i * steps == (i - 1) * steps + steps;
    }
  }

  /** Every sample is some quantile of some episode, and its position says which. */
  lemma {:induction false} SampleFrom(eps: seq<Joined>, steps: nat, i: nat, q: nat, k: nat) returns (e: nat, r: nat)
    requires AllSteps(eps, steps) && i <= |eps| && q <= steps && (i < |eps| || q == 0) && k < |Samples(eps, i, q)|
    ensures e < |eps| && r < steps && k == e * steps + r && Samples(eps, i, q)[k] == Sample(eps[e], r)
    decreases i, q
  {
    if q > 0 {
      SamplesLength(eps, steps, i, q - 1);
      if k < |Samples(eps, i, q - 1)| {
        e, r := SampleFrom(eps, steps, i, q - 1, k);
      } else {
        e, r := i, q - 1;
      }
    } else {
      e, r := SampleFrom(eps, steps, i - 1, steps, k);
    }
  }

  // ---- distance and responses tell the same story ----

  function MoveAnswers(responses: seq<string>): nat {
    if responses == [] then 0 else (if responses[0] == "Move" then 1 else 0) + MoveAnswers(responses[1..])
  }

  lemma IsMove(action: int)
    requires IsAction(action)
    ensures Response(action) == "Move" <==> action == 1
  {
    assert "Move"[0] == 'M';
    assert "Stop"[0] == 'S' && "Left"[0] == 'L' && "Right"[0] == 'R';
  }

  lemma {:induction false} AnswersMove(actions: seq<int>, lo: nat, hi: nat)
    requires ValidActions(actions) && lo <= hi < |actions|
    ensures (forall k :: 0 <= k < |Range(lo, hi)| ==> 0 <= Range(lo, hi)[k] < |actions| - 1)
    ensures MoveAnswers(Responses(actions, Range(lo, hi))) == Moves(actions, hi + 1) - Moves(actions, lo + 1)
    decreases hi - lo
  {
    RangeFacts(lo, hi);
    if lo < hi {
      AnswersMove(actions, lo + 1, hi);
      assert Range(lo, hi)[1..] == Range(lo + 1, hi);
      IsMove(actions[lo + 1]);
      assert Responses(actions, Range(lo, hi))[1..] == Responses(actions, Range(lo, hi)[1..]);
    }
  }

  /** The distance covered over a sample's history is a quarter metre per "Move" among its responses. */
  lemma HistoryMatchesDistance(s: Sample)
    requires Usable(s)
    ensures Travelled(s)
            == 0.25 * Moves(s.ep.actions, Step(s) - 3) as real + 0.25 * MoveAnswers(HistoryResponses(s)) as real
  {
    RangeFacts(Step(s) - 4, Step(s));
    assert Range(Step(s) - 4, Step(s)) == HistoryIndexes(s);
    AnswersMove(s.ep.actions, Step(s) - 4, Step(s));
  }
}
