/** The manifest rows of one sample, and the images they need. */
module ManifestRows {
  import opened Wrappers
  import opened Names
  import opened Manifest
  import opened EpisodeJoin
  import opened Derivatives
  import opened ManifestSamples

  // ---- what is kept about the store while rows are built ----

  /** The store is sound and has fitted only what is wanted. */
  ghost predicate Stored(c: Setting, before: Files, s: Store, wanted: set<Key>) {
    Sound(c, before, s) && s.paths.Keys <= wanted
  }

  /** Wanted images are resampled from numbered frames below the root. */
  ghost predicate Proper(root: seq<string>, wanted: set<Key>) {
    forall k :: k in wanted ==> root <= k.source.dir && Digits(k.source.stem) && k.category != ".."
  }

  /** All frames to resample are JPEG images. */
  ghost predicate Readable(files: Files, wanted: set<Key>) {
    forall k :: k in wanted ==> JpegAt(files, k.source)
  }

  ghost predicate AllIn(keys: seq<Key>, wanted: set<Key>) {
    forall i :: 0 <= i < |keys| ==> keys[i] in wanted
  }

  /** From `start` to `s` the store stayed sound and forgot nothing. */
  ghost predicate Grown(c: Setting, before: Files, wanted: set<Key>, start: Store, s: Store) {
    match s
    case Store(_, _, _, _, _) => Stored(c, before, s, wanted) && Extends(start, s)
  }

  lemma GrownOn(c: Setting, before: Files, wanted: set<Key>, a: Store, b: Store, s: Store)
    requires Grown(c, before, wanted, a, b) && Grown(c, before, wanted, b, s)
    ensures Grown(c, before, wanted, a, s)
  {
  }

  ghost predicate KeysIn(paths: map<Key, File>, keys: seq<Key>) {
    forall i :: 0 <= i < |keys| ==> keys[i] in paths
  }

  ghost predicate KeysKept(paths: map<Key, File>, s: Sample, resize: bool) {
    && Usable(s) && KeysIn(paths, CandidateKeys(s)) && KeysIn(paths, PanoramaKeys(s))
    && (resize ==> KeysIn(paths, NavidaKeys(s)))
  }

  lemma KeysStay(s: Store, s': Store, keys: seq<Key>)
    requires Extends(s, s') && KeysIn(s.paths, keys)
    ensures KeysIn(s'.paths, keys)
  {
  }

  lemma KeptStay(s: Store, s': Store, sample: Sample, resize: bool)
    requires Extends(s, s') && KeysKept(s.paths, sample, resize)
    ensures KeysKept(s'.paths, sample, resize)
  {
    KeysStay(s, s', CandidateKeys(sample));
    KeysStay(s, s', PanoramaKeys(sample));
    if resize {
      KeysStay(s, s', NavidaKeys(sample));
    }
  }

  /** Fits one frame. */
  method FitOne(d: Derivatives, source: File, category: string, size: Size, ghost before: Files, ghost wanted: set<Key>)
    returns (r: Result<File, FitError>)
    requires Stored(d.setting, before, d.Value(), wanted) && Proper(d.setting.root, wanted)
             && Key(source, category, size) in wanted
    modifies d, d.disk
    ensures r.Ok? ==> Grown(d.setting, before, wanted, old(d.Value()), d.Value())
    ensures r.Ok? ==> var k := Key(source, category, size);
                      k in d.paths && d.setting.root <= source.dir && r.value == RelativeOutput(d.setting, k)
    ensures Readable(before, wanted) ==> r.Ok?
  {
    ghost var s := d.Value();
    if Readable(before, wanted) {
      FitSucceeds(d.setting, before, s, Key(source, category, size));
    }
    r := d.Fit(source, category, size);
    if r.Ok? {
      FitKeeps(d.setting, before, s, Key(source, category, size));
    }
  }

  /** Keys have been fitted, giving `paths`. */
  ghost predicate Progress(c: Setting, s: Store, keys: seq<Key>, paths: seq<File>) {
    DerivedFrom(c, keys, paths) && KeysIn(s.paths, keys)
  }

  lemma ProgressMore(c: Setting, s: Store, keys: seq<Key>, paths: seq<File>, k: Key, s': Store, path: File)
    requires Progress(c, s, keys, paths) && Extends(s, s')
    requires k in s'.paths && c.root <= k.source.dir && path == RelativeOutput(c, k)
    ensures Progress(c, s', keys + [k], paths + [path])
  {
    KeysStay(s, s', keys);
  }

  /** Fits a list of frames in order. */
  method FitMany(d: Derivatives, frames: seq<File>, category: string, size: Size, ghost before: Files,
                 ghost wanted: set<Key>)
    returns (r: Result<seq<File>, FitError>)
    requires Stored(d.setting, before, d.Value(), wanted) && Proper(d.setting.root, wanted)
             && AllIn(Keys(frames, category, size), wanted)
    modifies d, d.disk
    ensures r.Ok? ==> Grown(d.setting, before, wanted, old(d.Value()), d.Value())
                      && Progress(d.setting, d.Value(), Keys(frames, category, size), r.value)
    ensures Readable(before, wanted) ==> r.Ok?
  {
    var paths: seq<File> := [];
    ghost var start, keys := d.Value(), Keys(frames, category, size);
    for i := 0 to |frames|
      invariant Grown(d.setting, before, wanted, start, d.Value()) && Progress(d.setting, d.Value(), keys[..i], paths)
    {
      ghost var s := d.Value();
      var one := FitOne(d, frames[i], category, size, before, wanted);
      if one.Err? {
        return Err(one.error);
      }
      GrownOn(d.setting, before, wanted, start, s, d.Value());
      ProgressMore(d.setting, s, keys[..i], paths, keys[i], d.Value(), one.value);
      TakeMore(keys, i);
      paths := paths + [one.value];
    }
    assert keys[..|frames|] == keys;
    return Ok(paths);
  }

  // ---- one sample ----

  datatype Row = Row(low: Record, navida: Record, panoramic: Record, selected: Selected)

  ghost predicate RowFor(c: Setting, resize: bool, s: Sample, row: Row) {
    LowFor(c, s, row.low) && NavidaFor(c, resize, s, row.navida) && PanoramicFor(c, s, row.panoramic)
    && SelectedFor(c.tools, s, row.selected)
  }

  /** Every image the sample needs is wanted. */
  ghost predicate Needs(s: Sample, resize: bool, wanted: set<Key>) {
    Usable(s) && AllIn(CandidateKeys(s), wanted) && AllIn(PanoramaKeys(s), wanted)
    && (resize ==> AllIn(NavidaKeys(s), wanted))
  }

  lemma FramesRooted(root: seq<string>, s: Sample, resize: bool, wanted: set<Key>)
    requires Needs(s, resize, wanted) && Proper(root, wanted)
    ensures root <= Current(s).dir && forall i :: 0 <= i < 4 ==> root <= History(s)[i].dir
  {
    var keys := PanoramaKeys(s);
    assert keys[0] in wanted && keys[0].source == Current(s);
    forall i | 0 <= i < 4 ensures root <= History(s)[i].dir {
      assert keys[i + 1] in wanted && keys[i + 1].source == ([Current(s)] + History(s))[i + 1];
    }
  }

  method LowRow(root: seq<string>, s: Sample, ghost resize: bool, ghost c: Setting, ghost wanted: set<Key>)
    returns (r: Record)
    requires c.root == root && Needs(s, resize, wanted) && Proper(root, wanted)
    ensures LowFor(c, s, r)
  {
    FramesRooted(root, s, resize, wanted);
    r := LowRecord(IdOf(s), s.ep.instruction, Relative(root, Current(s)), RelativeAll(root, History(s)),
                   HistoryResponses(s), Travelled(s),
                   CanMove(s));
  }

  method NavidaRow(d: Derivatives, s: Sample, resize: bool, ghost before: Files, ghost wanted: set<Key>)
    returns (r: Result<Record, FitError>)
    requires Stored(d.setting, before, d.Value(), wanted) && Needs(s, resize, wanted) && Proper(d.setting.root, wanted)
    modifies d, d.disk
    ensures r.Ok? ==> Grown(d.setting, before, wanted, old(d.Value()), d.Value())
    ensures r.Ok? ==> NavidaFor(d.setting, resize, s, r.value) && (resize ==> KeysIn(d.paths, NavidaKeys(s)))
    ensures Readable(before, wanted) ==> r.Ok?
  {
    FramesRooted(d.setting.root, s, resize, wanted);
    if resize {
      var paths := FitMany(d, [Current(s)] + History(s), "navida_320x240", FRAME, before, wanted);
      if paths.Err? {
        return Err(paths.error);
      }
      HeadTail(paths.value);
      r := Ok(NavidaRecord(IdOf(s), s.ep.instruction, paths.value[0], paths.value[1..]));
    } else {
      r := Ok(NavidaRecord(IdOf(s), s.ep.instruction, Relative(d.setting.root, Current(s)),
                           RelativeAll(d.setting.root, History(s))));
    }
  }

  function MakeCandidates(images: seq<File>): (r: seq<Candidate>)
    requires |images| == 4
    ensures |r| == 4 && forall i :: 0 <= i < 4 ==> r[i] == Candidate(images[i], Angle(i), Hop(i))
  {
    [Candidate(images[0], Angle(0), Hop(0)), Candidate(images[1], Angle(1), Hop(1)),
     Candidate(images[2], Angle(2), Hop(2)), Candidate(images[3], Angle(3), Hop(3))]
  }

  lemma HeadTail<T>(s: seq<T>)
    requires s != []
    ensures [s[0]] + s[1..] == s
  {
  }

  function MakePanoramic(s: Sample, candidates: seq<File>, paths: seq<File>, ghost c: Setting): (r: Record)
    requires Usable(s) && DerivedFrom(c, CandidateKeys(s), candidates) && DerivedFrom(c, PanoramaKeys(s), paths)
    ensures PanoramicFor(c, s, r)
  {
    HeadTail(paths);
    PanoramicRecord(IdOf(s), s.ep.instruction, paths[0], paths[1..], HistoryResponses(s), Travelled(s),
                    MakeCandidates(candidates))
  }

  method FitCandidates(d: Derivatives, s: Sample, ghost before: Files, ghost wanted: set<Key>)
    returns (r: Result<seq<File>, FitError>)
    requires Stored(d.setting, before, d.Value(), wanted) && Proper(d.setting.root, wanted) && Usable(s)
             && AllIn(CandidateKeys(s), wanted)
    modifies d, d.disk
    ensures r.Ok? ==> Grown(d.setting, before, wanted, old(d.Value()), d.Value())
    ensures r.Ok? ==> Progress(d.setting, d.Value(), CandidateKeys(s), r.value)
    ensures Readable(before, wanted) ==> r.Ok?
  {
    r := FitMany(d, CandidateFrames(s), "panoramic_candidates_320x240", FRAME, before, wanted);
  }

  method FitPanoramas(d: Derivatives, s: Sample, ghost before: Files, ghost wanted: set<Key>)
    returns (r: Result<seq<File>, FitError>)
    requires Stored(d.setting, before, d.Value(), wanted) && Proper(d.setting.root, wanted) && Usable(s)
             && AllIn(PanoramaKeys(s), wanted)
    modifies d, d.disk
    ensures r.Ok? ==> Grown(d.setting, before, wanted, old(d.Value()), d.Value())
    ensures r.Ok? ==> Progress(d.setting, d.Value(), PanoramaKeys(s), r.value)
    ensures Readable(before, wanted) ==> r.Ok?
  {
    r := FitMany(d, [Current(s)] + History(s), "panoramic_960x240", PANORAMA, before, wanted);
  }

  method PanoramicRow(d: Derivatives, s: Sample, ghost before: Files, ghost wanted: set<Key>)
    returns (r: Result<Record, FitError>)
    requires Stored(d.setting, before, d.Value(), wanted) && Proper(d.setting.root, wanted)
    requires Usable(s) && AllIn(CandidateKeys(s), wanted) && AllIn(PanoramaKeys(s), wanted)
    modifies d, d.disk
    ensures r.Ok? ==> Grown(d.setting, before, wanted, old(d.Value()), d.Value())
    ensures r.Ok? ==>
              PanoramicFor(d.setting, s, r.value) && KeysIn(d.paths, CandidateKeys(s))
              && KeysIn(d.paths, PanoramaKeys(s))
    ensures Readable(before, wanted) ==> r.Ok?
  {
    ghost var start := d.Value();
    var candidates := FitCandidates(d, s, before, wanted);
    if candidates.Err? {
      return Err(candidates.error);
    }
    ghost var half := d.Value();
    var paths := FitPanoramas(d, s, before, wanted);
    if paths.Err? {
      return Err(paths.error);
    }
    GrownOn(d.setting, before, wanted, start, half, d.Value());
    KeysStay(half, d.Value(), CandidateKeys(s));
    return Ok(MakePanoramic(s, candidates.value, paths.value, d.setting));
  }

  /** The rows one after the other. */
  method FitSample(d: Derivatives, s: Sample, resize: bool, ghost before: Files, ghost wanted: set<Key>)
    returns (r: Result<Row, FitError>)
    requires Stored(d.setting, before, d.Value(), wanted) && Needs(s, resize, wanted) && Proper(d.setting.root, wanted)
    modifies d, d.disk
    ensures r.Ok? ==> Grown(d.setting, before, wanted, old(d.Value()), d.Value())
    ensures r.Ok? ==> RowFor(d.setting, resize, s, r.value) && KeysKept(d.paths, s, resize)
    ensures Readable(before, wanted) ==> r.Ok?
  {
    ghost var start := d.Value();
    var low := LowRow(d.setting.root, s, resize, d.setting, wanted);
    var navida := NavidaRow(d, s, resize, before, wanted);
    if navida.Err? {
      return Err(navida.error);
    }
    ghost var half := d.Value();
    var panoramic := PanoramicRow(d, s, before, wanted);
    if panoramic.Err? {
      return Err(panoramic.error);
    }
    GrownOn(d.setting, before, wanted, start, half, d.Value());
    if resize {
      KeysStay(half, d.Value(), NavidaKeys(s));
    }
    var selected := Selected(IdOf(s), s.ep.id, s.ep.scene, d.setting.tools.text(s.ep.instruction), s.quantile, Step(s),
                             HistoryIndexes(s),
                             CandidateIndexes(s), s.ep.actions[Step(s) + 1], HistoryResponses(s));
    return Ok(Row(low, navida.value, panoramic.value, selected));
  }

  // ---- the rows in terms of frames and actions alone: episode `ep`, quantile `q`, step `k` ----

  /** The path is that of frame `i` under the root. */
  ghost predicate SourcePath(path: File, root: seq<string>, ep: Joined, i: int) {
    && 0 <= i < |ep.frames| && root <= ep.frames[i].dir && path.dir == ep.frames[i].dir[|root|..]
    && path.stem == ep.frames[i].stem && path.suffix == ep.frames[i].suffix
  }

  /** The path is that of frame `i` resampled to `w` by `h`, under the output directory. */
  ghost predicate FittedPath(path: File, root: seq<string>, ep: Joined, i: int, category: string, w: nat, h: nat) {
    && 0 <= i < |ep.frames| && root <= ep.frames[i].dir
    && path.dir == ["derived", category] + ep.frames[i].dir[|root|..]
    && path.stem == ep.frames[i].stem + "_" + Dec(w) + "x" + Dec(h) && path.suffix == ".jpg"
  }

  ghost predicate NamesAction(response: string, action: int) {
    && response in {"Stop", "Move", "Left", "Right"}
    && (response == "Stop" <==> action == 0) && (response == "Move" <==> action == 1)
    && (response == "Left" <==> action == 2) && (response == "Right" <==> action == 3)
  }

  /** The responses name the actions that answered the four frames before step `k`, each the next one. */
  ghost predicate NamesAnswers(responses: seq<string>, ep: Joined, k: int) {
    && |responses| == 4 && 3 <= k < |ep.actions|
    && forall j :: 0 <= j < 4 ==> NamesAction(responses[j], ep.actions[k - 3 + j])
  }

  ghost function Forward(actions: seq<int>, k: int): set<int> {
    set a | 1 <= a <= k && a < |actions| && actions[a] == 1
  }

  /** A quarter metre for each forward action up to step `k`. */
  ghost predicate QuarterMetres(distance: real, ep: Joined, k: int) {
    distance == 0.25 * |Forward(ep.actions, k)| as real
  }

  ghost predicate NamedSample(id: string, instruction: string, ep: Joined, q: nat, k: nat) {
    id == "r2r-" + Pad(ep.id, 6) + "-q" + Dec(q) + "-f" + Pad(k, 6) && instruction == ep.instruction
  }

  ghost predicate PlainLow(r: Record, root: seq<string>, ep: Joined, q: nat, k: nat) {
    && r.LowRecord? && NamedSample(r.id, r.instruction, ep, q, k) && SourcePath(r.current, root, ep, k)
    && |r.history| == 4 && (forall j :: 0 <= j < 4 ==> SourcePath(r.history[j], root, ep, k - 4 + j))
    && NamesAnswers(r.responses, ep, k) && QuarterMetres(r.distance, ep, k)
    && k + 1 < |ep.actions| && (r.movePossible <==> ep.actions[k + 1] != 0)
  }

  ghost predicate PlainNavida(r: Record, root: seq<string>, resize: bool, ep: Joined, q: nat, k: nat) {
    && r.NavidaRecord? && NamedSample(r.id, r.instruction, ep, q, k) && |r.history| == 4
    && if resize then
         && FittedPath(r.current, root, ep, k, "navida_320x240", 320, 240)
         && forall j :: 0 <= j < 4 ==> FittedPath(r.history[j], root, ep, k - 4 + j, "navida_320x240", 320, 240)
       else
         && SourcePath(r.current, root, ep, k)
         && forall j :: 0 <= j < 4 ==> SourcePath(r.history[j], root, ep, k - 4 + j)
  }

  /** Candidate of frame `i`, at this angle and distance. */
  ghost predicate CandidateIs(cd: Candidate, root: seq<string>, ep: Joined, i: int, angle: real, distance: real) {
    && FittedPath(cd.image, root, ep, i, "panoramic_candidates_320x240", 320, 240)
    && cd.angle == angle && cd.distance == distance
  }

  ghost predicate PlainPanoramic(r: Record, root: seq<string>, ep: Joined, q: nat, k: nat) {
    && r.PanoramicRecord? && NamedSample(r.id, r.instruction, ep, q, k) && |r.history| == 4 && |r.candidates| == 4
    && FittedPath(r.current, root, ep, k, "panoramic_960x240", 960, 240)
    && (forall j :: 0 <= j < 4 ==> FittedPath(r.history[j], root, ep, k - 4 + j, "panoramic_960x240", 960, 240))
    && NamesAnswers(r.responses, ep, k) && QuarterMetres(r.distance, ep, k)
    && CandidateIs(r.candidates[0], root, ep, k - 2, -90.0, 0.5)
    && CandidateIs(r.candidates[1], root, ep, k - 1, -30.0, 0.25)
    && CandidateIs(r.candidates[2], root, ep, k + 1, 30.0, 0.25)
    && CandidateIs(r.candidates[3], root, ep, k + 2, 90.0, 0.5)
  }

  ghost predicate PlainSelected(d: Selected, text: string -> string, ep: Joined, q: nat, k: nat) {
    && d.sampleId == "r2r-" + Pad(ep.id, 6) + "-q" + Dec(q) + "-f" + Pad(k, 6)
    && d.episodeId == ep.id && d.scene == ep.scene && d.instructionSha == text(ep.instruction)
    && d.quantile == q && d.frameIndex == k && d.historyIndexes == [k - 4, k - 3, k - 2, k - 1]
    && d.candidateIndexes == [k - 2, k - 1, k + 1, k + 2]
    && k + 1 < |ep.actions| && d.action == ep.actions[k + 1] && NamesAnswers(d.responses, ep, k)
  }

  /** The four rows are those of quantile `q` of the episode. */
  ghost predicate PlainRow(row: Row, c: Setting, resize: bool, ep: Joined, q: nat) {
    && q < |ep.steps|
    && var k := ep.steps[q];
       && 4 <= k && k + 2 < |ep.frames|
       && PlainLow(row.low, c.root, ep, q, k) && PlainNavida(row.navida, c.root, resize, ep, q, k)
       && PlainPanoramic(row.panoramic, c.root, ep, q, k) && PlainSelected(row.selected, c.tools.text, ep, q, k)
  }

  lemma ResponseNames(action: int)
    requires IsAction(action)
    ensures NamesAction(Response(action), action)
  {
    assert "Stop"[0] == 'S' && "Move"[0] == 'M' && "Left"[0] == 'L' && "Right"[0] == 'R';
  }

  lemma ResponsesAt(s: Sample)
    requires Usable(s)
    ensures HistoryResponses(s)
            == [Response(s.ep.actions[Step(s) - 3]), Response(s.ep.actions[Step(s) - 2]),
                Response(s.ep.actions[Step(s) - 1]), Response(s.ep.actions[Step(s)])]
  {
    var k, actions := Step(s), s.ep.actions;
    assert HistoryIndexes(s)[1..] == [k - 3, k - 2, k - 1];
    assert [k - 3, k - 2, k - 1][1..] == [k - 2, k - 1] && [k - 2, k - 1][1..] == [k - 1] && [k - 1][1..] == [];
    assert Responses(actions, [k - 1]) == [Response(actions[k])];
    assert Responses(actions, [k - 2, k - 1]) == [Response(actions[k - 1])] + Responses(actions, [k - 1]);
    assert Responses(actions, [k - 3, k - 2, k - 1]) == [Response(actions[k - 2])] + Responses(actions, [k - 2, k - 1]);
  }

  lemma AnswersPlainly(s: Sample)
    requires Usable(s)
    ensures NamesAnswers(HistoryResponses(s), s.ep, Step(s))
  {
    ResponsesAt(s);
    forall j | 0 <= j < 4 ensures NamesAction(HistoryResponses(s)[j], s.ep.actions[Step(s) - 3 + j]) {
      ResponseNames(s.ep.actions[Step(s) - 3 + j]);
    }
  }

  lemma {:induction false} MovesCount(actions: seq<int>, k: nat)
    requires k < |actions|
    ensures Moves(actions, k + 1) == |Forward(actions, k)|
  {
    if k == 0 {
      assert Forward(actions, 0) == {};
    } else {
      MovesCount(actions, k - 1);
      if actions[k] == 1 {
        assert Forward(actions, k) == Forward(actions, k - 1) + {k};
      } else {
        assert Forward(actions, k) == Forward(actions, k - 1);
      }
    }
  }

  lemma DistancePlainly(s: Sample)
    requires Usable(s)
    ensures QuarterMetres(Travelled(s), s.ep, Step(s))
  {
    MovesCount(s.ep.actions, Step(s));
  }

  lemma FittedPlainly(c: Setting, path: File, ep: Joined, i: nat, category: string, size: Size)
    requires i < |ep.frames| && c.root <= ep.frames[i].dir
    requires path == RelativeOutput(c, Key(ep.frames[i], category, size))
    ensures FittedPath(path, c.root, ep, i, category, size.w, size.h)
  {
  }

  lemma HistoryAt(s: Sample, j: nat)
    requires Usable(s) && j < 4
    ensures History(s)[j] == s.ep.frames[Step(s) - 4 + j] && ([Current(s)] + History(s))[j + 1] == History(s)[j]
  {
  }

  /** Derived paths of the current frame and the history, by frame. */
  lemma FittedFrames(c: Setting, s: Sample, category: string, size: Size, paths: seq<File>)
    requires Usable(s) && DerivedFrom(c, Keys([Current(s)] + History(s), category, size), paths)
    ensures |paths| == 5 && FittedPath(paths[0], c.root, s.ep, Step(s), category, size.w, size.h)
    ensures forall j :: 0 <= j < 4 ==>
              FittedPath(paths[1..][j], c.root, s.ep, Step(s) - 4 + j, category, size.w, size.h)
  {
    var keys := Keys([Current(s)] + History(s), category, size);
    assert keys[0] == Key(s.ep.frames[Step(s)], category, size);
    FittedPlainly(c, paths[0], s.ep, Step(s), category, size);
    forall j | 0 <= j < 4
      ensures FittedPath(paths[1..][j], c.root, s.ep, Step(s) - 4 + j, category, size.w, size.h)
    {
      HistoryAt(s, j);
      assert keys[j + 1] == Key(s.ep.frames[Step(s) - 4 + j], category, size);
      FittedPlainly(c, paths[j + 1], s.ep, Step(s) - 4 + j, category, size);
    }
  }

  lemma LowPlainly(c: Setting, s: Sample, r: Record)
    requires LowFor(c, s, r)
    ensures PlainLow(r, c.root, s.ep, s.quantile, Step(s))
  {
    AnswersPlainly(s);
    DistancePlainly(s);
    forall j | 0 <= j < 4 ensures SourcePath(r.history[j], c.root, s.ep, Step(s) - 4 + j) {
      HistoryAt(s, j);
    }
  }

  lemma NavidaPlainly(c: Setting, resize: bool, s: Sample, r: Record)
    requires NavidaFor(c, resize, s, r)
    ensures PlainNavida(r, c.root, resize, s.ep, s.quantile, Step(s))
  {
    if resize {
      FittedFrames(c, s, "navida_320x240", FRAME, [r.current] + r.history);
      forall j | 0 <= j < 4
        ensures FittedPath(r.history[j], c.root, s.ep, Step(s) - 4 + j, "navida_320x240", 320, 240)
      {
        assert ([r.current] + r.history)[1..][j] == r.history[j];
      }
    } else {
      forall j | 0 <= j < 4 ensures SourcePath(r.history[j], c.root, s.ep, Step(s) - 4 + j) {
        HistoryAt(s, j);
      }
    }
  }

  lemma CandidatePlainly(c: Setting, s: Sample, cd: Candidate, i: nat, frame: nat)
    requires Usable(s) && i < 4 && c.root <= CandidateFrames(s)[i].dir
    requires cd == Candidate(RelativeOutput(c, CandidateKeys(s)[i]), Angle(i), Hop(i))
    requires frame < |s.ep.frames| && CandidateFrames(s)[i] == s.ep.frames[frame]
    ensures CandidateIs(cd, c.root, s.ep, frame, Angle(i), Hop(i))
  {
    FittedPlainly(c, cd.image, s.ep, frame, "panoramic_candidates_320x240", FRAME);
  }

  lemma PanoramicPlainly(c: Setting, s: Sample, r: Record)
    requires PanoramicFor(c, s, r)
    ensures PlainPanoramic(r, c.root, s.ep, s.quantile, Step(s))
  {
    AnswersPlainly(s);
    DistancePlainly(s);
    FittedFrames(c, s, "panoramic_960x240", PANORAMA, [r.current] + r.history);
    forall j | 0 <= j < 4
      ensures FittedPath(r.history[j], c.root, s.ep, Step(s) - 4 + j, "panoramic_960x240", 960, 240)
    {
      assert ([r.current] + r.history)[1..][j] == r.history[j];
    }
    CandidatePlainly(c, s, r.candidates[0], 0, Step(s) - 2);
    CandidatePlainly(c, s, r.candidates[1], 1, Step(s) - 1);
    CandidatePlainly(c, s, r.candidates[2], 2, Step(s) + 1);
    CandidatePlainly(c, s, r.candidates[3], 3, Step(s) + 2);
  }

  lemma SelectedPlainly(c: Setting, s: Sample, d: Selected)
    requires SelectedFor(c.tools, s, d)
    ensures PlainSelected(d, c.tools.text, s.ep, s.quantile, Step(s))
  {
    AnswersPlainly(s);
  }

  lemma RowPlainly(c: Setting, resize: bool, s: Sample, row: Row)
    requires RowFor(c, resize, s, row)
    ensures PlainRow(row, c, resize, s.ep, s.quantile)
  {
    LowPlainly(c, s, row.low);
    NavidaPlainly(c, resize, s, row.navida);
    PanoramicPlainly(c, s, row.panoramic);
    SelectedPlainly(c, s, row.selected);
  }

  /** All four rows of a sample, fitting what they name. */
  method AddSample(d: Derivatives, s: Sample, resize: bool, ghost before: Files, ghost wanted: set<Key>)
    returns (r: Result<Row, FitError>)
    requires Stored(d.setting, before, d.Value(), wanted) && Needs(s, resize, wanted) && Proper(d.setting.root, wanted)
    modifies d, d.disk
    ensures r.Ok? ==> Grown(d.setting, before, wanted, old(d.Value()), d.Value())
    ensures r.Ok? ==> RowFor(d.setting, resize, s, r.value) && KeysKept(d.paths, s, resize)
    ensures r.Ok? ==> PlainRow(r.value, d.setting, resize, s.ep, s.quantile)
    ensures Readable(before, wanted) ==> r.Ok?
  {
    r := FitSample(d, s, resize, before, wanted);
    if r.Ok? {
      RowPlainly(d.setting, resize, s, r.value);
    }
  }
}
