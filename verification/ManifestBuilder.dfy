/** Building the three manifests, their derived images and their provenance. */
module ManifestBuilder {
  import opened Wrappers
  import opened Names
  import opened Manifest
  import opened EpisodeJoin
  import opened Derivatives
  import opened ManifestSamples
  import opened ManifestRows
  import Quantiles

  datatype BuildError =
    | BadCount | BadDepth | BadTrain | MissingInput | Malformed | Unjoined(cause: JoinError) | Unfit(fault: FitError)

  datatype Tables = Tables(low: seq<Record>, navida: seq<Record>, panoramic: seq<Record>, selected: seq<Selected>)

  // ---- the rows of all samples ----

  ghost predicate TablesFor(c: Setting, resize: bool, samples: seq<Sample>, t: Tables) {
    match t
    case Tables(low, navida, panoramic, selected) =>
      && |low| == |navida| == |panoramic| == |selected| == |samples|
      && (forall k :: 0 <= k < |samples| ==>
            RowFor(c, resize, samples[k], Row(low[k], navida[k], panoramic[k], selected[k])))
  }

  function Appended(t: Tables, row: Row): Tables {
    Tables(t.low + [row.low], t.navida + [row.navida], t.panoramic + [row.panoramic], t.selected + [row.selected])
  }

  lemma TablesMore(c: Setting, resize: bool, samples: seq<Sample>, t: Tables, s: Sample, row: Row)
    requires TablesFor(c, resize, samples, t) && RowFor(c, resize, s, row)
    ensures TablesFor(c, resize, samples + [s], Appended(t, row))
  {
    var after := Appended(t, row);
    forall k | 0 <= k < |samples| + 1
      ensures RowFor(c, resize, (samples + [s])[k],
                     Row(after.low[k], after.navida[k], after.panoramic[k], after.selected[k]))
    {
      if k < |samples| {
        assert RowFor(c, resize, samples[k], Row(t.low[k], t.navida[k], t.panoramic[k], t.selected[k]));
      }
    }
  }

  ghost predicate AllKept(paths: map<Key, File>, samples: seq<Sample>, resize: bool) {
    forall k :: 0 <= k < |samples| ==> KeysKept(paths, samples[k], resize)
  }

  lemma AllKeptMore(s: Store, s': Store, samples: seq<Sample>, sample: Sample, resize: bool)
    requires Extends(s, s') && AllKept(s.paths, samples, resize) && KeysKept(s'.paths, sample, resize)
    ensures AllKept(s'.paths, samples + [sample], resize)
  {
    forall k | 0 <= k < |samples| ensures KeysKept(s'.paths, samples[k], resize) {
      KeptStay(s, s', samples[k], resize);
    }
  }

  /** Every image of every sample is wanted. */
  ghost predicate EachNeeds(eps: seq<Joined>, resize: bool, wanted: set<Key>) {
    forall e, q :: 0 <= e < |eps| && 0 <= q < |eps[e].steps| ==> Needs(Sample(eps[e], q), resize, wanted)
  }

  /** Everything known after the samples in `done`. */
  ghost predicate Built(d: Derivatives, before: Files, wanted: set<Key>, resize: bool, done: seq<Sample>, t: Tables)
    reads d, d.disk
  {
    && Stored(d.setting, before, d.Value(), wanted) && TablesFor(d.setting, resize, done, t)
       && AllKept(d.paths, done, resize)
  }

  method AddRow(d: Derivatives, s: Sample, resize: bool, t: Tables, ghost done: seq<Sample>, ghost before: Files,
                ghost wanted: set<Key>)
    returns (r: Result<Tables, FitError>)
    requires Built(d, before, wanted, resize, done, t) && Needs(s, resize, wanted) && Proper(d.setting.root, wanted)
    modifies d, d.disk
    ensures r.Ok? ==> Built(d, before, wanted, resize, done + [s], r.value)
    ensures Readable(before, wanted) ==> r.Ok?
  {
    ghost var start := d.Value();
    var row := AddSample(d, s, resize, before, wanted);
    if row.Err? {
      return Err(row.error);
    }
    TablesMore(d.setting, resize, done, t, s, row.value);
    AllKeptMore(start, d.Value(), done, s, resize);
    return Ok(Appended(t, row.value));
  }

  lemma {:induction false} NextSample(eps: seq<Joined>, e: nat, q: nat, done: seq<Sample>)
    requires e < |eps| && q < |eps[e].steps| && done == Samples(eps, e, q)
    ensures done + [Sample(eps[e], q)] == Samples(eps, e, q + 1)
  {
  }

  /** The rows of every step of one episode. */
  method BuildEpisode(d: Derivatives, eps: seq<Joined>, e: nat, resize: bool, t: Tables, ghost done: seq<Sample>,
                      ghost before: Files,
                      ghost wanted: set<Key>)
    returns (r: Result<Tables, FitError>)
    requires e < |eps| && done == Samples(eps, e, 0) && Built(d, before, wanted, resize, done, t)
    requires EachNeeds(eps, resize, wanted) && Proper(d.setting.root, wanted)
    modifies d, d.disk
    ensures r.Ok? ==> Built(d, before, wanted, resize, Samples(eps, e + 1, 0), r.value)
    ensures Readable(before, wanted) ==> r.Ok?
  {
    var rows := t;
    ghost var now := done;
    for q := 0 to |eps[e].steps|
      invariant now == Samples(eps, e, q) && Built(d, before, wanted, resize, now, rows)
    {
      var added := AddRow(d, Sample(eps[e], q), resize, rows, now, before, wanted);
      if added.Err? {
        return Err(added.error);
      }
      NextSample(eps, e, q, now);
      now, rows := now + [Sample(eps[e], q)], added.value;
    }
    return Ok(rows);
  }

  /** The rows of every step of every episode, in order. */
  method BuildRows(d: Derivatives, eps: seq<Joined>, resize: bool, ghost before: Files, ghost wanted: set<Key>)
    returns (r: Result<Tables, FitError>)
    requires Stored(d.setting, before, d.Value(), wanted) && EachNeeds(eps, resize, wanted)
             && Proper(d.setting.root, wanted)
    modifies d, d.disk
    ensures r.Ok? ==> Built(d, before, wanted, resize, Samples(eps, |eps|, 0), r.value)
    ensures Readable(before, wanted) ==> r.Ok?
  {
    var t := Tables([], [], [], []);
    for e := 0 to |eps|
      invariant Built(d, before, wanted, resize, Samples(eps, e, 0), t)
    {
      var added := BuildEpisode(d, eps, e, resize, t, Samples(eps, e, 0), before, wanted);
      if added.Err? {
        return Err(added.error);
      }
      t := added.value;
    }
    return Ok(t);
  }

  // ---- whether frames need resizing ----

  ghost predicate IsFrame(files: Files, f: File) {
    f in files && files[f].Image? && files[f].size == FRAME
  }

  function UsedFrames(eps: seq<Joined>): set<File> {
    set e, q, f | 0 <= e < |eps| && 0 <= q < |eps[e].steps| && Usable(Sample(eps[e], q))
    && f in Window(Sample(eps[e], q)) :: f
  }

  /** Reading a size leaves the store as sound as before; it succeeds exactly on JPEG images. */
  lemma SizedStored(c: Setting, before: Files, s: Store, wanted: set<Key>, source: File, o: Outcome<Size>)
    requires Stored(c, before, s, wanted) && Digits(source.stem) && o == Sized(s, source)
    ensures o.r.Ok? <==> JpegAt(before, source)
    ensures o.r.Ok? ==> Stored(c, before, o.s, wanted) && (o.r.value == FRAME <==> IsFrame(before, source))
  {
    SizedKeeps(c, s, source);
    SizesAside(c, before, s, o.s);
  }

  /** What the store has written and recorded does not depend on the sizes it has read. */
  lemma SizesAside(c: Setting, before: Files, s: Store, s': Store)
    requires Sound(c, before, s) && CachesHold(c, s') && s' == s.(sizes := s'.sizes)
    ensures Sound(c, before, s')
  {
    assert Ledger(c, s');
    assert LatestHold(c, s');
  }

  /** Whether any used frame is not 320 by 240; frames are visited in no fixed order. */
  method NeedsResize(d: Derivatives, used: set<File>, ghost before: Files) returns (r: Result<bool, FitError>)
    requires Stored(d.setting, before, d.Value(), {}) && forall f: File :: f in used ==> Digits(f.stem)
    modifies d`sizes
    ensures r.Ok? ==> Stored(d.setting, before, d.Value(), {})
    ensures r.Ok? ==> (r.value <==> exists f :: f in used && !IsFrame(before, f))
    ensures (forall f :: f in used ==> JpegAt(before, f)) ==> r.Ok?
  {
    var rest := used;
    while rest != {}
      invariant rest <= used && Stored(d.setting, before, d.Value(), {})
      invariant forall f :: f in used && f !in rest ==> IsFrame(before, f)
    {
      var f :| f in rest;
      SizedStored(d.setting, before, d.Value(), {}, f, Sized(d.Value(), f));
      var size := d.SizeOf(f);
      if size.Err? {
        return Err(size.error);
      }
      if size.value != FRAME {
        assert !IsFrame(before, f);
        return Ok(true);
      }
      rest := rest - {f};
    }
    return Ok(false);
  }

  // ---- the frames of the chosen episodes ----

  /** Episode directories lie directly in the images root and hold their frames in "rgb". */
  ghost predicate Listed(root: seq<string>, listing: map<string, seq<File>>) {
    forall name :: name in listing ==>
      name != ".." && forall i :: 0 <= i < |listing[name]| ==> listing[name][i].dir == root + [name, "rgb"]
  }

  /** A numbered frame two directories below the root. */
  predicate FrameAt(root: seq<string>, f: File) {
    && Digits(f.stem) && |f.dir| == |root| + 2 && root <= f.dir && f.dir[|root|] != ".." && f.dir[|root| + 1] == "rgb"
  }

  ghost predicate WindowIn(s: Sample, universe: set<File>) {
    Usable(s) && forall i :: 0 <= i < |Window(s)| ==> Window(s)[i] in universe
  }

  ghost predicate WindowsIn(eps: seq<Joined>, universe: set<File>) {
    forall e, q :: 0 <= e < |eps| && 0 <= q < |eps[e].steps| ==> WindowIn(Sample(eps[e], q), universe)
  }

  ghost function Universe(eps: seq<Joined>): set<File> {
    set e, f | 0 <= e < |eps| && f in eps[e].frames :: f
  }

  lemma FrameOf(eps: seq<Joined>, steps: nat, train: map<int, TrainEpisode>, listing: map<string, seq<File>>,
                root: seq<string>, f: File)
    returns (name: string, i: nat)
    requires Listed(root, listing) && f in Universe(eps)
    requires forall e :: 0 <= e < |eps| ==> EpisodeOk(eps[e], steps, 4, train, listing)
    ensures name in listing && i < |listing[name]| && listing[name][i] == f && Numbered(listing[name])
            && FrameAt(root, f)
    ensures f.dir == root + [name, "rgb"]
  {
    var e :| 0 <= e < |eps| && f in eps[e].frames;
    assert EpisodeOk(eps[e], steps, 4, train, listing);
    name :| name in listing && listing[name] == eps[e].frames;
    i :| 0 <= i < |eps[e].frames| && eps[e].frames[i] == f;
    assert (root + [name, "rgb"])[..|root|] == root;
  }

  lemma FramesDistinct(eps: seq<Joined>, steps: nat, train: map<int, TrainEpisode>, listing: map<string, seq<File>>,
                       root: seq<string>)
    requires Listed(root, listing) && forall e :: 0 <= e < |eps| ==> EpisodeOk(eps[e], steps, 4, train, listing)
    ensures StemsDistinct(Universe(eps)) && forall f :: f in Universe(eps) ==> FrameAt(root, f)
  {
    forall f | f in Universe(eps) ensures FrameAt(root, f) {
      var name, i := FrameOf(eps, steps, train, listing, root, f);
    }
    forall f, g | f in Universe(eps) && g in Universe(eps) && f.dir == g.dir && f.stem == g.stem ensures f == g {
      var a, i := FrameOf(eps, steps, train, listing, root, f);
      var b, j := FrameOf(eps, steps, train, listing, root, g);
      assert (root + [a, "rgb"])[|root|] == a && (root + [b, "rgb"])[|root|] == b;
    }
  }

  /** What the selection guarantees of the episodes. */
  ghost predicate EpisodesFit(eps: seq<Joined>, steps: nat, root: seq<string>) {
    && eps != [] && steps > 0 && IncreasingIds(eps) && AllSteps(eps, steps) && WindowsIn(eps, Universe(eps))
    && (forall e :: 0 <= e < |eps| ==> NonBlank(eps[e].instruction) && Quantiles.StrictlyIncreasing(eps[e].steps))
    && StemsDistinct(Universe(eps)) && (forall f :: f in Universe(eps) ==> FrameAt(root, f))
  }

  lemma WindowOfEpisode(eps: seq<Joined>, e: nat, q: nat, steps: nat, train: map<int, TrainEpisode>,
                        listing: map<string, seq<File>>)
    requires e < |eps| && EpisodeOk(eps[e], steps, 4, train, listing) && q < |eps[e].steps|
    ensures WindowIn(Sample(eps[e], q), Universe(eps))
  {
    var w := Window(Sample(eps[e], q));
    forall i | 0 <= i < |w| ensures w[i] in Universe(eps) {
      assert w[i] in eps[e].frames;
    }
  }

  lemma ChosenFit(eps: seq<Joined>, train: map<int, TrainEpisode>, notes: seq<Annotation>,
                  listing: map<string, seq<File>>, count: nat,
                  steps: nat, root: seq<string>)
    requires Chosen(eps, train, notes, listing, count, steps, 4) && Listed(root, listing) && count > 0 && steps > 0
    ensures EpisodesFit(eps, steps, root)
  {
    FramesDistinct(eps, steps, train, listing, root);
    forall e, q | 0 <= e < |eps| && 0 <= q < |eps[e].steps| ensures WindowIn(Sample(eps[e], q), Universe(eps)) {
      WindowOfEpisode(eps, e, q, steps, train, listing);
    }
  }

  // ---- what is wanted ----

  /** All images the samples need, those for the unpadded profile only when frames are resized. */
  ghost function KeysOf(s: Sample, resize: bool): seq<Key>
    requires Usable(s)
  {
    CandidateKeys(s) + PanoramaKeys(s) + if resize then NavidaKeys(s) else []
  }

  ghost function Wanted(samples: seq<Sample>, resize: bool): set<Key> {
    set i, k | 0 <= i < |samples| && Usable(samples[i]) && k in KeysOf(samples[i], resize) :: k
  }

  lemma InKeys(frames: seq<File>, category: string, size: Size, k: Key)
    requires k in Keys(frames, category, size)
    ensures k.source in frames && k.category == category
  {
    var i :| 0 <= i < |frames| && Keys(frames, category, size)[i] == k;
    assert frames[i] == k.source;
  }

  lemma WindowAt(s: Sample, i: nat)
    requires Usable(s) && i < 7
    ensures s.ep.frames[Step(s) - 4 + i] == Window(s)[i] && Window(s)[i] in Window(s)
  {
  }

  lemma InWindow(s: Sample, f: File)
    requires Usable(s) && (f in [Current(s)] + History(s) || f in CandidateFrames(s))
    ensures f in Window(s)
  {
    WindowAt(s, 2);
    WindowAt(s, 3);
    WindowAt(s, 4);
    WindowAt(s, 5);
    WindowAt(s, 6);
    if f in History(s) {
      var i :| 0 <= i < 4 && History(s)[i] == f;
      WindowAt(s, i);
    }
  }

  lemma KeySource(s: Sample, resize: bool, k: Key)
    requires NeedsKey(s, resize, k)
    ensures k.source in Window(s) && k.category != ".."
  {
    assert "panoramic_960x240"[0] != '.' && "panoramic_candidates_320x240"[0] != '.' && "navida_320x240"[0] != '.';
    if k in CandidateKeys(s) {
      InKeys(CandidateFrames(s), "panoramic_candidates_320x240", FRAME, k);
    } else if k in PanoramaKeys(s) {
      InKeys([Current(s)] + History(s), "panoramic_960x240", PANORAMA, k);
    } else {
      InKeys([Current(s)] + History(s), "navida_320x240", FRAME, k);
    }
    InWindow(s, k.source);
  }

  /** The image is one of those the sample needs. */
  ghost predicate NeedsKey(s: Sample, resize: bool, k: Key) {
    Usable(s) && (k in CandidateKeys(s) || k in PanoramaKeys(s) || (resize && k in NavidaKeys(s)))
  }

  lemma NeedsKeyIff(s: Sample, resize: bool, k: Key)
    requires Usable(s)
    ensures k in KeysOf(s, resize) <==> NeedsKey(s, resize, k)
  {
  }

  lemma WantedIff(samples: seq<Sample>, resize: bool, k: Key)
    ensures k in Wanted(samples, resize) <==> exists i :: 0 <= i < |samples| && NeedsKey(samples[i], resize, k)
  {
    forall i | 0 <= i < |samples| && Usable(samples[i])
      ensures k in KeysOf(samples[i], resize) <==> NeedsKey(samples[i], resize, k)
    {
      NeedsKeyIff(samples[i], resize, k);
    }
  }

  lemma WantedNeeds(samples: seq<Sample>, resize: bool, k: nat)
    requires k < |samples| && Usable(samples[k])
    ensures Needs(samples[k], resize, Wanted(samples, resize))
  {
    var s := samples[k];
    forall i | 0 <= i < 4 ensures CandidateKeys(s)[i] in Wanted(samples, resize) {
      WantedIff(samples, resize, CandidateKeys(s)[i]);
    }
    forall i | 0 <= i < 5 ensures PanoramaKeys(s)[i] in Wanted(samples, resize) {
      WantedIff(samples, resize, PanoramaKeys(s)[i]);
    }
    forall i | resize && 0 <= i < 5 ensures NavidaKeys(s)[i] in Wanted(samples, resize) {
      WantedIff(samples, resize, NavidaKeys(s)[i]);
    }
  }

  lemma {:induction false} WantedSource(eps: seq<Joined>, steps: nat, resize: bool, k: Key)
    requires steps > 0 && AllSteps(eps, steps) && k in Wanted(Samples(eps, |eps|, 0), resize)
    ensures k.source in UsedFrames(eps) && k.category != ".."
  {
    var samples := Samples(eps, |eps|, 0);
    WantedIff(samples, resize, k);
    var i :| 0 <= i < |samples| && NeedsKey(samples[i], resize, k);
    var e, q := SampleFrom(eps, steps, |eps|, 0, i);
    KeySource(samples[i], resize, k);
    assert samples[i] == Sample(eps[e], q);
  }

  lemma {:induction false} WantedProper(eps: seq<Joined>, steps: nat, root: seq<string>, resize: bool, wanted: set<Key>)
    requires steps > 0 && EpisodesFit(eps, steps, root) && wanted == Wanted(Samples(eps, |eps|, 0), resize)
    ensures Proper(root, wanted) && forall k :: k in wanted ==> k.source in UsedFrames(eps) && k.category != ".."
  {
    forall k | k in wanted
      ensures k.source in UsedFrames(eps) && root <= k.source.dir && Digits(k.source.stem) && k.category != ".."
    {
      WantedSource(eps, steps, resize, k);
      UsedFrame(eps, k.source);
      assert FrameAt(root, k.source);
    }
  }

  lemma {:induction false} SampleNeeds(eps: seq<Joined>, steps: nat, resize: bool, samples: seq<Sample>, e: nat, q: nat)
    requires AllSteps(eps, steps) && samples == Samples(eps, |eps|, 0) && e < |eps| && q < steps
             && Usable(Sample(eps[e], q))
    ensures Needs(Sample(eps[e], q), resize, Wanted(samples, resize))
  {
    SampleAt(eps, steps, |eps|, 0, e, q);
    WantedNeeds(samples, resize, e * steps + q);
  }

  /** Nothing the chosen episodes need is left out of what is wanted. */
  lemma {:induction false} AllNeeded(eps: seq<Joined>, steps: nat, root: seq<string>, resize: bool, wanted: set<Key>)
    requires steps > 0 && EpisodesFit(eps, steps, root) && wanted == Wanted(Samples(eps, |eps|, 0), resize)
    ensures EachNeeds(eps, resize, wanted)
  {
    forall e, q | 0 <= e < |eps| && 0 <= q < |eps[e].steps| ensures Needs(Sample(eps[e], q), resize, wanted) {
      assert WindowIn(Sample(eps[e], q), Universe(eps));
      SampleNeeds(eps, steps, resize, Samples(eps, |eps|, 0), e, q);
    }
  }

  lemma UsedFrame(eps: seq<Joined>, f: File)
    requires WindowsIn(eps, Universe(eps)) && f in UsedFrames(eps)
    ensures f in Universe(eps)
  {
    var e, q :| 0 <= e < |eps| && 0 <= q < |eps[e].steps| && Usable(Sample(eps[e], q))
      && f in Window(Sample(eps[e], q));
    assert WindowIn(Sample(eps[e], q), Universe(eps));
  }

  /** Each frame of the window is resampled for something. */
  lemma WindowKey(s: Sample, i: nat) returns (k: Key)
    requires Usable(s) && i < 7
    ensures k.source == Window(s)[i] && (k in PanoramaKeys(s) || k in CandidateKeys(s))
  {
    WindowAt(s, i);
    if i < 4 {
      k := PanoramaKeys(s)[i + 1];
      assert ([Current(s)] + History(s))[i + 1] == History(s)[i];
    } else if i == 4 {
      k := PanoramaKeys(s)[0];
    } else {
      k := CandidateKeys(s)[i - 3];
    }
  }

  /** A frame used by a recorded sample was a JPEG image all along. */
  lemma UsedIsJpeg(c: Setting, before: Files, s: Store, wanted: set<Key>, sample: Sample, resize: bool, f: File)
    requires Stored(c, before, s, wanted) && KeysKept(s.paths, sample, resize) && f in Window(sample) && Digits(f.stem)
    ensures JpegAt(before, f)
  {
    var i :| 0 <= i < |Window(sample)| && Window(sample)[i] == f;
    var k := WindowKey(sample, i);
    KeptIsJpeg(c, before, s, k);
  }

  lemma KeptIsJpeg(c: Setting, before: Files, s: Store, k: Key)
    requires Ledger(c, s) && CachesHold(c, s) && Untouched(c, before, s.files) && k in s.paths && Digits(k.source.stem)
    ensures JpegAt(before, k.source)
  {
    assert Recorded(c, s.records, k);
    var i :| 0 <= i < |s.records| && KeyOf(c, s.records[i]) == k;
    assert Digits(s.records[i].source.stem);
    assert SourceHolds(c, s.files, s.records[i]);
  }
}
