/** The manifest tables and the finished set in terms of frames, actions and files alone. */
module ManifestTables {
  import opened Wrappers
  import opened Names
  import opened Manifest
  import opened EpisodeJoin
  import opened Derivatives
  import opened ManifestSamples
  import opened ManifestRows
  import opened ManifestBuilder
  import opened ManifestPublication

  // ---- every sample ----

  /** The four rows at place `i` are those of quantile `q` of the episode. */
  ghost predicate PlainSample(t: Tables, i: nat, c: Setting, resize: bool, ep: Joined, q: nat) {
    && i < |t.low| == |t.navida| == |t.panoramic| == |t.selected|
    && PlainRow(Row(t.low[i], t.navida[i], t.panoramic[i], t.selected[i]), c, resize, ep, q)
  }

  /** Where quantile `q` of episode `e` comes. */
  ghost function Place(e: nat, steps: nat, q: nat): nat {
    e * steps + q
  }

  ghost predicate PlainTables(t: Tables, c: Setting, resize: bool, eps: seq<Joined>, steps: nat) {
    && |t.low| == |t.navida| == |t.panoramic| == |t.selected| == |eps| * steps
    && (forall e :: 0 <= e < |eps| ==> |eps[e].steps| == steps)
    && forall e: nat, q: nat :: e < |eps| && q < steps ==> PlainSample(t, Place(e, steps, q), c, resize, eps[e], q)
  }

  // ---- from the builder's own terms ----

  lemma {:induction false} PlaceOfSample(eps: seq<Joined>, steps: nat, e: nat, q: nat)
    requires AllSteps(eps, steps) && e < |eps| && q < steps
    ensures Place(e, steps, q) < |Samples(eps, |eps|, 0)|
            && Samples(eps, |eps|, 0)[Place(e, steps, q)] == Sample(eps[e], q)
  {
    SampleAt(eps, steps, |eps|, 0, e, q);
  }

  /** The row of the sample at its place. */
  lemma {:induction false} RowAtPlace(c: Setting, resize: bool, eps: seq<Joined>, steps: nat, t: Tables, e: nat, q: nat)
    requires AllSteps(eps, steps) && TablesFor(c, resize, Samples(eps, |eps|, 0), t) && e < |eps| && q < steps
    ensures var i := Place(e, steps, q);
            && i < |Samples(eps, |eps|, 0)| == |t.low| == |t.navida| == |t.panoramic| == |t.selected|
            && Samples(eps, |eps|, 0)[i] == Sample(eps[e], q)
            && RowFor(c, resize, Sample(eps[e], q), Row(t.low[i], t.navida[i], t.panoramic[i], t.selected[i]))
  {
    PlaceOfSample(eps, steps, e, q);
  }

  /** The tables of all samples say of every sample what its frames and actions are. */
  lemma {:induction false} TablesPlainly(c: Setting, resize: bool, eps: seq<Joined>, steps: nat, t: Tables)
    requires AllSteps(eps, steps) && TablesFor(c, resize, Samples(eps, |eps|, 0), t)
    ensures PlainTables(t, c, resize, eps, steps)
  {
    SamplesLength(eps, steps, |eps|, 0);
    forall e: nat, q: nat | e < |eps| && q < steps
      ensures PlainSample(t, Place(e, steps, q), c, resize, eps[e], q)
    {
      RowAtPlace(c, resize, eps, steps, t, e, q);
      var i := Place(e, steps, q);
      RowPlainly(c, resize, Sample(eps[e], q), Row(t.low[i], t.navida[i], t.panoramic[i], t.selected[i]));
    }
  }

  // ---- the finished set ----

  /** A derivative on disk: its source with its hash and size, and that source resampled, at the
      place named after source, category and size, with its hash. */
  ghost predicate PlainDerivative(d: Derivative, c: Setting, files: Files) {
    var source := File(c.root + d.source.dir, d.source.stem, d.source.suffix);
    var output := File(c.output + d.output.dir, d.output.stem, d.output.suffix);
    && d.output.dir == ["derived", d.category] + d.source.dir && d.output.suffix == ".jpg"
    && d.output.stem == d.source.stem + "_" + Dec(d.outputSize.w) + "x" + Dec(d.outputSize.h)
    && source in files && files[source].Image? && files[source].jpeg && files[source].size == d.sourceSize
    && c.tools.file(files[source]) == d.sourceSha
    && output in files
    && files[output] == Image(true, d.outputSize, c.tools.fit(files[source].pixels, d.outputSize))
    && c.tools.file(files[output]) == d.outputSha
  }

  /** Some derivative is frame `i` resampled to this path. */
  ghost predicate Backed(path: File, ds: seq<Derivative>, c: Setting, ep: Joined, i: int, category: string, w: nat,
                         h: nat)
  {
    && FittedPath(path, c.root, ep, i, category, w, h)
    && exists n :: 0 <= n < |ds| && ds[n].output == path && ds[n].category == category
                   && ds[n].outputSize == Size(w, h) && SourcePath(ds[n].source, c.root, ep, i)
  }

  ghost predicate PanoramicBackedAt(r: Record, ds: seq<Derivative>, c: Setting, ep: Joined, k: int) {
    && r.PanoramicRecord? && |r.history| == 4 && |r.candidates| == 4
    && Backed(r.current, ds, c, ep, k, "panoramic_960x240", 960, 240)
    && (forall j :: 0 <= j < 4 ==> Backed(r.history[j], ds, c, ep, k - 4 + j, "panoramic_960x240", 960, 240))
    && Backed(r.candidates[0].image, ds, c, ep, k - 2, "panoramic_candidates_320x240", 320, 240)
    && Backed(r.candidates[1].image, ds, c, ep, k - 1, "panoramic_candidates_320x240", 320, 240)
    && Backed(r.candidates[2].image, ds, c, ep, k + 1, "panoramic_candidates_320x240", 320, 240)
    && Backed(r.candidates[3].image, ds, c, ep, k + 2, "panoramic_candidates_320x240", 320, 240)
  }

  ghost predicate NavidaBackedAt(r: Record, ds: seq<Derivative>, c: Setting, ep: Joined, k: int) {
    && r.NavidaRecord? && |r.history| == 4 && Backed(r.current, ds, c, ep, k, "navida_320x240", 320, 240)
    && forall j :: 0 <= j < 4 ==> Backed(r.history[j], ds, c, ep, k - 4 + j, "navida_320x240", 320, 240)
  }

  /** Every resampled image the rows at place `i` name is one of the derivatives. */
  ghost predicate SampleBacked(t: Tables, i: nat, ds: seq<Derivative>, c: Setting, resize: bool, ep: Joined, q: nat) {
    && i < |t.panoramic| == |t.navida| && q < |ep.steps|
    && PanoramicBackedAt(t.panoramic[i], ds, c, ep, ep.steps[q])
    && (resize ==> NavidaBackedAt(t.navida[i], ds, c, ep, ep.steps[q]))
  }

  /** A manifest of these records, on disk and described with its hash and count. */
  ghost predicate PlainManifest(entry: Entry, name: string, records: seq<Record>, c: Setting, files: Files) {
    var file := File(c.output, name, ".json");
    && file in files && files[file] == ManifestJson(records)
    && entry == Entry(file, c.tools.file(ManifestJson(records)), |records|)
  }

  /** The frame is there as an image of 320 by 240. */
  ghost predicate Standard(files: Files, f: File) {
    f in files && files[f].Image? && files[f].size.w == 320 && files[f].size.h == 240
  }

  /** Frame `i` is in the window of some step of the episode, and not 320 by 240. */
  ghost predicate OddFrame(files: Files, ep: Joined, q: nat, i: nat) {
    && q < |ep.steps| && ep.steps[q] - 4 <= i <= ep.steps[q] + 2 && i < |ep.frames|
    && !Standard(files, ep.frames[i])
  }

  ghost predicate SomeOdd(files: Files, eps: seq<Joined>) {
    exists e: nat, q: nat, i: nat :: e < |eps| && OddFrame(files, eps[e], q, i)
  }

  /** What the provenance says of inputs, selection, roots and manifests. */
  ghost predicate PlainProvenance(p: Provenance, u: Setup, files: Files) {
    && p.schema == "embodiinfer_r2r_vlnce_real_rgb_manifest_v1"
    && p.classification == "structurally_aligned_existing_export_not_official_tar_byte_verified"
    && !p.tarVerified && !p.syntheticPixels && !p.trajectoryClaim
    && p.imagesRoot == u.c.root
    && p.train == u.train && u.train in files && p.trainSha == u.c.tools.file(files[u.train])
    && p.annotations == u.annotations && p.annotationsSha == u.c.tools.file(u.annotated)
    && p.selection == Selection(u.count, u.steps, 4, u.t.selected, u.c.tools.selection(u.t.selected))
    && p.dataRoots == map[Low := u.c.root, Navida := if u.resize then u.c.output else u.c.root,
                          Panoramic := u.c.output]
    && p.manifests.Keys == {Low, Navida, Panoramic}
    && PlainManifest(p.manifests[Low], "low", u.t.low, u.c, files)
    && PlainManifest(p.manifests[Navida], "navida", u.t.navida, u.c, files)
    && PlainManifest(p.manifests[Panoramic], "panoramic", u.t.panoramic, u.c, files)
  }

  /** The derivatives stand, the samples name no other, and frames are resampled exactly when some
      used one is odd. */
  ghost predicate PlainImages(t: Tables, ds: seq<Derivative>, c: Setting, resize: bool, eps: seq<Joined>, steps: nat,
                              files: Files)
  {
    && (forall n :: 0 <= n < |ds| ==> PlainDerivative(ds[n], c, files))
    && (forall e: nat, q: nat :: e < |eps| && q < steps ==>
          SampleBacked(t, Place(e, steps, q), ds, c, resize, eps[e], q))
    && (resize <==> SomeOdd(files, eps))
  }

  /** A finished set: the tables of all samples in their documents, the derivatives they name, the
      provenance, and that document itself. */
  ghost predicate PlainSet(u: Setup, files: Files, p: Provenance) {
    && |u.eps| == u.count && u.steps > 0 && PlainTables(u.t, u.c, u.resize, u.eps, u.steps)
    && PlainProvenance(p, u, files) && PlainImages(u.t, p.derivatives, u.c, u.resize, u.eps, u.steps, files)
    && var document := File(u.c.output, "provenance", ".json");
       document in files && files[document] == ProvenanceJson(p)
  }

  lemma DerivativePlainly(c: Setting, files: Files, d: Derivative)
    requires DerivativeStands(c, files, d)
    ensures PlainDerivative(d, c, files)
  {
    assert Digits(Under(c.root, d.source).stem);
  }

  lemma BackedBy(path: File, ds: seq<Derivative>, c: Setting, files: Files, ep: Joined, i: nat, category: string,
                 size: Size)
    requires i < |ep.frames| && c.root <= ep.frames[i].dir
             && path == RelativeOutput(c, Key(ep.frames[i], category, size))
    requires Recorded(c, ds, Key(ep.frames[i], category, size))
    requires forall n :: 0 <= n < |ds| ==> DerivativeStands(c, files, ds[n])
    ensures Backed(path, ds, c, ep, i, category, size.w, size.h)
  {
    var n :| 0 <= n < |ds| && KeyOf(c, ds[n]) == Key(ep.frames[i], category, size);
    assert DerivativeStands(c, files, ds[n]);
    FittedPlainly(c, path, ep, i, category, size);
    assert (c.root + ds[n].source.dir)[|c.root|..] == ds[n].source.dir;
  }

  /** The resampled current frame and history, all recorded. */
  lemma FramesBacked(c: Setting, files: Files, ds: seq<Derivative>, s: Sample, category: string, size: Size,
                     paths: seq<File>)
    requires Usable(s) && DerivedFrom(c, Keys([Current(s)] + History(s), category, size), paths)
    requires AllRecorded(c, ds, Keys([Current(s)] + History(s), category, size))
    requires forall n :: 0 <= n < |ds| ==> DerivativeStands(c, files, ds[n])
    ensures |paths| == 5 && Backed(paths[0], ds, c, s.ep, Step(s), category, size.w, size.h)
    ensures forall j :: 0 <= j < 4 ==>
              Backed(paths[1..][j], ds, c, s.ep, Step(s) - 4 + j, category, size.w, size.h)
  {
    var keys := Keys([Current(s)] + History(s), category, size);
    assert keys[0] == Key(s.ep.frames[Step(s)], category, size);
    BackedBy(paths[0], ds, c, files, s.ep, Step(s), category, size);
    forall j | 0 <= j < 4
      ensures Backed(paths[1..][j], ds, c, s.ep, Step(s) - 4 + j, category, size.w, size.h)
    {
      HistoryAt(s, j);
      assert keys[j + 1] == Key(s.ep.frames[Step(s) - 4 + j], category, size);
      BackedBy(paths[j + 1], ds, c, files, s.ep, Step(s) - 4 + j, category, size);
    }
  }

  lemma CandidateBacked(c: Setting, files: Files, ds: seq<Derivative>, s: Sample, cd: Candidate, i: nat, frame: nat)
    requires Usable(s) && i < 4 && c.root <= CandidateFrames(s)[i].dir
    requires cd == Candidate(RelativeOutput(c, CandidateKeys(s)[i]), Angle(i), Hop(i))
    requires frame < |s.ep.frames| && CandidateFrames(s)[i] == s.ep.frames[frame]
    requires AllRecorded(c, ds, CandidateKeys(s)) && forall n :: 0 <= n < |ds| ==> DerivativeStands(c, files, ds[n])
    ensures Backed(cd.image, ds, c, s.ep, frame, "panoramic_candidates_320x240", 320, 240)
  {
    assert CandidateKeys(s)[i] == Key(s.ep.frames[frame], "panoramic_candidates_320x240", FRAME);
    BackedBy(cd.image, ds, c, files, s.ep, frame, "panoramic_candidates_320x240", FRAME);
  }

  lemma PanoramicBacked(c: Setting, files: Files, ds: seq<Derivative>, s: Sample, r: Record)
    requires PanoramicFor(c, s, r) && AllRecorded(c, ds, CandidateKeys(s)) && AllRecorded(c, ds, PanoramaKeys(s))
    requires forall n :: 0 <= n < |ds| ==> DerivativeStands(c, files, ds[n])
    ensures PanoramicBackedAt(r, ds, c, s.ep, Step(s))
  {
    FramesBacked(c, files, ds, s, "panoramic_960x240", PANORAMA, [r.current] + r.history);
    forall j | 0 <= j < 4
      ensures Backed(r.history[j], ds, c, s.ep, Step(s) - 4 + j, "panoramic_960x240", 960, 240)
    {
      assert ([r.current] + r.history)[1..][j] == r.history[j];
    }
    CandidateBacked(c, files, ds, s, r.candidates[0], 0, Step(s) - 2);
    CandidateBacked(c, files, ds, s, r.candidates[1], 1, Step(s) - 1);
    CandidateBacked(c, files, ds, s, r.candidates[2], 2, Step(s) + 1);
    CandidateBacked(c, files, ds, s, r.candidates[3], 3, Step(s) + 2);
  }

  lemma NavidaBacked(c: Setting, files: Files, ds: seq<Derivative>, s: Sample, r: Record)
    requires NavidaFor(c, true, s, r) && AllRecorded(c, ds, NavidaKeys(s))
    requires forall n :: 0 <= n < |ds| ==> DerivativeStands(c, files, ds[n])
    ensures NavidaBackedAt(r, ds, c, s.ep, Step(s))
  {
    FramesBacked(c, files, ds, s, "navida_320x240", FRAME, [r.current] + r.history);
    forall j | 0 <= j < 4
      ensures Backed(r.history[j], ds, c, s.ep, Step(s) - 4 + j, "navida_320x240", 320, 240)
    {
      assert ([r.current] + r.history)[1..][j] == r.history[j];
    }
  }

  lemma RowBacked(c: Setting, files: Files, ds: seq<Derivative>, resize: bool, s: Sample, t: Tables, i: nat)
    requires i < |t.low| == |t.navida| == |t.panoramic| == |t.selected|
    requires RowFor(c, resize, s, Row(t.low[i], t.navida[i], t.panoramic[i], t.selected[i]))
    requires SampleRecorded(c, ds, s, resize) && forall n :: 0 <= n < |ds| ==> DerivativeStands(c, files, ds[n])
    ensures SampleBacked(t, i, ds, c, resize, s.ep, s.quantile)
  {
    PanoramicBacked(c, files, ds, s, t.panoramic[i]);
    if resize {
      NavidaBacked(c, files, ds, s, t.navida[i]);
    }
  }

  lemma {:induction false} SampleIsBacked(u: Setup, files: Files, ds: seq<Derivative>, e: nat, q: nat)
    requires u.steps >= 0 && AllSteps(u.eps, u.steps) && TablesFor(u.c, u.resize, AllSamples(u), u.t)
             && ImagesStand(u, files, ds)
    requires e < |u.eps| && q < u.steps
    ensures SampleBacked(u.t, Place(e, u.steps, q), ds, u.c, u.resize, u.eps[e], q)
  {
    RowAtPlace(u.c, u.resize, u.eps, u.steps, u.t, e, q);
    assert SampleRecorded(u.c, ds, AllSamples(u)[Place(e, u.steps, q)], u.resize);
    RowBacked(u.c, files, ds, u.resize, Sample(u.eps[e], q), u.t, Place(e, u.steps, q));
  }

  lemma OddIsUsed(files: Files, eps: seq<Joined>, e: nat, q: nat, i: nat)
    requires e < |eps| && OddFrame(files, eps[e], q, i) && Usable(Sample(eps[e], q))
    ensures eps[e].frames[i] in UsedFrames(eps) && !IsFrame(files, eps[e].frames[i])
  {
    WindowAt(Sample(eps[e], q), i - (Step(Sample(eps[e], q)) - 4));
  }

  lemma UsedIsOdd(files: Files, eps: seq<Joined>, f: File)
    requires f in UsedFrames(eps) && !IsFrame(files, f)
    ensures SomeOdd(files, eps)
  {
    var e: nat, q: nat :| e < |eps| && q < |eps[e].steps| && Usable(Sample(eps[e], q))
      && f in Window(Sample(eps[e], q));
    var s := Sample(eps[e], q);
    var j: nat :| j < |Window(s)| && Window(s)[j] == f;
    WindowAt(s, j);
    assert OddFrame(files, eps[e], q, Step(s) - 4 + j);
  }

  lemma OddIff(files: Files, eps: seq<Joined>)
    requires forall e, q :: 0 <= e < |eps| && 0 <= q < |eps[e].steps| ==> Usable(Sample(eps[e], q))
    ensures SomeOdd(files, eps) <==> exists f :: f in UsedFrames(eps) && !IsFrame(files, f)
  {
    if SomeOdd(files, eps) {
      var e: nat, q: nat, i: nat :| e < |eps| && OddFrame(files, eps[e], q, i);
      OddIsUsed(files, eps, e, q, i);
    }
    if f :| f in UsedFrames(eps) && !IsFrame(files, f) {
      UsedIsOdd(files, eps, f);
    }
  }

  lemma ProvenancePlainly(u: Setup, files: Files, p: Provenance)
    requires p == MakeProvenance(u, p.derivatives) && InputsStand(u, files) && DocumentsStand(u, files, p)
    ensures PlainProvenance(p, u, files)
  {
    assert ManifestFile(u.c.output, Low) in files && ManifestFile(u.c.output, Navida) in files
      && ManifestFile(u.c.output, Panoramic) in files;
  }

  /** Everything a finished set is, in terms of frames, actions and files alone. */
  lemma {:induction false} CompletePlainly(u: Setup, files: Files, p: Provenance)
    requires Complete(u, files, p)
    ensures PlainSet(u, files, p)
  {
    TablesPlainly(u.c, u.resize, u.eps, u.steps, u.t);
    ProvenancePlainly(u, files, p);
    forall n | 0 <= n < |p.derivatives| ensures PlainDerivative(p.derivatives[n], u.c, files) {
      DerivativePlainly(u.c, files, p.derivatives[n]);
    }
    forall e: nat, q: nat | e < |u.eps| && q < u.steps
      ensures SampleBacked(u.t, Place(e, u.steps, q), p.derivatives, u.c, u.resize, u.eps[e], q)
    {
      SampleIsBacked(u, files, p.derivatives, e, q);
    }
    forall e, q | 0 <= e < |u.eps| && 0 <= q < |u.eps[e].steps| ensures Usable(Sample(u.eps[e], q)) {
      assert WindowIn(Sample(u.eps[e], q), Universe(u.eps));
    }
    OddIff(files, u.eps);
  }
}
