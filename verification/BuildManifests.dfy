/** The builder from its inputs to a finished set. */
module BuildManifests {
  import opened Wrappers
  import opened Names
  import opened Manifest
  import opened EpisodeJoin
  import opened Derivatives
  import opened ManifestSamples
  import opened ManifestRows
  import opened ManifestBuilder
  import opened ManifestPublication
  import opened ManifestTables
  import ManifestValidator

  /** How file contents read as the training index and as annotations, None when malformed. */
  datatype Reader = Reader(train: int -> Option<map<int, TrainEpisode>>, annotations: int -> Option<seq<Annotation>>)

  /** Nothing outside the output directory changes, and no numbered file anywhere. */
  ghost predicate Confined(output: seq<string>, before: Files, after: Files) {
    forall f: File :: Digits(f.stem) || !(output <= f.dir) ==>
      (f in after <==> f in before) && (f in before ==> after[f] == before[f])
  }

  lemma ConfinedAfter(c: Setting, before: Files, fitted: Files, after: Files)
    requires Untouched(c, before, fitted) && OnlyDocuments(c.output, fitted, after)
    ensures Confined(c.output, before, after)
  {
    forall f: File | Digits(f.stem) || !(c.output <= f.dir)
      ensures !(c.output + ["derived"] <= f.dir) || Digits(f.stem)
    {
      if c.output + ["derived"] <= f.dir {
        assert (c.output + ["derived"])[..|c.output|] == c.output;
        assert f.dir[..|c.output|] == c.output;
      }
    }
  }

  lemma TrainStays(c: Setting, before: Files, fitted: Files, t: Tables, train: File)
    requires Untouched(c, before, fitted) && train.suffix == ".gz" && train in before
    ensures train in Published(fitted, c.output, t) && Published(fitted, c.output, t)[train] == before[train]
  {
    PublishedDocuments(fitted, c.output, t);
  }

  lemma ProvenancePathStays(c: Setting, before: Files, fitted: Files, t: Tables)
    requires Untouched(c, before, fitted) && ProvenanceFile(c.output) in before
    ensures var f := ProvenanceFile(c.output);
            f in Published(fitted, c.output, t) && Published(fitted, c.output, t)[f] == before[f]
  {
    var f := ProvenanceFile(c.output);
    assert !(c.output + ["derived"] <= f.dir);
    assert "low"[0] != "provenance"[0] && "navida"[0] != "provenance"[0] && "panoramic"[1] != "provenance"[1];
    assert f != ManifestFile(c.output, Low) && f != ManifestFile(c.output, Navida)
      && f != ManifestFile(c.output, Panoramic);
    assert ".tmp"[1] != ".json"[1];
  }

  /** The annotations are a temporary that writing an image or a manifest uses up. */
  ghost predicate UsedUp(c: Setting, wanted: set<Key>, annotations: File) {
    TemporaryOf(c, wanted, annotations) || exists kind :: annotations == Temporary(ManifestFile(c.output, kind))
  }

  lemma ManifestStep(files: Files, output: seq<string>, t: Tables, kind: Kind, f: File)
    ensures f in PublishedOne(files, output, t, kind)
            <==> f == ManifestFile(output, kind) || (f in files && f != Temporary(ManifestFile(output, kind)))
  {
  }

  /** A file that was there survives publication unless a manifest is written through it. */
  lemma SurvivesPublication(files: Files, output: seq<string>, t: Tables, f: File)
    requires f.suffix == ".tmp" || f in files
    ensures f in Published(files, output, t)
            <==> f in files && forall kind :: f != Temporary(ManifestFile(output, kind))
  {
    var a := PublishedOne(files, output, t, Low);
    var b := PublishedOne(a, output, t, Navida);
    ManifestStep(files, output, t, Low, f);
    ManifestStep(a, output, t, Navida, f);
    ManifestStep(b, output, t, Panoramic, f);
    assert ".json"[1] != ".tmp"[1];
    var low, navida, panoramic :=
      Temporary(ManifestFile(output, Low)), Temporary(ManifestFile(output, Navida)),
      Temporary(ManifestFile(output, Panoramic));
    if f != low && f != navida && f != panoramic {
      forall kind: Kind ensures f != Temporary(ManifestFile(output, kind)) {
        match kind
        case Low =>
        case Navida =>
        case Panoramic =>
      }
    }
  }

  /** The annotations are still there for hashing exactly when nothing used them up. */
  lemma AnnotationsStay(c: Setting, before: Files, s: Store, wanted: set<Key>, t: Tables, annotations: File)
    requires Swept(c, before, s) && s.paths.Keys == wanted && annotations in before
    ensures annotations in Published(s.files, c.output, t) <==> !UsedUp(c, wanted, annotations)
  {
    if TemporaryOf(c, wanted, annotations) {
      var k :| k in wanted && c.root <= k.source.dir && annotations == Temporary(Destination(c, k));
    }
    SurvivesPublication(s.files, c.output, t, annotations);
  }

  lemma KeyFitted(paths: map<Key, File>, s: Sample, resize: bool, k: Key)
    requires KeysKept(paths, s, resize) && NeedsKey(s, resize, k)
    ensures k in paths
  {
  }

  lemma WantedFitted(paths: map<Key, File>, samples: seq<Sample>, resize: bool, k: Key)
    requires AllKept(paths, samples, resize) && k in Wanted(samples, resize)
    ensures k in paths
  {
    WantedIff(samples, resize, k);
    var i :| 0 <= i < |samples| && NeedsKey(samples[i], resize, k);
    KeyFitted(paths, samples[i], resize, k);
  }

  /** Every wanted image has been fitted, and no other. */
  lemma AllWantedFitted(paths: map<Key, File>, samples: seq<Sample>, resize: bool, wanted: set<Key>)
    requires AllKept(paths, samples, resize) && wanted == Wanted(samples, resize) && paths.Keys <= wanted
    ensures paths.Keys == wanted
  {
    forall k | k in wanted ensures k in paths {
      WantedFitted(paths, samples, resize, k);
    }
  }

  /** Publishes the tables, hashes the inputs and writes the provenance. */
  method Finish(d: Derivatives, train: File, annotations: File, count: int, steps: int, eps: seq<Joined>, resize: bool,
                t: Tables,
                ghost before: Files, ghost wanted: set<Key>)
    returns (r: Result<Provenance, BuildError>, ghost u: Setup)
    requires steps > 0 && EpisodesFit(eps, steps, d.setting.root) && |eps| == count
    requires wanted == Wanted(Samples(eps, |eps|, 0), resize)
             && Built(d, before, wanted, resize, Samples(eps, |eps|, 0), t)
    requires resize <==> exists f :: f in UsedFrames(eps) && !IsFrame(before, f)
    requires train in before && train.suffix == ".gz" && annotations in before && before[annotations].Other?
    modifies d.disk
    ensures r.Ok? <==> !UsedUp(d.setting, wanted, annotations)
    ensures r.Ok? ==> Complete(u, d.disk.files, r.value) && Confined(d.setting.output, before, d.disk.files)
    ensures r.Ok? ==> u.c == d.setting && u.train == train && u.trained == before[train] && u.annotations == annotations
                      && u.count == count && u.steps == steps && u.eps == eps && u.resize == resize
    ensures r.Err? ==> r.error == MissingInput
  {
    var c, disk := d.setting, d.disk;
    ghost var s := d.Value();
    AllWantedFitted(s.paths, Samples(eps, |eps|, 0), resize, wanted);
    AnnotationsStay(c, before, s, s.paths.Keys, t, annotations);
    var entries := Publish(disk, c.tools, c.output, t);
    ghost var published := disk.files;
    TrainStays(c, before, s.files, t, train);
    if annotations !in disk.files {
      u := Setup(c, train, before[train], annotations, before[train], count, steps, eps, resize, t);
      return Err(MissingInput), u;
    }
    if annotations == ProvenanceFile(c.output) {
      ProvenancePathStays(c, before, s.files, t);
    }
    u := Setup(c, train, before[train], annotations, published[annotations], count, steps, eps, resize, t);
    var p := Provenance(ManifestValidator.SCHEMA, ManifestValidator.CLASSIFICATION, false, false, false,
                        train, c.tools.file(disk.files[train]), c.root, annotations,
                        c.tools.file(disk.files[annotations]),
                        SelectionOf(c.tools, count, steps, t), Roots(c, resize), entries, d.records);
    assert p == MakeProvenance(u, s.records);
    var sha := WriteJson(disk, c.tools, ProvenanceFile(c.output), ProvenanceJson(p));
    FinishedSet(u, before, s);
    ConfinedAtLast(c, before, s.files, t, ProvenanceJson(p));
    return Ok(p), u;
  }

  lemma ConfinedAtLast(c: Setting, before: Files, fitted: Files, t: Tables, provenance: Content)
    requires Untouched(c, before, fitted)
    ensures Confined(c.output, before, Replaced(Published(fitted, c.output, t), ProvenanceFile(c.output), provenance))
  {
    var published := Published(fitted, c.output, t);
    var later := Replaced(published, ProvenanceFile(c.output), provenance);
    PublishedDocuments(fitted, c.output, t);
    ReplacedDocument(c.output, published, "provenance", provenance);
    DocumentsChain(c.output, fitted, published, later);
    ConfinedAfter(c, before, fitted, later);
  }

  /** The training file's name ends in .json.gz. */
  predicate TrainName(train: File) {
    train.suffix == ".gz" && |train.stem| >= 5 && train.stem[|train.stem| - 5..] == ".json"
  }

  /** Both inputs are there and read well. */
  predicate InputsRead(files: Files, reader: Reader, train: File, annotations: File) {
    && train in files && TrainName(train) && files[train].Other? && reader.train(files[train].data).Some?
    && annotations in files && files[annotations].Other? && reader.annotations(files[annotations].data).Some?
  }

  /** Reads both inputs from disk. */
  method ReadInputs(files: Files, reader: Reader, train: File, annotations: File)
    returns (r: Result<(map<int, TrainEpisode>, seq<Annotation>), BuildError>)
    ensures r.Ok? <==> InputsRead(files, reader, train, annotations)
    ensures r.Ok? ==>
              r.value == (reader.train(files[train].data).value, reader.annotations(files[annotations].data).value)
    ensures r.Err? ==> r.error in {MissingInput, BadTrain, Malformed}
  {
    if train !in files {
      return Err(MissingInput);
    }
    if !TrainName(train) {
      return Err(BadTrain);
    }
    if annotations !in files {
      return Err(MissingInput);
    }
    if !files[train].Other? || !files[annotations].Other? {
      return Err(Malformed);
    }
    var index, notes := reader.train(files[train].data), reader.annotations(files[annotations].data);
    if index.None? || notes.None? {
      return Err(Malformed);
    }
    return Ok((index.value, notes.value));
  }

  /** Some used frame is not 320 by 240. */
  ghost predicate Resizes(files: Files, eps: seq<Joined>) {
    exists f :: f in UsedFrames(eps) && !IsFrame(files, f)
  }

  ghost predicate FramesRead(files: Files, eps: seq<Joined>) {
    forall f :: f in UsedFrames(eps) ==> JpegAt(files, f)
  }

  lemma {:induction false} SampleKept(paths: map<Key, File>, eps: seq<Joined>, steps: nat, resize: bool,
                                      samples: seq<Sample>, e: nat, q: nat)
    requires AllSteps(eps, steps) && samples == Samples(eps, |eps|, 0) && e < |eps| && q < steps
             && AllKept(paths, samples, resize)
    ensures KeysKept(paths, Sample(eps[e], q), resize)
  {
    SampleAt(eps, steps, |eps|, 0, e, q);
    assert KeysKept(paths, samples[e * steps + q], resize);
  }

  /** When everything was fitted, every used frame was a JPEG image. */
  lemma {:induction false} FittedFrames(c: Setting, before: Files, s: Store, eps: seq<Joined>, steps: nat,
                                        wanted: set<Key>, resize: bool)
    requires steps > 0 && EpisodesFit(eps, steps, c.root) && Stored(c, before, s, wanted)
    requires AllKept(s.paths, Samples(eps, |eps|, 0), resize)
    ensures FramesRead(before, eps)
  {
    forall f | f in UsedFrames(eps) ensures JpegAt(before, f) {
      var e, q :| 0 <= e < |eps| && 0 <= q < |eps[e].steps| && Usable(Sample(eps[e], q))
        && f in Window(Sample(eps[e], q));
      SampleKept(s.paths, eps, steps, resize, Samples(eps, |eps|, 0), e, q);
      UsedFrame(eps, f);
      assert FrameAt(c.root, f);
      UsedIsJpeg(c, before, s, wanted, Sample(eps[e], q), resize, f);
    }
  }

  /** Resamples all that the episodes need, over a disk the store has not yet written to. */
  method FitEverything(d: Derivatives, eps: seq<Joined>, steps: nat, ghost before: Files)
    returns (r: Result<(bool, Tables), FitError>, ghost wanted: set<Key>)
    requires d.disk.files == before && d.Value() == Empty(before) && EpisodesFit(eps, steps, d.setting.root)
    modifies d, d.disk
    ensures r.Ok? ==> r.value.0 == Resizes(before, eps) && wanted == Wanted(Samples(eps, |eps|, 0), r.value.0)
    ensures r.Ok? ==> Built(d, before, wanted, r.value.0, Samples(eps, |eps|, 0), r.value.1)
    ensures r.Ok? <==> FramesRead(before, eps)
  {
    FreshSound(d.setting, before);
    wanted := {};
    forall f | f in UsedFrames(eps) ensures Digits(f.stem) {
      UsedFrame(eps, f);
      assert FrameAt(d.setting.root, f);
    }
    var resize := NeedsResize(d, UsedFrames(eps), before);
    if resize.Err? {
      return Err(resize.error), wanted;
    }
    wanted := Wanted(Samples(eps, |eps|, 0), resize.value);
    var tables := FitRows(d, eps, steps, resize.value, before, wanted);
    if tables.Err? {
      return Err(tables.error), wanted;
    }
    return Ok((resize.value, tables.value)), wanted;
  }

  /** Resamples what is wanted while building the rows. */
  method FitRows(d: Derivatives, eps: seq<Joined>, steps: nat, resize: bool, ghost before: Files,
                 ghost wanted: set<Key>)
    returns (r: Result<Tables, FitError>)
    requires Stored(d.setting, before, d.Value(), {}) && d.paths == map[] && EpisodesFit(eps, steps, d.setting.root)
    requires wanted == Wanted(Samples(eps, |eps|, 0), resize)
    modifies d, d.disk
    ensures r.Ok? ==> Built(d, before, wanted, resize, Samples(eps, |eps|, 0), r.value)
    ensures r.Ok? <==> FramesRead(before, eps)
  {
    WantedProper(eps, steps, d.setting.root, resize, wanted);
    AllNeeded(eps, steps, d.setting.root, resize, wanted);
    r := BuildRows(d, eps, resize, before, wanted);
    if r.Ok? {
      FittedFrames(d.setting, before, d.Value(), eps, steps, wanted, resize);
    }
  }

  /** The episodes a build is made of. */
  ghost function Episodes(files: Files, reader: Reader, listing: map<string, seq<File>>, train: File, annotations: File,
                          count: int, steps: int)
    : Option<seq<Joined>>
    requires InputsRead(files, reader, train, annotations) && count > 0 && steps > 0
  {
    var index, notes := reader.train(files[train].data).value, reader.annotations(files[annotations].data).value;
    if Joinable(index, notes, listing, count, steps, 4) then Some(FirstById(index, notes, listing, count, steps, 4))
      else None
  }

  /** The frames of the episodes are JPEG images, and the annotations are not used up on the way. */
  ghost predicate Makeable(files: Files, c: Setting, annotations: File, eps: seq<Joined>) {
    FramesRead(files, eps) && !UsedUp(c, Wanted(Samples(eps, |eps|, 0), Resizes(files, eps)), annotations)
  }

  /** The inputs read well and give enough episodes, and those can be made into a finished set. */
  ghost predicate Buildable(files: Files, c: Setting, reader: Reader, listing: map<string, seq<File>>, train: File,
                            annotations: File,
                            count: int, steps: int, depth: int)
  {
    && count > 0 && steps > 0 && depth == 4 && InputsRead(files, reader, train, annotations)
    && var eps := Episodes(files, reader, listing, train, annotations, count, steps);
       eps.Some? && Makeable(files, c, annotations, eps.value)
  }

  /** Makes a finished set of the chosen episodes. */
  method Make(disk: Disk, c: Setting, train: File, annotations: File, count: int, steps: int, eps: seq<Joined>)
    returns (r: Result<Provenance, BuildError>, ghost u: Setup)
    requires steps > 0 && EpisodesFit(eps, steps, c.root) && |eps| == count
    requires train in disk.files && train.suffix == ".gz" && annotations in disk.files && disk.files[annotations].Other?
    modifies disk
    ensures r.Ok? <==> old(Makeable(disk.files, c, annotations, eps))
    ensures r.Ok? ==> Complete(u, disk.files, r.value) && Confined(c.output, old(disk.files), disk.files)
    ensures r.Ok? ==>
              u.c == c && u.train == train && u.annotations == annotations && u.count == count && u.steps == steps
              && u.eps == eps
                      && u.resize == old(Resizes(disk.files, eps))
    ensures r.Err? ==> r.error.Unfit? || r.error.MissingInput?
  {
    ghost var before := disk.files;
    u := Setup(c, train, Other(0), annotations, Other(0), count, steps, [], false, Tables([], [], [], []));
    var d := new Derivatives(c, disk);
    var fitted, wanted := FitEverything(d, eps, steps, before);
    if fitted.Err? {
      return Err(Unfit(fitted.error)), u;
    }
    var (resize, tables) := fitted.value;
    r, u := Finish(d, train, annotations, count, steps, eps, resize, tables, before, wanted);
  }

  /** The inputs are on disk and read, the training file's name ends in .json.gz, and the episodes
      are those joined from what was read. */
  ghost predicate PlainInputs(files: Files, reader: Reader, listing: map<string, seq<File>>, train: File,
                              annotations: File, count: int, steps: int, eps: seq<Joined>)
  {
    && train in files && train.suffix == ".gz" && |train.stem| >= 5 && train.stem[|train.stem| - 5..] == ".json"
    && files[train].Other? && annotations in files && files[annotations].Other?
    && var index, notes := reader.train(files[train].data), reader.annotations(files[annotations].data);
       index.Some? && notes.Some? && count > 0 && steps > 0
       && PlainJoin(Ok(eps), index.value, notes.value, listing, count, steps, 4)
  }

  lemma InputsPlainly(files: Files, reader: Reader, listing: map<string, seq<File>>, train: File, annotations: File,
                      count: int, steps: int, eps: seq<Joined>)
    requires InputsRead(files, reader, train, annotations) && count > 0 && steps > 0
    requires Some(eps) == Episodes(files, reader, listing, train, annotations, count, steps)
    ensures PlainInputs(files, reader, listing, train, annotations, count, steps, eps)
  {
    FirstPlainly(reader.train(files[train].data).value, reader.annotations(files[annotations].data).value, listing,
                 count,
                 steps, 4);
  }

  /** Makes the set and says what it is in terms of frames, actions and files alone. */
  method MakePlain(disk: Disk, c: Setting, train: File, annotations: File, count: int, steps: int, eps: seq<Joined>)
    returns (r: Result<Provenance, BuildError>, ghost u: Setup)
    requires steps > 0 && EpisodesFit(eps, steps, c.root) && |eps| == count
    requires train in disk.files && train.suffix == ".gz" && annotations in disk.files && disk.files[annotations].Other?
    modifies disk
    ensures r.Ok? <==> old(Makeable(disk.files, c, annotations, eps))
    ensures r.Ok? ==> Complete(u, disk.files, r.value) && Confined(c.output, old(disk.files), disk.files)
    ensures r.Ok? ==>
              && u.c == c && u.train == train && u.annotations == annotations && u.count == count && u.steps == steps
              && u.eps == eps && u.resize == old(Resizes(disk.files, eps))
    ensures r.Ok? ==> PlainSet(u, disk.files, r.value)
    ensures r.Err? ==> r.error.Unfit? || r.error.MissingInput?
  {
    r, u := Make(disk, c, train, annotations, count, steps, eps);
    if r.Ok? {
      CompletePlainly(u, disk.files, r.value);
    }
  }

  /** Joins the episodes of the inputs. */
  method JoinInputs(index: map<int, TrainEpisode>, notes: seq<Annotation>, listing: map<string, seq<File>>, count: nat,
                    steps: nat, root: seq<string>)
    returns (r: Result<seq<Joined>, JoinError>)
    requires count > 0 && steps > 0 && Listed(root, listing)
    ensures r.Ok? <==> Joinable(index, notes, listing, count, steps, 4)
    ensures r.Ok? ==> r.value == FirstById(index, notes, listing, count, steps, 4)
    ensures r.Ok? ==> EpisodesFit(r.value, steps, root) && |r.value| == count
    ensures r.Err? ==> !r.error.Quantile?
  {
    r := Join(index, notes, listing, count, steps, 4);
    if r.Ok? {
      ChosenFit(r.value, index, notes, listing, count, steps, root);
    }
  }

  /** Reads the inputs and joins their episodes. */
  method ReadEpisodes(files: Files, reader: Reader, listing: map<string, seq<File>>, train: File, annotations: File,
                      count: int, steps: int, root: seq<string>)
    returns (r: Result<seq<Joined>, BuildError>)
    requires count > 0 && steps > 0 && Listed(root, listing)
    ensures r.Ok? <==> InputsRead(files, reader, train, annotations)
                       && Episodes(files, reader, listing, train, annotations, count, steps).Some?
    ensures r.Ok? ==>
              && Some(r.value) == Episodes(files, reader, listing, train, annotations, count, steps)
              && EpisodesFit(r.value, steps, root) && |r.value| == count
    ensures r.Err? ==> r.error in {MissingInput, BadTrain, Malformed}
                       || (r.error.Unjoined? && !r.error.cause.Quantile?)
  {
    var inputs := ReadInputs(files, reader, train, annotations);
    if inputs.Err? {
      return Err(inputs.error);
    }
    var (index, notes) := inputs.value;
    var eps := JoinInputs(index, notes, listing, count, steps, root);
    return if eps.Ok? then Ok(eps.value) else Err(Unjoined(eps.error));
  }

  /** Builds a finished set from the inputs on disk, writing only below the output directory. */
  method Build(disk: Disk, c: Setting, reader: Reader, listing: map<string, seq<File>>, train: File, annotations: File,
               count: int, steps: int, depth: int)
    returns (r: Result<Provenance, BuildError>, ghost u: Setup)
    requires Listed(c.root, listing)
    modifies disk
    ensures r.Ok? <==> old(Buildable(disk.files, c, reader, listing, train, annotations, count, steps, depth))
    ensures count <= 0 || steps <= 0 ==> r == Err(BadCount)
    ensures count > 0 && steps > 0 && depth != 4 ==> r == Err(BadDepth)
    ensures r.Ok? ==> Complete(u, disk.files, r.value) && Confined(c.output, old(disk.files), disk.files)
    ensures r.Ok? ==>
              && u.c == c && u.train == train && u.annotations == annotations && u.count == count && u.steps == steps
              && Some(u.eps) == Episodes(old(disk.files), reader, listing, train, annotations, count, steps)
              && u.resize == Resizes(old(disk.files), u.eps)
    ensures r.Ok? ==>
              PlainSet(u, disk.files, r.value)
              && PlainInputs(old(disk.files), reader, listing, train, annotations, count, steps, u.eps)
    ensures r.Err? && r.error.Unjoined? ==> !r.error.cause.Quantile?
  {
    ghost var before := disk.files;
    u := Setup(c, train, Other(0), annotations, Other(0), count, steps, [], false, Tables([], [], [], []));
    if count <= 0 || steps <= 0 {
      return Err(BadCount), u;
    }
    if depth != 4 {
      return Err(BadDepth), u;
    }
    var eps := ReadEpisodes(disk.files, reader, listing, train, annotations, count, steps, c.root);
    if eps.Err? {
      return Err(eps.error), u;
    }
    r, u := MakePlain(disk, c, train, annotations, count, steps, eps.value);
    if r.Ok? {
      InputsPlainly(before, reader, listing, train, annotations, count, steps, u.eps);
    }
  }
}
