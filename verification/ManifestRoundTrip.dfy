/** Building a manifest set and loading it back, and inputs for which the loader refuses what the
    builder finished. */
module ManifestRoundTrip {
  import opened Wrappers
  import opened Names
  import opened Manifest
  import opened EpisodeJoin
  import opened Derivatives
  import opened ManifestSamples
  import opened ManifestRows
  import opened ManifestBuilder
  import opened ManifestPublication
  import opened BuildManifests
  import opened ManifestAgreement
  import L = ManifestLoader
  import V = ManifestValidator
  import A = ManifestAdmission

  /** No input file has the digest of a provenance document. */
  ghost predicate TellsApart(tools: Tools) {
    forall data, p :: tools.file(Other(data)) != tools.file(ProvenanceJson(p))
  }

  /** Digests that tell input files from everything else, so that nothing below is vacuous. */
  lemma SomeTools() returns (tools: Tools)
    ensures HexDigests(tools) && TellsApart(tools)
  {
    tools := Tools((content: Content) => seq(64, i => if content.Other? then 'a' else 'b'),
                   (samples: seq<Selected>) => "",
                   (text: string) => "", (pixels: int, size: Size) => pixels);
    forall data, p ensures tools.file(Other(data)) != tools.file(ProvenanceJson(p)) {
      assert tools.file(Other(data))[0] == 'a' && tools.file(ProvenanceJson(p))[0] == 'b';
    }
  }

  /** What the loader asks of a request, seen from the inputs of the build. */
  predicate Requested(count: int, steps: int, limit: int, formal: bool) {
    0 < limit <= count * steps && (formal ==> limit == count * steps && count == 48 && steps == 4)
  }

  /** The annotations lie neither where the provenance document goes nor at its temporary. */
  predicate Apart(annotations: File, output: seq<string>) {
    annotations != ProvenanceFile(output) && annotations != Temporary(ProvenanceFile(output))
  }

  lemma CompleteApart(u: Setup, files: Files, p: Provenance)
    requires Complete(u, files, p) && TellsApart(u.c.tools)
    ensures A.NoCollision(u, p)
  {
    A.CompleteTabled(u, files, p);
  }

  /** Builds a set and loads one of its manifests under the set's own root and provenance: the load
      succeeds exactly when the request fits, derived images have a directory of their own and the
      annotations outlive the provenance document. */
  method BuildThenLoad(disk: Disk, c: Setting, reader: Reader, listing: map<string, seq<File>>, train: File,
                       annotations: File,
                       count: int, steps: int, depth: int, kind: Kind, limit: int, formal: bool)
    returns (built: Result<Provenance, BuildError>, loaded: Option<Result<V.Loaded, V.LoadError>>, ghost resize: bool)
    requires Listed(c.root, listing) && HexDigests(c.tools) && TellsApart(c.tools)
    modifies disk
    ensures built.Ok? <==> old(Buildable(disk.files, c, reader, listing, train, annotations, count, steps, depth))
    ensures built.Ok? <==> loaded.Some?
    ensures built.Ok? ==> var eps := Episodes(old(disk.files), reader, listing, train, annotations, count, steps);
                          eps.Some? && resize == Resizes(old(disk.files), eps.value)
    ensures built.Ok? ==> (loaded.value.Ok? <==> Requested(count, steps, limit, formal) && OwnDirectory(c, kind, resize)
                                                 && Apart(annotations, c.output))
  {
    ghost var u;
    built, u := Build(disk, c, reader, listing, train, annotations, count, steps, depth);
    resize, loaded := u.resize, None;
    if built.Ok? {
      CompleteApart(u, disk.files, built.value);
      A.AdmittedIff(u, disk.files, built.value, kind, limit, formal);
      A.DataRootIsDir(u, disk.files, built.value, kind);
      var result := L.Load(disk.files, c.tools, ManifestFile(c.output, kind), built.value.dataRoots[kind], kind, limit,
                           Some(ProvenanceFile(c.output)), formal);
      loaded := Some(result);
    }
  }

  // ---- one episode of seven frames ----

  const ROOT := ["images"]
  const TRAIN := File(["inputs"], "train.json", ".gz")
  const WALK := Annotation(0, Some(Video("walk", "hall", 0)), ["Go."], [-1, 1, 1, 1, 1, 1, 0])

  function Frame(i: nat): File {
    File(ROOT + ["walk", "rgb"], Dec(i + 1), ".jpg")
  }

  function Frames(): (r: seq<File>)
    ensures |r| == 7 && forall i :: 0 <= i < 7 ==> r[i] == Frame(i)
  {
    seq(7, i requires 0 <= i => Frame(i))
  }

  function Listing(): map<string, seq<File>> {
    map["walk" := Frames()]
  }

  /** The training file, the annotations and seven frames of the standard size. */
  function Inputs(annotations: File): Files {
    map f | f in Frames() + [TRAIN, annotations] :: if f in Frames() then Image(true, FRAME, 0) else Other(0)
  }

  /** The training index the training file reads as. */
  function Index(): map<int, TrainEpisode> {
    map[0 := TrainEpisode("hall", "Go.")]
  }

  function Reading(): Reader {
    Reader((data: int) => Some(Index()), (data: int) => Some([WALK]))
  }

  lemma FramesNumbered()
    ensures Numbered(Frames()) && Listed(ROOT, Listing())
  {
    forall i | 0 <= i < 7 ensures Digits(Frames()[i].stem) && Val(Frames()[i].stem) == i + 1 {
      ValDec(i + 1);
    }
    assert "walk"[0] != '.';
  }

  /** The annotation gives one episode, whose one step is in the middle. */
  lemma WalkJoins()
    ensures var r := JoinOne(Index(), WALK, Listing(), {}, 1, 4);
            r.Ok? && r.value.Some? && r.value.value.frames == Frames()
  {
    FramesNumbered();
    assert NonBlank("Go.") by {
      assert !Blank("Go."[0]);
    }
    assert ValidInstructions(["Go."]) && ValidActions(WALK.actions);
    var eligible := EligibleCount(WALK.actions, 4);
    SelectSpans(eligible, 7, 1, 4);
  }

  /** The temporary of the provenance document has the longest name. */
  lemma TemporariesDiffer(output: seq<string>, kind: Kind)
    ensures Temporary(ManifestFile(output, kind)) != Temporary(ProvenanceFile(output))
    ensures Temporary(ManifestFile(output, kind)).suffix == ".tmp"
  {
    var manifest, provenance := Temporary(ManifestFile(output, kind)).stem, Temporary(ProvenanceFile(output)).stem;
    assert |KindName(kind)| <= 9 && |manifest| == 1 + |KindName(kind)| + 5;
    assert |provenance| == 1 + |"provenance"| + 5 == 16;
  }

  /** Only the annotations' own place decides whether they are used up. */
  lemma NotUsedUp(c: Setting, wanted: set<Key>, annotations: File)
    requires annotations.suffix != ".tmp" || annotations == Temporary(ProvenanceFile(c.output))
    ensures !UsedUp(c, wanted, annotations)
  {
    forall k | k in wanted && c.root <= k.source.dir ensures annotations != Temporary(Destination(c, k)) {
      assert |Temporary(Destination(c, k)).dir| > |c.output|;
    }
    forall kind: Kind ensures annotations != Temporary(ManifestFile(c.output, kind)) {
      TemporariesDiffer(c.output, kind);
    }
  }

  lemma SortOne(e: Joined)
    ensures SortById([e])[..1] == [e]
  {
    assert SortById([e]) == InsertById(e, SortById([]));
  }

  /** The one annotation is clean and gives the one episode. */
  lemma WalkChosen() returns (e: Joined)
    ensures Joinable(Index(), [WALK], Listing(), 1, 1, 4) && FirstById(Index(), [WALK], Listing(), 1, 1, 4) == [e]
    ensures e.frames == Frames()
  {
    WalkJoins();
    e := JoinOne(Index(), WALK, Listing(), {}, 1, 4).value.value;
    assert Gathered(Index(), [WALK], 1, Listing(), 1, 4) == [e] by {
      assert Gathered(Index(), [WALK], 0, Listing(), 1, 4) == [];
      assert Alone(Index(), [WALK][0], Listing(), 1, 4) == Some(e);
    }
    SortOne(e);
  }

  /** All frames of the inputs are images of the standard size. */
  lemma WalkFrames(e: Joined, annotations: File)
    requires e.frames == Frames()
    ensures FramesRead(Inputs(annotations), [e]) && !Resizes(Inputs(annotations), [e])
  {
    forall f | f in UsedFrames([e]) ensures f in Frames() {
      var q :| 0 <= q < |e.steps| && Usable(Sample(e, q)) && f in Window(Sample(e, q));
      var i :| 0 <= i < |Window(Sample(e, q))| && Window(Sample(e, q))[i] == f;
    }
  }

  /** These inputs build a finished set wherever the output and the annotations are, the output in
      the images root and the annotations in place of the provenance included. */
  lemma WalkBuildable(c: Setting, annotations: File)
    requires c.root == ROOT && annotations !in Frames() && annotations != TRAIN
    requires annotations.suffix != ".tmp" || annotations == Temporary(ProvenanceFile(c.output))
    ensures Listed(ROOT, Listing())
    ensures Buildable(Inputs(annotations), c, Reading(), Listing(), TRAIN, annotations, 1, 1, 4)
    ensures var eps := Episodes(Inputs(annotations), Reading(), Listing(), TRAIN, annotations, 1, 1);
            eps.Some? && !Resizes(Inputs(annotations), eps.value)
  {
    FramesNumbered();
    var e := WalkChosen();
    WalkFrames(e, annotations);
    var files := Inputs(annotations);
    assert InputsRead(files, Reading(), TRAIN, annotations) by {
      assert TRAIN !in Frames();
      assert TRAIN in Frames() + [TRAIN, annotations] && annotations in Frames() + [TRAIN, annotations];
      assert TRAIN.stem[5..] == ".json";
    }
    assert Episodes(files, Reading(), Listing(), TRAIN, annotations, 1, 1) == Some([e]);
    NotUsedUp(c, Wanted(Samples([e], 1, 0), false), annotations);
  }

  /** The loader refuses the finished set of these inputs when its derived images share the images
      root, when its annotations lie where the provenance goes, or at its temporary; and otherwise
      it accepts it. */
  method WalkLoads(c: Setting, annotations: File, kind: Kind) returns (loaded: Result<V.Loaded, V.LoadError>)
    requires c.root == ROOT && annotations !in Frames() && annotations != TRAIN && HexDigests(c.tools)
             && TellsApart(c.tools)
    requires annotations.suffix != ".tmp" || annotations == Temporary(ProvenanceFile(c.output))
    ensures loaded.Ok? <==> (kind.Panoramic? ==> c.output != ROOT) && Apart(annotations, c.output)
  {
    WalkBuildable(c, annotations);
    var disk := new Disk(Inputs(annotations));
    var built, result, resize :=
      BuildThenLoad(disk, c, Reading(), Listing(), TRAIN, annotations, 1, 1, 4, kind, 1, false);
    return result.value;
  }
}
