/** What the strict loader admits, in terms of files, records and declared hashes alone. */
module ManifestRules {
  import opened Wrappers
  import opened Manifest
  import opened ManifestValidator

  // ---- files and images ----

  ghost function Below(root: seq<string>, rel: File): File {
    File(root + rel.dir, rel.stem, rel.suffix)
  }

  /** The path does not climb out of its root, and something is there. */
  ghost predicate At(files: Files, root: seq<string>, rel: File) {
    ".." !in rel.dir && rel.stem + rel.suffix != ".." && rel.stem != "" && Below(root, rel) in files
  }

  ghost predicate Picture(files: Files, root: seq<string>, path: File) {
    At(files, root, path) && files[Below(root, path)].Image?
  }

  ghost predicate PictureOf(files: Files, root: seq<string>, path: File, w: nat, h: nat) {
    && Picture(files, root, path)
    && files[Below(root, path)].size.w == w && files[Below(root, path)].size.h == h
  }

  ghost predicate HasHash(files: Files, tools: Tools, f: File, sha: string) {
    f in files && tools.file(files[f]) == sha
  }

  // ---- records ----

  /** A record of the profile: an id, an instruction with text, and images of the profile's sizes. */
  ghost predicate PlainRecord(files: Files, root: seq<string>, kind: Kind, r: Record) {
    && r.id != "" && HasText(r.instruction)
    && match kind
       case Low =>
         && !r.PanoramicRecord? && Picture(files, root, r.current)
         && (forall i :: 0 <= i < |r.history| ==> Picture(files, root, r.history[i]))
         && (if r.NavidaRecord? then r.history == [] else |r.history| == |r.responses| && r.distance >= 0.0)
       case Navida =>
         && r.NavidaRecord? && PictureOf(files, root, r.current, 320, 240)
         && forall i :: 0 <= i < |r.history| ==> PictureOf(files, root, r.history[i], 320, 240)
       case Panoramic =>
         && r.PanoramicRecord? && PictureOf(files, root, r.current, 960, 240)
         && (forall i :: 0 <= i < |r.history| ==> PictureOf(files, root, r.history[i], 960, 240))
         && |r.history| == |r.responses| && r.distance >= 0.0 && r.candidates != []
         && forall i :: 0 <= i < |r.candidates| ==>
              PictureOf(files, root, r.candidates[i].image, 320, 240) && r.candidates[i].distance >= 0.0
  }

  ghost predicate Mentions(r: Record, f: File) {
    || f == r.current || f in r.history
    || (r.PanoramicRecord? && exists i :: 0 <= i < |r.candidates| && r.candidates[i].image == f)
  }

  // ---- provenance ----

  /** Some derivative has this source, or this output. */
  ghost predicate Listed(ds: seq<Derivative>, f: File, source: bool) {
    exists n :: 0 <= n < |ds| && f == if source then ds[n].source else ds[n].output
  }

  /** Source and output are there, with the 64 characters of hash declared for them. */
  ghost predicate Held(files: Files, tools: Tools, root: seq<string>, rel: File, sha: string) {
    At(files, root, rel) && |sha| == 64 && tools.file(files[Below(root, rel)]) == sha
  }

  ghost predicate PlainHeader(p: Provenance) {
    p.schema == "embodiinfer_r2r_vlnce_real_rgb_manifest_v1"
    && !p.syntheticPixels && !p.trajectoryClaim && !p.tarVerified
  }

  /** Every image a record mentions is the source of a derivative when the data root is that of the
      images, and the output of one otherwise. */
  ghost predicate PlainCoverage(p: Provenance, dataRoot: seq<string>, kind: Kind, records: seq<Record>) {
    forall k :: 0 <= k < |records| ==>
      && (kind == Panoramic <==> records[k].PanoramicRecord?)
      && forall f :: Mentions(records[k], f) ==> Listed(p.derivatives, f, dataRoot == p.imagesRoot)
  }

  ghost predicate PlainSelection(tools: Tools, p: Provenance, records: seq<Record>) {
    && p.selection.sha == tools.selection(p.selection.samples) && |p.selection.samples| == |records|
    && forall k :: 0 <= k < |records| ==> records[k].id == p.selection.samples[k].sampleId != ""
  }

  // ---- the formal set ----

  ghost predicate Shows(selected: seq<Selected>, id: int, quantile: int, k: nat) {
    k < |selected| && selected[k].episodeId == id && selected[k].quantile == quantile
  }

  ghost predicate Shown(selected: seq<Selected>, id: int, quantile: int) {
    exists k: nat :: Shows(selected, id, quantile, k)
  }

  /** The episode's records show each of the quantiles 0 to 3 once, at four different frames. */
  ghost predicate FourSteps(selected: seq<Selected>, id: int) {
    && (forall k :: 0 <= k < |selected| && selected[k].episodeId == id ==> 0 <= selected[k].quantile <= 3)
    && (forall q :: 0 <= q <= 3 ==> Shown(selected, id, q))
    && forall j, k :: 0 <= j < k < |selected| && selected[j].episodeId == selected[k].episodeId == id ==>
         selected[j].quantile != selected[k].quantile && selected[j].frameIndex != selected[k].frameIndex
  }

  ghost predicate FullRow(kind: Kind, r: Record, s: Selected) {
    && |s.responses| == 4 && |r.history| == 4
    && match kind
       case Low => r.LowRecord? && |r.responses| == 4
       case Navida => !r.PanoramicRecord?
       case Panoramic => r.PanoramicRecord? && |r.responses| == 4 && |r.candidates| == 4
  }

  ghost predicate PlainFormal(p: Provenance, kind: Kind, records: seq<Record>) {
    var selected := p.selection.samples;
    && p.selection.episodeCount == 48 && p.selection.stepsPerEpisode == 4 && p.selection.historyDepth == 4
    && |records| == 192 && |selected| == 192
    && p.classification == "structurally_aligned_existing_export_not_official_tar_byte_verified"
    && |set k | 0 <= k < |selected| :: selected[k].episodeId| == 48
    && (forall k :: 0 <= k < |selected| ==> FourSteps(selected, selected[k].episodeId))
    && forall k :: 0 <= k < |records| ==> FullRow(kind, records[k], selected[k])
  }

  // ---- the whole set ----

  ghost predicate PlainAdmitted(files: Files, tools: Tools, manifest: File, dataRoot: seq<string>, kind: Kind,
                                records: seq<Record>, provenance: File, formal: bool)
  {
    && provenance in files && files[provenance].ProvenanceJson?
    && var p := files[provenance].provenance;
       && PlainHeader(p) && kind in p.manifests && p.manifests[kind].path == manifest
       && p.manifests[kind].count == |records| && HasHash(files, tools, manifest, p.manifests[kind].sha)
       && kind in p.dataRoots && p.dataRoots[kind] == dataRoot && (exists f :: f in files && p.imagesRoot <= f.dir)
       && HasHash(files, tools, p.train, p.trainSha) && HasHash(files, tools, p.annotations, p.annotationsSha)
       && (forall n :: 0 <= n < |p.derivatives| ==>
             && Held(files, tools, p.imagesRoot, p.derivatives[n].source, p.derivatives[n].sourceSha)
             && Held(files, tools, provenance.dir, p.derivatives[n].output, p.derivatives[n].outputSha))
       && PlainCoverage(p, dataRoot, kind, records) && PlainSelection(tools, p, records)
       && (formal ==> PlainFormal(p, kind, records))
  }

  /** A JSON manifest of records with distinct ids, at least `limit` and all of them when formal, the
      first `limit` of which are of the profile; with a provenance, one that admits it. */
  ghost predicate PlainLoadable(files: Files, tools: Tools, manifest: File, dataRoot: seq<string>, kind: Kind,
                                limit: int, provenance: Option<File>, formal: bool)
  {
    && (exists f :: f in files && dataRoot <= f.dir)
    && manifest in files && files[manifest].ManifestJson? && manifest.suffix in {".json", ".jsonl"}
    && var records := files[manifest].records;
       && 0 < limit <= |records| && (formal ==> limit == |records|)
       && (forall j, k :: 0 <= j < k < |records| ==> records[j].id != records[k].id)
       && (forall k :: 0 <= k < limit ==> PlainRecord(files, dataRoot, kind, records[k]))
       && (provenance.Some? ==>
           PlainAdmitted(files, tools, manifest, dataRoot, kind, records, provenance.value, formal))
  }

  // ---- from the checks' own terms ----

  lemma ImageIff(files: Files, root: seq<string>, path: File)
    ensures ImageOk(files, root, path, None) <==> Picture(files, root, path)
    ensures ImageOk(files, root, path, Some(Size(320, 240))) <==> PictureOf(files, root, path, 320, 240)
    ensures ImageOk(files, root, path, Some(Size(960, 240))) <==> PictureOf(files, root, path, 960, 240)
  {
  }

  lemma AllImagesIff(files: Files, root: seq<string>, paths: seq<File>)
    ensures ImagesOk(files, root, paths, None) <==> forall i :: 0 <= i < |paths| ==> Picture(files, root, paths[i])
    ensures ImagesOk(files, root, paths, Some(Size(320, 240))) <==>
              forall i :: 0 <= i < |paths| ==> PictureOf(files, root, paths[i], 320, 240)
    ensures ImagesOk(files, root, paths, Some(Size(960, 240))) <==>
              forall i :: 0 <= i < |paths| ==> PictureOf(files, root, paths[i], 960, 240)
  {
    forall i | 0 <= i < |paths|
      ensures ImageOk(files, root, paths[i], None) <==> Picture(files, root, paths[i])
      ensures ImageOk(files, root, paths[i], Some(Size(320, 240))) <==> PictureOf(files, root, paths[i], 320, 240)
      ensures ImageOk(files, root, paths[i], Some(Size(960, 240))) <==> PictureOf(files, root, paths[i], 960, 240)
    {
      ImageIff(files, root, paths[i]);
    }
  }

  lemma CandidatesIff(files: Files, root: seq<string>, cs: seq<Candidate>)
    ensures CandidatesOk(files, root, cs) <==>
              cs != [] && forall i :: 0 <= i < |cs| ==>
                            PictureOf(files, root, cs[i].image, 320, 240) && cs[i].distance >= 0.0
  {
    forall i | 0 <= i < |cs|
      ensures ImageOk(files, root, cs[i].image, Some(Size(320, 240))) <==>
                PictureOf(files, root, cs[i].image, 320, 240)
    {
      ImageIff(files, root, cs[i].image);
    }
  }

  /** The parser's checks accept exactly the records of the profile. */
  lemma ParsesIff(files: Files, root: seq<string>, kind: Kind, r: Record)
    ensures Parses(files, root, kind, r) <==> PlainRecord(files, root, kind, r)
  {
    ImageIff(files, root, r.current);
    AllImagesIff(files, root, r.history);
    if r.PanoramicRecord? {
      CandidatesIff(files, root, r.candidates);
    }
    assert NonBlank(r.instruction) <==> HasText(r.instruction);
  }

  lemma MentionsIff(r: Record, f: File)
    ensures f in ImagePaths(r) <==> Mentions(r, f)
  {
    var images := CandidateImages(Candidates(r));
    assert f in ImagePaths(r) <==> f == r.current || f in r.history || f in images;
    assert f in images <==> exists i :: 0 <= i < |images| && images[i] == f;
  }

  lemma VouchedIff(p: Provenance, dataRoot: seq<string>, f: File)
    ensures f in Vouched(p, dataRoot) <==> Listed(p.derivatives, f, dataRoot == p.imagesRoot)
  {
  }

  lemma CoverageIff(p: Provenance, dataRoot: seq<string>, kind: Kind, records: seq<Record>)
    ensures Covered(p, dataRoot, kind, records) <==> PlainCoverage(p, dataRoot, kind, records)
  {
    forall k, f | 0 <= k < |records| ensures f in ImagePaths(records[k]) <==> Mentions(records[k], f) {
      MentionsIff(records[k], f);
    }
    forall f ensures f in Vouched(p, dataRoot) <==> Listed(p.derivatives, f, dataRoot == p.imagesRoot) {
      VouchedIff(p, dataRoot, f);
    }
  }

  lemma DerivativesPlain(files: Files, tools: Tools, p: Provenance, base: seq<string>)
    ensures AllDerivativesOk(files, tools, p, base) <==>
              forall n :: 0 <= n < |p.derivatives| ==>
                && Held(files, tools, p.imagesRoot, p.derivatives[n].source, p.derivatives[n].sourceSha)
                && Held(files, tools, base, p.derivatives[n].output, p.derivatives[n].outputSha)
  {
  }

  // ---- groups by episode ----

  lemma {:induction false} GroupPlace(selected: seq<Selected>, id: int, j: nat)
    requires j < |selected| && selected[j].episodeId == id
    ensures |Group(selected[..j], id)| < |Group(selected, id)|
            && Group(selected, id)[|Group(selected[..j], id)|] == selected[j]
  {
    var n := |selected| - 1;
    if j < n {
      GroupPlace(selected[..n], id, j);
      assert selected[..n][..j] == selected[..j];
    }
  }

  lemma {:induction false} GroupIndex(selected: seq<Selected>, id: int, place: nat) returns (j: nat)
    requires place < |Group(selected, id)|
    ensures j < |selected| && selected[j].episodeId == id && Group(selected, id)[place] == selected[j]
    ensures |Group(selected[..j], id)| == place
  {
    var n := |selected| - 1;
    if place < |Group(selected[..n], id)| {
      j := GroupIndex(selected[..n], id, place);
      assert selected[..n][..j] == selected[..j];
    } else {
      j := n;
    }
  }

  lemma PlacesGrow(selected: seq<Selected>, id: int, j: nat, k: nat)
    requires j < k < |selected| && selected[j].episodeId == id
    ensures |Group(selected[..j], id)| < |Group(selected[..k], id)|
  {
    GroupPlace(selected[..k], id, j);
    assert selected[..k][..j] == selected[..j];
  }

  ghost const QUANTILE: Selected -> int := (s: Selected) => s.quantile

  ghost const FRAME: Selected -> int := (s: Selected) => s.frameIndex

  /** No two records of the group have the same number. */
  ghost predicate Injective(group: seq<Selected>, number: Selected -> int) {
    forall i, j :: 0 <= i < j < |group| ==> number(group[i]) != number(group[j])
  }

  ghost function Numbers(group: seq<Selected>, number: Selected -> int): set<int> {
    set k | 0 <= k < |group| :: number(group[k])
  }

  lemma NumbersMore(group: seq<Selected>, number: Selected -> int, n: nat)
    requires n + 1 == |group|
    ensures Numbers(group, number) == Numbers(group[..n], number) + {number(group[n])}
    ensures Injective(group, number) <==>
              Injective(group[..n], number) && number(group[n]) !in Numbers(group[..n], number)
  {
    var before, x := Numbers(group[..n], number), number(group[n]);
    assert forall k :: 0 <= k < n ==> group[..n][k] == group[k];
    forall k | 0 <= k < n ensures number(group[k]) in before {
      assert number(group[..n][k]) in before;
    }
    if x in before {
      var k :| 0 <= k < n && number(group[..n][k]) == x;
      assert number(group[k]) == number(group[n]);
    }
  }

  lemma {:induction false} NumbersAtMost(group: seq<Selected>, number: Selected -> int)
    ensures |Numbers(group, number)| <= |group|
    ensures Injective(group, number) <==> |Numbers(group, number)| == |group|
  {
    if group == [] {
      assert Numbers(group, number) == {};
    } else {
      var n := |group| - 1;
      NumbersAtMost(group[..n], number);
      NumbersMore(group, number, n);
      SizeWith(Numbers(group[..n], number), number(group[n]));
    }
  }

  lemma SizeWith(before: set<int>, x: int)
    ensures |before + {x}| == |before| + if x in before then 0 else 1
  {
    if x in before {
      assert before + {x} == before;
    }
  }

  lemma SetsAre(group: seq<Selected>)
    ensures QuantileSet(group) == Numbers(group, QUANTILE) && FrameSet(group) == Numbers(group, FRAME)
  {
  }

  lemma GroupInjective(selected: seq<Selected>, id: int, number: Selected -> int)
    ensures Injective(Group(selected, id), number) <==>
              forall j, k :: 0 <= j < k < |selected| && selected[j].episodeId == selected[k].episodeId == id ==>
                number(selected[j]) != number(selected[k])
  {
    var group := Group(selected, id);
    if Injective(group, number) {
      forall j, k | 0 <= j < k < |selected| && selected[j].episodeId == selected[k].episodeId == id
        ensures number(selected[j]) != number(selected[k])
      {
        GroupPlace(selected, id, j);
        GroupPlace(selected, id, k);
        PlacesGrow(selected, id, j, k);
      }
    }
    if !Injective(group, number) {
      var a, b :| 0 <= a < b < |group| && number(group[a]) == number(group[b]);
      var j := GroupIndex(selected, id, a);
      var k := GroupIndex(selected, id, b);
      if k <= j {
        if k < j {
          PlacesGrow(selected, id, k, j);
        }
        assert false;
      }
    }
  }

  lemma GroupShows(selected: seq<Selected>, id: int, q: int)
    ensures q in QuantileSet(Group(selected, id)) <==> Shown(selected, id, q)
  {
    var group := Group(selected, id);
    if q in QuantileSet(group) {
      var place :| 0 <= place < |group| && group[place].quantile == q;
      var j := GroupIndex(selected, id, place);
      assert Shows(selected, id, q, j);
    }
    if Shown(selected, id, q) {
      var k: nat :| Shows(selected, id, q, k);
      GroupPlace(selected, id, k);
    }
  }

  lemma ShownInRange(selected: seq<Selected>, id: int)
    ensures QuantileSet(Group(selected, id)) == {0, 1, 2, 3} <==>
              && (forall k :: 0 <= k < |selected| && selected[k].episodeId == id ==> 0 <= selected[k].quantile <= 3)
              && forall q :: 0 <= q <= 3 ==> Shown(selected, id, q)
  {
    var shown := QuantileSet(Group(selected, id));
    forall q ensures q in shown <==> Shown(selected, id, q) {
      GroupShows(selected, id, q);
    }
    forall k | 0 <= k < |selected| && selected[k].episodeId == id ensures selected[k].quantile in shown {
      assert Shows(selected, id, selected[k].quantile, k);
    }
    if forall k :: 0 <= k < |selected| && selected[k].episodeId == id ==> 0 <= selected[k].quantile <= 3 {
      forall q | q in shown ensures 0 <= q <= 3 {
        var k: nat :| Shows(selected, id, q, k);
      }
      if forall q :: 0 <= q <= 3 ==> Shown(selected, id, q) {
        assert forall q :: q in shown <==> q in {0, 1, 2, 3};
      }
    }
  }

  lemma InjectiveFour(group: seq<Selected>)
    ensures GroupOk(group) <==>
              QuantileSet(group) == {0, 1, 2, 3} && Injective(group, QUANTILE) && Injective(group, FRAME)
  {
    SetsAre(group);
    NumbersAtMost(group, QUANTILE);
    NumbersAtMost(group, FRAME);
    assert |{0, 1, 2, 3}| == 4;
  }

  /** The group test passes exactly when the episode has four steps. */
  lemma GroupIff(selected: seq<Selected>, id: int)
    ensures GroupOk(Group(selected, id)) <==> FourSteps(selected, id)
  {
    InjectiveFour(Group(selected, id));
    GroupInjective(selected, id, QUANTILE);
    GroupInjective(selected, id, FRAME);
    ShownInRange(selected, id);
  }

  lemma GroupsIff(selected: seq<Selected>)
    ensures GroupsOk(selected) <==>
              && |set k | 0 <= k < |selected| :: selected[k].episodeId| == 48
              && forall k :: 0 <= k < |selected| ==> FourSteps(selected, selected[k].episodeId)
  {
    forall id ensures GroupOk(Group(selected, id)) <==> FourSteps(selected, id) {
      GroupIff(selected, id);
    }
    forall k | 0 <= k < |selected| ensures selected[k].episodeId in EpisodeIds(selected) {
    }
  }

  lemma FormalIff(p: Provenance, kind: Kind, records: seq<Record>)
    ensures FormalOk(p, kind, records) <==> PlainFormal(p, kind, records)
  {
    GroupsIff(p.selection.samples);
    if CountsOk(p, records) {
      forall k | 0 <= k < |records|
        ensures FullHistory(kind, records[k], p.selection.samples[k]) <==>
                  FullRow(kind, records[k], p.selection.samples[k])
      {
      }
    }
  }

  lemma AdmittedPlainly(files: Files, tools: Tools, manifest: File, dataRoot: seq<string>, kind: Kind,
                        records: seq<Record>, provenance: File, formal: bool)
    ensures Admitted(files, tools, manifest, dataRoot, kind, records, provenance, formal) <==>
              PlainAdmitted(files, tools, manifest, dataRoot, kind, records, provenance, formal)
  {
    if ProvenanceAt(files, provenance) {
      var p := files[provenance].provenance;
      DerivativesPlain(files, tools, p, provenance.dir);
      CoverageIff(p, dataRoot, kind, records);
      FormalIff(p, kind, records);
    }
  }

  /** The loader's checks accept exactly the loadable input. */
  lemma LoadablePlainly(files: Files, tools: Tools, manifest: File, dataRoot: seq<string>, kind: Kind, limit: int,
                        provenance: Option<File>, formal: bool)
    ensures Loadable(files, tools, manifest, dataRoot, kind, limit, provenance, formal) <==>
              PlainLoadable(files, tools, manifest, dataRoot, kind, limit, provenance, formal)
  {
    if ManifestAt(files, manifest) {
      var records := files[manifest].records;
      forall k | 0 <= k < |records|
        ensures Parses(files, dataRoot, kind, records[k]) <==> PlainRecord(files, dataRoot, kind, records[k])
      {
        ParsesIff(files, dataRoot, kind, records[k]);
      }
      if provenance.Some? {
        AdmittedPlainly(files, tools, manifest, dataRoot, kind, records, provenance.value, formal);
      }
    }
  }
}
