/** The strict loader: which manifests it admits with their provenance. */
module ManifestValidator {
  import opened Wrappers
  import opened Manifest

  const SCHEMA := "embodiinfer_r2r_vlnce_real_rgb_manifest_v1"
  const CLASSIFICATION := "structurally_aligned_existing_export_not_official_tar_byte_verified"

  datatype LoadError =
    | BadLimit | RootNotDirectory | NotAManifest | NoSamples | NotProvenance | BadHeader | BadEntry
    | RootMismatch | BadInputs
    | BadDerivative | Conflict | HashMismatch | BadImagePath | Uncovered | SelectionHash | IdMismatch
    | NotFormal | BadGroups
    | BadHistory | BadClassification | LimitTooLarge | PartialFormal | DuplicateId | BadSample

  datatype Loaded = Loaded(samples: seq<Record>, verified: bool, formal: bool)

  // ---- fields of a record under each profile ----

  function HistoryImages(r: Record): seq<File> {
    if r.PanoramicRecord? then [] else r.history
  }

  function HistoryPanoramas(r: Record): seq<File> {
    if r.PanoramicRecord? then r.history else []
  }

  function Answers(r: Record): seq<string> {
    if r.NavidaRecord? then [] else r.responses
  }

  function Candidates(r: Record): seq<Candidate> {
    if r.PanoramicRecord? then r.candidates else []
  }

  function Travelled(r: Record): real {
    if r.NavidaRecord? then 0.0 else r.distance
  }

  function CandidateImages(cs: seq<Candidate>): (r: seq<File>)
    ensures |r| == |cs| && forall i :: 0 <= i < |cs| ==> r[i] == cs[i].image
  {
    if cs == [] then [] else [cs[0].image] + CandidateImages(cs[1..])
  }

  /** All image paths a record names: the current one, the histories, the candidates. */
  function ImagePaths(r: Record): seq<File> {
    [r.current] + r.history + CandidateImages(Candidates(r))
  }

  /** The record has the current-image field its profile reads. */
  predicate FieldsFor(kind: Kind, r: Record) {
    kind.Panoramic? <==> r.PanoramicRecord?
  }

  // ---- what is admitted ----

  predicate HeaderOk(p: Provenance) {
    p.schema == SCHEMA && !p.syntheticPixels && !p.trajectoryClaim && !p.tarVerified
  }

  predicate EntryOk(files: Files, tools: Tools, p: Provenance, manifest: File, kind: Kind, count: nat) {
    && kind in p.manifests && p.manifests[kind].path == manifest && manifest in files
    && p.manifests[kind].sha == tools.file(files[manifest]) && p.manifests[kind].count == count
  }

  predicate HashIs(files: Files, tools: Tools, file: File, sha: string) {
    file in files && tools.file(files[file]) == sha
  }

  predicate InputsOk(files: Files, tools: Tools, p: Provenance) {
    && IsDir(files, p.imagesRoot) && HashIs(files, tools, p.train, p.trainSha)
       && HashIs(files, tools, p.annotations, p.annotationsSha)
  }

  predicate PathsOk(files: Files, p: Provenance, base: seq<string>, d: Derivative) {
    && Safe(d.source) && Under(p.imagesRoot, d.source) in files && Safe(d.output) && Under(base, d.output) in files
    && |d.sourceSha| == 64 && |d.outputSha| == 64
  }

  predicate DerivativeOk(files: Files, tools: Tools, p: Provenance, base: seq<string>, d: Derivative) {
    && PathsOk(files, p, base, d)
    && HashIs(files, tools, Under(p.imagesRoot, d.source), d.sourceSha)
    && HashIs(files, tools, Under(base, d.output), d.outputSha)
  }

  ghost function SourceSet(ds: seq<Derivative>): set<File> {
    set d | d in ds :: d.source
  }

  ghost function OutputSet(ds: seq<Derivative>): set<File> {
    set d | d in ds :: d.output
  }

  /** The paths whose hashes the provenance vouches for, relative to the data root. */
  ghost function Vouched(p: Provenance, dataRoot: seq<string>): set<File> {
    if dataRoot == p.imagesRoot then SourceSet(p.derivatives) else OutputSet(p.derivatives)
  }

  ghost predicate Covered(p: Provenance, dataRoot: seq<string>, kind: Kind, records: seq<Record>) {
    forall k :: 0 <= k < |records| ==>
      FieldsFor(kind, records[k]) && forall f :: f in ImagePaths(records[k]) ==> f in Vouched(p, dataRoot)
  }

  predicate SelectionOk(tools: Tools, p: Provenance, records: seq<Record>) {
    && p.selection.sha == tools.selection(p.selection.samples) && |p.selection.samples| == |records|
    && (forall k :: 0 <= k < |records| ==> records[k].id != "" && p.selection.samples[k].sampleId == records[k].id)
  }

  function Group(selected: seq<Selected>, id: int): seq<Selected> {
    if selected == [] then []
    else
      Group(selected[..|selected| - 1], id)
      + (if selected[|selected| - 1].episodeId == id then [selected[|selected| - 1]] else [])
  }

  ghost function EpisodeIds(selected: seq<Selected>): set<int> {
    set k | 0 <= k < |selected| :: selected[k].episodeId
  }

  function QuantileSet(group: seq<Selected>): set<int> {
    set k | 0 <= k < |group| :: group[k].quantile
  }

  function FrameSet(group: seq<Selected>): set<int> {
    set k | 0 <= k < |group| :: group[k].frameIndex
  }

  /** Quantiles 0 to 3 at four distinct steps. */
  predicate GroupOk(group: seq<Selected>) {
    |group| == 4 && QuantileSet(group) == {0, 1, 2, 3} && |FrameSet(group)| == 4
  }

  ghost predicate GroupsOk(selected: seq<Selected>) {
    |EpisodeIds(selected)| == 48 && forall id :: id in EpisodeIds(selected) ==> GroupOk(Group(selected, id))
  }

  predicate FullHistory(kind: Kind, r: Record, s: Selected) {
    && |s.responses| == 4
    && match kind
       case Low => |HistoryImages(r)| == 4 && |Answers(r)| == 4
       case Navida => |HistoryImages(r)| == 4
       case Panoramic => |HistoryPanoramas(r)| == 4 && |Answers(r)| == 4 && |Candidates(r)| == 4
  }

  predicate CountsOk(p: Provenance, records: seq<Record>) {
    && p.selection.episodeCount == 48 && p.selection.stepsPerEpisode == 4 && p.selection.historyDepth == 4
    && |records| == 192 && |p.selection.samples| == 192
  }

  /** 48 episodes, each with quantiles 0 to 3 at four distinct steps, and four of every history. */
  ghost predicate FormalOk(p: Provenance, kind: Kind, records: seq<Record>) {
    && CountsOk(p, records) && GroupsOk(p.selection.samples) && p.classification == CLASSIFICATION
    && (forall k :: 0 <= k < |records| ==> FullHistory(kind, records[k], p.selection.samples[k]))
  }

  predicate ProvenanceAt(files: Files, provenance: File) {
    provenance in files && files[provenance].ProvenanceJson?
  }

  ghost predicate Admitted(files: Files, tools: Tools, manifest: File, dataRoot: seq<string>, kind: Kind,
                           records: seq<Record>,
                           provenance: File, formal: bool)
  {
    && ProvenanceAt(files, provenance)
    && var p := files[provenance].provenance;
       && HeaderOk(p) && EntryOk(files, tools, p, manifest, kind, |records|) && kind in p.dataRoots
          && p.dataRoots[kind] == dataRoot
       && InputsOk(files, tools, p)
       && AllDerivativesOk(files, tools, p, provenance.dir)
       && Covered(p, dataRoot, kind, records) && SelectionOk(tools, p, records)
          && (formal ==> FormalOk(p, kind, records))
  }

  /** A readable image of the expected size at a safe path below the root. */
  predicate ImageOk(files: Files, root: seq<string>, path: File, expected: Option<Size>) {
    && Safe(path) && Under(root, path) in files && files[Under(root, path)].Image?
    && (expected.Some? ==> files[Under(root, path)].size == expected.value)
  }

  function CurrentSize(kind: Kind): Option<Size> {
    match kind
    case Low => None
    case Navida => Some(Size(320, 240))
    case Panoramic => Some(Size(960, 240))
  }

  predicate ImagesOk(files: Files, root: seq<string>, paths: seq<File>, expected: Option<Size>) {
    forall i :: 0 <= i < |paths| ==> ImageOk(files, root, paths[i], expected)
  }

  predicate CandidatesOk(files: Files, root: seq<string>, cs: seq<Candidate>) {
    cs != [] && forall i :: 0 <= i < |cs| ==>
                  ImageOk(files, root, cs[i].image, Some(Size(320, 240))) && cs[i].distance >= 0.0
  }

  /** The record parses under the profile, its images being there in the demanded sizes. */
  predicate Parses(files: Files, root: seq<string>, kind: Kind, r: Record) {
    && FieldsFor(kind, r) && (kind.Navida? ==> r.NavidaRecord?)
    && r.id != "" && NonBlank(r.instruction)
    && ImageOk(files, root, r.current, CurrentSize(kind)) && ImagesOk(files, root, r.history, CurrentSize(kind))
    && (!kind.Navida? ==> |r.history| == |Answers(r)| && Travelled(r) >= 0.0)
    && (kind.Panoramic? ==> CandidatesOk(files, root, Candidates(r)))
  }

  predicate UniqueIds(records: seq<Record>) {
    forall j, k :: 0 <= j < k < |records| ==> records[j].id != records[k].id
  }

  predicate ManifestAt(files: Files, manifest: File) {
    manifest in files && files[manifest].ManifestJson? && (manifest.suffix == ".json" || manifest.suffix == ".jsonl")
  }

  ghost predicate Loadable(files: Files, tools: Tools, manifest: File, dataRoot: seq<string>, kind: Kind, limit: int,
                           provenance: Option<File>, formal: bool)
  {
    && limit > 0 && IsDir(files, dataRoot) && ManifestAt(files, manifest)
    && var records := files[manifest].records;
       && records != [] && limit <= |records| && (formal ==> limit == |records|) && UniqueIds(records)
       && (forall k :: 0 <= k < limit ==> Parses(files, dataRoot, kind, records[k]))
       && (provenance.Some? ==> Admitted(files, tools, manifest, dataRoot, kind, records, provenance.value, formal))
  }

  // ---- the checks ----

  datatype Claim = Claim(file: File, sha: string)

  function SourceClaim(p: Provenance, d: Derivative): Claim {
    Claim(Under(p.imagesRoot, d.source), d.sourceSha)
  }

  function OutputClaim(base: seq<string>, d: Derivative): Claim {
    Claim(Under(base, d.output), d.outputSha)
  }

  /** The hashes the first `n` derivatives declare. */
  ghost function Claims(p: Provenance, base: seq<string>, n: nat): seq<Claim>
    requires n <= |p.derivatives|
  {
    if n == 0 then []
      else Claims(p, base, n - 1) + [SourceClaim(p, p.derivatives[n - 1]), OutputClaim(base, p.derivatives[n - 1])]
  }

  predicate Holds(files: Files, tools: Tools, c: Claim) {
    HashIs(files, tools, c.file, c.sha)
  }

  ghost predicate AllHold(files: Files, tools: Tools, claims: seq<Claim>) {
    forall c :: c in claims ==> Holds(files, tools, c)
  }

  ghost predicate AllDerivativesOk(files: Files, tools: Tools, p: Provenance, base: seq<string>) {
    forall i :: 0 <= i < |p.derivatives| ==> DerivativeOk(files, tools, p, base, p.derivatives[i])
  }

  ghost predicate AllPathsOk(files: Files, p: Provenance, base: seq<string>, n: nat)
    requires n <= |p.derivatives|
  {
    forall i :: 0 <= i < n ==> PathsOk(files, p, base, p.derivatives[i])
  }

  lemma PathsMore(files: Files, p: Provenance, base: seq<string>, n: nat)
    requires n < |p.derivatives| && AllPathsOk(files, p, base, n)
    ensures AllPathsOk(files, p, base, n + 1) <==> PathsOk(files, p, base, p.derivatives[n])
  {
  }

  lemma BadPathFails(files: Files, p: Provenance, base: seq<string>, n: nat)
    requires n < |p.derivatives| && !PathsOk(files, p, base, p.derivatives[n])
    ensures !AllPathsOk(files, p, base, |p.derivatives|)
  {
  }

  lemma {:induction false} ClaimIsMade(p: Provenance, base: seq<string>, n: nat, i: nat)
    requires i < n <= |p.derivatives|
    ensures SourceClaim(p, p.derivatives[i]) in Claims(p, base, n)
            && OutputClaim(base, p.derivatives[i]) in Claims(p, base, n)
  {
    if i < n - 1 {
      ClaimIsMade(p, base, n - 1, i);
    }
  }

  lemma {:induction false} ClaimOfSome(p: Provenance, base: seq<string>, n: nat, c: Claim) returns (i: nat)
    requires n <= |p.derivatives| && c in Claims(p, base, n)
    ensures i < n && (c == SourceClaim(p, p.derivatives[i]) || c == OutputClaim(base, p.derivatives[i]))
  {
    if c in Claims(p, base, n - 1) {
      i := ClaimOfSome(p, base, n - 1, c);
    } else {
      i := n - 1;
    }
  }

  /** Derivatives are good exactly when their paths are and all they declare holds. */
  lemma AllDerivativesIff(files: Files, tools: Tools, p: Provenance, base: seq<string>)
    ensures AllDerivativesOk(files, tools, p, base) <==>
              AllPathsOk(files, p, base, |p.derivatives|) && AllHold(files, tools, Claims(p, base, |p.derivatives|))
  {
    var claims := Claims(p, base, |p.derivatives|);
    if AllDerivativesOk(files, tools, p, base) {
      forall c | c in claims ensures Holds(files, tools, c) {
        var i := ClaimOfSome(p, base, |p.derivatives|, c);
        assert DerivativeOk(files, tools, p, base, p.derivatives[i]);
      }
    }
    if AllHold(files, tools, claims) {
      forall i | 0 <= i < |p.derivatives|
        ensures Holds(files, tools, SourceClaim(p, p.derivatives[i]))
                && Holds(files, tools, OutputClaim(base, p.derivatives[i]))
      {
        ClaimIsMade(p, base, |p.derivatives|, i);
      }
    }
  }

  /** A table of declarations that agree. */
  ghost predicate Collected(declared: map<File, string>, claims: seq<Claim>) {
    && (forall c :: c in claims ==> c.file in declared && declared[c.file] == c.sha)
    && (forall f :: f in declared ==> Claim(f, declared[f]) in claims)
  }

  ghost predicate Clash(claims: seq<Claim>) {
    exists c, d :: c in claims && d in claims && c.file == d.file && c.sha != d.sha
  }

  lemma ClashFails(files: Files, tools: Tools, claims: seq<Claim>, more: seq<Claim>)
    requires Clash(claims) && forall c :: c in claims ==> c in more
    ensures !AllHold(files, tools, more)
  {
    var c, d :| c in claims && d in claims && c.file == d.file && c.sha != d.sha;
    assert !Holds(files, tools, c) || !Holds(files, tools, d);
  }

  /** The first declaration of a file stands; a later one must agree. */
  method SetDefault(declared: map<File, string>, c: Claim, ghost claims: seq<Claim>)
    returns (after: map<File, string>, ok: bool)
    requires Collected(declared, claims)
    ensures ok ==> Collected(after, claims + [c])
    ensures !ok ==> Clash(claims + [c])
  {
    if c.file in declared {
      assert Claim(c.file, declared[c.file]) in claims + [c] && c in claims + [c];
      return declared, declared[c.file] == c.sha;
    }
    return declared[c.file := c.sha], true;
  }

  /** Takes in both declarations of a derivative. */
  method Declare(declared: map<File, string>, source: Claim, output: Claim, ghost claims: seq<Claim>)
    returns (after: map<File, string>, ok: bool)
    requires Collected(declared, claims)
    ensures ok ==> Collected(after, claims + [source, output])
    ensures !ok ==> Clash(claims + [source, output])
  {
    assert claims + [source] + [output] == claims + [source, output];
    after, ok := SetDefault(declared, source, claims);
    if !ok {
      ghost var c, d :| c in claims + [source] && d in claims + [source] && c.file == d.file && c.sha != d.sha;
      assert c in claims + [source, output] && d in claims + [source, output];
      return;
    }
    after, ok := SetDefault(after, output, claims + [source]);
  }

  lemma {:induction false} ClaimsGrow(p: Provenance, base: seq<string>, m: nat, n: nat)
    requires m <= n <= |p.derivatives|
    ensures forall c :: c in Claims(p, base, m) ==> c in Claims(p, base, n)
  {
    if m < n {
      ClaimsGrow(p, base, m, n - 1);
    }
  }

  lemma SetsMore(ds: seq<Derivative>, n: nat)
    requires n < |ds|
    ensures SourceSet(ds[..n + 1]) == SourceSet(ds[..n]) + {ds[n].source}
            && OutputSet(ds[..n + 1]) == OutputSet(ds[..n]) + {ds[n].output}
  {
    assert ds[..n + 1] == ds[..n] + [ds[n]];
  }

  /** Every derivative is well formed and every file named has its declared hash. Collecting the
      declarations first and rejecting conflicts admits neither more nor less. */
  method CheckDerivatives(files: Files, tools: Tools, p: Provenance, base: seq<string>)
    returns (error: Option<LoadError>, sources: set<File>, outputs: set<File>)
    ensures error.None? <==> AllDerivativesOk(files, tools, p, base)
    ensures error.None? ==> sources == SourceSet(p.derivatives) && outputs == OutputSet(p.derivatives)
  {
    var declared: map<File, string> := map[];
    sources, outputs := {}, {};
    for i := 0 to |p.derivatives|
      invariant AllPathsOk(files, p, base, i) && Collected(declared, Claims(p, base, i))
      invariant sources == SourceSet(p.derivatives[..i]) && outputs == OutputSet(p.derivatives[..i])
    {
      var fault;
      declared, fault := TakeOne(files, tools, p, base, declared, i);
      if fault.Some? {
        return fault, sources, outputs;
      }
      SetsMore(p.derivatives, i);
      sources, outputs := sources + {p.derivatives[i].source}, outputs + {p.derivatives[i].output};
    }
    assert p.derivatives[..|p.derivatives|] == p.derivatives;
    AllDerivativesIff(files, tools, p, base);
    var mismatch := CheckHashes(files, tools, declared, Claims(p, base, |p.derivatives|));
    return if mismatch then Some(HashMismatch) else None, sources, outputs;
  }

  method TakeOne(files: Files, tools: Tools, p: Provenance, base: seq<string>, declared: map<File, string>, i: nat)
    returns (after: map<File, string>, fault: Option<LoadError>)
    requires i < |p.derivatives| && AllPathsOk(files, p, base, i) && Collected(declared, Claims(p, base, i))
    ensures fault.None? ==> AllPathsOk(files, p, base, i + 1) && Collected(after, Claims(p, base, i + 1))
    ensures fault.Some? ==> !AllDerivativesOk(files, tools, p, base)
  {
    var d := p.derivatives[i];
    AllDerivativesIff(files, tools, p, base);
    if !PathsOk(files, p, base, d) {
      BadPathFails(files, p, base, i);
      return declared, Some(BadDerivative);
    }
    PathsMore(files, p, base, i);
    var ok;
    after, ok := Declare(declared, SourceClaim(p, d), OutputClaim(base, d), Claims(p, base, i));
    if !ok {
      ClaimsGrow(p, base, i + 1, |p.derivatives|);
      ClashFails(files, tools, Claims(p, base, i + 1), Claims(p, base, |p.derivatives|));
      return declared, Some(Conflict);
    }
    return after, None;
  }

  method CheckHashes(files: Files, tools: Tools, declared: map<File, string>, ghost claims: seq<Claim>)
    returns (mismatch: bool)
    requires Collected(declared, claims)
    ensures mismatch <==> !AllHold(files, tools, claims)
  {
    if f :| f in declared && !HashIs(files, tools, f, declared[f]) {
      assert Claim(f, declared[f]) in claims && !Holds(files, tools, Claim(f, declared[f]));
      return true;
    }
    return false;
  }
}
