/** Exactly when the strict loader admits what the builder finished. */
module ManifestAdmission {
  import opened Wrappers
  import opened Manifest
  import opened Derivatives
  import S = ManifestSamples
  import opened ManifestRows
  import opened ManifestBuilder
  import opened ManifestPublication
  import V = ManifestValidator
  import opened ManifestAgreement

  /** Annotations that lie where the provenance document goes have another digest than it. */
  predicate NoCollision(u: Setup, p: Provenance) {
    u.annotations == ProvenanceFile(u.c.output) ==> u.c.tools.file(u.annotated) != u.c.tools.file(ProvenanceJson(p))
  }

  /** Loading a finished manifest under its own data root and provenance. */
  ghost predicate Loads(u: Setup, files: Files, p: Provenance, kind: Kind, limit: int, formal: bool) {
    && kind in p.dataRoots
    && V.Loadable(files, u.c.tools, ManifestFile(u.c.output, kind), p.dataRoots[kind], kind, limit,
                  Some(ProvenanceFile(u.c.output)), formal)
  }

  predicate RightSize(u: Setup, limit: int, formal: bool) {
    0 < limit <= u.count * u.steps && (formal ==> limit == u.count * u.steps && u.count == 48 && u.steps == 4)
  }

  /** The annotations are neither the provenance document nor the temporary it is written through. */
  predicate OwnAnnotations(u: Setup) {
    u.annotations != ProvenanceFile(u.c.output) && u.annotations != Temporary(ProvenanceFile(u.c.output))
  }

  lemma CompleteTabled(u: Setup, files: Files, p: Provenance)
    requires Complete(u, files, p)
    ensures Tabled(u) && p == MakeProvenance(u, p.derivatives) && ImagesStand(u, files, p.derivatives)
            && InputsStand(u, files)
            && DocumentsStand(u, files, p)
  {
  }

  lemma RootIsDir(u: Setup, files: Files, ds: seq<Derivative>)
    requires Tabled(u) && ImagesStand(u, files, ds)
    ensures IsDir(files, u.c.root)
  {
    SampleCount(u);
    var s, row := RowAt(u, 0);
    assert SampleRecorded(u.c, ds, s, u.resize);
    LowCurrent(u.c, s, row.low);
    SourceVouched(u.c, files, ds, S.PanoramaKeys(s)[0]);
    assert S.Current(s) in files && u.c.root <= S.Current(s).dir;
  }

  lemma LowCurrent(c: Setting, s: S.Sample, r: Record)
    requires S.LowFor(c, s, r)
    ensures S.Usable(s) && c.root <= S.Current(s).dir && |S.PanoramaKeys(s)| > 0
            && S.PanoramaKeys(s)[0].source == S.Current(s)
  {
  }

  lemma OutputIsDir(u: Setup, files: Files, p: Provenance)
    requires DocumentsStand(u, files, p)
    ensures IsDir(files, u.c.output)
  {
    assert ProvenanceFile(u.c.output) in files;
  }

  lemma InputsOkIff(u: Setup, files: Files, p: Provenance)
    requires NoCollision(u, p) && Complete(u, files, p)
    ensures V.InputsOk(files, u.c.tools, p) <==> OwnAnnotations(u)
  {
    CompleteTabled(u, files, p);
    RootIsDir(u, files, p.derivatives);
  }

  lemma DerivativesOk(u: Setup, files: Files, p: Provenance)
    requires HexDigests(u.c.tools) && p.imagesRoot == u.c.root && ImagesStand(u, files, p.derivatives)
    ensures V.AllDerivativesOk(files, u.c.tools, p, u.c.output)
  {
    forall i | 0 <= i < |p.derivatives| ensures V.DerivativeOk(files, u.c.tools, p, u.c.output, p.derivatives[i]) {
      StandsIsOk(u, files, p, p.derivatives[i]);
    }
  }

  lemma CoveredAll(u: Setup, files: Files, p: Provenance, kind: Kind)
    requires Complete(u, files, p) && OwnDirectory(u.c, kind, u.resize)
    ensures V.Covered(p, DataRoot(u.c, u.resize, kind), kind, RecordsOf(u.t, kind))
    ensures forall k :: 0 <= k < |RecordsOf(u.t, kind)| ==>
              V.Parses(files, DataRoot(u.c, u.resize, kind), kind, RecordsOf(u.t, kind)[k])
  {
    RecordsGood(u, files, p, kind);
    var root, records := DataRoot(u.c, u.resize, kind), RecordsOf(u.t, kind);
    forall k | 0 <= k < |records| ensures RecordGood(files, root, V.Vouched(p, root), kind, records[k]) {
    }
  }

  lemma ProvenanceAdmitted(u: Setup, files: Files, p: Provenance, kind: Kind, formal: bool)
    requires HexDigests(u.c.tools) && NoCollision(u, p) && Complete(u, files, p)
    requires OwnDirectory(u.c, kind, u.resize) && OwnAnnotations(u) && (formal ==> u.count == 48 && u.steps == 4)
    ensures V.Admitted(files, u.c.tools, ManifestFile(u.c.output, kind), DataRoot(u.c, u.resize, kind), kind,
                       RecordsOf(u.t, kind),
                       ProvenanceFile(u.c.output), formal)
  {
    CompleteTabled(u, files, p);
    InputsOkIff(u, files, p);
    DerivativesOk(u, files, p);
    CoveredAll(u, files, p, kind);
    IdsUnique(u, kind);
    SampleCount(u);
    if formal {
      FormalPasses(u, kind);
    }
  }

  lemma LoadableWhen(files: Files, tools: Tools, manifest: File, root: seq<string>, kind: Kind, limit: int,
                     provenance: File, formal: bool,
                     records: seq<Record>)
    requires limit > 0 && IsDir(files, root) && manifest in files && files[manifest] == ManifestJson(records)
             && manifest.suffix == ".json"
    requires limit <= |records| && (formal ==> limit == |records|) && V.UniqueIds(records)
    requires forall k :: 0 <= k < |records| ==> V.Parses(files, root, kind, records[k])
    requires V.Admitted(files, tools, manifest, root, kind, records, provenance, formal)
    ensures V.Loadable(files, tools, manifest, root, kind, limit, Some(provenance), formal)
  {
  }

  lemma DataRootIsDir(u: Setup, files: Files, p: Provenance, kind: Kind)
    requires Complete(u, files, p)
    ensures IsDir(files, DataRoot(u.c, u.resize, kind)) && kind in p.dataRoots
            && p.dataRoots[kind] == DataRoot(u.c, u.resize, kind)
  {
    CompleteTabled(u, files, p);
    RootIsDir(u, files, p.derivatives);
    OutputIsDir(u, files, p);
  }

  lemma Sufficient(u: Setup, files: Files, p: Provenance, kind: Kind, limit: int, formal: bool)
    requires HexDigests(u.c.tools) && NoCollision(u, p) && Complete(u, files, p)
    requires RightSize(u, limit, formal) && OwnDirectory(u.c, kind, u.resize) && OwnAnnotations(u)
    ensures Loads(u, files, p, kind, limit, formal)
  {
    ProvenanceAdmitted(u, files, p, kind, formal);
    CoveredAll(u, files, p, kind);
    DataRootIsDir(u, files, p, kind);
    assert |RecordsOf(u.t, kind)| == u.count * u.steps && V.UniqueIds(RecordsOf(u.t, kind)) by {
      CompleteTabled(u, files, p);
      IdsUnique(u, kind);
      SampleCount(u);
    }
    LoadableWhen(files, u.c.tools, ManifestFile(u.c.output, kind), DataRoot(u.c, u.resize, kind), kind, limit,
                 ProvenanceFile(u.c.output), formal,
                 RecordsOf(u.t, kind));
  }

  /** With one directory for both, the first derived image is vouched for by nothing. */
  lemma SharedDirectoryFails(u: Setup, files: Files, p: Provenance, kind: Kind)
    requires Complete(u, files, p) && Derived(kind, u.resize) && u.c.output == u.c.root
    ensures !V.Covered(p, DataRoot(u.c, u.resize, kind), kind, RecordsOf(u.t, kind))
  {
    CompleteTabled(u, files, p);
    SampleCount(u);
    var s, row := RowAt(u, 0);
    var key := DerivedCurrent(u.c, u.resize, s, row, kind);
    DerivedNotSource(u.c, files, p.derivatives, key);
    assert RecordsOf(u.t, kind)[0].current in V.ImagePaths(RecordsOf(u.t, kind)[0]);
  }

  lemma DerivedCurrent(c: Setting, resize: bool, s: S.Sample, row: Row, kind: Kind) returns (key: Key)
    requires RowFor(c, resize, s, row) && Derived(kind, resize)
    ensures c.root <= key.source.dir && RecordIn(row, kind).current == RelativeOutput(c, key)
  {
    if kind.Navida? {
      key := S.NavidaKeys(s)[0];
      assert ([row.navida.current] + row.navida.history)[0] == row.navida.current;
    } else {
      key := S.PanoramaKeys(s)[0];
      assert ([row.panoramic.current] + row.panoramic.history)[0] == row.panoramic.current;
    }
  }

  lemma Necessary(u: Setup, files: Files, p: Provenance, kind: Kind, limit: int, formal: bool)
    requires NoCollision(u, p) && Complete(u, files, p) && Loads(u, files, p, kind, limit, formal)
    ensures RightSize(u, limit, formal) && OwnDirectory(u.c, kind, u.resize) && OwnAnnotations(u)
  {
    CompleteTabled(u, files, p);
    SampleCount(u);
    InputsOkIff(u, files, p);
    if !OwnDirectory(u.c, kind, u.resize) {
      SharedDirectoryFails(u, files, p, kind);
    }
  }

  /** A finished set is admitted exactly when the limit fits, formal sets are 48 by 4, derived
      images have a directory of their own and the annotations outlive the provenance document. */
  lemma AdmittedIff(u: Setup, files: Files, p: Provenance, kind: Kind, limit: int, formal: bool)
    requires HexDigests(u.c.tools) && NoCollision(u, p) && Complete(u, files, p)
    ensures Loads(u, files, p, kind, limit, formal)
            <==> RightSize(u, limit, formal) && OwnDirectory(u.c, kind, u.resize) && OwnAnnotations(u)
  {
    if RightSize(u, limit, formal) && OwnDirectory(u.c, kind, u.resize) && OwnAnnotations(u) {
      Sufficient(u, files, p, kind, limit, formal);
    }
    if Loads(u, files, p, kind, limit, formal) {
      Necessary(u, files, p, kind, limit, formal);
    }
  }

  /** Every 48 by 4 set with an output directory apart from the images is admitted formally under
      all three profiles. */
  lemma AllProfilesAdmitted(u: Setup, files: Files, p: Provenance, kind: Kind)
    requires HexDigests(u.c.tools) && NoCollision(u, p) && Complete(u, files, p)
    requires u.count == 48 && u.steps == 4 && u.c.output != u.c.root && OwnAnnotations(u)
    ensures Loads(u, files, p, kind, 192, true)
  {
    AdmittedIff(u, files, p, kind, 192, true);
  }
}
