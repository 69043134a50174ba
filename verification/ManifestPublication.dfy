/** Writing the manifests and the provenance, and what is then on disk. */
module ManifestPublication {
  import opened Names
  import opened Manifest
  import opened EpisodeJoin
  import opened Derivatives
  import opened ManifestSamples
  import opened ManifestRows
  import opened ManifestBuilder
  import ManifestValidator

  function KindName(kind: Kind): string {
    match kind
    case Low => "low"
    case Navida => "navida"
    case Panoramic => "panoramic"
  }

  function ManifestFile(output: seq<string>, kind: Kind): File {
    File(output, KindName(kind), ".json")
  }

  function ProvenanceFile(output: seq<string>): File {
    File(output, "provenance", ".json")
  }

  function RecordsOf(t: Tables, kind: Kind): seq<Record> {
    match kind
    case Low => t.low
    case Navida => t.navida
    case Panoramic => t.panoramic
  }

  function DataRoot(c: Setting, resize: bool, kind: Kind): seq<string> {
    match kind
    case Low => c.root
    case Navida => if resize then c.output else c.root
    case Panoramic => c.output
  }

  function Roots(c: Setting, resize: bool): map<Kind, seq<string>> {
    map[Low := DataRoot(c, resize, Low), Navida := DataRoot(c, resize, Navida),
        Panoramic := DataRoot(c, resize, Panoramic)]
  }

  function EntryFor(tools: Tools, output: seq<string>, t: Tables, kind: Kind): Entry {
    Entry(ManifestFile(output, kind), tools.file(ManifestJson(RecordsOf(t, kind))), |RecordsOf(t, kind)|)
  }

  function Entries(tools: Tools, output: seq<string>, t: Tables): map<Kind, Entry> {
    map[Low := EntryFor(tools, output, t, Low), Navida := EntryFor(tools, output, t, Navida),
        Panoramic := EntryFor(tools, output, t, Panoramic)]
  }

  function PublishedOne(files: Files, output: seq<string>, t: Tables, kind: Kind): Files {
    Replaced(files, ManifestFile(output, kind), ManifestJson(RecordsOf(t, kind)))
  }

  function Published(files: Files, output: seq<string>, t: Tables): Files {
    PublishedOne(PublishedOne(PublishedOne(files, output, t, Low), output, t, Navida), output, t, Panoramic)
  }

  /** Only documents and temporaries directly in the output directory may differ. */
  ghost predicate OnlyDocuments(output: seq<string>, before: Files, after: Files) {
    forall f: File :: f.dir != output || Digits(f.stem) || (f.suffix != ".json" && f.suffix != ".tmp") ==>
      (f in after <==> f in before) && (f in before ==> after[f] == before[f])
  }

  lemma ReplacedDocument(output: seq<string>, before: Files, stem: string, content: Content)
    requires stem != "" && !IsDigit(stem[0])
    ensures OnlyDocuments(output, before, Replaced(before, File(output, stem, ".json"), content))
  {
    var f := File(output, stem, ".json");
    assert Temporary(f).stem[0] == '.' && Temporary(f).suffix == ".tmp";
  }

  lemma PublishedDocuments(files: Files, output: seq<string>, t: Tables)
    ensures OnlyDocuments(output, files, Published(files, output, t))
    ensures forall kind :: ManifestFile(output, kind) in Published(files, output, t)
                           && Published(files, output, t)[ManifestFile(output, kind)]
                              == ManifestJson(RecordsOf(t, kind))
  {
    var a := PublishedOne(files, output, t, Low);
    var b := PublishedOne(a, output, t, Navida);
    var z := PublishedOne(b, output, t, Panoramic);
    ReplacedDocument(output, files, "low", ManifestJson(t.low));
    ReplacedDocument(output, a, "navida", ManifestJson(t.navida));
    ReplacedDocument(output, b, "panoramic", ManifestJson(t.panoramic));
    assert "low"[0] != "navida"[0] && "low"[0] != "panoramic"[0] && "navida"[0] != "panoramic"[0];
    assert ManifestFile(output, Low) in a && ManifestFile(output, Low) in b && ManifestFile(output, Navida) in b;
    forall kind: Kind
      ensures ManifestFile(output, kind) in z && z[ManifestFile(output, kind)] == ManifestJson(RecordsOf(t, kind))
    {
      match kind
      case Low =>
      case Navida =>
      case Panoramic =>
    }
  }

  method WriteJson(disk: Disk, tools: Tools, file: File, content: Content) returns (sha: string)
    modifies disk
    ensures disk.files == Replaced(old(disk.files), file, content) && sha == tools.file(content)
  {
    disk.Write(file, content);
    return tools.file(content);
  }

  /** Writes the three manifests and describes them. */
  method Publish(disk: Disk, tools: Tools, output: seq<string>, t: Tables) returns (entries: map<Kind, Entry>)
    modifies disk
    ensures disk.files == Published(old(disk.files), output, t) && entries == Entries(tools, output, t)
  {
    var low := WriteJson(disk, tools, ManifestFile(output, Low), ManifestJson(t.low));
    var navida := WriteJson(disk, tools, ManifestFile(output, Navida), ManifestJson(t.navida));
    var panoramic := WriteJson(disk, tools, ManifestFile(output, Panoramic), ManifestJson(t.panoramic));
    return map[Low := Entry(ManifestFile(output, Low), low, |t.low|),
               Navida := Entry(ManifestFile(output, Navida), navida, |t.navida|),
               Panoramic := Entry(ManifestFile(output, Panoramic), panoramic, |t.panoramic|)];
  }

  // ---- the finished set ----

  /** What one build worked from and produced. */
  datatype Setup = Setup(c: Setting, train: File, trained: Content, annotations: File, annotated: Content, count: int,
                         steps: int,
                         eps: seq<Joined>, resize: bool, t: Tables)

  function SelectionOf(tools: Tools, count: int, steps: int, t: Tables): Selection {
    Selection(count, steps, 4, t.selected, tools.selection(t.selected))
  }

  function MakeProvenance(u: Setup, derivatives: seq<Derivative>): Provenance {
    Provenance(ManifestValidator.SCHEMA, ManifestValidator.CLASSIFICATION, false, false, false,
               u.train, u.c.tools.file(u.trained), u.c.root, u.annotations, u.c.tools.file(u.annotated),
               SelectionOf(u.c.tools, u.count, u.steps, u.t), Roots(u.c, u.resize), Entries(u.c.tools, u.c.output, u.t),
               derivatives)
  }

  ghost function AllSamples(u: Setup): seq<Sample> {
    Samples(u.eps, |u.eps|, 0)
  }

  /** Every derivative is on disk with its hash, resampled from a numbered frame. */
  ghost predicate DerivativeStands(c: Setting, files: Files, d: Derivative) {
    && OutputHolds(c, files, d) && Resampled(c, files, d) && SourceHolds(c, files, d)
       && FrameAt(c.root, Under(c.root, d.source))
    && d.output == DerivedPath(d.source, d.category, d.outputSize) && d.category != ".."
  }

  ghost predicate AllRecorded(c: Setting, ds: seq<Derivative>, keys: seq<Key>) {
    forall i :: 0 <= i < |keys| ==> Recorded(c, ds, keys[i])
  }

  ghost predicate SampleRecorded(c: Setting, ds: seq<Derivative>, s: Sample, resize: bool) {
    && Usable(s) && AllRecorded(c, ds, CandidateKeys(s)) && AllRecorded(c, ds, PanoramaKeys(s))
    && (resize ==> AllRecorded(c, ds, NavidaKeys(s)))
  }

  ghost predicate ImagesStand(u: Setup, files: Files, ds: seq<Derivative>) {
    && (forall i :: 0 <= i < |ds| ==> DerivativeStands(u.c, files, ds[i]))
    && (forall k :: 0 <= k < |AllSamples(u)| ==> SampleRecorded(u.c, ds, AllSamples(u)[k], u.resize))
    && (u.resize <==> exists f :: f in UsedFrames(u.eps) && !IsFrame(files, f))
  }

  ghost predicate InputsStand(u: Setup, files: Files) {
    var provenance := ProvenanceFile(u.c.output);
    && u.train in files && files[u.train] == u.trained
    && (u.annotations != provenance && u.annotations != Temporary(provenance) ==>
        u.annotations in files && files[u.annotations] == u.annotated)
    && (u.annotations == provenance ==> u.annotated.Other?)
    && Temporary(provenance) !in files
  }

  ghost predicate DocumentsStand(u: Setup, files: Files, p: Provenance) {
    && (forall kind :: ManifestFile(u.c.output, kind) in files
                       && files[ManifestFile(u.c.output, kind)] == ManifestJson(RecordsOf(u.t, kind)))
    && ProvenanceFile(u.c.output) in files && files[ProvenanceFile(u.c.output)] == ProvenanceJson(p)
  }

  /** A finished set: provenance `p` of setup `u`, with everything it names on disk. */
  ghost predicate Complete(u: Setup, files: Files, p: Provenance) {
    match u
    case Setup(c, train, trained, annotations, annotated, count, steps, eps, resize, t) =>
      && steps > 0 && EpisodesFit(eps, steps, c.root) && |eps| == count
      && p == MakeProvenance(u, p.derivatives)
      && TablesFor(c, resize, AllSamples(u), t)
      && ImagesStand(u, files, p.derivatives) && InputsStand(u, files) && DocumentsStand(u, files, p)
  }

  // ---- from the store to the finished set ----

  lemma RecordStands(c: Setting, before: Files, s: Store, wanted: set<Key>, i: nat)
    requires Stored(c, before, s, wanted) && AllOutputsHold(c, s) && i < |s.records|
             && Resampled(c, s.files, s.records[i])
    requires forall k :: k in wanted ==> FrameAt(c.root, k.source) && k.category != ".."
    ensures DerivativeStands(c, s.files, s.records[i])
  {
    var d := s.records[i];
    assert Filed(c, s.paths, d);
    assert KeyOf(c, d) in wanted;
    assert OutputHolds(c, s.files, d);
  }

  lemma SourcesWithin(c: Setting, before: Files, s: Store, wanted: set<Key>, universe: set<File>)
    requires Stored(c, before, s, wanted) && StemsDistinct(universe) && forall k :: k in wanted ==> k.source in universe
    ensures StemsDistinct(Sources(c, s.records))
  {
    forall f | f in Sources(c, s.records) ensures f in universe {
      var i :| 0 <= i < |s.records| && f == Under(c.root, s.records[i].source);
      assert Filed(c, s.paths, s.records[i]);
      assert KeyOf(c, s.records[i]) in wanted;
    }
  }

  lemma StandsLater(c: Setting, files: Files, later: Files, d: Derivative)
    requires DerivativeStands(c, files, d) && OnlyDocuments(c.output, files, later)
    ensures DerivativeStands(c, later, d)
  {
    assert |Under(c.output, d.output).dir| > |c.output|;
  }

  lemma KeptRecorded(c: Setting, s: Store, keys: seq<Key>)
    requires Ledger(c, s) && KeysIn(s.paths, keys)
    ensures AllRecorded(c, s.records, keys)
  {
  }

  lemma AllDerivativesStand(c: Setting, before: Files, s: Store, wanted: set<Key>, universe: set<File>, later: Files)
    requires Stored(c, before, s, wanted) && StemsDistinct(universe)
             && (forall f :: f in universe ==> FrameAt(c.root, f))
    requires (forall k :: k in wanted ==> k.source in universe && k.category != "..")
             && OnlyDocuments(c.output, s.files, later)
    ensures forall i :: 0 <= i < |s.records| ==> DerivativeStands(c, later, s.records[i])
  {
    SourcesWithin(c, before, s, wanted, universe);
    DistinctStemsHold(c, before, s);
    forall i | 0 <= i < |s.records| ensures DerivativeStands(c, later, s.records[i]) {
      RecordStands(c, before, s, wanted, i);
      StandsLater(c, s.files, later, s.records[i]);
    }
  }

  lemma SamplesRecorded(c: Setting, s: Store, samples: seq<Sample>, resize: bool)
    requires Ledger(c, s) && AllKept(s.paths, samples, resize)
    ensures forall k :: 0 <= k < |samples| ==> SampleRecorded(c, s.records, samples[k], resize)
  {
    forall k | 0 <= k < |samples| ensures SampleRecorded(c, s.records, samples[k], resize) {
      assert KeysKept(s.paths, samples[k], resize);
      KeptRecorded(c, s, CandidateKeys(samples[k]));
      KeptRecorded(c, s, PanoramaKeys(samples[k]));
      if resize {
        KeptRecorded(c, s, NavidaKeys(samples[k]));
      }
    }
  }

  lemma UsedWithin(eps: seq<Joined>)
    requires WindowsIn(eps, Universe(eps))
    ensures UsedFrames(eps) <= Universe(eps)
  {
    forall f | f in UsedFrames(eps) ensures f in Universe(eps) {
      UsedFrame(eps, f);
    }
  }

  lemma FramesStay(c: Setting, before: Files, s: Store, later: Files, f: File)
    requires Untouched(c, before, s.files) && OnlyDocuments(c.output, s.files, later) && Digits(f.stem)
    ensures IsFrame(before, f) <==> IsFrame(later, f)
  {
  }

  lemma ResizeStays(u: Setup, before: Files, s: Store, later: Files)
    requires Untouched(u.c, before, s.files) && OnlyDocuments(u.c.output, s.files, later)
    requires u.steps > 0 && EpisodesFit(u.eps, u.steps, u.c.root)
             && (u.resize <==> exists f :: f in UsedFrames(u.eps) && !IsFrame(before, f))
    ensures u.resize <==> exists f :: f in UsedFrames(u.eps) && !IsFrame(later, f)
  {
    UsedWithin(u.eps);
    forall f | f in UsedFrames(u.eps) ensures IsFrame(before, f) <==> IsFrame(later, f) {
      assert FrameAt(u.c.root, f);
      FramesStay(u.c, before, s, later, f);
    }
  }

  lemma DerivativesStandAfter(u: Setup, before: Files, s: Store, wanted: set<Key>, later: Files)
    requires u.steps > 0 && EpisodesFit(u.eps, u.steps, u.c.root) && wanted == Wanted(AllSamples(u), u.resize)
    requires Stored(u.c, before, s, wanted) && OnlyDocuments(u.c.output, s.files, later)
    ensures forall i :: 0 <= i < |s.records| ==> DerivativeStands(u.c, later, s.records[i])
  {
    UsedWithin(u.eps);
    WantedProper(u.eps, u.steps, u.c.root, u.resize, wanted);
    AllDerivativesStand(u.c, before, s, wanted, Universe(u.eps), later);
  }

  lemma ImagesStandAfter(u: Setup, before: Files, s: Store, wanted: set<Key>, later: Files)
    requires u.steps > 0 && EpisodesFit(u.eps, u.steps, u.c.root) && wanted == Wanted(AllSamples(u), u.resize)
    requires Stored(u.c, before, s, wanted) && AllKept(s.paths, AllSamples(u), u.resize)
             && OnlyDocuments(u.c.output, s.files, later)
    requires u.resize <==> exists f :: f in UsedFrames(u.eps) && !IsFrame(before, f)
    ensures ImagesStand(u, later, s.records)
  {
    DerivativesStandAfter(u, before, s, wanted, later);
    SamplesRecorded(u.c, s, AllSamples(u), u.resize);
    ResizeStays(u, before, s, later);
  }

  lemma DocumentsChain(output: seq<string>, a: Files, b: Files, z: Files)
    requires OnlyDocuments(output, a, b) && OnlyDocuments(output, b, z)
    ensures OnlyDocuments(output, a, z)
  {
  }

  lemma DocumentsAfter(u: Setup, published: Files, p: Provenance)
    requires forall kind :: ManifestFile(u.c.output, kind) in published
                            && published[ManifestFile(u.c.output, kind)] == ManifestJson(RecordsOf(u.t, kind))
    ensures DocumentsStand(u, Replaced(published, ProvenanceFile(u.c.output), ProvenanceJson(p)), p)
  {
    assert "low"[0] != "provenance"[0] && "navida"[0] != "provenance"[0] && "panoramic"[1] != "provenance"[1];
    forall kind: Kind ensures KindName(kind) != "provenance" {
      match kind
      case Low =>
      case Navida =>
      case Panoramic =>
    }
  }

  lemma InputsAfter(u: Setup, published: Files, p: Provenance)
    requires u.train in published && published[u.train] == u.trained && u.train.suffix == ".gz"
    requires u.annotations in published && published[u.annotations] == u.annotated
    requires u.annotations == ProvenanceFile(u.c.output) ==> u.annotated.Other?
    ensures InputsStand(u, Replaced(published, ProvenanceFile(u.c.output), ProvenanceJson(p)))
  {
    assert Temporary(ProvenanceFile(u.c.output)).suffix == ".tmp";
  }

  /** The provenance document is the last one written. */
  lemma FinishedSet(u: Setup, before: Files, s: Store)
    requires u.steps > 0 && EpisodesFit(u.eps, u.steps, u.c.root) && |u.eps| == u.count
             && Stored(u.c, before, s, Wanted(AllSamples(u), u.resize))
    requires AllKept(s.paths, AllSamples(u), u.resize) && TablesFor(u.c, u.resize, AllSamples(u), u.t)
    requires u.resize <==> exists f :: f in UsedFrames(u.eps) && !IsFrame(before, f)
    requires var published := Published(s.files, u.c.output, u.t);
             && u.train in published && published[u.train] == u.trained && u.train.suffix == ".gz"
             && u.annotations in published && published[u.annotations] == u.annotated
             && (u.annotations == ProvenanceFile(u.c.output) ==> u.annotated.Other?)
    ensures var p := MakeProvenance(u, s.records);
            Complete(u, Replaced(Published(s.files, u.c.output, u.t), ProvenanceFile(u.c.output), ProvenanceJson(p)), p)
  {
    var published := Published(s.files, u.c.output, u.t);
    var p := MakeProvenance(u, s.records);
    var later := Replaced(published, ProvenanceFile(u.c.output), ProvenanceJson(p));
    PublishedDocuments(s.files, u.c.output, u.t);
    ReplacedDocument(u.c.output, published, "provenance", ProvenanceJson(p));
    DocumentsChain(u.c.output, s.files, published, later);
    ImagesStandAfter(u, before, s, Wanted(AllSamples(u), u.resize), later);
    DocumentsAfter(u, published, p);
    InputsAfter(u, published, p);
  }
}
