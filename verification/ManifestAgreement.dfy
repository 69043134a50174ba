/** The builder and the strict loader agree: exactly when a finished set is admitted. */
module ManifestAgreement {
  import opened Wrappers
  import opened Names
  import opened Manifest
  import opened EpisodeJoin
  import opened Derivatives
  import S = ManifestSamples
  import opened ManifestRows
  import opened ManifestBuilder
  import opened ManifestPublication
  import V = ManifestValidator
  import G = FormalGroups
  import Quantiles

  /** Whether a profile's images are resized copies rather than source frames. */
  predicate Derived(kind: Kind, resize: bool) {
    kind.Panoramic? || (kind.Navida? && resize)
  }

  // ---- paths ----

  lemma SourceSafe(c: Setting, files: Files, d: Derivative)
    requires DerivativeStands(c, files, d)
    ensures Safe(d.source) && |d.source.dir| == 2 && Digits(d.source.stem)
  {
    var f := Under(c.root, d.source);
    assert f.dir[|c.root|] == d.source.dir[0] && f.dir[|c.root| + 1] == d.source.dir[1];
    assert IsDigit(d.source.stem[0]);
    assert (d.source.stem + d.source.suffix)[0] == d.source.stem[0];
  }

  lemma OutputSafe(c: Setting, files: Files, d: Derivative)
    requires DerivativeStands(c, files, d)
    ensures Safe(d.output)
  {
    SourceSafe(c, files, d);
    var stem := d.output.stem;
    assert stem[|d.source.stem|] == '_';
    assert (stem + d.output.suffix)[|d.source.stem|] == '_';
    forall i | 0 <= i < |d.output.dir| ensures d.output.dir[i] != ".." {
      assert i >= 2 ==> d.output.dir[i] == d.source.dir[i - 2];
    }
  }

  /** Every derivative that stands passes the loader's checks. */
  lemma StandsIsOk(u: Setup, files: Files, p: Provenance, d: Derivative)
    requires HexDigests(u.c.tools) && DerivativeStands(u.c, files, d) && p.imagesRoot == u.c.root
    ensures V.DerivativeOk(files, u.c.tools, p, u.c.output, d)
  {
    SourceSafe(u.c, files, d);
    OutputSafe(u.c, files, d);
  }

  /** A recorded frame is vouched for as a source, and is an image. */
  lemma SourceVouched(c: Setting, files: Files, ds: seq<Derivative>, k: Key)
    requires (forall i :: 0 <= i < |ds| ==> DerivativeStands(c, files, ds[i])) && Recorded(c, ds, k)
             && c.root <= k.source.dir
    ensures Relative(c.root, k.source) in V.SourceSet(ds) && V.ImageOk(files, c.root, Relative(c.root, k.source), None)
    ensures k.source in files
  {
    var i :| 0 <= i < |ds| && KeyOf(c, ds[i]) == k;
    SourceSafe(c, files, ds[i]);
    RelativeOfUnder(c.root, ds[i].source);
    assert ds[i] in ds;
  }

  /** A recorded derivative is vouched for as an output, and is an image of its size. */
  lemma OutputVouched(c: Setting, files: Files, ds: seq<Derivative>, k: Key)
    requires (forall i :: 0 <= i < |ds| ==> DerivativeStands(c, files, ds[i])) && Recorded(c, ds, k)
             && c.root <= k.source.dir
    ensures RelativeOutput(c, k) in V.OutputSet(ds) && V.ImageOk(files, c.output, RelativeOutput(c, k), Some(k.size))
  {
    var i :| 0 <= i < |ds| && KeyOf(c, ds[i]) == k;
    OutputSafe(c, files, ds[i]);
    RelativeOfUnder(c.root, ds[i].source);
    assert ds[i] in ds;
  }

  /** No derived path is the relative path of a source frame. */
  lemma DerivedNotSource(c: Setting, files: Files, ds: seq<Derivative>, k: Key)
    requires (forall i :: 0 <= i < |ds| ==> DerivativeStands(c, files, ds[i])) && c.root <= k.source.dir
    ensures RelativeOutput(c, k) !in V.SourceSet(ds)
  {
    SizedStemNotDigits(k.source.stem, k.size.w, k.size.h);
    forall d | d in ds ensures d.source.stem != RelativeOutput(c, k).stem {
      SourceSafe(c, files, d);
    }
  }

  // ---- records ----

  /** A vouched image of the expected size. */
  predicate Good(files: Files, root: seq<string>, vouched: set<File>, f: File, size: Option<Size>) {
    f in vouched && V.ImageOk(files, root, f, size)
  }

  predicate AllGood(files: Files, root: seq<string>, vouched: set<File>, fs: seq<File>, size: Option<Size>) {
    forall i :: 0 <= i < |fs| ==> Good(files, root, vouched, fs[i], size)
  }

  ghost predicate Standing(c: Setting, files: Files, ds: seq<Derivative>) {
    forall i :: 0 <= i < |ds| ==> DerivativeStands(c, files, ds[i])
  }

  lemma DerivedGood(c: Setting, files: Files, ds: seq<Derivative>, keys: seq<Key>, paths: seq<File>, size: Size)
    requires Standing(c, files, ds) && AllRecorded(c, ds, keys) && S.DerivedFrom(c, keys, paths)
    requires forall i :: 0 <= i < |keys| ==> keys[i].size == size
    ensures AllGood(files, c.output, V.OutputSet(ds), paths, Some(size))
  {
    forall i | 0 <= i < |paths| ensures Good(files, c.output, V.OutputSet(ds), paths[i], Some(size)) {
      OutputVouched(c, files, ds, keys[i]);
    }
  }

  /** The current frame and the history of a sample as sources. */
  lemma FramesGood(c: Setting, files: Files, ds: seq<Derivative>, s: S.Sample, current: File, history: seq<File>)
    requires Standing(c, files, ds) && S.Usable(s) && AllRecorded(c, ds, S.PanoramaKeys(s)) && |history| == 4
    requires c.root <= S.Current(s).dir && current == Relative(c.root, S.Current(s))
    requires forall i :: 0 <= i < 4 ==> c.root <= S.History(s)[i].dir && history[i] == Relative(c.root, S.History(s)[i])
    ensures AllGood(files, c.root, V.SourceSet(ds), [current] + history, None)
  {
    var frames := [S.Current(s)] + S.History(s);
    var paths := [current] + history;
    forall i | 0 <= i < 5 ensures Good(files, c.root, V.SourceSet(ds), paths[i], None) {
      assert frames[i] == if i == 0 then S.Current(s) else S.History(s)[i - 1];
      SourceVouched(c, files, ds, S.PanoramaKeys(s)[i]);
    }
  }

  /** The tables hold the rows of all samples of fitting episodes. */
  ghost predicate Tabled(u: Setup) {
    u.steps > 0 && EpisodesFit(u.eps, u.steps, u.c.root) && |u.eps| == u.count
    && TablesFor(u.c, u.resize, AllSamples(u), u.t)
  }

  /** Sample `k` of the set: its episode, its records, and that its window was used. */
  ghost predicate At(u: Setup, k: nat, s: S.Sample, row: Row) {
    && k < |AllSamples(u)| && s == AllSamples(u)[k] && RowFor(u.c, u.resize, s, row)
    && k < |u.t.low| && k < |u.t.navida| && k < |u.t.panoramic| && k < |u.t.selected|
    && row == Row(u.t.low[k], u.t.navida[k], u.t.panoramic[k], u.t.selected[k])
    && s.ep in u.eps && NonBlank(s.ep.instruction) && s.quantile < |s.ep.steps| && WindowIn(s, Universe(u.eps))
    && (forall i :: 0 <= i < |S.Window(s)| ==> S.Window(s)[i] in UsedFrames(u.eps))
  }

  lemma RowAt(u: Setup, k: nat) returns (s: S.Sample, row: Row)
    requires Tabled(u) && k < |AllSamples(u)|
    ensures At(u, k, s, row)
  {
    s := AllSamples(u)[k];
    row := Row(u.t.low[k], u.t.navida[k], u.t.panoramic[k], u.t.selected[k]);
    var e, q := S.SampleFrom(u.eps, u.steps, |u.eps|, 0, k);
    assert WindowIn(S.Sample(u.eps[e], q), Universe(u.eps));
    forall i | 0 <= i < |S.Window(s)| ensures S.Window(s)[i] in UsedFrames(u.eps) {
      assert S.Window(s)[i] in S.Window(S.Sample(u.eps[e], q));
    }
  }

  function RecordIn(row: Row, kind: Kind): Record {
    match kind
    case Low => row.low
    case Navida => row.navida
    case Panoramic => row.panoramic
  }

  /** All images of a record are vouched for, and it parses. */
  ghost predicate RecordGood(files: Files, root: seq<string>, vouched: set<File>, kind: Kind, r: Record) {
    V.FieldsFor(kind, r) && (forall f :: f in V.ImagePaths(r) ==> f in vouched) && V.Parses(files, root, kind, r)
  }

  lemma IdPresent(s: S.Sample)
    requires S.Usable(s)
    ensures S.IdOf(s) != ""
  {
    assert S.IdOf(s)[0] == 'r';
  }

  lemma GoodHistory(files: Files, root: seq<string>, vouched: set<File>, current: File, history: seq<File>,
                    size: Option<Size>)
    requires AllGood(files, root, vouched, [current] + history, size)
    ensures Good(files, root, vouched, current, size) && AllGood(files, root, vouched, history, size)
  {
    var paths := [current] + history;
    assert paths[0] == current;
    forall i | 0 <= i < |history| ensures Good(files, root, vouched, history[i], size) {
      assert paths[i + 1] == history[i];
    }
  }

  lemma LowGood(u: Setup, files: Files, ds: seq<Derivative>, k: nat, s: S.Sample, row: Row)
    requires At(u, k, s, row) && Standing(u.c, files, ds) && SampleRecorded(u.c, ds, s, u.resize)
    ensures RecordGood(files, u.c.root, V.SourceSet(ds), Low, row.low)
  {
    FramesGood(u.c, files, ds, s, row.low.current, row.low.history);
    GoodHistory(files, u.c.root, V.SourceSet(ds), row.low.current, row.low.history, None);
    IdPresent(s);
  }

  lemma NavidaResizedGood(u: Setup, files: Files, ds: seq<Derivative>, k: nat, s: S.Sample, row: Row)
    requires At(u, k, s, row) && Standing(u.c, files, ds) && SampleRecorded(u.c, ds, s, u.resize) && u.resize
    ensures RecordGood(files, u.c.output, V.OutputSet(ds), Navida, row.navida)
  {
    DerivedGood(u.c, files, ds, S.NavidaKeys(s), [row.navida.current] + row.navida.history, S.FRAME);
    GoodHistory(files, u.c.output, V.OutputSet(ds), row.navida.current, row.navida.history, Some(S.FRAME));
    IdPresent(s);
  }

  lemma FrameSized(files: Files, root: seq<string>, f: File)
    requires root <= f.dir && V.ImageOk(files, root, Relative(root, f), None) && IsFrame(files, f)
    ensures V.ImageOk(files, root, Relative(root, f), Some(S.FRAME))
  {
    RelativeUnder(root, f);
  }

  lemma NavidaSourceGood(u: Setup, files: Files, ds: seq<Derivative>, k: nat, s: S.Sample, row: Row)
    requires At(u, k, s, row) && Standing(u.c, files, ds) && SampleRecorded(u.c, ds, s, u.resize) && !u.resize
    requires forall f :: f in UsedFrames(u.eps) ==> IsFrame(files, f)
    ensures RecordGood(files, u.c.root, V.SourceSet(ds), Navida, row.navida)
  {
    FramesGood(u.c, files, ds, s, row.navida.current, row.navida.history);
    GoodHistory(files, u.c.root, V.SourceSet(ds), row.navida.current, row.navida.history, None);
    assert S.Window(s)[4] == S.Current(s);
    FrameSized(files, u.c.root, S.Current(s));
    forall i | 0 <= i < 4 ensures V.ImageOk(files, u.c.root, row.navida.history[i], Some(S.FRAME)) {
      assert S.Window(s)[i] == S.History(s)[i];
      FrameSized(files, u.c.root, S.History(s)[i]);
    }
    IdPresent(s);
  }

  lemma CandidateGood(c: Setting, files: Files, ds: seq<Derivative>, s: S.Sample, i: nat, candidate: Candidate)
    requires S.Usable(s) && Standing(c, files, ds) && AllRecorded(c, ds, S.CandidateKeys(s)) && i < 4
    requires c.root <= S.CandidateFrames(s)[i].dir
    requires candidate == Candidate(RelativeOutput(c, S.CandidateKeys(s)[i]), S.Angle(i), S.Hop(i))
    ensures V.ImageOk(files, c.output, candidate.image, Some(Size(320, 240))) && candidate.distance >= 0.0
    ensures candidate.image in V.OutputSet(ds)
  {
    OutputVouched(c, files, ds, S.CandidateKeys(s)[i]);
  }

  lemma CandidatesGood(c: Setting, files: Files, ds: seq<Derivative>, s: S.Sample, r: Record)
    requires S.Usable(s) && Standing(c, files, ds) && AllRecorded(c, ds, S.CandidateKeys(s)) && S.PanoramicFor(c, s, r)
    ensures V.CandidatesOk(files, c.output, r.candidates)
    ensures forall i :: 0 <= i < 4 ==> r.candidates[i].image in V.OutputSet(ds)
  {
    forall i | 0 <= i < 4
      ensures V.ImageOk(files, c.output, r.candidates[i].image, Some(Size(320, 240))) && r.candidates[i].distance >= 0.0
      ensures r.candidates[i].image in V.OutputSet(ds)
    {
      CandidateGood(c, files, ds, s, i, r.candidates[i]);
    }
  }

  lemma PanoramicGood(u: Setup, files: Files, ds: seq<Derivative>, k: nat, s: S.Sample, row: Row)
    requires At(u, k, s, row) && Standing(u.c, files, ds) && SampleRecorded(u.c, ds, s, u.resize)
    ensures RecordGood(files, u.c.output, V.OutputSet(ds), Panoramic, row.panoramic)
  {
    DerivedGood(u.c, files, ds, S.PanoramaKeys(s), [row.panoramic.current] + row.panoramic.history, S.PANORAMA);
    GoodHistory(files, u.c.output, V.OutputSet(ds), row.panoramic.current, row.panoramic.history, Some(S.PANORAMA));
    CandidatesGood(u.c, files, ds, s, row.panoramic);
    IdPresent(s);
    forall f | f in V.ImagePaths(row.panoramic) ensures f in V.OutputSet(ds) {
      if f in V.CandidateImages(row.panoramic.candidates) {
        var i :| 0 <= i < 4 && V.CandidateImages(row.panoramic.candidates)[i] == f;
      }
    }
  }

  // ---- the whole set ----

  /** The condition a caller can check: derived images need an output directory of their own. */
  predicate OwnDirectory(c: Setting, kind: Kind, resize: bool) {
    Derived(kind, resize) ==> c.output != c.root
  }

  ghost predicate AllRecordsGood(files: Files, root: seq<string>, vouched: set<File>, kind: Kind,
                                 records: seq<Record>) {
    forall k :: 0 <= k < |records| ==> RecordGood(files, root, vouched, kind, records[k])
  }

  lemma RecordsGood(u: Setup, files: Files, p: Provenance, kind: Kind)
    requires Complete(u, files, p) && OwnDirectory(u.c, kind, u.resize)
    ensures var root := DataRoot(u.c, u.resize, kind);
            AllRecordsGood(files, root, V.Vouched(p, root), kind, RecordsOf(u.t, kind))
  {
    var root := DataRoot(u.c, u.resize, kind);
    forall k | 0 <= k < |RecordsOf(u.t, kind)|
      ensures RecordGood(files, root, V.Vouched(p, root), kind, RecordsOf(u.t, kind)[k])
    {
      var s, row := RowAt(u, k);
      RowGood(u, files, p, kind, k, s, row);
    }
  }

  lemma RowGood(u: Setup, files: Files, p: Provenance, kind: Kind, k: nat, s: S.Sample, row: Row)
    requires At(u, k, s, row) && ImagesStand(u, files, p.derivatives) && p.imagesRoot == u.c.root
             && OwnDirectory(u.c, kind, u.resize)
    ensures var root := DataRoot(u.c, u.resize, kind);
            RecordGood(files, root, V.Vouched(p, root), kind, RecordIn(row, kind))
  {
    var ds := p.derivatives;
    assert SampleRecorded(u.c, ds, s, u.resize);
    match kind
    case Low => LowGood(u, files, ds, k, s, row);
    case Navida =>
      if u.resize {
        NavidaResizedGood(u, files, ds, k, s, row);
      } else {
        NavidaSourceGood(u, files, ds, k, s, row);
      }
    case Panoramic => PanoramicGood(u, files, ds, k, s, row);
  }

  lemma SampleCount(u: Setup)
    requires Tabled(u)
    ensures |AllSamples(u)| == u.count * u.steps > 0
    ensures |u.t.low| == |u.t.navida| == |u.t.panoramic| == |u.t.selected| == |AllSamples(u)|
  {
    S.SamplesLength(u.eps, u.steps, |u.eps|, 0);
    Quantiles.MulMono(1, u.count, u.steps);
  }

  /** Sample ids are those selected, in order, and never repeat. */
  lemma IdsUnique(u: Setup, kind: Kind)
    requires Tabled(u)
    ensures |RecordsOf(u.t, kind)| == |u.t.selected| && V.UniqueIds(RecordsOf(u.t, kind))
    ensures forall k :: 0 <= k < |u.t.selected| ==>
              RecordsOf(u.t, kind)[k].id != "" && u.t.selected[k].sampleId == RecordsOf(u.t, kind)[k].id
  {
    var records := RecordsOf(u.t, kind);
    SampleCount(u);
    forall k | 0 <= k < |records|
      ensures records[k].id != "" && u.t.selected[k].sampleId == records[k].id
      ensures S.Usable(AllSamples(u)[k]) && records[k].id == S.IdOf(AllSamples(u)[k])
    {
      var s, row := RowAt(u, k);
      RecordId(u.c, u.resize, s, row, kind);
    }
    forall j, k | 0 <= j < k < |records| ensures records[j].id != records[k].id {
      IdsDiffer(u, j, k);
    }
  }

  lemma RecordId(c: Setting, resize: bool, s: S.Sample, row: Row, kind: Kind)
    requires RowFor(c, resize, s, row)
    ensures S.Usable(s) && RecordIn(row, kind).id == S.IdOf(s) == row.selected.sampleId && S.IdOf(s) != ""
  {
    IdPresent(s);
    match kind
    case Low =>
    case Navida =>
    case Panoramic =>
  }

  lemma IdsDiffer(u: Setup, j: nat, k: nat)
    requires Tabled(u) && j < k < |AllSamples(u)| && S.Usable(AllSamples(u)[j]) && S.Usable(AllSamples(u)[k])
    ensures S.IdOf(AllSamples(u)[j]) != S.IdOf(AllSamples(u)[k])
  {
    var e, q := S.SampleFrom(u.eps, u.steps, |u.eps|, 0, j);
    var e', q' := S.SampleFrom(u.eps, u.steps, |u.eps|, 0, k);
    SamplesDiffer(u.eps, e, q, e', q');
  }

  lemma SamplesDiffer(eps: seq<Joined>, e: nat, q: nat, e': nat, q': nat)
    requires IncreasingIds(eps) && e < |eps| && e' < |eps| && (e, q) != (e', q')
    requires S.Usable(S.Sample(eps[e], q)) && S.Usable(S.Sample(eps[e'], q'))
    ensures S.IdOf(S.Sample(eps[e], q)) != S.IdOf(S.Sample(eps[e'], q'))
  {
    if S.IdOf(S.Sample(eps[e], q)) == S.IdOf(S.Sample(eps[e'], q')) {
      SampleIdInjective(eps[e].id, q, eps[e].steps[q], eps[e'].id, q', eps[e'].steps[q']);
    }
  }

  // ---- the formal groups ----

  ghost predicate Matching(samples: seq<S.Sample>, selected: seq<Selected>) {
    && |samples| == |selected|
    && forall k :: 0 <= k < |samples| ==>
         G.EntryOf(samples[k].ep.id, samples[k].ep.steps, samples[k].quantile, selected[k])
  }

  lemma TablesMatch(c: Setting, resize: bool, samples: seq<S.Sample>, t: Tables)
    requires TablesFor(c, resize, samples, t)
    ensures Matching(samples, t.selected)
  {
    forall k | 0 <= k < |samples|
      ensures G.EntryOf(samples[k].ep.id, samples[k].ep.steps, samples[k].quantile, t.selected[k])
    {
      assert RowFor(c, resize, samples[k], Row(t.low[k], t.navida[k], t.panoramic[k], t.selected[k]));
    }
  }

  /** Four samples of one episode in a row. */
  ghost predicate InRow(ep: Joined, samples: seq<S.Sample>, e: nat) {
    && 4 * e + 4 <= |samples| && samples[4 * e] == S.Sample(ep, 0) && samples[4 * e + 1] == S.Sample(ep, 1)
    && samples[4 * e + 2] == S.Sample(ep, 2) && samples[4 * e + 3] == S.Sample(ep, 3)
  }

  lemma SamplesInRow(eps: seq<Joined>, e: nat)
    requires S.AllSteps(eps, 4) && e < |eps|
    ensures InRow(eps[e], S.Samples(eps, |eps|, 0), e)
  {
    S.SamplesLength(eps, 4, |eps|, 0);
    S.SampleAt(eps, 4, |eps|, 0, e, 0);
    S.SampleAt(eps, 4, |eps|, 0, e, 1);
    S.SampleAt(eps, 4, |eps|, 0, e, 2);
    S.SampleAt(eps, 4, |eps|, 0, e, 3);
  }

  lemma SelectedEpisode(ep: Joined, samples: seq<S.Sample>, selected: seq<Selected>, e: nat)
    requires Matching(samples, selected) && InRow(ep, samples, e) && |ep.steps| == 4
             && Quantiles.StrictlyIncreasing(ep.steps)
    ensures G.FourAt(ep.id, ep.steps, selected, e)
  {
  }

  ghost function Ids(eps: seq<Joined>): seq<int> {
    seq(|eps|, e requires 0 <= e < |eps| => eps[e].id)
  }

  ghost function StepsOf(eps: seq<Joined>): seq<seq<int>> {
    seq(|eps|, e requires 0 <= e < |eps| => eps[e].steps)
  }

  lemma SelectedRegular(u: Setup)
    requires TablesFor(u.c, u.resize, AllSamples(u), u.t) && S.AllSteps(u.eps, 4) && |u.t.selected| == 4 * |u.eps|
             && IncreasingIds(u.eps)
    requires forall e :: 0 <= e < |u.eps| ==> Quantiles.StrictlyIncreasing(u.eps[e].steps)
    ensures G.Regular(Ids(u.eps), StepsOf(u.eps), u.t.selected)
  {
    TablesMatch(u.c, u.resize, AllSamples(u), u.t);
    forall e | 0 <= e < |u.eps| ensures G.FourAt(Ids(u.eps)[e], StepsOf(u.eps)[e], u.t.selected, e) {
      SamplesInRow(u.eps, e);
      SelectedEpisode(u.eps[e], AllSamples(u), u.t.selected, e);
    }
  }

  /** 48 episodes of four steps have all groups and histories, for all three profiles. */
  lemma FormalPasses(u: Setup, kind: Kind)
    requires Tabled(u) && u.count == 48 && u.steps == 4
    ensures |u.t.selected| == |RecordsOf(u.t, kind)| == 192 && V.GroupsOk(u.t.selected)
    ensures forall k :: 0 <= k < 192 ==> V.FullHistory(kind, RecordsOf(u.t, kind)[k], u.t.selected[k])
  {
    SampleCount(u);
    SelectedRegular(u);
    G.RegularGroups(Ids(u.eps), StepsOf(u.eps), u.t.selected);
    forall k | 0 <= k < 192 ensures V.FullHistory(kind, RecordsOf(u.t, kind)[k], u.t.selected[k]) {
      var s, row := RowAt(u, k);
      HistoryFull(u.c, u.resize, s, row, kind);
    }
  }

  lemma HistoryFull(c: Setting, resize: bool, s: S.Sample, row: Row, kind: Kind)
    requires RowFor(c, resize, s, row)
    ensures V.FullHistory(kind, RecordIn(row, kind), row.selected)
  {
    match kind
    case Low =>
    case Navida =>
    case Panoramic =>
  }
}
