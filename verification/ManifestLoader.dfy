/** Loading a manifest: the provenance checks in order, then the records. */
module ManifestLoader {
  import opened Wrappers
  import opened Manifest
  import opened ManifestValidator
  import opened ManifestRules

  // ---- coverage ----

  ghost predicate Named(records: seq<Record>, f: File) {
    exists k :: 0 <= k < |records| && f in ImagePaths(records[k])
  }

  lemma NamedMore(records: seq<Record>, n: nat, f: File)
    requires n < |records|
    ensures Named(records[..n + 1], f) <==> Named(records[..n], f) || f in ImagePaths(records[n])
  {
    assert records[..n + 1] == records[..n] + [records[n]];
    if Named(records[..n], f) {
      var k :| 0 <= k < n && f in ImagePaths(records[..n][k]);
      assert records[..n + 1][k] == records[k];
    }
    if f in ImagePaths(records[n]) {
      assert records[..n + 1][n] == records[n];
    }
  }

  /** The paths are those the first `n` records name. */
  ghost predicate NamedUpTo(paths: set<File>, records: seq<Record>, n: nat)
    requires n <= |records|
  {
    forall f :: f in paths <==> Named(records[..n], f)
  }

  lemma NamedSoFar(records: seq<Record>, n: nat, paths: set<File>, more: set<File>)
    requires n < |records| && NamedUpTo(paths, records, n) && more == set f | f in ImagePaths(records[n])
    ensures NamedUpTo(paths + more, records, n + 1)
  {
    forall f ensures f in paths + more <==> Named(records[..n + 1], f) {
      NamedMore(records, n, f);
    }
  }

  /** All image paths of a manifest, or None when a record lacks its profile's image. */
  method ManifestImages(records: seq<Record>, kind: Kind) returns (images: Option<set<File>>)
    ensures images.Some? <==> forall k :: 0 <= k < |records| ==> FieldsFor(kind, records[k])
    ensures images.Some? ==> forall f :: f in images.value <==> Named(records, f)
  {
    var paths: set<File> := {};
    for i := 0 to |records|
      invariant forall k :: 0 <= k < i ==> FieldsFor(kind, records[k])
      invariant NamedUpTo(paths, records, i)
    {
      if !FieldsFor(kind, records[i]) {
        return None;
      }
      var more := set f | f in ImagePaths(records[i]);
      NamedSoFar(records, i, paths, more);
      paths := paths + more;
    }
    assert records[..|records|] == records;
    return Some(paths);
  }

  lemma CoveredIff(p: Provenance, dataRoot: seq<string>, kind: Kind, records: seq<Record>, images: set<File>)
    requires forall k :: 0 <= k < |records| ==> FieldsFor(kind, records[k])
    requires forall f :: f in images <==> Named(records, f)
    ensures images <= Vouched(p, dataRoot) <==> Covered(p, dataRoot, kind, records)
  {
    if images <= Vouched(p, dataRoot) {
      forall k, f | 0 <= k < |records| && f in ImagePaths(records[k]) ensures f in Vouched(p, dataRoot) {
        assert Named(records, f);
      }
    }
    if Covered(p, dataRoot, kind, records) {
      forall f | f in images ensures f in Vouched(p, dataRoot) {
        var k :| 0 <= k < |records| && f in ImagePaths(records[k]);
      }
    }
  }

  method CheckCoverage(p: Provenance, dataRoot: seq<string>, kind: Kind, records: seq<Record>, sources: set<File>,
                       outputs: set<File>)
    returns (error: Option<LoadError>)
    requires sources == SourceSet(p.derivatives) && outputs == OutputSet(p.derivatives)
    ensures error.None? <==> Covered(p, dataRoot, kind, records)
  {
    var images := ManifestImages(records, kind);
    if images.None? {
      return Some(BadImagePath);
    }
    CoveredIff(p, dataRoot, kind, records, images.value);
    var expected := if dataRoot == p.imagesRoot then sources else outputs;
    return if images.value <= expected then None else Some(Uncovered);
  }

  // ---- groups ----

  lemma IdsMore(selected: seq<Selected>, n: nat)
    requires n < |selected|
    ensures EpisodeIds(selected[..n + 1]) == EpisodeIds(selected[..n]) + {selected[n].episodeId}
    ensures forall id :: Group(selected[..n + 1], id) ==
                         Group(selected[..n], id) + (if selected[n].episodeId == id then [selected[n]] else [])
  {
    var a, b := selected[..n], selected[..n + 1];
    assert b == a + [selected[n]] && b[..n] == a;
    forall id | id in EpisodeIds(a) ensures id in EpisodeIds(b) {
      var k :| 0 <= k < |a| && a[k].episodeId == id;
      assert b[k].episodeId == id;
    }
    assert b[n].episodeId in EpisodeIds(b);
  }

  lemma {:induction false} GroupNonempty(selected: seq<Selected>, id: int)
    ensures id in EpisodeIds(selected) <==> Group(selected, id) != []
  {
    if selected != [] {
      var n := |selected| - 1;
      GroupNonempty(selected[..n], id);
      IdsMore(selected, n);
      assert selected[..n + 1] == selected;
    }
  }

  /** The selected records by episode, in order. */
  method GroupByEpisode(selected: seq<Selected>) returns (groups: map<int, seq<Selected>>)
    ensures groups.Keys == EpisodeIds(selected)
    ensures forall id :: id in groups ==> groups[id] == Group(selected, id)
  {
    groups := map[];
    for i := 0 to |selected|
      invariant groups.Keys == EpisodeIds(selected[..i])
      invariant forall id :: id in groups ==> groups[id] == Group(selected[..i], id)
    {
      var id := selected[i].episodeId;
      IdsMore(selected, i);
      GroupNonempty(selected[..i], id);
      groups := groups[id := (if id in groups then groups[id] else []) + [selected[i]]];
    }
    assert selected[..|selected|] == selected;
  }

  lemma {:induction false} GroupWithin(selected: seq<Selected>, id: int)
    ensures forall s :: s in Group(selected, id) <==> s in selected && s.episodeId == id
  {
    if selected != [] {
      var n := |selected| - 1;
      GroupWithin(selected[..n], id);
      assert selected == selected[..n] + [selected[n]];
    }
  }

  /** Good groups hold no quantile outside 0 to 3. */
  lemma BadQuantileFails(selected: seq<Selected>, k: nat)
    requires k < |selected| && !(0 <= selected[k].quantile <= 3)
    ensures !GroupsOk(selected)
  {
    var id := selected[k].episodeId;
    GroupWithin(selected, id);
    var group := Group(selected, id);
    assert selected[k] in group;
    var j :| 0 <= j < |group| && group[j] == selected[k];
    assert group[j].quantile in QuantileSet(group);
    assert id in EpisodeIds(selected);
  }

  method CheckGroups(selected: seq<Selected>) returns (ok: bool)
    ensures ok <==> GroupsOk(selected)
  {
    for i := 0 to |selected|
    {
      if !(0 <= selected[i].quantile <= 3) {
        BadQuantileFails(selected, i);
        return false;
      }
    }
    var groups := GroupByEpisode(selected);
    if |groups.Keys| != 48 {
      return false;
    }
    return forall id :: id in groups ==> GroupOk(groups[id]);
  }

  method CheckFormal(p: Provenance, kind: Kind, records: seq<Record>) returns (error: Option<LoadError>)
    ensures error.None? <==> FormalOk(p, kind, records)
  {
    if !CountsOk(p, records) {
      return Some(NotFormal);
    }
    var selected := p.selection.samples;
    var ok := CheckGroups(selected);
    if !ok {
      return Some(BadGroups);
    }
    for k := 0 to |records|
      invariant forall j :: 0 <= j < k ==> FullHistory(kind, records[j], selected[j])
    {
      if !FullHistory(kind, records[k], selected[k]) {
        return Some(BadHistory);
      }
    }
    return if p.classification == CLASSIFICATION then None else Some(BadClassification);
  }

  // ---- provenance ----

  /** All checks of the provenance file, in order. */
  method ValidateProvenance(files: Files, tools: Tools, manifest: File, dataRoot: seq<string>, kind: Kind,
                            records: seq<Record>,
                            provenance: File, formal: bool)
    returns (error: Option<LoadError>)
    ensures error.None? <==> Admitted(files, tools, manifest, dataRoot, kind, records, provenance, formal)
  {
    if !ProvenanceAt(files, provenance) {
      return Some(NotProvenance);
    }
    var p := files[provenance].provenance;
    if !HeaderOk(p) {
      return Some(BadHeader);
    }
    if !EntryOk(files, tools, p, manifest, kind, |records|) {
      return Some(BadEntry);
    }
    if kind !in p.dataRoots || p.dataRoots[kind] != dataRoot {
      return Some(RootMismatch);
    }
    if !InputsOk(files, tools, p) {
      return Some(BadInputs);
    }
    var fault, sources, outputs := CheckDerivatives(files, tools, p, provenance.dir);
    if fault.Some? {
      return fault;
    }
    fault := CheckCoverage(p, dataRoot, kind, records, sources, outputs);
    if fault.Some? {
      return fault;
    }
    if p.selection.sha != tools.selection(p.selection.samples) {
      return Some(SelectionHash);
    }
    if !SelectionOk(tools, p, records) {
      return Some(IdMismatch);
    }
    if formal {
      fault := CheckFormal(p, kind, records);
      return fault;
    }
    return None;
  }

  // ---- the whole load ----

  method CheckUnique(records: seq<Record>) returns (ok: bool)
    ensures ok <==> UniqueIds(records)
  {
    var seen: set<string> := {};
    for i := 0 to |records|
      invariant UniqueIds(records[..i])
      invariant forall id :: id in seen <==> exists j :: 0 <= j < i && records[j].id == id
    {
      if records[i].id in seen {
        return false;
      }
      seen := seen + {records[i].id};
    }
    assert records[..|records|] == records;
    return true;
  }

  method ParseAll(files: Files, root: seq<string>, kind: Kind, records: seq<Record>) returns (ok: bool)
    ensures ok <==> forall k :: 0 <= k < |records| ==> Parses(files, root, kind, records[k])
  {
    for k := 0 to |records|
      invariant forall j :: 0 <= j < k ==> Parses(files, root, kind, records[j])
    {
      if !Parses(files, root, kind, records[k]) {
        return false;
      }
    }
    return true;
  }

  /** Loads the first `limit` records of a manifest. It succeeds exactly for loadable input;
      without a provenance file nothing is verified, and formal means only full coverage. */
  method Load(files: Files, tools: Tools, manifest: File, dataRoot: seq<string>, kind: Kind, limit: int,
              provenance: Option<File>, formal: bool)
    returns (r: Result<Loaded, LoadError>)
    ensures r.Ok? <==> Loadable(files, tools, manifest, dataRoot, kind, limit, provenance, formal)
    ensures r.Ok? <==> PlainLoadable(files, tools, manifest, dataRoot, kind, limit, provenance, formal)
    ensures r.Ok? ==> r.value == Loaded(files[manifest].records[..limit], provenance.Some?, formal && provenance.Some?)
  {
    LoadablePlainly(files, tools, manifest, dataRoot, kind, limit, provenance, formal);
    r := LoadInOrder(files, tools, manifest, dataRoot, kind, limit, provenance, formal);
  }

  /** The checks in order. */
  method LoadInOrder(files: Files, tools: Tools, manifest: File, dataRoot: seq<string>, kind: Kind, limit: int,
                     provenance: Option<File>, formal: bool)
    returns (r: Result<Loaded, LoadError>)
    ensures r.Ok? <==> Loadable(files, tools, manifest, dataRoot, kind, limit, provenance, formal)
    ensures r.Ok? ==> r.value == Loaded(files[manifest].records[..limit], provenance.Some?, formal && provenance.Some?)
  {
    if limit <= 0 {
      return Err(BadLimit);
    }
    if !IsDir(files, dataRoot) {
      return Err(RootNotDirectory);
    }
    if !ManifestAt(files, manifest) {
      return Err(NotAManifest);
    }
    var records := files[manifest].records;
    if records == [] {
      return Err(NoSamples);
    }
    if provenance.Some? {
      var fault := ValidateProvenance(files, tools, manifest, dataRoot, kind, records, provenance.value, formal);
      if fault.Some? {
        return Err(fault.value);
      }
    }
    if limit > |records| {
      return Err(LimitTooLarge);
    }
    if formal && limit != |records| {
      return Err(PartialFormal);
    }
    var unique := CheckUnique(records);
    if !unique {
      return Err(DuplicateId);
    }
    var parsed := ParseAll(files, dataRoot, kind, records[..limit]);
    assert forall k :: 0 <= k < limit ==> records[..limit][k] == records[k];
    if !parsed {
      return Err(BadSample);
    }
    return Ok(Loaded(records[..limit], provenance.Some?, formal && provenance.Some?));
  }
}
