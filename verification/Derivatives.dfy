/** The memoised store of resized images. */
module Derivatives {
  import opened Wrappers
  import opened Names
  import opened Manifest

  datatype Key = Key(source: File, category: string, size: Size)

  datatype FitError = OutsideRoot | Missing | NotJpeg

  datatype Setting = Setting(root: seq<string>, output: seq<string>, tools: Tools)

  /** The disk with the store's records and its three caches. */
  datatype Store = Store(files: Files, records: seq<Derivative>, paths: map<Key, File>, sizes: map<File, Size>,
                         hashes: map<File, string>)

  datatype Outcome<T> = Outcome(r: Result<T, FitError>, s: Store)

  function Empty(files: Files): Store {
    Store(files, [], map[], map[], map[])
  }

  // ---- what each operation does ----

  /** Filling the temporary and moving it over the destination. */
  function Replaced(files: Files, destination: File, content: Content): Files {
    (files - {Temporary(destination)})[destination := content]
  }

  function RelativeOutput(c: Setting, k: Key): File
    requires c.root <= k.source.dir
  {
    DerivedPath(Relative(c.root, k.source), k.category, k.size)
  }

  function Destination(c: Setting, k: Key): File
    requires c.root <= k.source.dir
  {
    Under(c.output, RelativeOutput(c, k))
  }

  function Sized(s: Store, source: File): Outcome<Size> {
    if source in s.sizes then Outcome(Ok(s.sizes[source]), s)
    else if source !in s.files then Outcome(Err(Missing), s)
    else if s.files[source].Image? && s.files[source].jpeg then
      Outcome(Ok(s.files[source].size), s.(sizes := s.sizes[source := s.files[source].size]))
    else Outcome(Err(NotJpeg), s)
  }

  function Hashed(tools: Tools, s: Store, source: File): Outcome<string> {
    if source in s.hashes then Outcome(Ok(s.hashes[source]), s)
    else if source !in s.files then Outcome(Err(Missing), s)
    else Outcome(Ok(tools.file(s.files[source])), s.(hashes := s.hashes[source := tools.file(s.files[source])]))
  }

  /** The record of a derivative whose image is already in place. */
  function Noted(c: Setting, s: Store, k: Key): Outcome<File>
    requires c.root <= k.source.dir && Destination(c, k) in s.files
  {
    var hashed := Hashed(c.tools, s, k.source);
    if hashed.r.Err? then Outcome(Err(hashed.r.error), hashed.s)
    else
      var sized := Sized(hashed.s, k.source);
      if sized.r.Err? then Outcome(Err(sized.r.error), sized.s)
      else
        var record := Derivative(k.category, Relative(c.root, k.source), hashed.r.value, sized.r.value,
                                 RelativeOutput(c, k),
                                 c.tools.file(s.files[Destination(c, k)]), k.size);
        Outcome(Ok(record.output), sized.s.(records := s.records + [record], paths := s.paths[k := record.output]))
  }

  function Fitted(c: Setting, s: Store, k: Key): Outcome<File> {
    if k in s.paths then Outcome(Ok(s.paths[k]), s)
    else if !(c.root <= k.source.dir) then Outcome(Err(OutsideRoot), s)
    else if k.source !in s.files then Outcome(Err(Missing), s)
    else if !(s.files[k.source].Image? && s.files[k.source].jpeg) then Outcome(Err(NotJpeg), s)
    else
      var image := Image(true, k.size, c.tools.fit(s.files[k.source].pixels, k.size));
      Noted(c, s.(files := Replaced(s.files, Destination(c, k), image)), k)
  }

  // ---- the store as an object over a disk ----

  class Disk {
    var files: Files

    constructor (files: Files)
      ensures this.files == files
    {
      this.files := files;
    }

    /** Fills a temporary file, then moves it into place. */
    method Write(destination: File, content: Content)
      modifies this
      ensures files == Replaced(old(files), destination, content)
    {
      files := files[Temporary(destination) := content];
      files := files - {Temporary(destination)};
      files := files[destination := content];
      assert files == Replaced(old(files), destination, content);
    }
  }

  class Derivatives {
    const setting: Setting
    const disk: Disk
    var records: seq<Derivative>
    var paths: map<Key, File>
    var sizes: map<File, Size>
    var hashes: map<File, string>

    constructor (setting: Setting, disk: Disk)
      ensures this.setting == setting && this.disk == disk && Value() == Empty(disk.files)
    {
      this.setting, this.disk := setting, disk;
      records, paths, sizes, hashes := [], map[], map[], map[];
    }

    ghost function Value(): Store
      reads this, disk
    {
      Store(disk.files, records, paths, sizes, hashes)
    }

    method SizeOf(source: File) returns (r: Result<Size, FitError>)
      modifies this`sizes
      ensures Outcome(r, Value()) == Sized(old(Value()), source)
    {
      if source !in sizes {
        if source !in disk.files {
          return Err(Missing);
        }
        var image := disk.files[source];
        if !(image.Image? && image.jpeg) {
          return Err(NotJpeg);
        }
        sizes := sizes[source := image.size];
      }
      return Ok(sizes[source]);
    }

    method SourceHash(source: File) returns (r: Result<string, FitError>)
      modifies this`hashes
      ensures Outcome(r, Value()) == Hashed(setting.tools, old(Value()), source)
    {
      if source !in hashes {
        if source !in disk.files {
          return Err(Missing);
        }
        hashes := hashes[source := setting.tools.file(disk.files[source])];
      }
      return Ok(hashes[source]);
    }

    method Fit(source: File, category: string, size: Size) returns (r: Result<File, FitError>)
      modifies this, disk
      ensures Outcome(r, Value()) == Fitted(setting, old(Value()), Key(source, category, size))
    {
      var key := Key(source, category, size);
      if key in paths {
        return Ok(paths[key]);
      }
      if !(setting.root <= source.dir) {
        return Err(OutsideRoot);
      }
      if source !in disk.files {
        return Err(Missing);
      }
      var image := disk.files[source];
      if !(image.Image? && image.jpeg) {
        return Err(NotJpeg);
      }
      var relative := RelativeOutput(setting, key);
      var destination := Under(setting.output, relative);
      disk.Write(destination, Image(true, size, setting.tools.fit(image.pixels, size)));
      var sourceHash := SourceHash(source);
      if sourceHash.Err? {
        return Err(sourceHash.error);
      }
      var sourceSize := SizeOf(source);
      if sourceSize.Err? {
        return Err(sourceSize.error);
      }
      var outputHash := setting.tools.file(disk.files[destination]);
      records := records + [Derivative(category, Relative(setting.root, source), sourceHash.value, sourceSize.value,
                                       relative, outputHash, size)];
      paths := paths[key := relative];
      return Ok(relative);
    }
  }

  // ---- what any sequence of fits keeps ----

  function KeyOf(c: Setting, d: Derivative): Key {
    Key(Under(c.root, d.source), d.category, d.outputSize)
  }

  ghost predicate KeysOnce(c: Setting, records: seq<Derivative>) {
    forall i, j :: 0 <= i < j < |records| ==> KeyOf(c, records[i]) != KeyOf(c, records[j])
  }

  ghost predicate Filed(c: Setting, paths: map<Key, File>, d: Derivative) {
    && d.output == DerivedPath(d.source, d.category, d.outputSize)
    && KeyOf(c, d) in paths && paths[KeyOf(c, d)] == d.output
  }

  ghost predicate Recorded(c: Setting, records: seq<Derivative>, k: Key) {
    exists i :: 0 <= i < |records| && KeyOf(c, records[i]) == k
  }

  /** Each key is recorded exactly once, under the path derived from it. */
  ghost predicate Ledger(c: Setting, s: Store) {
    && KeysOnce(c, s.records)
    && (forall i :: 0 <= i < |s.records| ==> Filed(c, s.paths, s.records[i]))
    && (forall k :: k in s.paths ==> Recorded(c, s.records, k))
  }

  /** The recorded image is the one on disk. */
  ghost predicate OutputHolds(c: Setting, files: Files, d: Derivative) {
    var f := Under(c.output, d.output);
    f in files && files[f].Image? && files[f].jpeg && files[f].size == d.outputSize
    && c.tools.file(files[f]) == d.outputSha
  }

  /** The image of a numbered source shows that source, resampled. */
  ghost predicate Resampled(c: Setting, files: Files, d: Derivative) {
    var f, source := Under(c.output, d.output), Under(c.root, d.source);
    Digits(source.stem) ==>
      && f in files && files[f].Image? && source in files && files[source].Image?
      && files[f].pixels == c.tools.fit(files[source].pixels, d.outputSize)
  }

  ghost predicate SourceHolds(c: Setting, files: Files, d: Derivative) {
    var f := Under(c.root, d.source);
    f in files && files[f].Image? && files[f].jpeg && files[f].size == d.sourceSize
    && c.tools.file(files[f]) == d.sourceSha
  }

  /** The last record of every output path describes the file there. */
  ghost predicate LatestHold(c: Setting, s: Store) {
    forall i :: 0 <= i < |s.records|
                && (forall j :: i < j < |s.records| ==> s.records[j].output != s.records[i].output) ==>
      OutputHolds(c, s.files, s.records[i]) && Resampled(c, s.files, s.records[i])
  }

  /** Fits write sized names under the derived directory: all numbered files, all of other suffixes
      and all files elsewhere stay as they were. */
  ghost predicate Untouched(c: Setting, before: Files, after: Files) {
    forall f: File :: Digits(f.stem) || !(c.output + ["derived"] <= f.dir)
                      || (f.suffix != ".jpg" && f.suffix != ".tmp") ==>
      (f in after <==> f in before) && (f in before ==> after[f] == before[f])
  }

  ghost predicate CachesHold(c: Setting, s: Store) {
    && (forall f :: f in s.hashes && Digits(f.stem) ==> f in s.files && s.hashes[f] == c.tools.file(s.files[f]))
    && (forall f :: f in s.sizes && Digits(f.stem) ==>
          f in s.files && s.files[f].Image? && s.files[f].jpeg && s.sizes[f] == s.files[f].size)
    && (forall i :: 0 <= i < |s.records| && Digits(s.records[i].source.stem) ==> SourceHolds(c, s.files, s.records[i]))
  }

  /** The file is the temporary some image of the keys is written through. */
  ghost predicate TemporaryOf(c: Setting, keys: set<Key>, f: File) {
    exists k :: k in keys && c.root <= k.source.dir && f == Temporary(Destination(c, k))
  }

  /** Of the files there before, exactly the temporaries of the fitted keys are gone. */
  ghost predicate Swept(c: Setting, before: Files, s: Store) {
    forall f :: f in before ==> (f in s.files <==> !TemporaryOf(c, s.paths.Keys, f))
  }

  ghost predicate Sound(c: Setting, before: Files, s: Store) {
    Ledger(c, s) && LatestHold(c, s) && Untouched(c, before, s.files) && CachesHold(c, s) && Swept(c, before, s)
  }

  lemma DestinationFacts(c: Setting, k: Key)
    requires c.root <= k.source.dir
    ensures var d := Destination(c, k);
            && !Digits(d.stem) && !Digits(Temporary(d).stem) && d != Temporary(d)
            && c.output + ["derived"] <= d.dir && Temporary(d).dir == d.dir
  {
    var d := Destination(c, k);
    SizedStemNotDigits(k.source.stem, k.size.w, k.size.h);
    assert Temporary(d).stem[0] == '.';
    assert d.dir[..|c.output| + 1] == c.output + ["derived"];
  }

  lemma UntouchedStep(c: Setting, before: Files, files: Files, k: Key, content: Content)
    requires c.root <= k.source.dir && Untouched(c, before, files)
    ensures Untouched(c, before, Replaced(files, Destination(c, k), content))
  {
    DestinationFacts(c, k);
  }

  lemma RecordedMore(c: Setting, records: seq<Derivative>, d: Derivative, k: Key)
    requires Recorded(c, records, k) || KeyOf(c, d) == k
    ensures Recorded(c, records + [d], k)
  {
    var after := records + [d];
    if Recorded(c, records, k) {
      var i :| 0 <= i < |records| && KeyOf(c, records[i]) == k;
      assert KeyOf(c, after[i]) == k;
    } else {
      assert KeyOf(c, after[|records|]) == k;
    }
  }

  lemma LedgerStep(c: Setting, s: Store, k: Key, d: Derivative, s': Store)
    requires Ledger(c, s) && k !in s.paths && KeyOf(c, d) == k
             && d.output == DerivedPath(d.source, d.category, d.outputSize)
    requires s'.records == s.records + [d] && s'.paths == s.paths[k := d.output]
    ensures Ledger(c, s')
  {
    forall key | key in s'.paths ensures Recorded(c, s'.records, key) {
      RecordedMore(c, s.records, d, key);
    }
    forall i | 0 <= i < |s'.records| ensures Filed(c, s'.paths, s'.records[i]) {
      if i < |s.records| {
        assert Filed(c, s.paths, s.records[i]);
      }
    }
    assert KeysOnce(c, s'.records) by {
      forall i | 0 <= i < |s.records| ensures KeyOf(c, s.records[i]) != k {
        assert Filed(c, s.paths, s.records[i]);
      }
    }
  }

  lemma OutputSuffix(c: Setting, s: Store)
    requires Ledger(c, s)
    ensures forall i :: 0 <= i < |s.records| ==> s.records[i].output.suffix == ".jpg"
  {
    forall i | 0 <= i < |s.records| ensures s.records[i].output.suffix == ".jpg" {
      assert Filed(c, s.paths, s.records[i]);
    }
  }

  lemma LatestStep(c: Setting, s: Store, destination: File, content: Content, d: Derivative, s': Store)
    requires LatestHold(c, s) && s'.records == s.records + [d] && s'.files == Replaced(s.files, destination, content)
    requires destination == Under(c.output, d.output) && OutputHolds(c, s'.files, d) && Resampled(c, s'.files, d)
    requires forall i :: 0 <= i < |s.records| ==> s.records[i].output.suffix == ".jpg"
    requires !Digits(destination.stem) && !Digits(Temporary(destination).stem)
    ensures LatestHold(c, s')
  {
    forall i | 0 <= i < |s'.records|
      && (forall j :: i < j < |s'.records| ==> s'.records[j].output != s'.records[i].output)
      ensures OutputHolds(c, s'.files, s'.records[i]) && Resampled(c, s'.files, s'.records[i])
    {
      if i < |s.records| {
        assert s'.records[|s.records|] == d;
        assert forall j :: i < j < |s.records| ==> s'.records[j] == s.records[j];
        assert OutputHolds(c, s.files, s.records[i]) && Resampled(c, s.files, s.records[i]);
        if Under(c.output, s.records[i].output) == destination {
          UnderInjective(c.output, s.records[i].output, d.output);
        }
      }
    }
  }

  lemma CachesStep(c: Setting, before: Files, s: Store, files: Files)
    requires CachesHold(c, s) && Untouched(c, before, s.files) && Untouched(c, before, files)
    ensures CachesHold(c, s.(files := files))
  {
  }

  lemma HashedKeeps(c: Setting, s: Store, source: File)
    requires CachesHold(c, s)
    ensures CachesHold(c, Hashed(c.tools, s, source).s)
  {
  }

  lemma SizedKeeps(c: Setting, s: Store, source: File)
    requires CachesHold(c, s)
    ensures CachesHold(c, Sized(s, source).s)
  {
  }

  lemma RelativeOfUnder(root: seq<string>, rel: File)
    ensures root <= Under(root, rel).dir && Relative(root, Under(root, rel)) == rel
  {
    assert (root + rel.dir)[|root|..] == rel.dir;
  }

  lemma RecordHolds(c: Setting, s: Store, k: Key)
    requires CachesHold(c, s) && c.root <= k.source.dir && Destination(c, k) in s.files && Noted(c, s, k).r.Ok?
    ensures var d := Noted(c, s, k).s.records[|s.records|];
            Digits(d.source.stem) ==> SourceHolds(c, Noted(c, s, k).s.files, d)
  {
    RelativeUnder(c.root, k.source);
  }

  /** No key is forgotten. */
  ghost predicate Extends(s: Store, s': Store) {
    forall key :: key in s.paths ==> key in s'.paths && s'.paths[key] == s.paths[key]
  }

  /** What a fresh successful fit adds: one image and one record of it. */
  ghost predicate Adds(c: Setting, s: Store, k: Key, d: Derivative, image: Content, s': Store)
    requires c.root <= k.source.dir
  {
    && s'.files == Replaced(s.files, Destination(c, k), image) && s'.records == s.records + [d]
    && s'.paths == s.paths[k := d.output] && d.output == RelativeOutput(c, k)
    && KeyOf(c, d) == k && d.output == DerivedPath(d.source, d.category, d.outputSize)
    && OutputHolds(c, s'.files, d) && Resampled(c, s'.files, d)
  }

  /** The store with the image of a key written. */
  function Written(c: Setting, s: Store, k: Key, image: Content): Store
    requires c.root <= k.source.dir
  {
    s.(files := Replaced(s.files, Destination(c, k), image))
  }

  lemma FreshIsNoted(c: Setting, s: Store, k: Key) returns (image: Content)
    requires Fitted(c, s, k).r.Ok? && k !in s.paths
    ensures c.root <= k.source.dir && JpegAt(s.files, k.source)
    ensures image == Image(true, k.size, c.tools.fit(s.files[k.source].pixels, k.size))
    ensures Fitted(c, s, k) == Noted(c, Written(c, s, k, image), k)
  {
    image := Image(true, k.size, c.tools.fit(s.files[k.source].pixels, k.size));
  }

  lemma NotedAdds(c: Setting, s: Store, k: Key, image: Content, w: Store) returns (d: Derivative)
    requires c.root <= k.source.dir && JpegAt(s.files, k.source) && w == Written(c, s, k, image) && Noted(c, w, k).r.Ok?
    requires image == Image(true, k.size, c.tools.fit(s.files[k.source].pixels, k.size))
    ensures Adds(c, s, k, d, image, Noted(c, w, k).s) && Noted(c, w, k).r.value == RelativeOutput(c, k)
  {
    RelativeUnder(c.root, k.source);
    DestinationFacts(c, k);
    d := Noted(c, w, k).s.records[|s.records|];
  }

  lemma FreshFit(c: Setting, before: Files, s: Store, k: Key) returns (d: Derivative, image: Content)
    requires CachesHold(c, s) && Untouched(c, before, s.files) && Fitted(c, s, k).r.Ok? && k !in s.paths
    ensures c.root <= k.source.dir && Adds(c, s, k, d, image, Fitted(c, s, k).s)
            && Fitted(c, s, k).r.value == RelativeOutput(c, k)
    ensures CachesHold(c, Fitted(c, s, k).s) && Untouched(c, before, Fitted(c, s, k).s.files)
  {
    image := FreshIsNoted(c, s, k);
    var written := Written(c, s, k, image);
    UntouchedStep(c, before, s.files, k, image);
    CachesStep(c, before, s, written.files);
    NotedKeeps(c, written, k);
    d := NotedAdds(c, s, k, image, written);
  }

  lemma NotedKeeps(c: Setting, s: Store, k: Key)
    requires CachesHold(c, s) && c.root <= k.source.dir && Destination(c, k) in s.files && Noted(c, s, k).r.Ok?
    ensures CachesHold(c, Noted(c, s, k).s)
  {
    HashedKeeps(c, s, k.source);
    SizedKeeps(c, Hashed(c.tools, s, k.source).s, k.source);
    RecordHolds(c, s, k);
  }

  lemma AddsLedger(c: Setting, s: Store, k: Key, d: Derivative, image: Content, s': Store)
    requires Ledger(c, s) && k !in s.paths && c.root <= k.source.dir && Adds(c, s, k, d, image, s')
    ensures Ledger(c, s') && k in s'.paths && s'.paths[k] == RelativeOutput(c, k)
    ensures Extends(s, s') && forall key :: key in s'.paths ==> key in s.paths || key == k
  {
    LedgerStep(c, s, k, d, s');
  }

  lemma AddsLatest(c: Setting, s: Store, k: Key, d: Derivative, image: Content, s': Store)
    requires Ledger(c, s) && LatestHold(c, s) && c.root <= k.source.dir && Adds(c, s, k, d, image, s')
    ensures LatestHold(c, s')
  {
    OutputSuffix(c, s);
    DestinationFacts(c, k);
    LatestStep(c, s, Destination(c, k), image, d, s');
  }

  lemma AddsSwept(c: Setting, before: Files, s: Store, k: Key, d: Derivative, image: Content, s': Store)
    requires Swept(c, before, s) && c.root <= k.source.dir && Adds(c, s, k, d, image, s')
    ensures Swept(c, before, s')
  {
    var destination := Destination(c, k);
    assert destination.suffix == ".jpg" && ".jpg"[1] != ".tmp"[1];
    forall f | f in before ensures f in s'.files <==> !TemporaryOf(c, s'.paths.Keys, f) {
      assert f in s'.files <==> f == destination || (f in s.files && f != Temporary(destination));
      TemporaryMore(c, s.paths.Keys, k, s'.paths.Keys, f);
    }
  }

  lemma TemporaryMore(c: Setting, keys: set<Key>, k: Key, after: set<Key>, f: File)
    requires c.root <= k.source.dir && after == keys + {k}
    ensures TemporaryOf(c, after, f) <==> TemporaryOf(c, keys, f) || f == Temporary(Destination(c, k))
  {
    if TemporaryOf(c, keys, f) {
      var key :| key in keys && c.root <= key.source.dir && f == Temporary(Destination(c, key));
      assert key in after;
    }
    if f == Temporary(Destination(c, k)) {
      assert k in after;
    }
  }

  /** A JPEG image is there. */
  predicate JpegAt(files: Files, f: File) {
    f in files && files[f].Image? && files[f].jpeg
  }

  lemma NotedSucceeds(c: Setting, s: Store, k: Key)
    requires CachesHold(c, s) && c.root <= k.source.dir && Destination(c, k) in s.files && JpegAt(s.files, k.source)
    ensures Noted(c, s, k).r.Ok?
  {
  }

  /** Fitting a numbered frame below the root that was a JPEG image at the start always succeeds. */
  lemma FitSucceeds(c: Setting, before: Files, s: Store, k: Key)
    requires Sound(c, before, s) && c.root <= k.source.dir && Digits(k.source.stem) && JpegAt(before, k.source)
    ensures Fitted(c, s, k).r.Ok?
  {
    DestinationFacts(c, k);
    if k !in s.paths {
      var image := Image(true, k.size, c.tools.fit(s.files[k.source].pixels, k.size));
      var written := Written(c, s, k, image);
      UntouchedStep(c, before, s.files, k, image);
      CachesStep(c, before, s, written.files);
      NotedSucceeds(c, written, k);
    }
  }

  /** A successful fit keeps all invariants, returns the path derived from its key and forgets no key. */
  lemma FitKeeps(c: Setting, before: Files, s: Store, k: Key)
    requires Sound(c, before, s) && Fitted(c, s, k).r.Ok?
    ensures var o := Fitted(c, s, k);
            && Sound(c, before, o.s) && k in o.s.paths && c.root <= k.source.dir
               && o.r.value == o.s.paths[k] == RelativeOutput(c, k)
            && Extends(s, o.s) && (forall key :: key in o.s.paths ==> key in s.paths || key == k)
  {
    if k in s.paths {
      KnownKey(c, s, k);
    } else {
      var d, image := FreshFit(c, before, s, k);
      AddsLedger(c, s, k, d, image, Fitted(c, s, k).s);
      AddsLatest(c, s, k, d, image, Fitted(c, s, k).s);
      AddsSwept(c, before, s, k, d, image, Fitted(c, s, k).s);
    }
  }

  lemma KnownKey(c: Setting, s: Store, k: Key)
    requires Ledger(c, s) && k in s.paths
    ensures c.root <= k.source.dir && s.paths[k] == RelativeOutput(c, k)
  {
    assert Recorded(c, s.records, k);
    var i :| 0 <= i < |s.records| && KeyOf(c, s.records[i]) == k;
    assert Filed(c, s.paths, s.records[i]);
    RelativeOfUnder(c.root, s.records[i].source);
  }

  // ---- runs ----

  /** Fits in order up to the first failure. */
  function FitAll(c: Setting, s: Store, keys: seq<Key>): Outcome<seq<File>>
    decreases |keys|
  {
    if keys == [] then Outcome(Ok([]), s)
    else
      var n := |keys| - 1;
      var most := FitAll(c, s, keys[..n]);
      if most.r.Err? then most
      else
        var last := Fitted(c, most.s, keys[n]);
        if last.r.Err? then Outcome(Err(last.r.error), last.s) else Outcome(Ok(most.r.value + [last.r.value]), last.s)
  }

  /** All keys fitted, each to its own derived path. */
  ghost predicate AllFitted(c: Setting, s: Store, keys: seq<Key>, outputs: seq<File>) {
    && |outputs| == |keys|
    && (forall i :: 0 <= i < |keys| ==>
          c.root <= keys[i].source.dir && keys[i] in s.paths
          && outputs[i] == s.paths[keys[i]] == RelativeOutput(c, keys[i]))
  }

  lemma AllFittedMore(c: Setting, s: Store, keys: seq<Key>, outputs: seq<File>, s': Store, k: Key, output: File)
    requires AllFitted(c, s, keys, outputs) && Extends(s, s')
    requires c.root <= k.source.dir && k in s'.paths && output == s'.paths[k] == RelativeOutput(c, k)
    ensures AllFitted(c, s', keys + [k], outputs + [output])
  {
  }

  lemma FitAllSplit(c: Setting, s: Store, keys: seq<Key>, k: Key)
    requires FitAll(c, s, keys + [k]).r.Ok?
    ensures var most, o := FitAll(c, s, keys), FitAll(c, s, keys + [k]);
            && most.r.Ok? && Fitted(c, most.s, k).r.Ok? && o.s == Fitted(c, most.s, k).s
            && o.r.value == most.r.value + [Fitted(c, most.s, k).r.value]
  {
    assert (keys + [k])[..|keys|] == keys;
  }

  lemma RunStep(c: Setting, before: Files, s: Store, s1: Store, keys: seq<Key>, outputs: seq<File>, k: Key, s2: Store,
                output: File)
    requires Sound(c, before, s1) && AllFitted(c, s1, keys, outputs) && Extends(s, s1)
    requires Outcome(Ok(output), s2) == Fitted(c, s1, k)
    ensures Sound(c, before, s2) && AllFitted(c, s2, keys + [k], outputs + [output]) && Extends(s, s2)
  {
    FitKeeps(c, before, s1, k);
    AllFittedMore(c, s1, keys, outputs, s2, k, output);
  }

  /** Any sequence of fits that succeeds keeps the invariants. */
  lemma {:induction false} RunKeeps(c: Setting, before: Files, s: Store, keys: seq<Key>)
    requires Sound(c, before, s) && FitAll(c, s, keys).r.Ok?
    ensures var o := FitAll(c, s, keys);
            Sound(c, before, o.s) && AllFitted(c, o.s, keys, o.r.value) && Extends(s, o.s)
    decreases |keys|
  {
    if keys != [] {
      var rest, k := keys[..|keys| - 1], keys[|keys| - 1];
      assert rest + [k] == keys;
      FitAllSplit(c, s, rest, k);
      var most, o := FitAll(c, s, rest), FitAll(c, s, keys);
      RunKeeps(c, before, s, rest);
      RunStep(c, before, s, most.s, rest, most.r.value, k, o.s, Fitted(c, most.s, k).r.value);
    }
  }

  lemma FreshSound(c: Setting, files: Files)
    ensures Sound(c, files, Empty(files))
  {
  }

  /** Records that share an output path agree on what is there. */
  ghost predicate SharedAgree(records: seq<Derivative>) {
    forall i, j :: 0 <= i < j < |records| && records[i].output == records[j].output ==>
      records[i].outputSha == records[j].outputSha && records[i].outputSize == records[j].outputSize
  }

  lemma {:induction false} LastOf(records: seq<Derivative>, i: nat) returns (last: nat)
    requires i < |records|
    ensures i <= last < |records| && records[last].output == records[i].output
    ensures forall j :: last < j < |records| ==> records[j].output != records[last].output
    decreases |records| - i
  {
    if j :| i < j < |records| && records[j].output == records[i].output {
      last := LastOf(records, j);
    } else {
      last := i;
    }
  }

  ghost predicate AllOutputsHold(c: Setting, s: Store) {
    forall i :: 0 <= i < |s.records| ==> OutputHolds(c, s.files, s.records[i])
  }

  lemma SharedHold(c: Setting, s: Store, i: nat)
    requires LatestHold(c, s) && SharedAgree(s.records) && i < |s.records|
    ensures OutputHolds(c, s.files, s.records[i])
  {
    var last := LastOf(s.records, i);
    assert OutputHolds(c, s.files, s.records[last]);
  }

  /** Every recorded hash is the final file's exactly when records sharing a path agree. */
  lemma AllHoldIff(c: Setting, before: Files, s: Store)
    requires Sound(c, before, s)
    ensures AllOutputsHold(c, s) <==> SharedAgree(s.records)
  {
    if SharedAgree(s.records) {
      forall i | 0 <= i < |s.records| ensures OutputHolds(c, s.files, s.records[i]) {
        SharedHold(c, s, i);
      }
    }
    if AllOutputsHold(c, s) {
      HoldingAgree(c, s);
    }
  }

  lemma HoldingAgree(c: Setting, s: Store)
    requires AllOutputsHold(c, s)
    ensures SharedAgree(s.records)
  {
  }

  /** Within a directory a stem names one source. */
  ghost predicate StemsDistinct(sources: set<File>) {
    forall a, b :: a in sources && b in sources && a.dir == b.dir && a.stem == b.stem ==> a == b
  }

  /** Distinct keys share a destination exactly when their sources differ by suffix alone. */
  lemma DestinationsMeetIff(c: Setting, a: Key, b: Key)
    requires c.root <= a.source.dir && c.root <= b.source.dir && a != b
    ensures Destination(c, a) == Destination(c, b) <==>
              a.category == b.category && a.size == b.size && a.source.dir == b.source.dir
              && a.source.stem == b.source.stem
              && a.source.suffix != b.source.suffix
  {
    RelativeUnder(c.root, a.source);
    RelativeUnder(c.root, b.source);
    DerivedPathIff(Relative(c.root, a.source), a.category, a.size, Relative(c.root, b.source), b.category, b.size);
    if Destination(c, a) == Destination(c, b) {
      UnderInjective(c.output, RelativeOutput(c, a), RelativeOutput(c, b));
    }
  }

  ghost function Sources(c: Setting, records: seq<Derivative>): set<File> {
    set i | 0 <= i < |records| :: Under(c.root, records[i].source)
  }

  /** With distinct stems per directory no two records share a path, so every recorded hash is the
      hash of the file finally there, and that file shows its own source. */
  lemma DistinctStemsHold(c: Setting, before: Files, s: Store)
    requires Sound(c, before, s) && StemsDistinct(Sources(c, s.records))
    ensures forall i, j :: 0 <= i < j < |s.records| ==> s.records[i].output != s.records[j].output
    ensures AllOutputsHold(c, s) && forall i :: 0 <= i < |s.records| ==> Resampled(c, s.files, s.records[i])
  {
    forall i, j | 0 <= i < j < |s.records| ensures s.records[i].output != s.records[j].output {
      OutputsDiffer(c, s, i, j);
    }
    forall i | 0 <= i < |s.records|
      ensures OutputHolds(c, s.files, s.records[i]) && Resampled(c, s.files, s.records[i])
    {
      assert forall j :: i < j < |s.records| ==> s.records[j].output != s.records[i].output;
    }
  }

  lemma OutputsDiffer(c: Setting, s: Store, i: nat, j: nat)
    requires Ledger(c, s) && StemsDistinct(Sources(c, s.records)) && i < j < |s.records|
    ensures s.records[i].output != s.records[j].output
  {
    var a, b := s.records[i], s.records[j];
    assert Filed(c, s.paths, a) && Filed(c, s.paths, b);
    assert KeyOf(c, a) != KeyOf(c, b);
    DerivedPathIff(a.source, a.category, a.outputSize, b.source, b.category, b.outputSize);
    assert Under(c.root, a.source) in Sources(c, s.records) && Under(c.root, b.source) in Sources(c, s.records);
  }

  /** One directory holding 1.jpg and 1.jpeg: the later fit overwrites the earlier image. */
  lemma SuffixesCollide(c: Setting, size: Size)
    requires c.tools.file(Image(true, size, c.tools.fit(0, size)))
             != c.tools.file(Image(true, size, c.tools.fit(1, size)))
    ensures var a, b := File(c.root, "1", ".jpg"), File(c.root, "1", ".jpeg");
            var s0 := Empty(map[a := Image(true, size, 0), b := Image(true, size, 1)]);
            var s1 := Fitted(c, s0, Key(a, "panoramic_960x240", size)).s;
            var s2 := Fitted(c, s1, Key(b, "panoramic_960x240", size)).s;
            |s2.records| == 2 && !OutputHolds(c, s2.files, s2.records[0]) && OutputHolds(c, s2.files, s2.records[1])
  {
    var a, b := File(c.root, "1", ".jpg"), File(c.root, "1", ".jpeg");
    var ka, kb := Key(a, "panoramic_960x240", size), Key(b, "panoramic_960x240", size);
    DestinationFacts(c, ka);
    DestinationsMeetIff(c, ka, kb);
  }
}
