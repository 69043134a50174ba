/** The data of the navigation manifests: paths, file contents, records and provenance. */
module Manifest {
  import opened Names

  /** A resolved path whose name is split at its last dot; relative to a root when used as one. */
  datatype File = File(dir: seq<string>, stem: string, suffix: string)

  function Under(root: seq<string>, rel: File): File {
    File(root + rel.dir, rel.stem, rel.suffix)
  }

  /** The path of a file relative to a directory above it. */
  function Relative(root: seq<string>, file: File): File
    requires root <= file.dir
  {
    File(file.dir[|root|..], file.stem, file.suffix)
  }

  lemma RelativeUnder(root: seq<string>, file: File)
    requires root <= file.dir
    ensures Under(root, Relative(root, file)) == file
  {
  }

  lemma UnderInjective(root: seq<string>, a: File, b: File)
    requires Under(root, a) == Under(root, b)
    ensures a == b
  {
    assert (root + a.dir)[|root|..] == a.dir && (root + b.dir)[|root|..] == b.dir;
  }

  /** The hidden file a writer fills before it replaces `file`. */
  function Temporary(file: File): File {
    File(file.dir, "." + file.stem + file.suffix, ".tmp")
  }

  datatype Size = Size(w: nat, h: nat)

  datatype Kind = Low | Navida | Panoramic

  datatype Candidate = Candidate(image: File, angle: real, distance: real)

  datatype Record =
    | LowRecord(id: string, instruction: string, current: File, history: seq<File>, responses: seq<string>,
                distance: real, movePossible: bool)
    | NavidaRecord(id: string, instruction: string, current: File, history: seq<File>)
    | PanoramicRecord(id: string, instruction: string, current: File, history: seq<File>, responses: seq<string>,
                      distance: real,
                      candidates: seq<Candidate>)

  datatype Selected = Selected(sampleId: string, episodeId: int, scene: string, instructionSha: string, quantile: int,
                               frameIndex: int,
                               historyIndexes: seq<int>, candidateIndexes: seq<int>, action: int,
                               responses: seq<string>)

  datatype Derivative = Derivative(category: string, source: File, sourceSha: string, sourceSize: Size, output: File,
                                   outputSha: string,
                                   outputSize: Size)

  datatype Entry = Entry(path: File, sha: string, count: nat)

  datatype Selection = Selection(episodeCount: int, stepsPerEpisode: int, historyDepth: int, samples: seq<Selected>,
                                 sha: string)

  datatype Provenance = Provenance(
    schema: string, classification: string, tarVerified: bool, syntheticPixels: bool, trajectoryClaim: bool,
    train: File, trainSha: string, imagesRoot: seq<string>, annotations: File, annotationsSha: string,
    selection: Selection, dataRoots: map<Kind, seq<string>>, manifests: map<Kind, Entry>, derivatives: seq<Derivative>)

  datatype Content =
    | Image(jpeg: bool, size: Size, pixels: int)
    | ManifestJson(records: seq<Record>)
    | ProvenanceJson(provenance: Provenance)
    | Other(data: int)

  /** SHA-256 of files, selections and texts, and the resampler, none of them looked into. */
  datatype Tools = Tools(file: Content -> string, selection: seq<Selected> -> string, text: string -> string,
                         fit: (int, Size) -> int)

  /** All that is used of SHA-256: a digest is 64 characters long. */
  ghost predicate HexDigests(tools: Tools) {
    forall c :: |tools.file(c)| == 64
  }

  type Files = map<File, Content>

  predicate IsDir(files: Files, dir: seq<string>) {
    exists f :: f in files && dir <= f.dir
  }

  /** No part of the path climbs out of its root. */
  predicate Safe(rel: File) {
    ".." !in rel.dir && rel.stem + rel.suffix != ".." && rel.stem != ""
  }

  predicate Blank(c: char) {
    c == ' ' || c == '\t' || c == '\n' || c == '\r'
  }

  predicate NonBlank(s: string) {
    exists i :: 0 <= i < |s| && !Blank(s[i])
  }

  /** Some character of the text is not blank. */
  ghost predicate HasText(s: string) {
    exists i :: 0 <= i < |s| && s[i] != ' ' && s[i] != '\t' && s[i] != '\n' && s[i] != '\r'
  }

  /** Where a derivative of a source goes, relative to the output directory. */
  function DerivedPath(source: File, category: string, size: Size): File {
    File(["derived", category] + source.dir, SizedStem(source.stem, size.w, size.h), ".jpg")
  }

  /** Two derivatives share a path exactly when category, size, directory and stem agree. */
  lemma DerivedPathIff(a: File, ca: string, sa: Size, b: File, cb: string, sb: Size)
    ensures DerivedPath(a, ca, sa) == DerivedPath(b, cb, sb)
            <==> ca == cb && sa == sb && a.dir == b.dir && a.stem == b.stem
  {
    if DerivedPath(a, ca, sa) == DerivedPath(b, cb, sb) {
      SizedStemInjective(a.stem, sa.w, sa.h, b.stem, sb.w, sb.h);
      var x, y := ["derived", ca] + a.dir, ["derived", cb] + b.dir;
      assert x[1] == ca && y[1] == cb && x[2..] == a.dir && y[2..] == b.dir;
    }
  }
}
