/** What the scripts see of the world, as values: the blob store, the local
    disk, directory listings and batch-mapping documents. */
module Environment {
  import opened Wrappers

  /** The blob container. `blobs` gives the size of every blob present;
      a property probe of a key in `probeFaults` raises something other than
      `ResourceNotFoundError`; an upload or a download of a key in
      `transferFaults` raises. */
  datatype Remote = Remote(blobs: map<string, nat>, probeFaults: set<string>, transferFaults: set<string>)

  /** What `get_blob_properties()` gives back. */
  datatype Probe = Found(size: nat) | NotFound | ProbeFault

  function ProbeBlob(store: Remote, key: string): (p: Probe)
    ensures p.ProbeFault? <==> key in store.probeFaults
    ensures p.Found? <==> key !in store.probeFaults && key in store.blobs
    ensures p.Found? ==> p.size == store.blobs[key]
  {
    if key in store.probeFaults then ProbeFault
    else if key in store.blobs then Found(store.blobs[key])
    else NotFound
  }

  /** The local file system: the size of every file present, by path. */
  type Disk = map<string, nat>

  /** What one per-file transfer reports: `(True, size)` after a skip or a
      transfer, `(False, 0)` after a failure. */
  datatype FileResult = Skipped(size: nat) | Transferred(size: nat) | Failed {
    predicate Ok() { !Failed? }
    function Bytes(): nat { if Failed? then 0 else size }
  }

  /** `sum(1 for ok, _ in results if ok)` */
  function CountOk(results: seq<FileResult>): (n: nat)
    ensures n <= |results|
  {
    if results == [] then 0
    else CountOk(results[..|results| - 1]) + (if results[|results| - 1].Ok() then 1 else 0)
  }

  /** The sum of the sizes the results report. */
  function SumBytes(results: seq<FileResult>): nat {
    if results == [] then 0 else SumBytes(results[..|results| - 1]) + results[|results| - 1].Bytes()
  }

  /** Results with no success carry no bytes. */
  lemma {:induction false} NoSuccessNoBytes(results: seq<FileResult>)
    requires CountOk(results) == 0
    ensures SumBytes(results) == 0
    ensures forall k :: 0 <= k < |results| ==> results[k].Failed?
  {
    if results != [] {
      NoSuccessNoBytes(results[..|results| - 1]);
    }
  }

  /** What a second run reports for a file, given the first run's report:
      the same verdict and size, and a success the second time is a skip. */
  predicate RerunOf(first: FileResult, again: FileResult) {
    again.Ok() == first.Ok() && again.Bytes() == first.Bytes() && (first.Ok() ==> again.Skipped?)
  }

  predicate RerunAll(first: seq<FileResult>, again: seq<FileResult>) {
    |first| == |again| && forall k :: 0 <= k < |first| ==> RerunOf(first[k], again[k])
  }

  /** Reruns of two concatenated runs split into reruns of each part. */
  lemma RerunAllSplit(a1: seq<FileResult>, b1: seq<FileResult>, a2: seq<FileResult>, b2: seq<FileResult>)
    requires |a1| == |a2| && RerunAll(a1 + b1, a2 + b2)
    ensures RerunAll(a1, a2) && RerunAll(b1, b2)
  {
    forall k | 0 <= k < |a1| ensures RerunOf(a1[k], a2[k]) {
      assert (a1 + b1)[k] == a1[k] && (a2 + b2)[k] == a2[k];
    }
    forall k | 0 <= k < |b1| ensures RerunOf(b1[k], b2[k]) {
      assert (a1 + b1)[|a1| + k] == b1[k] && (a2 + b2)[|a2| + k] == b2[k];
    }
  }

  /** A rerun reports the same count and the same total size. */
  lemma {:induction false} RerunTotals(first: seq<FileResult>, again: seq<FileResult>)
    requires RerunAll(first, again)
    ensures CountOk(again) == CountOk(first) && SumBytes(again) == SumBytes(first)
  {
    if first != [] {
      RerunTotals(first[..|first| - 1], again[..|again| - 1]);
    }
  }

  /** One entry met by a recursive walk of a directory (`rglob('*')`):
      its path relative to that directory, whether it is a regular file,
      and its size. */
  datatype DirEntry = DirEntry(rel: string, isFile: bool, size: nat)

  /** One entry of a results directory: its name, whether it is a directory,
      and what a recursive walk of it meets. */
  datatype Item = Item(name: string, isDir: bool, walk: seq<DirEntry>)

  /** One `video_file -> image_file` entry of a batch mapping. */
  datatype Pair = Pair(video: string, image: string)

  /** A parsed `video_image_mapping.json`: its `mapping` object, as its
      `(key, value)` items in insertion order, when the key is present, and
      `batch_info.batch_number` when present. */
  datatype BatchDoc = BatchDoc(mapping: Option<seq<Pair>>, batchNumber: Option<string>)

  /** One entry of the batch-configuration directory: its name, whether it is
      a directory, and the mapping file inside it, if there is one. */
  datatype ConfigEntry = ConfigEntry(name: string, isDir: bool, mappingFile: Option<BatchDoc>)

  /** `str(Path(dir) / name)` for a plain file or directory name: pathlib
      drops a current-directory `dir`. */
  function JoinPath(dir: string, name: string): string {
    if dir == "" || dir == "." then name else dir + "/" + name
  }

  /** `os.path.dirname(path) != ""`: the path names a directory part. */
  predicate HasDirPart(path: string) {
    '/' in path
  }

  /** What one download does to the local disk, and what it reports. */
  datatype DiskStep = DiskStep(result: FileResult, disk: Disk)
}
