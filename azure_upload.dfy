/** `scripts/azure_upload.py`: uploading a batch's per-video result
    directories to the blob store, and the completeness scan that decides
    which directories are worth uploading. */
module AzureUpload {
  import opened Wrappers
  import opened Text
  import opened Sorting
  import opened Selection
  import opened Report
  import opened Environment

  const BaseResultsPath := "ruijian-research/batch_results"
  const VideoDirPrefix := "00000500"
  const RequiredFiles: seq<string> :=
    ["part2_output/inpainted_video.mp4", "part2_output/masked_area_filled.mp4", "part2_output/inpainted_frame.png"]
  const MinBytes: nat := 1000

  /** `FileNotFoundError` raised when the results directory does not exist. */
  datatype UploadError = ResultsDirNotFound

  /** The entries `upload_batch_results` keeps: directories whose name starts
      with `00000500` (the same test as `glob('00000500*')` plus `is_dir()`). */
  predicate IsVideoDir(item: Item) {
    item.isDir && StartsWith(item.name, VideoDirPrefix)
  }

  function ItemName(item: Item): string {
    item.name
  }

  /** The loop over `results_path.iterdir()` that appends the video directories. */
  method CollectVideoDirs(listing: seq<Item>) returns (dirs: seq<Item>)
    ensures dirs == Filter(listing, IsVideoDir)
  {
    dirs := [];
    var i := 0;
    while i < |listing|
      invariant 0 <= i <= |listing|
      invariant dirs == Filter(listing[..i], IsVideoDir)
    {
      assert listing[..i + 1][..i] == listing[..i];
      if listing[i].isDir && StartsWith(listing[i].name, VideoDirPrefix) {
        dirs := dirs + [listing[i]];
      }
      i := i + 1;
    }
    assert listing[..i] == listing;
  }

  /** `video_dirs` after `video_dirs.sort()`. */
  function VideoDirs(listing: seq<Item>): seq<Item> {
    SortBy(Filter(listing, IsVideoDir), ItemName)
  }

  /** The sorted work list holds every video directory of the listing and
      nothing else, in name order. */
  lemma VideoDirsSelected(listing: seq<Item>)
    ensures SortedBy(VideoDirs(listing), ItemName)
    ensures forall d :: d in VideoDirs(listing) <==> d in listing && IsVideoDir(d)
  {
    forall d ensures d in VideoDirs(listing) <==> d in listing && IsVideoDir(d) {
      FilterMembers(listing, IsVideoDir, d);
      assert d in VideoDirs(listing) <==> d in multiset(VideoDirs(listing));
      assert d in Filter(listing, IsVideoDir) <==> d in multiset(Filter(listing, IsVideoDir));
    }
  }

  /** `f"{base_results_path}/batch_{batch_id}/{video_id}"` */
  function UploadBase(batchId: string, videoId: string): string {
    BaseResultsPath + "/batch_" + batchId + "/" + videoId
  }

  /** `f"{upload_base}/{relative_path}"`: every key lies under the video's
      upload base. */
  function BlobKey(batchId: string, videoId: string, rel: string): (key: string)
    ensures StartsWith(key, UploadBase(batchId, videoId) + "/")
    ensures |key| == |UploadBase(batchId, videoId)| + 1 + |rel|
  {
    UploadBase(batchId, videoId) + "/" + rel
  }

  /** Within one video directory, distinct relative paths give distinct keys. */
  lemma BlobKeyInjective(batchId: string, videoId: string, rel1: string, rel2: string)
    requires BlobKey(batchId, videoId, rel1) == BlobKey(batchId, videoId, rel2)
    ensures rel1 == rel2
  {
    var p := UploadBase(batchId, videoId) + "/";
    assert BlobKey(batchId, videoId, rel1) == p + rel1;
    assert BlobKey(batchId, videoId, rel2) == p + rel2;
    assert rel1 == (p + rel1)[|p|..];
    assert rel2 == (p + rel2)[|p|..];
  }

  /** One `_upload_file` call: the blob key and the local file's size. */
  datatype Job = Job(key: string, size: nat)

  /** The file entries of one directory walk, in walk order, as upload jobs. */
  function WalkJobs(batchId: string, videoId: string, walk: seq<DirEntry>): (jobs: seq<Job>)
    ensures |jobs| <= |walk|
  {
    if walk == [] then []
    else
      var e := walk[|walk| - 1];
      WalkJobs(batchId, videoId, walk[..|walk| - 1])
        + (if e.isFile then [Job(BlobKey(batchId, videoId, e.rel), e.size)] else [])
  }

  /** `file_path.is_file()` */
  predicate IsFileEntry(e: DirEntry) {
    e.isFile
  }

  /** The walk yields exactly one job per file it meets. */
  lemma {:induction false} WalkJobsCount(batchId: string, videoId: string, walk: seq<DirEntry>)
    ensures |WalkJobs(batchId, videoId, walk)| == |Filter(walk, IsFileEntry)|
  {
    if walk != [] {
      WalkJobsCount(batchId, videoId, walk[..|walk| - 1]);
    }
  }

  /** Every file the walk meets is uploaded under its own key with its own
      size. */
  lemma {:induction false} WalkJobsFiles(batchId: string, videoId: string, walk: seq<DirEntry>, k: nat)
    requires k < |walk| && walk[k].isFile
    ensures Job(BlobKey(batchId, videoId, walk[k].rel), walk[k].size) in WalkJobs(batchId, videoId, walk)
  {
    var init := walk[..|walk| - 1];
    if k < |walk| - 1 {
      assert init[k] == walk[k];
      WalkJobsFiles(batchId, videoId, init, k);
    }
  }

  /** What one `_upload_file` call reports, and the store after it. */
  datatype FileStep = FileStep(result: FileResult, store: Remote)

  /** `_upload_file`: skip when the blob already has the local size; upload
      when the probe says not found or the sizes differ; any other probe
      error, and any upload error, is a failure. */
  function UploadFile(store: Remote, job: Job): (s: FileStep)
    ensures s.result.Ok() ==> s.result.size == job.size
    ensures s.result.Skipped? <==> ProbeBlob(store, job.key) == Found(job.size)
    ensures s.result.Failed? <==> (job.key in store.probeFaults
              || (ProbeBlob(store, job.key) != Found(job.size) && job.key in store.transferFaults))
    ensures s.result.Transferred? ==> s.store == store.(blobs := store.blobs[job.key := job.size])
    ensures !s.result.Transferred? ==> s.store == store
  {
    var probe := ProbeBlob(store, job.key);
    if probe == Found(job.size) then FileStep(Skipped(job.size), store)
    else if probe.ProbeFault? then FileStep(Failed, store)
    else if job.key in store.transferFaults then FileStep(Failed, store)
    else FileStep(Transferred(job.size), store.(blobs := store.blobs[job.key := job.size]))
  }

  /** The per-file results of a run over several jobs, and the store after it. */
  datatype JobsRun = JobsRun(results: seq<FileResult>, store: Remote)

  function UploadJobs(store: Remote, jobs: seq<Job>): (run: JobsRun)
    ensures |run.results| == |jobs|
  {
    if jobs == [] then JobsRun([], store)
    else
      var prev := UploadJobs(store, jobs[..|jobs| - 1]);
      var step := UploadFile(prev.store, jobs[|jobs| - 1]);
      JobsRun(prev.results + [step.result], step.store)
  }

  /** A file reported as uploaded or skipped reports its own local size. */
  lemma {:induction false} UploadJobsSizes(store: Remote, jobs: seq<Job>, k: nat)
    requires k < |jobs| && UploadJobs(store, jobs).results[k].Ok()
    ensures UploadJobs(store, jobs).results[k].size == jobs[k].size
  {
    if k < |jobs| - 1 {
      UploadJobsSizes(store, jobs[..|jobs| - 1], k);
    }
  }

  predicate DistinctKeys(jobs: seq<Job>) {
    forall i, j :: 0 <= i < j < |jobs| ==> jobs[i].key != jobs[j].key
  }

  /** A blob no job touches can be set before or after the run alike. */
  lemma {:induction false} UploadJobsOtherKey(store: Remote, jobs: seq<Job>, key: string, size: nat)
    requires forall k :: 0 <= k < |jobs| ==> jobs[k].key != key
    ensures var run := UploadJobs(store, jobs);
            UploadJobs(store.(blobs := store.blobs[key := size]), jobs)
              == JobsRun(run.results, run.store.(blobs := run.store.blobs[key := size]))
  {
    if jobs != [] {
      var init, job := jobs[..|jobs| - 1], jobs[|jobs| - 1];
      UploadJobsOtherKey(store, init, key, size);
      var st := UploadJobs(store, init).store;
      var st' := st.(blobs := st.blobs[key := size]);
      assert ProbeBlob(st', job.key) == ProbeBlob(st, job.key);
      if UploadFile(st, job).result.Transferred? {
        assert st'.blobs[job.key := job.size] == st.blobs[job.key := job.size][key := size];
      }
    }
  }

  /** Running the same jobs (distinct keys) again on the store the first run
      left: every file that went through is skipped, every failure fails
      again, and the store does not change. */
  lemma {:induction false} UploadJobsAgain(store: Remote, jobs: seq<Job>)
    requires DistinctKeys(jobs)
    ensures var first := UploadJobs(store, jobs);
            var again := UploadJobs(first.store, jobs);
            again.store == first.store && RerunAll(first.results, again.results)
  {
    if jobs != [] {
      var init, job := jobs[..|jobs| - 1], jobs[|jobs| - 1];
      UploadJobsAgain(store, init);
      var prev := UploadJobs(store, init);
      var step := UploadFile(prev.store, job);
      if step.result.Transferred? {
        UploadJobsOtherKey(prev.store, init, job.key, job.size);
      }
      var before := UploadJobs(step.store, init);
      assert before.store == step.store && RerunAll(prev.results, before.results);
      var again := UploadFile(before.store, job);
      assert RerunOf(step.result, again.result) && again.store == step.store;
      assert UploadJobs(step.store, jobs) == JobsRun(before.results + [again.result], again.store);
    }
  }

  /** Every job of a walk carries the key of one of the walked entries. */
  lemma {:induction false} WalkJobsKeys(batchId: string, videoId: string, walk: seq<DirEntry>, k: nat) returns (i: nat)
    requires k < |WalkJobs(batchId, videoId, walk)|
    ensures i < |walk| && WalkJobs(batchId, videoId, walk)[k].key == BlobKey(batchId, videoId, walk[i].rel)
  {
    var init := walk[..|walk| - 1];
    if k < |WalkJobs(batchId, videoId, init)| {
      i := WalkJobsKeys(batchId, videoId, init, k);
    } else {
      i := |walk| - 1;
    }
  }

  /** A walk meets each relative path once. */
  predicate DistinctPaths(walk: seq<DirEntry>) {
    forall i, j :: 0 <= i < j < |walk| ==> walk[i].rel != walk[j].rel
  }

  /** Distinct relative paths give distinct blob keys. */
  lemma {:induction false} WalkJobsDistinct(batchId: string, videoId: string, walk: seq<DirEntry>)
    requires DistinctPaths(walk)
    ensures DistinctKeys(WalkJobs(batchId, videoId, walk))
  {
    if walk != [] {
      var init, e := walk[..|walk| - 1], walk[|walk| - 1];
      var before := WalkJobs(batchId, videoId, init);
      WalkJobsDistinct(batchId, videoId, init);
      if e.isFile {
        var job := Job(BlobKey(batchId, videoId, e.rel), e.size);
        forall k | 0 <= k < |before| ensures before[k].key != job.key {
          var i := WalkJobsKeys(batchId, videoId, init, k);
          if before[k].key == job.key {
            BlobKeyInjective(batchId, videoId, init[i].rel, e.rel);
            assert false;
          }
        }
      }
    }
  }

  /** Uploading a video directory a second time reports the same number of
      files and bytes and leaves the store as the first upload left it. */
  lemma UploadVideoAgain(store: Remote, batchId: string, videoId: string, walk: seq<DirEntry>)
    requires DistinctPaths(walk)
    ensures var jobs := WalkJobs(batchId, videoId, walk);
            var first := UploadJobs(store, jobs);
            var again := UploadJobs(first.store, jobs);
            again.store == first.store
            && CountOk(again.results) == CountOk(first.results)
            && SumBytes(again.results) == SumBytes(first.results)
  {
    var jobs := WalkJobs(batchId, videoId, walk);
    WalkJobsDistinct(batchId, videoId, walk);
    UploadJobsAgain(store, jobs);
    var first := UploadJobs(store, jobs);
    RerunTotals(first.results, UploadJobs(first.store, jobs).results);
  }

  /** Counting and summing one more result. */
  lemma CountAppend(results: seq<FileResult>, r: FileResult)
    ensures CountOk(results + [r]) == CountOk(results) + (if r.Ok() then 1 else 0)
    ensures SumBytes(results + [r]) == SumBytes(results) + r.Bytes()
  {
    assert (results + [r])[..|results|] == results;
  }

  /** One more walked entry: a file adds one upload to the run, anything
      else adds nothing. */
  lemma WalkStep(store: Remote, batchId: string, videoId: string, walk: seq<DirEntry>, i: nat)
    requires i < |walk|
    ensures var run := UploadJobs(store, WalkJobs(batchId, videoId, walk[..i]));
            var next := UploadJobs(store, WalkJobs(batchId, videoId, walk[..i + 1]));
            if walk[i].isFile then
              var step := UploadFile(run.store, Job(BlobKey(batchId, videoId, walk[i].rel), walk[i].size));
              next == JobsRun(run.results + [step.result], step.store)
            else next == run
  {
    var jobs := WalkJobs(batchId, videoId, walk[..i]);
    assert walk[..i + 1][..i] == walk[..i];
    if walk[i].isFile {
      var job := Job(BlobKey(batchId, videoId, walk[i].rel), walk[i].size);
      assert WalkJobs(batchId, videoId, walk[..i + 1]) == jobs + [job];
      assert (jobs + [job])[..|jobs|] == jobs;
    } else {
      assert WalkJobs(batchId, videoId, walk[..i + 1]) == jobs;
    }
  }

  /** `if success: files_uploaded += 1; total_size += size` */
  method CountFile(filesUploaded: nat, totalSize: nat, r: FileResult) returns (filesUploaded': nat, totalSize': nat)
    ensures filesUploaded' == filesUploaded + (if r.Ok() then 1 else 0)
    ensures totalSize' == totalSize + r.Bytes()
  {
    filesUploaded', totalSize' := filesUploaded, totalSize;
    if r.Ok() {
      filesUploaded' := filesUploaded + 1;
      totalSize' := totalSize + r.size;
    }
  }

  /** The counters of `_upload_video_results` after the first `i` walked
      entries, and the store they left. */
  predicate WalkCounted(store: Remote, batchId: string, videoId: string, walk: seq<DirEntry>, i: nat,
                        filesUploaded: nat, totalSize: nat, store': Remote)
    requires i <= |walk|
  {
    var run := UploadJobs(store, WalkJobs(batchId, videoId, walk[..i]));
    filesUploaded == CountOk(run.results) && totalSize == SumBytes(run.results) && store' == run.store
  }

  /** One pass of the loop of `_upload_video_results`: a file is uploaded
      and, when it went through, counted with its size. */
  method UploadEntry(store: Remote, batchId: string, videoId: string, walk: seq<DirEntry>, i: nat,
                     filesUploaded: nat, totalSize: nat, storeNow: Remote)
    returns (filesUploaded': nat, totalSize': nat, store': Remote)
    requires i < |walk| && WalkCounted(store, batchId, videoId, walk, i, filesUploaded, totalSize, storeNow)
    ensures WalkCounted(store, batchId, videoId, walk, i + 1, filesUploaded', totalSize', store')
  {
    ghost var run := UploadJobs(store, WalkJobs(batchId, videoId, walk[..i]));
    WalkStep(store, batchId, videoId, walk, i);
    filesUploaded', totalSize', store' := filesUploaded, totalSize, storeNow;
    var entry := walk[i];
    if entry.isFile {
      var step := UploadFile(storeNow, Job(BlobKey(batchId, videoId, entry.rel), entry.size));
      CountAppend(run.results, step.result);
      filesUploaded', totalSize' := CountFile(filesUploaded, totalSize, step.result);
      store' := step.store;
    }
  }

  /** `_upload_video_results`: upload every file the walk meets and report
      how many went through and the sum of their sizes. */
  method UploadVideoResults(store: Remote, batchId: string, videoId: string, walk: seq<DirEntry>)
    returns (filesUploaded: nat, totalSize: nat, store': Remote)
    ensures var run := UploadJobs(store, WalkJobs(batchId, videoId, walk));
            filesUploaded == CountOk(run.results) && totalSize == SumBytes(run.results) && store' == run.store
  {
    filesUploaded, totalSize, store' := 0, 0, store;
    var i := 0;
    while i < |walk|
      invariant 0 <= i <= |walk|
      invariant WalkCounted(store, batchId, videoId, walk, i, filesUploaded, totalSize, store')
    {
      filesUploaded, totalSize, store' := UploadEntry(store, batchId, videoId, walk, i, filesUploaded, totalSize, store');
      i := i + 1;
    }
    assert walk[..i] == walk;
  }

  /** One `_upload_video_results` call of the batch loop: the directory name
      and what a recursive walk of it meets. */
  datatype DirJob = DirJob(videoId: string, walk: seq<DirEntry>)

  /** `(files_uploaded, files_size)` for one directory. */
  datatype DirOutcome = DirOutcome(files: nat, bytes: nat)

  datatype DirsRun = DirsRun(outcomes: seq<DirOutcome>, store: Remote)

  /** The directories uploaded one after the other, each seeing the store the
      previous ones left. */
  function UploadDirs(store: Remote, batchId: string, dirs: seq<DirJob>): (run: DirsRun)
    ensures |run.outcomes| == |dirs|
  {
    if dirs == [] then DirsRun([], store)
    else
      var prev := UploadDirs(store, batchId, dirs[..|dirs| - 1]);
      var d := dirs[|dirs| - 1];
      var files := UploadJobs(prev.store, WalkJobs(batchId, d.videoId, d.walk));
      DirsRun(prev.outcomes + [DirOutcome(CountOk(files.results), SumBytes(files.results))], files.store)
  }

  lemma UploadDirsSnoc(store: Remote, batchId: string, dirs: seq<DirJob>, d: DirJob)
    ensures var prev := UploadDirs(store, batchId, dirs);
            var files := UploadJobs(prev.store, WalkJobs(batchId, d.videoId, d.walk));
            UploadDirs(store, batchId, dirs + [d])
              == DirsRun(prev.outcomes + [DirOutcome(CountOk(files.results), SumBytes(files.results))], files.store)
  {
    assert (dirs + [d])[..|dirs|] == dirs;
  }

  /** A directory with no file through carries no bytes either. */
  lemma {:induction false} UploadDirsNoFilesNoBytes(store: Remote, batchId: string, dirs: seq<DirJob>, k: nat)
    requires k < |dirs| && UploadDirs(store, batchId, dirs).outcomes[k].files == 0
    ensures UploadDirs(store, batchId, dirs).outcomes[k].bytes == 0
  {
    if k < |dirs| - 1 {
      UploadDirsNoFilesNoBytes(store, batchId, dirs[..|dirs| - 1], k);
    } else {
      var prev := UploadDirs(store, batchId, dirs[..|dirs| - 1]);
      var d := dirs[|dirs| - 1];
      NoSuccessNoBytes(UploadJobs(prev.store, WalkJobs(batchId, d.videoId, d.walk)).results);
    }
  }

  /** The counters of the batch loop: `uploaded_count`, `failed_count`,
      `total_files`, `total_size`. */
  datatype Tally = Tally(uploaded: nat, failed: nat, files: nat, bytes: nat)

  /** The counters after one more directory: one with at least one file
      through counts as uploaded and adds its files and bytes; any other
      counts as failed and adds nothing. */
  function TallyTick(t: Tally, o: DirOutcome): Tally {
    if o.files > 0 then Tally(t.uploaded + 1, t.failed, t.files + o.files, t.bytes + o.bytes)
    else Tally(t.uploaded, t.failed + 1, t.files, t.bytes)
  }

  /** The counters after the loop has seen these outcomes. */
  function TallyOf(outcomes: seq<DirOutcome>): Tally {
    if outcomes == [] then Tally(0, 0, 0, 0)
    else TallyTick(TallyOf(outcomes[..|outcomes| - 1]), outcomes[|outcomes| - 1])
  }

  lemma TallySnoc(outcomes: seq<DirOutcome>, o: DirOutcome)
    ensures TallyOf(outcomes + [o]) == TallyTick(TallyOf(outcomes), o)
  {
    assert (outcomes + [o])[..|outcomes|] == outcomes;
  }

  /** The first `/` of `v/r`, for a `v` without `/`, is the one after `v`. */
  lemma {:induction false} FirstSlash(v: string, r: string)
    requires '/' !in v
    ensures FirstIndexOf(v + "/" + r, '/') == Some(|v|)
  {
    var t := v + "/" + r;
    if v == [] {
      assert t[0] == '/';
    } else {
      assert t[0] == v[0] && v[0] in v;
      assert t[1..] == v[1..] + "/" + r;
      assert forall c :: c in v[1..] ==> c in v;
      FirstSlash(v[1..], r);
    }
  }

  /** Blob keys of directories whose names hold no `/` name their directory:
      keys of two different directories never meet. */
  lemma BlobKeyDir(batchId: string, v1: string, r1: string, v2: string, r2: string)
    requires '/' !in v1 && '/' !in v2
    ensures BlobKey(batchId, v1, r1) == BlobKey(batchId, v2, r2) ==> v1 == v2
  {
    var p := BaseResultsPath + "/batch_" + batchId + "/";
    var t1, t2 := v1 + "/" + r1, v2 + "/" + r2;
    assert BlobKey(batchId, v1, r1) == p + t1;
    assert BlobKey(batchId, v2, r2) == p + t2;
    assert (p + t1)[|p|..] == t1 && (p + t2)[|p|..] == t2;
    FirstSlash(v1, r1);
    FirstSlash(v2, r2);
    assert t1[..|v1|] == v1 && t2[..|v2|] == v2;
  }

  /** Every upload job of the batch loop, directory after directory. */
  function AllJobs(batchId: string, dirs: seq<DirJob>): seq<Job> {
    if dirs == [] then []
    else
      var d := dirs[|dirs| - 1];
      AllJobs(batchId, dirs[..|dirs| - 1]) + WalkJobs(batchId, d.videoId, d.walk)
  }

  /** Running two job lists one after the other is running their
      concatenation. */
  lemma {:induction false} UploadJobsAppend(store: Remote, a: seq<Job>, b: seq<Job>)
    ensures var ra := UploadJobs(store, a);
            var rb := UploadJobs(ra.store, b);
            UploadJobs(store, a + b) == JobsRun(ra.results + rb.results, rb.store)
    decreases |b|
  {
    if b == [] {
      assert a + b == a;
    } else {
      var init, j := b[..|b| - 1], b[|b| - 1];
      assert (a + b)[..|a + b| - 1] == a + init && (a + b)[|a + b| - 1] == j;
      UploadJobsAppend(store, a, init);
      var ra := UploadJobs(store, a);
      var ri := UploadJobs(ra.store, init);
      var step := UploadFile(ri.store, j);
      assert ra.results + ri.results + [step.result] == ra.results + (ri.results + [step.result]);
    }
  }

  /** The directories leave the store their jobs, run in a row, leave. */
  lemma {:induction false} UploadDirsFlat(store: Remote, batchId: string, dirs: seq<DirJob>)
    ensures UploadDirs(store, batchId, dirs).store == UploadJobs(store, AllJobs(batchId, dirs)).store
  {
    if dirs != [] {
      var init, d := dirs[..|dirs| - 1], dirs[|dirs| - 1];
      UploadDirsFlat(store, batchId, init);
      UploadJobsAppend(store, AllJobs(batchId, init), WalkJobs(batchId, d.videoId, d.walk));
    }
  }

  /** Two runs of the directories whose jobs rerun each other report the
      same per-directory outcomes. */
  lemma {:induction false} UploadDirsRerun(s1: Remote, s2: Remote, batchId: string, dirs: seq<DirJob>)
    requires RerunAll(UploadJobs(s1, AllJobs(batchId, dirs)).results, UploadJobs(s2, AllJobs(batchId, dirs)).results)
    ensures UploadDirs(s1, batchId, dirs).outcomes == UploadDirs(s2, batchId, dirs).outcomes
  {
    if dirs != [] {
      var init, d := dirs[..|dirs| - 1], dirs[|dirs| - 1];
      var a, w := AllJobs(batchId, init), WalkJobs(batchId, d.videoId, d.walk);
      UploadJobsAppend(s1, a, w);
      UploadJobsAppend(s2, a, w);
      var r1, r2 := UploadJobs(s1, a), UploadJobs(s2, a);
      var w1, w2 := UploadJobs(r1.store, w), UploadJobs(r2.store, w);
      RerunAllSplit(r1.results, w1.results, r2.results, w2.results);
      UploadDirsRerun(s1, s2, batchId, init);
      UploadDirsFlat(s1, batchId, init);
      UploadDirsFlat(s2, batchId, init);
      RerunTotals(w1.results, w2.results);
    }
  }

  /** Directories as a listing gives them: distinct names without `/`, each
      walk meeting each relative path once. */
  predicate SeparateDirs(dirs: seq<DirJob>) {
    (forall k :: 0 <= k < |dirs| ==> '/' !in dirs[k].videoId && DistinctPaths(dirs[k].walk))
    && forall j, k :: 0 <= j < k < |dirs| ==> dirs[j].videoId != dirs[k].videoId
  }

  /** Every job of the batch carries the key of a walked entry of one of the
      directories. */
  lemma {:induction false} AllJobsKeys(batchId: string, dirs: seq<DirJob>, k: nat) returns (j: nat, i: nat)
    requires k < |AllJobs(batchId, dirs)|
    ensures j < |dirs| && i < |dirs[j].walk|
    ensures AllJobs(batchId, dirs)[k].key == BlobKey(batchId, dirs[j].videoId, dirs[j].walk[i].rel)
  {
    var init, d := dirs[..|dirs| - 1], dirs[|dirs| - 1];
    var a := AllJobs(batchId, init);
    if k < |a| {
      j, i := AllJobsKeys(batchId, init, k);
      assert dirs[j] == init[j];
    } else {
      j := |dirs| - 1;
      i := WalkJobsKeys(batchId, d.videoId, d.walk, k - |a|);
    }
  }

  lemma DistinctKeysAppend(a: seq<Job>, b: seq<Job>)
    requires DistinctKeys(a) && DistinctKeys(b)
    requires forall x, y :: 0 <= x < |a| && 0 <= y < |b| ==> a[x].key != b[y].key
    ensures DistinctKeys(a + b)
  {
    var ab := a + b;
    forall x, y | 0 <= x < y < |ab| ensures ab[x].key != ab[y].key {
      if y < |a| {
        assert ab[x] == a[x] && ab[y] == a[y];
      } else if x < |a| {
        assert ab[x] == a[x] && ab[y] == b[y - |a|];
      } else {
        assert ab[x] == b[x - |a|] && ab[y] == b[y - |a|];
      }
    }
  }

  /** Separate directories give every job of the batch its own key. */
  lemma {:induction false} AllJobsDistinct(batchId: string, dirs: seq<DirJob>)
    requires SeparateDirs(dirs)
    ensures DistinctKeys(AllJobs(batchId, dirs))
  {
    if dirs != [] {
      var init, d := dirs[..|dirs| - 1], dirs[|dirs| - 1];
      var a, w := AllJobs(batchId, init), WalkJobs(batchId, d.videoId, d.walk);
      forall k | 0 <= k < |init| ensures init[k] == dirs[k] { }
      AllJobsDistinct(batchId, init);
      WalkJobsDistinct(batchId, d.videoId, d.walk);
      forall x, y | 0 <= x < |a| && 0 <= y < |w| ensures a[x].key != w[y].key {
        var j, i := AllJobsKeys(batchId, init, x);
        var i' := WalkJobsKeys(batchId, d.videoId, d.walk, y);
        assert init[j].videoId != d.videoId;
        BlobKeyDir(batchId, init[j].videoId, init[j].walk[i].rel, d.videoId, d.walk[i'].rel);
      }
      DistinctKeysAppend(a, w);
    }
  }

  /** Uploading the same directories a second time, on the store the first
      run left, reports the same outcome for every directory, so the same
      counters, and leaves the store unchanged. */
  lemma UploadDirsAgain(store: Remote, batchId: string, dirs: seq<DirJob>)
    requires SeparateDirs(dirs)
    ensures var first := UploadDirs(store, batchId, dirs);
            var again := UploadDirs(first.store, batchId, dirs);
            again.store == first.store && again.outcomes == first.outcomes
            && TallyOf(again.outcomes) == TallyOf(first.outcomes)
  {
    var jobs := AllJobs(batchId, dirs);
    AllJobsDistinct(batchId, dirs);
    UploadJobsAgain(store, jobs);
    var first := UploadDirs(store, batchId, dirs);
    UploadDirsFlat(store, batchId, dirs);
    UploadDirsFlat(first.store, batchId, dirs);
    UploadDirsRerun(store, first.store, batchId, dirs);
  }

  /** The counter update at the end of the loop body of
      `upload_batch_results`. */
  method CountDir(t: Tally, o: DirOutcome) returns (t': Tally)
    ensures t' == TallyTick(t, o)
  {
    if o.files > 0 {
      t' := t.(uploaded := t.uploaded + 1, files := t.files + o.files, bytes := t.bytes + o.bytes);
    } else {
      t' := t.(failed := t.failed + 1);
    }
  }

  function SumFiles(outcomes: seq<DirOutcome>): nat {
    if outcomes == [] then 0 else SumFiles(outcomes[..|outcomes| - 1]) + outcomes[|outcomes| - 1].files
  }

  function SumDirBytes(outcomes: seq<DirOutcome>): nat {
    if outcomes == [] then 0 else SumDirBytes(outcomes[..|outcomes| - 1]) + outcomes[|outcomes| - 1].bytes
  }

  /** Every directory lands in exactly one of the two counters; each uploaded
      directory brings at least one file; the file total is every file that
      went through; and, as long as a directory with no file through carries
      no bytes, the byte total is every byte that went through, so counting
      totals only on the success branch loses nothing. */
  lemma {:induction false} TallyAccounts(outcomes: seq<DirOutcome>)
    ensures TallyOf(outcomes).uploaded + TallyOf(outcomes).failed == |outcomes|
    ensures TallyOf(outcomes).files >= TallyOf(outcomes).uploaded
    ensures TallyOf(outcomes).files == SumFiles(outcomes)
    ensures (forall k :: 0 <= k < |outcomes| && outcomes[k].files == 0 ==> outcomes[k].bytes == 0)
            ==> TallyOf(outcomes).bytes == SumDirBytes(outcomes)
  {
    if outcomes != [] {
      TallyAccounts(outcomes[..|outcomes| - 1]);
    }
  }

  /** The report `upload_batch_results` returns (and writes as JSON), with
      the total size in bytes and the success rate as an exact fraction. */
  datatype UploadStats = UploadStats(
    batchId: string,
    totalVideoDirs: nat,
    uploadedVideos: nat,
    failedVideos: nat,
    successRate: Ratio,
    totalFilesUploaded: nat,
    totalSize: nat,
    azureDestination: string)

  /** `f"{base_results_path}/batch_{batch_id}/"` */
  function Destination(batchId: string): string {
    BaseResultsPath + "/batch_" + batchId + "/"
  }

  function UploadStatsOf(batchId: string, requested: nat, t: Tally): UploadStats {
    UploadStats(batchId, requested, t.uploaded, t.failed, SuccessRate(t.uploaded, t.failed), t.files, t.bytes, Destination(batchId))
  }

  /** The directories `upload_batch_results` works through. */
  function SelectedDirs(listing: seq<Item>, limit: Option<int>, startFrom: Option<string>): seq<Item> {
    WorkList(VideoDirs(listing), ItemName, startFrom, limit)
  }

  function DirJobsOf(items: seq<Item>): (dirs: seq<DirJob>)
    ensures |dirs| == |items|
  {
    if items == [] then []
    else DirJobsOf(items[..|items| - 1]) + [DirJob(items[|items| - 1].name, items[|items| - 1].walk)]
  }

  /** The selection half of `upload_batch_results`: collect, sort, resume
      at `start_from`, cut to `limit`. */
  method SelectVideoDirs(listing: seq<Item>, limit: Option<int>, startFrom: Option<string>) returns (dirs: seq<Item>)
    ensures dirs == SelectedDirs(listing, limit, startFrom)
  {
    dirs := CollectVideoDirs(listing);
    dirs := SortBy(dirs, ItemName);
    ghost var sorted := dirs;
    if Truthy(startFrom) {
      var startIdx := FindStartIndex(dirs, ItemName, startFrom.value);
      assert startIdx == StartIndex(dirs, ItemName, startFrom.value);
      dirs := dirs[startIdx..];
    }
    assert dirs == ResumeFrom(sorted, ItemName, startFrom);
    dirs := TakeLimit(dirs, limit);
  }

  /** The counting loop shared by `upload_batch_results` and
      `upload_only_complete_videos`: upload each directory in turn and count
      it as uploaded when at least one of its files went through. */
  method UploadDirList(store: Remote, batchId: string, dirs: seq<DirJob>) returns (t: Tally, store': Remote)
    ensures var run := UploadDirs(store, batchId, dirs);
            t == TallyOf(run.outcomes) && store' == run.store
  {
    t, store' := Tally(0, 0, 0, 0), store;
    ghost var outcomes: seq<DirOutcome> := [];
    var i := 0;
    while i < |dirs|
      invariant 0 <= i <= |dirs|
      invariant UploadDirs(store, batchId, dirs[..i]) == DirsRun(outcomes, store')
      invariant t == TallyOf(outcomes)
    {
      var dir := dirs[i];
      PrefixSnoc(dirs, i);
      UploadDirsSnoc(store, batchId, dirs[..i], dir);
      var filesUploaded, filesSize, next := UploadVideoResults(store', batchId, dir.videoId, dir.walk);
      TallySnoc(outcomes, DirOutcome(filesUploaded, filesSize));
      outcomes := outcomes + [DirOutcome(filesUploaded, filesSize)];
      t := CountDir(t, DirOutcome(filesUploaded, filesSize));
      store' := next;
      i := i + 1;
    }
    assert dirs[..i] == dirs;
  }

  /** `upload_batch_results`: select the work list, upload each directory,
      count, and report. `listing` is `None` when the results directory does
      not exist. */
  method UploadBatchResults(store: Remote, batchId: string, listing: Option<seq<Item>>, limit: Option<int>, startFrom: Option<string>)
    returns (r: Result<UploadStats, UploadError>, store': Remote)
    ensures listing.None? ==> r == Err(ResultsDirNotFound) && store' == store
    ensures listing.Some? ==>
              var dirs := SelectedDirs(listing.value, limit, startFrom);
              var run := UploadDirs(store, batchId, DirJobsOf(dirs));
              r == Ok(UploadStatsOf(batchId, |dirs|, TallyOf(run.outcomes))) && store' == run.store
  {
    if listing.None? {
      return Err(ResultsDirNotFound), store;
    }
    var dirs := SelectVideoDirs(listing.value, limit, startFrom);
    var t;
    t, store' := UploadDirList(store, batchId, DirJobsOf(dirs));
    r := Ok(UploadStats(batchId, |dirs|, t.uploaded, t.failed, SuccessRate(t.uploaded, t.failed),
                        t.files, t.bytes, Destination(batchId)));
  }

  /** What a finished `upload_batch_results` run promises: every selected
      directory is counted once, as uploaded or as failed; the rate lies
      between 0 and 100 percent; and the reported size is every byte that
      went through. */
  lemma UploadBatchAccounts(store: Remote, batchId: string, listing: seq<Item>, limit: Option<int>, startFrom: Option<string>)
    ensures var dirs := SelectedDirs(listing, limit, startFrom);
            var run := UploadDirs(store, batchId, DirJobsOf(dirs));
            var stats := UploadStatsOf(batchId, |dirs|, TallyOf(run.outcomes));
            stats.uploadedVideos + stats.failedVideos == stats.totalVideoDirs
            && stats.successRate.num <= 100 * stats.successRate.den
            && stats.totalFilesUploaded >= stats.uploadedVideos
            && stats.totalSize == SumDirBytes(run.outcomes)
  {
    var dirs := SelectedDirs(listing, limit, startFrom);
    var run := UploadDirs(store, batchId, DirJobsOf(dirs));
    forall k | 0 <= k < |run.outcomes| && run.outcomes[k].files == 0
      ensures run.outcomes[k].bytes == 0
    {
      UploadDirsNoFilesNoBytes(store, batchId, DirJobsOf(dirs), k);
    }
    TallyAccounts(run.outcomes);
  }

  /** Size of the first walked entry at this relative path, if any; a
      directory counts, since `exists()` holds for it too. */
  function SizeAt(walk: seq<DirEntry>, rel: string): (r: Option<nat>)
    ensures r.None? <==> forall k :: 0 <= k < |walk| ==> walk[k].rel != rel
    ensures r.Some? ==> exists k :: 0 <= k < |walk| && walk[k].rel == rel && walk[k].size == r.value
  {
    if walk == [] then None
    else if walk[0].rel == rel then Some(walk[0].size)
    else
      var r := SizeAt(walk[1..], rel);
      assert forall k :: 1 <= k < |walk| ==> walk[k] == walk[1..][k - 1];
      r
  }

  /** A required file is present: it exists and holds at least 1000 bytes. */
  predicate Satisfies(walk: seq<DirEntry>, rel: string) {
    SizeAt(walk, rel).Some? && SizeAt(walk, rel).value >= MinBytes
  }

  function Unmet(walk: seq<DirEntry>): string -> bool {
    rel => !Satisfies(walk, rel)
  }

  /** `missing_files`: the required files that are absent or too small. */
  function MissingFiles(walk: seq<DirEntry>): seq<string> {
    Filter(RequiredFiles, Unmet(walk))
  }

  /** `missing_files` lists exactly the unmet requirements, each once, in the
      order of the required list. */
  lemma MissingFilesInOrder(walk: seq<DirEntry>)
    ensures MissingFiles(walk) ==
              (if Satisfies(walk, RequiredFiles[0]) then [] else [RequiredFiles[0]])
              + (if Satisfies(walk, RequiredFiles[1]) then [] else [RequiredFiles[1]])
              + (if Satisfies(walk, RequiredFiles[2]) then [] else [RequiredFiles[2]])
  {
    var r, u := RequiredFiles, Unmet(walk);
    assert r[..2][..1] == r[..1] && r[..1][..0] == [];
    assert Filter(r[..1], u) == if u(r[0]) then [r[0]] else [];
    assert Filter(r[..2], u) == Filter(r[..1], u) + if u(r[1]) then [r[1]] else [];
    assert Filter(r, u) == Filter(r[..2], u) + if u(r[2]) then [r[2]] else [];
  }

  /** A directory is complete exactly when every required file is present. */
  lemma NothingMissingIffComplete(walk: seq<DirEntry>)
    ensures MissingFiles(walk) == [] <==> forall rel :: rel in RequiredFiles ==> Satisfies(walk, rel)
  {
    forall rel ensures rel in MissingFiles(walk) <==> rel in RequiredFiles && !Satisfies(walk, rel) {
      FilterMembers(RequiredFiles, Unmet(walk), rel);
    }
    if MissingFiles(walk) != [] {
      assert MissingFiles(walk)[0] in MissingFiles(walk);
    }
  }

  /** The inner loop of `check_video_completeness` over the required files. */
  method FindMissingFiles(walk: seq<DirEntry>) returns (missing: seq<string>)
    ensures missing == MissingFiles(walk)
  {
    missing := [];
    var j := 0;
    while j < |RequiredFiles|
      invariant 0 <= j <= |RequiredFiles|
      invariant missing == Filter(RequiredFiles[..j], Unmet(walk))
    {
      assert RequiredFiles[..j + 1][..j] == RequiredFiles[..j];
      var size := SizeAt(walk, RequiredFiles[j]);
      if size.None? || size.value < MinBytes {
        missing := missing + [RequiredFiles[j]];
      }
      j := j + 1;
    }
    assert RequiredFiles[..j] == RequiredFiles;
  }

  datatype IncompleteVideo = IncompleteVideo(videoId: string, missingFiles: seq<string>)

  /** `video_stats`; `missing_videos` is declared but never filled. */
  datatype Completeness = Completeness(complete: seq<string>, incomplete: seq<IncompleteVideo>, missingVideos: seq<string>)

  predicate IsCompleteDir(item: Item) {
    IsVideoDir(item) && MissingFiles(item.walk) == []
  }

  predicate IsIncompleteDir(item: Item) {
    IsVideoDir(item) && MissingFiles(item.walk) != []
  }

  function Names(items: seq<Item>): (names: seq<string>)
    ensures |names| == |items|
  {
    if items == [] then [] else Names(items[..|items| - 1]) + [items[|items| - 1].name]
  }

  function Ids(videos: seq<IncompleteVideo>): (ids: seq<string>)
    ensures |ids| == |videos|
  {
    if videos == [] then [] else Ids(videos[..|videos| - 1]) + [videos[|videos| - 1].videoId]
  }

  /** `check_video_completeness`, as the lists stand after the scan of these
      entries (in the order the directory yields them). */
  function Classify(listing: seq<Item>): (c: Completeness)
    ensures |c.complete| + |c.incomplete| <= |listing|
  {
    if listing == [] then Completeness([], [], [])
    else
      var c := Classify(listing[..|listing| - 1]);
      var item := listing[|listing| - 1];
      if !IsVideoDir(item) then c
      else
        var missing := MissingFiles(item.walk);
        if missing == [] then c.(complete := c.complete + [item.name])
        else c.(incomplete := c.incomplete + [IncompleteVideo(item.name, missing)])
  }

  lemma NamesAppend(items: seq<Item>, item: Item)
    ensures Names(items + [item]) == Names(items) + [item.name]
  {
    assert (items + [item])[..|items|] == items;
  }

  lemma IdsAppend(videos: seq<IncompleteVideo>, v: IncompleteVideo)
    ensures Ids(videos + [v]) == Ids(videos) + [v.videoId]
  {
    assert (videos + [v])[..|videos|] == videos;
  }

  /** The complete list names the complete video directories, in scan order. */
  lemma {:induction false} ClassifyComplete(listing: seq<Item>)
    ensures Classify(listing).complete == Names(Filter(listing, IsCompleteDir))
  {
    if listing != [] {
      var init, item := listing[..|listing| - 1], listing[|listing| - 1];
      ClassifyComplete(init);
      if IsCompleteDir(item) {
        assert Filter(listing, IsCompleteDir) == Filter(init, IsCompleteDir) + [item];
        NamesAppend(Filter(init, IsCompleteDir), item);
      } else {
        assert Filter(listing, IsCompleteDir) == Filter(init, IsCompleteDir);
      }
    }
  }

  /** The incomplete list names the other video directories, in scan order;
      `missing_videos` stays empty. */
  lemma {:induction false} ClassifyIncomplete(listing: seq<Item>)
    ensures Ids(Classify(listing).incomplete) == Names(Filter(listing, IsIncompleteDir))
    ensures Classify(listing).missingVideos == []
  {
    if listing != [] {
      var init, item := listing[..|listing| - 1], listing[|listing| - 1];
      ClassifyIncomplete(init);
      var c, inc := Classify(init), Filter(init, IsIncompleteDir);
      if IsIncompleteDir(item) {
        var v := IncompleteVideo(item.name, MissingFiles(item.walk));
        assert Classify(listing).incomplete == c.incomplete + [v];
        assert Filter(listing, IsIncompleteDir) == inc + [item];
        NamesAppend(inc, item);
        IdsAppend(c.incomplete, v);
      } else {
        assert Classify(listing).incomplete == c.incomplete;
        assert Filter(listing, IsIncompleteDir) == inc;
      }
    }
  }

  /** Each entry of the incomplete list carries its own directory's
      `missing_files`, which is never empty. */
  lemma {:induction false} ClassifyMissingFiles(listing: seq<Item>)
    ensures |Classify(listing).incomplete| == |Filter(listing, IsIncompleteDir)|
    ensures forall k :: 0 <= k < |Classify(listing).incomplete| ==>
              Classify(listing).incomplete[k].missingFiles == MissingFiles(Filter(listing, IsIncompleteDir)[k].walk)
              && Classify(listing).incomplete[k].missingFiles != []
  {
    if listing != [] {
      var init, item := listing[..|listing| - 1], listing[|listing| - 1];
      ClassifyMissingFiles(init);
      var c, inc := Classify(init).incomplete, Filter(init, IsIncompleteDir);
      if IsIncompleteDir(item) {
        var v := IncompleteVideo(item.name, MissingFiles(item.walk));
        assert Classify(listing).incomplete == c + [v];
        assert Filter(listing, IsIncompleteDir) == inc + [item];
        forall k | 0 <= k < |c| + 1
          ensures (c + [v])[k].missingFiles == MissingFiles((inc + [item])[k].walk) && (c + [v])[k].missingFiles != []
        {
          if k < |c| {
            assert (c + [v])[k] == c[k] && (inc + [item])[k] == inc[k];
          }
        }
      } else {
        assert Classify(listing).incomplete == c;
        assert Filter(listing, IsIncompleteDir) == inc;
      }
    }
  }

  /** Every scanned video directory lands in exactly one of the two lists. */
  lemma {:induction false} ClassifyPartitions(listing: seq<Item>)
    ensures multiset(Classify(listing).complete) + multiset(Ids(Classify(listing).incomplete))
            == multiset(Names(Filter(listing, IsVideoDir)))
  {
    if listing != [] {
      var init, item := listing[..|listing| - 1], listing[|listing| - 1];
      ClassifyPartitions(init);
      var c, dirs := Classify(init), Filter(init, IsVideoDir);
      if IsVideoDir(item) {
        assert Filter(listing, IsVideoDir) == dirs + [item];
        NamesAppend(dirs, item);
        ClassifyPartitionsStep(c, Classify(listing), item);
      } else {
        assert Filter(listing, IsVideoDir) == dirs;
        assert Classify(listing) == c;
      }
    }
  }

  /** One video directory added to the scan adds its name to one list. */
  lemma ClassifyPartitionsStep(c: Completeness, c': Completeness, item: Item)
    requires var missing := MissingFiles(item.walk);
             c' == if missing == [] then c.(complete := c.complete + [item.name])
                   else c.(incomplete := c.incomplete + [IncompleteVideo(item.name, missing)])
    ensures multiset(c'.complete) + multiset(Ids(c'.incomplete))
            == multiset(c.complete) + multiset(Ids(c.incomplete)) + multiset{item.name}
  {
    if MissingFiles(item.walk) != [] {
      IdsAppend(c.incomplete, IncompleteVideo(item.name, MissingFiles(item.walk)));
    }
  }

  /** `check_video_completeness`: scan the directory, test each video
      directory against the required files, sort it into one list. */
  method CheckVideoCompleteness(listing: seq<Item>) returns (c: Completeness)
    ensures c == Classify(listing)
  {
    c := Completeness([], [], []);
    var i := 0;
    while i < |listing|
      invariant 0 <= i <= |listing|
      invariant c == Classify(listing[..i])
    {
      assert listing[..i + 1][..i] == listing[..i] && listing[..i + 1][i] == listing[i];
      var item := listing[i];
      if item.isDir && StartsWith(item.name, VideoDirPrefix) {
        var missing := FindMissingFiles(item.walk);
        if missing == [] {
          c := c.(complete := c.complete + [item.name]);
        } else {
          c := c.(incomplete := c.incomplete + [IncompleteVideo(item.name, missing)]);
        }
      }
      i := i + 1;
    }
    assert listing[..i] == listing;
  }

  /** What a walk of `results_path / video_id` meets: the first entry of
      the listing with that name (none when there is no such entry). */
  function WalkOf(listing: seq<Item>, name: string): seq<DirEntry> {
    if listing == [] then []
    else if listing[0].name == name then listing[0].walk
    else WalkOf(listing[1..], name)
  }

  /** Names in a directory listing are unique. */
  predicate UniqueNames(listing: seq<Item>) {
    forall i, j :: 0 <= i < j < |listing| ==> listing[i].name != listing[j].name
  }

  lemma {:induction false} WalkOfEntry(listing: seq<Item>, k: nat)
    requires UniqueNames(listing) && k < |listing|
    ensures WalkOf(listing, listing[k].name) == listing[k].walk
  {
    if k > 0 {
      assert listing[1..][k - 1] == listing[k];
      WalkOfEntry(listing[1..], k - 1);
    }
  }

  function CompleteJobs(listing: seq<Item>, names: seq<string>): (dirs: seq<DirJob>)
    ensures |dirs| == |names|
  {
    if names == [] then []
    else CompleteJobs(listing, names[..|names| - 1]) + [DirJob(names[|names| - 1], WalkOf(listing, names[|names| - 1]))]
  }

  /** The report of `upload_only_complete_videos`. */
  datatype CompleteOnlyStats = CompleteOnlyStats(
    batchId: string,
    completeVideosFound: nat,
    incompleteVideosSkipped: nat,
    uploadedVideos: nat,
    failedVideos: nat,
    successRate: Ratio,
    totalFilesUploaded: nat,
    totalSize: nat)

  /** The names `upload_only_complete_videos` uploads: the complete ones, cut
      to `limit` when it is truthy. */
  function ChosenComplete(listing: seq<Item>, limit: Option<int>): seq<string> {
    TakeLimit(Classify(listing).complete, limit)
  }

  /** `upload_only_complete_videos`. A results directory that does not exist
      is an empty listing, since the completeness scan then finds nothing. */
  method UploadOnlyCompleteVideos(store: Remote, batchId: string, listing: seq<Item>, limit: Option<int>)
    returns (stats: CompleteOnlyStats, store': Remote)
    ensures var c := Classify(listing);
            var run := UploadDirs(store, batchId, CompleteJobs(listing, ChosenComplete(listing, limit)));
            var t := TallyOf(run.outcomes);
            stats == CompleteOnlyStats(batchId, |c.complete|, |c.incomplete|, t.uploaded, t.failed,
                                       SuccessRate(t.uploaded, t.failed), t.files, t.bytes)
            && store' == run.store
  {
    var c := CheckVideoCompleteness(listing);
    var chosen := c.complete;
    if limit.Some? && limit.value != 0 {
      chosen := TakeLimit(chosen, limit);
    }
    var t;
    t, store' := UploadDirList(store, batchId, CompleteJobs(listing, chosen));
    stats := CompleteOnlyStats(batchId, |c.complete|, |c.incomplete|, t.uploaded, t.failed,
                               SuccessRate(t.uploaded, t.failed), t.files, t.bytes);
  }

  /** Only complete directories are uploaded: in a listing of unique names,
      every directory `upload_only_complete_videos` walks has all required
      files present, and it uploads no more than the complete ones found. */
  lemma UploadsOnlyComplete(listing: seq<Item>, limit: Option<int>)
    requires UniqueNames(listing)
    ensures |ChosenComplete(listing, limit)| <= |Classify(listing).complete|
    ensures forall d :: d in CompleteJobs(listing, ChosenComplete(listing, limit)) ==> MissingFiles(d.walk) == []
  {
    var chosen := ChosenComplete(listing, limit);
    var done := Filter(listing, IsCompleteDir);
    ClassifyComplete(listing);
    forall d | d in CompleteJobs(listing, chosen) ensures MissingFiles(d.walk) == [] {
      var k := CompleteJobsMember(listing, chosen, d);
      assert chosen[k] in Classify(listing).complete by {
        assert chosen == Classify(listing).complete[..|chosen|];
      }
      var m := NamesMember(done, chosen[k]);
      FilterMembers(listing, IsCompleteDir, done[m]);
      var i :| 0 <= i < |listing| && listing[i] == done[m];
      WalkOfEntry(listing, i);
    }
  }

  lemma {:induction false} CompleteJobsMember(listing: seq<Item>, names: seq<string>, d: DirJob) returns (k: nat)
    requires d in CompleteJobs(listing, names)
    ensures k < |names| && d == DirJob(names[k], WalkOf(listing, names[k]))
  {
    var init := names[..|names| - 1];
    if d in CompleteJobs(listing, init) {
      k := CompleteJobsMember(listing, init, d);
    } else {
      k := |names| - 1;
    }
  }

  lemma {:induction false} NamesMember(items: seq<Item>, name: string) returns (k: nat)
    requires name in Names(items)
    ensures k < |items| && items[k].name == name
  {
    var init := items[..|items| - 1];
    if name in Names(init) {
      k := NamesMember(init, name);
    } else {
      k := |items| - 1;
    }
  }
}
