/** `scripts/azure_download.py`: downloading the video/image pairs a batch
    mapping names, and listing the batch configurations on disk. */
module AzureDownload {
  import opened Wrappers
  import opened Text
  import opened Sorting
  import opened Selection
  import opened Report
  import opened Environment

  const VideoSourcePath := "ruijian-research/raw"
  const ImageSourcePath := "ruijian-research/celeba-hq"
  const ProcessedSuffix := ".0_processed.mp4"
  const BatchPrefix := "batch_"

  /** `load_batch_config` failures: `FileNotFoundError` when the mapping file
      is absent, `ValueError` when it has no `mapping` key. */
  datatype ConfigError = ConfigNotFound | MissingMapping

  /** The document at `batch_<id>/video_image_mapping.json`, if that file
      exists: the first directory entry with that name holding a mapping
      file. */
  function FindConfig(configs: seq<ConfigEntry>, name: string): (r: Option<BatchDoc>)
    ensures r.None? <==> forall k :: 0 <= k < |configs| ==>
              !(configs[k].name == name && configs[k].isDir && configs[k].mappingFile.Some?)
    ensures r.Some? ==> exists k :: (0 <= k < |configs| && configs[k].name == name && configs[k].isDir
                                     && configs[k].mappingFile == r)
  {
    if configs == [] then None
    else if configs[0].name == name && configs[0].isDir && configs[0].mappingFile.Some? then configs[0].mappingFile
    else
      assert forall k :: 1 <= k < |configs| ==> configs[k] == configs[1..][k - 1];
      FindConfig(configs[1..], name)
  }

  function ConfigName(batchId: string): string {
    BatchPrefix + batchId
  }

  /** `load_batch_config`: the batch's document, which is guaranteed to hold
      a mapping. */
  function LoadBatchConfig(configs: seq<ConfigEntry>, batchId: string): (r: Result<BatchDoc, ConfigError>)
    ensures r == Err(ConfigNotFound) <==> FindConfig(configs, ConfigName(batchId)).None?
    ensures r == Err(MissingMapping) <==>
              FindConfig(configs, ConfigName(batchId)).Some? && FindConfig(configs, ConfigName(batchId)).value.mapping.None?
    ensures r.Ok? ==> r.value.mapping.Some? && FindConfig(configs, ConfigName(batchId)) == Some(r.value)
  {
    match FindConfig(configs, ConfigName(batchId))
    case None => Err(ConfigNotFound)
    case Some(doc) => if doc.mapping.None? then Err(MissingMapping) else Ok(doc)
  }

  /** `video_file.replace('.0_processed.mp4', '')`: never longer than the
      file name, and the name itself when it holds no such marker. */
  function VideoId(videoFile: string): (id: string)
    ensures |id| <= |videoFile|
    ensures !Contains(videoFile, ProcessedSuffix) ==> id == videoFile
  {
    RemoveAll(videoFile, ProcessedSuffix)
  }

  /** For the usual file names, a stem with no `.` followed by the suffix,
      the id is the stem. */
  lemma VideoIdOfProcessedFile(stem: string)
    requires forall i :: 0 <= i < |stem| ==> stem[i] != '.'
    ensures VideoId(stem + ProcessedSuffix) == stem
  {
    RemoveTrailingMarker(stem, ProcessedSuffix);
  }

  /** `f"{video_source_path}/{video_file}"` */
  function VideoKey(videoFile: string): string {
    VideoSourcePath + "/" + videoFile
  }

  /** `f"{image_source_path}/{image_file}"` */
  function ImageKey(imageFile: string): string {
    ImageSourcePath + "/" + imageFile
  }

  /** `Path(output_dir) / f"batch_{batch_id}_data"` */
  function OutputPath(outputDir: string, batchId: string): string {
    JoinPath(outputDir, "batch_" + batchId + "_data")
  }

  /** `_download_file`: with a local file of the blob's size in place, skip;
      when the size check cannot be made (no such blob, any probe error) or
      the sizes differ, download. Opening the file for writing empties it,
      so a failed download leaves an empty file behind. */
  function DownloadFile(store: Remote, disk: Disk, key: string, path: string): (s: DiskStep)
    ensures s.result.Skipped? <==> path in disk && ProbeBlob(store, key) == Found(disk[path])
    ensures s.result.Transferred? <==> !s.result.Skipped? && key in store.blobs && key !in store.transferFaults
    ensures s.result.Ok() ==> (key in store.blobs && path in s.disk
                               && s.result.size == s.disk[path] == store.blobs[key])
    ensures s.result.Skipped? ==> s.disk == disk
    ensures !s.result.Skipped? ==> s.disk == disk[path := s.result.Bytes()]
  {
    if path in disk && ProbeBlob(store, key) == Found(disk[path]) then DiskStep(Skipped(disk[path]), disk)
    else if key in store.blobs && key !in store.transferFaults then
      DiskStep(Transferred(store.blobs[key]), disk[path := store.blobs[key]])
    else DiskStep(Failed, disk[path := 0])
  }

  /** Downloading a file again right after it came through skips it (as long
      as its size can be read) and leaves the disk as it is. */
  lemma DownloadFileAgain(store: Remote, disk: Disk, key: string, path: string)
    requires DownloadFile(store, disk, key, path).result.Ok() && key !in store.probeFaults
    ensures var first := DownloadFile(store, disk, key, path);
            var again := DownloadFile(store, first.disk, key, path);
            again.result == Skipped(first.result.size) && again.disk == first.disk
  {
  }

  /** What the loop body reports for one pair. */
  datatype PairOutcome = PairOutcome(video: FileResult, image: FileResult) {
    /** `video_downloaded and image_downloaded` */
    predicate Ok() { video.Ok() && image.Ok() }
    /** `video_size + image_size` */
    function Bytes(): nat { video.Bytes() + image.Bytes() }
  }

  datatype PairStep = PairStep(outcome: PairOutcome, disk: Disk)

  /** One pass of the `download_batch` loop body: both files are fetched,
      into `<output_path>/<video_id>/`, the image even when the video
      failed. */
  function DownloadPair(store: Remote, disk: Disk, outputPath: string, pair: Pair): (s: PairStep)
    ensures s.outcome.Ok() ==> VideoKey(pair.video) in store.blobs && ImageKey(pair.image) in store.blobs
  {
    var v := DownloadFile(store, disk, VideoKey(pair.video), VideoPath(outputPath, pair));
    var i := DownloadFile(store, v.disk, ImageKey(pair.image), ImagePath(outputPath, pair));
    PairStep(PairOutcome(v.result, i.result), i.disk)
  }

  /** `video_output_dir / video_file` with `video_output_dir = output_path / video_id` */
  function VideoPath(outputPath: string, pair: Pair): string {
    JoinPath(JoinPath(outputPath, VideoId(pair.video)), pair.video)
  }

  /** `video_output_dir / image_file` */
  function ImagePath(outputPath: string, pair: Pair): string {
    JoinPath(JoinPath(outputPath, VideoId(pair.video)), pair.image)
  }

  /** A pair that came through has both blobs on disk under the video's
      directory (the video's file unless the image overwrote it) and counts
      the two blob sizes. */
  lemma DownloadPairWrites(store: Remote, disk: Disk, outputPath: string, pair: Pair)
    ensures var s := DownloadPair(store, disk, outputPath, pair);
            var videoPath, imagePath := VideoPath(outputPath, pair), ImagePath(outputPath, pair);
            s.outcome.Ok() ==>
              s.outcome.Bytes() == store.blobs[VideoKey(pair.video)] + store.blobs[ImageKey(pair.image)]
              && imagePath in s.disk && s.disk[imagePath] == store.blobs[ImageKey(pair.image)]
              && (videoPath != imagePath ==> videoPath in s.disk && s.disk[videoPath] == store.blobs[VideoKey(pair.video)])
  {
  }

  datatype PairsRun = PairsRun(outcomes: seq<PairOutcome>, disk: Disk)

  /** The `download_batch` loop over the selected pairs, in order, each
      pass starting from the disk the previous one left. */
  function DownloadPairs(store: Remote, disk: Disk, outputPath: string, pairs: seq<Pair>): (run: PairsRun)
    ensures |run.outcomes| == |pairs|
  {
    if pairs == [] then PairsRun([], disk)
    else
      var prev := DownloadPairs(store, disk, outputPath, pairs[..|pairs| - 1]);
      var step := DownloadPair(store, prev.disk, outputPath, pairs[|pairs| - 1]);
      PairsRun(prev.outcomes + [step.outcome], step.disk)
  }

  lemma DownloadPairsSnoc(store: Remote, disk: Disk, outputPath: string, pairs: seq<Pair>, p: Pair)
    ensures var prev := DownloadPairs(store, disk, outputPath, pairs);
            var step := DownloadPair(store, prev.disk, outputPath, p);
            DownloadPairs(store, disk, outputPath, pairs + [p]) == PairsRun(prev.outcomes + [step.outcome], step.disk)
  {
    assert (pairs + [p])[..|pairs|] == pairs;
  }

  /** One turn of the counting loop, stated on the prefix it has seen. */
  lemma DownloadPairsStep(store: Remote, disk: Disk, outputPath: string, pairs: seq<Pair>, i: nat, run: PairsRun)
    requires i < |pairs| && DownloadPairs(store, disk, outputPath, pairs[..i]) == run
    ensures var step := DownloadPair(store, run.disk, outputPath, pairs[i]);
            DownloadPairs(store, disk, outputPath, pairs[..i + 1]) == PairsRun(run.outcomes + [step.outcome], step.disk)
  {
    PrefixSnoc(pairs, i);
    DownloadPairsSnoc(store, disk, outputPath, pairs[..i], pairs[i]);
  }

  /** A pair outside the two paths it writes keeps its file. */
  lemma DownloadPairKeeps(store: Remote, disk: Disk, outputPath: string, pair: Pair, path: string)
    requires path in disk && path != VideoPath(outputPath, pair) && path != ImagePath(outputPath, pair)
    ensures var s := DownloadPair(store, disk, outputPath, pair);
            path in s.disk && s.disk[path] == disk[path]
  {
  }

  /** A pair whose paths are not those of earlier pairs leaves their files
      holding their blobs. */
  lemma DownloadPairKeepsAll(store: Remote, disk: Disk, outputPath: string, done: seq<Pair>, pair: Pair)
    requires PairsOnDisk(store, disk, outputPath, done)
    requires forall k :: 0 <= k < |done| ==>
               Apart(outputPath, done[k], pair)
    ensures PairsOnDisk(store, DownloadPair(store, disk, outputPath, pair).disk, outputPath, done)
  {
    forall k | 0 <= k < |done|
      ensures HoldsBlob(store, DownloadPair(store, disk, outputPath, pair).disk, VideoKey(done[k].video), VideoPath(outputPath, done[k]))
      ensures HoldsBlob(store, DownloadPair(store, disk, outputPath, pair).disk, ImageKey(done[k].image), ImagePath(outputPath, done[k]))
    {
      DownloadPairKeeps(store, disk, outputPath, pair, VideoPath(outputPath, done[k]));
      DownloadPairKeeps(store, disk, outputPath, pair, ImagePath(outputPath, done[k]));
    }
  }

  /** Neither local path of one pair is a local path of the other. */
  predicate Apart(outputPath: string, a: Pair, b: Pair) {
    VideoPath(outputPath, a) != VideoPath(outputPath, b) && VideoPath(outputPath, a) != ImagePath(outputPath, b)
    && ImagePath(outputPath, a) != VideoPath(outputPath, b) && ImagePath(outputPath, a) != ImagePath(outputPath, b)
  }

  /** No two downloads of the run write the same local path. */
  predicate PathsDistinct(outputPath: string, pairs: seq<Pair>) {
    (forall k :: 0 <= k < |pairs| ==> VideoPath(outputPath, pairs[k]) != ImagePath(outputPath, pairs[k]))
    && (forall j, k :: 0 <= j < k < |pairs| ==>
          Apart(outputPath, pairs[j], pairs[k]))
  }

  /** No size probe of the run's blobs raises. */
  predicate ProbesSucceed(store: Remote, pairs: seq<Pair>) {
    forall k :: 0 <= k < |pairs| ==>
      VideoKey(pairs[k].video) !in store.probeFaults && ImageKey(pairs[k].image) !in store.probeFaults
  }

  /** The local file at `path` holds the blob `key`, byte count for byte
      count. */
  predicate HoldsBlob(store: Remote, disk: Disk, key: string, path: string) {
    key in store.blobs && path in disk && disk[path] == store.blobs[key]
  }

  /** Both files of every pair hold their blobs. */
  predicate PairsOnDisk(store: Remote, disk: Disk, outputPath: string, pairs: seq<Pair>) {
    forall k :: 0 <= k < |pairs| ==>
      HoldsBlob(store, disk, VideoKey(pairs[k].video), VideoPath(outputPath, pairs[k]))
      && HoldsBlob(store, disk, ImageKey(pairs[k].image), ImagePath(outputPath, pairs[k]))
  }

  /** A pair that came through, with two distinct paths, leaves both files
      holding their blobs and reports each blob's size. */
  lemma DownloadPairOnDisk(store: Remote, disk: Disk, outputPath: string, pair: Pair)
    requires DownloadPair(store, disk, outputPath, pair).outcome.Ok()
    requires VideoPath(outputPath, pair) != ImagePath(outputPath, pair)
    ensures var s := DownloadPair(store, disk, outputPath, pair);
            HoldsBlob(store, s.disk, VideoKey(pair.video), VideoPath(outputPath, pair))
            && HoldsBlob(store, s.disk, ImageKey(pair.image), ImagePath(outputPath, pair))
            && s.outcome.video.Bytes() == store.blobs[VideoKey(pair.video)]
            && s.outcome.image.Bytes() == store.blobs[ImageKey(pair.image)]
  {
  }

  /** A pair whose files hold their blobs, with sizes that can be read, is
      skipped whole and leaves the disk as it is. */
  lemma DownloadPairSkips(store: Remote, disk: Disk, outputPath: string, pair: Pair)
    requires HoldsBlob(store, disk, VideoKey(pair.video), VideoPath(outputPath, pair))
    requires HoldsBlob(store, disk, ImageKey(pair.image), ImagePath(outputPath, pair))
    requires VideoKey(pair.video) !in store.probeFaults && ImageKey(pair.image) !in store.probeFaults
    ensures DownloadPair(store, disk, outputPath, pair)
            == PairStep(PairOutcome(Skipped(store.blobs[VideoKey(pair.video)]), Skipped(store.blobs[ImageKey(pair.image)])),
                        disk)
  {
  }

  /** Every pair came through. */
  predicate AllOk(outcomes: seq<PairOutcome>) {
    forall k :: 0 <= k < |outcomes| ==> outcomes[k].Ok()
  }

  lemma AllOkSnoc(outcomes: seq<PairOutcome>, o: PairOutcome)
    requires AllOk(outcomes + [o])
    ensures AllOk(outcomes) && o.Ok()
  {
    assert (outcomes + [o])[|outcomes|] == o;
    forall k | 0 <= k < |outcomes| ensures outcomes[k] == (outcomes + [o])[k] { }
  }

  /** Each pair's report gives the sizes of its two blobs. */
  predicate ReportsBlobs(store: Remote, pairs: seq<Pair>, outcomes: seq<PairOutcome>) {
    |outcomes| == |pairs|
    && forall k :: 0 <= k < |pairs| ==>
         VideoKey(pairs[k].video) in store.blobs && ImageKey(pairs[k].image) in store.blobs
         && outcomes[k].video.Bytes() == store.blobs[VideoKey(pairs[k].video)]
         && outcomes[k].image.Bytes() == store.blobs[ImageKey(pairs[k].image)]
  }

  /** What distinct paths say about the last pair and the ones before it. */
  lemma PathsDistinctLast(outputPath: string, pairs: seq<Pair>)
    requires pairs != [] && PathsDistinct(outputPath, pairs)
    ensures var init, p := pairs[..|pairs| - 1], pairs[|pairs| - 1];
            PathsDistinct(outputPath, init)
            && VideoPath(outputPath, p) != ImagePath(outputPath, p)
            && forall k :: 0 <= k < |init| ==> Apart(outputPath, init[k], p)
  {
    var init := pairs[..|pairs| - 1];
    forall k | 0 <= k < |init| ensures init[k] == pairs[k] { }
  }

  /** One more pair that came through keeps the earlier files and reports
      in place, and adds its own. */
  lemma DownloadPairsOnDiskStep(store: Remote, disk: Disk, outputPath: string, pairs: seq<Pair>,
                                outcomes: seq<PairOutcome>)
    requires pairs != []
    requires var init, p := pairs[..|pairs| - 1], pairs[|pairs| - 1];
             PairsOnDisk(store, disk, outputPath, init) && ReportsBlobs(store, init, outcomes)
             && DownloadPair(store, disk, outputPath, p).outcome.Ok()
             && VideoPath(outputPath, p) != ImagePath(outputPath, p)
             && forall k :: 0 <= k < |init| ==> Apart(outputPath, init[k], p)
    ensures var step := DownloadPair(store, disk, outputPath, pairs[|pairs| - 1]);
            PairsOnDisk(store, step.disk, outputPath, pairs)
            && ReportsBlobs(store, pairs, outcomes + [step.outcome])
  {
    var init, p := pairs[..|pairs| - 1], pairs[|pairs| - 1];
    var step := DownloadPair(store, disk, outputPath, p);
    DownloadPairOnDisk(store, disk, outputPath, p);
    DownloadPairKeepsAll(store, disk, outputPath, init, p);
    PairsOnDiskLast(store, step.disk, outputPath, pairs);
    ReportsBlobsLast(store, pairs, outcomes, step.outcome);
  }

  lemma PairsOnDiskLast(store: Remote, disk: Disk, outputPath: string, pairs: seq<Pair>)
    requires pairs != [] && PairsOnDisk(store, disk, outputPath, pairs[..|pairs| - 1])
    requires var p := pairs[|pairs| - 1];
             HoldsBlob(store, disk, VideoKey(p.video), VideoPath(outputPath, p))
             && HoldsBlob(store, disk, ImageKey(p.image), ImagePath(outputPath, p))
    ensures PairsOnDisk(store, disk, outputPath, pairs)
  {
    var init := pairs[..|pairs| - 1];
    forall k | 0 <= k < |init| ensures pairs[k] == init[k] { }
  }

  lemma ReportsBlobsLast(store: Remote, pairs: seq<Pair>, outcomes: seq<PairOutcome>, o: PairOutcome)
    requires pairs != [] && ReportsBlobs(store, pairs[..|pairs| - 1], outcomes)
    requires var p := pairs[|pairs| - 1];
             VideoKey(p.video) in store.blobs && ImageKey(p.image) in store.blobs
             && o.video.Bytes() == store.blobs[VideoKey(p.video)] && o.image.Bytes() == store.blobs[ImageKey(p.image)]
    ensures ReportsBlobs(store, pairs, outcomes + [o])
  {
    var init, outs := pairs[..|pairs| - 1], outcomes + [o];
    assert outs[|init|] == o;
    forall k | 0 <= k < |init| ensures pairs[k] == init[k] && outs[k] == outcomes[k] { }
  }

  /** After a run in which every pair came through and no path was written
      twice, every file holds its blob, and each download reported that
      blob's size. */
  lemma {:induction false} DownloadPairsOnDisk(store: Remote, disk: Disk, outputPath: string, pairs: seq<Pair>)
    requires PathsDistinct(outputPath, pairs) && AllOk(DownloadPairs(store, disk, outputPath, pairs).outcomes)
    ensures var run := DownloadPairs(store, disk, outputPath, pairs);
            PairsOnDisk(store, run.disk, outputPath, pairs) && ReportsBlobs(store, pairs, run.outcomes)
  {
    if pairs != [] {
      var init, p := pairs[..|pairs| - 1], pairs[|pairs| - 1];
      PathsDistinctLast(outputPath, pairs);
      var prev := DownloadPairs(store, disk, outputPath, init);
      AllOkSnoc(prev.outcomes, DownloadPair(store, prev.disk, outputPath, p).outcome);
      DownloadPairsOnDisk(store, disk, outputPath, init);
      DownloadPairsOnDiskStep(store, prev.disk, outputPath, pairs, prev.outcomes);
    }
  }

  /** The report of a run that skipped every file: each pair skipped whole,
      with its blobs' sizes. */
  predicate SkipReports(store: Remote, pairs: seq<Pair>, outcomes: seq<PairOutcome>) {
    |outcomes| == |pairs|
    && forall k :: 0 <= k < |pairs| ==>
         VideoKey(pairs[k].video) in store.blobs && ImageKey(pairs[k].image) in store.blobs
         && outcomes[k] == PairOutcome(Skipped(store.blobs[VideoKey(pairs[k].video)]),
                                       Skipped(store.blobs[ImageKey(pairs[k].image)]))
  }

  /** What the rerun hypotheses say about the last pair and the ones before
      it. */
  lemma OnDiskLast(store: Remote, disk: Disk, outputPath: string, pairs: seq<Pair>)
    requires pairs != [] && PairsOnDisk(store, disk, outputPath, pairs) && ProbesSucceed(store, pairs)
    ensures var init, p := pairs[..|pairs| - 1], pairs[|pairs| - 1];
            PairsOnDisk(store, disk, outputPath, init) && ProbesSucceed(store, init)
            && HoldsBlob(store, disk, VideoKey(p.video), VideoPath(outputPath, p))
            && HoldsBlob(store, disk, ImageKey(p.image), ImagePath(outputPath, p))
            && VideoKey(p.video) !in store.probeFaults && ImageKey(p.image) !in store.probeFaults
  {
    var init := pairs[..|pairs| - 1];
    forall k | 0 <= k < |init| ensures init[k] == pairs[k] { }
  }

  lemma SkipReportsLast(store: Remote, pairs: seq<Pair>, outcomes: seq<PairOutcome>, o: PairOutcome)
    requires pairs != [] && SkipReports(store, pairs[..|pairs| - 1], outcomes)
    requires var p := pairs[|pairs| - 1];
             VideoKey(p.video) in store.blobs && ImageKey(p.image) in store.blobs
             && o == PairOutcome(Skipped(store.blobs[VideoKey(p.video)]), Skipped(store.blobs[ImageKey(p.image)]))
    ensures SkipReports(store, pairs, outcomes + [o])
  {
    var init, outs := pairs[..|pairs| - 1], outcomes + [o];
    assert outs[|init|] == o;
    forall k | 0 <= k < |init| ensures pairs[k] == init[k] && outs[k] == outcomes[k] { }
  }

  /** With every file holding its blob and every probe answering, a run
      skips every file and leaves the disk as it is. */
  lemma {:induction false} DownloadPairsSkip(store: Remote, disk: Disk, outputPath: string, pairs: seq<Pair>)
    requires PairsOnDisk(store, disk, outputPath, pairs) && ProbesSucceed(store, pairs)
    ensures var run := DownloadPairs(store, disk, outputPath, pairs);
            run.disk == disk && SkipReports(store, pairs, run.outcomes)
  {
    if pairs != [] {
      var init, p := pairs[..|pairs| - 1], pairs[|pairs| - 1];
      OnDiskLast(store, disk, outputPath, pairs);
      DownloadPairsSkip(store, disk, outputPath, init);
      DownloadPairSkips(store, disk, outputPath, p);
      SkipReportsLast(store, pairs, DownloadPairs(store, disk, outputPath, init).outcomes,
                      DownloadPair(store, disk, outputPath, p).outcome);
    }
  }

  /** Two pair reports a rerun relates: each file as `RerunOf` says. */
  predicate PairRerunOf(first: PairOutcome, again: PairOutcome) {
    RerunOf(first.video, again.video) && RerunOf(first.image, again.image)
  }

  /** A rerun that reports every pair the same way counts the same. */
  lemma {:induction false} CountsRerun(first: seq<PairOutcome>, again: seq<PairOutcome>)
    requires |first| == |again| && forall k :: 0 <= k < |first| ==> PairRerunOf(first[k], again[k])
    ensures CountsOf(again) == CountsOf(first)
  {
    if first != [] {
      CountsRerun(first[..|first| - 1], again[..|again| - 1]);
    }
  }

  /** Running `download_batch` again over the same pairs, right after a run
      in which every pair came through, wrote no path twice and can read
      every blob's size, skips every file with the same sizes, counts the
      same, and leaves the disk unchanged. */
  lemma DownloadPairsAgain(store: Remote, disk: Disk, outputPath: string, pairs: seq<Pair>)
    requires AllOk(DownloadPairs(store, disk, outputPath, pairs).outcomes)
    requires PathsDistinct(outputPath, pairs) && ProbesSucceed(store, pairs)
    ensures var first := DownloadPairs(store, disk, outputPath, pairs);
            var again := DownloadPairs(store, first.disk, outputPath, pairs);
            (forall k :: 0 <= k < |pairs| ==> PairRerunOf(first.outcomes[k], again.outcomes[k]))
            && CountsOf(again.outcomes) == CountsOf(first.outcomes)
            && again.disk == first.disk
  {
    var first := DownloadPairs(store, disk, outputPath, pairs);
    DownloadPairsOnDisk(store, disk, outputPath, pairs);
    DownloadPairsSkip(store, first.disk, outputPath, pairs);
    var again := DownloadPairs(store, first.disk, outputPath, pairs);
    forall k | 0 <= k < |pairs|
      ensures PairRerunOf(first.outcomes[k], again.outcomes[k])
    {
      var f, a := first.outcomes[k], again.outcomes[k];
      assert f.Ok() && a.video.Skipped? && a.image.Skipped?;
      assert a.video.Bytes() == f.video.Bytes() && a.image.Bytes() == f.image.Bytes();
    }
    CountsRerun(first.outcomes, again.outcomes);
  }

  /** The counters of the loop: `downloaded_count`, `failed_count`,
      `total_size`. */
  datatype Counts = Counts(downloaded: nat, failed: nat, bytes: nat)

  /** The counters after one more pair. */
  function Tick(c: Counts, o: PairOutcome): Counts {
    if o.Ok() then Counts(c.downloaded + 1, c.failed, c.bytes + o.Bytes())
    else Counts(c.downloaded, c.failed + 1, c.bytes)
  }

  /** The counters after the loop has seen these outcomes. */
  function CountsOf(outcomes: seq<PairOutcome>): Counts {
    if outcomes == [] then Counts(0, 0, 0)
    else Tick(CountsOf(outcomes[..|outcomes| - 1]), outcomes[|outcomes| - 1])
  }

  lemma CountsSnoc(outcomes: seq<PairOutcome>, o: PairOutcome)
    ensures CountsOf(outcomes + [o]) == Tick(CountsOf(outcomes), o)
  {
    assert (outcomes + [o])[..|outcomes|] == outcomes;
  }

  /** Every byte any download reported, whether or not its pair succeeded. */
  function AllBytes(outcomes: seq<PairOutcome>): nat {
    if outcomes == [] then 0 else AllBytes(outcomes[..|outcomes| - 1]) + outcomes[|outcomes| - 1].Bytes()
  }

  /** Every pair lands in exactly one counter; the size grows only with a
      pair that came through whole, so it never exceeds what was fetched, is
      zero when no pair came through, and is everything fetched when every
      pair came through. */
  lemma {:induction false} CountsAccount(outcomes: seq<PairOutcome>)
    ensures CountsOf(outcomes).downloaded + CountsOf(outcomes).failed == |outcomes|
    ensures CountsOf(outcomes).bytes <= AllBytes(outcomes)
    ensures CountsOf(outcomes).downloaded == 0 ==> CountsOf(outcomes).bytes == 0
    ensures (forall k :: 0 <= k < |outcomes| ==> outcomes[k].Ok()) ==> CountsOf(outcomes).bytes == AllBytes(outcomes)
  {
    if outcomes != [] {
      CountsAccount(outcomes[..|outcomes| - 1]);
    }
  }

  /** The report `download_batch` returns (and writes as JSON), with the
      total size in bytes and the success rate as an exact fraction. */
  datatype DownloadStats = DownloadStats(
    batchId: string,
    totalRequested: nat,
    downloaded: nat,
    failed: nat,
    successRate: Ratio,
    totalSize: nat,
    outputDirectory: string)

  function DownloadStatsOf(batchId: string, outputDir: string, requested: nat, c: Counts): DownloadStats {
    DownloadStats(batchId, requested, c.downloaded, c.failed, SuccessRate(c.downloaded, c.failed), c.bytes,
                  OutputPath(outputDir, batchId))
  }

  function PairVideo(p: Pair): string {
    p.video
  }

  /** The pairs `download_batch` works through: the mapping's items in
      insertion order, resumed at `start_from`, cut to `limit`. */
  function SelectedPairs(mapping: seq<Pair>, limit: Option<int>, startFrom: Option<string>): seq<Pair> {
    WorkList(mapping, PairVideo, startFrom, limit)
  }

  /** The selection half of `download_batch`. */
  method SelectPairs(mapping: seq<Pair>, limit: Option<int>, startFrom: Option<string>) returns (pairs: seq<Pair>)
    ensures pairs == SelectedPairs(mapping, limit, startFrom)
  {
    pairs := mapping;
    if Truthy(startFrom) {
      var startIdx := FindStartIndex(pairs, PairVideo, startFrom.value);
      assert startIdx == StartIndex(mapping, PairVideo, startFrom.value);
      pairs := pairs[startIdx..];
    }
    assert pairs == ResumeFrom(mapping, PairVideo, startFrom);
    pairs := TakeLimit(pairs, limit);
  }

  /** The counter update at the end of the loop body: a pair counts as
      downloaded, with both sizes, only when both files came through. */
  method CountPair(c: Counts, o: PairOutcome) returns (c': Counts)
    ensures c' == Tick(c, o)
  {
    if o.video.Ok() && o.image.Ok() {
      c' := c.(downloaded := c.downloaded + 1, bytes := c.bytes + o.video.size + o.image.size);
    } else {
      c' := c.(failed := c.failed + 1);
    }
  }

  /** One pass of the counting loop of `download_batch`: download the pair
      at `i` and bump `downloaded_count` and `total_size`, or
      `failed_count`. `outcomes` is what the loop has seen so far. */
  method DownloadAndCount(store: Remote, disk: Disk, outputPath: string, pairs: seq<Pair>, i: nat,
                          c: Counts, diskNow: Disk, ghost outcomes: seq<PairOutcome>)
    returns (c': Counts, disk': Disk, ghost outcomes': seq<PairOutcome>)
    requires i < |pairs| && DownloadPairs(store, disk, outputPath, pairs[..i]) == PairsRun(outcomes, diskNow)
    requires c == CountsOf(outcomes)
    ensures DownloadPairs(store, disk, outputPath, pairs[..i + 1]) == PairsRun(outcomes', disk')
    ensures c' == CountsOf(outcomes')
  {
    var step := DownloadPair(store, diskNow, outputPath, pairs[i]);
    DownloadPairsStep(store, disk, outputPath, pairs, i, PairsRun(outcomes, diskNow));
    CountsSnoc(outcomes, step.outcome);
    outcomes' := outcomes + [step.outcome];
    c' := CountPair(c, step.outcome);
    disk' := step.disk;
  }

  /** The counting loop of `download_batch`. */
  method DownloadPairList(store: Remote, disk: Disk, outputPath: string, pairs: seq<Pair>) returns (c: Counts, disk': Disk)
    ensures var run := DownloadPairs(store, disk, outputPath, pairs);
            c == CountsOf(run.outcomes) && disk' == run.disk
  {
    c, disk' := Counts(0, 0, 0), disk;
    ghost var outcomes: seq<PairOutcome> := [];
    var i := 0;
    while i < |pairs|
      invariant 0 <= i <= |pairs|
      invariant DownloadPairs(store, disk, outputPath, pairs[..i]) == PairsRun(outcomes, disk')
      invariant c == CountsOf(outcomes)
    {
      c, disk', outcomes := DownloadAndCount(store, disk, outputPath, pairs, i, c, disk', outcomes);
      i := i + 1;
    }
    assert pairs[..i] == pairs;
  }

  /** `download_batch`: load the batch configuration, select the pairs,
      download each, count, and report. */
  method DownloadBatch(store: Remote, disk: Disk, configs: seq<ConfigEntry>, batchId: string, outputDir: string,
                       limit: Option<int>, startFrom: Option<string>)
    returns (r: Result<DownloadStats, ConfigError>, disk': Disk)
    ensures LoadBatchConfig(configs, batchId).Err? ==>
              r == Err(LoadBatchConfig(configs, batchId).error) && disk' == disk
    ensures LoadBatchConfig(configs, batchId).Ok? ==>
              var pairs := SelectedPairs(LoadBatchConfig(configs, batchId).value.mapping.value, limit, startFrom);
              var run := DownloadPairs(store, disk, OutputPath(outputDir, batchId), pairs);
              r == Ok(DownloadStatsOf(batchId, outputDir, |pairs|, CountsOf(run.outcomes))) && disk' == run.disk
  {
    var config := LoadBatchConfig(configs, batchId);
    if config.Err? {
      return Err(config.error), disk;
    }
    var outputPath := OutputPath(outputDir, batchId);
    var pairs := SelectPairs(config.value.mapping.value, limit, startFrom);
    var c;
    c, disk' := DownloadPairList(store, disk, outputPath, pairs);
    r := Ok(DownloadStats(batchId, |pairs|, c.downloaded, c.failed, SuccessRate(c.downloaded, c.failed), c.bytes,
                          outputPath));
  }

  /** What a finished `download_batch` run promises: every selected pair is
      counted once, the rate lies between 0 and 100 percent and is 0 when
      nothing was requested, and the size never exceeds what was fetched. */
  lemma DownloadBatchAccounts(store: Remote, disk: Disk, batchId: string, outputDir: string,
                              mapping: seq<Pair>, limit: Option<int>, startFrom: Option<string>)
    ensures var pairs := SelectedPairs(mapping, limit, startFrom);
            var run := DownloadPairs(store, disk, OutputPath(outputDir, batchId), pairs);
            var stats := DownloadStatsOf(batchId, outputDir, |pairs|, CountsOf(run.outcomes));
            stats.downloaded + stats.failed == stats.totalRequested
            && stats.successRate.num <= 100 * stats.successRate.den
            && (stats.totalRequested == 0 ==> stats.successRate.num == 0)
            && stats.totalSize <= AllBytes(run.outcomes)
  {
    var pairs := SelectedPairs(mapping, limit, startFrom);
    CountsAccount(DownloadPairs(store, disk, OutputPath(outputDir, batchId), pairs).outcomes);
  }

  /** Identity key: `sorted()` on strings. */
  function Self(s: string): string {
    s
  }

  /** The entries `list_available_batches` considers: directories matching
      `batch_*`. */
  predicate IsBatchDir(e: ConfigEntry) {
    StartsWith(e.name, BatchPrefix) && e.isDir
  }

  /** `batch_dir.name.replace("batch_", "")`, which removes every
      occurrence, not only the leading one. */
  function ListedId(e: ConfigEntry): string {
    RemoveAll(e.name, BatchPrefix)
  }

  /** `batches` before sorting, in scan order: at most one id per entry. */
  function ListedIds(configs: seq<ConfigEntry>): (ids: seq<string>)
    ensures |ids| <= |configs|
  {
    if configs == [] then []
    else
      var e := configs[|configs| - 1];
      ListedIds(configs[..|configs| - 1]) + (if IsBatchDir(e) && e.mappingFile.Some? then [ListedId(e)] else [])
  }

  /** `list_available_batches`. */
  method ListAvailableBatches(configs: seq<ConfigEntry>) returns (ids: seq<string>)
    ensures ids == SortBy(ListedIds(configs), Self)
  {
    var batches := [];
    var i := 0;
    while i < |configs|
      invariant 0 <= i <= |configs|
      invariant batches == ListedIds(configs[..i])
    {
      assert configs[..i + 1][..i] == configs[..i];
      var e := configs[i];
      if StartsWith(e.name, BatchPrefix) && e.isDir {
        if e.mappingFile.Some? {
          batches := batches + [RemoveAll(e.name, BatchPrefix)];
        }
      }
      i := i + 1;
    }
    assert configs[..i] == configs;
    ids := SortBy(batches, Self);
  }

  /** The scan takes `e` and lists it as `id`. */
  predicate Yields(e: ConfigEntry, id: string) {
    IsBatchDir(e) && e.mappingFile.Some? && ListedId(e) == id
  }

  /** An id is listed exactly when some `batch_*` directory holding a
      mapping file yields it. */
  lemma {:induction false} ListedIdsMembers(configs: seq<ConfigEntry>, id: string)
    ensures id in ListedIds(configs) <==> exists k :: 0 <= k < |configs| && Yields(configs[k], id)
  {
    if configs != [] {
      var init := configs[..|configs| - 1];
      ListedIdsMembers(init, id);
      if id in ListedIds(init) {
        var k :| 0 <= k < |init| && Yields(init[k], id);
        assert configs[k] == init[k];
      }
      if exists k :: 0 <= k < |configs| && Yields(configs[k], id) {
        var k :| 0 <= k < |configs| && Yields(configs[k], id);
        if k < |init| {
          assert init[k] == configs[k];
        }
      }
    }
  }

  /** A `batch_*` directory whose name holds `batch_` a second time, e.g.
      `batch_batch_7`, is listed as `7`, and loading batch `7` then looks in
      `batch_7`, which need not exist. */
  lemma ListedIdMayNotLoad()
    ensures var configs := [ConfigEntry("batch_batch_7", true, Some(BatchDoc(Some([]), None)))];
            ListedIds(configs) == ["7"] && LoadBatchConfig(configs, "7") == Err(ConfigNotFound)
  {
    var name := "batch_batch_7";
    assert StartsWith(name, BatchPrefix);
    assert name[6..] == "batch_7";
    assert StartsWith("batch_7", BatchPrefix);
    assert "batch_7"[6..] == "7";
    assert !StartsWith("7", BatchPrefix);
    assert "7"[1..] == [];
    assert RemoveAll("7", BatchPrefix) == "7";
    var configs := [ConfigEntry(name, true, Some(BatchDoc(Some([]), None)))];
    assert configs[..0] == [];
    assert ConfigName("7") == "batch_7" != name;
  }

  /** The id the listing evidently means: the name with the leading
      `batch_` removed, and only that. */
  function BatchIdOf(e: ConfigEntry): (id: string)
    requires IsBatchDir(e)
    ensures ConfigName(id) == e.name
  {
    e.name[|BatchPrefix|..]
  }

  function LoadableIds(configs: seq<ConfigEntry>): seq<string> {
    if configs == [] then []
    else
      var e := configs[|configs| - 1];
      LoadableIds(configs[..|configs| - 1]) + (if IsBatchDir(e) && e.mappingFile.Some? then [BatchIdOf(e)] else [])
  }

  /** With the leading prefix removed instead, every listed id names a
      configuration that `load_batch_config` finds. */
  lemma {:induction false} LoadableIdsLoad(configs: seq<ConfigEntry>, id: string)
    requires id in LoadableIds(configs)
    ensures LoadBatchConfig(configs, id) != Err(ConfigNotFound)
  {
    var init := configs[..|configs| - 1];
    if id in LoadableIds(init) {
      LoadableIdsLoad(init, id);
      var k :| 0 <= k < |init| && init[k].name == ConfigName(id) && init[k].isDir && init[k].mappingFile.Some?;
      assert configs[k] == init[k];
    } else {
      assert configs[|configs| - 1].name == ConfigName(id);
    }
  }
}
