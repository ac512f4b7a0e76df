/** `scripts/azure_batch_downloader.py`: fetching the first video/image pair
    of a batch mapping file into a local directory. */
module AzureBatchDownloader {
  import opened Wrappers
  import opened Environment

  const RawVideoPath := "ruijian-research/raw"
  const CelebaPath := "ruijian-research/celeba-hq"
  const ContainerName := "videos"

  /** What `download_file` reports, and the disk after it. */
  datatype DirectStep = DirectStep(ok: bool, disk: Disk)

  /** `download_file`: create the parent directory, open the local file for
      writing, write the blob into it. `os.makedirs("")` raises, so a local
      path with no directory part fails before anything is written; a
      missing blob or a transfer error fails after the file was emptied. No
      exception escapes. */
  function DownloadFile(store: Remote, disk: Disk, key: string, localPath: string): (s: DirectStep)
    ensures s.ok <==> HasDirPart(localPath) && key in store.blobs && key !in store.transferFaults
    ensures s.ok ==> s.disk == disk[localPath := store.blobs[key]]
    ensures !s.ok && HasDirPart(localPath) ==> s.disk == disk[localPath := 0]
    ensures !HasDirPart(localPath) ==> s.disk == disk
  {
    if !HasDirPart(localPath) then DirectStep(false, disk)
    else if key in store.blobs && key !in store.transferFaults then DirectStep(true, disk[localPath := store.blobs[key]])
    else DirectStep(false, disk[localPath := 0])
  }

  /** The blob key of a video: `f"{raw_video_path}/{video_name}"`. */
  function VideoBlob(videoName: string): string {
    RawVideoPath + "/" + videoName
  }

  /** The blob key of an image: `f"{celeba_path}/{image_name}"`. */
  function ImageBlob(imageName: string): string {
    CelebaPath + "/" + imageName
  }

  /** `(video_success, image_success, video_path, image_path)` and the disk. */
  datatype PairDownload = PairDownload(videoOk: bool, imageOk: bool, videoPath: string, imagePath: string, disk: Disk)

  /** `download_video_image_pair`: both files go into `output_dir` under
      their own names, the image even when the video failed. */
  function DownloadVideoImagePair(store: Remote, disk: Disk, videoName: string, imageName: string, outputDir: string)
    : (p: PairDownload)
    ensures p.videoPath == JoinPath(outputDir, videoName) && p.imagePath == JoinPath(outputDir, imageName)
    ensures p.videoOk <==> HasDirPart(p.videoPath) && VideoBlob(videoName) in store.blobs
                           && VideoBlob(videoName) !in store.transferFaults
    ensures p.imageOk <==> HasDirPart(p.imagePath) && ImageBlob(imageName) in store.blobs
                           && ImageBlob(imageName) !in store.transferFaults
    ensures p.imageOk ==> p.imagePath in p.disk && p.disk[p.imagePath] == store.blobs[ImageBlob(imageName)]
    ensures p.videoOk && p.videoPath != p.imagePath ==>
              p.videoPath in p.disk && p.disk[p.videoPath] == store.blobs[VideoBlob(videoName)]
  {
    var videoPath, imagePath := JoinPath(outputDir, videoName), JoinPath(outputDir, imageName);
    var v := DownloadFile(store, disk, VideoBlob(videoName), videoPath);
    var i := DownloadFile(store, v.disk, ImageBlob(imageName), imagePath);
    PairDownload(v.ok, i.ok, videoPath, imagePath, i.disk)
  }

  /** `mapping[key]` on the mapping's items: the value of the first item
      with that key. */
  function Lookup(mapping: seq<Pair>, video: string): (r: Option<string>)
    ensures r.None? <==> forall k :: 0 <= k < |mapping| ==> mapping[k].video != video
  {
    if mapping == [] then None
    else if mapping[0].video == video then Some(mapping[0].image)
    else
      assert forall k :: 1 <= k < |mapping| ==> mapping[k] == mapping[1..][k - 1];
      Lookup(mapping[1..], video)
  }

  /** The first pair: the first key in insertion order and the value the
      mapping gives it, which is the first item's own value. */
  lemma FirstPairIsFirstItem(mapping: seq<Pair>)
    requires mapping != []
    ensures Lookup(mapping, mapping[0].video) == Some(mapping[0].image)
  {
  }

  /** Failures of `download_first_pair_from_batch`: the mapping file cannot
      be opened (`FileNotFoundError`), has no `mapping` key (`KeyError`), or
      its mapping is empty (`ValueError`). */
  datatype PairError = MappingFileNotFound | NoMappingKey | EmptyMapping

  /** The report `download_first_pair_from_batch` returns, without its
      `downloaded_at` time stamp. */
  datatype PairReport = PairReport(
    batchFile: string,
    batchNumber: Option<string>,
    outputDirectory: string,
    videoName: string,
    imageName: string,
    videoPath: string,
    imagePath: string,
    videoSuccess: bool,
    imageSuccess: bool,
    bothSuccessful: bool,
    videoBlob: string,
    imageBlob: string,
    container: string)

  datatype FirstPairRun = FirstPairRun(report: Result<PairReport, PairError>, disk: Disk)

  /** `download_first_pair_from_batch`. `doc` is the parsed mapping file, or
      `None` when it does not exist. */
  function DownloadFirstPairFromBatch(store: Remote, disk: Disk, doc: Option<BatchDoc>, batchFile: string, outputDir: string)
    : (run: FirstPairRun)
    ensures doc.None? ==> run.report == Err(MappingFileNotFound)
    ensures doc.Some? && doc.value.mapping.None? ==> run.report == Err(NoMappingKey)
    ensures doc.Some? && doc.value.mapping == Some([]) ==> run.report == Err(EmptyMapping)
    ensures run.report.Err? ==> run.disk == disk
    ensures run.report.Ok? ==>
              var r := run.report.value;
              doc.Some? && doc.value.mapping.Some? && doc.value.mapping.value != []
              && r.videoName == doc.value.mapping.value[0].video
              && r.imageName == doc.value.mapping.value[0].image
              && Lookup(doc.value.mapping.value, r.videoName) == Some(r.imageName)
              && r.batchNumber == doc.value.batchNumber
              && r.batchFile == batchFile && r.outputDirectory == outputDir
              && r.bothSuccessful == (r.videoSuccess && r.imageSuccess)
              && r.videoPath == JoinPath(outputDir, r.videoName) && r.imagePath == JoinPath(outputDir, r.imageName)
              && r.videoBlob == VideoBlob(r.videoName) && r.imageBlob == ImageBlob(r.imageName)
              && r.container == ContainerName
              && (r.videoSuccess && r.videoPath != r.imagePath ==>
                    r.videoBlob in store.blobs && r.videoPath in run.disk
                    && run.disk[r.videoPath] == store.blobs[r.videoBlob])
              && (r.imageSuccess ==>
                    r.imageBlob in store.blobs && r.imagePath in run.disk
                    && run.disk[r.imagePath] == store.blobs[r.imageBlob])
  {
    if doc.None? then FirstPairRun(Err(MappingFileNotFound), disk)
    else if doc.value.mapping.None? then FirstPairRun(Err(NoMappingKey), disk)
    else if doc.value.mapping.value == [] then FirstPairRun(Err(EmptyMapping), disk)
    else
      var mapping := doc.value.mapping.value;
      var video := mapping[0].video;
      var image := mapping[0].image;
      var p := DownloadVideoImagePair(store, disk, video, image, outputDir);
      FirstPairRun(Ok(PairReport(batchFile, doc.value.batchNumber, outputDir, video, image, p.videoPath, p.imagePath,
                                 p.videoOk, p.imageOk, p.videoOk && p.imageOk,
                                 RawVideoPath + "/" + video, CelebaPath + "/" + image, ContainerName)),
                   p.disk)
  }

  /** With `output_dir` the current directory, the local paths have no
      directory part, so both downloads fail even when both blobs are there
      and nothing is written. */
  lemma CurrentDirPairFails(store: Remote, disk: Disk, mapping: seq<Pair>, batchFile: string)
    requires mapping != [] && '/' !in mapping[0].video && '/' !in mapping[0].image
    ensures var run := DownloadFirstPairFromBatch(store, disk, Some(BatchDoc(Some(mapping), None)), batchFile, ".");
            run.report.Ok? && !run.report.value.videoSuccess && !run.report.value.imageSuccess && run.disk == disk
  {
  }

  /** The download `download_file` evidently means: a relative local path
      with no directory part needs no directory created, so the outcome
      depends on the blob alone. */
  function DownloadFileIntended(store: Remote, disk: Disk, key: string, localPath: string): (s: DirectStep)
    ensures s.ok <==> key in store.blobs && key !in store.transferFaults
    ensures s.ok ==> s.disk == disk[localPath := store.blobs[key]]
    ensures !s.ok ==> s.disk == disk[localPath := 0]
  {
    if key in store.blobs && key !in store.transferFaults then DirectStep(true, disk[localPath := store.blobs[key]])
    else DirectStep(false, disk[localPath := 0])
  }

  /** The intended download agrees with `download_file` whenever the path
      has a directory part, and only then can they differ. */
  lemma IntendedAgreesWithDirectoryPart(store: Remote, disk: Disk, key: string, localPath: string)
    ensures HasDirPart(localPath) ==> DownloadFileIntended(store, disk, key, localPath) == DownloadFile(store, disk, key, localPath)
    ensures DownloadFile(store, disk, key, localPath).ok ==> DownloadFileIntended(store, disk, key, localPath).ok
  {
  }
}
