# azure_sync in Dafny

A verified model of the logic inside three Python scripts that move
machine-learning data to and from an Azure Blob Storage container:

- `scripts/azure_upload.py` uploads the per-video result directories of a
  processing batch (`00000500…` directories) under
  `ruijian-research/batch_results/batch_<id>/<video_id>/…`. It skips blobs
  that already hold a file of the same size. It can first sort directories
  into complete and incomplete ones, judged against three required output
  files of at least 1000 bytes, and upload only the complete ones.
- `scripts/azure_download.py` reads a batch's `video_image_mapping.json`.
  It downloads each video from `ruijian-research/raw/` and its reference
  image from `ruijian-research/celeba-hq/` into
  `<output>/batch_<id>_data/<video_id>/`, skipping files already present
  with the blob's size. It can also list the batch configurations on disk.
- `scripts/azure_batch_downloader.py` fetches the first pair of a mapping
  file into a local directory. It resolves the storage connection string
  from an argument, then the environment, then a `.env` file.

The blob store, the local disk, directory listings and mapping documents
are values:

- `Environment.Remote`: blob sizes by key, plus the keys whose property
  probe or transfer raises.
- `Environment.Disk`: file sizes by path.
- `Environment.Item` and `Environment.DirEntry`: a directory listing and
  the recursive walk of each entry.
- `Environment.BatchDoc` and `Environment.ConfigEntry`: a parsed mapping
  file and the batch-configuration directory.

The loops of the scripts are Dafny methods. Each method is proved equal to
a specification function that folds over the work list one element at a
time. The accounting, selection, completeness and round-trip properties
are proved as lemmas about those functions.

Modules:

- `Wrappers`: `Option`, `Result`, Python truthiness of an optional string.
- `Text`: Python `str` behaviour. It covers `startswith`, `in`, `replace`
  with `''`, `strip()` with Python's whitespace set, `strip(c)` (which drops
  every leading and trailing copy), and `split(c, 1)[1]`.
- `Sorting`: code-point order on strings and `sorted`/`list.sort`.
- `Selection`: the filter, `start_from` and `limit` rules the upload and
  download loops share.
- `Report`: the success rate.
- `Environment`: the oracles.
- `Credentials`: the connection-string lookup and `.env` line parsing that
  all three scripts share.
- `AzureUpload`, `AzureDownload`, `AzureBatchDownloader`: one module per
  script.

An unmatched `start_from` keeps the whole list, because `start_idx` stays
0 when the search loop finds no entry (`Selection.ResumeFrom`).

## Model

| member | source | states |
|---|---|---|
| Selection.FindStartIndex | scripts/azure_upload.py:55-61 | the resume index is the first entry whose name contains `start_from`; with no such entry it is 0 |
| Selection.ResumeNoLater | scripts/azure_upload.py:55-61 | resuming never passes an entry whose name holds `start_from` at any position: the resume index is at or before it and names a matching entry |
| Selection.ResumeFrom | scripts/azure_upload.py:55-61 | the result is a suffix of the list; it is the whole list when `start_from` is falsy or matches nothing, and otherwise starts at the first matching entry, with no match before it |
| Selection.TakeLimit | scripts/azure_upload.py:64-65 | a prefix of the list; the whole list for a `None` or 0 limit, `min(n, limit)` entries for a positive limit, and `n + limit` (at least 0) entries for a negative one, as Python slicing gives |
| Selection.WorkList | scripts/azure_download.py:68-80 | the pairs to process form one contiguous window of the input that starts at the resume point |
| Selection.Filter | scripts/azure_upload.py:48-50 | the result is no longer than the input, and every element of it passes the test |
| Selection.FilterAppend | scripts/azure_upload.py:48-50 | filtering keeps the input order: the survivors of `a + b` are those of `a` followed by those of `b` |
| Selection.FilterCons | scripts/azure_upload.py:48-50 | a first entry that passes the test comes first in the result, and one that fails is dropped |
| Selection.FilterMembers | scripts/azure_upload.py:48-50 | an entry is kept exactly when it was in the input and passes the test |
| Sorting.SortBy | scripts/azure_upload.py:52 | the sorted list is in ascending name order and is a permutation of its input |
| Sorting.LexLeTotal | scripts/azure_upload.py:52 | any two names are comparable |
| Sorting.LexLeTransitive | scripts/azure_upload.py:52 | the name order is transitive |
| Sorting.LexLeAntisymmetric | scripts/azure_upload.py:52 | two names each at most the other are equal |
| Sorting.SortedPermutationUnique | scripts/azure_upload.py:52 | with distinct names, only one ordered arrangement exists, so the work list does not depend on the order of the directory listing |
| Report.SuccessRate | scripts/azure_upload.py:101 | `100*ok/max(1, ok+failed)` as an exact fraction: between 0 and 100, 0 exactly when nothing succeeded, 100 exactly when something succeeded and nothing failed |
| Text.RemoveAll | scripts/azure_download.py:92 | `replace(pat, '')` never lengthens the text, leaves it unchanged when `pat` does not occur, and a leading occurrence shortens the result by at least `|pat|` |
| Text.RemoveTrailingMarker | scripts/azure_download.py:92 | removing a marker that ends a name, when the name's characters never begin the marker, gives back exactly the part before it |
| Text.ContainsAt | scripts/azure_upload.py:58 | an occurrence at any position makes `sub in s` true |
| Text.TrimLeft | scripts/azure_batch_downloader.py:33 | the result is a suffix not starting with a dropped character, and every character removed is one to drop |
| Text.TrimRight | scripts/azure_batch_downloader.py:33 | the result is a prefix not ending with a dropped character, and every character removed is one to drop |
| Text.StripWhere | scripts/azure_batch_downloader.py:33 | `strip` never lengthens its input, and its result neither starts nor ends with a dropped character |
| Text.StripWhereSlice | scripts/azure_batch_downloader.py:33 | what `strip` keeps is a slice of the input, and only dropped characters are cut on either side of it |
| Text.StripWhereIdempotent | scripts/azure_batch_downloader.py:33 | stripping a second time changes nothing |
| Text.FirstIndexOf | scripts/azure_batch_downloader.py:33 | the index of the first occurrence of the character, or none when it does not occur |
| Text.AfterFirst | scripts/azure_batch_downloader.py:33 | `split(c, 1)[1]` fails exactly when `c` does not occur, and otherwise is the text after the first `c` |
| Credentials.PrefixedLineIsNotBlank | scripts/azure_batch_downloader.py:32 | a line that starts with the variable name also passes the `line.strip()` test |
| Credentials.IsCredentialLine | scripts/azure_batch_downloader.py:32 | a line is taken exactly when it starts with the variable name; the blank-line test never decides |
| Credentials.ParseCredentialLine | scripts/azure_batch_downloader.py:33 | parsing fails (Python's `IndexError`) exactly when the line has no `=`; a parsed value neither starts nor ends with `'` |
| Credentials.StripWhereExact | scripts/azure_batch_downloader.py:33 | stripping text made of dropped characters, a core with no dropped character at either end, then dropped characters, yields the core |
| Credentials.AfterName | scripts/azure_batch_downloader.py:33 | for a line written as `NAME=rest`, the text after the first `=` is `rest` |
| Credentials.UnquoteExact | scripts/azure_batch_downloader.py:33 | stripping a quote character from a value wrapped in that quote gives the value back |
| Credentials.UnwrapValue | scripts/azure_batch_downloader.py:33 | the value part of a written line, with its line break, strips back to the value |
| Credentials.ParseWrittenLine | scripts/azure_batch_downloader.py:33 | round trip: the line `NAME=value` or `NAME="value"`, with its newline, parses back to `value` whenever the value neither starts nor ends with a quote (and, unquoted, with whitespace), even if it holds `=` |
| Credentials.EnvFileValue | scripts/azure_batch_downloader.py:30-34 | the file gives no value exactly when none of its lines is a credential line |
| Credentials.EnvFileValueFirst | scripts/azure_batch_downloader.py:31-34 | the value, or the parse error, comes from the first credential line, whatever the later lines hold |
| Credentials.ScanEnvFile | scripts/azure_batch_downloader.py:31-34 | the line loop stops at the first credential line and yields what `EnvFileValue` specifies |
| Credentials.ResolveConnectionString | scripts/azure_batch_downloader.py:25-36 | precedence: a truthy argument wins, then a truthy environment variable, then the `.env` file; when the file exists, a malformed credential line in it propagates its parse error (`IndexError`) and a file with no truthy value is `ValueError`, as is a missing file; a resolved string is never empty |
| Credentials.LoadConnectionString | scripts/azure_upload.py:305-318 | the command-line lookup (no environment-variable step) and the `__init__` lookup compute exactly `ResolveConnectionString` |
| Environment.ProbeBlob | scripts/azure_upload.py:163-171 | `get_blob_properties` raises on a probe fault, reports the blob's size when the blob exists, and reports not-found otherwise |
| Environment.CountOk | scripts/azure_upload.py:148-150 | the number of successful results never exceeds the number of results (what the count means is stated by `Environment.NoSuccessNoBytes` and `Environment.RerunTotals`) |
| Environment.NoSuccessNoBytes | scripts/azure_upload.py:147-150 | results with no success carry no bytes and are all failures |
| Environment.RerunTotals | scripts/azure_upload.py:148-150 | results that rerun each other report the same count and total size |
| AzureUpload.CollectVideoDirs | scripts/azure_upload.py:47-50 | the `iterdir` loop keeps exactly the directories whose name starts with `00000500`, in listing order |
| AzureUpload.VideoDirsSelected | scripts/azure_upload.py:47-52 | the sorted work list holds every `00000500…` directory of the listing and nothing else, in name order |
| AzureUpload.BlobKey | scripts/azure_upload.py:136-145 | every key lies under `<base>/batch_<id>/<video_id>/` and is one character longer than the base and the relative path together |
| AzureUpload.BlobKeyInjective | scripts/azure_upload.py:136-145 | within one video directory, blob keys `<base>/batch_<id>/<video_id>/<rel>` determine the relative path |
| AzureUpload.WalkJobs | scripts/azure_upload.py:142-145 | the walk yields at most one upload job per walked entry |
| AzureUpload.WalkJobsCount | scripts/azure_upload.py:142-147 | the walk yields exactly one upload job per file it meets |
| AzureUpload.WalkJobsFiles | scripts/azure_upload.py:142-147 | every walked file is uploaded under the key `<base>/batch_<id>/<video_id>/<rel>` with its own local size |
| AzureUpload.UploadFile | scripts/azure_upload.py:154-182 | skip exactly when the remote size equals the local size; upload when not found or the sizes differ; fail on any other probe error or upload error; a success reports the local size; only an upload changes the store, by setting that blob |
| AzureUpload.UploadJobs | scripts/azure_upload.py:142-150 | one result per upload job |
| AzureUpload.UploadJobsSizes | scripts/azure_upload.py:147-150 | every success reports its own file's local size |
| AzureUpload.UploadJobsOtherKey | scripts/azure_upload.py:142-150 | a blob no job touches can be set before or after the run with the same outcome |
| AzureUpload.UploadJobsAgain | scripts/azure_upload.py:142-150 | running the same jobs, with distinct keys, again skips every file that went through, fails every failure again, and leaves the store unchanged |
| AzureUpload.WalkJobsKeys | scripts/azure_upload.py:142-145 | every job carries the key of one walked entry |
| AzureUpload.WalkJobsDistinct | scripts/azure_upload.py:142-145 | distinct relative paths give distinct blob keys |
| AzureUpload.UploadVideoAgain | scripts/azure_upload.py:134-152 | uploading a directory a second time reports the same file count and size and leaves the store unchanged |
| AzureUpload.CountFile | scripts/azure_upload.py:147-150 | a file adds one to the count and its size to the total only when its upload succeeded or was skipped |
| AzureUpload.UploadEntry | scripts/azure_upload.py:142-150 | one pass over a walked entry extends the counters and the store by exactly one more step of the specification run |
| AzureUpload.UploadVideoResults | scripts/azure_upload.py:134-152 | the file count and total size are those of the successful uploads only, and the new store is the store after every file of the walk |
| AzureUpload.UploadDirs | scripts/azure_upload.py:77-97 | one outcome per directory |
| AzureUpload.BlobKeyDir | scripts/azure_upload.py:136-145 | for video directory names without `/`, equal blob keys come from the same directory |
| AzureUpload.UploadJobsAppend | scripts/azure_upload.py:142-150 | running two job lists one after the other is running their concatenation: results concatenate and the store threads through |
| AzureUpload.UploadDirsFlat | scripts/azure_upload.py:77-97 | the store after the directory loop is the store after running every directory's walk jobs in order |
| AzureUpload.UploadDirsRerun | scripts/azure_upload.py:77-97 | two directory loops whose flattened file results rerun each other report the same per-directory outcomes |
| AzureUpload.AllJobsDistinct | scripts/azure_upload.py:77-97 | directories with distinct names without `/`, each walk meeting each relative path once, give upload jobs with pairwise distinct blob keys across the whole batch |
| AzureUpload.UploadDirsAgain | scripts/azure_upload.py:77-97 | uploading the same batch a second time leaves the store unchanged and reports the same per-directory outcomes and the same tally |
| AzureUpload.UploadDirsNoFilesNoBytes | scripts/azure_upload.py:84-93 | a directory with no file through carries no bytes |
| AzureUpload.TallyAccounts | scripts/azure_upload.py:77-97 | every directory lands in exactly one of the two counters; the file total is every file through; each uploaded directory brings at least one file; no byte is lost by adding totals only on success |
| AzureUpload.SelectVideoDirs | scripts/azure_upload.py:46-65 | the work list is the sorted video directories resumed at `start_from` and cut to `limit` |
| AzureUpload.CountDir | scripts/azure_upload.py:86-93 | a directory counts as uploaded, adding its files and bytes, exactly when at least one file went through; otherwise it counts as failed |
| AzureUpload.UploadDirList | scripts/azure_upload.py:77-97 | the counters equal the tally of the directory outcomes, and the store is the store after every directory |
| AzureUpload.UploadBatchResults | scripts/azure_upload.py:39-131 | `FileNotFoundError` without a results directory; otherwise the report of the selected directories, with its destination `<base>/batch_<id>/` and the store after the uploads |
| AzureUpload.UploadBatchAccounts | scripts/azure_upload.py:99-114 | `uploaded_videos + failed_videos == total_video_dirs`; the rate is between 0 and 100 percent; files at least uploaded directories; the size is every byte uploaded |
| AzureUpload.SizeAt | scripts/azure_upload.py:206-207 | a path is absent exactly when no walked entry has it, and otherwise has the size of a walked entry with that path |
| AzureUpload.MissingFilesInOrder | scripts/azure_upload.py:203-208 | `missing_files` lists each unmet required file once, in the order of the required list |
| AzureUpload.NothingMissingIffComplete | scripts/azure_upload.py:205-210 | a directory is complete exactly when every required file exists with at least 1000 bytes |
| AzureUpload.FindMissingFiles | scripts/azure_upload.py:203-208 | the inner loop builds exactly `missing_files` |
| AzureUpload.Classify | scripts/azure_upload.py:200-216 | the scan yields at most one complete or incomplete entry per listed entry (the exact split is in the rows below) |
| AzureUpload.ClassifyComplete | scripts/azure_upload.py:200-211 | the complete list names the complete video directories, in scan order |
| AzureUpload.ClassifyIncomplete | scripts/azure_upload.py:212-216 | the incomplete list names the other video directories in scan order; `missing_videos` stays empty |
| AzureUpload.ClassifyMissingFiles | scripts/azure_upload.py:212-216 | each incomplete entry carries its own directory's `missing_files`, which is never empty |
| AzureUpload.ClassifyPartitions | scripts/azure_upload.py:200-216 | complete and incomplete together are exactly the scanned video directories, each once |
| AzureUpload.CheckVideoCompleteness | scripts/azure_upload.py:184-224 | the scan produces exactly the classification |
| AzureUpload.WalkOfEntry | scripts/azure_upload.py:247 | `results_path / video_id` finds the directory of that name |
| AzureUpload.UploadOnlyCompleteVideos | scripts/azure_upload.py:226-284 | the report counts the complete and incomplete directories found, then tallies the upload of the complete ones cut to `limit` |
| AzureUpload.UploadsOnlyComplete | scripts/azure_upload.py:230-252 | every directory uploaded has all required files, and no more directories are uploaded than were found complete |
| AzureDownload.FindConfig | scripts/azure_download.py:42-45 | the mapping file is found exactly when a `batch_<id>` directory holding it exists |
| AzureDownload.LoadBatchConfig | scripts/azure_download.py:40-54 | `FileNotFoundError` exactly when the mapping file is absent; `ValueError` exactly when it lacks `mapping`; otherwise a document that holds a mapping |
| AzureDownload.VideoId | scripts/azure_download.py:92 | the id is never longer than the video file name, and is the name itself when it holds no `.0_processed.mp4` |
| AzureDownload.VideoIdOfProcessedFile | scripts/azure_download.py:92 | the id of `<stem>.0_processed.mp4` is `<stem>`, for a stem without `.` |
| AzureDownload.DownloadFile | scripts/azure_download.py:157-192 | skip exactly when the local file exists with the blob's size; on a probe error or a size mismatch, download; a success leaves the local file with the blob's size and reports it; a failure leaves an empty file |
| AzureDownload.DownloadFileAgain | scripts/azure_download.py:166-175 | downloading a file again right after it came through, when its size can be read, skips it with the same size and leaves the disk unchanged |
| AzureDownload.DownloadPair | scripts/azure_download.py:91-119 | a pair counts as downloaded only when both blobs exist |
| AzureDownload.DownloadPairKeeps | scripts/azure_download.py:100-111 | one pair leaves every other local file as it was |
| AzureDownload.DownloadPairWrites | scripts/azure_download.py:100-119 | a pair that came through counts the two blob sizes, and the local files under the video's directory hold them |
| AzureDownload.DownloadPairs | scripts/azure_download.py:91-119 | the loop reports one outcome per selected pair (what the outcomes and counters mean is stated by `AzureDownload.CountsAccount`, `AzureDownload.DownloadPairsOnDisk` and `AzureDownload.DownloadPairsAgain`) |
| AzureDownload.DownloadPairOnDisk | scripts/azure_download.py:100-119 | a pair that came through, with two distinct local paths, leaves both files holding their blobs and reports each blob's size |
| AzureDownload.DownloadPairSkips | scripts/azure_download.py:100-111 | a pair whose files already hold their blobs, with sizes that can be read, is skipped whole and the disk is unchanged |
| AzureDownload.DownloadPairsOnDisk | scripts/azure_download.py:91-119 | after a run in which every pair came through and no path was written twice, every local file holds its blob and every download reported that blob's size |
| AzureDownload.DownloadPairsSkip | scripts/azure_download.py:91-119 | when every local file already holds its blob and every size can be read, the loop skips every file with the blob's size and leaves the disk unchanged |
| AzureDownload.CountsRerun | scripts/azure_download.py:113-119 | pair reports that rerun each other give the same counters |
| AzureDownload.DownloadPairsAgain | scripts/azure_download.py:91-119 | running the loop again right after a run in which every pair came through, with distinct local paths and readable sizes, skips every file with the same size, counts the same and leaves the disk unchanged |
| AzureDownload.CountPair | scripts/azure_download.py:113-119 | a pair counts as downloaded, adding both sizes, only when both files came through; otherwise it counts as failed |
| AzureDownload.DownloadAndCount | scripts/azure_download.py:91-119 | one pass of the loop extends the counters and the disk by exactly one more pair of the specification run |
| AzureDownload.CountsAccount | scripts/azure_download.py:113-123 | every pair lands in exactly one counter; the size grows only with a whole pair; it is 0 with no pair through, and everything fetched when every pair came through |
| AzureDownload.SelectPairs | scripts/azure_download.py:68-81 | the pairs are the mapping's items in insertion order, resumed at `start_from` and cut to `limit` |
| AzureDownload.DownloadPairList | scripts/azure_download.py:85-123 | the counters equal the tally of the pair outcomes, and the disk is the disk after every pair |
| AzureDownload.DownloadBatch | scripts/azure_download.py:56-155 | a config error propagates with the disk unchanged; otherwise the report of the selected pairs, with output directory `<output>/batch_<id>_data` |
| AzureDownload.DownloadBatchAccounts | scripts/azure_download.py:125-138 | `downloaded + failed == total_requested`; the rate is between 0 and 100 percent and is 0 when nothing was requested; the size never exceeds what was fetched |
| AzureDownload.ListAvailableBatches | scripts/azure_download.py:194-206 | the result is the sorted list of ids the scan collects |
| AzureDownload.ListedIds | scripts/azure_download.py:199-204 | the scan yields at most one id per entry |
| AzureDownload.ListedIdsMembers | scripts/azure_download.py:199-204 | an id is listed exactly when a `batch_*` directory holding a mapping file yields it |
| AzureDownload.ListedIdMayNotLoad | scripts/azure_download.py:201 | the directory `batch_batch_7` is listed as `7`, which `load_batch_config` cannot find |
| AzureDownload.BatchIdOf | scripts/azure_download.py:201 | the id with only the leading `batch_` removed names its directory again |
| AzureDownload.LoadableIdsLoad | scripts/azure_download.py:199-206 | with only the leading prefix removed, every listed id is found by `load_batch_config` |
| AzureBatchDownloader.DownloadFile | scripts/azure_batch_downloader.py:43-79 | succeeds exactly when the local path has a directory part and the blob exists without a transfer fault; success writes the blob's size; otherwise the file is emptied, or nothing is written when `makedirs` fails; never raises |
| AzureBatchDownloader.DownloadVideoImagePair | scripts/azure_batch_downloader.py:81-112 | local paths are `output_dir/<name>`; the keys requested are `ruijian-research/raw/<video>` and `ruijian-research/celeba-hq/<image>`; each success leaves that blob's size on disk |
| AzureBatchDownloader.Lookup | scripts/azure_batch_downloader.py:136 | `mapping[key]` has no value exactly when no item has that key |
| AzureBatchDownloader.DownloadFirstPairFromBatch | scripts/azure_batch_downloader.py:114-171 | errors for a missing file, a missing `mapping` key and an empty mapping; otherwise the first key and its value; `both_successful == video_success and image_success`; the reported `azure_paths` equal the requested keys; each success is on disk |
| AzureBatchDownloader.CurrentDirPairFails | scripts/azure_batch_downloader.py:61 | with `output_dir` `.`, both downloads fail and nothing is written, even when both blobs exist |
| AzureBatchDownloader.DownloadFileIntended | scripts/azure_batch_downloader.py:43-79 | the intended download succeeds exactly when the blob exists without a transfer fault |
| AzureBatchDownloader.IntendedAgreesWithDirectoryPart | scripts/azure_batch_downloader.py:61 | the intended download agrees with `download_file` for every path with a directory part |

## Left out

- The Azure SDK. Client construction, `get_blob_properties`, `upload_blob` and `download_blob().readall()` are replaced by the `Remote` value. Its fault sets stand for every exception those calls raise. An upload stores the local size and a download yields the stored size.
- Filesystem effects. `iterdir`, `glob`, `rglob`, `stat`, `exists` and `open` are replaced by listings, walks and the `Disk` map. `mkdir` and `os.makedirs` are assumed to succeed, except `os.makedirs("")`, which is modelled. A failing `mkdir` is not modelled, and neither are the `except` branches around each directory (`upload_batch_results`) or pair (`download_batch`), whatever reaches them: a walk or `stat` error as much as a `mkdir` failure.
- Path normalisation. `Path(a) / b` is `a/b`, or `b` when `a` is `""` or `.`. Trailing slashes, absolute names, `..` and names holding `/` are not normalised.
- Directory-walk order is taken as given. `check_video_completeness` scans in listing order, as `glob` yields it.
- Logging, `print`, `time.time()` elapsed times and `datetime.now()` time stamps. These are side output or nondeterministic, so the reports omit `elapsed_time_sec` and `downloaded_at`.
- Floating point. `total_size_mb` is kept as the integer byte total. `success_rate` is kept as the exact fraction `Report.Ratio`.
- `argparse`, the `main` functions, `sys.exit`, JSON report writing, `results_directory` (the input path as text), and the hard-coded absolute paths. The `.env` file is an optional list of lines, and the mapping file is an optional parsed document.
- JSON decoding errors. A mapping is given as its items in insertion order, with distinct keys, as `json.load` produces. A `batch_info` that is not an object is not modelled.
- A `results_dir` that exists but is not a directory.
- Transient failures. A probe or transfer fault is a fixed property of a blob key in `Environment.Remote`: a call that fails once fails on every later call, and one that succeeds succeeds again. A network error on one call followed by success on a retry cannot be represented. The rerun lemmas (`AzureUpload.UploadJobsAgain`, `AzureUpload.UploadVideoAgain`, `AzureUpload.UploadDirsAgain`, `AzureDownload.DownloadFileAgain`, `AzureDownload.DownloadPairsAgain`) therefore hold for a store that answers the same way on both runs.
- `list.sort()` in place is modelled as the function `Sorting.SortBy` applied to the list value.
- The `AzureBatchDownloader` class of `scripts/azure_batch_downloader.py` holds only the connection string, the SDK client and constant paths. Its `__init__` lookup is `Credentials.LoadConnectionString`, and the model has no class for it.
- AzureUpload.UploadOnlyCompleteVideos: a missing results directory is an empty listing. `glob` on a missing path finds nothing, so the report is all zeros.
- AzureUpload.UploadVideoAgain: stated for walks that meet each relative path once, as a directory walk does.
- AzureUpload.UploadDirsAgain: stated for directories with distinct names without `/`, each walk meeting each relative path once, as sibling directories of one batch are.
- AzureDownload.DownloadPairsAgain: stated for runs in which every pair came through and no two downloads write the same local path. A mapping whose pairs share a file name can overwrite an earlier file with a different blob, and then the rerun downloads it again.
- AzureUpload.UploadsOnlyComplete: stated for listings with unique names, as a directory has.

## Findings

| source | as written | input that shows it | evidently intended | confidence | as-written member | corrected member |
|---|---|---|---|---|---|---|
| scripts/azure_download.py:201 | `batch_dir.name.replace("batch_", "")` removes every occurrence of `batch_` | a directory `batch_batch_7` holding a mapping file is listed as `7`; `load_batch_config("7")` then looks in `batch_7` | remove only the leading `batch_`, so every listed id loads | not executed; low, names of this shape are unusual | AzureDownload.ListedIdMayNotLoad | AzureDownload.LoadableIdsLoad |
| scripts/azure_batch_downloader.py:61 | `os.makedirs(os.path.dirname(local_path), exist_ok=True)` raises when the path has no directory part | `download_first_pair_from_batch(file, ".")`: `Path(".") / name` is `name`, whose dirname is `""`, so both downloads report failure even when both blobs exist | skip creating a directory for a bare file name, so the outcome depends on the blob alone | not executed; medium | AzureBatchDownloader.CurrentDirPairFails | AzureBatchDownloader.DownloadFileIntended |
