# Qwen image-edit client: a verified model of its core

The `QwenImageEditS3Client` script does five jobs. It uploads local images to an S3-compatible object store. It submits an image-editing job that refers to the uploaded objects. It polls the job's status until the job finishes or the wait budget runs out. It decodes the returned base64 image and writes it to disk. A batch mode repeats this pipeline over a directory, changing only the seed.

This project models the part of that script that is logic rather than plumbing:

- the polling loop, as a state machine driven by an injected clock and reply trace (`Poller`);
- the object keys and storage references (`Storage`);
- the job input record and the lightning override of `steps` (`Editing`);
- the result writer's status checks and data-URI strip (`Results`);
- the batch driver's extension filter, seed offset and summary accounting (`Batch`).

`Text` holds the Python string and path operations these depend on, and `Wrappers` holds `Option`.

External effects are parameters:

- **Clock.** `start` is the reading taken before the poll loop. Each poll `Event` carries the reading used for its deadline check. The upload timestamp comes from its own reading, `clock`, truncated toward zero as `int(time.time())` does.
- **Network.** A status request either raises a request exception (`RequestError`) or returns a parsed body (`StatusBody`). The submission's `id` field is an `Option<string>`. Whether the store accepts an upload is a `bool`.
- **Filesystem.** The existence checks, the directory listing, their order, and whether the output can be written are all given values.
- **Decoder.** `base64.b64decode` is a function parameter that returns `None` where the library raises.
- **Batch pipeline.** For each file, `edit` stands for `edit_single_image` and `save` for `save_image_result`. Both are function parameters.

The poll loop (`Poller.WaitForCompletion`) and the batch loop (`Batch.ProcessFiles`, called by `Batch.BatchEditImages` after the folder and listing checks) are methods with loops. `WaitForCompletion` is proved equal to the specification function `PollOutcome`, which is `Poll` unless the sleep raises. The batch loop, `Batch.ProcessFiles`, is proved to record `FileEntry` for each file and to keep its counters equal to `SuccessCount` and `FailureCount` of the entries. The key properties are proved as lemmas about those functions.

Three details of the poll loop that the model keeps exactly as the code has them:

- The loop stops once the elapsed time *reaches* `max_wait_time`: its guard is `time.time() - start_time < max_wait_time` (line 160).
- A status outside COMPLETED / FAILED / IN_QUEUE / IN_PROGRESS ends polling with UNKNOWN. So does a missing status. Neither is retried (`FirstDecisiveResponse`).
- `time.sleep` (lines 186 and 197) rejects some intervals. A negative `check_interval` makes it raise `ValueError`. CPython converts the interval to a signed 64-bit count of nanoseconds, so an interval above 9223372036 seconds, or far enough below zero, raises `OverflowError`. Neither is a request exception, so the error leaves the method at the first retry. The model returns `SleepRaised` for it (`SleepAccepts`, `PollOutcomeCases`, `HugeIntervalRaises`).

## Model

| member | source | states |
|---|---|---|
| Poller.StopIndex | qwen_image_edit_s3_client.py:160-197 | the pass at which the loop returns is the first one that is neither a request error nor an IN_QUEUE/IN_PROGRESS response before the deadline; every earlier pass is such a retry |
| Poller.Settle | qwen_image_edit_s3_client.py:170-203 | the result of a stopping pass carries the job id, and it is TIMEOUT exactly when that pass's deadline check failed |
| Poller.Classify | qwen_image_edit_s3_client.py:170-187 | the status is COMPLETED, FAILED, pending (IN_QUEUE or IN_PROGRESS) or other, each exactly when the `status` field holds that value; a missing status is "other" |
| Poller.Poll | qwen_image_edit_s3_client.py:160-203 | the result carries the job id; it is TIMEOUT exactly when the stopping pass failed its deadline check; otherwise it is COMPLETED with that reply's `output`, FAILED with its `error` or "Unknown error", or UNKNOWN with the reply's body, each exactly when the reply's status calls for it |
| Poller.PollOutcome | qwen_image_edit_s3_client.py:146-203 | a call either returns or raises from `time.sleep`; it raises only for an interval `time.sleep` rejects (negative, or above 9223372036 seconds), and whatever it returns is the result `Poll` specifies; with an accepted interval it always returns that result |
| Poller.PollOutcomeCases | qwen_image_edit_s3_client.py:184-197 | the loop raises exactly when `time.sleep` rejects `check_interval` and the first pass is a retry; otherwise it returns `Poll`'s result |
| Poller.HugeIntervalRaises | qwen_image_edit_s3_client.py:186-197 | with `check_interval` = 10**10, a request error followed by COMPLETED ends in the sleep's error; with 9223372036 the same trace returns COMPLETED |
| Poller.WaitForCompletion | qwen_image_edit_s3_client.py:146-203 | the loop's outcome is the specified `PollOutcome` for the trace. When it returns, it made exactly StopIndex+1 deadline checks and slept `check_interval` (an interval `time.sleep` accepts) after each of the StopIndex retries and after no other pass. When the sleep raises, that happens at the first pass, after one check and no sleep |
| Poller.RetriesDoNotDecide | qwen_image_edit_s3_client.py:184-186 | any number of leading request errors and IN_QUEUE/IN_PROGRESS replies before the deadline leave the result unchanged: the trace stops exactly that many passes later with the same result |
| Poller.FirstDecisiveResponse | qwen_image_edit_s3_client.py:170-193 | the first response before the deadline that is not IN_QUEUE/IN_PROGRESS decides the result: COMPLETED carries `output` and the job id, FAILED carries `error` or "Unknown error", any other or missing status gives UNKNOWN with the raw body |
| Poller.TimeoutExactlyWhenDeadlineFirst | qwen_image_edit_s3_client.py:160-203 | the result is TIMEOUT if and only if some deadline check fails while every earlier pass was a retry |
| Poller.TimeoutAfterRetries | qwen_image_edit_s3_client.py:199-203 | once the elapsed time reaches `max_wait_time`, the result is TIMEOUT with the job id, however many retries came first |
| Poller.ErrorsThenCompleted | qwen_image_edit_s3_client.py:195-197 | request errors are not fatal: any number of them before the deadline, then a COMPLETED response, yields COMPLETED with that response's output |
| Storage.TaggedKey | qwen_image_edit_s3_client.py:284 | a key starts with "input/qwen/" and ends with the file's basename; for a tag without '/', its own basename is timestamp + tag + the file's basename |
| Storage.SingleKey | qwen_image_edit_s3_client.py:284 | the single-edit key starts with "input/qwen/" and ends with the file's basename, and its object name is the timestamp, "_", then the basename |
| Storage.DonorKey | qwen_image_edit_s3_client.py:366 | the donor key starts with "input/qwen/" and ends with the donor file's basename, and its object name is the timestamp, "_donor_", then the basename |
| Storage.CanvasKey | qwen_image_edit_s3_client.py:373 | the canvas key starts with "input/qwen/" and ends with the canvas file's basename, and its object name is the timestamp, "_canvas_", then the basename |
| Storage.KeyObjectNames | qwen_image_edit_s3_client.py:284-373 | the object name of each key is the timestamp, then "_", "_donor_" or "_canvas_", then the file's basename |
| Storage.VolumePath | qwen_image_edit_s3_client.py:105 | the storage reference is "/runpod-volume/" followed by the key, and the key can be read back from it |
| Storage.ReferenceFormat | qwen_image_edit_s3_client.py:284 | every reference sent to the service is "/runpod-volume/input/qwen/" + timestamp + tag + basename |
| Storage.SingleKeyInjective | qwen_image_edit_s3_client.py:284 | a single-image key determines both the upload second and the file's basename |
| Storage.DualKeysDistinct | qwen_image_edit_s3_client.py:366-373 | the donor and canvas keys of one dual edit share one timestamp but never coincide, even for files of the same name |
| Storage.DualReferencesDistinct | qwen_image_edit_s3_client.py:366-387 | the donor and canvas references sent in one dual edit never coincide |
| Storage.UploadToS3 | qwen_image_edit_s3_client.py:85-111 | a missing file yields None without calling the store; otherwise the store is called, and the result is exactly VolumeRoot + key when the store accepts and None when it fails |
| Results.StripDataUri | qwen_image_edit_s3_client.py:231-233 | text without a comma is kept whole; otherwise the result is exactly what follows the first comma |
| Results.StripDataUriOfDataUri | qwen_image_edit_s3_client.py:231-233 | stripping a data URI (a comma-free header, a comma, then the payload) gives back the payload, commas and all |
| Results.ImageOf | qwen_image_edit_s3_client.py:217-226 | an image is found only in a COMPLETED result whose output holds a non-empty `image`, and every such image is found |
| Results.SaveImageResult | qwen_image_edit_s3_client.py:205-247 | it returns true exactly when the result is COMPLETED with a non-empty image, the filesystem accepts the write and the stripped text decodes; bytes are written exactly then, and they are the decoding of the stripped text |
| Results.SaveWritesDecodedPayload | qwen_image_edit_s3_client.py:231-239 | for a COMPLETED result whose image is a data URI, the bytes written are the decoding of the payload after the header |
| Results.SaveWritesDecodedText | qwen_image_edit_s3_client.py:231-239 | for a COMPLETED result whose image is plain base64 text, the whole text is decoded, and the save succeeds exactly when that decoding does |
| Editing.SubmittedSteps | qwen_image_edit_s3_client.py:290-292 | the submitted step count is 4 in lightning mode and the caller's value otherwise |
| Editing.SingleInput | qwen_image_edit_s3_client.py:296-305 | the single-edit input carries the reference as `image_path`, no second image, and the caller's prompt, seed, size, cfg and negative prompt, with the submitted step count |
| Editing.DualInput | qwen_image_edit_s3_client.py:385-395 | the dual-edit input carries the donor reference as `image_path`, the canvas reference as `image_path_2`, and the same parameters as a single edit |
| Editing.LightningIgnoresRequestedSteps | qwen_image_edit_s3_client.py:379-381 | in lightning mode the submitted single and dual inputs are the same whatever `steps` the caller passed, and carry 4 steps |
| Editing.DefaultInputs | qwen_image_edit_s3_client.py:253-259 | with the keyword defaults a job asks for seed 12345, 1024x1024, 40 steps, cfg 4.0 and negative prompt " "; with lightning on, single and dual jobs ask for 4 steps |
| Editing.SubmitJob | qwen_image_edit_s3_client.py:113-144 | a job id is accepted exactly when the response's `id` field is present and non-empty, and it is returned unchanged |
| Editing.Truncate | qwen_image_edit_s3_client.py:283 | the upload timestamp is the clock reading truncated toward zero |
| Editing.SubmitAndWait | qwen_image_edit_s3_client.py:307-313 | a rejected submission gives "Job submission failed"; an accepted one gives the poller's result for the returned job id, with the default interval and budget |
| Editing.EditSingleImage | qwen_image_edit_s3_client.py:249-313 | the store is called once, with the single key, exactly when the file exists. Missing file, failed upload and failed submission each give their error record as the result, and no input is recorded as submitted on the first two. Otherwise the input sent refers to "/runpod-volume/" + `input/qwen/<ts>_<basename>`, has steps 4 in lightning mode and the caller's steps otherwise, and the result is the poller's result for the accepted job id |
| Editing.UploadDual | qwen_image_edit_s3_client.py:365-377 | with both files present, the donor key is sent to the store first and the canvas key only after the donor upload succeeded; each reference is the volume path of its key exactly when its upload succeeded |
| Editing.EditDualImage | qwen_image_edit_s3_client.py:315-403 | the store is called only when both files exist: first with the donor key, then, only if the donor upload succeeded, with the canvas key. Each failure gives its own error record. The input sent refers to the donor and canvas keys under one timestamp; the two references always differ; the lightning override applies as for single edits |
| Text.Join | qwen_image_edit_s3_client.py:467 | joining with an absolute name gives the name; otherwise the result is the folder, then one '/' exactly when the folder is non-empty and does not already end in '/', then the name |
| Text.ToLower | qwen_image_edit_s3_client.py:448 | lower-casing keeps the length, turns each upper-case ASCII letter into its lower-case letter (code point + 32), leaves no upper-case ASCII letter and changes no other character |
| Text.IntToString | qwen_image_edit_s3_client.py:284 | the decimal text is non-empty, starts with '-' exactly for a negative number, is otherwise all digits, has no leading zero, and is "0" only for 0; `IntToStringRoundTrip` pins the value |
| Text.Basename | qwen_image_edit_s3_client.py:284 | the basename is the longest suffix of the path without '/' |
| Text.BasenameOfJoin | qwen_image_edit_s3_client.py:467 | joining the folder with a listed file name and taking the basename gives the file name back, so batch uploads are keyed by the listed name |
| Text.Stem | qwen_image_edit_s3_client.py:484 | the stem is the whole name or a prefix of it; it is the part before the last dot whenever that dot is neither first nor last, and the whole name otherwise |
| Text.StemOfNameWithExtension | qwen_image_edit_s3_client.py:484 | a non-empty base followed by one dotted extension has exactly that base as its stem |
| Text.IntToStringRoundTrip | qwen_image_edit_s3_client.py:284 | the decimal text of the timestamp in a key determines the timestamp |
| Batch.HasImageExtension | qwen_image_edit_s3_client.py:448 | defined as the test `name.lower().endswith(extensions)` over the tuple; its contract adds only that a match needs an extension no longer than the name |
| Batch.HasImageExtensionIgnoresCase | qwen_image_edit_s3_client.py:448 | a name and its lower-case form match the same extensions |
| Batch.DefaultExtensionsIgnoreCase | qwen_image_edit_s3_client.py:409-448 | with the default extensions, "IMG_01.JPG" and "scan.Bmp" are kept |
| Batch.DefaultExtensionsRejectText | qwen_image_edit_s3_client.py:409-448 | with the default extensions, "list.txt" and "a.jpg.txt" are skipped |
| Batch.ImageFiles | qwen_image_edit_s3_client.py:446-449 | the filter keeps at most as many names as were listed; what it keeps, and in which order, is stated by `ImageFilesMembers` and `ImageFilesAppend` |
| Batch.ImageFilesMembers | qwen_image_edit_s3_client.py:446-449 | a name is kept exactly when it is listed and its lower-case form ends with one of the extensions |
| Batch.ImageFilesAppend | qwen_image_edit_s3_client.py:446-449 | the filter keeps listing order: filtering a concatenation is the concatenation of the filtered parts |
| Batch.ImageFilesAllMatch | qwen_image_edit_s3_client.py:446-449 | a listing of image files only is kept whole |
| Batch.ImageFilesNoneMatch | qwen_image_edit_s3_client.py:446-449 | a listing with no image file yields nothing, which leads to the "No image files to process" error |
| Batch.ImageFilesOfMixedListing | qwen_image_edit_s3_client.py:446-457 | a listing of image files, then other files, then image files, yields exactly the image files, in listing order |
| Batch.ImageFilesCount | qwen_image_edit_s3_client.py:446-457 | for any listing, however image files and other files are interleaved, the number of files processed is the number of listed names with an image extension |
| Batch.OutputFileName | qwen_image_edit_s3_client.py:484-485 | the output path is `edited_<stem>.png` directly inside the output folder: the folder, a '/' unless the folder is empty or ends in one, then the file name; for a listed name without '/', its basename is that file name |
| Batch.OutputFileNameOfImage | qwen_image_edit_s3_client.py:484-485 | a listed `base.ext` is saved as `edited_base.png` directly inside the output folder |
| Batch.JobIdOf | qwen_image_edit_s3_client.py:494-512 | an entry holds a job id exactly when the edit reached the poller, and then it is that job's id |
| Batch.ErrorOf | qwen_image_edit_s3_client.py:506-511 | a failed entry's error is the edit's error message, the job's FAILED error, or "Unknown error" for any other job result |
| Batch.FileEntry | qwen_image_edit_s3_client.py:482-513 | an entry keeps the file name and the job id; it is a success exactly when it holds an output file, and exactly when it holds no error |
| Batch.FileEntryMeaning | qwen_image_edit_s3_client.py:482-513 | an entry is "success" exactly when the job COMPLETED and the save returned true; a success holds the output file and no error; a failure holds no output file and an error ("Result save failed", the job's error, or "Unknown error"); the job id is the result's |
| Batch.NoSaveUnlessCompleted | qwen_image_edit_s3_client.py:505-513 | for a result other than COMPLETED the save step is never consulted, and the entry is a failure carrying the result's error |
| Batch.CountsPartition | qwen_image_edit_s3_client.py:456-513 | every entry is counted once, as a success or as a failure |
| Batch.SaveEntry | qwen_image_edit_s3_client.py:482-504 | for a COMPLETED result the save is asked to write the output name, and the entry is the one `FileEntry` specifies |
| Batch.EditOfSeedOffset | qwen_image_edit_s3_client.py:467-480 | the `i`-th file is edited as a lone file with seed `seed + i` and every other parameter unchanged, at a path whose basename is the listed name |
| Batch.ProcessFile | qwen_image_edit_s3_client.py:467-513 | one pass of the loop produces exactly the entry `FileEntry` specifies for the result of editing join(folder, name) with seed `seed + i` |
| Batch.ProcessFiles | qwen_image_edit_s3_client.py:456-513 | the loop records one entry per file, in order: entry i is the entry for file i edited at join(folder, name) with seed `seed + i` and every other parameter unchanged; `successful` and `failed` count the success and failure entries; `total_files` is the number of files |
| Batch.BatchEditImages | qwen_image_edit_s3_client.py:405-518 | a missing folder and an empty filtered list give their error records. Otherwise `total_files` is the number of filtered files, entry i is the one recorded for filtered file i, `successful` and `failed` count the success and failure entries, and successful + failed == total_files == number of entries |

## Left out

- The boto3 client, the `requests` session, bearer-token headers, request timeouts, HTTP status handling and JSON parsing: foreign libraries. Their results are inputs. A body that fails to parse counts as a request error. A body that is not a JSON object would raise outside the handled exceptions, and is not modelled.
- `time.time` and `time.sleep`: clock readings are injected values, and sleeping is recorded as the list of sleep durations `WaitForCompletion` returns. Readings are exact reals, so floating-point rounding of the elapsed time is not modelled.
- Poller.WaitForCompletion: requires the injected trace to reach a pass at which the loop returns or the sleep raises (`Stops`). A finite trace must cover the whole run; the real loop simply keeps reading the clock.
- Poller.Poll: a status reply is modelled by its `status`, `output.image` and `error` fields only. The source returns the whole `status_data` as `data` for an unknown status (line 191) and the whole `output` object for a completed job (line 174); the other fields of those objects are not modelled.
- Text.Stem: models the `pathlib` rule before Python 3.14, where a trailing dot is not a suffix (`Path("a.").stem` is "a."). Python 3.14 changed that case.
- Editing.EditSingleImage and Editing.EditDualImage: require the same complete poll trace, and always use the defaults of `wait_for_completion` (10 s interval, 1800 s budget), as the source does.
- Filesystem effects: `os.path.exists`, `os.path.isdir`, `os.listdir`, `os.makedirs`, the file write and `getsize` are given values. The existence check in `upload_to_s3` is assumed to agree with the caller's earlier check. A failing `os.makedirs` in the batch driver raises out of the method; it is not modelled.
- `base64.b64decode`: an opaque function parameter. The round trip of RFC 4648 section 4 encoding and decoding is not the client's logic.
- `cfg` is a float in the source and a `real` here. It is only carried through, never computed with.
- `str.lower` is modelled for ASCII letters only. `os.path.join` and `os.path.basename` are modelled in their POSIX forms. `Path(name).stem` is modelled for a bare file name, as `os.listdir` returns them.
- Batch.BatchEditImages: the per-file pipeline is supplied as the functions `edit` and `save`, so the batch model does not re-derive their results from `EditSingleImage` and `SaveImageResult`.
- Values the JSON could hold but the model's types exclude: a non-string `image`, `id`, `error` or `status`, an `error` key present with a null value, and an `output` that is not an object (a string or a list, whose `output.get('image')` at line 222 raises AttributeError; the save catches it and returns False, so the batch would record "Result save failed").
- Logging, the constructor's URL and session setup, and `main()` with its placeholder credentials are not modelled.
