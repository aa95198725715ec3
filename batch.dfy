/**
 * `batch_edit_images`: pick the image files of a directory listing by extension, run the
 * edit-and-save pipeline on each with the seed offset by its position, and account for
 * every file in a summary.
 *
 * The directory check, the listing and the per-file pipeline are injected: `edit` stands for
 * `edit_single_image(path, params)` and `save` for `save_image_result(result, output_file)`.
 */
module Batch {
  import opened Wrappers
  import opened Text
  import opened Poller
  import opened Results
  import opened Editing

  /** The default `valid_image_extensions`. */
  const DefaultExtensions := [".jpg", ".jpeg", ".png", ".bmp"]

  /**
   * `name.lower().endswith(extensions)`. A match needs an extension no longer than the name,
   * so an empty extension list matches nothing.
   */
  predicate HasImageExtension(name: string, extensions: seq<string>): (b: bool)
    ensures b ==> exists k :: 0 <= k < |extensions| && |extensions[k]| <= |name|
  {
    exists k :: 0 <= k < |extensions| && EndsWith(ToLower(name), extensions[k])
  }

  /** Lower-casing a name first changes nothing: `ToLower` is idempotent. */
  lemma HasImageExtensionIgnoresCase(name: string, extensions: seq<string>)
    ensures HasImageExtension(ToLower(name), extensions) <==> HasImageExtension(name, extensions)
  {
    var l := ToLower(name);
    assert ToLower(l) == l;
  }

  /** With the default extensions the match ignores case: upper- and mixed-case names are kept. */
  lemma DefaultExtensionsIgnoreCase()
    ensures HasImageExtension("IMG_01.JPG", DefaultExtensions)
    ensures HasImageExtension("scan.Bmp", DefaultExtensions)
  {
    assert ToLower("IMG_01.JPG") == "img_01.jpg";
    assert EndsWith(ToLower("IMG_01.JPG"), DefaultExtensions[0]);
    assert ToLower("scan.Bmp") == "scan.bmp";
    assert EndsWith(ToLower("scan.Bmp"), DefaultExtensions[3]);
  }

  /** A name whose last character ends none of the extensions matches none of them. */
  lemma LastCharRules(name: string, extensions: seq<string>)
    requires |name| > 0
    requires forall k :: 0 <= k < |extensions| ==>
      |extensions[k]| > 0 && extensions[k][|extensions[k]| - 1] != name[|name| - 1]
    ensures forall k :: 0 <= k < |extensions| ==> !EndsWith(name, extensions[k])
  {
  }

  /** A name whose last suffix is not an image extension is skipped, whatever it contains. */
  lemma DefaultExtensionsRejectText()
    ensures !HasImageExtension("list.txt", DefaultExtensions)
    ensures !HasImageExtension("a.jpg.txt", DefaultExtensions)
  {
    var n1, n2 := "list.txt", "a.jpg.txt";
    assert ToLower(n1) == n1;
    assert ToLower(n2) == n2;
    LastCharRules(n1, DefaultExtensions);
    LastCharRules(n2, DefaultExtensions);
  }

  /** The list comprehension over `os.listdir`: the matching names, in listing order. */
  function ImageFiles(listing: seq<string>, extensions: seq<string>): (files: seq<string>)
    ensures |files| <= |listing|
  {
    if listing == [] then []
    else
      var rest := ImageFiles(listing[1..], extensions);
      if HasImageExtension(listing[0], extensions) then [listing[0]] + rest else rest
  }

  /** A name is kept exactly when it is listed and has one of the extensions. */
  lemma {:induction false} ImageFilesMembers(listing: seq<string>, extensions: seq<string>, n: string)
    ensures n in ImageFiles(listing, extensions) <==> n in listing && HasImageExtension(n, extensions)
  {
    if listing != [] {
      ImageFilesMembers(listing[1..], extensions, n);
      assert listing == [listing[0]] + listing[1..];
    }
  }

  /** Filtering a listing piece by piece gives the same files in the same order. */
  lemma {:induction false} ImageFilesAppend(a: seq<string>, b: seq<string>, extensions: seq<string>)
    ensures ImageFiles(a + b, extensions) == ImageFiles(a, extensions) + ImageFiles(b, extensions)
  {
    if a != [] {
      ImageFilesAppend(a[1..], b, extensions);
      assert (a + b)[1..] == a[1..] + b;
      assert (a + b)[0] == a[0];
    } else {
      assert a + b == b;
    }
  }

  lemma {:induction false} ImageFilesAllMatch(names: seq<string>, extensions: seq<string>)
    requires forall k :: 0 <= k < |names| ==> HasImageExtension(names[k], extensions)
    ensures ImageFiles(names, extensions) == names
  {
    if names != [] {
      ImageFilesAllMatch(names[1..], extensions);
      assert HasImageExtension(names[0], extensions);
    }
  }

  lemma {:induction false} ImageFilesNoneMatch(names: seq<string>, extensions: seq<string>)
    requires forall k :: 0 <= k < |names| ==> !HasImageExtension(names[k], extensions)
    ensures ImageFiles(names, extensions) == []
  {
    if names != [] {
      ImageFilesNoneMatch(names[1..], extensions);
      assert !HasImageExtension(names[0], extensions);
    }
  }

  /**
   * A listing of image files, then other files, then image files, yields exactly the image
   * files, in listing order.
   */
  lemma {:induction false} ImageFilesOfMixedListing(valid: seq<string>, invalid: seq<string>, more: seq<string>, extensions: seq<string>)
    requires forall k :: 0 <= k < |valid| ==> HasImageExtension(valid[k], extensions)
    requires forall k :: 0 <= k < |more| ==> HasImageExtension(more[k], extensions)
    requires forall k :: 0 <= k < |invalid| ==> !HasImageExtension(invalid[k], extensions)
    ensures ImageFiles(valid + invalid + more, extensions) == valid + more
    ensures |ImageFiles(valid + invalid + more, extensions)| == |valid| + |more|
  {
    ImageFilesAllMatch(valid, extensions);
    ImageFilesAllMatch(more, extensions);
    ImageFilesNoneMatch(invalid, extensions);
    ImageFilesAppend(valid, invalid, extensions);
    assert valid + [] == valid;
    ImageFilesAppend(valid + invalid, more, extensions);
  }

  /** The number of names in `listing` that have one of the extensions, counted from the end. */
  function MatchCount(listing: seq<string>, extensions: seq<string>): nat {
    if listing == [] then 0
    else
      MatchCount(listing[..|listing| - 1], extensions) +
      (if HasImageExtension(listing[|listing| - 1], extensions) then 1 else 0)
  }

  /** However image files and other files are interleaved, the batch processes one file per image file. */
  lemma {:induction false} ImageFilesCount(listing: seq<string>, extensions: seq<string>)
    ensures |ImageFiles(listing, extensions)| == MatchCount(listing, extensions)
  {
    if listing != [] {
      var init, last := listing[..|listing| - 1], listing[|listing| - 1];
      ImageFilesCount(init, extensions);
      assert listing == init + [last];
      ImageFilesAppend(init, [last], extensions);
      assert ImageFiles([last], extensions) == if HasImageExtension(last, extensions) then [last] else [];
    }
  }

  /**
   * `os.path.join(output_folder, f"edited_{Path(name).stem}.png")`: for a listed name (no
   * '/'), a file directly inside the output folder named after the stem.
   */
  function OutputFileName(outputFolder: string, name: string): (path: string)
    ensures |outputFolder| <= |path| && path[..|outputFolder|] == outputFolder
    ensures InFolder(outputFolder, path, "edited_" + Stem(name) + ".png")
    ensures '/' !in name ==> Basename(path) == "edited_" + Stem(name) + ".png"
  {
    var file := "edited_" + Stem(name) + ".png";
    OutputNameHasNoSlash(name);
    if '/' !in name then
      BasenameOfJoin(outputFolder, file);
      Join(outputFolder, file)
    else Join(outputFolder, file)
  }

  /** `path` is `file` directly under `folder`, with a '/' between them unless `folder` supplies one. */
  predicate InFolder(folder: string, path: string, file: string) {
    if folder == [] || folder[|folder| - 1] == '/' then path == folder + file
    else path == folder + "/" + file
  }

  lemma OutputNameHasNoSlash(name: string)
    ensures '/' !in name ==> '/' !in "edited_" + Stem(name) + ".png"
  {
    if '/' !in name {
      var stem := Stem(name);
      assert forall i :: 0 <= i < |stem| ==> stem[i] == name[i];
      assert '/' !in stem;
    }
  }

  /** `photo.JPG` in the listing is written as `edited_photo.png` inside the output folder. */
  lemma OutputFileNameOfImage(outputFolder: string, base: string, ext: string)
    requires |base| > 0 && '/' !in base
    requires |ext| >= 2 && ext[0] == '.' && '.' !in ext[1..] && '/' !in ext
    ensures Basename(OutputFileName(outputFolder, base + ext)) == "edited_" + base + ".png"
    ensures InFolder(outputFolder, OutputFileName(outputFolder, base + ext), "edited_" + base + ".png")
  {
    StemOfNameWithExtension(base, ext);
  }

  datatype EntryStatus = Success | Failure

  /** One element of the summary's `results` list. */
  datatype Entry = Entry(filename: string, status: EntryStatus, outputFile: Option<string>,
                         error: Option<string>, jobId: Option<string>)

  datatype Summary = Summary(totalFiles: nat, successful: nat, failed: nat, results: seq<Entry>)

  datatype BatchResult = BatchError(message: string) | BatchDone(summary: Summary)

  /** `result.get('job_id')`: every poll result carries the job id; an error record has none. */
  function JobIdOf(r: EditResult): (id: Option<string>)
    ensures id.Some? <==> r.Job?
    ensures r.Job? ==> id.value == r.result.jobId
  {
    if r.Job? then Some(r.result.jobId) else None
  }

  /**
   * `result.get('error', 'Unknown error')`: an error record's message, a FAILED job's error,
   * and "Unknown error" for every other result, none of which has an `error` key.
   */
  function ErrorOf(r: EditResult): (msg: string)
    ensures r.EditError? ==> msg == r.message
    ensures r.Job? && r.result.Failed? ==> msg == r.result.error
    ensures r.Job? && !r.result.Failed? ==> msg == UnknownError
  {
    match r
    case EditError(message) => message
    case Job(Failed(error, _)) => error
    case Job(_) => UnknownError
  }

  /** The summary entry recorded for one file, given what its edit returned. */
  function FileEntry(name: string, outputFolder: string, r: EditResult, save: (EditResult, string) -> bool): (e: Entry)
    ensures e.filename == name && e.jobId == JobIdOf(r)
    ensures e.status == Success <==> e.outputFile.Some?
    ensures e.status == Success <==> e.error == None
  {
    if r.Job? && r.result.Completed? then
      var outputFile := OutputFileName(outputFolder, name);
      if save(r, outputFile) then Entry(name, Success, Some(outputFile), None, JobIdOf(r))
      else Entry(name, Failure, None, Some("Result save failed"), JobIdOf(r))
    else Entry(name, Failure, None, Some(ErrorOf(r)), JobIdOf(r))
  }

  /** What the entry for one file records. */
  lemma FileEntryMeaning(name: string, outputFolder: string, r: EditResult, save: (EditResult, string) -> bool)
    ensures var e := FileEntry(name, outputFolder, r, save);
      && e.filename == name
      && e.jobId == JobIdOf(r)
      && (e.status == Success <==> r.Job? && r.result.Completed? && save(r, OutputFileName(outputFolder, name)))
      && (e.status == Success ==> e.outputFile == Some(OutputFileName(outputFolder, name)) && e.error == None)
      && (e.status == Failure ==> e.outputFile == None && e.error.Some?)
      && (e.status == Failure && r.Job? && r.result.Completed? ==> e.error == Some("Result save failed"))
      && (e.status == Failure && r.Job? && r.result.Failed? ==> e.error == Some(r.result.error))
  {
  }

  /** Only a COMPLETED result is ever saved: for any other, the entry does not depend on `save`. */
  lemma NoSaveUnlessCompleted(name: string, outputFolder: string, r: EditResult,
                              save1: (EditResult, string) -> bool, save2: (EditResult, string) -> bool)
    requires !(r.Job? && r.result.Completed?)
    ensures FileEntry(name, outputFolder, r, save1) == FileEntry(name, outputFolder, r, save2)
    ensures FileEntry(name, outputFolder, r, save1).status == Failure
    ensures FileEntry(name, outputFolder, r, save1).error == Some(ErrorOf(r))
  {
  }

  function SuccessCount(entries: seq<Entry>): nat {
    if entries == [] then 0
    else SuccessCount(entries[..|entries| - 1]) + (if entries[|entries| - 1].status == Success then 1 else 0)
  }

  function FailureCount(entries: seq<Entry>): nat {
    if entries == [] then 0
    else FailureCount(entries[..|entries| - 1]) + (if entries[|entries| - 1].status == Failure then 1 else 0)
  }

  lemma CountAppend(entries: seq<Entry>, e: Entry)
    ensures SuccessCount(entries + [e]) == SuccessCount(entries) + (if e.status == Success then 1 else 0)
    ensures FailureCount(entries + [e]) == FailureCount(entries) + (if e.status == Failure then 1 else 0)
  {
    assert (entries + [e])[..|entries|] == entries;
  }

  /** Every entry is counted exactly once, as a success or as a failure. */
  lemma {:induction false} CountsPartition(entries: seq<Entry>)
    ensures SuccessCount(entries) + FailureCount(entries) == |entries|
  {
    if entries != [] {
      CountsPartition(entries[..|entries| - 1]);
    }
  }

  /** The edit run for the `i`-th file: the joined path, and the parameters with seed `seed + i`. */
  function EditOf(folder: string, name: string, i: int, p: Params, edit: (string, Params) -> EditResult): EditResult {
    edit(Join(folder, name), p.(seed := p.seed + i))
  }

  /**
   * The `i`-th file is edited exactly as a lone file would be with `seed + i`: the seed is the
   * only parameter the position changes, and the path is the folder joined with the name.
   */
  lemma EditOfSeedOffset(folder: string, name: string, i: int, p: Params, edit: (string, Params) -> EditResult)
    ensures EditOf(folder, name, i, p, edit) == EditOf(folder, name, 0, p.(seed := p.seed + i), edit)
    ensures EditOf(folder, name, i + 1, p, edit) == EditOf(folder, name, i, p.(seed := p.seed + 1), edit)
    ensures '/' !in name ==> exists path :: Basename(path) == name && EditOf(folder, name, i, p, edit) == edit(path, p.(seed := p.seed + i))
  {
    if '/' !in name {
      BasenameOfJoin(folder, name);
    }
  }

  /** Entry `k` of `entries` is the one recorded for file `k`. */
  predicate RecordedAt(entries: seq<Entry>, k: int, folder: string, outputFolder: string, files: seq<string>, p: Params,
                       edit: (string, Params) -> EditResult, save: (EditResult, string) -> bool)
    requires 0 <= k < |entries| && k < |files|
  {
    entries[k] == FileEntry(files[k], outputFolder, EditOf(folder, files[k], k, p, edit), save)
  }

  /** A COMPLETED result is saved under the file's output name; the entry says whether that worked. */
  method SaveEntry(outputFolder: string, name: string, result: EditResult, save: (EditResult, string) -> bool)
    returns (entry: Entry)
    requires result.Job? && result.result.Completed?
    ensures entry == FileEntry(name, outputFolder, result, save)
  {
    var outputFile := OutputFileName(outputFolder, name);
    if save(result, outputFile) {
      entry := Entry(name, Success, Some(outputFile), None, Some(result.result.jobId));
    } else {
      entry := Entry(name, Failure, None, Some("Result save failed"), Some(result.result.jobId));
    }
  }

  /**
   * The body of the batch loop for file `i`: edit it at `join(folder, name)` with seed
   * `seed + i`, save a COMPLETED result under its output name, and build the entry.
   */
  method ProcessFile(folder: string, outputFolder: string, name: string, i: nat, p: Params,
                     edit: (string, Params) -> EditResult, save: (EditResult, string) -> bool)
    returns (entry: Entry)
    ensures entry == FileEntry(name, outputFolder, EditOf(folder, name, i, p, edit), save)
  {
    var result := EditOf(folder, name, i, p, edit);
    if result.Job? && result.result.Completed? {
      entry := SaveEntry(outputFolder, name, result, save);
    } else {
      entry := Entry(name, Failure, None, Some(ErrorOf(result)), JobIdOf(result));
    }
  }

  /**
   * The `for` loop of the batch driver: one entry per file, in order, with `successful` or
   * `failed` raised by one as each entry is recorded.
   */
  method ProcessFiles(folder: string, outputFolder: string, files: seq<string>, p: Params,
                      edit: (string, Params) -> EditResult, save: (EditResult, string) -> bool)
    returns (summary: Summary)
    ensures summary.totalFiles == |files| == |summary.results|
    ensures summary.successful == SuccessCount(summary.results)
    ensures summary.failed == FailureCount(summary.results)
    ensures forall k :: 0 <= k < |files| ==> RecordedAt(summary.results, k, folder, outputFolder, files, p, edit, save)
  {
    summary := Summary(|files|, 0, 0, []);
    for i := 0 to |files|
      invariant summary.totalFiles == |files|
      invariant |summary.results| == i
      invariant summary.successful == SuccessCount(summary.results)
      invariant summary.failed == FailureCount(summary.results)
      invariant forall k :: 0 <= k < i ==> RecordedAt(summary.results, k, folder, outputFolder, files, p, edit, save)
    {
      var entry := ProcessFile(folder, outputFolder, files[i], i, p, edit, save);
      if entry.status == Success {
        summary := summary.(successful := summary.successful + 1);
      } else {
        summary := summary.(failed := summary.failed + 1);
      }
      CountAppend(summary.results, entry);
      ghost var before := summary.results;
      summary := summary.(results := summary.results + [entry]);
      forall k | 0 <= k < i + 1
        ensures RecordedAt(summary.results, k, folder, outputFolder, files, p, edit, save)
      {
        if k < i {
          assert RecordedAt(before, k, folder, outputFolder, files, p, edit, save);
        }
      }
    }
  }

  method BatchEditImages(folder: string, folderExists: bool, listing: seq<string>, outputFolder: string,
                         extensions: seq<string>, p: Params,
                         edit: (string, Params) -> EditResult, save: (EditResult, string) -> bool)
    returns (r: BatchResult)
    ensures !folderExists ==> r == BatchError("Image folder does not exist: " + folder)
    ensures folderExists && ImageFiles(listing, extensions) == [] ==>
      r == BatchError("No image files to process: " + folder)
    ensures folderExists && ImageFiles(listing, extensions) != [] ==> r.BatchDone?
    ensures r.BatchDone? ==>
      var files := ImageFiles(listing, extensions);
      var s := r.summary;
      && s.totalFiles == |files| == |s.results|
      && s.successful == SuccessCount(s.results)
      && s.failed == FailureCount(s.results)
      && s.successful + s.failed == s.totalFiles
      && forall k :: 0 <= k < |files| ==> RecordedAt(s.results, k, folder, outputFolder, files, p, edit, save)
  {
    if !folderExists {
      return BatchError("Image folder does not exist: " + folder);
    }
    var files := ImageFiles(listing, extensions);
    if files == [] {
      return BatchError("No image files to process: " + folder);
    }
    var summary := ProcessFiles(folder, outputFolder, files, p, edit, save);
    CountsPartition(summary.results);
    r := BatchDone(summary);
  }
}
