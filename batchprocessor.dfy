/** The batch pipeline: folder selection and drop filtering, the re-process
    guard, the reset operations, and the sequential loop that turns each
    submitted file into exactly one success or error entry. */
module BatchProcessor {
  import opened Wrappers
  import opened Classification
  import opened Records
  import opened Utils
  import opened UIManager

  /** What the browser and the classifiers do with a file: whether the
      browser decodes it, and the three classifier handles. */
  datatype Environment = Environment(decodes: FileInfo -> bool, models: Models<Image>)

  // ----------------------------------------------------------------------
  // One file
  // ----------------------------------------------------------------------

  function InvalidAxis(axis: string): string {
    "Invalid " + axis + " classification result"
  }

  /** The per-axis check of the loop, axis by axis: the first axis whose
      label is empty is reported. A confidence is always a number here. */
  function ValidateTriple(t: Triple): (r: Option<string>)
    ensures r.None? <==> t.domestic.name != "" && t.size.name != "" && t.mammal.name != ""
    ensures t.domestic.name == "" ==> r == Some(InvalidAxis("domestic"))
    ensures t.domestic.name != "" && t.size.name == "" ==> r == Some(InvalidAxis("size"))
    ensures t.domestic.name != "" && t.size.name != "" && t.mammal.name == "" ==> r == Some(InvalidAxis("mammal"))
  {
    if t.domestic.name == "" then Some(InvalidAxis("domestic"))
    else if t.size.name == "" then Some(InvalidAxis("size"))
    else if t.mammal.name == "" then Some(InvalidAxis("mammal"))
    else None
  }

  /** The loop's own check never rejects what batch classification returns:
      the normaliser already refuses empty labels. */
  lemma BatchSuccessPassesValidation(models: Models<Image>, img: Image)
    requires ClassifyImageBatch(models, img).Success?
    ensures ValidateTriple(ClassifyImageBatch(models, img).value).None?
  {
    var t := ClassifyImageBatch(models, img).value;
    assert Some(t.domestic) == ProcessClassificationResult(models.domestic.value(img).raw);
    assert Some(t.size) == ProcessClassificationResult(models.size.value(img).raw);
    assert Some(t.mammal) == ProcessClassificationResult(models.mammal.value(img).raw);
  }

  /** The entry one file produces: load, classify, validate; the first
      failure is recorded with its message, and the run goes on. */
  function ProcessFile(file: FileInfo, env: Environment): (item: BatchItem)
    ensures item.filename == file.name && item.file == file
    ensures item.Classified? <==>
      IsValidImageFile(file) && env.decodes(file) && ClassifyImageBatch(env.models, Image(file)).Success?
    ensures item.Classified? ==> item.classifications == ClassifyImageBatch(env.models, Image(file)).value
    ensures !IsValidImageFile(file) ==> item == Failed(file.name, file, "Invalid image file: " + file.name)
    ensures IsValidImageFile(file) && !env.decodes(file) ==>
      item == Failed(file.name, file, "Failed to load image: " + file.name)
    ensures IsValidImageFile(file) && env.decodes(file) && ClassifyImageBatch(env.models, Image(file)).Failure? ==>
      item == Failed(file.name, file, ClassifyImageBatch(env.models, Image(file)).message)
  {
    match LoadImageFromFile(file, env.decodes(file))
    case Failure(msg) => Failed(file.name, file, msg)
    case Success(img) =>
      match ClassifyImageBatch(env.models, img)
      case Failure(msg) => Failed(file.name, file, msg)
      case Success(t) =>
        BatchSuccessPassesValidation(env.models, img);
        match ValidateTriple(t)
        case Some(msg) => Failed(file.name, file, msg)
        case None => Classified(file.name, file, t)
  }

  /** The entries a run over `files` appends, in file order. */
  function ItemsOf(files: seq<FileInfo>, env: Environment): seq<BatchItem> {
    if files == [] then []
    else ItemsOf(files[..|files| - 1], env) + [ProcessFile(files[|files| - 1], env)]
  }

  /** One entry per file, entry i for file i. */
  lemma {:induction false} ItemsOfShape(files: seq<FileInfo>, env: Environment)
    ensures |ItemsOf(files, env)| == |files|
    ensures forall i :: 0 <= i < |files| ==> ItemsOf(files, env)[i] == ProcessFile(files[i], env)
  {
    if files != [] {
      ItemsOfShape(files[..|files| - 1], env);
    }
  }

  /** Entry i carries the name of file i: the list is in submission order. */
  lemma FilenamesInOrder(files: seq<FileInfo>, env: Environment)
    ensures |ItemsOf(files, env)| == |files|
    ensures forall i :: 0 <= i < |files| ==> ItemsOf(files, env)[i].filename == files[i].name
  {
    ItemsOfShape(files, env);
  }

  /** Failure isolation: what a run records for later files does not depend
      on what happened to earlier ones. */
  lemma {:induction false} ItemsOfAppend(a: seq<FileInfo>, b: seq<FileInfo>, env: Environment)
    ensures ItemsOf(a + b, env) == ItemsOf(a, env) + ItemsOf(b, env)
  {
    if b == [] {
      assert a + b == a;
    } else {
      var init := b[..|b| - 1];
      assert (a + b)[..|a + b| - 1] == a + init;
      assert (a + b)[|a + b| - 1] == b[|b| - 1];
      ItemsOfAppend(a, init, env);
    }
  }

  // ----------------------------------------------------------------------
  // Selection and the re-process guard
  // ----------------------------------------------------------------------

  /** The files of a selection or a drop whose MIME type starts with
      "image/", in their original order. */
  function ImageFiles(files: seq<FileInfo>): (r: seq<FileInfo>)
    ensures forall f :: f in r <==> f in files && IsValidImageFile(f)
    ensures |r| <= |files|
  {
    if files == [] then []
    else
      var init, last := files[..|files| - 1], files[|files| - 1];
      assert files == init + [last];
      ImageFiles(init) + (if IsValidImageFile(last) then [last] else [])
  }

  /** Every image file of the selection is kept as many times as it occurs,
      and nothing else is kept. */
  lemma {:induction false} ImageFilesCounts(files: seq<FileInfo>)
    ensures forall f :: multiset(ImageFiles(files))[f] == if IsValidImageFile(f) then multiset(files)[f] else 0
  {
    if files != [] {
      var init, last := files[..|files| - 1], files[|files| - 1];
      assert files == init + [last];
      assert multiset(files) == multiset(init) + multiset{last};
      ImageFilesCounts(init);
    }
  }

  /** A single file is kept exactly when it is an image file. */
  lemma ImageFilesSingle(f: FileInfo)
    ensures ImageFiles([f]) == if IsValidImageFile(f) then [f] else []
  {
    assert [f][..0] == [];
  }

  /** The filter keeps the order of the selection: the image files of a
      concatenation are those of the first part followed by those of the
      second. */
  lemma {:induction false} ImageFilesAppend(a: seq<FileInfo>, b: seq<FileInfo>)
    ensures ImageFiles(a + b) == ImageFiles(a) + ImageFiles(b)
  {
    if b == [] {
      assert a + b == a;
    } else {
      var init := b[..|b| - 1];
      assert (a + b)[..|a + b| - 1] == a + init;
      assert (a + b)[|a + b| - 1] == b[|b| - 1];
      ImageFilesAppend(a, init);
    }
  }

  /** The fingerprint comparison: name, byte size and modification time. */
  predicate SameFile(a: FileInfo, b: FileInfo) {
    a.name == b.name && a.size == b.size && a.lastModified == b.lastModified
  }

  /** Some file of `previous` has the fingerprint of `f`. */
  predicate Known(previous: seq<FileInfo>, f: FileInfo) {
    exists j :: 0 <= j < |previous| && SameFile(previous[j], f)
  }

  /** No file before index `k` of `previous` has the fingerprint of `f`. */
  predicate FirstMatchAt(previous: seq<FileInfo>, f: FileInfo, k: nat)
    requires k <= |previous|
  {
    forall j :: 0 <= j < k ==> !SameFile(previous[j], f)
  }

  /** The first file of `previous` with the fingerprint of `f`. */
  function Find(previous: seq<FileInfo>, f: FileInfo): (r: Option<FileInfo>)
    ensures r.Some? <==> Known(previous, f)
    ensures r.Some? ==> r.value in previous && SameFile(r.value, f)
    ensures r.Some? ==>
      exists k :: 0 <= k < |previous| && previous[k] == r.value && FirstMatchAt(previous, f, k)
  {
    if previous == [] then None
    else if SameFile(previous[0], f) then Some(previous[0])
    else
      var r := Find(previous[1..], f);
      assert Known(previous[1..], f) ==> Known(previous, f) by {
        if Known(previous[1..], f) {
          var j :| 0 <= j < |previous[1..]| && SameFile(previous[1..][j], f);
          assert SameFile(previous[j + 1], f);
        }
      }
      assert Known(previous, f) ==> Known(previous[1..], f) by {
        if Known(previous, f) {
          var j :| 0 <= j < |previous| && SameFile(previous[j], f);
          assert j != 0;
          assert SameFile(previous[1..][j - 1], f);
        }
      }
      r
  }

  /** Every new file, scanned in order, has a match; the scan stops at the
      first that has none. */
  function AllFound(previous: seq<FileInfo>, files: seq<FileInfo>): (r: bool)
    ensures r <==> forall i :: 0 <= i < |files| ==> Known(previous, files[i])
  {
    if files == [] then true
    else if Find(previous, files[0]).None? then false
    else
      var r := AllFound(previous, files[1..]);
      assert forall i :: 1 <= i < |files| ==> files[i] == files[1..][i - 1];
      r
  }

  /** A selection is a re-process of the last submission when there is one,
      it has the same number of files, and every new file matches some file
      of it. */
  function CheckIfShouldReprocess(last: Option<seq<FileInfo>>, newFiles: seq<FileInfo>): (r: bool)
    ensures last.None? ==> !r
    ensures last.Some? && |last.value| != |newFiles| ==> !r
    ensures r <==> last.Some? && |last.value| == |newFiles|
                   && forall i :: 0 <= i < |newFiles| ==> Known(last.value, newFiles[i])
  {
    if last.None? || |last.value| != |newFiles| then false
    else AllFound(last.value, newFiles)
  }

  /** Submitting the same files again is a re-process. */
  lemma SameFilesAreReprocess(files: seq<FileInfo>)
    ensures CheckIfShouldReprocess(Some(files), files)
  {
    forall i | 0 <= i < |files|
      ensures Known(files, files[i])
    {
      assert SameFile(files[i], files[i]);
    }
  }

  /** The order of the new files does not matter. */
  lemma ReprocessIgnoresOrder(last: Option<seq<FileInfo>>, a: seq<FileInfo>, b: seq<FileInfo>)
    requires multiset(a) == multiset(b)
    ensures CheckIfShouldReprocess(last, a) == CheckIfShouldReprocess(last, b)
  {
    assert |a| == |multiset(a)| == |multiset(b)| == |b|;
    if last.Some? {
      forall i | 0 <= i < |b| && CheckIfShouldReprocess(last, a)
        ensures Known(last.value, b[i])
      {
        assert b[i] in multiset(a);
        var k :| 0 <= k < |a| && a[k] == b[i];
        assert Known(last.value, a[k]);
      }
      forall i | 0 <= i < |a| && CheckIfShouldReprocess(last, b)
        ensures Known(last.value, a[i])
      {
        assert a[i] in multiset(b);
        var k :| 0 <= k < |b| && b[k] == a[i];
        assert Known(last.value, b[k]);
      }
    }
  }

  /** It is a membership test, not a permutation check: two copies of one
      old file pass against a submission of two different files. */
  lemma DuplicatesMayMatchOneFile(f: FileInfo, g: FileInfo)
    ensures CheckIfShouldReprocess(Some([f, g]), [f, f])
  {
    assert SameFile([f, g][0], f);
  }

  /** A file whose name, size or modification time differs from every old
      file makes the selection new. */
  lemma UnknownFileIsNew(last: seq<FileInfo>, newFiles: seq<FileInfo>, i: nat)
    requires i < |newFiles|
    requires forall j :: 0 <= j < |last| ==> !SameFile(last[j], newFiles[i])
    ensures !CheckIfShouldReprocess(Some(last), newFiles)
  {
  }

  // ----------------------------------------------------------------------
  // The module state, as values
  // ----------------------------------------------------------------------

  /** The result list, the two counters and the fingerprint of the last
      submitted file set. */
  datatype BatchState = BatchState(
    results: seq<BatchItem>,
    processedCount: nat,
    totalImages: nat,
    lastProcessedFiles: Option<seq<FileInfo>>)

  const INITIAL_BATCH := BatchState([], 0, 0, None)

  function ResetSpec(b: BatchState): (r: BatchState)
    ensures r.results == [] && r.processedCount == 0 && r.totalImages == 0
    ensures r.lastProcessedFiles == b.lastProcessedFiles
  {
    b.(results := [], processedCount := 0, totalImages := 0)
  }

  function ClearSpec(b: BatchState): (r: BatchState)
    ensures r == INITIAL_BATCH
  {
    ResetSpec(b).(lastProcessedFiles := None)
  }

  /** A run appends one entry per file and counts each. */
  function RunSpec(b: BatchState, files: seq<FileInfo>, env: Environment): BatchState {
    b.(results := b.results + ItemsOf(files, env), processedCount := b.processedCount + |files|)
  }

  /** A submission: fingerprint, reset, total, run. */
  function UploadSpec(b: BatchState, files: seq<FileInfo>, env: Environment): BatchState {
    RunSpec(ResetSpec(b.(lastProcessedFiles := Some(files))).(totalImages := |files|), files, env)
  }

  /** What a submission does to the results area: clear the active mode's
      cache, show the spinner, then show the finished list. */
  function UploadUiSpec(u: UiState, items: seq<BatchItem>): UiState {
    DisplayBatchResultsSpec(ShowBatchLoadingSpec(ClearCurrentModePreservedSpec(u)), items)
  }

  /** Whatever the state before, a submission ends with one entry per file,
      in order, both counters at the file count, and the fingerprint set. */
  lemma UploadFromAnyState(b: BatchState, files: seq<FileInfo>, env: Environment)
    ensures var r := UploadSpec(b, files, env);
      && r.results == ItemsOf(files, env)
      && |r.results| == |files| == r.processedCount == r.totalImages
      && (forall i :: 0 <= i < |files| ==> r.results[i] == ProcessFile(files[i], env))
      && r.lastProcessedFiles == Some(files)
  {
    ItemsOfShape(files, env);
  }

  /** After a submission the same files count as a re-process; after a clear
      nothing does. */
  lemma FingerprintAfterUploadAndClear(b: BatchState, files: seq<FileInfo>, other: seq<FileInfo>, env: Environment)
    ensures CheckIfShouldReprocess(UploadSpec(b, files, env).lastProcessedFiles, files)
    ensures !CheckIfShouldReprocess(ClearSpec(b).lastProcessedFiles, other)
  {
    SameFilesAreReprocess(files);
  }

  /** A submission clears the cache of the active mode only. */
  lemma UploadKeepsOtherCache(u: UiState, items: seq<BatchItem>)
    requires |items| > 0
    ensures u.currentMode == Batch ==>
      && UploadUiSpec(u, items).preservedBatch == Some(items)
      && UploadUiSpec(u, items).preservedSingle == u.preservedSingle
    ensures u.currentMode == Single ==>
      && UploadUiSpec(u, items).preservedSingle == None
      && UploadUiSpec(u, items).preservedBatch == u.preservedBatch
    ensures UploadUiSpec(u, items).panel == BatchTable(items)
  {
  }

  /** What a folder selection or a drop led to. */
  datatype SelectionOutcome = NotBatchMode | NoImageFiles | Declined | Submitted

  // ----------------------------------------------------------------------
  // The module state as an object
  // ----------------------------------------------------------------------

  class Processor {
    var results: seq<BatchItem>
    var processedCount: nat
    var totalImages: nat
    var lastProcessedFiles: Option<seq<FileInfo>>
    /** The entries whose preview URL has been revoked, oldest first. */
    ghost var revokedPreviews: seq<BatchItem>

    function State(): BatchState
      reads this
    {
      BatchState(results, processedCount, totalImages, lastProcessedFiles)
    }

    /** The counter counts the entries. */
    ghost predicate Valid()
      reads this
    {
      processedCount == |results|
    }

    constructor ()
      ensures Valid() && State() == INITIAL_BATCH && revokedPreviews == []
    {
      results := [];
      processedCount := 0;
      totalImages := 0;
      lastProcessedFiles := None;
      revokedPreviews := [];
    }

    function GetBatchResults(): (r: seq<BatchItem>)
      reads this
      ensures r == State().results
    {
      results
    }

    /** The processed and total counts of the progress report. */
    function GetBatchProgress(): (p: (nat, nat))
      reads this
      ensures Valid() ==> p.0 == |State().results|
      ensures p.1 == State().totalImages
    {
      (processedCount, totalImages)
    }

    /** Revokes every held entry's preview, then drops the entries and zeroes
        the counters; the fingerprint stays. */
    method ResetBatchState()
      modifies this
      ensures Valid() && State() == ResetSpec(old(State()))
      ensures revokedPreviews == old(revokedPreviews) + old(results)
    {
      revokedPreviews := revokedPreviews + results;
      results := [];
      processedCount := 0;
      totalImages := 0;
    }

    /** A reset that also forgets the fingerprint. */
    method ClearBatchResults()
      modifies this
      ensures Valid() && State() == ClearSpec(old(State()))
      ensures revokedPreviews == old(revokedPreviews) + old(results)
    {
      ResetBatchState();
      lastProcessedFiles := None;
    }

    /** One step of the loop: exactly one entry for `file`, counted. */
    method ProcessImage(file: FileInfo, env: Environment)
      requires Valid()
      modifies this
      ensures Valid()
      ensures results == old(results) + [ProcessFile(file, env)]
      ensures processedCount == old(processedCount) + 1
      ensures totalImages == old(totalImages) && lastProcessedFiles == old(lastProcessedFiles)
      ensures revokedPreviews == old(revokedPreviews)
    {
      var entry := ProcessFile(file, env);
      results := results + [entry];
      processedCount := processedCount + 1;
    }

    /** The run over `files`, one file at a time, then the results display. */
    method ProcessBatchImages(files: seq<FileInfo>, env: Environment, ui: ModeManager)
      requires Valid() && ui.Valid()
      modifies this, ui
      ensures Valid() && ui.Valid()
      ensures State() == RunSpec(old(State()), files, env)
      ensures revokedPreviews == old(revokedPreviews)
      ensures ui.State() == DisplayBatchResultsSpec(old(ui.State()), results)
    {
      var index := 0;
      while index < |files|
        invariant 0 <= index <= |files|
        invariant Valid()
        invariant results == old(results) + ItemsOf(files[..index], env)
        invariant processedCount == old(processedCount) + index
        invariant totalImages == old(totalImages) && lastProcessedFiles == old(lastProcessedFiles)
        invariant revokedPreviews == old(revokedPreviews)
        modifies this
      {
        assert files[..index + 1][..index] == files[..index];
        ProcessImage(files[index], env);
        index := index + 1;
      }
      assert files[..index] == files;
      ui.DisplayBatchResults(results);
    }

    /** A submission: fingerprint the files, reset, clear the active mode's
        cache, set the total, show the spinner, run. */
    method HandleBatchUpload(files: seq<FileInfo>, env: Environment, ui: ModeManager)
      requires ui.Valid()
      modifies this, ui
      ensures Valid() && ui.Valid()
      ensures State() == UploadSpec(old(State()), files, env)
      ensures ui.State() == UploadUiSpec(old(ui.State()), ItemsOf(files, env))
      ensures revokedPreviews == old(revokedPreviews) + old(results)
    {
      lastProcessedFiles := Some(files);
      ResetBatchState();
      ui.ClearCurrentModePreservedResults();
      totalImages := |files|;
      ui.ShowBatchLoadingState();
      ProcessBatchImages(files, env, ui);
      assert results == [] + ItemsOf(files, env) == ItemsOf(files, env);
    }

    /** A folder selection. `confirmed` is the user's answer to the
        re-process question, asked only for a re-process. */
    method HandleFolderInputChange(selected: seq<FileInfo>, confirmed: bool, env: Environment, ui: ModeManager)
      returns (outcome: SelectionOutcome)
      requires ui.Valid()
      modifies this, ui
      ensures ui.Valid()
      ensures outcome == NoImageFiles <==> |ImageFiles(selected)| == 0
      ensures outcome == Declined <==>
        |ImageFiles(selected)| > 0 && CheckIfShouldReprocess(old(lastProcessedFiles), ImageFiles(selected)) && !confirmed
      ensures outcome != NotBatchMode
      ensures outcome != Submitted ==>
        State() == old(State()) && ui.State() == old(ui.State()) && revokedPreviews == old(revokedPreviews)
      ensures outcome == Submitted ==>
        && Valid()
        && State() == UploadSpec(old(State()), ImageFiles(selected), env)
        && ui.State() == UploadUiSpec(old(ui.State()), ItemsOf(ImageFiles(selected), env))
        && revokedPreviews == old(revokedPreviews) + old(results)
    {
      var files := ImageFiles(selected);
      if |files| == 0 {
        return NoImageFiles;
      }
      var shouldReprocess := CheckIfShouldReprocess(lastProcessedFiles, files);
      if shouldReprocess && !confirmed {
        return Declined;
      }
      ClearBatchResults();
      HandleBatchUpload(files, env, ui);
      outcome := Submitted;
    }

    /** A drop on the upload area, acted on in batch mode only. A re-process
        is not confirmed here. */
    method HandleBatchDrop(dropped: seq<FileInfo>, env: Environment, ui: ModeManager)
      returns (outcome: SelectionOutcome)
      requires ui.Valid()
      modifies this, ui
      ensures ui.Valid()
      ensures outcome == NotBatchMode <==> old(ui.State()).currentMode != Batch
      ensures outcome == NoImageFiles <==> old(ui.State()).currentMode == Batch && |ImageFiles(dropped)| == 0
      ensures outcome != Declined
      ensures outcome != Submitted ==>
        State() == old(State()) && ui.State() == old(ui.State()) && revokedPreviews == old(revokedPreviews)
      ensures outcome == Submitted ==>
        && Valid()
        && State() == UploadSpec(old(State()), ImageFiles(dropped), env)
        && ui.State() == UploadUiSpec(old(ui.State()), ItemsOf(ImageFiles(dropped), env))
        && revokedPreviews == old(revokedPreviews) + old(results)
    {
      if ui.GetCurrentMode() != Batch {
        return NotBatchMode;
      }
      var files := ImageFiles(dropped);
      if |files| == 0 {
        return NoImageFiles;
      }
      var shouldReprocess := CheckIfShouldReprocess(lastProcessedFiles, files);
      if shouldReprocess {
        ClearBatchResults();
      }
      HandleBatchUpload(files, env, ui);
      outcome := Submitted;
    }

    /** Drops all batch state and the active mode's cache, and shows the
        active mode's prompt. */
    method ForceBatchRestart(ui: ModeManager)
      requires ui.Valid()
      modifies this, ui
      ensures Valid() && ui.Valid()
      ensures State() == ClearSpec(old(State()))
      ensures ui.State() == ClearCurrentModePreservedSpec(ClearCurrentModeResultsSpec(old(ui.State())))
      ensures revokedPreviews == old(revokedPreviews) + old(results)
    {
      ResetBatchState();
      lastProcessedFiles := None;
      ui.ClearCurrentModeResults();
      ui.ClearCurrentModePreservedResults();
    }
  }
}
