/** The application-level operations: the clear buttons, which reach into
    the image handler, the batch processor and the mode state in a fixed
    order, and the CSV export. */
module App {
  import opened Wrappers
  import opened Records
  import opened Utils
  import opened UIManager
  import opened BatchProcessor
  import opened ImageHandler

  /** Everything the clear operations touch. */
  datatype AppState = AppState(ui: UiState, hasImage: bool, batch: BatchState)

  /** Clearing the active mode only: in single mode the image and the
      single-mode cache, in batch mode the batch state and the batch cache;
      then the active mode's prompt. */
  function ClearCurrentModeOnlySpec(a: AppState): AppState {
    if a.ui.currentMode == Single then
      AppState(ClearCurrentModeResultsSpec(ClearCurrentModePreservedSpec(a.ui)), false, a.batch)
    else
      AppState(ClearCurrentModeResultsSpec(ClearCurrentModePreservedSpec(a.ui)), a.hasImage, ClearSpec(a.batch))
  }

  /** Clearing everything, whatever the mode. */
  function ClearEverythingSpec(a: AppState): AppState {
    AppState(ClearCurrentModeResultsSpec(ClearAllPreservedSpec(a.ui)), false, ClearSpec(a.batch))
  }

  /** What an export produces: the CSV text, or nothing for an empty list. */
  function ExportSpec(items: seq<BatchItem>): (r: Option<string>)
    ensures r.Some? <==> |items| > 0
  {
    if |items| > 0 then Some(CSV_HEADER + CsvBody(items)) else None
  }

  /** In single mode, clearing touches neither the batch state nor the batch
      cache. */
  lemma SingleClearIsolation(a: AppState)
    requires a.ui.currentMode == Single
    ensures var r := ClearCurrentModeOnlySpec(a);
      && !r.hasImage && r.ui.preservedSingle == None
      && r.batch == a.batch && r.ui.preservedBatch == a.ui.preservedBatch
      && r.ui.currentMode == Single && r.ui.panel == DefaultPrompt(Single)
  {
  }

  /** In batch mode, clearing touches neither the image nor the single-mode
      cache, and the next selection is never a re-process. */
  lemma BatchClearIsolation(a: AppState, next: seq<FileInfo>)
    requires a.ui.currentMode == Batch
    ensures var r := ClearCurrentModeOnlySpec(a);
      && r.hasImage == a.hasImage && r.ui.preservedSingle == a.ui.preservedSingle
      && r.batch == INITIAL_BATCH && r.ui.preservedBatch == None
      && r.ui.currentMode == Batch && r.ui.panel == DefaultPrompt(Batch)
      && !CheckIfShouldReprocess(r.batch.lastProcessedFiles, next)
  {
  }

  /** Clearing everything leaves no image, no batch state and no caches, and
      doing it twice is doing it once. */
  lemma ClearEverythingClearsAll(a: AppState)
    ensures var r := ClearEverythingSpec(a);
      && !r.hasImage && r.batch == INITIAL_BATCH
      && r.ui.preservedSingle == None && r.ui.preservedBatch == None
      && r.ui.currentMode == a.ui.currentMode && r.ui.panel == DefaultPrompt(a.ui.currentMode)
    ensures ClearEverythingSpec(ClearEverythingSpec(a)) == ClearEverythingSpec(a)
  {
  }

  /** Clearing everything subsumes clearing the active mode first. */
  lemma ClearEverythingAbsorbsClearMode(a: AppState)
    ensures ClearEverythingSpec(ClearCurrentModeOnlySpec(a)) == ClearEverythingSpec(a)
  {
  }

  /** Clearing the active mode twice is clearing it once. */
  lemma ClearCurrentModeOnlyIdempotent(a: AppState)
    ensures ClearCurrentModeOnlySpec(ClearCurrentModeOnlySpec(a)) == ClearCurrentModeOnlySpec(a)
  {
  }

  /** An exported file has the header line and one line per entry. */
  lemma ExportLineCount(items: seq<BatchItem>)
    requires |items| > 0
    requires forall i :: 0 <= i < |items| ==> SingleLineText(items[i])
    ensures ExportSpec(items).Some? && NewlineCount(ExportSpec(items).value) == |items| + 1
  {
    CsvLineCount(items);
  }

  function Snapshot(ui: ModeManager, images: Handler, batch: Processor): AppState
    reads ui, images, batch
  {
    AppState(ui.State(), images.hasImage, batch.State())
  }

  method ClearCurrentModeOnly(ui: ModeManager, images: Handler, batch: Processor)
    requires ui.Valid()
    modifies ui, images, batch
    ensures ui.Valid()
    ensures Snapshot(ui, images, batch) == ClearCurrentModeOnlySpec(old(Snapshot(ui, images, batch)))
    ensures old(ui.currentMode) == Single ==> batch.revokedPreviews == old(batch.revokedPreviews)
    ensures old(ui.currentMode) == Batch ==>
      batch.Valid() && batch.revokedPreviews == old(batch.revokedPreviews) + old(batch.results)
  {
    if ui.GetCurrentMode() == Single {
      images.ClearCurrentImage();
      ui.ClearCurrentModePreservedResults();
      ui.ClearCurrentModeResults();
    } else {
      batch.ClearBatchResults();
      ui.ClearCurrentModePreservedResults();
      ui.ClearCurrentModeResults();
    }
  }

  /** The older entry point, which now clears the active mode only. */
  method ClearImage(ui: ModeManager, images: Handler, batch: Processor)
    requires ui.Valid()
    modifies ui, images, batch
    ensures ui.Valid()
    ensures Snapshot(ui, images, batch) == ClearCurrentModeOnlySpec(old(Snapshot(ui, images, batch)))
  {
    ClearCurrentModeOnly(ui, images, batch);
  }

  method ClearEverything(ui: ModeManager, images: Handler, batch: Processor)
    requires ui.Valid()
    modifies ui, images, batch
    ensures ui.Valid() && batch.Valid()
    ensures Snapshot(ui, images, batch) == ClearEverythingSpec(old(Snapshot(ui, images, batch)))
    ensures batch.revokedPreviews == old(batch.revokedPreviews) + old(batch.results)
  {
    images.ClearCurrentImage();
    batch.ClearBatchResults();
    ui.ClearAllPreservedResults();
    ui.ClearCurrentModeResults();
  }

  /** A mode switch as the mode buttons make it: the leaving mode's results
      are saved using the image handler's flag and the batch processor's live
      list, then the entered mode's results are restored. */
  method SwitchMode(ui: ModeManager, images: Handler, batch: Processor, mode: Mode)
    requires ui.Valid()
    modifies ui
    ensures ui.Valid()
    ensures ui.State() == SwitchModeSpec(old(ui.State()), mode, images.hasImage, batch.results)
  {
    var hasImage := images.HasImage();
    var live := batch.GetBatchResults();
    ui.SwitchMode(mode, hasImage, live);
  }

  /** Exports the live batch list when it is non-empty. */
  method ExportResults(batch: Processor) returns (csv: Option<string>)
    ensures csv == ExportSpec(batch.GetBatchResults())
    ensures csv.Some? <==> |batch.results| > 0
    ensures csv.Some? ==> csv.value == CSV_HEADER + CsvBody(batch.results)
  {
    var items := batch.GetBatchResults();
    if |items| > 0 {
      var text := ExportResultsToCsv(items);
      csv := Some(text);
    } else {
      csv := None;
    }
  }
}
