# WildLife AI front end — a Dafny model of its sequential core

WildLife AI is a browser front end that sends an animal photo, or a folder of them, to three image classifiers. The classifiers decide domestic or wild, large or small, and mammal or non-mammal. Around those calls sits a small amount of sequential logic. This project models that logic and proves properties of it:

- **Classification** (`classification.dfy`): the normaliser that turns a classifier's ranked output into a label and its opposite, and the all-or-nothing join of the three classifiers. Single-image and batch classification are both modelled. A classifier is an opaque function from an image to a settled call: resolved with a ranking, or rejected with a message.
- **Utils** (`utils.dfy`): the 0.60/0.80 confidence tiers, the label polarity rule, the plain-text result line, the batch summary loop, the CSV text built by the export loop, and the image-file checks.
- **UIManager** (`uimanager.dfy`): the two-mode state machine (`currentMode` plus the single-mode and batch caches) and the panel on screen. It is a class whose methods are proved against value-level transition functions (`SwitchModeSpec`, `RestoreSpec`, …); the lemmas are stated about those functions.
- **BatchProcessor** (`batchprocessor.dfy`): the batch state (result list, two counters, fingerprint of the last submission), the re-process guard, the reset operations, folder selection and drop handling, and the processing loop. The loop is a `while` over the file index, with one entry appended per file.
- **ImageHandler** (`imagehandler.dfy`): only the `hasImage` flag and `clearCurrentImage`.
- **App** (`app.dfy`): the clear operations and the export entry point of `main.js`.

Shared entities live in `records.dfy` (a selected file, a decoded image, a batch entry) and `wrappers.dfy` (`Option`, `Result`).

The browser, the classifiers and the user are parameters:
- `Environment.decodes` says whether the browser decodes a file;
- `Models` holds the three classifier handles;
- `ModeManager.SwitchMode` takes `hasImage` and the live batch list as arguments; `App.SwitchMode` reads them from the image handler and the batch processor, as the mode buttons do;
- the answer to the re-process question is the `confirmed` argument.

The source's result field `label` is called `name` here, because `label` is a Dafny keyword. A thrown error is a `Failure` carrying the error's message. An error entry whose message is missing is modelled as one with an empty message; the CSV and the summary treat both alike.

## Model

| member | source | states |
|---|---|---|
| Classification.ProcessClassificationResult | js/modules/classification.js:107-131 | null exactly when the input is missing, has fewer than two entries, or either of the first two entries has an empty or missing label or a non-numeric confidence; otherwise label and confidence come from entry 0, opposite and its confidence from entry 1, and both labels are non-empty |
| Classification.ProcessIgnoresLaterEntries | js/modules/classification.js:122-127 | entries after the second never change the normalised result |
| Classification.AreModelsLoaded | js/modules/classification.js:136-138 | true exactly when all three classifier handles are set |
| Classification.Join | js/modules/classification.js:71-75 | the join succeeds exactly when all three calls resolve; otherwise it fails with the first rejection in argument order |
| Classification.ClassifyImageBatch | js/modules/classification.js:61-102 | fails with "One or more AI models not loaded yet" when a handle is unset; succeeds exactly when all calls resolve and all three rankings normalise, and then returns the three normalised axes |
| Classification.ClassifyImage | js/modules/classification.js:35-59 | fails when a handle is unset or a call rejects; otherwise returns the three normalised axes, each possibly null |
| Classification.RejectionFailsBoth | js/modules/classification.js:40-101 | one rejected classifier call fails both classify functions, with the same message |
| Classification.BatchIsCompletedSingle | js/modules/classification.js:49-93 | batch classification succeeds exactly when single classification succeeds with no null axis, and then both give the same axes |
| Classification.ClassifyImageMayReturnNullAxes | js/modules/classification.js:49-53 | with too-short rankings, single classification succeeds with three null axes while batch classification fails |
| Utils.GetConfidenceLevel | js/modules/utils.js:11-16 | "is" iff c >= 0.80, "likely" iff 0.60 <= c < 0.80, "could be" iff c < 0.60 |
| Utils.GetConfidenceClass | js/modules/utils.js:26-31 | high/medium/low class iff the same three threshold ranges |
| Utils.ConfidenceCellClass | js/modules/utils.js:92-93 | the cell class derived from the level word equals the class chosen from the thresholds, for every confidence |
| Utils.TierOf | js/modules/utils.js:191-197 | the summary bucket is the tier the level word names, in both directions |
| Utils.TierBoundaries | js/config/constants.js:16-19 | 0.80 and 0.60 belong to the upper tier; values just below fall to the lower tier |
| Utils.GetLabelColorClass | js/modules/utils.js:36-46 | positive iff the label is Domestic/Large/Mammal, negative iff Wild/Small/Non-Mammal, empty iff neither |
| Utils.LabelListsDisjoint | js/config/constants.js:22-23 | no label is both positive and negative |
| Utils.Percent | js/modules/utils.js:75 | the rounded percentage lies within one half of confidence times 100 |
| Utils.FormatClassificationTextPlain | js/modules/utils.js:71-85 | "Error" for a missing result; otherwise "Subject is", "Subject is likely" or "Subject could be", chosen by tier, then the label and percentage |
| Utils.PlainTextSaysCouldBeExactlyWhenLow | js/modules/utils.js:77-84 | the text starts with "Subject could be " iff the confidence is in the low tier |
| Utils.PlainTextSaysLikelyExactlyWhenMedium | js/modules/utils.js:77-84 | the text starts with "Subject is likely " iff the confidence is in the medium tier, for labels that do not themselves read "likely" |
| Utils.CalculateBatchSummary | js/modules/utils.js:178-228 | the nine-counter loop computes the summary fold over the entries |
| Utils.SummaryMatchesCounts | js/modules/utils.js:185-227 | totalFiles is the entry count; totalProcessed is the number of classified entries; each bucket counts the classified entries of that tier on that axis |
| Utils.TiersPartitionClassified | js/modules/utils.js:189-218 | on each axis, every classified entry lands in exactly one tier |
| Utils.BucketsSumToProcessed | js/modules/utils.js:185-219 | high + medium + low equals totalProcessed on every axis |
| Utils.FailedEntryCountsOnlyAsFile | js/modules/utils.js:186 | an error entry adds one file and nothing else |
| Utils.CsvFields | js/modules/utils.js:146-161 | eight fields per row: the quoted name; for an error entry six "Error" fields and the quoted message or "Unknown error"; for a classified entry each axis's quoted label and rounded percentage, then the quoted three-part summary |
| Utils.ExportResultsToCsv | js/modules/utils.js:142-162 | the loop builds the header followed by one row per entry, in order |
| Utils.CsvBodyAppend | js/modules/utils.js:145 | the rows of a concatenation are the rows of the parts, in order |
| Utils.HeaderIsOneLine | js/modules/utils.js:143 | the header is exactly one line |
| Utils.RowIsOneLine | js/modules/utils.js:155-161 | a row is exactly one line when the entry's names and message have no line break |
| Utils.CsvLineCount | js/modules/utils.js:143-162 | the CSV has one line for the header plus one per entry |
| Utils.IsValidImageFile | js/modules/utils.js:107-109 | true iff the MIME type starts with "image/" |
| Utils.LoadImageFromFile | js/modules/utils.js:111-137 | a non-image type fails with "Invalid image file: name"; an undecodable image fails with "Failed to load image: name"; otherwise the image of that file |
| UIManager.PlaceholdersCarryMarkers | js/modules/uiManager.js:114-140 | the single-mode prompt contains "Upload an image to see" and the re-run prompt contains "Image loaded!"; the batch prompt contains neither, so the text test at uiManager.js:25 also treats it as a result panel |
| UIManager.ClearCurrentModeResultsSpec | js/modules/uiManager.js:133-140 | shows the active mode's prompt and changes nothing else |
| UIManager.ClearCurrentModePreservedSpec | js/modules/uiManager.js:142-152 | nulls only the active mode's cache |
| UIManager.ClearAllPreservedSpec | js/modules/uiManager.js:154-158 | nulls both caches and nothing else |
| UIManager.DisplayResultsSpec | js/modules/uiManager.js:189-239 | a null axis leaves the state unchanged; otherwise the cards are shown, and cached only in single mode |
| UIManager.DisplayBatchResultsSpec | js/modules/uiManager.js:289-312 | in batch mode the list is cached before the emptiness check; an empty list shows the no-results panel, otherwise the table |
| UIManager.ShowLoadingSpec | js/modules/uiManager.js:526-536 | shows the spinner and changes nothing else |
| UIManager.ShowBatchLoadingSpec | js/modules/uiManager.js:538-549 | shows the batch spinner and changes nothing else |
| UIManager.SwitchModeSpec | js/modules/uiManager.js:18-80 | afterwards the mode is the requested one; no cache that was set is cleared |
| UIManager.LeavingSingleCachesOnlyResults | js/modules/uiManager.js:22-28 | leaving single mode caches the panel exactly when an image is loaded and the panel is not a placeholder; otherwise the cache is kept |
| UIManager.LeavingBatchCachesNonEmptyList | js/modules/uiManager.js:29-36 | leaving batch mode caches the live list when it is non-empty and otherwise keeps the old cache; the single-mode cache is untouched |
| UIManager.EnteringSingleShows | js/modules/uiManager.js:88-100 | with an image, single mode shows the cached panel, or the re-run prompt when none is cached; without an image, the default prompt |
| UIManager.EnteringBatchShows | js/modules/uiManager.js:101-111 | batch mode shows the cached list when it is non-empty, otherwise the default prompt; the cache stays as saved |
| UIManager.SwitchModeKeepsInv | js/modules/uiManager.js:18-80 | switching never puts a placeholder into the single-mode cache |
| UIManager.DisplayKeepsInv | js/modules/uiManager.js:189-239 | displaying, clearing and the loading panels never put a placeholder into the single-mode cache |
| UIManager.BatchSingleBatchRoundTrip | js/modules/uiManager.js:29-111 | batch to single to batch shows the list that was live (or cached) when batch mode was left, and leaves the single-mode cache as it was |
| UIManager.SingleBatchSingleRoundTrip | js/modules/uiManager.js:22-100 | single to batch to single, with an image loaded, restores the result panel that was on screen |
| UIManager.SpinnerIsCachedAsResult | js/modules/uiManager.js:22-28 | a spinner on screen when single mode is left is cached and restored as if it were a result |
| UIManager.BatchTableCanBeCachedAsSingle | js/modules/batchProcessor.js:189 | a run ending in single mode shows its table there, and leaving single mode then caches the table as the single-mode result |
| UIManager.ClearPreservedIsolation | js/modules/uiManager.js:142-158 | clearing the active cache keeps the other one; clearing all after clearing one is clearing all |
| UIManager.ModeManager.constructor | js/modules/uiManager.js:11-13 | the initial state is single mode with both caches null |
| UIManager.ModeManager.GetCurrentMode | js/modules/uiManager.js:126-128 | returns the active mode |
| UIManager.ModeManager.ClearCurrentModeResults | js/modules/uiManager.js:133-140 | performs ClearCurrentModeResultsSpec |
| UIManager.ModeManager.ShowImageWithoutResults | js/modules/uiManager.js:114-124 | shows the re-run prompt and changes nothing else |
| UIManager.ModeManager.ShowLoadingState | js/modules/uiManager.js:526-536 | performs ShowLoadingSpec |
| UIManager.ModeManager.ShowBatchLoadingState | js/modules/uiManager.js:538-549 | performs ShowBatchLoadingSpec |
| UIManager.ModeManager.ClearCurrentModePreservedResults | js/modules/uiManager.js:142-152 | performs ClearCurrentModePreservedSpec |
| UIManager.ModeManager.ClearAllPreservedResults | js/modules/uiManager.js:154-158 | performs ClearAllPreservedSpec |
| UIManager.ModeManager.DisplayResults | js/modules/uiManager.js:189-239 | reports whether the cards could be built (no null axis) and performs DisplayResultsSpec |
| UIManager.ModeManager.DisplayBatchResults | js/modules/uiManager.js:289-488 | performs DisplayBatchResultsSpec |
| UIManager.ModeManager.RestorePreservedResults | js/modules/uiManager.js:85-112 | performs RestoreSpec once the mode is set |
| UIManager.ModeManager.SwitchMode | js/modules/uiManager.js:18-80 | performs SwitchModeSpec and keeps the cache invariant |
| BatchProcessor.ValidateTriple | js/modules/batchProcessor.js:240-245 | no error iff every axis has a non-empty label; otherwise "Invalid domestic/size/mammal classification result" for the first axis that fails |
| BatchProcessor.BatchSuccessPassesValidation | js/modules/batchProcessor.js:235-245 | the loop's own checks never reject what batch classification returns |
| BatchProcessor.ProcessFile | js/modules/batchProcessor.js:223-281 | the entry carries the file's name and file; it is a success iff the file is an image, decodes and classifies, and then holds that triple; otherwise an error entry with the first failure's message |
| BatchProcessor.ItemsOfShape | js/modules/batchProcessor.js:171-287 | a run over n files yields n entries, entry i being file i's outcome |
| BatchProcessor.FilenamesInOrder | js/modules/batchProcessor.js:247-249 | entry i carries the name of file i |
| BatchProcessor.ItemsOfAppend | js/modules/batchProcessor.js:283-286 | what a run records for later files does not depend on earlier files: the entries of a concatenation are the entries of the parts |
| BatchProcessor.ImageFiles | js/modules/batchProcessor.js:74 | keeps exactly the files whose MIME type starts with "image/" |
| BatchProcessor.ImageFilesCounts | js/modules/batchProcessor.js:74 | each image file is kept as many times as it occurs in the selection, and no other file is kept |
| BatchProcessor.ImageFilesSingle | js/modules/batchProcessor.js:74 | a one-file selection keeps its file exactly when it is an image file |
| BatchProcessor.ImageFilesAppend | js/modules/batchProcessor.js:53 | the filter keeps selection order: the image files of a concatenation are those of the first part followed by those of the second |
| BatchProcessor.Find | js/modules/batchProcessor.js:126-130 | finds a file with the same name, size and modification time exactly when one exists, and it is the first such file |
| BatchProcessor.AllFound | js/modules/batchProcessor.js:124-137 | true iff every new file has a match among the old ones |
| BatchProcessor.CheckIfShouldReprocess | js/modules/batchProcessor.js:118-138 | false without a fingerprint or with a different file count; otherwise true iff every new file matches some old file |
| BatchProcessor.SameFilesAreReprocess | js/modules/batchProcessor.js:118-138 | submitting the same files again is a re-process |
| BatchProcessor.ReprocessIgnoresOrder | js/modules/batchProcessor.js:124-137 | reordering the new files does not change the answer |
| BatchProcessor.DuplicatesMayMatchOneFile | js/modules/batchProcessor.js:126-130 | two copies of one old file pass the check against two different old files |
| BatchProcessor.UnknownFileIsNew | js/modules/batchProcessor.js:132-134 | one unmatched file makes the selection new |
| BatchProcessor.ResetSpec | js/modules/batchProcessor.js:293-308 | empties the list and zeroes both counters, keeping the fingerprint |
| BatchProcessor.ClearSpec | js/modules/batchProcessor.js:310-317 | returns to the initial batch state, fingerprint included |
| BatchProcessor.UploadFromAnyState | js/modules/batchProcessor.js:143-169 | from any state, a submission ends with one entry per file in order, both counters equal to the file count, and the fingerprint set to the files |
| BatchProcessor.FingerprintAfterUploadAndClear | js/modules/batchProcessor.js:146-147 | after a submission, the same files are a re-process; after a clear, nothing is |
| BatchProcessor.UploadKeepsOtherCache | js/modules/batchProcessor.js:153 | a submission clears only the active mode's cache, and the finished list is shown |
| BatchProcessor.Processor.constructor | js/modules/batchProcessor.js:11-14 | empty list, zero counters, no fingerprint |
| BatchProcessor.Processor.GetBatchResults | js/modules/batchProcessor.js:319-321 | returns the live list |
| BatchProcessor.Processor.GetBatchProgress | js/modules/batchProcessor.js:323-329 | the processed count equals the list length, and the total is totalImages |
| BatchProcessor.Processor.ResetBatchState | js/modules/batchProcessor.js:293-308 | performs ResetSpec and revokes the preview of every entry it drops |
| BatchProcessor.Processor.ClearBatchResults | js/modules/batchProcessor.js:310-317 | performs ClearSpec and revokes the previews |
| BatchProcessor.Processor.ProcessImage | js/modules/batchProcessor.js:216-287 | one step appends exactly the file's entry, adds one to processedCount and changes nothing else |
| BatchProcessor.Processor.ProcessBatchImages | js/modules/batchProcessor.js:171-288 | appends the entries of all files in order, counts each, then shows the list |
| BatchProcessor.Processor.HandleBatchUpload | js/modules/batchProcessor.js:143-169 | performs UploadSpec on the batch state and UploadUiSpec on the results area |
| BatchProcessor.Processor.HandleFolderInputChange | js/modules/batchProcessor.js:71-113 | with no image files, or a declined re-process, nothing changes; otherwise a clear and a submission of the image files |
| BatchProcessor.Processor.HandleBatchDrop | js/modules/batchProcessor.js:44-69 | ignored outside batch mode; nothing changes with no image files; otherwise a submission of the image files, with no confirmation asked |
| BatchProcessor.Processor.ForceBatchRestart | js/modules/batchProcessor.js:334-354 | clears the batch state, shows the active mode's prompt and clears the active mode's cache |
| ImageHandler.Handler.HasImage | js/modules/imageHandler.js:285-287 | reports whether an image is loaded |
| ImageHandler.Handler.ClearCurrentImage | js/modules/imageHandler.js:254-279 | afterwards no image is loaded |
| App.ExportSpec | js/main.js:112-120 | CSV is produced exactly when the list is non-empty |
| App.SingleClearIsolation | js/main.js:83-94 | in single mode: the image and the single-mode cache are cleared; the batch state and batch cache are untouched; the mode stays and its prompt is shown |
| App.BatchClearIsolation | js/main.js:95-102 | in batch mode: the batch state and batch cache are cleared; the image and single-mode cache are untouched; the next selection is never a re-process |
| App.ClearEverythingClearsAll | js/main.js:129-150 | clears the image, the batch state and both caches whatever the mode; doing it twice is doing it once |
| App.ClearEverythingAbsorbsClearMode | js/main.js:129-150 | clearing everything after clearing the active mode is clearing everything |
| App.ClearCurrentModeOnlyIdempotent | js/main.js:79-103 | clearing the active mode twice is clearing it once |
| App.ExportLineCount | js/main.js:116 | an export has one line for the header and one per entry |
| App.ClearCurrentModeOnly | js/main.js:79-103 | performs ClearCurrentModeOnlySpec; only the batch branch revokes previews |
| App.ClearImage | js/main.js:105-110 | behaves exactly as ClearCurrentModeOnly |
| App.ClearEverything | js/main.js:129-150 | performs ClearEverythingSpec |
| App.SwitchMode | js/modules/uiManager.js:18-31 | performs SwitchModeSpec with the image handler's flag and the batch processor's live list as the values the leaving mode saves |
| App.ExportResults | js/main.js:112-120 | returns the CSV of the live list when it is non-empty, otherwise nothing |

## Left out

- DOM and HTML work is not modelled:
  - the card, table and summary markup;
  - button classes and upload-area text;
  - scrolling, `alert`, and resetting the file inputs.
  - A panel is a datatype value, not its HTML.
- `IsPlaceholder` is structural: the single-mode prompt and the re-run prompt. The source tests the panel's HTML for the two marker strings. A result panel whose label text happened to contain a marker would also count as a placeholder there. Here it does not.
- Timers are not modelled. The `setTimeout` delays, including `PROCESSING_DELAY`, are throttles. The batch run is one synchronous loop.
  - Overlapping runs and user actions that interleave with a run are not modelled.
  - The source has no generation guard against these.
- The single-image upload flow of the image handler is not modelled: p5 image creation, drawing, zoom, and how it reaches `classifyImage`/`displayResults`. Only `hasImage` and `clearCurrentImage` are kept.
- Classifier internals are not modelled: ml5 loading (`preloadModels`) and the classifiers themselves. `Promise.all` timing is abstracted: when several calls reject, the first in argument order is taken as the one that wins.
- Object URLs: only a ghost log of revoked previews is kept. These are not modelled:
  - the `imageUrl` and `processedAt` fields;
  - the URL `loadImageFromFile` creates and never revokes;
  - the image URL revoked by `clearCurrentImage`.
  - No property is claimed about cached entries whose previews were revoked.
- Array aliasing: the batch cache shares its array with the live list in the source. Here both are value snapshots.
- Floating point: confidences are exact reals.
  - NaN and infinities are not modelled. The source accepts any `typeof` number, NaN included.
  - `Math.round` is floor of x + 1/2 on reals.
  - The progress percentage of `getBatchProgress` and `updateBatchProgress` is not modelled.
- Null entries are not modelled. In `processClassificationResult` a null first or second entry makes the source throw a TypeError instead of returning null.
- `ClassifyImage`: an unset handle fails with the message a browser gives for reading `classify` of `undefined`. The exact text is engine-specific.
- Non-Error rejections (no `message`) are not modelled separately. They are represented by an empty message.
- Unreachable checks are not modelled separately. Because a `Triple` always holds three outcomes with real confidences, these cannot be written down:
  - the batch loop's "Incomplete classification results" check;
  - the `typeof confidence` check;
  - the `|| 0` fallback of the summary for a missing axis.
  - `BatchSuccessPassesValidation` proves that the remaining label check never fires.
  - For `|| 0`: a confidence of 0 would have landed in the low tier.
- The summary validity check in `displayBatchResults` always passes here. So does the per-row `try`/`catch` of the table.
- The initial panel is taken to be the single-mode prompt. The page markup the app starts from is not part of this model.
- `getModelInfo`, `getStatusClass`, `formatClassificationText` and `formatConfidenceCell`'s markup are out of scope. Of `formatConfidenceCell`, only the class choice is modelled. `MAX_BATCH_SIZE` is not modelled; the source never enforces it.
- Utils.PlainTextSaysLikelyExactlyWhenMedium: a label that itself starts with "likely " is excluded. For such a label, high-tier text also starts with "Subject is likely ".
- The model follows the code on three points that a looser reading might assume otherwise:
  - any `typeof` number is accepted as a confidence, not only finite ones;
  - batch runs have no generation guard;
  - "models loaded" means the three handles are assigned, with no readiness check.
