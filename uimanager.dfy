/** The two-mode results area of the front end: which mode is active, what the
    results panel shows, and the per-mode caches that let a user switch
    between single-image and batch mode without losing results. */
module UIManager {
  import opened Wrappers
  import opened Classification
  import opened Records

  datatype Mode = Single | Batch

  /** What the results panel shows. */
  datatype Panel =
    | DefaultPrompt(mode: Mode)      // "Upload an image / a folder to see classification results"
    | RerunPrompt                    // "Image loaded! Click ... to re-run classification"
    | Loading                        // the single-image spinner
    | BatchLoading                   // the batch spinner and progress bar
    | SingleResults(results: Triple) // the three classification cards and summary
    | BatchTable(items: seq<BatchItem>) // the batch summary and table
    | NoBatchResults                 // "No results to display ..."

  // ----------------------------------------------------------------------
  // Placeholder text
  // ----------------------------------------------------------------------

  const SINGLE_MARKER := "Upload an image to see"
  const RERUN_MARKER := "Image loaded!"
  /** The re-run prompt: the marker, then the instruction. */
  const RERUN_TEXT := RERUN_MARKER + " Click \"Upload Animal Image\" to re-run classification"

  /** The text of the default prompt of a mode. */
  function PromptText(mode: Mode): string {
    "Upload " + (if mode == Single then "an image" else "a folder") + " to see classification results"
  }

  /** `t` occurs somewhere in `s`. */
  predicate Contains(s: string, t: string) {
    |t| <= |s| && (s[..|t|] == t || Contains(s[1..], t))
  }

  /** The panels whose text carries one of the two markers that keep a panel
      out of the single-mode cache: the single-mode prompt and the re-run
      prompt. */
  predicate IsPlaceholder(p: Panel) {
    p == DefaultPrompt(Single) || p == RerunPrompt
  }

  /** `t` does not occur in `s` when it is not a prefix of `s` and its first
      character appears nowhere after the first position of `s`. */
  lemma {:induction false} NotContainedByFirstChar(s: string, t: string)
    requires |t| > 0
    requires |t| <= |s| ==> s[..|t|] != t
    requires forall k :: 1 <= k < |s| ==> s[k] != t[0]
    ensures !Contains(s, t)
  {
    if |t| <= |s| {
      var tail := s[1..];
      if |t| <= |tail| {
        assert tail[..|t|][0] == s[1] != t[0];
      }
      forall k | 1 <= k < |tail|
        ensures tail[k] != t[0]
      {
        assert tail[k] == s[k + 1];
      }
      NotContainedByFirstChar(tail, t);
    }
  }

  /** The two placeholder panels carry the markers the cache test looks for,
      and the batch prompt carries neither, so the structural placeholder test
      agrees with the text test on every prompt. */
  lemma PlaceholdersCarryMarkers()
    ensures Contains(PromptText(Single), SINGLE_MARKER)
    ensures Contains(RERUN_TEXT, RERUN_MARKER)
    ensures !Contains(PromptText(Batch), SINGLE_MARKER)
    ensures !Contains(PromptText(Batch), RERUN_MARKER)
  {
    assert PromptText(Single)[..|SINGLE_MARKER|] == SINGLE_MARKER;
    assert RERUN_TEXT[..|RERUN_MARKER|] == RERUN_MARKER;
    var b := PromptText(Batch);
    assert b[..|SINGLE_MARKER|][8] != SINGLE_MARKER[8];
    assert b[..|RERUN_MARKER|][0] != RERUN_MARKER[0];
    assert forall k :: 1 <= k < |b| ==> b[k] != 'U' && b[k] != 'I';
    NotContainedByFirstChar(b, SINGLE_MARKER);
    NotContainedByFirstChar(b, RERUN_MARKER);
  }

  // ----------------------------------------------------------------------
  // The state and its transitions, as values
  // ----------------------------------------------------------------------

  /** The module state: the active mode, the cached single-mode panel, the
      cached batch list, and the panel on screen. */
  datatype UiState = UiState(
    currentMode: Mode,
    preservedSingle: Option<Panel>,
    preservedBatch: Option<seq<BatchItem>>,
    panel: Panel)

  const INITIAL := UiState(Single, None, None, DefaultPrompt(Single))

  /** The single-mode cache never holds a placeholder. */
  ghost predicate Inv(s: UiState) {
    s.preservedSingle.Some? ==> !IsPlaceholder(s.preservedSingle.value)
  }

  function ClearCurrentModeResultsSpec(s: UiState): (r: UiState)
    ensures r.panel == DefaultPrompt(s.currentMode)
    ensures r.(panel := s.panel) == s
  {
    s.(panel := DefaultPrompt(s.currentMode))
  }

  function ClearCurrentModePreservedSpec(s: UiState): (r: UiState)
    ensures s.currentMode == Single ==> r.preservedSingle == None && r.preservedBatch == s.preservedBatch
    ensures s.currentMode == Batch ==> r.preservedBatch == None && r.preservedSingle == s.preservedSingle
    ensures r.currentMode == s.currentMode && r.panel == s.panel
  {
    if s.currentMode == Single then s.(preservedSingle := None) else s.(preservedBatch := None)
  }

  function ClearAllPreservedSpec(s: UiState): (r: UiState)
    ensures r.preservedSingle == None && r.preservedBatch == None
    ensures r.currentMode == s.currentMode && r.panel == s.panel
  {
    s.(preservedSingle := None, preservedBatch := None)
  }

  /** Showing a single-image result: a null axis makes the card builder throw
      before anything is written, so the state stays as it was; otherwise the
      cards are shown and, in single mode only, cached. */
  function DisplayResultsSpec(s: UiState, results: PartialTriple): (r: UiState)
    ensures (results.domestic.None? || results.size.None? || results.mammal.None?) ==> r == s
    ensures results.domestic.Some? && results.size.Some? && results.mammal.Some? ==>
      var shown := SingleResults(Triple(results.domestic.value, results.size.value, results.mammal.value));
      && r.panel == shown
      && r.preservedSingle == (if s.currentMode == Single then Some(shown) else s.preservedSingle)
      && r.preservedBatch == s.preservedBatch && r.currentMode == s.currentMode
  {
    if results.domestic.None? || results.size.None? || results.mammal.None? then s
    else
      var shown := SingleResults(Triple(results.domestic.value, results.size.value, results.mammal.value));
      var s1 := s.(panel := shown);
      if s.currentMode == Single then s1.(preservedSingle := Some(shown)) else s1
  }

  /** Showing a batch list: in batch mode the list is cached first, even when
      it is empty; an empty list shows the "no results" panel. */
  function DisplayBatchResultsSpec(s: UiState, items: seq<BatchItem>): (r: UiState)
    ensures r.preservedBatch == (if s.currentMode == Batch then Some(items) else s.preservedBatch)
    ensures r.panel == (if |items| == 0 then NoBatchResults else BatchTable(items))
    ensures r.currentMode == s.currentMode && r.preservedSingle == s.preservedSingle
  {
    var s1 := if s.currentMode == Batch then s.(preservedBatch := Some(items)) else s;
    if |items| == 0 then s1.(panel := NoBatchResults) else s1.(panel := BatchTable(items))
  }

  function ShowLoadingSpec(s: UiState): (r: UiState)
    ensures r.panel == Loading && r.(panel := s.panel) == s
  {
    s.(panel := Loading)
  }

  function ShowBatchLoadingSpec(s: UiState): (r: UiState)
    ensures r.panel == BatchLoading && r.(panel := s.panel) == s
  {
    s.(panel := BatchLoading)
  }

  /** Re-populating the panel after the mode has been set to `newMode`. */
  function RestoreSpec(s: UiState, newMode: Mode, hasImage: bool): UiState {
    if newMode == Single then
      if s.preservedSingle.Some? && hasImage then s.(panel := s.preservedSingle.value)
      else if hasImage then s.(panel := RerunPrompt)
      else ClearCurrentModeResultsSpec(s)
    else if s.preservedBatch.Some? && |s.preservedBatch.value| > 0 then
      DisplayBatchResultsSpec(s, s.preservedBatch.value)
    else ClearCurrentModeResultsSpec(s)
  }

  /** The cache update made on the way out of the current mode. `hasImage`
      and `live` are what the image handler and the batch processor report. */
  function SaveOnLeaveSpec(s: UiState, hasImage: bool, live: seq<BatchItem>): UiState {
    if s.currentMode == Single && hasImage then
      if !IsPlaceholder(s.panel) then s.(preservedSingle := Some(s.panel)) else s
    else if s.currentMode == Batch then
      if |live| > 0 then s.(preservedBatch := Some(live)) else s
    else s
  }

  /** Switching mode: save the leaving mode's results, set the mode, restore
      the entered mode's results. Switching never empties a cache. */
  function SwitchModeSpec(s: UiState, mode: Mode, hasImage: bool, live: seq<BatchItem>): (r: UiState)
    ensures r.currentMode == mode
    ensures s.preservedSingle.Some? ==> r.preservedSingle.Some?
    ensures s.preservedBatch.Some? ==> r.preservedBatch.Some?
  {
    RestoreSpec(SaveOnLeaveSpec(s, hasImage, live).(currentMode := mode), mode, hasImage)
  }

  // ----------------------------------------------------------------------
  // Properties of the transitions
  // ----------------------------------------------------------------------

  /** Leaving single mode changes the single-mode cache exactly when an image
      is loaded and the panel is not a placeholder, and then caches that panel.
      Leaving batch mode leaves it alone. */
  lemma LeavingSingleCachesOnlyResults(s: UiState, mode: Mode, hasImage: bool, live: seq<BatchItem>)
    requires mode == Batch
    ensures var r := SwitchModeSpec(s, mode, hasImage, live);
      r.preservedSingle ==
        (if s.currentMode == Single && hasImage && !IsPlaceholder(s.panel) then Some(s.panel)
         else s.preservedSingle)
  {
  }

  /** Leaving batch mode caches the live list when it is non-empty; an empty
      live list keeps the old cache. */
  lemma LeavingBatchCachesNonEmptyList(s: UiState, hasImage: bool, live: seq<BatchItem>)
    requires s.currentMode == Batch
    ensures var r := SwitchModeSpec(s, Single, hasImage, live);
      && r.preservedBatch == (if |live| > 0 then Some(live) else s.preservedBatch)
      && r.preservedSingle == s.preservedSingle
  {
  }

  /** What entering single mode shows. */
  lemma EnteringSingleShows(s: UiState, hasImage: bool, live: seq<BatchItem>)
    ensures var r := SwitchModeSpec(s, Single, hasImage, live);
      r.panel ==
        (if hasImage && r.preservedSingle.Some? then r.preservedSingle.value
         else if hasImage then RerunPrompt
         else DefaultPrompt(Single))
  {
  }

  /** What entering batch mode shows; a shown cached list is cached again. */
  lemma EnteringBatchShows(s: UiState, hasImage: bool, live: seq<BatchItem>)
    ensures var r := SwitchModeSpec(s, Batch, hasImage, live);
      && r.panel ==
        (if r.preservedBatch.Some? && |r.preservedBatch.value| > 0 then BatchTable(r.preservedBatch.value)
         else DefaultPrompt(Batch))
      && r.preservedBatch == SaveOnLeaveSpec(s, hasImage, live).preservedBatch
  {
  }

  /** Every transition keeps the single-mode cache free of placeholders. */
  lemma SwitchModeKeepsInv(s: UiState, mode: Mode, hasImage: bool, live: seq<BatchItem>)
    requires Inv(s)
    ensures Inv(SwitchModeSpec(s, mode, hasImage, live))
  {
  }

  lemma DisplayKeepsInv(s: UiState, results: PartialTriple, items: seq<BatchItem>)
    requires Inv(s)
    ensures Inv(DisplayResultsSpec(s, results))
    ensures Inv(DisplayBatchResultsSpec(s, items))
    ensures Inv(ClearCurrentModeResultsSpec(s)) && Inv(ClearCurrentModePreservedSpec(s)) && Inv(ClearAllPreservedSpec(s))
    ensures Inv(ShowLoadingSpec(s)) && Inv(ShowBatchLoadingSpec(s))
  {
  }

  /** Batch, then single, then batch again with nothing in between shows the
      list that was live (or cached) when batch mode was left, and leaves the
      single-mode cache as it was. */
  lemma {:induction false} BatchSingleBatchRoundTrip(s: UiState, hasImage: bool, live: seq<BatchItem>, live2: seq<BatchItem>)
    requires Inv(s) && s.currentMode == Batch
    ensures var s1 := SwitchModeSpec(s, Single, hasImage, live);
      var s2 := SwitchModeSpec(s1, Batch, hasImage, live2);
      var cached := if |live| > 0 then Some(live) else s.preservedBatch;
      && s2.currentMode == Batch
      && s2.preservedBatch == cached
      && s2.panel == (if cached.Some? && |cached.value| > 0 then BatchTable(cached.value) else DefaultPrompt(Batch))
      && s2.preservedSingle == s.preservedSingle
  {
    var s1 := SwitchModeSpec(s, Single, hasImage, live);
    assert s1.preservedSingle == s.preservedSingle;
    assert hasImage && s1.preservedSingle.Some? ==> s1.panel == s1.preservedSingle.value;
    assert hasImage && s1.preservedSingle.None? ==> s1.panel == RerunPrompt;
  }

  /** Single, then batch, then single again with the image still loaded puts
      a result panel back on screen. */
  lemma {:induction false} SingleBatchSingleRoundTrip(s: UiState, live: seq<BatchItem>, live2: seq<BatchItem>)
    requires s.currentMode == Single && !IsPlaceholder(s.panel)
    ensures var s1 := SwitchModeSpec(s, Batch, true, live);
      var s2 := SwitchModeSpec(s1, Single, true, live2);
      && s2.panel == s.panel
      && s2.preservedSingle == Some(s.panel)
      && s2.preservedBatch == (if |live2| > 0 then Some(live2) else s1.preservedBatch)
  {
    var s1 := SwitchModeSpec(s, Batch, true, live);
    assert s1.preservedSingle == Some(s.panel);
  }

  /** The cache test is on the panel, not on its kind: a spinner on screen when
      single mode is left is cached, and comes back as the "result". */
  lemma SpinnerIsCachedAsResult(s: UiState, live: seq<BatchItem>)
    requires s.currentMode == Single && s.panel == Loading
    ensures var s1 := SwitchModeSpec(s, Batch, true, live);
      && s1.preservedSingle == Some(Loading)
      && SwitchModeSpec(s1, Single, true, live).panel == Loading
  {
  }

  /** A batch run that ends while single mode is active puts its table on the
      single-mode screen, and leaving single mode then caches it as the
      single-mode result. */
  lemma BatchTableCanBeCachedAsSingle(s: UiState, items: seq<BatchItem>, live: seq<BatchItem>)
    requires s.currentMode == Single && |items| > 0
    ensures var s1 := DisplayBatchResultsSpec(s, items);
      && s1.preservedBatch == s.preservedBatch
      && SwitchModeSpec(s1, Batch, true, live).preservedSingle == Some(BatchTable(items))
  {
  }

  /** Clearing the current mode's cache leaves the other mode's cache. */
  lemma ClearPreservedIsolation(s: UiState)
    ensures s.currentMode == Single ==> ClearCurrentModePreservedSpec(s).preservedBatch == s.preservedBatch
    ensures s.currentMode == Batch ==> ClearCurrentModePreservedSpec(s).preservedSingle == s.preservedSingle
    ensures ClearAllPreservedSpec(ClearCurrentModePreservedSpec(s)) == ClearAllPreservedSpec(s)
  {
  }

  // ----------------------------------------------------------------------
  // The module state as an object
  // ----------------------------------------------------------------------

  class ModeManager {
    var currentMode: Mode
    var preservedSingle: Option<Panel>
    var preservedBatch: Option<seq<BatchItem>>
    var panel: Panel

    function State(): UiState
      reads this
    {
      UiState(currentMode, preservedSingle, preservedBatch, panel)
    }

    ghost predicate Valid()
      reads this
    {
      Inv(State())
    }

    /** The state when the page is loaded. */
    constructor ()
      ensures Valid() && State() == INITIAL
    {
      currentMode := Single;
      preservedSingle := None;
      preservedBatch := None;
      panel := DefaultPrompt(Single);
    }

    function GetCurrentMode(): (m: Mode)
      reads this
      ensures m == State().currentMode
    {
      currentMode
    }

    method ClearCurrentModeResults()
      requires Valid()
      modifies this
      ensures Valid() && State() == ClearCurrentModeResultsSpec(old(State()))
    {
      panel := DefaultPrompt(currentMode);
    }

    method ShowImageWithoutResults()
      requires Valid()
      modifies this
      ensures Valid() && State() == old(State()).(panel := RerunPrompt)
    {
      panel := RerunPrompt;
    }

    method ShowLoadingState()
      requires Valid()
      modifies this
      ensures Valid() && State() == ShowLoadingSpec(old(State()))
    {
      panel := Loading;
    }

    method ShowBatchLoadingState()
      requires Valid()
      modifies this
      ensures Valid() && State() == ShowBatchLoadingSpec(old(State()))
    {
      panel := BatchLoading;
    }

    method ClearCurrentModePreservedResults()
      requires Valid()
      modifies this
      ensures Valid() && State() == ClearCurrentModePreservedSpec(old(State()))
    {
      if currentMode == Single {
        preservedSingle := None;
      } else {
        preservedBatch := None;
      }
    }

    method ClearAllPreservedResults()
      requires Valid()
      modifies this
      ensures Valid() && State() == ClearAllPreservedSpec(old(State()))
    {
      preservedSingle := None;
      preservedBatch := None;
    }

    /** `shown` is false when a null axis makes the display throw. */
    method DisplayResults(results: PartialTriple) returns (shown: bool)
      requires Valid()
      modifies this
      ensures shown <==> results.domestic.Some? && results.size.Some? && results.mammal.Some?
      ensures Valid() && State() == DisplayResultsSpec(old(State()), results)
    {
      if results.domestic.None? || results.size.None? || results.mammal.None? {
        return false;
      }
      var cards := SingleResults(Triple(results.domestic.value, results.size.value, results.mammal.value));
      panel := cards;
      if currentMode == Single {
        preservedSingle := Some(cards);
      }
      shown := true;
    }

    method DisplayBatchResults(items: seq<BatchItem>)
      requires Valid()
      modifies this
      ensures Valid() && State() == DisplayBatchResultsSpec(old(State()), items)
    {
      if currentMode == Batch {
        preservedBatch := Some(items);
      }
      if |items| == 0 {
        panel := NoBatchResults;
        return;
      }
      panel := BatchTable(items);
    }

    method RestorePreservedResults(newMode: Mode, hasImage: bool)
      requires Valid() && currentMode == newMode
      modifies this
      ensures Valid() && State() == RestoreSpec(old(State()), newMode, hasImage)
    {
      if newMode == Single {
        if preservedSingle.Some? && hasImage {
          panel := preservedSingle.value;
        } else if hasImage {
          ShowImageWithoutResults();
        } else {
          ClearCurrentModeResults();
        }
      } else {
        if preservedBatch.Some? && |preservedBatch.value| > 0 {
          DisplayBatchResults(preservedBatch.value);
        } else {
          ClearCurrentModeResults();
        }
      }
    }

    /** `hasImage` is what the image handler reports and `live` is the batch
        processor's current list. */
    method SwitchMode(mode: Mode, hasImage: bool, live: seq<BatchItem>)
      requires Valid()
      modifies this
      ensures Valid() && State() == SwitchModeSpec(old(State()), mode, hasImage, live)
    {
      if currentMode == Single && hasImage {
        if !IsPlaceholder(panel) {
          preservedSingle := Some(panel);
        }
      } else if currentMode == Batch {
        if |live| > 0 {
          preservedBatch := Some(live);
        }
      }
      currentMode := mode;
      RestorePreservedResults(mode, hasImage);
    }
  }
}
