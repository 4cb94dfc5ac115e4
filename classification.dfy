/** The result normaliser and the three-classifier join of the front end:
    a classifier answers with a ranked list of labels, the normaliser keeps
    the top two as a label and its opposite, and an image is classified on
    three axes (domestic/wild, size, mammal/non-mammal). */
module Classification {
  import opened Wrappers

  /** One entry of a classifier's ranked output, as the classifier hands it
      over. `name` is the entry's label, None when the property is missing;
      `confidence` is None when it is not a number. */
  datatype RankedEntry = RankedEntry(name: Option<string>, confidence: Option<real>)

  /** One normalised axis: the top-ranked label (`name`) and score, and the
      second-ranked ("opposite") label and score. */
  datatype Outcome = Outcome(name: string, confidence: real, opposite: string, oppositeConfidence: real)

  /** A fully classified image: all three axes present. */
  datatype Triple = Triple(domestic: Outcome, size: Outcome, mammal: Outcome)

  /** What single-image classification returns: each axis may be null. */
  datatype PartialTriple = PartialTriple(domestic: Option<Outcome>, size: Option<Outcome>, mammal: Option<Outcome>)

  /** How one classifier call settles: it resolves with whatever the library
      produced (None when that is missing or not an array), or rejects. */
  datatype CallResult = Resolved(raw: Option<seq<RankedEntry>>) | Rejected(message: string)

  /** The three module-level classifier handles; None while unassigned. */
  datatype Models<!Img> = Models(
    domestic: Option<Img -> CallResult>,
    size: Option<Img -> CallResult>,
    mammal: Option<Img -> CallResult>)

  const MODELS_NOT_LOADED := "One or more AI models not loaded yet"
  const NORMALISE_FAILED := "Failed to process one or more classification results"
  /** The message a browser gives when `.classify` is called on an unset handle. */
  const UNSET_HANDLE := "Cannot read properties of undefined (reading 'classify')"

  /** JavaScript truthiness of a label: present and not the empty string. */
  predicate LabelTruthy(l: Option<string>) {
    l.Some? && l.value != ""
  }

  /** The guard on each of the first two entries. */
  predicate WellFormed(e: RankedEntry) {
    LabelTruthy(e.name) && e.confidence.Some?
  }

  /** The normaliser accepts a ranking exactly when it is an array of at least
      two entries whose first two entries are well formed. */
  predicate Acceptable(results: Option<seq<RankedEntry>>) {
    results.Some? && |results.value| >= 2 && WellFormed(results.value[0]) && WellFormed(results.value[1])
  }

  function ProcessClassificationResult(results: Option<seq<RankedEntry>>): (r: Option<Outcome>)
    ensures r.Some? <==> Acceptable(results)
    ensures r.Some? ==>
      && Some(r.value.name) == results.value[0].name
      && Some(r.value.confidence) == results.value[0].confidence
      && Some(r.value.opposite) == results.value[1].name
      && Some(r.value.oppositeConfidence) == results.value[1].confidence
    ensures r.Some? ==> r.value.name != "" && r.value.opposite != ""
  {
    if results.None? || |results.value| < 2 then None
    else
      var first, second := results.value[0], results.value[1];
      if !LabelTruthy(first.name) || first.confidence.None?
         || !LabelTruthy(second.name) || second.confidence.None?
      then None
      else Some(Outcome(first.name.value, first.confidence.value, second.name.value, second.confidence.value))
  }

  /** Entries after the second never influence the normalised outcome. */
  lemma ProcessIgnoresLaterEntries(head: seq<RankedEntry>, tail: seq<RankedEntry>)
    requires |head| >= 2
    ensures ProcessClassificationResult(Some(head + tail)) == ProcessClassificationResult(Some(head))
  {
    assert (head + tail)[0] == head[0] && (head + tail)[1] == head[1];
  }

  function AreModelsLoaded<Img>(models: Models<Img>): (r: bool)
    ensures r <==> models.domestic.Some? && models.size.Some? && models.mammal.Some?
  {
    models.domestic.Some? && models.size.Some? && models.mammal.Some?
  }

  /** The all-or-nothing join over three settled calls: the first rejection
      (in argument order) wins, otherwise all three resolved values. */
  function Join(d: CallResult, s: CallResult, m: CallResult): (r: Result<(Option<seq<RankedEntry>>, Option<seq<RankedEntry>>, Option<seq<RankedEntry>>)>)
    ensures r.Success? <==> d.Resolved? && s.Resolved? && m.Resolved?
    ensures r.Success? ==> r.value == (d.raw, s.raw, m.raw)
    ensures d.Rejected? ==> r == Failure(d.message)
    ensures d.Resolved? && s.Rejected? ==> r == Failure(s.message)
    ensures d.Resolved? && s.Resolved? && m.Rejected? ==> r == Failure(m.message)
  {
    if d.Rejected? then Failure(d.message)
    else if s.Rejected? then Failure(s.message)
    else if m.Rejected? then Failure(m.message)
    else Success((d.raw, s.raw, m.raw))
  }

  /** Batch classification: refuses to run without all three handles, joins
      the three calls, and returns only a complete triple. */
  function ClassifyImageBatch<Img>(models: Models<Img>, img: Img): (r: Result<Triple>)
    ensures !AreModelsLoaded(models) ==> r == Failure(MODELS_NOT_LOADED)
    ensures r.Success? <==>
      && AreModelsLoaded(models)
      && Join(models.domestic.value(img), models.size.value(img), models.mammal.value(img)).Success?
      && Acceptable(models.domestic.value(img).raw)
      && Acceptable(models.size.value(img).raw)
      && Acceptable(models.mammal.value(img).raw)
    ensures r.Success? ==>
      && Some(r.value.domestic) == ProcessClassificationResult(models.domestic.value(img).raw)
      && Some(r.value.size) == ProcessClassificationResult(models.size.value(img).raw)
      && Some(r.value.mammal) == ProcessClassificationResult(models.mammal.value(img).raw)
  {
    if !AreModelsLoaded(models) then Failure(MODELS_NOT_LOADED)
    else
      match Join(models.domestic.value(img), models.size.value(img), models.mammal.value(img))
      case Failure(msg) => Failure(msg)
      case Success((d, s, m)) =>
        var pd, ps, pm := ProcessClassificationResult(d), ProcessClassificationResult(s), ProcessClassificationResult(m);
        if pd.None? || ps.None? || pm.None? then Failure(NORMALISE_FAILED)
        else Success(Triple(pd.value, ps.value, pm.value))
  }

  /** Single-image classification: the same join, but an unset handle fails
      with a type error and null axes are passed through unchecked. */
  function ClassifyImage<Img>(models: Models<Img>, img: Img): (r: Result<PartialTriple>)
    ensures !AreModelsLoaded(models) ==> r == Failure(UNSET_HANDLE)
    ensures r.Success? <==>
      && AreModelsLoaded(models)
      && Join(models.domestic.value(img), models.size.value(img), models.mammal.value(img)).Success?
    ensures r.Success? ==> r.value == PartialTriple(
      ProcessClassificationResult(models.domestic.value(img).raw),
      ProcessClassificationResult(models.size.value(img).raw),
      ProcessClassificationResult(models.mammal.value(img).raw))
  {
    if !AreModelsLoaded(models) then Failure(UNSET_HANDLE)
    else
      match Join(models.domestic.value(img), models.size.value(img), models.mammal.value(img))
      case Failure(msg) => Failure(msg)
      case Success((d, s, m)) =>
        Success(PartialTriple(ProcessClassificationResult(d), ProcessClassificationResult(s), ProcessClassificationResult(m)))
  }

  /** Both classify functions fail on the same classifier rejection, so the
      join is all-or-nothing in either mode. */
  lemma RejectionFailsBoth<Img>(models: Models<Img>, img: Img)
    requires AreModelsLoaded(models)
    requires models.domestic.value(img).Rejected? || models.size.value(img).Rejected? || models.mammal.value(img).Rejected?
    ensures ClassifyImageBatch(models, img).Failure? && ClassifyImage(models, img).Failure?
    ensures ClassifyImageBatch(models, img).message == ClassifyImage(models, img).message
  {
  }

  /** Batch classification succeeds exactly when single classification does
      and leaves no axis null, and then the two agree axis by axis. */
  lemma BatchIsCompletedSingle<Img>(models: Models<Img>, img: Img)
    requires AreModelsLoaded(models)
    ensures ClassifyImageBatch(models, img).Success? <==>
      ClassifyImage(models, img).Success?
      && ClassifyImage(models, img).value.domestic.Some?
      && ClassifyImage(models, img).value.size.Some?
      && ClassifyImage(models, img).value.mammal.Some?
    ensures ClassifyImageBatch(models, img).Success? ==>
      var t := ClassifyImageBatch(models, img).value;
      ClassifyImage(models, img).value == PartialTriple(Some(t.domestic), Some(t.size), Some(t.mammal))
  {
  }

  /** A classifier that resolves with a one-entry ranking. */
  function ShortRanking(img: int): CallResult {
    Resolved(Some([RankedEntry(Some("Domestic"), Some(0.9))]))
  }

  /** Single-image classification is not atomic: with every classifier
      answering a too-short ranking it still succeeds, with null axes, while
      batch classification fails. */
  lemma ClassifyImageMayReturnNullAxes()
    ensures var models := Models(Some(ShortRanking), Some(ShortRanking), Some(ShortRanking));
      && ClassifyImage(models, 0) == Success(PartialTriple(None, None, None))
      && ClassifyImageBatch(models, 0) == Failure(NORMALISE_FAILED)
  {
    var models := Models(Some(ShortRanking), Some(ShortRanking), Some(ShortRanking));
    assert ProcessClassificationResult(ShortRanking(0).raw) == None;
  }
}
