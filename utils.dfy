/** The front end's helpers: confidence tiers, label polarity, the plain-text
    and CSV formatting of results, the batch summary counts, and the file
    checks used before decoding. */
module Utils {
  import opened Wrappers
  import opened Classification
  import opened Records

  const THRESHOLD_LIKELY: real := 0.60
  const THRESHOLD_IS: real := 0.80
  const POSITIVE_LABELS: seq<string> := ["Domestic", "Large", "Mammal"]
  const NEGATIVE_LABELS: seq<string> := ["Wild", "Small", "Non-Mammal"]

  // ----------------------------------------------------------------------
  // Confidence tiers
  // ----------------------------------------------------------------------

  /** The level word used in prose; each tier's lower bound is inclusive. */
  function GetConfidenceLevel(confidence: real): (r: string)
    ensures r == "is" <==> confidence >= THRESHOLD_IS
    ensures r == "likely" <==> THRESHOLD_LIKELY <= confidence < THRESHOLD_IS
    ensures r == "could be" <==> confidence < THRESHOLD_LIKELY
  {
    if confidence >= THRESHOLD_IS then "is"
    else if confidence >= THRESHOLD_LIKELY then "likely"
    else "could be"
  }

  /** The CSS class of a confidence badge. */
  function GetConfidenceClass(confidence: real): (r: string)
    ensures r == "confidence-high" <==> confidence >= THRESHOLD_IS
    ensures r == "confidence-medium" <==> THRESHOLD_LIKELY <= confidence < THRESHOLD_IS
    ensures r == "confidence-low" <==> confidence < THRESHOLD_LIKELY
  {
    if confidence >= THRESHOLD_IS then "confidence-high"
    else if confidence >= THRESHOLD_LIKELY then "confidence-medium"
    else "confidence-low"
  }

  /** The class a table cell derives from the level word rather than from the
      thresholds; it always agrees with the badge class. */
  function ConfidenceCellClass(confidence: real): (r: string)
    ensures r == GetConfidenceClass(confidence)
  {
    var level := GetConfidenceLevel(confidence);
    if level == "is" then "confidence-high"
    else if level == "likely" then "confidence-medium"
    else "confidence-low"
  }

  datatype Tier = High | Medium | Low

  /** The bucket the batch summary counts a confidence in; it is the tier the
      level word names. */
  function TierOf(confidence: real): (t: Tier)
    ensures t == High <==> GetConfidenceLevel(confidence) == "is"
    ensures t == Medium <==> GetConfidenceLevel(confidence) == "likely"
    ensures t == Low <==> GetConfidenceLevel(confidence) == "could be"
  {
    if confidence >= THRESHOLD_IS then High
    else if confidence >= THRESHOLD_LIKELY then Medium
    else Low
  }

  /** The boundaries belong to the upper tier. */
  lemma TierBoundaries()
    ensures TierOf(0.80) == High && TierOf(0.7999) == Medium
    ensures TierOf(0.60) == Medium && TierOf(0.5999) == Low
  {
  }

  // ----------------------------------------------------------------------
  // Label polarity
  // ----------------------------------------------------------------------

  function GetLabelColorClass(name: string): (r: string)
    ensures r == "label-positive" <==> name in POSITIVE_LABELS
    ensures r == "label-negative" <==> name in NEGATIVE_LABELS
    ensures r == "" <==> name !in POSITIVE_LABELS && name !in NEGATIVE_LABELS
  {
    if name in POSITIVE_LABELS then "label-positive"
    else if name in NEGATIVE_LABELS then "label-negative"
    else ""
  }

  lemma LabelListsDisjoint()
    ensures forall l :: l in POSITIVE_LABELS ==> l !in NEGATIVE_LABELS
  {
  }

  // ----------------------------------------------------------------------
  // Plain-text formatting
  // ----------------------------------------------------------------------

  function Digit(d: nat): (c: char)
    requires d < 10
    ensures '0' <= c <= '9'
  {
    ('0' as int + d) as char
  }

  /** Decimal rendering of a natural number. */
  function NatToString(n: nat): (r: string)
    ensures |r| > 0
    ensures forall c :: c in r ==> '0' <= c <= '9'
  {
    if n < 10 then [Digit(n)] else NatToString(n / 10) + [Digit(n % 10)]
  }

  /** Decimal rendering of an integer, as a template literal prints it. */
  function IntToString(n: int): (r: string)
    ensures '\n' !in r && ',' !in r
  {
    if n < 0 then "-" + NatToString(-n) else NatToString(n)
  }

  /** `Math.round(confidence * 100)`: halves round towards positive infinity. */
  function Percent(confidence: real): (p: int)
    ensures p as real - 0.5 <= confidence * 100.0 < p as real + 0.5
  {
    (confidence * 100.0 + 0.5).Floor
  }

  function StartsWith(s: string, prefix: string): bool {
    |prefix| <= |s| && s[..|prefix|] == prefix
  }

  /** The text after the level phrase: the label and its rounded percentage. */
  function LabelAndPercent(o: Outcome): string {
    o.name + " (" + IntToString(Percent(o.confidence)) + "%)"
  }

  function FormatClassificationTextPlain(result: Option<Outcome>): (r: string)
    ensures result.None? ==> r == "Error"
    ensures result.Some? && result.value.confidence >= THRESHOLD_IS ==>
      r == "Subject is " + LabelAndPercent(result.value)
    ensures result.Some? && THRESHOLD_LIKELY <= result.value.confidence < THRESHOLD_IS ==>
      r == "Subject is likely " + LabelAndPercent(result.value)
    ensures result.Some? && result.value.confidence < THRESHOLD_LIKELY ==>
      r == "Subject could be " + LabelAndPercent(result.value)
  {
    match result
    case None => "Error"
    case Some(o) =>
      var level := GetConfidenceLevel(o.confidence);
      var percentage := IntToString(Percent(o.confidence));
      if level == "is" then "Subject is " + o.name + " (" + percentage + "%)"
      else if level == "likely" then "Subject is likely " + o.name + " (" + percentage + "%)"
      else "Subject could be " + o.name + " (" + percentage + "%)"
  }

  /** The lowest tier can be read off the text: it alone says "could be". */
  lemma PlainTextSaysCouldBeExactlyWhenLow(o: Outcome)
    ensures StartsWith(FormatClassificationTextPlain(Some(o)), "Subject could be ") <==> TierOf(o.confidence) == Low
  {
    var text := FormatClassificationTextPlain(Some(o));
    if TierOf(o.confidence) != Low {
      assert text[8] == 'i';
      assert "Subject could be "[8] == 'c';
    } else {
      assert text == "Subject could be " + LabelAndPercent(o);
    }
  }

  lemma PrefixCancel(p: string, t: string, q: string)
    requires StartsWith(p + t, p + q)
    ensures StartsWith(t, q)
  {
    assert t[..|q|] == (p + t)[|p|..|p| + |q|] == (p + q)[|p|..];
  }

  /** A label that does not read "likely" is not turned into one by the
      " (" that follows it. */
  lemma LabelNotLikely(name: string, rest: string)
    requires !StartsWith(name + " ", "likely ")
    ensures !StartsWith(name + " (" + rest, "likely ")
  {
    var s := name + " (" + rest;
    if |name| < 6 {
      // A label shorter than "likely" puts a space among the first six
      // characters, where "likely" has none.
      assert s[|name|] == ' ' && "likely "[|name|] != ' ';
    }
  }

  /** The middle tier can be read off the text too, unless the label itself
      reads "likely" (alone or followed by a space). */
  lemma PlainTextSaysLikelyExactlyWhenMedium(o: Outcome)
    requires !StartsWith(o.name + " ", "likely ")
    ensures StartsWith(FormatClassificationTextPlain(Some(o)), "Subject is likely ") <==> TierOf(o.confidence) == Medium
  {
    var text := FormatClassificationTextPlain(Some(o));
    if TierOf(o.confidence) == High {
      var rest := IntToString(Percent(o.confidence)) + "%)";
      assert text == "Subject is " + (o.name + " (" + rest);
      LabelNotLikely(o.name, rest);
      if StartsWith(text, "Subject is likely ") {
        assert "Subject is likely " == "Subject is " + "likely ";
        PrefixCancel("Subject is ", o.name + " (" + rest, "likely ");
        assert false;
      }
    } else if TierOf(o.confidence) == Low {
      assert text[8] == 'c';
      assert "Subject is likely "[8] == 'i';
    } else {
      assert text == "Subject is likely " + LabelAndPercent(o);
    }
  }

  // ----------------------------------------------------------------------
  // Batch summary
  // ----------------------------------------------------------------------

  datatype Buckets = Buckets(high: nat, medium: nat, low: nat)

  datatype BatchSummary = BatchSummary(
    domestic: Buckets, size: Buckets, mammal: Buckets,
    totalProcessed: nat, totalFiles: nat)

  const NO_BUCKETS := Buckets(0, 0, 0)
  const EMPTY_SUMMARY := BatchSummary(NO_BUCKETS, NO_BUCKETS, NO_BUCKETS, 0, 0)

  datatype Axis = DomesticAxis | SizeAxis | MammalAxis

  function AxisOutcome(t: Triple, a: Axis): Outcome {
    match a
    case DomesticAxis => t.domestic
    case SizeAxis => t.size
    case MammalAxis => t.mammal
  }

  function AxisBuckets(s: BatchSummary, a: Axis): Buckets {
    match a
    case DomesticAxis => s.domestic
    case SizeAxis => s.size
    case MammalAxis => s.mammal
  }

  function BucketCount(b: Buckets, t: Tier): nat {
    match t
    case High => b.high
    case Medium => b.medium
    case Low => b.low
  }

  function AddToBucket(b: Buckets, confidence: real): Buckets {
    match TierOf(confidence)
    case High => b.(high := b.high + 1)
    case Medium => b.(medium := b.medium + 1)
    case Low => b.(low := b.low + 1)
  }

  /** One step of the summary: an entry without error and with
      classifications is counted on every axis; any other entry only as a file. */
  function Tally(s: BatchSummary, item: BatchItem): BatchSummary {
    match item
    case Classified(_, _, t) =>
      BatchSummary(
        AddToBucket(s.domestic, t.domestic.confidence),
        AddToBucket(s.size, t.size.confidence),
        AddToBucket(s.mammal, t.mammal.confidence),
        s.totalProcessed + 1, s.totalFiles + 1)
    case Failed(_, _, _) => s.(totalFiles := s.totalFiles + 1)
  }

  /** The summary of a list: every entry tallied in order. */
  function SummaryOf(items: seq<BatchItem>): BatchSummary {
    if items == [] then EMPTY_SUMMARY
    else Tally(SummaryOf(items[..|items| - 1]), items[|items| - 1])
  }

  /** The summary loop, with the source's nine counters. */
  method CalculateBatchSummary(items: seq<BatchItem>) returns (summary: BatchSummary)
    ensures summary == SummaryOf(items)
  {
    var domestic, size, mammal := NO_BUCKETS, NO_BUCKETS, NO_BUCKETS;
    var totalProcessed := 0;
    var i := 0;
    while i < |items|
      invariant i <= |items|
      invariant BatchSummary(domestic, size, mammal, totalProcessed, i) == SummaryOf(items[..i])
    {
      var item := items[i];
      if item.Classified? {
        totalProcessed := totalProcessed + 1;
        var domesticConf := item.classifications.domestic.confidence;
        if domesticConf >= THRESHOLD_IS {
          domestic := domestic.(high := domestic.high + 1);
        } else if domesticConf >= THRESHOLD_LIKELY {
          domestic := domestic.(medium := domestic.medium + 1);
        } else {
          domestic := domestic.(low := domestic.low + 1);
        }
        var sizeConf := item.classifications.size.confidence;
        if sizeConf >= THRESHOLD_IS {
          size := size.(high := size.high + 1);
        } else if sizeConf >= THRESHOLD_LIKELY {
          size := size.(medium := size.medium + 1);
        } else {
          size := size.(low := size.low + 1);
        }
        var mammalConf := item.classifications.mammal.confidence;
        if mammalConf >= THRESHOLD_IS {
          mammal := mammal.(high := mammal.high + 1);
        } else if mammalConf >= THRESHOLD_LIKELY {
          mammal := mammal.(medium := mammal.medium + 1);
        } else {
          mammal := mammal.(low := mammal.low + 1);
        }
      }
      assert items[..i + 1][..i] == items[..i];
      i := i + 1;
    }
    assert items[..i] == items;
    summary := BatchSummary(domestic, size, mammal, totalProcessed, |items|);
  }

  /** Reference count of the entries that have classifications. */
  function CountClassified(items: seq<BatchItem>): nat {
    if items == [] then 0
    else (if items[0].Classified? then 1 else 0) + CountClassified(items[1..])
  }

  /** Reference count of the classified entries whose `a` axis falls in tier `t`. */
  function CountInTier(items: seq<BatchItem>, a: Axis, t: Tier): nat {
    if items == [] then 0
    else
      var here := if items[0].Classified? && TierOf(AxisOutcome(items[0].classifications, a).confidence) == t then 1 else 0;
      here + CountInTier(items[1..], a, t)
  }

  lemma {:induction false} CountClassifiedSnoc(items: seq<BatchItem>, x: BatchItem)
    ensures CountClassified(items + [x]) == CountClassified(items) + (if x.Classified? then 1 else 0)
  {
    if items != [] {
      assert (items + [x])[1..] == items[1..] + [x];
      CountClassifiedSnoc(items[1..], x);
    }
  }

  lemma {:induction false} CountInTierSnoc(items: seq<BatchItem>, x: BatchItem, a: Axis, t: Tier)
    ensures CountInTier(items + [x], a, t) == CountInTier(items, a, t)
      + (if x.Classified? && TierOf(AxisOutcome(x.classifications, a).confidence) == t then 1 else 0)
  {
    if items != [] {
      assert (items + [x])[1..] == items[1..] + [x];
      CountInTierSnoc(items[1..], x, a, t);
    }
  }

  /** The summary agrees with the reference counts: `totalFiles` is the number
      of entries, `totalProcessed` the number of classified ones, and each
      bucket the number of classified entries in that tier on that axis. */
  lemma {:induction false} SummaryMatchesCounts(items: seq<BatchItem>)
    ensures SummaryOf(items).totalFiles == |items|
    ensures SummaryOf(items).totalProcessed == CountClassified(items)
    ensures forall a, t :: BucketCount(AxisBuckets(SummaryOf(items), a), t) == CountInTier(items, a, t)
  {
    if items != [] {
      var init, x := items[..|items| - 1], items[|items| - 1];
      assert items == init + [x];
      SummaryMatchesCounts(init);
      CountClassifiedSnoc(init, x);
      forall a, t ensures BucketCount(AxisBuckets(SummaryOf(items), a), t) == CountInTier(items, a, t) {
        CountInTierSnoc(init, x, a, t);
      }
    }
  }

  /** On every axis, each classified entry lands in exactly one tier. */
  lemma {:induction false} TiersPartitionClassified(items: seq<BatchItem>, a: Axis)
    ensures CountInTier(items, a, High) + CountInTier(items, a, Medium) + CountInTier(items, a, Low)
      == CountClassified(items)
  {
    if items != [] {
      TiersPartitionClassified(items[1..], a);
    }
  }

  /** high + medium + low equals totalProcessed on every axis. */
  lemma BucketsSumToProcessed(items: seq<BatchItem>)
    ensures forall a :: var b := AxisBuckets(SummaryOf(items), a);
      b.high + b.medium + b.low == SummaryOf(items).totalProcessed
  {
    SummaryMatchesCounts(items);
    forall a ensures var b := AxisBuckets(SummaryOf(items), a);
      b.high + b.medium + b.low == SummaryOf(items).totalProcessed
    {
      TiersPartitionClassified(items, a);
      assert BucketCount(AxisBuckets(SummaryOf(items), a), High) == CountInTier(items, a, High);
      assert BucketCount(AxisBuckets(SummaryOf(items), a), Medium) == CountInTier(items, a, Medium);
      assert BucketCount(AxisBuckets(SummaryOf(items), a), Low) == CountInTier(items, a, Low);
    }
  }

  /** An error entry is counted as a file and nowhere else. */
  lemma FailedEntryCountsOnlyAsFile(items: seq<BatchItem>, x: BatchItem)
    requires x.Failed?
    ensures SummaryOf(items + [x]) == SummaryOf(items).(totalFiles := SummaryOf(items).totalFiles + 1)
  {
    assert (items + [x])[..|items|] == items;
  }

  // ----------------------------------------------------------------------
  // CSV export
  // ----------------------------------------------------------------------

  const CSV_COLUMNS: seq<string> := ["Filename", "Habitat_Label", "Habitat_Confidence", "Size_Label",
    "Size_Confidence", "Species_Label", "Species_Confidence", "Summary"]

  function JoinFields(fields: seq<string>): string {
    if |fields| == 0 then ""
    else if |fields| == 1 then fields[0]
    else fields[0] + "," + JoinFields(fields[1..])
  }

  const CSV_HEADER: string := JoinFields(CSV_COLUMNS) + "\n"

  function Quote(s: string): string {
    "\"" + s + "\""
  }

  /** The summary text of an error entry: its message, or a stand-in when
      the message is empty. */
  function ErrorText(error: string): string {
    if error == "" then "Unknown error" else error
  }

  /** The summary column of a classified entry: the three plain texts. */
  function SummaryText(t: Triple): string {
    FormatClassificationTextPlain(Some(t.domestic)) + " | "
      + FormatClassificationTextPlain(Some(t.size)) + " | "
      + FormatClassificationTextPlain(Some(t.mammal))
  }

  /** The fields of one CSV row, one per header column. */
  function CsvFields(item: BatchItem): (fields: seq<string>)
    ensures |fields| == |CSV_COLUMNS|
    ensures fields[0] == Quote(item.filename)
    ensures item.Failed? ==>
      && (forall k :: 1 <= k < 7 ==> fields[k] == "Error")
      && fields[7] == Quote(ErrorText(item.error))
    ensures item.Classified? ==>
      var t := item.classifications;
      && fields[1] == Quote(t.domestic.name) && fields[2] == IntToString(Percent(t.domestic.confidence))
      && fields[3] == Quote(t.size.name) && fields[4] == IntToString(Percent(t.size.confidence))
      && fields[5] == Quote(t.mammal.name) && fields[6] == IntToString(Percent(t.mammal.confidence))
      && fields[7] == Quote(SummaryText(t))
  {
    match item
    case Classified(filename, _, t) =>
      [Quote(filename),
       Quote(t.domestic.name), IntToString(Percent(t.domestic.confidence)),
       Quote(t.size.name), IntToString(Percent(t.size.confidence)),
       Quote(t.mammal.name), IntToString(Percent(t.mammal.confidence)),
       Quote(SummaryText(t))]
    case Failed(filename, _, error) =>
      [Quote(filename), "Error", "Error", "Error", "Error", "Error", "Error", Quote(ErrorText(error))]
  }

  function CsvRow(item: BatchItem): string {
    JoinFields(CsvFields(item)) + "\n"
  }

  /** All rows, in list order. */
  function CsvBody(items: seq<BatchItem>): string {
    if items == [] then ""
    else CsvBody(items[..|items| - 1]) + CsvRow(items[|items| - 1])
  }

  /** The CSV text `exportResultsToCSV` builds before handing it to the browser. */
  method ExportResultsToCsv(items: seq<BatchItem>) returns (csv: string)
    ensures csv == CSV_HEADER + CsvBody(items)
  {
    var body := "";
    var i := 0;
    while i < |items|
      invariant i <= |items|
      invariant body == CsvBody(items[..i])
    {
      var row := CsvRow(items[i]);
      assert items[..i + 1][..i] == items[..i];
      body := body + row;
      i := i + 1;
    }
    assert items[..i] == items;
    csv := CSV_HEADER + body;
  }

  /** Rows keep the order of the entries: the body of a concatenation is the
      concatenation of the bodies. */
  lemma {:induction false} CsvBodyAppend(a: seq<BatchItem>, b: seq<BatchItem>)
    ensures CsvBody(a + b) == CsvBody(a) + CsvBody(b)
  {
    if b == [] {
      assert a + b == a;
    } else {
      var init, x := b[..|b| - 1], b[|b| - 1];
      assert b == init + [x];
      assert a + b == (a + init) + [x];
      assert (a + b)[..|a + b| - 1] == a + init;
      CsvBodyAppend(a, init);
    }
  }

  function NewlineCount(s: string): nat {
    if s == [] then 0 else (if s[0] == '\n' then 1 else 0) + NewlineCount(s[1..])
  }

  lemma {:induction false} NewlineCountAppend(a: string, b: string)
    ensures NewlineCount(a + b) == NewlineCount(a) + NewlineCount(b)
  {
    if a == [] {
      assert a + b == b;
    } else {
      assert (a + b)[0] == a[0];
      assert (a + b)[1..] == a[1..] + b;
      NewlineCountAppend(a[1..], b);
    }
  }

  lemma {:induction false} NoNewlineCountsZero(s: string)
    requires '\n' !in s
    ensures NewlineCount(s) == 0
  {
    if s != [] {
      assert s[0] in s;
      assert forall c :: c in s[1..] ==> c in s;
      NoNewlineCountsZero(s[1..]);
    }
  }

  lemma {:induction false} JoinFieldsSingleLine(fields: seq<string>)
    requires forall k :: 0 <= k < |fields| ==> '\n' !in fields[k]
    ensures '\n' !in JoinFields(fields)
  {
    if |fields| > 1 {
      JoinFieldsSingleLine(fields[1..]);
    }
  }

  /** The free text an entry contributes to its row: no line breaks in it. */
  predicate SingleLineText(item: BatchItem) {
    && '\n' !in item.filename
    && (item.Failed? ==> '\n' !in item.error)
    && (item.Classified? ==>
          '\n' !in item.classifications.domestic.name
          && '\n' !in item.classifications.size.name
          && '\n' !in item.classifications.mammal.name)
  }

  lemma QuoteSingleLine(s: string)
    requires '\n' !in s
    ensures '\n' !in Quote(s)
  {
  }

  lemma PlainTextSingleLine(o: Outcome)
    requires '\n' !in o.name
    ensures '\n' !in FormatClassificationTextPlain(Some(o))
  {
    var p := IntToString(Percent(o.confidence));
    assert '\n' !in p;
    assert '\n' !in LabelAndPercent(o);
  }

  lemma SummarySingleLine(t: Triple)
    requires '\n' !in t.domestic.name && '\n' !in t.size.name && '\n' !in t.mammal.name
    ensures '\n' !in SummaryText(t)
  {
    PlainTextSingleLine(t.domestic);
    PlainTextSingleLine(t.size);
    PlainTextSingleLine(t.mammal);
  }

  lemma FieldsSingleLine(item: BatchItem)
    requires SingleLineText(item)
    ensures forall k :: 0 <= k < |CsvFields(item)| ==> '\n' !in CsvFields(item)[k]
  {
    var fields := CsvFields(item);
    forall k | 0 <= k < |fields|
      ensures '\n' !in fields[k]
    {
      if k == 0 {
        QuoteSingleLine(item.filename);
      } else if item.Failed? {
        if k == 7 {
          QuoteSingleLine(ErrorText(item.error));
        }
      } else {
        var t := item.classifications;
        if k == 1 {
          QuoteSingleLine(t.domestic.name);
        } else if k == 3 {
          QuoteSingleLine(t.size.name);
        } else if k == 5 {
          QuoteSingleLine(t.mammal.name);
        } else if k == 7 {
          SummarySingleLine(t);
          QuoteSingleLine(SummaryText(t));
        }
      }
    }
  }

  lemma RowIsOneLine(item: BatchItem)
    requires SingleLineText(item)
    ensures NewlineCount(CsvRow(item)) == 1
  {
    var line := JoinFields(CsvFields(item));
    FieldsSingleLine(item);
    JoinFieldsSingleLine(CsvFields(item));
    NoNewlineCountsZero(line);
    NewlineCountAppend(line, "\n");
    assert NewlineCount("\n") == 1;
  }

  lemma HeaderIsOneLine()
    ensures NewlineCount(CSV_HEADER) == 1
  {
    var line := JoinFields(CSV_COLUMNS);
    JoinFieldsSingleLine(CSV_COLUMNS);
    NoNewlineCountsZero(line);
    NewlineCountAppend(line, "\n");
    assert NewlineCount("\n") == 1;
  }

  lemma {:induction false} BodyLineCount(items: seq<BatchItem>)
    requires forall i :: 0 <= i < |items| ==> SingleLineText(items[i])
    ensures NewlineCount(CsvBody(items)) == |items|
  {
    if items != [] {
      var init, x := items[..|items| - 1], items[|items| - 1];
      BodyLineCount(init);
      RowIsOneLine(x);
      NewlineCountAppend(CsvBody(init), CsvRow(x));
    }
  }

  /** With no line breaks inside the entries' text, the CSV has one line for
      the header and one line per entry. */
  lemma CsvLineCount(items: seq<BatchItem>)
    requires forall i :: 0 <= i < |items| ==> SingleLineText(items[i])
    ensures NewlineCount(CSV_HEADER + CsvBody(items)) == |items| + 1
  {
    HeaderIsOneLine();
    BodyLineCount(items);
    NewlineCountAppend(CSV_HEADER, CsvBody(items));
  }

  // ----------------------------------------------------------------------
  // Files
  // ----------------------------------------------------------------------

  function IsValidImageFile(file: FileInfo): (r: bool)
    ensures r <==> |file.mimeType| >= 6 && file.mimeType[..6] == "image/"
  {
    StartsWith(file.mimeType, "image/")
  }

  /** Loading a file as an image: a non-image type is refused before the
      browser is asked; otherwise `decodes` says whether the browser managed. */
  function LoadImageFromFile(file: FileInfo, decodes: bool): (r: Result<Image>)
    ensures r.Success? <==> IsValidImageFile(file) && decodes
    ensures r.Success? ==> r.value.file == file
    ensures !IsValidImageFile(file) ==> r == Failure("Invalid image file: " + file.name)
    ensures IsValidImageFile(file) && !decodes ==> r == Failure("Failed to load image: " + file.name)
  {
    if !IsValidImageFile(file) then Failure("Invalid image file: " + file.name)
    else if decodes then Success(Image(file))
    else Failure("Failed to load image: " + file.name)
  }
}
