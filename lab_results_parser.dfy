/**
 * `LabResultsParser` (integrations/lab_results_parser.py): the line-by-line
 * heuristic that turns the text of a lab report into a result record, and
 * the normaliser that reshapes such a record for storage.
 *
 * A JSON object is an ordered list of (key, value) pairs, as Python dicts
 * keep insertion order; a recorded value is the numeral text that
 * `float(...)` is applied to.
 */
module LabResultsParser {
  import opened Wrappers
  import opened Text
  import opened Lists
  import opened Records

  // ---------------------------------------------------------------------
  // Ordered dictionaries
  // ---------------------------------------------------------------------

  /** `d.get(k)` */
  function Get(d: KeyValues, k: string): Option<string> {
    if d == [] then None
    else if d[0].0 == k then Some(d[0].1)
    else Get(d[1..], k)
  }

  /** The keys of `d`, in order. */
  function Keys(d: KeyValues): seq<string> {
    if d == [] then [] else [d[0].0] + Keys(d[1..])
  }

  /** No key occurs twice. */
  ghost predicate UniqueKeys(d: KeyValues) {
    forall i, j :: 0 <= i < j < |d| ==> d[i].0 != d[j].0
  }

  /** `d[k] = v`: an existing key keeps its place, a new key goes last. */
  function Put(d: KeyValues, k: string, v: string): (r: KeyValues)
    ensures Get(r, k) == Some(v)
    ensures forall other :: other != k ==> Get(r, other) == Get(d, other)
    ensures Keys(r) == if k in Keys(d) then Keys(d) else Keys(d) + [k]
  {
    if d == [] then [(k, v)]
    else if d[0].0 == k then [(k, v)] + d[1..]
    else [d[0]] + Put(d[1..], k, v)
  }

  /** Putting a key keeps the keys unique. */
  lemma {:induction false} PutUnique(d: KeyValues, k: string, v: string)
    requires UniqueKeys(d)
    ensures UniqueKeys(Put(d, k, v))
  {
    if d != [] && d[0].0 != k {
      var tail := Put(d[1..], k, v);
      PutUnique(d[1..], k, v);
      var r := [d[0]] + tail;
      KeysHold(d[1..], d[0].0);
      forall j | 0 < j < |r| ensures r[0].0 != r[j].0 {
        KeyInKeys(tail, j - 1);
      }
    }
  }

  /** The key at a position is among the keys. */
  lemma {:induction false} KeyInKeys(d: KeyValues, j: nat)
    requires j < |d|
    ensures d[j].0 in Keys(d)
  {
    if j > 0 {
      KeyInKeys(d[1..], j - 1);
    }
  }

  /** A key none of the entries has is not among the keys. */
  lemma {:induction false} KeysHold(d: KeyValues, k: string)
    requires forall j :: 0 <= j < |d| ==> d[j].0 != k
    ensures k !in Keys(d)
  {
    if d != [] {
      KeysHold(d[1..], k);
    }
  }

  // ---------------------------------------------------------------------
  // The number pattern `\d+\.?\d*`
  // ---------------------------------------------------------------------

  predicate HasDigit(s: string) {
    exists i | 0 <= i < |s| :: IsDigit(s[i])
  }

  /** The position of the first digit. */
  function FirstDigit(s: string): (r: Option<nat>)
    ensures r.None? <==> !HasDigit(s)
    ensures r.Some? ==> r.value < |s| && IsDigit(s[r.value]) && forall k :: 0 <= k < r.value ==> !IsDigit(s[k])
  {
    if s == [] then None
    else if IsDigit(s[0]) then Some(0)
    else match FirstDigit(s[1..])
      case None => None
      case Some(i) => Some(i + 1)
  }

  /** The end of the run of digits starting at `i`. */
  function DigitsEnd(s: string, i: nat): (j: nat)
    requires i <= |s|
    ensures i <= j <= |s|
    ensures forall k :: i <= k < j ==> IsDigit(s[k])
    ensures j < |s| ==> !IsDigit(s[j])
    decreases |s| - i
  {
    if i < |s| && IsDigit(s[i]) then DigitsEnd(s, i + 1) else i
  }

  predicate AllDigits(s: string) {
    forall k :: 0 <= k < |s| ==> IsDigit(s[k])
  }

  /** Text matching `\d+\.?\d*` as a whole. */
  predicate IsNumeral(t: string) {
    exists p | 1 <= p <= |t| :: AllDigits(t[..p]) && (p == |t| || (t[p] == '.' && AllDigits(t[p + 1..])))
  }

  /** Digits, a dot and digits again, read from `s[i..e]`, match `\d+\.?\d*`. */
  lemma DottedNumeral(s: string, i: nat, j: nat, e: nat)
    requires i < j < e <= |s| && s[j] == '.'
    requires forall k :: i <= k < j ==> IsDigit(s[k])
    requires forall k :: j < k < e ==> IsDigit(s[k])
    ensures IsNumeral(s[i..e]) && '.' in s[i..e]
  {
    var t := s[i..e];
    assert t[..j - i] == s[i..j] && t[j - i + 1..] == s[j + 1..e];
    assert AllDigits(t[..j - i]) && t[j - i] == '.' && AllDigits(t[j - i + 1..]);
  }

  /** A non-empty run of digits `s[i..j]` matches `\d+\.?\d*`. */
  lemma PlainNumeral(s: string, i: nat, j: nat)
    requires i < j <= |s|
    requires forall k :: i <= k < j ==> IsDigit(s[k])
    ensures IsNumeral(s[i..j])
  {
    var t := s[i..j];
    assert t[..j - i] == t;
    assert AllDigits(t[..j - i]);
  }

  /** The end of the greedy match of `\d+\.?\d*` that starts at the digit `s[i]`. */
  function NumberEnd(s: string, i: nat): (e: nat)
    requires i < |s| && IsDigit(s[i])
    ensures i < e <= |s|
    ensures IsNumeral(s[i..e])
    ensures e == |s| || (!IsDigit(s[e]) && (s[e] == '.' ==> '.' in s[i..e]))
  {
    var j := DigitsEnd(s, i);
    if j < |s| && s[j] == '.' then
      var e := DigitsEnd(s, j + 1);
      DottedNumeral(s, i, j, e);
      e
    else
      PlainNumeral(s, i, j);
      j
  }

  /** `re.findall(r'\d+\.?\d*', s)[0]`, when there is a match: the greedy match at the first digit. */
  function FirstNumber(s: string): (r: Option<string>)
    ensures r.None? <==> !HasDigit(s)
    ensures r.Some? ==> IsNumeral(r.value) && IsPrefix(r.value, s[FirstDigit(s).value..])
    ensures r.Some? ==>
      var e := FirstDigit(s).value + |r.value|;
      e == |s| || (!IsDigit(s[e]) && (s[e] == '.' ==> '.' in r.value))
  {
    match FirstDigit(s)
    case None => None
    case Some(i) =>
      var e := NumberEnd(s, i);
      assert s[i..][..e - i] == s[i..e];
      Some(s[i..e])
  }

  // ---------------------------------------------------------------------
  // parse_text_results
  // ---------------------------------------------------------------------

  /** The record `parse_text_results` builds; `reference_ranges` and `flags` are never filled in. */
  datatype LabResults = LabResults(
    testName: string,
    testDate: string,
    values: KeyValues,
    referenceRanges: KeyValues,
    flags: seq<string>)

  const Blank := LabResults("", "", [], [], [])

  const TestWord := "test"
  const PanelWord := "panel"
  const DateWord := "date"
  const CollectedWord := "collected"
  const DrawnWord := "drawn"

  /** A stripped line naming the test. */
  predicate NamesTest(line: string) {
    Contains(Lower(line), TestWord) || Contains(Lower(line), PanelWord)
  }

  /** A stripped line giving the date. */
  predicate NamesDate(line: string) {
    Contains(Lower(line), DateWord) || Contains(Lower(line), CollectedWord) || Contains(Lower(line), DrawnWord)
  }

  /**
   * The (key, numeral) a stripped line records: it needs a colon and a
   * digit, exactly two parts around colons, and a number after the colon.
   */
  function Reading(line: string): Option<(string, string)> {
    if ':' in line && HasDigit(line) then
      var parts := Split(line, ':');
      if |parts| == 2 then
        match FirstNumber(Strip(parts[1]))
        case Some(n) => Some((Strip(parts[0]), n))
        case None => None
      else None
    else None
  }

  /** What one line of the report does to the record. */
  function Step(r: LabResults, raw: string): LabResults {
    var line := Strip(raw);
    if line == "" then r
    else
      LabResults(
        if NamesTest(line) then line else r.testName,
        if NamesDate(line) then line else r.testDate,
        match Reading(line) case Some(kv) => Put(r.values, kv.0, kv.1) case None => r.values,
        r.referenceRanges,
        r.flags)
  }

  /** The record after the given lines, in order. */
  function ParseLines(lines: seq<string>): (r: LabResults)
    ensures r.referenceRanges == [] && r.flags == []
    ensures UniqueKeys(r.values)
  {
    if lines == [] then Blank
    else
      var before := ParseLines(lines[..|lines| - 1]);
      StepUnique(before, lines[|lines| - 1]);
      Step(before, lines[|lines| - 1])
  }

  /** A line keeps the recorded keys unique. */
  lemma StepUnique(r: LabResults, raw: string)
    requires UniqueKeys(r.values)
    ensures UniqueKeys(Step(r, raw).values)
  {
    var line := Strip(raw);
    if line != "" && Reading(line).Some? {
      PutUnique(r.values, Reading(line).value.0, Reading(line).value.1);
    }
  }

  /** `LabResultsParser.parse_text_results` */
  function ParseText(text: string): LabResults {
    ParseLines(Split(text, '\n'))
  }

  /** The body of the loop of `parse_text_results`: one line updates the record in place. */
  method ApplyLine(results: LabResults, raw: string) returns (next: LabResults)
    ensures next == Step(results, raw)
  {
    next := results;
    var line := Strip(raw);
    if line == "" {
      return;
    }
    var lowered := Lower(line);
    if Contains(lowered, TestWord) || Contains(lowered, PanelWord) {
      next := next.(testName := line);
    }
    if Contains(lowered, DateWord) || Contains(lowered, CollectedWord) || Contains(lowered, DrawnWord) {
      next := next.(testDate := line);
    }
    if ':' in line && HasDigit(line) {
      var parts := Split(line, ':');
      if |parts| == 2 {
        var testName := Strip(parts[0]);
        var valuePart := Strip(parts[1]);
        var numbers := FirstNumber(valuePart);
        if numbers.Some? {
          next := next.(values := Put(next.values, testName, numbers.value));
        }
      }
    }
  }

  /** `LabResultsParser.parse_text_results`: the loop over the lines of the report. */
  method ParseTextResults(text: string) returns (results: LabResults)
    ensures results == ParseText(text)
  {
    var lines := Split(text, '\n');
    results := LabResults("", "", [], [], []);
    for i := 0 to |lines|
      invariant results == ParseLines(lines[..i])
    {
      ParseStep(lines, i);
      results := ApplyLine(results, lines[i]);
    }
    assert lines[..|lines|] == lines;
  }

  /** The record after one more line is the record so far, updated by that line. */
  lemma ParseStep(lines: seq<string>, i: nat)
    requires i < |lines|
    ensures ParseLines(lines[..i + 1]) == Step(ParseLines(lines[..i]), lines[i])
  {
    assert lines[..i + 1][..i] == lines[..i];
    ParseLast(lines[..i + 1]);
  }

  /** A line that is blank once stripped changes nothing. */
  lemma BlankLineIgnored(lines: seq<string>, blank: string)
    requires forall k :: 0 <= k < |blank| ==> IsSpace(blank[k])
    ensures ParseLines(lines + [blank]) == ParseLines(lines)
  {
    assert (lines + [blank])[..|lines|] == lines;
  }

  /** Lines that name the test: non-blank once stripped, with "test" or "panel" in any case. */
  predicate IsNameLine(raw: string) { Strip(raw) != "" && NamesTest(Strip(raw)) }

  /** Lines that give the date. */
  predicate IsDateLine(raw: string) { Strip(raw) != "" && NamesDate(Strip(raw)) }

  /** The (key, numeral) a line records, if any. */
  function ReadingOf(raw: string): Option<(string, string)> {
    if Strip(raw) == "" then None else Reading(Strip(raw))
  }

  /** A name line sets the name; any other line leaves it. */
  lemma StepName(r: LabResults, raw: string)
    ensures Step(r, raw).testName == if IsNameLine(raw) then Strip(raw) else r.testName
  {
  }

  /** A date line sets the date; any other line leaves it. */
  lemma StepDate(r: LabResults, raw: string)
    ensures Step(r, raw).testDate == if IsDateLine(raw) then Strip(raw) else r.testDate
  {
  }

  /** A reading sets its own key and no other; a line without a reading leaves the values as they were. */
  lemma StepValue(r: LabResults, raw: string, key: string)
    ensures Get(Step(r, raw).values, key)
      == if ReadingOf(raw).Some? && ReadingOf(raw).value.0 == key then Some(ReadingOf(raw).value.1) else Get(r.values, key)
    ensures ReadingOf(raw).None? ==> Step(r, raw).values == r.values
  {
  }

  /** The record after some lines is the record before the last one, updated by it. */
  lemma ParseLast(lines: seq<string>)
    requires lines != []
    ensures ParseLines(lines) == Step(ParseLines(lines[..|lines| - 1]), lines[|lines| - 1])
  {
  }

  /** `test_name` is the last line naming the test, stripped. */
  lemma {:induction false} NameFromLastLine(lines: seq<string>, k: nat)
    requires k < |lines| && IsNameLine(lines[k])
    requires forall m :: k < m < |lines| ==> !IsNameLine(lines[m])
    ensures ParseLines(lines).testName == Strip(lines[k])
  {
    var init := lines[..|lines| - 1];
    ParseLast(lines);
    StepName(ParseLines(init), lines[|lines| - 1]);
    if k < |lines| - 1 {
      assert forall m :: k < m < |init| ==> init[m] == lines[m];
      NameFromLastLine(init, k);
    }
  }

  /** Without a line naming the test, `test_name` stays "". */
  lemma {:induction false} NoNameLine(lines: seq<string>)
    requires forall m :: 0 <= m < |lines| ==> !IsNameLine(lines[m])
    ensures ParseLines(lines).testName == ""
  {
    if lines != [] {
      var init := lines[..|lines| - 1];
      ParseLast(lines);
      StepName(ParseLines(init), lines[|lines| - 1]);
      assert forall m :: 0 <= m < |init| ==> init[m] == lines[m];
      NoNameLine(init);
    }
  }

  /** `test_date` is the last line giving the date, stripped. */
  lemma {:induction false} DateFromLastLine(lines: seq<string>, k: nat)
    requires k < |lines| && IsDateLine(lines[k])
    requires forall m :: k < m < |lines| ==> !IsDateLine(lines[m])
    ensures ParseLines(lines).testDate == Strip(lines[k])
  {
    var init := lines[..|lines| - 1];
    ParseLast(lines);
    StepDate(ParseLines(init), lines[|lines| - 1]);
    if k < |lines| - 1 {
      assert forall m :: k < m < |init| ==> init[m] == lines[m];
      DateFromLastLine(init, k);
    }
  }

  /** A later reading for the same key overwrites an earlier one: the last one wins. */
  lemma {:induction false} LastReadingWins(lines: seq<string>, k: nat, key: string, value: string)
    requires k < |lines| && ReadingOf(lines[k]) == Some((key, value))
    requires forall m :: k < m < |lines| ==> ReadingOf(lines[m]).None? || ReadingOf(lines[m]).value.0 != key
    ensures Get(ParseLines(lines).values, key) == Some(value)
  {
    var init := lines[..|lines| - 1];
    ParseLast(lines);
    StepValue(ParseLines(init), lines[|lines| - 1], key);
    if k < |lines| - 1 {
      assert forall m :: k < m < |init| ==> init[m] == lines[m];
      LastReadingWins(init, k, key, value);
    }
  }

  /** A text with a colon splits into at least two parts. */
  lemma SplitHasColon(s: string)
    requires ':' in s
    ensures |Split(s, ':')| >= 2
  {
  }

  /** A line with two colons splits into at least three parts, so it records no value. */
  lemma TwoColonsNoReading(line: string, i: nat, j: nat)
    requires i < j < |line| && line[i] == ':' && line[j] == ':'
    ensures |Split(line, ':')| >= 3
    ensures Reading(line) == None
  {
    var f := Find(line, ':').value;
    assert f <= i;
    var rest := line[f + 1..];
    assert rest[j - f - 1] == ':';
    SplitHasColon(rest);
  }

  const ReferenceOpen := " [Reference: "

  /**
   * A result line in the format of the clinic's sample reports,
   * `name: value [Reference: range]`, has a second colon inside the
   * reference range and so records no value.
   */
  lemma ReferenceLineRecordsNoValue(name: string, value: string, range: string)
    requires name != [] && !IsSpace(name[0])
    ensures ReadingOf(name + ": " + value + ReferenceOpen + range + "]") == None
  {
    var head := name + ": " + value;
    var tail := ReferenceOpen + range + "]";
    var line := head + tail;
    assert line == name + ": " + value + ReferenceOpen + range + "]";
    assert line[0] == name[0] && line[|line| - 1] == ']';
    StripUnchanged(line);
    assert line[|name|] == head[|name|] == ':';
    assert line[|head| + 11] == tail[11] == ReferenceOpen[11] == ':';
    TwoColonsNoReading(line, |name|, |head| + 11);
  }

  /** "Glucose: 98 mg/dL [Reference: 70-100]", the first result line of the sample report, records no value. */
  lemma SampleLineRecordsNoValue(r: LabResults)
    ensures Step(r, "Glucose" + ": " + "98 mg/dL" + ReferenceOpen + "70-100" + "]").values == r.values
  {
    ReferenceLineRecordsNoValue("Glucose", "98 mg/dL", "70-100");
    var line := "Glucose" + ": " + "98 mg/dL" + ReferenceOpen + "70-100" + "]";
    StepValue(r, line, "");
  }

  // ---------------------------------------------------------------------
  // normalize_results
  // ---------------------------------------------------------------------

  /** The keys `normalize_results` reads from any result dictionary; `None` is an absent key. */
  datatype RawResults = RawResults(
    testName: Option<string>,
    testDate: Option<string>,
    values: Option<KeyValues>,
    referenceRanges: Option<KeyValues>,
    flags: Option<seq<string>>)

  /** The normalised record. */
  datatype Normalized = Normalized(
    testType: string,
    testName: string,
    testDate: string,
    results: KeyValues,
    referenceRanges: KeyValues,
    flags: seq<string>,
    interpretation: string)

  const BloodTest := "blood_test"
  const UnknownName := "Unknown"

  /**
   * `LabResultsParser.normalize_results`; `now` is the
   * `datetime.now().isoformat()` default of a missing date.
   */
  function NormalizeResults(raw: RawResults, now: string): (r: Normalized)
    ensures r.testType == BloodTest && r.interpretation == ""
    ensures r.testName == if raw.testName.Some? then raw.testName.value else UnknownName
    ensures r.testDate == if raw.testDate.Some? then raw.testDate.value else now
    ensures r.results == raw.values.GetOr([])
  {
    Normalized(BloodTest, raw.testName.GetOr(UnknownName), raw.testDate.GetOr(now), raw.values.GetOr([]),
      raw.referenceRanges.GetOr([]), raw.flags.GetOr([]), "")
  }

  /** The dictionary `parse_text_results` returns: every key present. */
  function AsRaw(r: LabResults): RawResults {
    RawResults(Some(r.testName), Some(r.testDate), Some(r.values), Some(r.referenceRanges), Some(r.flags))
  }

  /**
   * Normalising a parsed report keeps its name even when it is "" (the key
   * is present, so "Unknown" never applies), keeps its date, does not depend
   * on the clock, and moves the values to `results`.
   */
  lemma NormalizeParsed(text: string, now: string, otherNow: string)
    ensures var p := ParseText(text);
      && NormalizeResults(AsRaw(p), now)
         == Normalized(BloodTest, p.testName, p.testDate, p.values, [], [], "")
      && NormalizeResults(AsRaw(p), now) == NormalizeResults(AsRaw(p), otherNow)
  {
  }
}
