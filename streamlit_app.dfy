/**
 * The deterministic pieces of the Streamlit front end (`ui/streamlit_app.py`):
 * turning a recommendations list into text, cleaning a refusal out of the
 * generated patient overview (with its fallback built from the record),
 * grouping a patient's tests by type, and mapping the upload form's French
 * test labels to the store's test-type keys.  Rendering and session state
 * are not part of this model.
 */
module StreamlitApp {
  import opened Wrappers
  import opened Text
  import opened Lists
  import opened Sorting
  import opened Records

  // ---------------------------------------------------------------------------
  // The recommendations of a summary
  // ---------------------------------------------------------------------------

  /** The `recommendations` value of a summary: a text, or a list of texts. */
  datatype Recommendations = RecText(text: string) | RecList(items: seq<string>)

  const Newline := "\n"

  /** A list is joined with newlines (`"\n".join`, "" for an empty list); a text is kept. */
  function RecommendationsText(r: Recommendations): string {
    match r
    case RecText(s) => s
    case RecList(items) => if items != [] then Join(items, Newline) else ""
  }

  /**
   * Splitting the joined text on the separator gives back the parts, when
   * no part holds the separator.
   */
  lemma {:induction false} SplitJoined(parts: seq<string>, c: char)
    requires |parts| >= 1
    requires forall k :: 0 <= k < |parts| ==> c !in parts[k]
    ensures Split(Join(parts, [c]), c) == parts
  {
    if |parts| == 1 {
      SplitWithout(parts[0], c);
    } else {
      var rest := parts[1..];
      assert Join(parts, [c]) == parts[0] + [c] + Join(rest, [c]);
      SplitAtFirst(parts[0], Join(rest, [c]), c);
      SplitJoined(rest, c);
      assert parts == [parts[0]] + rest;
    }
  }

  /** Splitting cuts at the first separator. */
  lemma SplitAtFirst(head: string, tail: string, c: char)
    requires c !in head
    ensures Split(head + [c] + tail, c) == [head] + Split(tail, c)
  {
    var s := head + [c] + tail;
    var i := |head|;
    assert s[..i] == head;
    FindAt(s, c, i);
    assert s[i + 1..] == tail;
  }

  /** A list of one-line recommendations is recovered line by line from its text. */
  lemma RecommendationsLines(items: seq<string>)
    requires items != []
    requires forall k :: 0 <= k < |items| ==> '\n' !in items[k]
    ensures Split(RecommendationsText(RecList(items)), '\n') == items
  {
    SplitJoined(items, '\n');
  }

  // ---------------------------------------------------------------------------
  // Cleaning a refusal out of the patient overview
  // ---------------------------------------------------------------------------

  /** Phrases that mark the whole overview as a refusal. */
  const TriggerPhrases: seq<string> := ["je suis désolé", "je ne peux pas", "si vous fournissez",
                                        "j'aurai plaisir", "fournissez les informations"]

  /** Phrases that mark one line of a refusal as apology. */
  const SkipPhrases: seq<string> := ["désolé", "ne peux pas", "si vous", "j'aurai", "fournissez", "plaisir"]

  /** `any(phrase in s.lower() for phrase in phrases)` */
  predicate MentionsAny(s: string, phrases: seq<string>) {
    exists k | 0 <= k < |phrases| :: Contains(Lower(s), phrases[k])
  }

  predicate IsRefusal(overview: string) { MentionsAny(overview, TriggerPhrases) }

  predicate IsSkipLine(line: string) { MentionsAny(line, SkipPhrases) }

  const MinAfterColon := 10
  const MinSentence := 30

  /** A suffix of a text is contained in it. */
  lemma SuffixContained(s: string, i: nat)
    requires i <= |s|
    ensures Contains(s, s[i..])
  {
    assert IsPrefix(s[i..], s[i..]);
  }

  /**
   * What one line of a refusal contributes: nothing for an apology line; for
   * a line with a colon, the stripped text after its first colon when it is
   * longer than 10 characters; for any other line, the stripped line when
   * it is longer than 30 characters and does not start with "-".
   */
  function KeptFragment(line: string): (r: Option<string>)
    ensures r.Some? ==> !IsSkipLine(line)
  {
    if IsSkipLine(line) then None
    else match AfterFirst(line, ':')
      case Some(after) => AfterColonFragment(after)
      case None => SentenceFragment(line)
  }

  /** The text after the colon, stripped, when it is longer than 10 characters. */
  function AfterColonFragment(after: string): (r: Option<string>)
    ensures r.Some? <==> |Strip(after)| > MinAfterColon
    ensures r.Some? ==> r.value == Strip(after)
  {
    var f := Strip(after);
    if |f| > MinAfterColon then Some(f) else None
  }

  /** The stripped line, when it is longer than 30 characters and does not start with "-". */
  function SentenceFragment(line: string): (r: Option<string>)
    ensures r.Some? <==> |Strip(line)| > MinSentence && Strip(line)[0] != '-'
    ensures r.Some? ==> r.value == Strip(line)
  {
    var f := Strip(line);
    if |f| > MinSentence && f[0] != '-' then Some(f) else None
  }

  /**
   * A line with a colon contributes the stripped text after its first
   * colon, and does so exactly when that text is longer than 10 characters
   * and the line is not an apology line.
   */
  lemma ColonLineRule(line: string)
    requires ':' in line
    ensures KeptFragment(line).Some? <==> !IsSkipLine(line) && |Strip(AfterFirst(line, ':').value)| > MinAfterColon
    ensures KeptFragment(line).Some? ==> KeptFragment(line).value == Strip(AfterFirst(line, ':').value)
    ensures KeptFragment(line).Some? ==> Contains(AfterFirst(line, ':').value, KeptFragment(line).value)
  {
    var after := AfterFirst(line, ':').value;
    assert KeptFragment(line) == if IsSkipLine(line) then None else AfterColonFragment(after);
  }

  /**
   * A line without a colon contributes its stripped self, and does so
   * exactly when that is longer than 30 characters, does not start with
   * "-" and the line is not an apology line.
   */
  lemma SentenceLineRule(line: string)
    requires ':' !in line
    ensures KeptFragment(line).Some? <==> !IsSkipLine(line) && |Strip(line)| > MinSentence && Strip(line)[0] != '-'
    ensures KeptFragment(line).Some? ==> KeptFragment(line).value == Strip(line)
  {
    assert KeptFragment(line) == if IsSkipLine(line) then None else SentenceFragment(line);
  }

  /** The fragments kept from `lines`, in line order. */
  function KeptLines(lines: seq<string>): seq<string> {
    Collect(lines, KeptFragment)
  }

  /** The clean-up loop over the lines of a refusal. */
  method CollectSummaryLines(lines: seq<string>) returns (summaryLines: seq<string>)
    ensures summaryLines == KeptLines(lines)
  {
    summaryLines := [];
    for i := 0 to |lines|
      invariant summaryLines == Collect(lines[..i], KeptFragment)
    {
      CollectStep(lines, KeptFragment, i);
      var line := lines[i];
      if IsSkipLine(line) {
        continue;
      }
      if ':' in line || (|Strip(line)| > MinSentence && Strip(line)[0] != '-') {
        if ':' in line {
          var after := AfterFirst(line, ':').value;
          if |Strip(after)| > MinAfterColon {
            summaryLines := summaryLines + [Strip(after)];
          }
        } else {
          summaryLines := summaryLines + [Strip(line)];
        }
      }
    }
    assert lines[..|lines|] == lines;
  }

  /** Every kept fragment comes from a line that is not an apology line. */
  lemma KeptFromLine(lines: seq<string>, i: nat)
    requires i < |KeptLines(lines)|
    ensures exists k :: 0 <= k < |lines| && !IsSkipLine(lines[k]) && KeptFragment(lines[k]) == Some(KeptLines(lines)[i])
  {
    CollectFrom(lines, KeptFragment, i);
  }

  /** The fragments of two kept lines appear in the order of the lines. */
  lemma KeptInLineOrder(lines: seq<string>, j: nat, k: nat)
    requires j < k < |lines|
    requires KeptFragment(lines[j]).Some? && KeptFragment(lines[k]).Some?
    ensures exists a, b :: 0 <= a < b < |KeptLines(lines)| &&
              KeptLines(lines)[a] == KeptFragment(lines[j]).value && KeptLines(lines)[b] == KeptFragment(lines[k]).value
  {
    CollectAt(lines, KeptFragment, j);
    CollectAt(lines, KeptFragment, k);
    CollectInOrder(lines, KeptFragment, j, k);
    var a, b := CollectedBefore(lines, KeptFragment, j), CollectedBefore(lines, KeptFragment, k);
    assert KeptLines(lines)[a] == KeptFragment(lines[j]).value;
  }

  /** A refusal made only of apology lines keeps nothing. */
  lemma OnlySkipLinesKeepNothing(lines: seq<string>)
    requires forall k :: 0 <= k < |lines| ==> IsSkipLine(lines[k])
    ensures KeptLines(lines) == []
  {
    CollectNothing(lines, KeptFragment);
  }

  /** What the fallback is built from. */
  datatype OverviewData = OverviewData(
    diagnoses: seq<string>,        // the non-empty diagnoses of the visits, newest visit first
    medNames: seq<string>,         // the name of each active medication
    tests: seq<TestResult>,        // the patient's tests
    latestSummary: Option<string>) // the newest visit's summary; `None` without visits

  const DiagnosisCaption := "Diagnostic principal: "
  const MedsCaption := "Médicaments: "
  const TestsCaption := "Tests récents: "
  const LatestCaption := "Dernière consultation: "
  const Continued := "..."
  const ListSeparator := ", "
  const PartSeparator := ". "
  const NoOverview := "Résumé non disponible pour le moment."
  const MaxMedNames := 3
  const RecentTestCount := 2
  const LatestCut := 150

  predicate IsText(s: string) { s != "" }

  function TestName(t: TestResult): string { t.testName }

  /** The medication names that are not empty. */
  function NamedMeds(medNames: seq<string>): seq<string> {
    Filter(medNames, IsText)
  }

  /** The two newest tests. */
  function NewestTests(tests: seq<TestResult>): (r: seq<TestResult>)
    ensures |r| == if |tests| < RecentTestCount then |tests| else RecentTestCount
    ensures forall k :: 0 <= k < |r| ==> r[k] in tests
    ensures forall i, j :: 0 <= i < j < |r| ==> TestKey(r[i]) >= TestKey(r[j])
  {
    var sorted := SortDesc(tests, TestKey);
    assert forall k :: 0 <= k < |sorted| ==> sorted[k] in multiset(tests);
    Take(sorted, RecentTestCount)
  }

  /** The non-empty names of the two newest tests. */
  function RecentTestNames(tests: seq<TestResult>): seq<string> {
    Filter(MapSeq(NewestTests(tests), TestName), IsText)
  }

  /** A test left out of the two newest is no more recent than either. */
  lemma NewestTestsAreMostRecent(tests: seq<TestResult>, t: TestResult, k: nat)
    requires t in tests && t !in NewestTests(tests)
    requires k < |NewestTests(tests)|
    ensures TestKey(NewestTests(tests)[k]) >= TestKey(t)
  {
    var sorted := SortDesc(tests, TestKey);
    assert t in multiset(tests);
    var m := IndexOf(sorted, t);
    assert m >= RecentTestCount;
    assert NewestTests(tests)[k] == sorted[k];
  }

  function DiagnosisPart(d: OverviewData): seq<string> {
    if d.diagnoses != [] then [DiagnosisCaption + d.diagnoses[0]] else []
  }

  function MedsPart(d: OverviewData): seq<string> {
    var names := NamedMeds(d.medNames);
    if names != [] then [MedsCaption + Join(Take(names, MaxMedNames), ListSeparator)] else []
  }

  function TestsPart(d: OverviewData): seq<string> {
    var names := RecentTestNames(d.tests);
    if names != [] then [TestsCaption + Join(names, ListSeparator)] else []
  }

  function LatestPart(d: OverviewData): seq<string> {
    if Truthy(d.latestSummary) then [LatestCaption + Take(d.latestSummary.value, LatestCut) + Continued] else []
  }

  /** The parts of the fallback, in order. */
  function FallbackParts(d: OverviewData): seq<string> {
    DiagnosisPart(d) + MedsPart(d) + TestsPart(d) + LatestPart(d)
  }

  /** The fallback overview: its parts joined with ". ", or a fixed notice. */
  function FallbackOverview(d: OverviewData): string {
    var parts := FallbackParts(d);
    if parts != [] then Join(parts, PartSeparator) else NoOverview
  }

  /** `if meds_data: ... if med_names: overview_parts.append(...)` */
  method AppendMeds(parts: seq<string>, d: OverviewData) returns (overviewParts: seq<string>)
    ensures overviewParts == parts + MedsPart(d)
  {
    overviewParts := parts;
    if d.medNames != [] {
      var names := NamedMeds(d.medNames);
      if names != [] {
        overviewParts := overviewParts + [MedsCaption + Join(Take(names, MaxMedNames), ListSeparator)];
      }
    } else {
      assert NamedMeds(d.medNames) == [];
    }
  }

  /** `if test_results_data: ... if recent_test_names: overview_parts.append(...)` */
  method AppendTests(parts: seq<string>, d: OverviewData) returns (overviewParts: seq<string>)
    ensures overviewParts == parts + TestsPart(d)
  {
    overviewParts := parts;
    if d.tests != [] {
      var names := RecentTestNames(d.tests);
      if names != [] {
        overviewParts := overviewParts + [TestsCaption + Join(names, ListSeparator)];
      }
    } else {
      assert RecentTestNames(d.tests) == [];
    }
  }

  /** Building the fallback part by part. */
  method BuildFallback(d: OverviewData) returns (overview: string)
    ensures overview == FallbackOverview(d)
  {
    var overviewParts: seq<string> := [];
    if d.diagnoses != [] {
      overviewParts := overviewParts + [DiagnosisCaption + d.diagnoses[0]];
    }
    assert overviewParts == DiagnosisPart(d);
    overviewParts := AppendMeds(overviewParts, d);
    overviewParts := AppendTests(overviewParts, d);
    ghost var before := overviewParts;
    if Truthy(d.latestSummary) {
      var summary := Take(d.latestSummary.value, LatestCut);
      overviewParts := overviewParts + [LatestCaption + summary + Continued];
    }
    assert overviewParts == before + LatestPart(d);
    overview := if overviewParts != [] then Join(overviewParts, PartSeparator) else NoOverview;
  }

  /** A join starts with its first part's first character. */
  lemma JoinStart(parts: seq<string>, sep: string)
    requires parts != [] && parts[0] != []
    ensures Join(parts, sep) != [] && Join(parts, sep)[0] == parts[0][0]
  {
  }

  /** The fixed notice is given exactly when the record has nothing to show. */
  lemma FallbackNotice(d: OverviewData)
    ensures FallbackOverview(d) == NoOverview <==>
            d.diagnoses == [] && NamedMeds(d.medNames) == [] && RecentTestNames(d.tests) == [] && !Truthy(d.latestSummary)
  {
    var parts := FallbackParts(d);
    if parts != [] {
      var first := parts[0];
      assert first[0] != 'R' by {
        if DiagnosisPart(d) != [] {
          assert first == DiagnosisCaption + d.diagnoses[0];
        } else if MedsPart(d) != [] {
          assert first == MedsPart(d)[0];
        } else if TestsPart(d) != [] {
          assert first == TestsPart(d)[0];
        } else {
          assert first == LatestPart(d)[0];
        }
      }
      JoinStart(parts, PartSeparator);
      assert NoOverview[0] == 'R';
    }
  }

  /** A part present in the list is in the fallback text. */
  lemma PartShown(d: OverviewData, part: string)
    requires part in FallbackParts(d)
    ensures Contains(FallbackOverview(d), part)
  {
    var k := IndexOf(FallbackParts(d), part);
    JoinContains(FallbackParts(d), PartSeparator, k);
  }

  /**
   * The fallback shows the first diagnosis, at most three medication names,
   * the names of the two newest tests and the newest summary cut to 150
   * characters, each when there is one.
   */
  lemma FallbackShows(d: OverviewData)
    ensures d.diagnoses != [] ==> Contains(FallbackOverview(d), DiagnosisCaption + d.diagnoses[0])
    ensures NamedMeds(d.medNames) != [] ==>
              Contains(FallbackOverview(d), MedsCaption + Join(Take(NamedMeds(d.medNames), MaxMedNames), ListSeparator))
    ensures RecentTestNames(d.tests) != [] ==>
              Contains(FallbackOverview(d), TestsCaption + Join(RecentTestNames(d.tests), ListSeparator))
    ensures Truthy(d.latestSummary) ==>
              Contains(FallbackOverview(d), LatestCaption + Take(d.latestSummary.value, LatestCut) + Continued)
  {
    if d.diagnoses != [] {
      PartShown(d, DiagnosisPart(d)[0]);
    }
    if NamedMeds(d.medNames) != [] {
      PartShown(d, MedsPart(d)[0]);
    }
    if RecentTestNames(d.tests) != [] {
      PartShown(d, TestsPart(d)[0]);
    }
    if Truthy(d.latestSummary) {
      PartShown(d, LatestPart(d)[0]);
    }
  }

  /**
   * The overview after clean-up: unchanged unless it is a refusal; then the
   * kept fragments joined with single spaces, or the fallback when nothing
   * was kept.
   */
  function CleanOverview(overview: string, d: OverviewData): (r: string)
    ensures !IsRefusal(overview) ==> r == overview
    ensures IsRefusal(overview) && KeptLines(Split(overview, '\n')) == [] ==> r == FallbackOverview(d)
    ensures IsRefusal(overview) && KeptLines(Split(overview, '\n')) != [] ==> r == Join(KeptLines(Split(overview, '\n')), " ")
  {
    if !IsRefusal(overview) then overview
    else
      var kept := KeptLines(Split(overview, '\n'));
      if kept != [] then Join(kept, " ") else FallbackOverview(d)
  }

  /** The clean-up block. */
  method CleanUpOverview(overview: string, d: OverviewData) returns (cleaned: string)
    ensures cleaned == CleanOverview(overview, d)
  {
    cleaned := overview;
    if IsRefusal(overview) {
      var lines := Split(overview, '\n');
      var summaryLines := CollectSummaryLines(lines);
      if summaryLines != [] {
        cleaned := Join(summaryLines, " ");
      } else {
        cleaned := BuildFallback(d);
      }
    }
  }

  /** Each kept fragment of a refusal appears in the cleaned overview. */
  lemma CleanedShowsFragment(overview: string, d: OverviewData, i: nat)
    requires IsRefusal(overview)
    requires i < |KeptLines(Split(overview, '\n'))|
    ensures Contains(CleanOverview(overview, d), KeptLines(Split(overview, '\n'))[i])
  {
    JoinContains(KeptLines(Split(overview, '\n')), " ", i);
  }

  /** A refusal whose every line is apology is replaced by the fallback. */
  lemma OnlyApologyGivesFallback(overview: string, d: OverviewData)
    requires IsRefusal(overview)
    requires forall k :: 0 <= k < |Split(overview, '\n')| ==> IsSkipLine(Split(overview, '\n')[k])
    ensures CleanOverview(overview, d) == FallbackOverview(d)
  {
    OnlySkipLinesKeepNothing(Split(overview, '\n'));
  }

  // ---------------------------------------------------------------------------
  // Grouping tests by type
  // ---------------------------------------------------------------------------

  /**
   * A dictionary from a key to the list of its items, as Python keeps it:
   * the keys in insertion order and the map from each key to its list.
   */
  datatype Groups<T> = Groups(order: seq<string>, items: map<string, seq<T>>)

  /** The insertion order lists each key of the map once. */
  ghost predicate WellOrdered<T>(g: Groups<T>) {
    (forall k :: k in g.order <==> k in g.items) &&
    (forall i, j :: 0 <= i < j < |g.order| ==> g.order[i] != g.order[j])
  }

  const NoGroups: Groups<TestResult> := Groups([], map[])

  /** `if k not in groups: groups[k] = []` then `groups[k].append(x)` */
  function AddToGroup<T>(g: Groups<T>, k: string, x: T): Groups<T> {
    var slotted := if k in g.items then g else Groups(g.order + [k], g.items[k := []]);
    Groups(slotted.order, slotted.items[k := slotted.items[k] + [x]])
  }

  /** The dictionary after `for x in xs: groups.setdefault(key(x), []).append(x)`. */
  function GroupBy<T>(xs: seq<T>, key: T -> string): Groups<T> {
    if xs == [] then Groups([], map[])
    else
      var last := xs[|xs| - 1];
      AddToGroup(GroupBy(xs[..|xs| - 1], key), key(last), last)
  }

  /** The items a group should hold. */
  function WithKey<T>(key: T -> string, k: string): T -> bool {
    x => key(x) == k
  }

  /**
   * A key has a group exactly when some item has that key, and its group
   * holds exactly the items with that key, in their original order.
   */
  lemma {:induction false} GroupIsFilter<T>(xs: seq<T>, key: T -> string, k: string)
    ensures k in GroupBy(xs, key).items <==> Filter(xs, WithKey(key, k)) != []
    ensures k in GroupBy(xs, key).items ==> GroupBy(xs, key).items[k] == Filter(xs, WithKey(key, k))
  {
    if xs != [] {
      var n := |xs| - 1;
      GroupIsFilter(xs[..n], key, k);
      FilterStep(xs, WithKey(key, k), n);
      assert xs[..n + 1] == xs;
    }
  }

  /** Every item lands in the group of its key. */
  lemma GroupKeysCover<T>(xs: seq<T>, key: T -> string, m: nat)
    requires m < |xs|
    ensures key(xs[m]) in GroupBy(xs, key).items
    ensures xs[m] in GroupBy(xs, key).items[key(xs[m])]
  {
    GroupIsFilter(xs, key, key(xs[m]));
    assert WithKey(key, key(xs[m]))(xs[m]);
  }

  /** The keys come in insertion order, each once. */
  lemma {:induction false} GroupByWellOrdered<T>(xs: seq<T>, key: T -> string)
    ensures WellOrdered(GroupBy(xs, key))
  {
    if xs != [] {
      var n := |xs| - 1;
      GroupByWellOrdered(xs[..n], key);
    }
  }

  const OtherType := "other"

  /** `test.test_type or "other"` */
  function TypeKey(t: TestResult): string {
    if t.testType != "" then t.testType else OtherType
  }

  /** The grouping loop of the tests view. */
  method GroupTests(tests: seq<TestResult>) returns (byType: Groups<TestResult>)
    ensures byType == GroupBy(tests, TypeKey)
  {
    byType := NoGroups;
    for k := 0 to |tests|
      invariant byType == GroupBy(tests[..k], TypeKey)
    {
      assert tests[..k + 1][..k] == tests[..k];
      var test := tests[k];
      var testType := TypeKey(test);
      if testType !in byType.items {
        byType := Groups(byType.order + [testType], byType.items[testType := []]);
      }
      byType := byType.(items := byType.items[testType := byType.items[testType] + [test]]);
    }
    assert tests[..|tests|] == tests;
  }

  /** A test without a type is in the "other" group. */
  lemma UntypedTestIsOther(tests: seq<TestResult>, m: nat)
    requires m < |tests| && tests[m].testType == ""
    ensures OtherType in GroupBy(tests, TypeKey).items
    ensures tests[m] in GroupBy(tests, TypeKey).items[OtherType]
  {
    GroupKeysCover(tests, TypeKey, m);
  }

  // ---------------------------------------------------------------------------
  // The upload form's test labels
  // ---------------------------------------------------------------------------

  const MriLabel := "IRM"
  const CtLabel := "Scanner CT"
  const XrayLabel := "Radiographie"
  const BloodLabel := "Analyse de Sang"

  const MriKey := "mri"
  const CtKey := "ct_scan"
  const XrayKey := "x-ray"
  const BloodKey := "blood_test"

  predicate IsFormLabel(formText: string) {
    formText == MriLabel || formText == CtLabel || formText == XrayLabel || formText == BloodLabel
  }

  /** A text with no upper-case letter and no space. */
  predicate IsKeyText(s: string) {
    forall i :: 0 <= i < |s| ==> !IsUpperLetter(s[i]) && s[i] != ' '
  }

  /**
   * `test_type_map.get(formText, formText.lower().replace(" ", "_"))`: the four
   * form labels map to their keys; any other formText is lower-cased with its
   * spaces turned into "_".
   */
  function DbTestType(formText: string): (r: string)
    ensures !IsFormLabel(formText) ==> |r| == |formText|
    ensures !IsFormLabel(formText) ==> forall i :: 0 <= i < |r| ==> r[i] == if formText[i] == ' ' then '_' else LowerChar(formText[i])
  {
    if formText == MriLabel then MriKey
    else if formText == CtLabel then CtKey
    else if formText == XrayLabel then XrayKey
    else if formText == BloodLabel then BloodKey
    else ReplaceChar(Lower(formText), ' ', '_')
  }

  /** Every key the mapping produces is lower-case without spaces. */
  lemma DbTestTypeIsKey(formText: string)
    ensures IsKeyText(DbTestType(formText))
  {
    var r := DbTestType(formText);
    if IsFormLabel(formText) {
      assert r in {MriKey, CtKey, XrayKey, BloodKey};
      assert forall i :: 0 <= i < |MriKey| ==> !IsUpperLetter(MriKey[i]) && MriKey[i] != ' ';
      assert forall i :: 0 <= i < |CtKey| ==> !IsUpperLetter(CtKey[i]) && CtKey[i] != ' ';
      assert forall i :: 0 <= i < |XrayKey| ==> !IsUpperLetter(XrayKey[i]) && XrayKey[i] != ' ';
      assert forall i :: 0 <= i < |BloodKey| ==> !IsUpperLetter(BloodKey[i]) && BloodKey[i] != ' ';
    }
  }

  /** A key text is not one of the form labels, each of which starts with a capital. */
  lemma KeyIsNoLabel(s: string)
    requires IsKeyText(s)
    ensures !IsFormLabel(s)
  {
    if s != [] {
      assert !IsUpperLetter(s[0]);
      assert IsUpperLetter(MriLabel[0]) && IsUpperLetter(CtLabel[0]);
      assert IsUpperLetter(XrayLabel[0]) && IsUpperLetter(BloodLabel[0]);
    }
  }

  /** Mapping a store key again leaves it as it is. */
  lemma DbTestTypeIdempotent(formText: string)
    ensures DbTestType(DbTestType(formText)) == DbTestType(formText)
  {
    var r := DbTestType(formText);
    DbTestTypeIsKey(formText);
    KeyIsNoLabel(r);
    var rr := DbTestType(r);
    assert |rr| == |r|;
    forall i | 0 <= i < |r| ensures rr[i] == r[i] {
      assert !IsUpperLetter(r[i]) && r[i] != ' ';
    }
  }
}
