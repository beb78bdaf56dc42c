/**
 * `MedicalSummarizer` (services/summarizer.py): turning a transcription into
 * the structured summary of a visit, cleaning a summary, extracting medical
 * entities, and preparing the material of the patient overview.
 *
 * Each method asks the language model once.  The model is a parameter: a
 * function from the text the prompt is built around to the model's reply, or
 * `Raised` where `ollama.chat` (or the lookup of its content) raises.  The
 * fixed prose of the prompts is not modelled; the overview's model receives
 * the prepared pieces of its prompt as an `OverviewPrompt` value.
 */
module Summarizer {
  import opened Wrappers
  import opened Text
  import opened Lists
  import opened Sorting
  import opened Records
  import opened Extraction

  /** A model call whose prompt is built around one text. */
  type TextModel = string -> Outcome<string>

  // ---------------------------------------------------------------------
  // summarize_conversation
  // ---------------------------------------------------------------------

  /** The fixed-shape dictionary the summary falls back to. */
  datatype SummaryFields = SummaryFields(
    summary: string,
    topicsDiscussed: seq<string>,
    chiefComplaint: string,
    diagnosis: string,
    recommendations: string,
    medicationsMentioned: seq<KeyValues>,
    followUp: string)

  /** What `summarize_conversation` returns: the parsed object, or the fixed shape. */
  datatype Summary<J> =
    | Parsed(value: J)
    | Fallback(fields: SummaryFields)

  /** The fixed shape: a summary text and every other field empty. */
  function SummaryOnly(summary: string): SummaryFields {
    SummaryFields(summary, [], "", "", "", [], "")
  }

  /** Every field of the fixed shape but the summary is empty. */
  predicate OnlySummary(f: SummaryFields) {
    f.topicsDiscussed == [] && f.chiefComplaint == "" && f.diagnosis == ""
    && f.recommendations == "" && f.medicationsMentioned == [] && f.followUp == ""
  }

  const Ellipsis := "..."

  /** The summary of the `except` branch: the first 500 characters of the transcription and "...". */
  function TruncatedTranscription(transcription: string): (r: string)
    ensures |r| == |Take(transcription, 500)| + 3 <= 503
    ensures IsPrefix(Take(transcription, 500), r)
  {
    assert (Take(transcription, 500) + Ellipsis)[..|Take(transcription, 500)|] == Take(transcription, 500);
    Take(transcription, 500) + Ellipsis
  }

  /** `MedicalSummarizer.summarize_conversation` */
  function SummarizeConversation<J>(transcription: string, model: TextModel, parse: string -> Option<J>): (r: Summary<J>)
    ensures r.Fallback? ==> OnlySummary(r.fields)
  {
    match model(transcription)
    case Raised(_) => Fallback(SummaryOnly(TruncatedTranscription(transcription)))
    case Success(content) =>
      match Extract(content, parse)
      case Structured(v) => Parsed(v)
      case NoBraces => Fallback(SummaryOnly(content))
      case Malformed => Fallback(SummaryOnly(TruncatedTranscription(transcription)))
  }

  /** A reply with a first `{` before a last `}` whose span parses is summarised by the parsed span. */
  lemma SummaryIsParsedSpan<J>(transcription: string, model: TextModel, parse: string -> Option<J>)
    requires model(transcription).Success?
    requires BraceSpan(model(transcription).value).Some?
    requires parse(BraceSpan(model(transcription).value).value).Some?
    ensures SummarizeConversation(transcription, model, parse) == Parsed(parse(BraceSpan(model(transcription).value).value).value)
  {
  }

  /** A reply without such a pair becomes the summary itself, all other fields empty. */
  lemma SummaryWithoutBraces<J>(transcription: string, model: TextModel, parse: string -> Option<J>)
    requires model(transcription).Success?
    requires var c := model(transcription).value; !exists i, j :: 0 <= i < j < |c| && c[i] == '{' && c[j] == '}'
    ensures var r := SummarizeConversation(transcription, model, parse);
      r.Fallback? && r.fields.summary == model(transcription).value && OnlySummary(r.fields)
  {
  }

  /**
   * A failed model call, and a span that does not parse, both give the
   * truncated transcription as summary (not the model's text), all other
   * fields empty.
   */
  lemma SummaryOnFailure<J>(transcription: string, model: TextModel, parse: string -> Option<J>)
    requires model(transcription).Raised?
      || (BraceSpan(model(transcription).value).Some? && parse(BraceSpan(model(transcription).value).value).None?)
    ensures var r := SummarizeConversation(transcription, model, parse);
      && r.Fallback?
      && r.fields.summary == Take(transcription, 500) + Ellipsis
      && OnlySummary(r.fields)
  {
  }

  // ---------------------------------------------------------------------
  // clean_summary and extract_medical_entities
  // ---------------------------------------------------------------------

  /** `MedicalSummarizer.clean_summary`: the stripped reply, or the summary unchanged when the call fails. */
  function CleanSummary(summary: string, model: TextModel): (r: string)
    ensures model(summary).Raised? ==> r == summary
    ensures model(summary).Success? ==> r == Strip(model(summary).value)
  {
    match model(summary)
    case Success(content) => Strip(content)
    case Raised(_) => summary
  }

  /** `MedicalSummarizer.extract_medical_entities`; `None` stands for the `{}` of every failure. */
  function ExtractMedicalEntities<J>(text: string, model: TextModel, parse: string -> Option<J>): (r: Option<J>)
    ensures r.Some? <==> model(text).Success? && Extract(model(text).value, parse).Structured?
    ensures r.Some? ==> r.value == parse(BraceSpan(model(text).value).value).value
  {
    match model(text)
    case Raised(_) => None
    case Success(content) =>
      match Extract(content, parse)
      case Structured(v) => Some(v)
      case NoBraces => None
      case Malformed => None
  }

  /** No first `{` before a last `}` in the reply: `{}`. */
  lemma EntitiesWithoutBraces<J>(text: string, model: TextModel, parse: string -> Option<J>)
    requires model(text).Success?
    requires var c := model(text).value; !exists i, j :: 0 <= i < j < |c| && c[i] == '{' && c[j] == '}'
    ensures ExtractMedicalEntities(text, model, parse) == None
  {
  }

  // ---------------------------------------------------------------------
  // generate_patient_overview: medications
  // ---------------------------------------------------------------------

  /** A medication dictionary of the overview; `None` is an absent key. */
  datatype MedEntry = MedEntry(
    name: Option<string>,
    medicationName: Option<string>,
    dosage: Option<string>,
    frequency: Option<string>)

  /** `med.get("name", med.get("medication_name", ""))` */
  function MedName(m: MedEntry): string {
    match m.name
    case Some(n) => n
    case None => m.medicationName.GetOr("")
  }

  predicate IsNamed(m: MedEntry) { MedName(m) != "" }

  /** "name (dosage) - frequency", leaving out the empty parts. */
  function MedText(m: MedEntry): string {
    MedName(m)
    + (if m.dosage.GetOr("") != "" then " (" + m.dosage.value + ")" else "")
    + (if m.frequency.GetOr("") != "" then " - " + m.frequency.value else "")
  }

  const NoMedication := "Aucun médicament actif"

  /** `meds_text` */
  function MedsText(medications: seq<MedEntry>): string {
    var named := Filter(medications, IsNamed);
    if named == [] then NoMedication else Join(MapSeq(named, MedText), ", ")
  }

  /**
   * A medication's text starts with its name; " (dosage)" follows exactly
   * when the dosage is non-empty, and " - frequency" ends it exactly when
   * the frequency is non-empty.
   */
  lemma MedTextShows(m: MedEntry)
    ensures IsPrefix(MedName(m), MedText(m))
    ensures m.dosage.GetOr("") != "" ==> IsPrefix(MedName(m) + " (" + m.dosage.value + ")", MedText(m))
    ensures m.frequency.GetOr("") != "" ==> MedText(m)[|MedText(m)| - |" - " + m.frequency.value|..] == " - " + m.frequency.value
    ensures |MedText(m)| == |MedName(m)| + (if m.dosage.GetOr("") != "" then 3 + |m.dosage.value| else 0)
                          + (if m.frequency.GetOr("") != "" then 3 + |m.frequency.value| else 0)
  {
    var d := if m.dosage.GetOr("") != "" then " (" + m.dosage.value + ")" else "";
    var f := if m.frequency.GetOr("") != "" then " - " + m.frequency.value else "";
    assert MedText(m) == MedName(m) + d + f;
    assert (MedName(m) + d + f)[..|MedName(m)|] == MedName(m);
    assert (MedName(m) + d + f)[..|MedName(m) + d|] == MedName(m) + d;
    assert (MedName(m) + d + f)[|MedName(m) + d|..] == f;
  }

  /** The text of one medication, built as `med_text` is. */
  method FormatMed(med: MedEntry) returns (text: string)
    requires IsNamed(med)
    ensures text == MedText(med)
  {
    var dosage := med.dosage.GetOr("");
    var frequency := med.frequency.GetOr("");
    text := MedName(med);
    ghost var expected := text;
    if dosage != "" {
      text := text + " (" + dosage + ")";
    }
    expected := expected + (if med.dosage.GetOr("") != "" then " (" + med.dosage.value + ")" else "");
    assert text == expected;
    if frequency != "" {
      text := text + " - " + frequency;
    }
  }

  /** The medication loop of `generate_patient_overview`. */
  method PrepareMedsText(medications: seq<MedEntry>) returns (text: string)
    ensures text == MedsText(medications)
  {
    var medsList: seq<string> := [];
    for i := 0 to |medications|
      invariant medsList == MapSeq(Filter(medications[..i], IsNamed), MedText)
    {
      MedsListStep(medications, i);
      if MedName(medications[i]) != "" {
        var medText := FormatMed(medications[i]);
        medsList := medsList + [medText];
      }
    }
    assert medications[..|medications|] == medications;
    if medsList != [] {
      text := Join(medsList, ", ");
    } else {
      text := NoMedication;
    }
  }

  /** One more medication adds its text to the list exactly when it is named. */
  lemma MedsListStep(medications: seq<MedEntry>, i: nat)
    requires i < |medications|
    ensures MapSeq(Filter(medications[..i + 1], IsNamed), MedText)
      == MapSeq(Filter(medications[..i], IsNamed), MedText) + (if IsNamed(medications[i]) then [MedText(medications[i])] else [])
  {
    FilterStep(medications, IsNamed, i);
    var before := Filter(medications[..i], IsNamed);
    if IsNamed(medications[i]) {
      assert MapSeq(before + [medications[i]], MedText) == MapSeq(before, MedText) + [MedText(medications[i])];
    } else {
      assert Filter(medications[..i + 1], IsNamed) == before;
    }
  }

  /** Every named medication is listed in the medication text. */
  lemma MedsTextListsNamed(medications: seq<MedEntry>, k: nat)
    requires k < |medications| && IsNamed(medications[k])
    ensures Contains(MedsText(medications), MedText(medications[k]))
  {
    var named := Filter(medications, IsNamed);
    assert medications[k] in named;
    var j := IndexOf(named, medications[k]);
    JoinContains(MapSeq(named, MedText), ", ", j);
  }

  /** With no named medication the text says there is none. */
  lemma MedsTextNoneNamed(medications: seq<MedEntry>)
    requires forall k :: 0 <= k < |medications| ==> !IsNamed(medications[k])
    ensures MedsText(medications) == NoMedication
  {
    FilterNone(medications, IsNamed);
  }

  // ---------------------------------------------------------------------
  // generate_patient_overview: diagnoses
  // ---------------------------------------------------------------------

  /** `visit.get("diagnosis", "")` for each visit dictionary; `None` is an absent key. */
  function DiagnosisOf(visit: Option<string>): string { visit.GetOr("") }

  predicate NonEmpty(s: string) { s != "" }

  /** The truthy diagnoses, in visit order. */
  function Diagnoses(visits: seq<Option<string>>): seq<string> {
    Filter(MapSeq(visits, DiagnosisOf), NonEmpty)
  }

  /** The diagnosis loop of `generate_patient_overview`. */
  method PrepareDiagnoses(visits: seq<Option<string>>) returns (diagnoses: seq<string>)
    ensures diagnoses == Diagnoses(visits)
  {
    diagnoses := [];
    ghost var all := MapSeq(visits, DiagnosisOf);
    for i := 0 to |visits|
      invariant diagnoses == Filter(all[..i], NonEmpty)
    {
      FilterStep(all, NonEmpty, i);
      var diag := DiagnosisOf(visits[i]);
      if diag != "" {
        diagnoses := diagnoses + [diag];
      }
    }
    assert all[..|visits|] == all;
  }

  /** Exactly the visits with a diagnosis contribute one, and every contributed diagnosis is non-empty. */
  lemma DiagnosesKept(visits: seq<Option<string>>)
    ensures forall k :: 0 <= k < |Diagnoses(visits)| ==> Diagnoses(visits)[k] != ""
    ensures forall k :: 0 <= k < |visits| && DiagnosisOf(visits[k]) != "" ==> DiagnosisOf(visits[k]) in Diagnoses(visits)
    ensures Diagnoses(visits) == [] <==> forall k :: 0 <= k < |visits| ==> DiagnosisOf(visits[k]) == ""
  {
    var all := MapSeq(visits, DiagnosisOf);
    if forall k :: 0 <= k < |visits| ==> DiagnosisOf(visits[k]) == "" {
      FilterNone(all, NonEmpty);
    } else {
      var k :| 0 <= k < |visits| && DiagnosisOf(visits[k]) != "";
      assert all[k] in Diagnoses(visits);
    }
  }

  const NoDiagnoses := "Aucun"

  /** `', '.join(diagnoses) if diagnoses else 'Aucun'` */
  function DiagnosesText(diagnoses: seq<string>): string {
    if diagnoses != [] then Join(diagnoses, ", ") else NoDiagnoses
  }

  // ---------------------------------------------------------------------
  // generate_patient_overview: recent tests
  // ---------------------------------------------------------------------

  /** A `test_date` value: a timestamp, or the `""` of an absent key. */
  datatype TestDate = Stamp(date: Date) | NoDate

  /** A test dictionary of the overview; an absent name or type is "". */
  datatype TestEntry = TestEntry(testName: string, testType: string, testDate: TestDate)

  /** The `sorted` key; only used when all dates are of one kind. */
  function DateKey(t: TestEntry): int {
    match t.testDate
    case Stamp(d) => d.key
    case NoDate => 0
  }

  /** A timestamp and a `""` key in one list: comparing them raises `TypeError` in `sorted`. */
  predicate MixedDates(tests: seq<TestEntry>) {
    (exists i | 0 <= i < |tests| :: tests[i].testDate.Stamp?) && (exists j | 0 <= j < |tests| :: tests[j].testDate.NoDate?)
  }

  /** `sorted(test_results, key=test_date, reverse=True)[:3]`, for comparable dates. */
  function RecentTests(tests: seq<TestEntry>): (r: seq<TestEntry>)
    ensures |r| == if |tests| < 3 then |tests| else 3
    ensures forall k :: 0 <= k < |r| ==> r[k] in tests
    ensures forall i, j :: 0 <= i < j < |r| ==> DateKey(r[i]) >= DateKey(r[j])
  {
    var sorted := SortDesc(tests, DateKey);
    assert forall k :: 0 <= k < |sorted| ==> sorted[k] in multiset(tests);
    Take(sorted, 3)
  }

  const UnknownDate := "Date inconnue"
  const DefaultTypeLabel := "Test"

  /** `test_date.strftime("%Y-%m-%d")`, or "Date inconnue" for the falsy `""`. */
  function DateText(d: TestDate): string {
    match d
    case Stamp(date) => date.text
    case NoDate => UnknownDate
  }

  /** `test_type.replace("_", " ").title()`, or "Test" for an empty type. */
  function TypeLabel(testType: string): string {
    if testType != "" then Title(ReplaceChar(testType, '_', ' ')) else DefaultTypeLabel
  }

  /** The line of one listed test; a test without a name adds nothing. */
  function TestLine(t: TestEntry): string {
    if t.testName != "" then "- " + TypeLabel(t.testType) + ": " + t.testName + " (" + DateText(t.testDate) + ")\n" else ""
  }

  const RecentTestsTitle := "\n\nRésultats de tests récents:\n"

  /** `recent_tests_info` for comparable dates. */
  function RecentTestsInfo(tests: seq<TestEntry>): string {
    var recent := RecentTests(tests);
    if recent != [] then RecentTestsTitle + Concat(recent, TestLine) else ""
  }

  /** The test loop of `generate_patient_overview`: `None` is the `TypeError` of mixed dates. */
  method PrepareRecentTests(tests: seq<TestEntry>) returns (info: Option<string>)
    ensures info.None? <==> |tests| >= 2 && MixedDates(tests)
    ensures info.Some? ==> info.value == RecentTestsInfo(tests)
  {
    if |tests| == 0 {
      return Some("");
    }
    if |tests| >= 2 && MixedDates(tests) {
      return None;
    }
    var recent := Take(SortDesc(tests, DateKey), 3);
    var text := "";
    if |recent| > 0 {
      text := RecentTestsTitle;
      var lines := "";
      for i := 0 to |recent|
        invariant lines == Concat(recent[..i], TestLine)
      {
        ConcatStep(recent, TestLine, i);
        var test := recent[i];
        if test.testName != "" {
          lines := lines + ("- " + TypeLabel(test.testType) + ": " + test.testName + " (" + DateText(test.testDate) + ")\n");
        } else {
          lines := lines + "";
        }
      }
      assert recent[..|recent|] == recent;
      text := text + lines;
    }
    return Some(text);
  }

  /** A test left out of the three listed is no more recent than any listed one. */
  lemma RecentTestsAreMostRecent(tests: seq<TestEntry>, t: TestEntry, k: nat)
    requires t in tests && t !in RecentTests(tests)
    requires k < |RecentTests(tests)|
    ensures DateKey(RecentTests(tests)[k]) >= DateKey(t)
  {
    var sorted := SortDesc(tests, DateKey);
    assert t in multiset(tests);
    var m := IndexOf(sorted, t);
    assert m >= 3;
    assert RecentTests(tests)[k] == sorted[k];
  }

  /** Each listed test with a name has its line in the tests text. */
  lemma RecentTestListed(tests: seq<TestEntry>, k: nat)
    requires k < |RecentTests(tests)|
    ensures Contains(RecentTestsInfo(tests), TestLine(RecentTests(tests)[k]))
  {
    var recent := RecentTests(tests);
    ConcatAt(recent, TestLine, k);
    PrefixAtContains(Concat(recent, TestLine), TestLine(recent[k]), Offset(recent, TestLine, k));
    ContainsHalves(RecentTestsTitle, Concat(recent, TestLine));
    ContainsTrans(RecentTestsInfo(tests), Concat(recent, TestLine), TestLine(recent[k]));
  }

  /** A listed test without a date shows "Date inconnue". */
  lemma UndatedTestShown(t: TestEntry)
    requires t.testName != "" && t.testDate.NoDate?
    ensures Contains(TestLine(t), " (" + UnknownDate + ")\n")
  {
    var before := "- " + TypeLabel(t.testType) + ": " + t.testName;
    assert TestLine(t) == before + (" (" + UnknownDate + ")\n") + "";
    ContainsInfix(before, " (" + UnknownDate + ")\n", "");
  }

  // ---------------------------------------------------------------------
  // generate_patient_overview: latest visit
  // ---------------------------------------------------------------------

  /** The `latest_visit` dictionary the overview is given. */
  datatype LatestVisit = LatestVisit(
    date: Option<Date>,
    summary: string,
    diagnosis: string,
    recommendations: string)

  /** `s[:n] + "..."` when `s` is longer than `n`, else `s`. */
  function Cut(s: string, n: nat): string {
    if |s| > n then s[..n] + Ellipsis else s
  }

  /** A cut text is the text itself when short enough; otherwise its first `n` characters and "...". */
  lemma CutShape(s: string, n: nat)
    ensures |s| <= n ==> Cut(s, n) == s
    ensures |s| > n ==> |Cut(s, n)| == n + 3 && Cut(s, n)[..n] == s[..n] && Cut(s, n)[n..] == Ellipsis
    ensures IsPrefix(Take(s, n), Cut(s, n))
  {
    if |s| > n {
      assert (s[..n] + Ellipsis)[..n] == s[..n];
      assert (s[..n] + Ellipsis)[n..] == Ellipsis;
    }
  }

  const LastVisitTitle := "\n\nDernière consultation ("
  const SummaryCaption := "Résumé: "
  const DiagnosisCaption := "Diagnostic: "
  const AdviceCaption := "Recommandations: "

  /** `last_visit_info`: nothing without a latest visit or without its date. */
  function LastVisitInfo(latest: Option<LatestVisit>): string {
    match latest
    case None => ""
    case Some(v) =>
      match v.date
      case None => ""
      case Some(d) =>
        LastVisitTitle + d.text + "):\n"
        + (if v.summary != "" then SummaryCaption + Cut(v.summary, 200) + "\n" else "")
        + (if v.diagnosis != "" then DiagnosisCaption + v.diagnosis + "\n" else "")
        + (if v.recommendations != "" then AdviceCaption + Cut(v.recommendations, 150) + "\n" else "")
  }

  /** The latest-visit text is empty exactly when there is no latest visit or it has no date. */
  lemma LastVisitInfoEmpty(latest: Option<LatestVisit>)
    ensures LastVisitInfo(latest) == "" <==> latest.None? || latest.value.date.None?
  {
    if latest.Some? && latest.value.date.Some? {
      LastVisitInfoShows(latest.value, latest.value.date.value);
    }
  }

  /**
   * A dated latest visit's text starts with the dated heading and shows the
   * summary cut to 200 characters, the diagnosis, and the recommendations
   * cut to 150, each when non-empty.
   */
  lemma LastVisitInfoShows(v: LatestVisit, d: Date)
    requires v.date == Some(d)
    ensures IsPrefix(LastVisitTitle + d.text + "):\n", LastVisitInfo(Some(v)))
    ensures v.summary != "" ==> Contains(LastVisitInfo(Some(v)), SummaryCaption + Cut(v.summary, 200) + "\n")
    ensures v.diagnosis != "" ==> Contains(LastVisitInfo(Some(v)), DiagnosisCaption + v.diagnosis + "\n")
    ensures v.recommendations != "" ==> Contains(LastVisitInfo(Some(v)), AdviceCaption + Cut(v.recommendations, 150) + "\n")
  {
    var head := LastVisitTitle + d.text + "):\n";
    var a := if v.summary != "" then SummaryCaption + Cut(v.summary, 200) + "\n" else "";
    var b := if v.diagnosis != "" then DiagnosisCaption + v.diagnosis + "\n" else "";
    var c := if v.recommendations != "" then AdviceCaption + Cut(v.recommendations, 150) + "\n" else "";
    assert LastVisitInfo(Some(v)) == head + a + b + c;
    PrefixAndParts(head, a, b, c);
  }

  /** The first of four parts is a prefix of their concatenation, and the other three are contained in it. */
  lemma PrefixAndParts(head: string, a: string, b: string, c: string)
    ensures IsPrefix(head, head + a + b + c)
    ensures Contains(head + a + b + c, a) && Contains(head + a + b + c, b) && Contains(head + a + b + c, c)
  {
    PartsShown("", head, a, b, c);
    assert "" + head + a + b + c == head + a + b + c;
    assert (head + a + b + c)[..|head|] == head;
  }

  /** One shortened line: `f"{caption}{s[:n]}...\n" if len(s) > n else f"{caption}{s}\n"`. */
  method CutLine(caption: string, s: string, n: nat) returns (line: string)
    ensures line == caption + Cut(s, n) + "\n"
  {
    if |s| > n {
      line := caption + s[..n] + Ellipsis + "\n";
      assert caption + s[..n] + Ellipsis == caption + (s[..n] + Ellipsis);
    } else {
      line := caption + s + "\n";
    }
  }

  /** The latest-visit block of `generate_patient_overview`. */
  method PrepareLastVisit(latest: Option<LatestVisit>) returns (info: string)
    ensures info == LastVisitInfo(latest)
  {
    info := "";
    if latest.Some? && latest.value.date.Some? {
      var v := latest.value;
      info := LastVisitTitle + v.date.value.text + "):\n";
      var summaryLine, diagnosisLine, adviceLine := "", "", "";
      if v.summary != "" {
        summaryLine := CutLine(SummaryCaption, v.summary, 200);
      }
      if v.diagnosis != "" {
        diagnosisLine := DiagnosisCaption + v.diagnosis + "\n";
      }
      if v.recommendations != "" {
        adviceLine := CutLine(AdviceCaption, v.recommendations, 150);
      }
      info := info + summaryLine + diagnosisLine + adviceLine;
    }
  }

  // ---------------------------------------------------------------------
  // generate_patient_overview
  // ---------------------------------------------------------------------

  /** The prepared pieces the overview prompt is written around. */
  datatype OverviewPrompt = OverviewPrompt(
    patientName: string,
    visitCount: nat,
    medsText: string,
    diagnosesText: string,
    recentTestsInfo: string,
    lastVisitInfo: string)

  type OverviewModel = OverviewPrompt -> Outcome<string>

  const TypeErrorMessage := "TypeError"
  const FallbackLead := "Patient "
  const FallbackCount := " avec "
  const FallbackTotal := " consultation(s) au total. "
  const FallbackMeds := "Médicaments actifs: "
  const FallbackLatest := "Dernière consultation récente."

  /** The text of the `except` branch. */
  function OverviewFallback(patientName: string, visitCount: nat, hasMedications: bool, medsText: string, hasLatest: bool): string {
    FallbackLead + patientName + FallbackCount + NatToString(visitCount) + FallbackTotal
    + (if hasMedications then FallbackMeds + medsText + ". " else "")
    + (if hasLatest then FallbackLatest else "")
  }

  /** The prompt material of `generate_patient_overview`, for comparable test dates. */
  function PromptOf(patientName: string, visits: seq<Option<string>>, medications: seq<MedEntry>,
                    latest: Option<LatestVisit>, tests: seq<TestEntry>): OverviewPrompt {
    OverviewPrompt(patientName, |visits|, MedsText(medications), DiagnosesText(Diagnoses(visits)),
      RecentTestsInfo(tests), LastVisitInfo(latest))
  }

  /**
   * `MedicalSummarizer.generate_patient_overview`; `Raised` is the
   * `TypeError` that escapes it when the test dates cannot be compared.
   */
  function Overview(patientName: string, visits: seq<Option<string>>, medications: seq<MedEntry>,
                    latest: Option<LatestVisit>, tests: seq<TestEntry>, model: OverviewModel): Outcome<string>
  {
    if |tests| >= 2 && MixedDates(tests) then Raised(TypeErrorMessage)
    else
      match model(PromptOf(patientName, visits, medications, latest, tests))
      case Success(content) => Success(Strip(content))
      case Raised(_) => Success(OverviewFallback(patientName, |visits|, medications != [], MedsText(medications), latest.Some?))
  }

  /** `MedicalSummarizer.generate_patient_overview` */
  method GeneratePatientOverview(patientName: string, visits: seq<Option<string>>, medications: seq<MedEntry>,
                                 latest: Option<LatestVisit>, tests: seq<TestEntry>, model: OverviewModel)
    returns (overview: Outcome<string>)
    ensures overview == Overview(patientName, visits, medications, latest, tests, model)
  {
    var medsText := PrepareMedsText(medications);
    var diagnoses := PrepareDiagnoses(visits);
    var recentTestsInfo := PrepareRecentTests(tests);
    if recentTestsInfo.None? {
      return Raised(TypeErrorMessage);
    }
    var lastVisitInfo := PrepareLastVisit(latest);
    var diagnosesText := if diagnoses != [] then Join(diagnoses, ", ") else NoDiagnoses;
    var prompt := OverviewPrompt(patientName, |visits|, medsText, diagnosesText, recentTestsInfo.value, lastVisitInfo);
    var response := model(prompt);
    if response.Success? {
      return Success(Strip(response.value));
    }
    var fallback := FallbackLead + patientName + FallbackCount + NatToString(|visits|) + FallbackTotal;
    if |medications| > 0 {
      fallback := fallback + (FallbackMeds + medsText + ". ");
    } else {
      fallback := fallback + "";
    }
    if latest.Some? {
      fallback := fallback + FallbackLatest;
    } else {
      fallback := fallback + "";
    }
    return Success(fallback);
  }

  /** Mixed test dates raise before the model is asked: the model's answers make no difference. */
  lemma OverviewRaisesBeforeModel(patientName: string, visits: seq<Option<string>>, medications: seq<MedEntry>,
                                  latest: Option<LatestVisit>, tests: seq<TestEntry>, model: OverviewModel, other: OverviewModel)
    requires |tests| >= 2 && MixedDates(tests)
    ensures Overview(patientName, visits, medications, latest, tests, model) == Raised(TypeErrorMessage)
    ensures Overview(patientName, visits, medications, latest, tests, other) == Raised(TypeErrorMessage)
  {
  }

  /** `s.endswith(p)` */
  predicate EndsWith(s: string, p: string) {
    |p| <= |s| && s[|s| - |p|..] == p
  }

  /** When the model fails, the overview is the fallback text. */
  lemma OverviewOnModelError(patientName: string, visits: seq<Option<string>>, medications: seq<MedEntry>,
                             latest: Option<LatestVisit>, tests: seq<TestEntry>, model: OverviewModel)
    requires !(|tests| >= 2 && MixedDates(tests))
    requires model(PromptOf(patientName, visits, medications, latest, tests)).Raised?
    ensures Overview(patientName, visits, medications, latest, tests, model)
      == Success(OverviewFallback(patientName, |visits|, medications != [], MedsText(medications), latest.Some?))
  {
  }

  /**
   * The fallback names the patient and the number of visits, lists the
   * medication text when there are medications, and ends with the
   * latest-visit note exactly when there is a latest visit.
   */
  lemma FallbackShape(patientName: string, visitCount: nat, hasMedications: bool, medsText: string, hasLatest: bool)
    ensures var r := OverviewFallback(patientName, visitCount, hasMedications, medsText, hasLatest);
      && IsPrefix(FallbackLead + patientName + FallbackCount + NatToString(visitCount) + FallbackTotal, r)
      && (hasMedications ==> Contains(r, FallbackMeds + medsText + ". "))
      && (hasLatest <==> EndsWith(r, FallbackLatest))
  {
    var head := FallbackLead + patientName + FallbackCount + NatToString(visitCount) + FallbackTotal;
    var meds := if hasMedications then FallbackMeds + medsText + ". " else "";
    assert head[|head| - 1] == ' ';
    assert meds != [] ==> meds[|meds| - 1] == ' ';
    ThreePartShape(head, meds, FallbackLatest, hasLatest);
  }

  /**
   * `head + meds + (note if has else "")` starts with `head`, contains
   * `meds`, and ends with `note` exactly when `has` holds, as long as the
   * first two parts end in a space and the note does not.
   */
  lemma ThreePartShape(head: string, meds: string, note: string, has: bool)
    requires |head| >= 1 && head[|head| - 1] == ' '
    requires meds != [] ==> meds[|meds| - 1] == ' '
    requires |note| >= 1 && note[|note| - 1] != ' '
    ensures var r := head + meds + (if has then note else "");
      && IsPrefix(head, r)
      && Contains(r, meds)
      && (has <==> EndsWith(r, note))
  {
    var tail := if has then note else "";
    var r := head + meds + tail;
    assert r[..|head|] == head;
    ContainsInfix(head, meds, tail);
    if has {
      assert r[|r| - |note|..] == note;
    } else {
      var text := head + meds;
      assert text[|text| - 1] == ' ';
      if |note| <= |text| {
        assert text[|text| - |note|..][|note| - 1] == text[|text| - 1];
      }
    }
  }

  /** When the model answers, the overview is its stripped reply. */
  lemma OverviewOnSuccess(patientName: string, visits: seq<Option<string>>, medications: seq<MedEntry>,
                          latest: Option<LatestVisit>, tests: seq<TestEntry>, model: OverviewModel)
    requires !(|tests| >= 2 && MixedDates(tests))
    requires model(PromptOf(patientName, visits, medications, latest, tests)).Success?
    ensures Overview(patientName, visits, medications, latest, tests, model)
      == Success(Strip(model(PromptOf(patientName, visits, medications, latest, tests)).value))
  {
  }
}
