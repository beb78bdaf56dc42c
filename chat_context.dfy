/**
 * The patient context of the chat service: loading a patient's record into
 * the plain dictionaries the prompt is built from, and rendering those as the
 * "DOSSIER MÉDICAL COMPLET" text block sent to the language model.
 */
module ChatContext {
  import opened Wrappers
  import opened Text
  import opened Sorting
  import opened Lists
  import opened Records

  datatype PatientInfo = PatientInfo(
    name: string,                   // "first last"
    code: string,                   // the clinic-assigned patient code
    dateOfBirth: Option<string>,
    gender: string)

  datatype VisitInfo = VisitInfo(
    date: string,
    visitType: string,
    summary: string,
    diagnosis: string,
    recommendations: string,
    chiefComplaint: string)

  datatype MedInfo = MedInfo(
    name: string,
    dosage: string,
    frequency: string,
    isActive: bool,
    startDate: Option<string>,
    endDate: Option<string>)

  /** The optional keys of a test dictionary. */
  datatype TestExtra =
    | NoExtra
    | KeyResults(values: KeyValues)                                      // "key_results"
    | Imaging(modality: Option<string>, studyDescription: Option<string>) // "modality", "study_description"

  datatype TestInfo = TestInfo(
    testType: string,
    name: string,
    date: string,
    interpretation: string,
    notes: string,
    extra: TestExtra)

  datatype PatientContext = PatientContext(
    patient: PatientInfo,
    visits: seq<VisitInfo>,         // most recent first
    medications: seq<MedInfo>,
    tests: seq<TestInfo>,           // most recent first
    totalVisits: nat,
    activeMedications: nat,
    totalTests: nat)

  // ---------------------------------------------------------------------
  // Loading
  // ---------------------------------------------------------------------

  function DateText(d: Option<Date>): (r: Option<string>)
    ensures r.Some? <==> d.Some?
  {
    match d
    case Some(x) => Some(x.text)
    case None => None
  }

  function ToPatientInfo(p: Patient): PatientInfo {
    PatientInfo(p.firstName + " " + p.lastName, p.code, DateText(p.dateOfBirth), OrElse(p.gender, ""))
  }

  /** A visit row as the context shows it: the cleaned summary is preferred, missing texts become defaults. */
  function ToVisitInfo(v: Visit): (r: VisitInfo)
    ensures r.date == v.visitDate.text
    ensures r.visitType != "" && (Truthy(v.visitType) ==> r.visitType == v.visitType.value)
    ensures r.summary != "" <==> Truthy(v.cleanedSummary) || Truthy(v.summary)
    ensures Truthy(v.cleanedSummary) ==> r.summary == v.cleanedSummary.value
    ensures r.diagnosis != "" ==> v.diagnosis == Some(r.diagnosis)
  {
    VisitInfo(
      v.visitDate.text,
      OrElse(v.visitType, "consultation"),
      OrElse(v.cleanedSummary, OrElse(v.summary, "")),
      OrElse(v.diagnosis, ""),
      OrElse(v.recommendations, ""),
      OrElse(v.chiefComplaint, ""))
  }

  function ToMedInfo(m: Medication): MedInfo {
    MedInfo(m.name, OrElse(m.dosage, ""), OrElse(m.frequency, ""), m.isActive, DateText(m.startDate), DateText(m.endDate))
  }

  /**
   * `key_results` is kept when the results hold "values" or "results" (the
   * first ten entries of whichever is truthy, "values" first); otherwise the
   * imaging keys are kept when "modality" is present.
   */
  function ExtraOf(d: Option<ResultsData>): (r: TestExtra)
    ensures r.KeyResults? <==> d.Some? && (d.value.values.Some? || d.value.results.Some?)
    ensures r.KeyResults? && d.value.values.GetOr([]) != [] ==>
              var src := d.value.values.value;
              |r.values| == (if |src| < 10 then |src| else 10) && r.values == src[..|r.values|]
    ensures r.KeyResults? && d.value.values.GetOr([]) == [] ==>
              var src := d.value.results.GetOr([]);
              |r.values| == (if |src| < 10 then |src| else 10) && r.values == src[..|r.values|]
    ensures r.Imaging? <==> d.Some? && d.value.values.None? && d.value.results.None? && d.value.modality.Some?
    ensures r.Imaging? ==> r.modality == d.value.modality && r.studyDescription == d.value.studyDescription
  {
    match d
    case None => NoExtra
    case Some(data) =>
      if data.values.Some? || data.results.Some? then
        var values := if data.values.Some? && data.values.value != [] then data.values.value else data.results.GetOr([]);
        KeyResults(Take(values, 10))
      else if data.modality.Some? then Imaging(data.modality, data.studyDescription)
      else NoExtra
  }

  /** A test row as the context shows it: an empty type becomes "unknown", missing texts become "". */
  function ToTestInfo(t: TestResult): (r: TestInfo)
    ensures r.testType != "" && (t.testType != "" ==> r.testType == t.testType)
    ensures r.name == t.testName && r.date == t.testDate.text
    ensures r.interpretation != "" ==> t.interpretation == Some(r.interpretation)
    ensures r.extra.KeyResults? ==> t.resultsData.Some?
  {
    TestInfo(
      if t.testType != "" then t.testType else "unknown",
      t.testName,
      t.testDate.text,
      OrElse(t.interpretation, ""),
      OrElse(t.notes, ""),
      ExtraOf(t.resultsData))
  }

  /** The dictionary `_load_patient_context` returns; `None` stands for `{}`. */
  function LoadedContext(store: Store, id: int): (r: Option<PatientContext>)
    ensures r.Some? <==> GetPatient(store, id).Some?
    ensures r.Some? ==> r.value.totalVisits == |r.value.visits| && r.value.totalTests == |r.value.tests|
  {
    match GetPatient(store, id)
    case None => None
    case Some(p) =>
      Some(ContextOf(p, GetPatientVisits(store, id), GetPatientMedications(store, id, true), GetPatientTestResults(store, id)))
  }

  /** The context built from the rows the store returned: visits and tests newest first, medications in store order. */
  function ContextOf(p: Patient, visits: seq<Visit>, medications: seq<Medication>, tests: seq<TestResult>): (r: PatientContext)
    ensures r.totalVisits == |r.visits| == |visits| && r.totalTests == |r.tests| == |tests|
    ensures r.medications == MapSeq(medications, ToMedInfo)
    ensures r.activeMedications == |Filter(medications, IsActive)|
  {
    PatientContext(
      ToPatientInfo(p),
      MapSeq(SortDesc(visits, VisitKey), ToVisitInfo),
      MapSeq(medications, ToMedInfo),
      MapSeq(SortDesc(tests, TestKey), ToTestInfo),
      |visits|,
      |Filter(medications, IsActive)|,
      |tests|)
  }

  /** `MedicalChat._load_patient_context` */
  method LoadPatientContext(store: Store, id: int) returns (ctx: Option<PatientContext>)
    ensures ctx == LoadedContext(store, id)
  {
    var patient := GetPatient(store, id);
    if patient.None? {
      return None;
    }
    var visits := GetPatientVisits(store, id);
    var medications := GetPatientMedications(store, id, true);
    var testResults := GetPatientTestResults(store, id);

    var sortedVisits := SortDesc(visits, VisitKey);
    var visitsData: seq<VisitInfo> := [];
    for i := 0 to |sortedVisits|
      invariant visitsData == MapSeq(sortedVisits[..i], ToVisitInfo)
    {
      MapStep(sortedVisits, ToVisitInfo, i);
      visitsData := visitsData + [ToVisitInfo(sortedVisits[i])];
    }

    var medsData: seq<MedInfo> := [];
    for i := 0 to |medications|
      invariant medsData == MapSeq(medications[..i], ToMedInfo)
    {
      MapStep(medications, ToMedInfo, i);
      medsData := medsData + [ToMedInfo(medications[i])];
    }

    var sortedTests := SortDesc(testResults, TestKey);
    var testsData: seq<TestInfo> := [];
    for i := 0 to |sortedTests|
      invariant testsData == MapSeq(sortedTests[..i], ToTestInfo)
    {
      MapStep(sortedTests, ToTestInfo, i);
      testsData := testsData + [ToTestInfo(sortedTests[i])];
    }

    assert sortedVisits[..|sortedVisits|] == sortedVisits;
    assert medications[..|medications|] == medications;
    assert sortedTests[..|sortedTests|] == sortedTests;
    ctx := Some(PatientContext(
      ToPatientInfo(patient.value), visitsData, medsData, testsData,
      |visits|, |Filter(medications, IsActive)|, |testResults|));
  }

  /**
   * Of two visits of a patient, the more recent one comes first in the
   * loaded context.
   */
  lemma NewerVisitLoadedFirst(store: Store, id: int, a: Visit, b: Visit) returns (i: nat, j: nat)
    requires GetPatient(store, id).Some?
    requires a in store.rows[id].visits && b in store.rows[id].visits
    requires a.visitDate.key > b.visitDate.key
    ensures i < j < |LoadedContext(store, id).value.visits|
    ensures LoadedContext(store, id).value.visits[i] == ToVisitInfo(a)
    ensures LoadedContext(store, id).value.visits[j] == ToVisitInfo(b)
  {
    var visits := GetPatientVisits(store, id);
    var sorted := SortDesc(visits, VisitKey);
    assert multiset(sorted) == multiset(store.rows[id].visits);
    assert a in multiset(store.rows[id].visits) && b in multiset(store.rows[id].visits);
    i := IndexOf(sorted, a);
    j := IndexOf(sorted, b);
    SortedDescPrecedes(sorted, VisitKey, i, j);
    var vs := LoadedContext(store, id).value.visits;
    assert vs == MapSeq(sorted, ToVisitInfo);
    assert vs[i] == ToVisitInfo(a) && vs[j] == ToVisitInfo(b);
  }

  /** Every medication the chat loads is an active one: the "stopped" block of the context is always empty. */
  lemma LoadedMedicationsAllActive(store: Store, id: int)
    requires LoadedContext(store, id).Some?
    ensures forall k :: 0 <= k < |LoadedContext(store, id).value.medications| ==>
      LoadedContext(store, id).value.medications[k].isActive
    ensures LoadedContext(store, id).value.activeMedications == |LoadedContext(store, id).value.medications|
    ensures Filter(LoadedContext(store, id).value.medications, IsStopped) == []
  {
    var ms := GetPatientMedications(store, id, true);
    var ctx := ContextOf(store.rows[id].patient, GetPatientVisits(store, id), ms, GetPatientTestResults(store, id));
    assert LoadedContext(store, id).value == ctx;
    FilterAll(ms, IsActive);
    FilterNone(ctx.medications, IsStopped);
  }

  /** Keeping the elements that all pass keeps the whole list. */
  lemma {:induction false} FilterAll<T>(xs: seq<T>, p: T -> bool)
    requires forall k :: 0 <= k < |xs| ==> p(xs[k])
    ensures Filter(xs, p) == xs
  {
    if xs != [] {
      FilterAll(xs[1..], p);
      assert [xs[0]] + xs[1..] == xs;
    }
  }

  // ---------------------------------------------------------------------
  // Formatting
  // ---------------------------------------------------------------------

  const Banner := "\n=== DOSSIER MÉDICAL COMPLET ===\n\n"

  const PatientCaption := "PATIENT: "
  const BirthCaption := "Date de Naissance: "
  const SexCaption := "Sexe: "

  function PatientLines(p: PatientInfo): string {
    PatientCaption + p.name + " (ID: " + p.code + ")\n"
    + BirthCaption + Show(p.dateOfBirth) + "\n"
    + SexCaption + p.gender + "\n\n"
  }

  const VisitsTitle := "=== CONSULTATIONS ("
  const VisitsTitleEnd := " récentes) ===\n"

  function VisitsHeader(n: nat): string {
    VisitsTitle + NatToString(n) + VisitsTitleEnd
  }

  const VisitCaption := "\nConsultation du "
  const ComplaintCaption := "Motif: "
  const SummaryCaption := "Résumé: "
  const DiagnosisCaption := "Diagnostic: "
  const AdviceCaption := "Recommandations: "

  /** One optional line of a block: the caption and the value, or nothing when the value is empty. */
  function OptionalLine(caption: string, value: string, shown: string): (r: string)
    ensures value == "" ==> r == ""
    ensures value != "" ==> r == caption + shown + "\n"
  {
    if value != "" then caption + shown + "\n" else ""
  }

  /** The lines of one visit: the summary is cut to 500 characters and the recommendations to 300. */
  function VisitBlock(v: VisitInfo): string {
    VisitCaption + v.date + " (" + v.visitType + "):\n"
    + OptionalLine(ComplaintCaption, v.chiefComplaint, v.chiefComplaint)
    + OptionalLine(SummaryCaption, v.summary, Take(v.summary, 500))
    + OptionalLine(DiagnosisCaption, v.diagnosis, v.diagnosis)
    + OptionalLine(AdviceCaption, v.recommendations, Take(v.recommendations, 300))
  }

  function VisitsSection(visits: seq<VisitInfo>): string {
    if visits == [] then "" else VisitsHeader(|visits|) + Concat(visits, VisitBlock)
  }

  predicate IsCurrent(m: MedInfo) { m.isActive }

  predicate IsStopped(m: MedInfo) { !m.isActive }

  const StartCaption := "  Début: "
  const StoppedCaption := ") - Arrêté le "

  function ActiveMedLine(m: MedInfo): string {
    "- " + m.name + " (" + m.dosage + ") - " + m.frequency + "\n"
    + (if Truthy(m.startDate) then StartCaption + m.startDate.value + "\n" else "")
  }

  function StoppedMedLine(m: MedInfo): string {
    "- " + m.name + " (" + m.dosage + StoppedCaption + Show(m.endDate) + "\n"
  }

  const ActiveTitle := "Médicaments actifs:\n"
  const StoppedTitle := "\nMédicaments arrêtés:\n"

  function ActivePart(active: seq<MedInfo>): string {
    if active == [] then "" else ActiveTitle + Concat(active, ActiveMedLine)
  }

  /** At most five stopped medications are listed. */
  function StoppedPart(stopped: seq<MedInfo>): string {
    if stopped == [] then "" else StoppedTitle + Concat(Take(stopped, 5), StoppedMedLine)
  }

  const MedsTitle := "\n=== MÉDICAMENTS ("
  const TotalEnd := " total) ===\n"

  function MedsSection(medications: seq<MedInfo>): string {
    if medications == [] then ""
    else
      MedsTitle + NatToString(|medications|) + TotalEnd
      + ActivePart(Filter(medications, IsCurrent))
      + StoppedPart(Filter(medications, IsStopped))
  }

  /** One entry of a JSON object as `json.dumps` writes it. */
  function JsonPair(kv: (string, string)): string {
    "\"" + kv.0 + "\": " + kv.1
  }

  /** `json.dumps(values, ensure_ascii=False)` for a flat object. */
  function Dumps(values: KeyValues): string {
    "{" + Join(MapSeq(values, JsonPair), ", ") + "}"
  }

  const InterpretationCaption := "Interprétation: "
  const KeyResultsCaption := "Résultats clés: "
  const ModalityCaption := "Modalité: "

  function TestBlock(t: TestInfo): string {
    "\n" + Upper(t.testType) + ": " + t.name + " (" + t.date + ")\n"
    + OptionalLine(InterpretationCaption, t.interpretation, Take(t.interpretation, 200))
    + (if t.extra.KeyResults? && t.extra.values != [] then KeyResultsCaption + Take(Dumps(t.extra.values), 200) + "\n" else "")
    + (if t.extra.Imaging? && Truthy(t.extra.modality) then ModalityCaption + t.extra.modality.value + " - " + Show(t.extra.studyDescription) + "\n" else "")
  }

  const TestsTitle := "\n=== RÉSULTATS DE TESTS ("

  /** The count in the header is of all tests; at most ten are listed. */
  function TestsSection(tests: seq<TestInfo>): string {
    if tests == [] then ""
    else TestsTitle + NatToString(|tests|) + TotalEnd + Concat(Take(tests, 10), TestBlock)
  }

  /** The text `_format_patient_context_for_llm` builds. */
  function ContextText(ctx: PatientContext, maxVisits: nat): string {
    Banner + PatientLines(ctx.patient) + VisitsSection(Take(ctx.visits, maxVisits))
    + MedsSection(ctx.medications) + TestsSection(ctx.tests)
  }

  /** The lines one visit adds to the context. */
  method FormatVisit(visit: VisitInfo) returns (block: string)
    ensures block == VisitBlock(visit)
  {
    block := VisitCaption + visit.date + " (" + visit.visitType + "):\n";
    ghost var expected := block;
    if visit.chiefComplaint != "" {
      block := block + (ComplaintCaption + visit.chiefComplaint + "\n");
    }
    expected := expected + OptionalLine(ComplaintCaption, visit.chiefComplaint, visit.chiefComplaint);
    assert block == expected;
    if visit.summary != "" {
      block := block + (SummaryCaption + Take(visit.summary, 500) + "\n");
    }
    expected := expected + OptionalLine(SummaryCaption, visit.summary, Take(visit.summary, 500));
    assert block == expected;
    if visit.diagnosis != "" {
      block := block + (DiagnosisCaption + visit.diagnosis + "\n");
    }
    expected := expected + OptionalLine(DiagnosisCaption, visit.diagnosis, visit.diagnosis);
    assert block == expected;
    if visit.recommendations != "" {
      block := block + (AdviceCaption + Take(visit.recommendations, 300) + "\n");
    }
    expected := expected + OptionalLine(AdviceCaption, visit.recommendations, Take(visit.recommendations, 300));
    assert block == expected;
  }

  /** The lines one active medication adds to the context. */
  method FormatActiveMed(med: MedInfo) returns (line: string)
    ensures line == ActiveMedLine(med)
  {
    line := "- " + med.name + " (" + med.dosage + ") - " + med.frequency + "\n";
    if Truthy(med.startDate) {
      line := line + (StartCaption + med.startDate.value + "\n");
    }
  }

  /** The lines one test result adds to the context. */
  method FormatTest(test: TestInfo) returns (block: string)
    ensures block == TestBlock(test)
  {
    block := "\n" + Upper(test.testType) + ": " + test.name + " (" + test.date + ")\n";
    if test.interpretation != "" {
      block := block + (InterpretationCaption + Take(test.interpretation, 200) + "\n");
    }
    if test.extra.KeyResults? && test.extra.values != [] {
      block := block + (KeyResultsCaption + Take(Dumps(test.extra.values), 200) + "\n");
    }
    if test.extra.Imaging? && Truthy(test.extra.modality) {
      block := block + (ModalityCaption + test.extra.modality.value + " - " + Show(test.extra.studyDescription) + "\n");
    }
  }

  /** The visits part of `_format_patient_context_for_llm`. */
  method FormatVisits(visits: seq<VisitInfo>) returns (text: string)
    ensures text == VisitsSection(visits)
  {
    text := "";
    if |visits| > 0 {
      var blocks := "";
      for i := 0 to |visits|
        invariant blocks == Concat(visits[..i], VisitBlock)
      {
        var block := FormatVisit(visits[i]);
        ConcatStep(visits, VisitBlock, i);
        blocks := blocks + block;
      }
      assert visits[..|visits|] == visits;
      text := VisitsTitle + NatToString(|visits|) + VisitsTitleEnd + blocks;
    }
  }

  /** The active-medication lines of `_format_patient_context_for_llm`. */
  method FormatActivePart(active: seq<MedInfo>) returns (text: string)
    ensures text == ActivePart(active)
  {
    text := "";
    if |active| > 0 {
      var lines := "";
      for i := 0 to |active|
        invariant lines == Concat(active[..i], ActiveMedLine)
      {
        var line := FormatActiveMed(active[i]);
        ConcatStep(active, ActiveMedLine, i);
        lines := lines + line;
      }
      assert active[..|active|] == active;
      text := ActiveTitle + lines;
    }
  }

  /** The stopped-medication lines of `_format_patient_context_for_llm`: the first five only. */
  method FormatStoppedPart(stopped: seq<MedInfo>) returns (text: string)
    ensures text == StoppedPart(stopped)
  {
    text := "";
    if |stopped| > 0 {
      var shown := Take(stopped, 5);
      var lines := "";
      for i := 0 to |shown|
        invariant lines == Concat(shown[..i], StoppedMedLine)
      {
        ConcatStep(shown, StoppedMedLine, i);
        lines := lines + StoppedMedLine(shown[i]);
      }
      assert shown[..|shown|] == shown;
      text := StoppedTitle + lines;
    }
  }

  /** The medications part of `_format_patient_context_for_llm`. */
  method FormatMedications(medications: seq<MedInfo>) returns (text: string)
    ensures text == MedsSection(medications)
  {
    text := "";
    if |medications| > 0 {
      var header := MedsTitle + NatToString(|medications|) + TotalEnd;
      var activeText := FormatActivePart(Filter(medications, IsCurrent));
      var stoppedText := FormatStoppedPart(Filter(medications, IsStopped));
      text := header + activeText + stoppedText;
    }
  }

  /** The test-results part of `_format_patient_context_for_llm`. */
  method FormatTests(tests: seq<TestInfo>) returns (text: string)
    ensures text == TestsSection(tests)
  {
    text := "";
    if |tests| > 0 {
      var shown := Take(tests, 10);
      var blocks := "";
      for i := 0 to |shown|
        invariant blocks == Concat(shown[..i], TestBlock)
      {
        var block := FormatTest(shown[i]);
        ConcatStep(shown, TestBlock, i);
        blocks := blocks + block;
      }
      assert shown[..|shown|] == shown;
      text := TestsTitle + NatToString(|tests|) + TotalEnd + blocks;
    }
  }

  /** `MedicalChat._format_patient_context_for_llm` */
  method FormatPatientContext(ctx: PatientContext, maxVisits: nat) returns (text: string)
    ensures text == ContextText(ctx, maxVisits)
  {
    text := Banner + PatientLines(ctx.patient);
    var visitsText := FormatVisits(Take(ctx.visits, maxVisits));
    text := text + visitsText;
    var medicationsText := FormatMedications(ctx.medications);
    text := text + medicationsText;
    var testsText := FormatTests(ctx.tests);
    text := text + testsText;
  }

  /** Where the block of the `i`-th listed visit starts in the context text. */
  function VisitStart(ctx: PatientContext, maxVisits: nat, i: nat): nat
    requires i < |Take(ctx.visits, maxVisits)|
  {
    var visits := Take(ctx.visits, maxVisits);
    |Banner + PatientLines(ctx.patient) + VisitsHeader(|visits|)| + Offset(visits, VisitBlock, i)
  }

  /** Each of the first `maxVisits` visits has its block in the context text, at `VisitStart`. */
  lemma VisitBlockAt(ctx: PatientContext, maxVisits: nat, i: nat)
    requires i < |Take(ctx.visits, maxVisits)|
    ensures VisitStart(ctx, maxVisits, i) + |VisitBlock(Take(ctx.visits, maxVisits)[i])| <= |ContextText(ctx, maxVisits)|
    ensures IsPrefix(VisitBlock(Take(ctx.visits, maxVisits)[i]), ContextText(ctx, maxVisits)[VisitStart(ctx, maxVisits, i)..])
  {
    var visits := Take(ctx.visits, maxVisits);
    var lead := Banner + PatientLines(ctx.patient);
    var header := VisitsHeader(|visits|);
    assert VisitsSection(visits) == header + Concat(visits, VisitBlock);
    BlockInside(lead, header, visits, VisitBlock, MedsSection(ctx.medications), TestsSection(ctx.tests), i);
  }

  /** The block of `xs[i]` in `lead + (header + Concat(xs, f)) + meds + tests`, after the lead and the header. */
  lemma BlockInside<T>(lead: string, header: string, xs: seq<T>, f: T -> string, meds: string, tests: string, i: nat)
    requires i < |xs|
    ensures |lead + header| + Offset(xs, f, i) + |f(xs[i])| <= |lead + (header + Concat(xs, f)) + meds + tests|
    ensures IsPrefix(f(xs[i]), (lead + (header + Concat(xs, f)) + meds + tests)[|lead + header| + Offset(xs, f, i)..])
  {
    var body := Concat(xs, f);
    assert lead + (header + body) + meds + tests == (lead + header) + body + (meds + tests);
    ConcatAt(xs, f, i);
    PrefixInside(lead + header, body, meds + tests, f(xs[i]), Offset(xs, f, i));
  }

  /** Visit blocks appear in the order of the visit list, and do not overlap. */
  lemma VisitBlocksInOrder(ctx: PatientContext, maxVisits: nat, i: nat, j: nat)
    requires i < j < |Take(ctx.visits, maxVisits)|
    ensures VisitStart(ctx, maxVisits, i) + |VisitBlock(Take(ctx.visits, maxVisits)[i])| <= VisitStart(ctx, maxVisits, j)
  {
    OffsetsIncrease(Take(ctx.visits, maxVisits), VisitBlock, i, j);
  }

  /** `x` occurs in `text`, and `y` occurs after that occurrence of `x` ends. */
  predicate OccursBefore(text: string, x: string, y: string) {
    exists p, q | 0 <= p <= q <= |text| :: p + |x| <= q && IsPrefix(x, text[p..]) && IsPrefix(y, text[q..])
  }

  /**
   * The formatted record puts the block of a more recent visit before the
   * block of an older one, when the record has at most the ten visits the
   * chat shows.
   */
  lemma NewerVisitFormattedFirst(store: Store, id: int, a: Visit, b: Visit)
    requires GetPatient(store, id).Some?
    requires a in store.rows[id].visits && b in store.rows[id].visits
    requires a.visitDate.key > b.visitDate.key
    requires |store.rows[id].visits| <= 10
    ensures OccursBefore(ContextText(LoadedContext(store, id).value, 10), VisitBlock(ToVisitInfo(a)), VisitBlock(ToVisitInfo(b)))
  {
    var ctx := LoadedContext(store, id).value;
    var i, j := NewerVisitLoadedFirst(store, id, a, b);
    LoadedVisitsCount(store, id);
    ShortListOccursBefore(ctx, i, j);
  }

  /**
   * However many visits are stored, a visit newer than one of the ten shown
   * is formatted before it: `j` is the shown visit's place in load order.
   */
  lemma NewerThanShownFormattedFirst(store: Store, id: int, a: Visit, j: nat)
    requires GetPatient(store, id).Some?
    requires a in store.rows[id].visits
    requires j < 10 && j < |SortDesc(GetPatientVisits(store, id), VisitKey)|
    requires a.visitDate.key > SortDesc(GetPatientVisits(store, id), VisitKey)[j].visitDate.key
    ensures OccursBefore(ContextText(LoadedContext(store, id).value, 10), VisitBlock(ToVisitInfo(a)),
                         VisitBlock(ToVisitInfo(SortDesc(GetPatientVisits(store, id), VisitKey)[j])))
  {
    var ctx := LoadedContext(store, id).value;
    var i := NewerRowLoadedBefore(store, id, a, j);
    assert Take(ctx.visits, 10)[i] == ctx.visits[i] && Take(ctx.visits, 10)[j] == ctx.visits[j];
    VisitsOccurBefore(ctx, 10, i, j);
  }

  /** The loaded place of a visit newer than the visit at place `j`. */
  lemma NewerRowLoadedBefore(store: Store, id: int, a: Visit, j: nat) returns (i: nat)
    requires GetPatient(store, id).Some?
    requires a in store.rows[id].visits
    requires j < |SortDesc(GetPatientVisits(store, id), VisitKey)|
    requires a.visitDate.key > SortDesc(GetPatientVisits(store, id), VisitKey)[j].visitDate.key
    ensures i < j < |LoadedContext(store, id).value.visits|
    ensures LoadedContext(store, id).value.visits[i] == ToVisitInfo(a)
    ensures LoadedContext(store, id).value.visits[j] == ToVisitInfo(SortDesc(GetPatientVisits(store, id), VisitKey)[j])
  {
    var rows := SortDesc(GetPatientVisits(store, id), VisitKey);
    assert multiset(rows) == multiset(store.rows[id].visits);
    assert a in multiset(store.rows[id].visits);
    i := IndexOf(rows, a);
    SortedDescPrecedes(rows, VisitKey, i, j);
    assert LoadedContext(store, id).value.visits == MapSeq(rows, ToVisitInfo);
  }

  /** With at most ten visits listed, none is cut, so list order is text order. */
  lemma ShortListOccursBefore(ctx: PatientContext, i: nat, j: nat)
    requires i < j < |ctx.visits| <= 10
    ensures OccursBefore(ContextText(ctx, 10), VisitBlock(ctx.visits[i]), VisitBlock(ctx.visits[j]))
  {
    assert Take(ctx.visits, 10) == ctx.visits;
    VisitsOccurBefore(ctx, 10, i, j);
  }

  /** The context lists every visit of the patient. */
  lemma LoadedVisitsCount(store: Store, id: int)
    requires GetPatient(store, id).Some?
    ensures |LoadedContext(store, id).value.visits| == |store.rows[id].visits|
  {
    var visits := GetPatientVisits(store, id);
    assert |multiset(visits)| == |multiset(store.rows[id].visits)|;
    assert LoadedContext(store, id).value == ContextOf(store.rows[id].patient, visits, GetPatientMedications(store, id, true), GetPatientTestResults(store, id));
  }

  /** Of two listed visits, the earlier one in the list has its block first in the context text. */
  lemma VisitsOccurBefore(ctx: PatientContext, maxVisits: nat, i: nat, j: nat)
    requires i < j < |Take(ctx.visits, maxVisits)|
    ensures OccursBefore(ContextText(ctx, maxVisits), VisitBlock(Take(ctx.visits, maxVisits)[i]), VisitBlock(Take(ctx.visits, maxVisits)[j]))
  {
    VisitBlockAt(ctx, maxVisits, i);
    VisitBlockAt(ctx, maxVisits, j);
    VisitBlocksInOrder(ctx, maxVisits, i, j);
    var p, q := VisitStart(ctx, maxVisits, i), VisitStart(ctx, maxVisits, j);
    assert p + |VisitBlock(Take(ctx.visits, maxVisits)[i])| <= q;
  }

  /** A listed visit's summary reaches the model cut to its first 500 characters. */
  lemma SummaryShownTruncated(ctx: PatientContext, maxVisits: nat, i: nat)
    requires i < |Take(ctx.visits, maxVisits)|
    requires Take(ctx.visits, maxVisits)[i].summary != ""
    ensures Contains(ContextText(ctx, maxVisits), SummaryCaption + Take(Take(ctx.visits, maxVisits)[i].summary, 500) + "\n")
  {
    var v := Take(ctx.visits, maxVisits)[i];
    var line := OptionalLine(SummaryCaption, v.summary, Take(v.summary, 500));
    var before := VisitCaption + v.date + " (" + v.visitType + "):\n"
      + OptionalLine(ComplaintCaption, v.chiefComplaint, v.chiefComplaint);
    var after := OptionalLine(DiagnosisCaption, v.diagnosis, v.diagnosis)
      + OptionalLine(AdviceCaption, v.recommendations, Take(v.recommendations, 300));
    assert VisitBlock(v) == before + line + after;
    ContainsInfix(before, line, after);
    VisitBlockAt(ctx, maxVisits, i);
    PrefixAtContains(ContextText(ctx, maxVisits), VisitBlock(v), VisitStart(ctx, maxVisits, i));
    ContainsTrans(ContextText(ctx, maxVisits), VisitBlock(v), line);
  }

  /**
   * A visit block starts with the date and type header, then shows the
   * complaint, the diagnosis and the recommendations cut to 300 characters,
   * each when non-empty.
   */
  lemma VisitBlockShows(v: VisitInfo)
    ensures IsPrefix(VisitCaption + v.date + " (" + v.visitType + "):\n", VisitBlock(v))
    ensures v.chiefComplaint != "" ==> Contains(VisitBlock(v), ComplaintCaption + v.chiefComplaint + "\n")
    ensures v.diagnosis != "" ==> Contains(VisitBlock(v), DiagnosisCaption + v.diagnosis + "\n")
    ensures v.recommendations != "" ==> Contains(VisitBlock(v), AdviceCaption + Take(v.recommendations, 300) + "\n")
  {
    var h := VisitCaption + v.date + " (" + v.visitType + "):\n";
    var a := OptionalLine(ComplaintCaption, v.chiefComplaint, v.chiefComplaint);
    var b := OptionalLine(SummaryCaption, v.summary, Take(v.summary, 500));
    var c := OptionalLine(DiagnosisCaption, v.diagnosis, v.diagnosis);
    var d := OptionalLine(AdviceCaption, v.recommendations, Take(v.recommendations, 300));
    assert VisitBlock(v) == h + a + b + c + d;
    PartsShown(h, a, b, c, d);
    assert VisitBlock(v)[..|h|] == h;
  }

  /** Each shown visit's header, complaint, diagnosis and recommendations cut to 300 lie in the context text. */
  lemma VisitShown(ctx: PatientContext, maxVisits: nat, i: nat)
    requires i < |Take(ctx.visits, maxVisits)|
    ensures var v := Take(ctx.visits, maxVisits)[i];
      && Contains(ContextText(ctx, maxVisits), VisitCaption + v.date + " (" + v.visitType + "):\n")
      && (v.chiefComplaint != "" ==> Contains(ContextText(ctx, maxVisits), ComplaintCaption + v.chiefComplaint + "\n"))
      && (v.diagnosis != "" ==> Contains(ContextText(ctx, maxVisits), DiagnosisCaption + v.diagnosis + "\n"))
      && (v.recommendations != "" ==>
            Contains(ContextText(ctx, maxVisits), AdviceCaption + Take(v.recommendations, 300) + "\n"))
  {
    var v := Take(ctx.visits, maxVisits)[i];
    var text := ContextText(ctx, maxVisits);
    VisitBlockShows(v);
    VisitBlockAt(ctx, maxVisits, i);
    PrefixAtContains(text, VisitBlock(v), VisitStart(ctx, maxVisits, i));
    var h := VisitCaption + v.date + " (" + v.visitType + "):\n";
    PrefixAtContains(VisitBlock(v), h, 0);
    ContainsTrans(text, VisitBlock(v), h);
    if v.chiefComplaint != "" {
      ContainsTrans(text, VisitBlock(v), ComplaintCaption + v.chiefComplaint + "\n");
    }
    if v.diagnosis != "" {
      ContainsTrans(text, VisitBlock(v), DiagnosisCaption + v.diagnosis + "\n");
    }
    if v.recommendations != "" {
      ContainsTrans(text, VisitBlock(v), AdviceCaption + Take(v.recommendations, 300) + "\n");
    }
  }

  /** Visits past the first `maxVisits` do not reach the model at all. */
  lemma OlderVisitsIgnored(ctx: PatientContext, maxVisits: nat, older: seq<VisitInfo>)
    requires |ctx.visits| >= maxVisits
    ensures ContextText(ctx.(visits := ctx.visits + older), maxVisits) == ContextText(ctx, maxVisits)
  {
    assert Take(ctx.visits + older, maxVisits) == Take(ctx.visits, maxVisits);
  }

  // ---------------------------------------------------------------------
  // The medication and test parts of the context text
  // ---------------------------------------------------------------------

  /** In `pre + (header + Concat(xs, f)) + post`, the block of `xs[i]` occurs. */
  lemma SectionBlockShown<T>(text: string, pre: string, header: string, xs: seq<T>, f: T -> string, post: string, i: nat)
    requires text == pre + (header + Concat(xs, f)) + post
    requires i < |xs|
    ensures Contains(text, f(xs[i]))
  {
    BlockInside(pre, header, xs, f, post, "", i);
    assert text == pre + (header + Concat(xs, f)) + post + "";
    PrefixAtContains(text, f(xs[i]), |pre + header| + Offset(xs, f, i));
  }

  /** In `pre + (header + Concat(xs, f)) + post`, blocks occur in list order. */
  lemma SectionBlocksInOrder<T>(text: string, pre: string, header: string, xs: seq<T>, f: T -> string, post: string, i: nat, j: nat)
    requires text == pre + (header + Concat(xs, f)) + post
    requires i < j < |xs|
    ensures OccursBefore(text, f(xs[i]), f(xs[j]))
  {
    assert text == pre + (header + Concat(xs, f)) + post + "";
    BlockInside(pre, header, xs, f, post, "", i);
    BlockInside(pre, header, xs, f, post, "", j);
    OffsetsIncrease(xs, f, i, j);
    var p, q := |pre + header| + Offset(xs, f, i), |pre + header| + Offset(xs, f, j);
    assert p + |f(xs[i])| <= q;
  }

  /** The context text up to the medications section. */
  function BeforeMeds(ctx: PatientContext, maxVisits: nat): string {
    Banner + PatientLines(ctx.patient) + VisitsSection(Take(ctx.visits, maxVisits))
  }

  /** The header of the medications section, with the total. */
  function MedsHeader(n: nat): string {
    MedsTitle + NatToString(n) + TotalEnd
  }

  /** The header of the tests section, with the total. */
  function TestsHeader(n: nat): string {
    TestsTitle + NatToString(n) + TotalEnd
  }

  /** The context text, cut where the active-medication lines start. */
  lemma ActiveLinesSplit(ctx: PatientContext, maxVisits: nat)
    requires Filter(ctx.medications, IsCurrent) != []
    ensures ContextText(ctx, maxVisits)
      == (BeforeMeds(ctx, maxVisits) + MedsHeader(|ctx.medications|))
         + (ActiveTitle + Concat(Filter(ctx.medications, IsCurrent), ActiveMedLine))
         + (StoppedPart(Filter(ctx.medications, IsStopped)) + TestsSection(ctx.tests))
  {
    var active := Filter(ctx.medications, IsCurrent);
    var h := MedsHeader(|ctx.medications|);
    var a := ActiveTitle + Concat(active, ActiveMedLine);
    var st := StoppedPart(Filter(ctx.medications, IsStopped));
    assert MedsSection(ctx.medications) == h + a + st;
    assert ContextText(ctx, maxVisits) == BeforeMeds(ctx, maxVisits) + (h + a + st) + TestsSection(ctx.tests);
    Regroup(BeforeMeds(ctx, maxVisits), h, a, st, TestsSection(ctx.tests));
  }

  lemma Regroup(a: string, b: string, c: string, d: string, e: string)
    ensures a + (b + c + d) + e == (a + b) + c + (d + e)
  {
  }

  /** Each active medication has its line in the context text. */
  lemma ActiveLineShown(ctx: PatientContext, maxVisits: nat, i: nat)
    requires i < |Filter(ctx.medications, IsCurrent)|
    ensures Contains(ContextText(ctx, maxVisits), ActiveMedLine(Filter(ctx.medications, IsCurrent)[i]))
  {
    ActiveLinesSplit(ctx, maxVisits);
    SectionBlockShown(ContextText(ctx, maxVisits), BeforeMeds(ctx, maxVisits) + MedsHeader(|ctx.medications|), ActiveTitle,
      Filter(ctx.medications, IsCurrent), ActiveMedLine, StoppedPart(Filter(ctx.medications, IsStopped)) + TestsSection(ctx.tests), i);
  }

  /** Active medication lines come in the order of the medication list. */
  lemma ActiveLinesInOrder(ctx: PatientContext, maxVisits: nat, i: nat, j: nat)
    requires i < j < |Filter(ctx.medications, IsCurrent)|
    ensures OccursBefore(ContextText(ctx, maxVisits), ActiveMedLine(Filter(ctx.medications, IsCurrent)[i]),
                         ActiveMedLine(Filter(ctx.medications, IsCurrent)[j]))
  {
    ActiveLinesSplit(ctx, maxVisits);
    SectionBlocksInOrder(ContextText(ctx, maxVisits), BeforeMeds(ctx, maxVisits) + MedsHeader(|ctx.medications|), ActiveTitle,
      Filter(ctx.medications, IsCurrent), ActiveMedLine, StoppedPart(Filter(ctx.medications, IsStopped)) + TestsSection(ctx.tests), i, j);
  }

  /** An active medication's line: the name, dosage and frequency line, then the start line exactly when the start date is truthy. */
  lemma ActiveMedLineShows(m: MedInfo)
    ensures IsPrefix("- " + m.name + " (" + m.dosage + ") - " + m.frequency + "\n", ActiveMedLine(m))
    ensures Truthy(m.startDate) ==> Contains(ActiveMedLine(m), StartCaption + m.startDate.value + "\n")
    ensures !Truthy(m.startDate) ==> ActiveMedLine(m) == "- " + m.name + " (" + m.dosage + ") - " + m.frequency + "\n"
  {
    var first := "- " + m.name + " (" + m.dosage + ") - " + m.frequency + "\n";
    if Truthy(m.startDate) {
      ContainsHalves(first, StartCaption + m.startDate.value + "\n");
    }
    assert ActiveMedLine(m)[..|first|] == first;
  }

  /** Stopped medications past the fifth do not change the stopped part. */
  lemma StoppedPartFirstFive(stopped: seq<MedInfo>, more: seq<MedInfo>)
    requires |stopped| >= 5
    ensures StoppedPart(stopped + more) == StoppedPart(stopped)
  {
    assert Take(stopped + more, 5) == Take(stopped, 5);
  }

  /**
   * The medications section of a loaded record lists every medication as an
   * active line and has no stopped part, because only active medications
   * are loaded.
   */
  lemma LoadedMedsSection(store: Store, id: int)
    requires LoadedContext(store, id).Some?
    ensures var ms := LoadedContext(store, id).value.medications;
      && Filter(ms, IsCurrent) == ms
      && MedsSection(ms) == if ms == [] then "" else MedsHeader(|ms|) + ActivePart(ms)
  {
    var ms := LoadedContext(store, id).value.medications;
    LoadedMedicationsAllActive(store, id);
    FilterAll(ms, IsCurrent);
  }

  /** With tests, the context text states their total in the tests header. */
  lemma TestsHeaderShown(ctx: PatientContext, maxVisits: nat)
    requires ctx.tests != []
    ensures Contains(ContextText(ctx, maxVisits), TestsHeader(|ctx.tests|))
  {
    var before := BeforeMeds(ctx, maxVisits) + MedsSection(ctx.medications);
    assert ContextText(ctx, maxVisits) == before + TestsHeader(|ctx.tests|) + Concat(Take(ctx.tests, 10), TestBlock);
    ContainsInfix(before, TestsHeader(|ctx.tests|), Concat(Take(ctx.tests, 10), TestBlock));
  }

  /** The context text, cut where the test blocks start. */
  lemma TestBlocksSplit(ctx: PatientContext, maxVisits: nat)
    requires ctx.tests != []
    ensures ContextText(ctx, maxVisits)
      == (BeforeMeds(ctx, maxVisits) + MedsSection(ctx.medications))
         + (TestsHeader(|ctx.tests|) + Concat(Take(ctx.tests, 10), TestBlock)) + ""
  {
  }

  /** Each of the first ten tests has its block in the context text. */
  lemma TestBlockShown(ctx: PatientContext, maxVisits: nat, i: nat)
    requires i < |Take(ctx.tests, 10)|
    ensures Contains(ContextText(ctx, maxVisits), TestBlock(Take(ctx.tests, 10)[i]))
  {
    TestBlocksSplit(ctx, maxVisits);
    SectionBlockShown(ContextText(ctx, maxVisits), BeforeMeds(ctx, maxVisits) + MedsSection(ctx.medications),
      TestsHeader(|ctx.tests|), Take(ctx.tests, 10), TestBlock, "", i);
  }

  /** The blocks of the first ten tests come in the order of the test list. */
  lemma TestBlocksInOrder(ctx: PatientContext, maxVisits: nat, i: nat, j: nat)
    requires i < j < |Take(ctx.tests, 10)|
    ensures OccursBefore(ContextText(ctx, maxVisits), TestBlock(Take(ctx.tests, 10)[i]), TestBlock(Take(ctx.tests, 10)[j]))
  {
    TestBlocksSplit(ctx, maxVisits);
    SectionBlocksInOrder(ContextText(ctx, maxVisits), BeforeMeds(ctx, maxVisits) + MedsSection(ctx.medications),
      TestsHeader(|ctx.tests|), Take(ctx.tests, 10), TestBlock, "", i, j);
  }

  /** Tests after the tenth change only the total in the header: the listed blocks stay the same. */
  lemma LaterTestsNotListed(tests: seq<TestInfo>, more: seq<TestInfo>)
    requires |tests| >= 10
    ensures TestsSection(tests + more) == TestsHeader(|tests| + |more|) + Concat(Take(tests, 10), TestBlock)
    ensures TestsSection(tests) == TestsHeader(|tests|) + Concat(Take(tests, 10), TestBlock)
  {
    assert Take(tests + more, 10) == Take(tests, 10);
  }

  /**
   * A test block shows the upper-cased type with the name, the
   * interpretation cut to 200 characters when there is one, the key results
   * dumped and cut to 200 when there are some, and the modality when truthy.
   */
  lemma TestBlockShows(t: TestInfo)
    ensures Contains(TestBlock(t), Upper(t.testType) + ": " + t.name + " (" + t.date + ")\n")
    ensures t.interpretation != "" ==> Contains(TestBlock(t), InterpretationCaption + Take(t.interpretation, 200) + "\n")
    ensures t.extra.KeyResults? && t.extra.values != [] ==>
              Contains(TestBlock(t), KeyResultsCaption + Take(Dumps(t.extra.values), 200) + "\n")
    ensures t.extra.Imaging? && Truthy(t.extra.modality) ==>
              Contains(TestBlock(t), ModalityCaption + t.extra.modality.value + " - " + Show(t.extra.studyDescription) + "\n")
  {
    var line := Upper(t.testType) + ": " + t.name + " (" + t.date + ")\n";
    var interp := OptionalLine(InterpretationCaption, t.interpretation, Take(t.interpretation, 200));
    var keys := if t.extra.KeyResults? && t.extra.values != [] then KeyResultsCaption + Take(Dumps(t.extra.values), 200) + "\n" else "";
    var imaging := if t.extra.Imaging? && Truthy(t.extra.modality) then ModalityCaption + t.extra.modality.value + " - " + Show(t.extra.studyDescription) + "\n" else "";
    assert TestBlock(t) == "\n" + line + interp + keys + imaging;
    PartsShown("\n", line, interp, keys, imaging);
  }
}
