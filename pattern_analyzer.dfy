/**
 * `PatternAnalyzer` (services/pattern_analyzer.py): the material the
 * evolution analysis is prepared from (a visit timeline, oldest first, and
 * the full medication history ordered by start date), the optional context
 * from earlier conversations, the guards before any service is asked, and
 * the comparison of two visits.
 *
 * The conversation search and the language model are parameters.  The
 * `json.dumps` rendering of the prompt is not modelled: the model receives
 * the prepared values as an `EvolutionPrompt` or a `ComparisonPrompt`.
 */
module PatternAnalyzer {
  import opened Wrappers
  import opened Text
  import opened Lists
  import opened Sorting
  import opened Records
  import opened Extraction

  /**
   * `vector_store.search_conversations(query, patient_id, n_results)`: the
   * `document` of each hit, `None` where a hit has no such key.
   */
  type ConversationSearch = (string, int, nat) -> Outcome<seq<Option<string>>>

  // ---------------------------------------------------------------------
  // The visit timeline
  // ---------------------------------------------------------------------

  /** One entry of `visit_summaries`. */
  datatype TimelineEntry = TimelineEntry(date: Date, summary: string, diagnosis: Option<string>, topics: seq<string>)

  /**
   * The timeline summary as the code groups it:
   * `(summary or transcription[:500]) if transcription else ""`.
   */
  function TimelineSummary(v: Visit): string {
    if Truthy(v.transcription) then
      (if Truthy(v.summary) then v.summary.value else Take(v.transcription.value, 500))
    else ""
  }

  /** The summary of `compare_visits`: `summary or (transcription[:500] if transcription else "")`. */
  function ComparisonSummary(v: Visit): string {
    if Truthy(v.summary) then v.summary.value
    else if Truthy(v.transcription) then Take(v.transcription.value, 500)
    else ""
  }

  function ToTimelineEntry(v: Visit): TimelineEntry {
    TimelineEntry(v.visitDate, TimelineSummary(v), v.diagnosis, v.topics.GetOr([]))
  }

  /** `visit_summaries`: every visit, oldest first. */
  function Timeline(visits: seq<Visit>): (r: seq<TimelineEntry>)
    ensures |r| == |visits|
    ensures forall i, j :: 0 <= i < j < |r| ==> r[i].date.key <= r[j].date.key
  {
    var ordered := SortAsc(visits, VisitKey);
    assert forall i, j :: 0 <= i < j < |ordered| ==> VisitKey(ordered[i]) <= VisitKey(ordered[j]);
    MapSeq(ordered, ToTimelineEntry)
  }

  /** The loop building `visit_summaries`. */
  method BuildTimeline(visits: seq<Visit>) returns (entries: seq<TimelineEntry>)
    ensures entries == Timeline(visits)
  {
    var ordered := SortAsc(visits, VisitKey);
    entries := [];
    for i := 0 to |ordered|
      invariant entries == MapSeq(ordered[..i], ToTimelineEntry)
    {
      MapStep(ordered, ToTimelineEntry, i);
      var visit := ordered[i];
      var summary := if Truthy(visit.transcription) then
        (if Truthy(visit.summary) then visit.summary.value else Take(visit.transcription.value, 500))
        else "";
      entries := entries + [TimelineEntry(visit.visitDate, summary, visit.diagnosis, visit.topics.GetOr([]))];
    }
    assert ordered[..|ordered|] == ordered;
  }

  /** Every visit is on the timeline, and the first entry is no later than any visit. */
  lemma TimelineOldestFirst(visits: seq<Visit>, k: nat)
    requires k < |visits|
    ensures ToTimelineEntry(visits[k]) in Timeline(visits)
    ensures Timeline(visits)[0].date.key <= visits[k].visitDate.key
  {
    var ordered := SortAsc(visits, VisitKey);
    assert visits[k] in multiset(ordered);
    var m := IndexOf(ordered, visits[k]);
    assert Timeline(visits)[m] == ToTimelineEntry(visits[k]);
  }

  /**
   * Without a transcription a visit's timeline summary is empty even when it
   * has a summary, while the comparison prompt shows that summary; with a
   * transcription both agree.
   */
  lemma TimelineSummaryNeedsTranscription(v: Visit)
    ensures !Truthy(v.transcription) ==> TimelineSummary(v) == ""
    ensures !Truthy(v.transcription) && Truthy(v.summary) ==> ComparisonSummary(v) == v.summary.value != ""
    ensures Truthy(v.transcription) ==> TimelineSummary(v) == ComparisonSummary(v)
  {
  }

  // ---------------------------------------------------------------------
  // The medication history
  // ---------------------------------------------------------------------

  /** One entry of `medication_history`. */
  datatype MedicationEntry = MedicationEntry(
    name: string,
    dosage: Option<string>,
    startDate: Option<Date>,
    endDate: Option<Date>,
    isActive: bool)

  function ToMedicationEntry(m: Medication): MedicationEntry {
    MedicationEntry(m.name, m.dosage, m.startDate, m.endDate, m.isActive)
  }

  /**
   * `medication_history`: every medication ordered by start date, oldest
   * first, those without a start date (`datetime.min`) before all others.
   */
  function MedicationHistory(medications: seq<Medication>): (r: seq<MedicationEntry>)
    ensures |r| == |medications|
    ensures forall i, j :: 0 <= i < j < |r| ==>
      (r[i].startDate.Some? && r[j].startDate.Some? ==> r[i].startDate.value.key <= r[j].startDate.value.key)
    ensures forall i, j :: 0 <= i < |r| && 0 <= j < |r| && r[i].startDate.None? && r[j].startDate.Some? ==> i < j
  {
    var ordered := SortAsc(medications, StartKey);
    assert forall i, j :: 0 <= i < j < |ordered| ==> StartKey(ordered[i]) <= StartKey(ordered[j]);
    MapSeq(ordered, ToMedicationEntry)
  }

  /** The loop building `medication_history`. */
  method BuildMedicationHistory(medications: seq<Medication>) returns (entries: seq<MedicationEntry>)
    ensures entries == MedicationHistory(medications)
  {
    var ordered := SortAsc(medications, StartKey);
    entries := [];
    for i := 0 to |ordered|
      invariant entries == MapSeq(ordered[..i], ToMedicationEntry)
    {
      MapStep(ordered, ToMedicationEntry, i);
      var med := ordered[i];
      entries := entries + [MedicationEntry(med.name, med.dosage, med.startDate, med.endDate, med.isActive)];
    }
    assert ordered[..|ordered|] == ordered;
  }

  /** Every medication of the list has its entry in the history, stopped ones included. */
  lemma MedicationHistoryComplete(medications: seq<Medication>, k: nat)
    requires k < |medications|
    ensures ToMedicationEntry(medications[k]) in MedicationHistory(medications)
  {
    var ordered := SortAsc(medications, StartKey);
    assert medications[k] in multiset(ordered);
    var m := IndexOf(ordered, medications[k]);
    assert MedicationHistory(medications)[m] == ToMedicationEntry(medications[k]);
  }

  // ---------------------------------------------------------------------
  // Similar historical patterns
  // ---------------------------------------------------------------------

  const EvolutionQuery := "symptom progression medication changes pathology evolution"
  const SimilarTitle := "\n\nSimilar historical patterns:\n"
  const Bullet := "- "

  /** The line of one hit: its first 200 characters. */
  function DocLine(doc: Option<string>): string {
    match doc
    case Some(d) => Bullet + Take(d, 200) + "\n"
    case None => ""
  }

  /** How many hits come before the first one without a document (whose `KeyError` ends the loop). */
  function FirstMissing(results: seq<Option<string>>): (n: nat)
    ensures n <= |results|
    ensures forall k :: 0 <= k < n ==> results[k].Some?
    ensures n < |results| ==> results[n].None?
  {
    if results == [] || results[0].None? then 0 else 1 + FirstMissing(results[1..])
  }

  /**
   * `similar_context`: "" without a store, when the search raises or finds
   * nothing; otherwise the title and one line per hit, up to the first hit
   * without a document.
   */
  function SimilarContext(search: Option<ConversationSearch>, patientId: int): string {
    match search
    case None => ""
    case Some(s) =>
      match s(EvolutionQuery, patientId, 3)
      case Raised(_) => ""
      case Success(results) =>
        if results == [] then "" else SimilarTitle + Concat(results[..FirstMissing(results)], DocLine)
  }

  /** The `similar_context` block, whose loop stops at the first hit without a document. */
  method BuildSimilarContext(search: Option<ConversationSearch>, patientId: int) returns (text: string)
    ensures text == SimilarContext(search, patientId)
  {
    text := "";
    if search.None? {
      return;
    }
    var found := search.value(EvolutionQuery, patientId, 3);
    if found.Raised? || found.value == [] {
      return;
    }
    var results := found.value;
    text := SimilarTitle;
    var lines := "";
    var i := 0;
    while i < |results| && results[i].Some?
      invariant i <= FirstMissing(results)
      invariant lines == Concat(results[..i], DocLine)
    {
      ConcatStep(results, DocLine, i);
      lines := lines + (Bullet + Take(results[i].value, 200) + "\n");
      i := i + 1;
    }
    text := text + lines;
  }

  /** Each hit before the first one without a document has its line in the context. */
  lemma SimilarContextListsHit(search: ConversationSearch, patientId: int, k: nat)
    requires search(EvolutionQuery, patientId, 3).Success?
    requires k < FirstMissing(search(EvolutionQuery, patientId, 3).value)
    ensures Contains(SimilarContext(Some(search), patientId), DocLine(search(EvolutionQuery, patientId, 3).value[k]))
  {
    var results := search(EvolutionQuery, patientId, 3).value;
    var listed := results[..FirstMissing(results)];
    assert listed[k] == results[k];
    ConcatAt(listed, DocLine, k);
    PrefixAtContains(Concat(listed, DocLine), DocLine(listed[k]), Offset(listed, DocLine, k));
    ContainsHalves(SimilarTitle, Concat(listed, DocLine));
    ContainsTrans(SimilarContext(Some(search), patientId), Concat(listed, DocLine), DocLine(results[k]));
  }

  // ---------------------------------------------------------------------
  // analyze_patient_evolution
  // ---------------------------------------------------------------------

  /** What the analysis is asked about. */
  datatype EvolutionPrompt = EvolutionPrompt(
    patient: Patient,
    timeline: seq<TimelineEntry>,
    medicationHistory: seq<MedicationEntry>,
    similarContext: string)

  type EvolutionModel = EvolutionPrompt -> Outcome<string>

  /** The result: `{}`, the insufficient-history message, or the parsed analysis. */
  datatype Evolution<J> = Empty | InsufficientHistory | Analysis(value: J)

  const InsufficientMessage := "Insufficient visit history for pattern analysis"

  /** The prompt material for a patient with enough visits. */
  function EvolutionPromptOf(store: Store, patientId: int, search: Option<ConversationSearch>): EvolutionPrompt
    requires GetPatient(store, patientId).Some?
  {
    EvolutionPrompt(
      GetPatient(store, patientId).value,
      Timeline(GetPatientVisits(store, patientId)),
      MedicationHistory(GetPatientMedications(store, patientId, false)),
      SimilarContext(search, patientId))
  }

  /** `PatternAnalyzer.analyze_patient_evolution` */
  function AnalyzeEvolution<J>(store: Store, patientId: int, search: Option<ConversationSearch>,
                               model: EvolutionModel, parse: string -> Option<J>): (r: Evolution<J>)
    ensures GetPatient(store, patientId).None? ==> r == Empty
    ensures r == InsufficientHistory <==> GetPatient(store, patientId).Some? && |GetPatientVisits(store, patientId)| < 2
    ensures r.Analysis? ==>
      && GetPatient(store, patientId).Some?
      && var reply := model(EvolutionPromptOf(store, patientId, search));
         reply.Success? && Extract(reply.value, parse) == Structured(r.value)
  {
    if GetPatient(store, patientId).None? then Empty
    else if |GetPatientVisits(store, patientId)| < 2 then InsufficientHistory
    else
      match model(EvolutionPromptOf(store, patientId, search))
      case Raised(_) => Empty
      case Success(content) =>
        match Extract(content, parse)
        case Structured(v) => Analysis(v)
        case NoBraces => Empty
        case Malformed => Empty
  }

  /** `PatternAnalyzer.analyze_patient_evolution`, preparing the prompt with its loops. */
  method AnalyzePatientEvolution<J>(store: Store, patientId: int, search: Option<ConversationSearch>,
                                    model: EvolutionModel, parse: string -> Option<J>) returns (r: Evolution<J>)
    ensures r == AnalyzeEvolution(store, patientId, search, model, parse)
  {
    var patient := GetPatient(store, patientId);
    if patient.None? {
      return Empty;
    }
    var visits := GetPatientVisits(store, patientId);
    var medications := GetPatientMedications(store, patientId, false);
    if |visits| < 2 {
      return InsufficientHistory;
    }
    var similarContext := BuildSimilarContext(search, patientId);
    var timeline := BuildTimeline(visits);
    var history := BuildMedicationHistory(medications);
    var reply := model(EvolutionPrompt(patient.value, timeline, history, similarContext));
    if reply.Raised? {
      return Empty;
    }
    var extracted := Extract(reply.value, parse);
    if extracted.Structured? {
      return Analysis(extracted.value);
    }
    return Empty;
  }

  /**
   * With fewer than two visits the answer is the insufficient-history
   * message whatever the search and the model would say: neither is asked.
   */
  lemma InsufficientHistoryAsksNoService<J>(store: Store, patientId: int,
                                            search: Option<ConversationSearch>, otherSearch: Option<ConversationSearch>,
                                            model: EvolutionModel, otherModel: EvolutionModel, parse: string -> Option<J>)
    requires GetPatient(store, patientId).Some?
    requires |GetPatientVisits(store, patientId)| < 2
    ensures AnalyzeEvolution(store, patientId, search, model, parse)
         == AnalyzeEvolution(store, patientId, otherSearch, otherModel, parse)
         == InsufficientHistory
  {
  }

  /** The analysis is given every visit of the patient, oldest first, and every medication, stopped ones included. */
  lemma EvolutionPromptComplete(store: Store, patientId: int, search: Option<ConversationSearch>)
    requires GetPatient(store, patientId).Some?
    ensures var p := EvolutionPromptOf(store, patientId, search);
      && |p.timeline| == |store.rows[patientId].visits|
      && |p.medicationHistory| == |store.rows[patientId].medications|
      && forall i, j :: 0 <= i < j < |p.timeline| ==> p.timeline[i].date.key <= p.timeline[j].date.key
  {
    var visits := GetPatientVisits(store, patientId);
    assert |multiset(visits)| == |multiset(store.rows[patientId].visits)|;
    var meds := GetPatientMedications(store, patientId, false);
    assert meds == SortDesc(store.rows[patientId].medications, StartKey);
  }

  /** A reply with a parsable brace span gives the parsed analysis. */
  lemma EvolutionParsesSpan<J>(store: Store, patientId: int, search: Option<ConversationSearch>,
                               model: EvolutionModel, parse: string -> Option<J>)
    requires GetPatient(store, patientId).Some? && |GetPatientVisits(store, patientId)| >= 2
    requires model(EvolutionPromptOf(store, patientId, search)).Success?
    requires var c := model(EvolutionPromptOf(store, patientId, search)).value;
      BraceSpan(c).Some? && parse(BraceSpan(c).value).Some?
    ensures AnalyzeEvolution(store, patientId, search, model, parse)
      == Analysis(parse(BraceSpan(model(EvolutionPromptOf(store, patientId, search)).value).value).value)
  {
  }

  // ---------------------------------------------------------------------
  // compare_visits
  // ---------------------------------------------------------------------

  /** `session.query(Visit).filter(Visit.id == id).first()` over the visit table. */
  function FindVisit(table: seq<Visit>, id: int): (r: Option<Visit>)
    ensures r.None? <==> forall k :: 0 <= k < |table| ==> table[k].id != id
    ensures r.Some? ==> r.value in table && r.value.id == id
  {
    if table == [] then None
    else if table[0].id == id then Some(table[0])
    else FindVisit(table[1..], id)
  }

  /** What the comparison is asked about. */
  datatype ComparisonPrompt = ComparisonPrompt(
    date1: Date, summary1: string, diagnosis1: Option<string>,
    date2: Date, summary2: string, diagnosis2: Option<string>)

  type ComparisonModel = ComparisonPrompt -> Outcome<string>

  function ComparisonPromptOf(v1: Visit, v2: Visit): ComparisonPrompt {
    ComparisonPrompt(v1.visitDate, ComparisonSummary(v1), v1.diagnosis, v2.visitDate, ComparisonSummary(v2), v2.diagnosis)
  }

  /** `PatternAnalyzer.compare_visits`; `None` is `{}`. */
  function CompareVisits<J>(table: seq<Visit>, visit1Id: int, visit2Id: int,
                            model: ComparisonModel, parse: string -> Option<J>): (r: Option<J>)
    ensures FindVisit(table, visit1Id).None? || FindVisit(table, visit2Id).None? ==> r.None?
    ensures r.Some? <==>
      && FindVisit(table, visit1Id).Some? && FindVisit(table, visit2Id).Some?
      && var reply := model(ComparisonPromptOf(FindVisit(table, visit1Id).value, FindVisit(table, visit2Id).value));
         reply.Success? && Extract(reply.value, parse).Structured?
    ensures r.Some? ==>
      var reply := model(ComparisonPromptOf(FindVisit(table, visit1Id).value, FindVisit(table, visit2Id).value));
      r.value == parse(BraceSpan(reply.value).value).value
  {
    match (FindVisit(table, visit1Id), FindVisit(table, visit2Id))
    case (Some(v1), Some(v2)) =>
      (match model(ComparisonPromptOf(v1, v2))
       case Raised(_) => None
       case Success(content) =>
         match Extract(content, parse)
         case Structured(v) => Some(v)
         case NoBraces => None
         case Malformed => None)
    case _ => None
  }

  /** A visit the table does not hold gives `{}` whatever the model would say. */
  lemma CompareMissingVisit<J>(table: seq<Visit>, visit1Id: int, visit2Id: int,
                               model: ComparisonModel, parse: string -> Option<J>)
    requires forall k :: 0 <= k < |table| ==> table[k].id != visit2Id
    ensures CompareVisits(table, visit1Id, visit2Id, model, parse).None?
  {
  }
}
