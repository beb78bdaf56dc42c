# Medical assistant core, modelled in Dafny

This project models the deterministic core of a French-language medical
consultation assistant:

- **Patient chat** (`MedicalChat`, `ChatContext`). It loads a patient's record from the store. It formats the record as prompt context, optionally adds vector-search excerpts and builds the system prompt. It sends the history window and the question to the language model, post-processes the answer (refusal detection and a record-based fallback) and keeps a per-patient history.
- **Summarizer** (`Summarizer`, `Extraction`). It summarizes a transcription into structured fields and cleans a summary. It extracts entities and prepares the text parts of the patient overview from visits, medications and tests.
- **Pattern analyzer** (`PatternAnalyzer`). It builds the visit timeline, the medication history and the similar-case context, then asks for an evolution analysis. It also compares two visits.
- **Lab results parser** (`LabResultsParser`). It parses lab results from text, line by line, and normalizes parsed results.
- **Translation lookup** (`Translations`). It resolves a dotted key path through the nested French table, then formats with keyword arguments.
- **Front end pieces** (`StreamlitApp`). These are the deterministic pieces of the Streamlit front end:
  - joining recommendations;
  - cleaning a refusal out of the generated overview, with its record-based fallback;
  - grouping tests by type;
  - mapping the upload form's test labels to store keys.

The language model, the vector store, the JSON parser and the clock are
parameters of the model:

- A model call is a function from the request to `Outcome`, which is either `Success(reply)` or `Raised(message)`.
- Searches are functions that return hits.
- Parsing is a function that returns an `Option`.
- "Now" is a value.

The database is a value (`Records.Store`). Its queries are functions that
return rows in the order the store sorts them. The `MedicalChat` class keeps
the per-patient conversation histories in a `map` field that `Chat` and
`ClearHistory` update.

Shared helpers live in `Wrappers`, `Text`, `Lists` and `Sorting`:

- `Wrappers`: `Option` and `Outcome`.
- `Text`: Python string operations (`lower`, `strip`, `split`, `join`, `find`, slicing, `in`).
- `Lists`: map, filter and collect over sequences.
- `Sorting`: a stable descending sort specified by sortedness and permutation.

## Model

| member | source | states |
|---|---|---|
| Records.GetPatient | database/db_manager.py:54-63 | a patient is found exactly when the id is non-zero and stored, and it is the stored patient; id 0 is falsy and finds nobody |
| Records.GetPatientVisits | database/db_manager.py:74-88 | the patient's visits, newest first: a permutation of the stored rows, sorted by date descending |
| Records.GetPatientMedications | database/db_manager.py:90-104 | sorted by start date, newest first; every row is the patient's; with `active_only`, exactly the active medications, otherwise a permutation of all of them |
| Records.GetPatientTestResults | database/db_manager.py:106-120 | the patient's tests, newest first: a permutation of the stored rows, sorted by date descending |
| ChatContext.ExtraOf | services/medical_chat.py:58-72 | key results exactly when "values" or "results" is present; they are the first ten entries (or all, when fewer) of the values when non-empty, otherwise of the results; the imaging keys, copied, exactly when neither is present and "modality" is |
| ChatContext.ToVisitInfo | services/medical_chat.py:32-40 | the visit date is kept; the type is never empty and is the stored type when truthy; the summary is the cleaned summary when truthy, and empty exactly when neither summary is truthy |
| ChatContext.ToTestInfo | services/medical_chat.py:57-73 | the type is never empty and is the stored type when non-empty; name and date are kept; a shown interpretation is the stored one; key results only when results data is present |
| ChatContext.LoadedContext | services/medical_chat.py:19-88 | a context exists exactly when the patient exists; the visit and test totals equal the list lengths |
| ChatContext.ContextOf | services/medical_chat.py:29-86 | the counts equal the row counts; the medications are the loaded rows converted in order; the active count is the number of active rows |
| ChatContext.LoadPatientContext | services/medical_chat.py:19-88 | the loading loops build exactly the loaded context, or none for an unknown patient |
| ChatContext.NewerVisitLoadedFirst | services/medical_chat.py:29-41 | of two stored visits with different dates, the newer one appears first in the context |
| ChatContext.LoadedMedicationsAllActive | services/medical_chat.py:27 | every medication in the context is active, because only active ones are loaded |
| ChatContext.LoadedVisitsCount | services/medical_chat.py:29-41 | the context lists every stored visit of the patient |
| ChatContext.FormatVisit | services/medical_chat.py:168-176 | the method builds VisitBlock, whose content VisitBlockShows states |
| ChatContext.VisitBlockShows | services/medical_chat.py:168-176 | the block starts with the "Consultation du date (type):" header and holds the complaint line, the diagnosis line and the recommendations cut to 300 characters, each when non-empty |
| ChatContext.ActiveMedLine | services/medical_chat.py:186-188 | an active medication's line; ActiveMedLineShows states its content |
| ChatContext.FormatActiveMed | services/medical_chat.py:186-188 | the method builds the line of ActiveMedLine, whose content ActiveMedLineShows states |
| ChatContext.ActiveMedLineShows | services/medical_chat.py:186-188 | the line starts with "- name (dosage) - frequency"; it holds the start line exactly when the start date is truthy, and is only the first line otherwise |
| ChatContext.TestBlock | services/medical_chat.py:201-207 | a test's block; TestBlockShows states its content |
| ChatContext.FormatTest | services/medical_chat.py:201-207 | the method builds the block of TestBlock, whose content TestBlockShows states |
| ChatContext.TestBlockShows | services/medical_chat.py:201-207 | the block holds the upper-cased type with name and date, the interpretation cut to 200 characters when non-empty, the key results dumped and cut to 200 when present, and the modality line when the modality is truthy |
| ChatContext.FormatVisits | services/medical_chat.py:164-176 | the visits section: a header with the count, then one block per visit in order; empty without visits |
| ChatContext.FormatActivePart | services/medical_chat.py:182-188 | the method builds ActivePart; ActiveLineShown and ActiveLinesInOrder state that every active line lies in the context text, in list order |
| ChatContext.ActiveLineShown | services/medical_chat.py:182-188 | every active medication's line lies in the context text |
| ChatContext.ActiveLinesInOrder | services/medical_chat.py:185-188 | the lines of two active medications occur in the order of the medication list |
| ChatContext.FormatStoppedPart | services/medical_chat.py:190-194 | the method builds StoppedPart; StoppedPartFirstFive and LoadedMedsSection state what it shows |
| ChatContext.StoppedPartFirstFive | services/medical_chat.py:193 | stopped medications after the fifth do not change the stopped part |
| ChatContext.LoadedMedsSection | services/medical_chat.py:179-194 | for a loaded record every medication is active, so the section is the header and the active part, with no stopped part |
| ChatContext.FormatMedications | services/medical_chat.py:179-194 | the method builds MedsSection; LoadedMedsSection and the active-line lemmas state its content |
| ChatContext.FormatTests | services/medical_chat.py:197-207 | the method builds TestsSection; TestsHeaderShown, TestBlockShown, TestBlocksInOrder and LaterTestsNotListed state its content |
| ChatContext.TestsHeaderShown | services/medical_chat.py:198-199 | with tests, the context text holds the header stating their total |
| ChatContext.TestBlockShown | services/medical_chat.py:200-207 | the block of each of the first ten tests lies in the context text |
| ChatContext.TestBlocksInOrder | services/medical_chat.py:200-207 | the blocks of the first ten tests occur in the order of the test list |
| ChatContext.LaterTestsNotListed | services/medical_chat.py:200 | tests after the tenth change only the total in the header, not the listed blocks |
| ChatContext.VisitBlock | services/medical_chat.py:168-176 | a visit's block; VisitBlockShows states its content, VisitBlockAt where it lies, and VisitShown and SummaryShownTruncated what of it reaches the context text |
| ChatContext.ContextText | services/medical_chat.py:153-209 | the context text; the visit, active-line and test-block lemmas state what it holds and in which order |
| ChatContext.FormatPatientContext | services/medical_chat.py:153-209 | the whole context text: banner, patient lines, at most `max_visits` visits, medications, tests |
| ChatContext.VisitBlockAt | services/medical_chat.py:167-176 | the block of each shown visit lies in the context text at that visit's offset |
| ChatContext.VisitBlocksInOrder | services/medical_chat.py:167-176 | the block of an earlier shown visit ends before the block of a later one starts |
| ChatContext.VisitsOccurBefore | services/medical_chat.py:164-176 | for two visits within `max_visits`, the earlier one's block occurs before the later one's |
| ChatContext.NewerVisitFormattedFirst | services/medical_chat.py:32 | for a patient with at most ten visits, the newer of two visits is formatted before the older one |
| ChatContext.VisitShown | services/medical_chat.py:167-176 | for each shown visit, the header, the complaint, the diagnosis and the recommendations cut to 300 lie in the context text, each when non-empty |
| ChatContext.NewerThanShownFormattedFirst | services/medical_chat.py:164-176 | for any number of stored visits, a stored visit newer than one of the ten shown (after the newest-first sort of line 32) is formatted before it |
| ChatContext.SummaryShownTruncated | services/medical_chat.py:172 | a shown visit with a summary has its first 500 summary characters in the context text |
| ChatContext.OlderVisitsIgnored | services/medical_chat.py:164 | visits beyond `max_visits` do not change the context text |
| MedicalChat.SystemPrompt | services/medical_chat.py:119-151 | the system prompt; SystemPromptReportsCounts states the counts it reports |
| MedicalChat.RelevantContext | services/medical_chat.py:90-117 | the search text; VectorSearchUsedIff states when it is non-empty |
| MedicalChat.SystemPromptReportsCounts | services/medical_chat.py:131-134 | the system prompt states the number of visits, of active medications and of tests of the record |
| MedicalChat.VectorSearchUsedIff | services/medical_chat.py:104-113 | the search text is non-empty exactly when a store is configured, the search succeeds and it finds conversations or medical notes |
| MedicalChat.Window | services/medical_chat.py:261 | the window is the last ten messages of the history, or all of them when there are fewer |
| MedicalChat.Request | services/medical_chat.py:252-268 | the request is the system prompt, then the window, then the user message |
| MedicalChat.AppendTurn | services/medical_chat.py:309-321 | the history plus the user message and the answer, trimmed to its last 20 messages |
| MedicalChat.AppendTurnKeepsExchanges | services/medical_chat.py:309-321 | appending a turn keeps the history whole user/assistant exchanges, ending with the new exchange |
| MedicalChat.WindowIsExchanges | services/medical_chat.py:261 | the window of a history of whole exchanges is itself whole exchanges |
| MedicalChat.Started | services/medical_chat.py:229-230 | every known history is kept, and a patient without one gets an empty history |
| MedicalChat.StoredKeepsExchanges | services/medical_chat.py:309-321 | every history stored after a turn is still whole exchanges |
| MedicalChat.StoreExchange | services/medical_chat.py:309-321 | a successful turn stores the old history plus the exchange, trimmed to 20 messages, and no other patient's history changes |
| MedicalChat.SubstituteIsNoRefusal | services/medical_chat.py:285-299 | the fixed answer for an empty or short reply holds no refusal phrase |
| MedicalChat.FallbackResponse | services/medical_chat.py:350-398 | the fallback answer is at least 10 characters long, so the `if fallback_response` guard always holds |
| MedicalChat.FallbackListsActiveMedications | services/medical_chat.py:360-365 | asked about medications, the fallback lists each of the first five active medications |
| MedicalChat.FallbackListsTests | services/medical_chat.py:369-373 | asked about tests and not medications, the fallback lists each of the first five tests |
| MedicalChat.FallbackOnEmptyRecord | services/medical_chat.py:360-398 | for a record without visits, medications or tests, every fallback answer is one of the nothing-found notices |
| MedicalChat.FallbackNoActiveMedications | services/medical_chat.py:360-367 | asked about medications, the answer is the "no active medication" notice exactly when no medication is active |
| MedicalChat.FallbackNoTests | services/medical_chat.py:369-375 | asked about tests and not medications, the answer is the "no test" notice exactly when there are no tests |
| MedicalChat.FallbackDiagnosis | services/medical_chat.py:377-386 | asked about a diagnosis and neither earlier topic: the first visit's date and diagnosis, the no-diagnosis notice when it is empty, the no-visit notice without visits |
| MedicalChat.FallbackEvolution | services/medical_chat.py:388-392 | asked about the evolution and no earlier topic: the visit-count text exactly when there are at least two visits, otherwise the too-few-visits notice |
| MedicalChat.FallbackCounts | services/medical_chat.py:394-398 | no known topic: the visit, medication and test counts of a non-empty record, the empty-record notice otherwise |
| MedicalChat.FallbackDiagnosisFromNewestVisit | services/medical_chat.py:377-382 | for a loaded record, the reported diagnosis and date are those of a stored visit no older than any other stored visit |
| MedicalChat.FinalAnswer | services/medical_chat.py:281-307 | the answer is never shorter than 10 characters |
| MedicalChat.PostProcess | services/medical_chat.py:281-307 | the post-processing branches compute exactly the final answer |
| MedicalChat.ShortReplySubstituted | services/medical_chat.py:283-307 | an empty or short reply becomes the fixed answer, never the fallback |
| MedicalChat.LongReplyKept | services/medical_chat.py:301-307 | a reply of 200 characters or more is kept as stripped, refusal phrase or not |
| MedicalChat.MidReplyRefusal | services/medical_chat.py:298-307 | a reply of 10 to 199 characters is replaced by the fallback exactly when it holds a refusal phrase |
| MedicalChat.ChatTurn | services/medical_chat.py:211-339 | one chat turn; ChatUnknownPatient, ChatSendsRequest, ChatModelError and ChatSuccess state its cases |
| MedicalChat.ChatUnknownPatient | services/medical_chat.py:228-238 | for an unknown patient the reply is the not-found error, no model is called, and only an empty history is created for the id |
| MedicalChat.ChatSendsRequest | services/medical_chat.py:240-268 | for a loaded record, the model receives the system prompt with the context and the search text, the window and the question |
| MedicalChat.ChatModelError | services/medical_chat.py:334-339 | a model error gives the error-prefixed message and stores no exchange |
| MedicalChat.ChatSuccess | services/medical_chat.py:281-332 | a successful reply gives the final answer, at least 10 characters long, with the record counts, and stores the exchange |
| MedicalChat.MedicalChat.constructor | services/medical_chat.py:13-17 | a new chat holds the given vector store and no histories |
| MedicalChat.MedicalChat.SearchRelevantContext | services/medical_chat.py:90-117 | the search loops compute exactly the search text |
| MedicalChat.MedicalChat.GetHistory | services/medical_chat.py:346-348 | a patient's stored history, or an empty one for a patient without history |
| MedicalChat.MedicalChat.ClearHistory | services/medical_chat.py:341-344 | the patient's history is removed, and only that one; the histories stay whole exchanges |
| MedicalChat.MedicalChat.PrepareRequest | services/medical_chat.py:240-268 | the request sent for a loaded record, and the search text used |
| MedicalChat.MedicalChat.Chat | services/medical_chat.py:211-339 | the reply, the request and the new histories are exactly those of one chat turn; the histories stay whole exchanges |
| Extraction.BraceBounds | services/summarizer.py:67-72 | the first `{` and the last `}`; found exactly when some `{` comes before some `}` |
| Extraction.BraceSpan | services/summarizer.py:67-72 | the text from the first `{` to the last `}` inclusive, found exactly when the bounds are |
| Extraction.Extract | services/pattern_analyzer.py:113-118 | no braces exactly when there is no span; a structured result exactly when the span parses, and it is the parse |
| Extraction.ExtractIgnoresProse | services/pattern_analyzer.py:113-118 | text without braces around an object does not change the span or the result |
| Summarizer.TruncatedTranscription | services/summarizer.py:87 | the first 500 characters of the transcription, followed by three more characters |
| Summarizer.SummarizeConversation | services/summarizer.py:16-94 | a fallback result holds only the summary field |
| Summarizer.SummaryIsParsedSpan | services/summarizer.py:66-72 | when the reply's brace span parses, the result is the parse |
| Summarizer.SummaryWithoutBraces | services/summarizer.py:73-83 | a reply without a brace span becomes the summary, with no other field |
| Summarizer.SummaryOnFailure | services/summarizer.py:84-94 | a failed call, or a span that does not parse, gives the truncated transcription as the only field |
| Summarizer.CleanSummary | services/summarizer.py:96-124 | the stripped reply, or the summary unchanged when the call fails |
| Summarizer.ExtractMedicalEntities | services/summarizer.py:126-163 | entities exactly when the call succeeds and its brace span parses, and then they are the parse |
| Summarizer.EntitiesWithoutBraces | services/summarizer.py:155-163 | a reply without a brace span gives no entities |
| Summarizer.MedText | services/summarizer.py:199-205 | a named medication's text; MedTextShows states its content |
| Summarizer.FormatMed | services/summarizer.py:199-205 | the method builds MedText, whose content MedTextShows states |
| Summarizer.MedTextShows | services/summarizer.py:199-205 | the text starts with the name; it starts with "name (dosage)" when the dosage is non-empty and ends with " - frequency" when the frequency is; its length counts exactly the parts present |
| Summarizer.MedsText | services/summarizer.py:186-208 | the medications text; MedsTextListsNamed and MedsTextNoneNamed state its content |
| Summarizer.PrepareMedsText | services/summarizer.py:186-208 | the loop computes the texts of the named medications joined with ", ", or the fixed notice |
| Summarizer.MedsTextListsNamed | services/summarizer.py:199-206 | each named medication's text appears in the medications text |
| Summarizer.MedsTextNoneNamed | services/summarizer.py:206-208 | without a named medication the text is the fixed notice |
| Summarizer.PrepareDiagnoses | services/summarizer.py:211-218 | the loop computes the diagnoses list |
| Summarizer.DiagnosesKept | services/summarizer.py:211-218 | every listed diagnosis is non-empty, every non-empty diagnosis is listed, and the list is empty exactly when no visit has one |
| Summarizer.RecentTests | services/summarizer.py:223-225 | three tests, or all when fewer; each is one of the tests, newest first |
| Summarizer.PrepareRecentTests | services/summarizer.py:220-246 | the sort raises exactly when at least two tests mix dated and undated ones; otherwise the text of the recent tests |
| Summarizer.RecentTestsAreMostRecent | services/summarizer.py:224-225 | a test left out of the three recent ones is no newer than any test kept |
| Summarizer.RecentTestListed | services/summarizer.py:228-246 | each recent test's line appears in the tests text |
| Summarizer.UndatedTestShown | services/summarizer.py:243 | a test without a date is shown with "Date inconnue" |
| Summarizer.CutShape | services/summarizer.py:269-273 | a text within the limit is kept; a longer one is cut to the limit and followed by "..." |
| Summarizer.CutLine | services/summarizer.py:269-273 | a caption, the cut text and a newline |
| Summarizer.LastVisitInfo | services/summarizer.py:249-273 | the latest-visit text; LastVisitInfoEmpty and LastVisitInfoShows state its content |
| Summarizer.PrepareLastVisit | services/summarizer.py:249-273 | the branches build LastVisitInfo, whose content LastVisitInfoEmpty and LastVisitInfoShows state |
| Summarizer.LastVisitInfoEmpty | services/summarizer.py:249-262 | the text is empty exactly when there is no latest visit or it has no date |
| Summarizer.LastVisitInfoShows | services/summarizer.py:262-273 | a dated latest visit gives the heading with its date, then the summary cut to 200 characters, the diagnosis and the advice cut to 150, each when non-empty |
| Summarizer.Overview | services/summarizer.py:165-314 | the overview outcome; OverviewRaisesBeforeModel, OverviewOnModelError and OverviewOnSuccess state its cases |
| Summarizer.GeneratePatientOverview | services/summarizer.py:165-314 | the method computes exactly the overview outcome |
| Summarizer.OverviewRaisesBeforeModel | services/summarizer.py:222-225 | when at least two tests mix dated and undated ones, the sort raises `TypeError` whatever the model would answer |
| Summarizer.OverviewOnModelError | services/summarizer.py:306-314 | on a model error the overview is the fallback built from the name, the visit count, the medications text and whether there is a latest visit |
| Summarizer.FallbackShape | services/summarizer.py:309-314 | the fallback starts with the name and visit count, holds the medications text when there are medications, and ends with the latest-visit sentence exactly when there is a latest visit |
| Summarizer.OverviewOnSuccess | services/summarizer.py:299-305 | on success the overview is the stripped reply |
| PatternAnalyzer.Timeline | services/pattern_analyzer.py:50-57 | one entry per visit, ordered by date, oldest first |
| PatternAnalyzer.BuildTimeline | services/pattern_analyzer.py:50-57 | the loop computes exactly the timeline |
| PatternAnalyzer.TimelineOldestFirst | services/pattern_analyzer.py:50-57 | every visit has its entry, and the first entry is no newer than any visit |
| PatternAnalyzer.TimelineSummary | services/pattern_analyzer.py:54 | a timeline entry's summary; TimelineSummaryNeedsTranscription states how it differs from the comparison's |
| PatternAnalyzer.ComparisonSummary | services/pattern_analyzer.py:136 | a compared visit's summary; TimelineSummaryNeedsTranscription relates it to the timeline's |
| PatternAnalyzer.TimelineSummaryNeedsTranscription | services/pattern_analyzer.py:54 | without a transcription the timeline summary is empty even when the visit has a summary, which the visit comparison shows; with a transcription both summaries agree |
| PatternAnalyzer.MedicationHistory | services/pattern_analyzer.py:59-67 | one entry per medication, dated ones by start date, undated ones before all dated ones |
| PatternAnalyzer.BuildMedicationHistory | services/pattern_analyzer.py:59-67 | the loop computes exactly the medication history |
| PatternAnalyzer.MedicationHistoryComplete | services/pattern_analyzer.py:59-67 | every medication has its entry in the history |
| PatternAnalyzer.FirstMissing | services/pattern_analyzer.py:44-47 | the number of results before the first one without a document, which ends the loop with an error |
| PatternAnalyzer.BuildSimilarContext | services/pattern_analyzer.py:32-47 | the loop computes exactly the similar-case text |
| PatternAnalyzer.SimilarContext | services/pattern_analyzer.py:32-47 | the similar-case text; SimilarContextListsHit states what it lists |
| PatternAnalyzer.SimilarContextListsHit | services/pattern_analyzer.py:32-47 | each result before the first one without a document appears in the similar-case text |
| PatternAnalyzer.AnalyzeEvolution | services/pattern_analyzer.py:17-122 | an unknown patient gives `{}`; the insufficient-history message exactly when there are fewer than two visits; an analysis only from a reply whose brace span parses |
| PatternAnalyzer.AnalyzePatientEvolution | services/pattern_analyzer.py:17-122 | the method computes exactly the evolution analysis |
| PatternAnalyzer.InsufficientHistoryAsksNoService | services/pattern_analyzer.py:29-30 | with fewer than two visits the result does not depend on the search or the model |
| PatternAnalyzer.EvolutionPromptComplete | services/pattern_analyzer.py:26-27 | the prompt holds one timeline entry per visit, oldest first, and one history entry per medication, inactive ones included |
| PatternAnalyzer.EvolutionParsesSpan | services/pattern_analyzer.py:113-118 | a reply whose brace span parses gives the parsed analysis |
| PatternAnalyzer.FindVisit | services/pattern_analyzer.py:127-128 | a visit of the table with the given id, or none exactly when no visit has it |
| PatternAnalyzer.CompareVisits | services/pattern_analyzer.py:124-168 | a comparison exactly when both visits exist, the call succeeds and its brace span parses, and then it is the parse of that span |
| PatternAnalyzer.CompareMissingVisit | services/pattern_analyzer.py:130-131 | a missing second visit gives no comparison, whatever the model |
| LabResultsParser.Put | integrations/lab_results_parser.py:58 | dictionary assignment: the key gets the value, other keys are unchanged, and a new key goes last |
| LabResultsParser.PutUnique | integrations/lab_results_parser.py:58 | assignment keeps the keys distinct |
| LabResultsParser.FirstDigit | integrations/lab_results_parser.py:49 | the first digit's index, none exactly when there is no digit |
| LabResultsParser.DigitsEnd | integrations/lab_results_parser.py:56 | the end of the run of digits starting at the index |
| LabResultsParser.NumberEnd | integrations/lab_results_parser.py:56 | the end of the greedy match of `\d+\.?\d*` at a digit: the text up to it is a numeral, and the next character is no digit and is a dot only when the numeral holds one |
| LabResultsParser.FirstNumber | integrations/lab_results_parser.py:56-57 | the first match of `\d+\.?\d*`: a numeral starting at the first digit, none exactly when there is no digit; the match is greedy, so it ends at the text's end or at a non-digit that is a dot only when the numeral already holds one |
| LabResultsParser.ParseLines | integrations/lab_results_parser.py:25-60 | reference ranges and flags stay empty, and the value keys stay distinct |
| LabResultsParser.Reading | integrations/lab_results_parser.py:48-57 | one line's reading; TwoColonsNoReading and ReferenceLineRecordsNoValue state when there is none |
| LabResultsParser.Step | integrations/lab_results_parser.py:35-58 | one line's step; NameFromLastLine, DateFromLastLine, LastReadingWins and BlankLineIgnored state its effect |
| LabResultsParser.ParseText | integrations/lab_results_parser.py:19-60 | the parse of a text; ParseLines states its invariants and the step lemmas its fields |
| LabResultsParser.ApplyLine | integrations/lab_results_parser.py:35-58 | the loop body computes exactly one line's step |
| LabResultsParser.ParseTextResults | integrations/lab_results_parser.py:19-60 | the loop computes exactly the fold of the steps over the lines |
| LabResultsParser.NameFromLastLine | integrations/lab_results_parser.py:40-41 | the test name is the last line naming a test, stripped |
| LabResultsParser.NoNameLine | integrations/lab_results_parser.py:26-41 | without a line naming a test, the test name stays empty |
| LabResultsParser.DateFromLastLine | integrations/lab_results_parser.py:44-45 | the test date is the last line giving a date, stripped |
| LabResultsParser.LastReadingWins | integrations/lab_results_parser.py:58 | a key's value is the one from the last line reading that key |
| LabResultsParser.BlankLineIgnored | integrations/lab_results_parser.py:36-37 | a blank line leaves the parse unchanged |
| LabResultsParser.TwoColonsNoReading | integrations/lab_results_parser.py:50-51 | a line with two colons splits into three or more parts and records no value |
| LabResultsParser.ReferenceLineRecordsNoValue | integrations/lab_results_parser.py:48-51 | a line `name: value [Reference: range]` records no value, because of its second colon |
| LabResultsParser.SampleLineRecordsNoValue | integrations/lab_results_parser.py:48-58 | the sample line "Glucose: 98 mg/dL [Reference: 70-100]" leaves the values unchanged |
| LabResultsParser.NormalizeResults | integrations/lab_results_parser.py:72-83 | type "blood_test", empty interpretation; name "Unknown" and date `now` only when absent; the values when present |
| LabResultsParser.NormalizeParsed | integrations/lab_results_parser.py:72-83 | normalizing a text parse keeps its name, date and values and does not depend on `now` |
| Translations.Lookup | translations_fr.py:147 | the first entry with the key, and none exactly when no entry has it |
| Translations.Index | translations_fr.py:147 | `value[key]`: `KeyError` for a missing key, `TypeError` exactly when the value is not a dictionary |
| Translations.Token | translations_fr.py:149-150 | a format token takes at least one character and no more than the text |
| Translations.Format | translations_fr.py:150 | the format call; FormatPlain, FormatPlainPrefix, FormatField and FormatOneField state its result |
| Translations.Translate | translations_fr.py:139-151 | the translation; TranslateTwoLevels, TranslateTwoLevelsPlain, MissingSectionRaises and NoFormatUnlessPhraseWithKwargs state its cases |
| Translations.T | translations_fr.py:139-151 | the loop over the path segments and the conditional format compute exactly the translation |
| Translations.SplitTwo | translations_fr.py:144 | the path `a.b` splits into its two segments |
| Translations.TranslateTwoLevels | translations_fr.py:144-151 | `t("a.b")` finishes `TRANSLATIONS["a"]["b"]`, or raises the exception of the failed lookup |
| Translations.TranslateTwoLevelsPlain | translations_fr.py:144-151 | without keyword arguments, `t("a.b")` is `TRANSLATIONS["a"]["b"]` |
| Translations.MissingSectionRaises | translations_fr.py:146-147 | a missing first segment raises `KeyError` |
| Translations.NoFormatUnlessPhraseWithKwargs | translations_fr.py:149-151 | without keyword arguments, or for a list or dictionary value, the value is returned unformatted |
| Translations.FormatPlain | translations_fr.py:150 | a text without braces formats to itself |
| Translations.FormatPlainPrefix | translations_fr.py:150 | brace-free text in front is copied unchanged |
| Translations.FormatField | translations_fr.py:150 | a `{name}` field at the start is replaced by its argument |
| Translations.FormatOneField | translations_fr.py:150 | a text with one `{name}` field has that field replaced by the argument |
| Translations.TranslateOneField | translations_fr.py:139-151 | `t("a.b", name=v)` on a message with one field gives the message with `v` substituted |
| StreamlitApp.RecommendationsText | ui/streamlit_app.py:157-160 | a list is joined with newlines, a text is kept; RecommendationsLines states the list is recovered line by line |
| StreamlitApp.SplitJoined | ui/streamlit_app.py:160 | splitting the newline-joined text gives back the parts, when no part holds a newline |
| StreamlitApp.RecommendationsLines | ui/streamlit_app.py:157-160 | a list of one-line recommendations is recovered from its joined text |
| StreamlitApp.KeptFragment | ui/streamlit_app.py:321-336 | a line of a refusal contributes a fragment only when it is not an apology line |
| StreamlitApp.AfterColonFragment | ui/streamlit_app.py:330-333 | the stripped text after the colon, kept exactly when it is longer than 10 characters |
| StreamlitApp.SentenceFragment | ui/streamlit_app.py:327-336 | the stripped line, kept exactly when it is longer than 30 characters and does not start with "-" |
| StreamlitApp.ColonLineRule | ui/streamlit_app.py:327-333 | a line with a colon contributes the stripped text after its first colon, exactly when that is longer than 10 characters and the line is no apology |
| StreamlitApp.SentenceLineRule | ui/streamlit_app.py:327-336 | a line without a colon contributes its stripped self, exactly when that is longer than 30 characters, does not start with "-" and the line is no apology |
| StreamlitApp.KeptLines | ui/streamlit_app.py:317-336 | the kept fragments; KeptFromLine, KeptInLineOrder and OnlySkipLinesKeepNothing state which they are |
| StreamlitApp.CollectSummaryLines | ui/streamlit_app.py:317-336 | the line loop collects exactly the kept fragments, in line order |
| StreamlitApp.KeptFromLine | ui/streamlit_app.py:321-325 | every kept fragment comes from a line that is not an apology line |
| StreamlitApp.KeptInLineOrder | ui/streamlit_app.py:321-336 | fragments of two kept lines appear in the order of the lines |
| StreamlitApp.OnlySkipLinesKeepNothing | ui/streamlit_app.py:324-325 | a refusal made only of apology lines keeps nothing |
| StreamlitApp.NewestTests | ui/streamlit_app.py:351 | two tests, or all when fewer; each is one of the tests, newest first |
| StreamlitApp.NewestTestsAreMostRecent | ui/streamlit_app.py:351 | a test left out of the two newest is no newer than either |
| StreamlitApp.AppendMeds | ui/streamlit_app.py:346-349 | the medications part is appended exactly when some medication is named |
| StreamlitApp.AppendTests | ui/streamlit_app.py:350-353 | the tests part is appended exactly when a recent test is named |
| StreamlitApp.BuildFallback | ui/streamlit_app.py:343-358 | the fallback building code computes exactly the fallback overview |
| StreamlitApp.FallbackOverview | ui/streamlit_app.py:343-358 | the fallback overview; FallbackNotice and FallbackShows state its content |
| StreamlitApp.FallbackNotice | ui/streamlit_app.py:358 | the "not available" notice is given exactly when the record has nothing to show |
| StreamlitApp.FallbackShows | ui/streamlit_app.py:344-356 | the fallback shows the first diagnosis, up to three medication names, the two newest test names and the newest summary cut to 150 characters, each when present |
| StreamlitApp.CleanOverview | ui/streamlit_app.py:313-358 | a non-refusal overview is unchanged; a refusal with kept fragments becomes those fragments joined by single spaces in line order; a refusal with nothing kept becomes the fallback |
| StreamlitApp.CleanUpOverview | ui/streamlit_app.py:313-358 | the clean-up block computes exactly the cleaned overview |
| StreamlitApp.CleanedShowsFragment | ui/streamlit_app.py:339-340 | each kept fragment of a refusal appears in the cleaned overview |
| StreamlitApp.OnlyApologyGivesFallback | ui/streamlit_app.py:339-358 | a refusal whose every line is an apology is replaced by the fallback |
| StreamlitApp.GroupBy | ui/streamlit_app.py:447-452 | the grouping; GroupIsFilter, GroupKeysCover and GroupByWellOrdered state its groups and keys |
| StreamlitApp.TypeKey | ui/streamlit_app.py:448 | a test's group key; UntypedTestIsOther states the default |
| StreamlitApp.GroupIsFilter | ui/streamlit_app.py:447-452 | a key has a group exactly when some test has that type, and its group holds exactly those tests in their order |
| StreamlitApp.GroupKeysCover | ui/streamlit_app.py:448-452 | every test lands in the group of its type |
| StreamlitApp.GroupByWellOrdered | ui/streamlit_app.py:450-451 | the group keys are listed in insertion order, each once |
| StreamlitApp.GroupTests | ui/streamlit_app.py:447-452 | the grouping loop computes exactly the grouping of the tests by type |
| StreamlitApp.UntypedTestIsOther | ui/streamlit_app.py:448 | a test without a type is in the "other" group |
| StreamlitApp.DbTestType | ui/streamlit_app.py:548-554 | any text other than the four form labels is lower-cased, with spaces turned into "_" |
| StreamlitApp.DbTestTypeIsKey | ui/streamlit_app.py:548-554 | every key produced has no upper-case letter and no space |
| StreamlitApp.KeyIsNoLabel | ui/streamlit_app.py:549-552 | a key text is never one of the form labels |
| StreamlitApp.DbTestTypeIdempotent | ui/streamlit_app.py:554 | mapping a store key again leaves it unchanged |

## Left out

- Records.GetPatient: the lookup by patient code is not modelled, because every caller in this model looks patients up by primary key.
- The language model (Ollama): a function parameter from the request to a reply or an exception message. Prompt prose is kept only where a contract speaks about it. Temperatures and options are not modelled.
- The vector store (Chroma): search functions returning hits. Embedding and similarity search are not modelled.
- The database session (SQLAlchemy): the store is a value queried by functions. Rows that sort equal keep their store order, which the database does not promise.
- `json.loads`: a parse function parameter that answers `None` where `json.loads` raises.
- `json.dumps` of key results, in the chat context, is written out for a flat object whose values are already rendered as text. The indented `json.dumps` inside the prompts of the pattern analyzer is not modelled.
- Date formatting (`strftime`, `isoformat`): dates are pre-formatted texts whose order is the date order. `datetime.now()` is a parameter. `datetime.min` is an undated start that sorts first.
- LabResultsParser.ParseLines: a value is kept as the numeral text that `float(numbers[0])` converts, because floating point is not modelled.
- Case mapping covers ASCII and the Latin-1 letters whose partner is one Latin-1 character. 'ß', 'ÿ' and 'µ' are left unchanged although Python upper-cases them to "SS", 'Ÿ' and 'Μ'. 'Œ', 'œ', 'Ÿ' and other letters outside Latin-1 are left unchanged as well. Digit tests cover ASCII digits only.
- ChatContext.ExtraOf and LabResultsParser.NormalizeResults: a JSON `null` is not represented, so a key present with `null` reads as an absent key. In Python `results.get("test_name", "Unknown")` then gives `None`, and stored `"results": None` makes `_load_patient_context` raise at `None.items()` before `chat`'s `try`. A `results_data` that is not an object is not represented either.
- Medication `is_active` is a nullable column with default True, modelled as a `bool` that reads NULL as false. The `== True` filter of the store and the truthiness tests of the formatters treat NULL that way too; only the JSON of the evolution prompt, which is not modelled, would show `null`.
- MedicalChat.MedicalChat.GetHistory: Python returns the stored list itself, so a caller that mutates it changes the stored history. The model returns the history as a value, so that aliasing is not captured.
- Summarizer.Overview and Summarizer.LastVisitInfo: `if latest_visit:` treats an empty dictionary as no latest visit, while the model tests only for presence. An empty dictionary has no date, so LastVisitInfo agrees; the fallback would add "Dernière consultation récente." for it where Python does not.
- `print` and logging are not modelled: they do not change results.
- Streamlit rendering, session state and file uploads are not modelled. Only the listed deterministic blocks of the front end are.
- Concurrent chats are not modelled: turns are sequential.
- `parse_json_results` is file I/O and is not modelled.
- `parse_pdf_results` is a stub that raises `NotImplementedError`, so it is not modelled.
- Translations.Format: covers fields that are plain names. Index or attribute fields, conversions and format specifications are not modelled.
- StreamlitApp.GroupByWellOrdered: states the key order only as insertion order with distinct keys. Which key comes first is not stated.
- Summarizer.GeneratePatientOverview: medications, visits and tests are dictionary inputs. The `isinstance`/`getattr` branches for ORM objects are not modelled.
- The `Summarizer` and `PatternAnalyzer` constructors only store configuration and the vector store. They are not modelled.
