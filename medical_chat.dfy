/**
 * The chat service over a patient's record (`MedicalChat`): per-patient
 * conversation history, the request sent to the language model (system
 * prompt, record text, optional vector-search excerpts, the last ten history
 * messages, the question), and the post-processing of the model's answer.
 *
 * The language model and the vector store are parameters: a model is a
 * function from the request to the answer text or the message of the
 * exception it raised, and a vector store is a search function that may
 * raise as well.
 */
module MedicalChat {
  import opened Wrappers
  import opened Text
  import opened Sorting
  import opened Lists
  import opened Records
  import opened ChatContext

  datatype Role = System | User | Assistant

  datatype Message = Message(role: Role, content: string)

  /** The "document" texts of the hits of `search_all`, per collection. */
  datatype SearchHits = SearchHits(conversations: seq<string>, medicalNotes: seq<string>)

  /** `vector_store.search_all(query, patient_id, n_results)` */
  type VectorSearch = (string, int, nat) -> Outcome<SearchHits>

  /** `ollama.chat(model, messages, options)["message"]["content"]` */
  type LanguageModel = seq<Message> -> Outcome<string>

  datatype ContextUsed = ContextUsed(visitsCount: nat, medicationsCount: nat, testsCount: nat, vectorSearchUsed: bool)

  /** The dictionary `chat` returns; `contextUsed` is absent on errors. */
  datatype ChatReply = ChatReply(response: string, error: bool, contextUsed: Option<ContextUsed>)

  const NotFoundReply := ChatReply("Erreur: Patient non trouvé.", true, None)

  const ErrorPrefix := "Erreur lors de la génération de la réponse: "

  // ---------------------------------------------------------------------
  // The request
  // ---------------------------------------------------------------------

  const Instructions :=
    "INSTRUCTIONS:\n"
    + "1. Répondez UNIQUEMENT basé sur les informations du dossier fourni\n"
    + "2. Si une information n'est pas disponible, dites-le clairement\n"
    + "3. Soyez concis mais complet\n"
    + "4. Utilisez un langage médical professionnel\n"
    + "5. Citez les dates et sources quand pertinent\n"
    + "6. Répondez en français\n\n"
    + "Vous avez accès à:\n"
    + "- Historique complet des consultations\n"
    + "- Médicaments (actifs et passés)\n"
    + "- Résultats de tests (analyses, IRM, scanners, etc.)\n\n"
    + "Répondez aux questions du médecin de manière précise et professionnelle."

  /** The opening of the system prompt. */
  const Identity := "Vous êtes un assistant médical professionnel aidant un médecin à interroger le dossier médical d'un patient.\n\n"
    + "CONTEXTE DU PATIENT:\n"

  const NameCaption := "Nom: "
  const CodeCaption := "ID Patient: "

  /** The identity lines of the system prompt. */
  function PromptHeader(ctx: PatientContext): string {
    Identity
    + CaptionLine(NameCaption, ctx.patient.name)
    + CaptionLine(CodeCaption, ctx.patient.code)
    + CaptionLine(BirthCaption, Show(ctx.patient.dateOfBirth))
    + CaptionLine(SexCaption, ctx.patient.gender) + "\n"
  }

  /** `f"{caption}{value}\n"` */
  function CaptionLine(caption: string, value: string): string {
    caption + value + "\n"
  }

  /** One count line of the system prompt: `f"{caption}{n}\n"`. */
  function CountLine(caption: string, n: nat): string {
    caption + NatToString(n) + "\n"
  }

  const CountsTitle := "RÉSUMÉ DU DOSSIER:\n"
  const VisitsCountCaption := "- Total consultations: "
  const ActiveCountCaption := "- Médicaments actifs: "
  const TestsCountCaption := "- Résultats de tests: "

  function PromptCounts(ctx: PatientContext): string {
    CountsTitle
    + CountLine(VisitsCountCaption, ctx.totalVisits)
    + CountLine(ActiveCountCaption, ctx.activeMedications)
    + CountLine(TestsCountCaption, ctx.totalTests)
    + "\n"
  }

  /** `MedicalChat._build_system_prompt` */
  function SystemPrompt(ctx: PatientContext): string {
    PromptHeader(ctx) + PromptCounts(ctx) + Instructions
  }

  /** Each of three lines written in the middle of a text is contained in it. */
  lemma LinesInside(before: string, title: string, v: string, m: string, t: string, after: string)
    ensures Contains(before + (title + v + m + t + "\n") + after, v)
    ensures Contains(before + (title + v + m + t + "\n") + after, m)
    ensures Contains(before + (title + v + m + t + "\n") + after, t)
  {
    var all := before + (title + v + m + t + "\n") + after;
    var block := title + v + m + t + "\n";
    ContainsHalves(before + block, after);
    ContainsHalves(before, block);
    ContainsTrans(all, before + block, block);
    ContainsHalves(title + v + m + t, "\n");
    ContainsTrans(all, block, title + v + m + t);
    ContainsHalves(title + v + m, t);
    ContainsTrans(all, title + v + m + t, t);
    ContainsTrans(all, title + v + m + t, title + v + m);
    ContainsHalves(title + v, m);
    ContainsTrans(all, title + v + m, m);
    ContainsTrans(all, title + v + m, title + v);
    ContainsHalves(title, v);
    ContainsTrans(all, title + v, v);
  }

  /** The system prompt reports the three record counts. */
  lemma SystemPromptReportsCounts(ctx: PatientContext)
    ensures Contains(SystemPrompt(ctx), CountLine(VisitsCountCaption, ctx.totalVisits))
    ensures Contains(SystemPrompt(ctx), CountLine(ActiveCountCaption, ctx.activeMedications))
    ensures Contains(SystemPrompt(ctx), CountLine(TestsCountCaption, ctx.totalTests))
  {
    LinesInside(PromptHeader(ctx), CountsTitle,
      CountLine(VisitsCountCaption, ctx.totalVisits),
      CountLine(ActiveCountCaption, ctx.activeMedications),
      CountLine(TestsCountCaption, ctx.totalTests),
      Instructions);
  }

  /** One excerpt line: `f"{i}. {doc[:300]}...\n"`. */
  function ExcerptLine(i: nat, doc: string): string {
    NatToString(i) + ". " + Take(doc, 300) + "...\n"
  }

  /** The excerpts numbered from 1, in order. */
  function Excerpts(docs: seq<string>): string {
    if docs == [] then "" else Excerpts(docs[..|docs| - 1]) + ExcerptLine(|docs|, docs[|docs| - 1])
  }

  lemma ExcerptsStep(docs: seq<string>, i: nat)
    requires i < |docs|
    ensures Excerpts(docs[..i + 1]) == Excerpts(docs[..i]) + ExcerptLine(i + 1, docs[i])
  {
    assert docs[..i + 1][..i] == docs[..i];
  }

  const ConversationsTitle := "\n\nConversations pertinentes:\n"
  const NotesTitle := "\n\nNotes médicales pertinentes:\n"

  /** The text made of the search hits: at most two excerpts of each collection. */
  function HitsText(hits: SearchHits): string {
    (if hits.conversations != [] then ConversationsTitle + Excerpts(Take(hits.conversations, 2)) else "")
    + (if hits.medicalNotes != [] then NotesTitle + Excerpts(Take(hits.medicalNotes, 2)) else "")
  }

  /** What `_search_relevant_context` returns: "" without a store and when the search raises. */
  function RelevantContext(store: Option<VectorSearch>, query: string, patientId: int): string {
    match store
    case None => ""
    case Some(search) =>
      match search(query, patientId, 3)
      case Raised(_) => ""
      case Success(hits) => HitsText(hits)
  }

  /** `vector_search_used` is reported exactly when the search succeeded with at least one hit. */
  lemma VectorSearchUsedIff(store: Option<VectorSearch>, query: string, patientId: int)
    ensures RelevantContext(store, query, patientId) != "" <==>
      && store.Some?
      && store.value(query, patientId, 3).Success?
      && (store.value(query, patientId, 3).value.conversations != []
          || store.value(query, patientId, 3).value.medicalNotes != [])
  {
    if store.Some? && store.value(query, patientId, 3).Success? {
      var hits := store.value(query, patientId, 3).value;
      var a := if hits.conversations != [] then ConversationsTitle + Excerpts(Take(hits.conversations, 2)) else "";
      var b := if hits.medicalNotes != [] then NotesTitle + Excerpts(Take(hits.medicalNotes, 2)) else "";
      assert |HitsText(hits)| == |a| + |b|;
    }
  }

  /** `history[-10:]`: the last ten messages. */
  function Window(history: seq<Message>): (r: seq<Message>)
    ensures |r| == if |history| < 10 then |history| else 10
    ensures r == history[|history| - |r|..]
  {
    if |history| <= 10 then history else history[|history| - 10..]
  }

  /** The messages `chat` sends: system text, the recent history, then the question. */
  function Request(system: string, history: seq<Message>, userMessage: string): (r: seq<Message>)
    ensures |r| == |Window(history)| + 2
    ensures r[0] == Message(System, system)
    ensures r[1..|r| - 1] == Window(history)
    ensures r[|r| - 1] == Message(User, userMessage)
  {
    [Message(System, system)] + Window(history) + [Message(User, userMessage)]
  }

  // ---------------------------------------------------------------------
  // The history
  // ---------------------------------------------------------------------

  const MaxHistory := 20

  /** The stored exchange appended, then only the last 20 messages kept. */
  function AppendTurn(history: seq<Message>, userMessage: string, answer: string): (r: seq<Message>)
    ensures |r| == if |history| + 2 <= MaxHistory then |history| + 2 else MaxHistory
    ensures r == (history + [Message(User, userMessage), Message(Assistant, answer)])[|history| + 2 - |r|..]
  {
    var grown := history + [Message(User, userMessage), Message(Assistant, answer)];
    if |grown| > MaxHistory then grown[|grown| - MaxHistory..] else grown
  }

  /** The role at position `k` of a history made of whole exchanges. */
  function RoleAt(k: nat): Role {
    if k % 2 == 0 then User else Assistant
  }

  /** User and assistant messages alternate, starting with the user. */
  ghost predicate Alternating(h: seq<Message>) {
    forall k :: 0 <= k < |h| ==> h[k].role == RoleAt(k)
  }

  /** Whole exchanges: alternating, of even length, at most 20 messages. */
  ghost predicate Exchanges(h: seq<Message>) {
    |h| % 2 == 0 && |h| <= MaxHistory && Alternating(h)
  }

  /** Dropping an even number of leading messages keeps the alternation. */
  lemma AlternatingDrop(h: seq<Message>, d: nat)
    requires Alternating(h) && d <= |h| && d % 2 == 0
    ensures Alternating(h[d..])
  {
    forall k | 0 <= k < |h| - d ensures h[d..][k].role == RoleAt(k) {
      assert (d + k) % 2 == k % 2;
    }
  }

  /** Appending a question and its answer to whole exchanges keeps the alternation. */
  lemma AlternatingAppend(h: seq<Message>, userMessage: string, answer: string)
    requires Alternating(h) && |h| % 2 == 0
    ensures Alternating(h + [Message(User, userMessage), Message(Assistant, answer)])
  {
    var grown := h + [Message(User, userMessage), Message(Assistant, answer)];
    forall k | 0 <= k < |grown| ensures grown[k].role == RoleAt(k) {
      if k >= |h| {
        assert k == |h| || k == |h| + 1;
      }
    }
  }

  /** Appending an exchange keeps the history whole exchanges, and the newest exchange is the one just added. */
  lemma AppendTurnKeepsExchanges(history: seq<Message>, userMessage: string, answer: string)
    requires Exchanges(history)
    ensures Exchanges(AppendTurn(history, userMessage, answer))
    ensures var r := AppendTurn(history, userMessage, answer);
      r[|r| - 2] == Message(User, userMessage) && r[|r| - 1] == Message(Assistant, answer)
  {
    var grown := history + [Message(User, userMessage), Message(Assistant, answer)];
    AlternatingAppend(history, userMessage, answer);
    if |grown| > MaxHistory {
      AlternatingDrop(grown, |grown| - MaxHistory);
    }
  }

  /** The ten messages the request carries are five whole exchanges (or all of a shorter history). */
  lemma WindowIsExchanges(history: seq<Message>)
    requires Exchanges(history)
    ensures Exchanges(Window(history))
  {
    AlternatingDrop(history, |history| - |Window(history)|);
  }

  /** The history a call starts from: `conversation_history[patient_id]` is created empty if absent. */
  function Started(histories: map<int, seq<Message>>, patientId: int): (r: map<int, seq<Message>>)
    ensures patientId in r
    ensures r.Keys == histories.Keys + {patientId}
    ensures forall p :: p in histories ==> r[p] == histories[p]
    ensures patientId !in histories ==> r[patientId] == []
  {
    if patientId in histories then histories else histories[patientId := []]
  }

  /**
   * The history map a turn leaves: the started map, with the question and
   * its answer appended to the patient's history when the turn succeeded.
   */
  function StoredHistories(histories: map<int, seq<Message>>, patientId: int, exchange: Option<(string, string)>): map<int, seq<Message>> {
    var started := Started(histories, patientId);
    match exchange
    case None => started
    case Some((question, answer)) => started[patientId := AppendTurn(started[patientId], question, answer)]
  }

  /** A turn keeps every stored history made of whole exchanges. */
  lemma StoredKeepsExchanges(histories: map<int, seq<Message>>, patientId: int, exchange: Option<(string, string)>)
    requires forall p :: p in histories ==> Exchanges(histories[p])
    ensures forall p :: p in StoredHistories(histories, patientId, exchange) ==> Exchanges(StoredHistories(histories, patientId, exchange)[p])
  {
    var started := Started(histories, patientId);
    var stored := StoredHistories(histories, patientId, exchange);
    forall p | p in stored ensures Exchanges(stored[p]) {
      if p != patientId {
        assert stored[p] == histories[p];
      } else if exchange.Some? {
        assert Exchanges(started[patientId]);
        AppendTurnKeepsExchanges(started[patientId], exchange.value.0, exchange.value.1);
      } else {
        assert Exchanges(started[patientId]);
      }
    }
  }

  /**
   * Storing an exchange: the patient's history ends with the question and
   * the answer, holds at most 20 messages of which only the oldest were
   * dropped, and every other patient's history is as it was.
   */
  lemma StoreExchange(histories: map<int, seq<Message>>, patientId: int, question: string, answer: string)
    ensures var past := if patientId in histories then histories[patientId] else [];
      var stored := StoredHistories(histories, patientId, Some((question, answer)));
      var h := stored[patientId];
      && stored.Keys == histories.Keys + {patientId}
      && (forall p :: p in histories && p != patientId ==> stored[p] == histories[p])
      && 2 <= |h| <= MaxHistory
      && h[|h| - 2] == Message(User, question)
      && h[|h| - 1] == Message(Assistant, answer)
      && h == (past + [Message(User, question), Message(Assistant, answer)])[|past| + 2 - |h|..]
  {
    var started := Started(histories, patientId);
    var past := started[patientId];
    var grown := past + [Message(User, question), Message(Assistant, answer)];
    var h := AppendTurn(past, question, answer);
    assert past == if patientId in histories then histories[patientId] else [];
    assert StoredHistories(histories, patientId, Some((question, answer))) == started[patientId := h];
    assert h[|h| - 2] == grown[|grown| - 2];
    assert h[|h| - 1] == grown[|grown| - 1];
  }

  // ---------------------------------------------------------------------
  // The answer
  // ---------------------------------------------------------------------

  /** The fixed answer after its opening "J", in chunks of at most 16 characters. */
  const SubstituteTail1 := "e n'ai pas pu g"
  const SubstituteTail2 := "énérer de répons"
  const SubstituteTail3 := "e. Veuillez refo"
  const SubstituteTail4 := "rmuler votre que"
  const SubstituteTail5 := "stion ou vérifie"
  const SubstituteTail6 := "r que le patient"
  const SubstituteTail7 := " a des données d"
  const SubstituteTail8 := "ans son dossier."
  const SubstituteTail := SubstituteTail1 + SubstituteTail2 + SubstituteTail3 + SubstituteTail4
    + SubstituteTail5 + SubstituteTail6 + SubstituteTail7 + SubstituteTail8

  /** The answer given in place of an empty or very short one. */
  const Substitute := "J" + SubstituteTail

  const RefusalPhrases: seq<string> := [
    "je suis désolé",
    "je ne peux pas",
    "je ne peux pas répondre",
    "i'm sorry",
    "i cannot",
    "i cannot respond",
    "i'm sorry, but i cannot"]

  /** `any(phrase in answer.lower() for phrase in refusal_phrases)` */
  predicate HasRefusal(answer: string) {
    exists k | 0 <= k < |RefusalPhrases| :: Contains(Lower(answer), RefusalPhrases[k])
  }

  /** The characters of the substitute after its opening "J". */
  const TailAlphabet: set<char> := {' ', '\'', '.', 'V', 'a', 'd', 'e', 'f', 'g', 'i', 'l', 'm',
    'n', 'o', 'p', 'q', 'r', 's', 't', 'u', 'v', 'z', 'é'}

  /** The same characters lower-cased: none of them is an 'x', 'y', 'c' or 'j'. */
  const LowerTailAlphabet: set<char> := {' ', '\'', '.', 'a', 'd', 'e', 'f', 'g', 'i', 'l', 'm',
    'n', 'o', 'p', 'q', 'r', 's', 't', 'u', 'v', 'z', 'é'}

  /** Each chunk of the tail is written in `TailAlphabet`. */
  lemma TailChunksAlphabet()
    ensures OnlyFrom(SubstituteTail1, TailAlphabet) && OnlyFrom(SubstituteTail2, TailAlphabet)
    ensures OnlyFrom(SubstituteTail3, TailAlphabet) && OnlyFrom(SubstituteTail4, TailAlphabet)
    ensures OnlyFrom(SubstituteTail5, TailAlphabet) && OnlyFrom(SubstituteTail6, TailAlphabet)
    ensures OnlyFrom(SubstituteTail7, TailAlphabet) && OnlyFrom(SubstituteTail8, TailAlphabet)
  {
  }

  /** The tail of the substitute has "n" at position 2 and only characters of `TailAlphabet`. */
  lemma TailShape()
    ensures |SubstituteTail| == 127 && SubstituteTail[2] == 'n'
    ensures OnlyFrom(SubstituteTail, TailAlphabet)
  {
    TailChunksAlphabet();
    var a := TailAlphabet;
    OnlyFromConcat(SubstituteTail1, SubstituteTail2, a);
    OnlyFromConcat(SubstituteTail1 + SubstituteTail2, SubstituteTail3, a);
    OnlyFromConcat(SubstituteTail1 + SubstituteTail2 + SubstituteTail3, SubstituteTail4, a);
    OnlyFromConcat(SubstituteTail1 + SubstituteTail2 + SubstituteTail3 + SubstituteTail4, SubstituteTail5, a);
    OnlyFromConcat(SubstituteTail1 + SubstituteTail2 + SubstituteTail3 + SubstituteTail4 + SubstituteTail5, SubstituteTail6, a);
    OnlyFromConcat(SubstituteTail1 + SubstituteTail2 + SubstituteTail3 + SubstituteTail4 + SubstituteTail5 + SubstituteTail6, SubstituteTail7, a);
    OnlyFromConcat(SubstituteTail1 + SubstituteTail2 + SubstituteTail3 + SubstituteTail4 + SubstituteTail5 + SubstituteTail6 + SubstituteTail7, SubstituteTail8, a);
  }

  /** Lower-casing maps `TailAlphabet` into `LowerTailAlphabet`. */
  lemma LowerInAlphabet(ch: char)
    requires ch in TailAlphabet
    ensures LowerChar(ch) in LowerTailAlphabet
  {
  }

  /** Lower-casing keeps a text in the alphabet. */
  lemma LowerTail(tail: string)
    requires OnlyFrom(tail, TailAlphabet)
    ensures OnlyFrom(Lower(tail), LowerTailAlphabet)
  {
    forall i | 0 <= i < |tail| ensures Lower(tail)[i] in LowerTailAlphabet {
      LowerInAlphabet(tail[i]);
    }
  }

  /** A string is not contained where one of its characters is missing. */
  lemma MissingChar(s: string, p: string, k: nat)
    requires k < |p| && p[k] !in s
    ensures !Contains(s, p)
  {
    if Contains(s, p) {
      ContainsChar(s, p, k);
    }
  }

  /** The English phrases each need a 'y' or a 'c'. */
  lemma NoEnglishRefusal(low: string)
    requires 'y' !in low && 'c' !in low
    ensures forall k | 3 <= k < |RefusalPhrases| :: !Contains(low, RefusalPhrases[k])
  {
    MissingChar(low, RefusalPhrases[3], 8);
    MissingChar(low, RefusalPhrases[4], 2);
    MissingChar(low, RefusalPhrases[5], 2);
    MissingChar(low, RefusalPhrases[6], 8);
  }

  /** "je ne peux pas" needs an 'x'; "je suis désolé" could only stand at the front. */
  lemma NoFrenchRefusal(low: string)
    requires |low| > 3 && low[3] == 'n' && 'x' !in low && 'j' !in low[1..]
    ensures forall k | 0 <= k < 3 :: !Contains(low, RefusalPhrases[k])
  {
    MissingChar(low, RefusalPhrases[1], 9);
    MissingChar(low, RefusalPhrases[2], 9);
    ContainsOnlyAtStart(low, RefusalPhrases[0]);
  }

  /**
   * No refusal phrase occurs in a lower-cased text that opens with "j", has
   * "n" at position 3 and is otherwise written in `LowerTailAlphabet`.
   */
  lemma NoRefusalIn(low: string)
    requires |low| > 3 && low[0] == 'j' && low[3] == 'n'
    requires OnlyFrom(low[1..], LowerTailAlphabet)
    ensures forall k | 0 <= k < |RefusalPhrases| :: !Contains(low, RefusalPhrases[k])
  {
    forall i | 0 <= i < |low| ensures low[i] != 'x' && low[i] != 'y' && low[i] != 'c' && (i > 0 ==> low[i] != 'j') {
      if i > 0 { assert low[i] == low[1..][i - 1]; }
    }
    NoEnglishRefusal(low);
    NoFrenchRefusal(low);
  }

  /** The substitute answer is not itself taken for a refusal. */
  lemma SubstituteIsNoRefusal()
    ensures !HasRefusal(Substitute)
  {
    TailShape();
    LowerTail(SubstituteTail);
    var low := Lower(Substitute);
    assert low[1..] == Lower(SubstituteTail);
    NoRefusalIn(low);
  }

  /** `any(word in lower for word in words)` */
  predicate Mentions(lower: string, words: seq<string>) {
    exists k | 0 <= k < |words| :: Contains(lower, words[k])
  }

  const MedicationWords := ["médicament", "medication"]
  const TestWords := ["test", "résultat", "result"]
  const DiagnosisWords := ["diagnostic", "diagnosis"]
  const EvolutionWords := ["évolution", "evolution", "pattern"]

  function MedLine(m: MedInfo): string {
    "- " + m.name + " (" + m.dosage + ") - " + m.frequency
  }

  function TestLine(t: TestInfo): string {
    "- " + t.name + " (" + t.testType + ") - " + t.date
  }

  const MedsHeading := "Médicaments actifs:\n"
  const NoActiveMeds := "Aucun" + " médicament actif trouvé dans le dossier."
  const TestsHeading := "Tests récents:\n"
  const NoTests := "Aucun" + " résultat de test trouvé dans le dossier."
  const NoVisits := "Aucune consultation trouvée dans le dossier."
  const NoDiagnosis := "Aucun diagnostic trouvé dans les consultations récentes."
  const EvolutionAdvice := "Pour une analyse détaillée de l'évolution, veuillez consulter l'historique complet."
  const TooFewVisits := "Pas assez de consultations pour analyser l'évolution (minimum 2 requises)."
  const RephraseAdvice := "Veuillez reformuler votre question de manière plus spécifique."
  const EmptyRecord := "Le dossier du patient semble vide. Veuillez ajouter des consultations, médicaments ou tests."

  const EvolutionLead := "Le patient a "
  const EvolutionMiddle := " consultations dans son dossier. "
  const CountsLead := "Le dossier contient "
  const VisitsWord := " consultation(s), "
  const MedicationsWord := " médicament(s), et "
  const TestsWord := " test(s). "
  const DiagnosisLead := "Dernier diagnostic ("

  /** "Le patient a N consultations dans son dossier. ..." */
  function EvolutionText(visits: nat): string {
    EvolutionLead + NatToString(visits) + EvolutionMiddle + EvolutionAdvice
  }

  /** "Le dossier contient N consultation(s), M médicament(s), et K test(s). ..." */
  function CountsText(visits: nat, medications: nat, tests: nat): string {
    CountsLead + NatToString(visits) + VisitsWord
    + NatToString(medications) + MedicationsWord + NatToString(tests) + TestsWord
    + RephraseAdvice
  }

  /**
   * `MedicalChat._generate_fallback_response`: the first topic the question
   * names decides the answer (medications, then tests, then diagnosis, then
   * evolution), which is built from the record alone.
   */
  function FallbackResponse(userMessage: string, ctx: PatientContext): (r: string)
    ensures |r| >= 10
  {
    var lower := Lower(userMessage);
    if Mentions(lower, MedicationWords) then
      var active := Filter(ctx.medications, IsCurrent);
      if active != [] then MedsHeading + Join(MapSeq(Take(active, 5), MedLine), "\n")
      else NoActiveMeds
    else if Mentions(lower, TestWords) then
      if ctx.tests != [] then TestsHeading + Join(MapSeq(Take(ctx.tests, 5), TestLine), "\n")
      else NoTests
    else if Mentions(lower, DiagnosisWords) then
      if ctx.visits == [] then NoVisits
      else if ctx.visits[0].diagnosis != "" then DiagnosisLead + ctx.visits[0].date + "): " + ctx.visits[0].diagnosis
      else NoDiagnosis
    else if Mentions(lower, EvolutionWords) then
      if |ctx.visits| >= 2 then EvolutionText(|ctx.visits|)
      else TooFewVisits
    else if ctx.visits != [] || ctx.medications != [] || ctx.tests != [] then
      CountsText(|ctx.visits|, |ctx.medications|, |ctx.tests|)
    else EmptyRecord
  }

  /** Asked about medications, the fallback lists each of the first five active medications. */
  lemma FallbackListsActiveMedications(userMessage: string, ctx: PatientContext, k: nat)
    requires Mentions(Lower(userMessage), MedicationWords)
    requires k < |Filter(ctx.medications, IsCurrent)| && k < 5
    ensures Contains(FallbackResponse(userMessage, ctx), MedLine(Filter(ctx.medications, IsCurrent)[k]))
  {
    var active := Filter(ctx.medications, IsCurrent);
    var lines := MapSeq(Take(active, 5), MedLine);
    JoinContains(lines, "\n", k);
    ContainsInfix(MedsHeading, Join(lines, "\n"), "");
    assert MedsHeading + Join(lines, "\n") + "" == FallbackResponse(userMessage, ctx);
    ContainsTrans(FallbackResponse(userMessage, ctx), Join(lines, "\n"), lines[k]);
  }

  /** Asked about tests (and not medications), the fallback lists each of the first five tests. */
  lemma FallbackListsTests(userMessage: string, ctx: PatientContext, k: nat)
    requires !Mentions(Lower(userMessage), MedicationWords) && Mentions(Lower(userMessage), TestWords)
    requires k < |ctx.tests| && k < 5
    ensures Contains(FallbackResponse(userMessage, ctx), TestLine(ctx.tests[k]))
  {
    var lines := MapSeq(Take(ctx.tests, 5), TestLine);
    JoinContains(lines, "\n", k);
    ContainsInfix(TestsHeading, Join(lines, "\n"), "");
    assert TestsHeading + Join(lines, "\n") + "" == FallbackResponse(userMessage, ctx);
    ContainsTrans(FallbackResponse(userMessage, ctx), Join(lines, "\n"), lines[k]);
  }

  /** Asked about medications, a record without an active medication gets the "none active" notice. */
  lemma FallbackNoActiveMedications(userMessage: string, ctx: PatientContext)
    requires Mentions(Lower(userMessage), MedicationWords)
    ensures Filter(ctx.medications, IsCurrent) == [] <==> FallbackResponse(userMessage, ctx) == NoActiveMeds
  {
    var active := Filter(ctx.medications, IsCurrent);
    if active != [] {
      var body := MedsHeading + Join(MapSeq(Take(active, 5), MedLine), "\n");
      assert body[0] == MedsHeading[0] == 'M';
      assert NoActiveMeds[0] == 'A';
    }
  }

  /** Asked about tests and not medications, a record without tests gets the "no test" notice. */
  lemma FallbackNoTests(userMessage: string, ctx: PatientContext)
    requires !Mentions(Lower(userMessage), MedicationWords) && Mentions(Lower(userMessage), TestWords)
    ensures ctx.tests == [] <==> FallbackResponse(userMessage, ctx) == NoTests
  {
    if ctx.tests != [] {
      var body := TestsHeading + Join(MapSeq(Take(ctx.tests, 5), TestLine), "\n");
      assert body[0] == TestsHeading[0] == 'T';
      assert NoTests[0] == 'A';
    }
  }

  /**
   * Asked about a diagnosis and neither medications nor tests, the fallback
   * reports the diagnosis of the first (newest) visit with its date, or says
   * that there is no visit or no diagnosis.
   */
  lemma FallbackDiagnosis(userMessage: string, ctx: PatientContext)
    requires !Mentions(Lower(userMessage), MedicationWords) && !Mentions(Lower(userMessage), TestWords)
    requires Mentions(Lower(userMessage), DiagnosisWords)
    ensures ctx.visits == [] ==> FallbackResponse(userMessage, ctx) == NoVisits
    ensures ctx.visits != [] && ctx.visits[0].diagnosis == "" ==> FallbackResponse(userMessage, ctx) == NoDiagnosis
    ensures ctx.visits != [] && ctx.visits[0].diagnosis != "" ==>
              FallbackResponse(userMessage, ctx) == DiagnosisLead + ctx.visits[0].date + "): " + ctx.visits[0].diagnosis
  {
  }

  /**
   * Asked about the evolution and none of the earlier topics, the fallback
   * gives the visit count exactly when there are at least two visits.
   */
  lemma FallbackEvolution(userMessage: string, ctx: PatientContext)
    requires !Mentions(Lower(userMessage), MedicationWords) && !Mentions(Lower(userMessage), TestWords)
    requires !Mentions(Lower(userMessage), DiagnosisWords) && Mentions(Lower(userMessage), EvolutionWords)
    ensures |ctx.visits| >= 2 ==> FallbackResponse(userMessage, ctx) == EvolutionText(|ctx.visits|)
    ensures |ctx.visits| < 2 ==> FallbackResponse(userMessage, ctx) == TooFewVisits
  {
  }

  /**
   * A question naming no known topic gets the three counts of a non-empty
   * record, and the empty-record notice otherwise.
   */
  lemma FallbackCounts(userMessage: string, ctx: PatientContext)
    requires !Mentions(Lower(userMessage), MedicationWords) && !Mentions(Lower(userMessage), TestWords)
    requires !Mentions(Lower(userMessage), DiagnosisWords) && !Mentions(Lower(userMessage), EvolutionWords)
    ensures ctx.visits != [] || ctx.medications != [] || ctx.tests != [] ==>
              FallbackResponse(userMessage, ctx) == CountsText(|ctx.visits|, |ctx.medications|, |ctx.tests|)
    ensures ctx.visits == [] && ctx.medications == [] && ctx.tests == [] ==> FallbackResponse(userMessage, ctx) == EmptyRecord
  {
  }

  /**
   * For a loaded record, a diagnosis question is answered from a stored
   * visit with the latest date: the one the loader puts first.
   */
  lemma FallbackDiagnosisFromNewestVisit(userMessage: string, store: Store, id: int) returns (v: Visit)
    requires GetPatient(store, id).Some?
    requires !Mentions(Lower(userMessage), MedicationWords) && !Mentions(Lower(userMessage), TestWords)
    requires Mentions(Lower(userMessage), DiagnosisWords)
    requires LoadedContext(store, id).value.visits != []
    requires LoadedContext(store, id).value.visits[0].diagnosis != ""
    ensures v in store.rows[id].visits
    ensures forall w :: w in store.rows[id].visits ==> w.visitDate.key <= v.visitDate.key
    ensures FallbackResponse(userMessage, LoadedContext(store, id).value)
            == DiagnosisLead + v.visitDate.text + "): " + OrElse(v.diagnosis, "")
  {
    var ctx := LoadedContext(store, id).value;
    var sorted := SortDesc(GetPatientVisits(store, id), VisitKey);
    assert ctx.visits == MapSeq(sorted, ToVisitInfo);
    v := sorted[0];
    assert ctx.visits[0] == ToVisitInfo(v);
    assert multiset(sorted) == multiset(store.rows[id].visits);
    assert v in multiset(store.rows[id].visits);
    forall w | w in store.rows[id].visits
      ensures w.visitDate.key <= v.visitDate.key
    {
      assert w in multiset(sorted);
      var k := IndexOf(sorted, w);
      if k > 0 {
        assert VisitKey(sorted[0]) >= VisitKey(sorted[k]);
      }
    }
    FallbackDiagnosis(userMessage, ctx);
  }

  /** For a record with no visit, medication or test, every fallback answer reports that nothing was found. */
  lemma FallbackOnEmptyRecord(userMessage: string, ctx: PatientContext)
    requires ctx.visits == [] && ctx.medications == [] && ctx.tests == []
    ensures FallbackResponse(userMessage, ctx) in {NoActiveMeds, NoTests, NoVisits, TooFewVisits, EmptyRecord}
  {
    assert Filter(ctx.medications, IsCurrent) == [];
  }

  /** The answer `chat` keeps after stripping, the short-answer substitute and the refusal check. */
  function FinalAnswer(content: string, userMessage: string, ctx: PatientContext): (r: string)
    ensures |r| >= 10
  {
    var stripped := Strip(content);
    var answer := if stripped == [] || |stripped| < 10 then Substitute else stripped;
    if HasRefusal(answer) && |answer| < 200 then FallbackResponse(userMessage, ctx) else answer
  }

  /** The answer post-processing of `chat`. */
  method PostProcess(content: string, userMessage: string, ctx: PatientContext) returns (answer: string)
    ensures answer == FinalAnswer(content, userMessage, ctx)
  {
    answer := Strip(content);
    if answer == [] || |answer| < 10 {
      answer := Substitute;
    }
    if HasRefusal(answer) && |answer| < 200 {
      answer := FallbackResponse(userMessage, ctx);
    }
  }

  /** An empty or very short reply becomes the substitute answer, never the fallback. */
  lemma ShortReplySubstituted(content: string, userMessage: string, ctx: PatientContext)
    requires |Strip(content)| < 10
    ensures FinalAnswer(content, userMessage, ctx) == Substitute
  {
    SubstituteIsNoRefusal();
  }

  /** A reply of 200 characters or more is kept as stripped, refusal phrase or not. */
  lemma LongReplyKept(content: string, userMessage: string, ctx: PatientContext)
    requires |Strip(content)| >= 200
    ensures FinalAnswer(content, userMessage, ctx) == Strip(content)
  {
  }

  /** A reply of 10 to 199 characters is replaced by the fallback exactly when it holds a refusal phrase. */
  lemma MidReplyRefusal(content: string, userMessage: string, ctx: PatientContext)
    requires 10 <= |Strip(content)| < 200
    ensures HasRefusal(Strip(content)) ==> FinalAnswer(content, userMessage, ctx) == FallbackResponse(userMessage, ctx)
    ensures !HasRefusal(Strip(content)) ==> FinalAnswer(content, userMessage, ctx) == Strip(content)
  {
  }

  // ---------------------------------------------------------------------
  // One turn of the conversation
  // ---------------------------------------------------------------------

  /** What one call of `chat` gives back, what it sent the model and the history map it leaves. */
  datatype Turn = Turn(reply: ChatReply, request: Option<seq<Message>>, histories: map<int, seq<Message>>)

  /** The vector-search text of a turn: searched only when asked for and a store is configured. */
  function TurnRelevant(vectorStore: Option<VectorSearch>, userMessage: string, patientId: int, useVectorSearch: bool): string {
    if useVectorSearch then RelevantContext(vectorStore, userMessage, patientId) else ""
  }

  /** The messages a turn sends for a loaded record `ctx`. */
  function TurnRequest(histories: map<int, seq<Message>>, vectorStore: Option<VectorSearch>, patientId: int,
                       userMessage: string, useVectorSearch: bool, ctx: PatientContext): seq<Message>
  {
    var system := SystemPrompt(ctx) + ContextText(ctx, 10) + TurnRelevant(vectorStore, userMessage, patientId, useVectorSearch);
    Request(system, Started(histories, patientId)[patientId], userMessage)
  }

  /** The answer dictionary of a successful turn. */
  function SuccessReply(answer: string, ctx: PatientContext, relevant: string): ChatReply {
    ChatReply(answer, false, Some(ContextUsed(|ctx.visits|, |ctx.medications|, |ctx.tests|, relevant != "")))
  }

  /** The outcome of `MedicalChat.chat` from the history map it starts with. */
  function ChatTurn(histories: map<int, seq<Message>>, vectorStore: Option<VectorSearch>, patientId: int,
                    userMessage: string, useVectorSearch: bool, store: Store, model: LanguageModel): Turn
  {
    match LoadedContext(store, patientId)
    case None => Turn(NotFoundReply, None, StoredHistories(histories, patientId, None))
    case Some(ctx) => LoadedTurn(histories, vectorStore, patientId, userMessage, useVectorSearch, ctx, model)
  }

  /** The rest of a turn once the record `ctx` is loaded: one model call, then the reply and the history it leaves. */
  function LoadedTurn(histories: map<int, seq<Message>>, vectorStore: Option<VectorSearch>, patientId: int,
                      userMessage: string, useVectorSearch: bool, ctx: PatientContext, model: LanguageModel): Turn
  {
    var request := TurnRequest(histories, vectorStore, patientId, userMessage, useVectorSearch, ctx);
    match model(request)
    case Raised(e) => Turn(ChatReply(ErrorPrefix + e, true, None), Some(request), StoredHistories(histories, patientId, None))
    case Success(content) =>
      var answer := FinalAnswer(content, userMessage, ctx);
      Turn(SuccessReply(answer, ctx, TurnRelevant(vectorStore, userMessage, patientId, useVectorSearch)), Some(request),
        StoredHistories(histories, patientId, Some((userMessage, answer))))
  }

  /** An unknown patient: the fixed error reply, no model call, and only an empty history created for the id. */
  lemma ChatUnknownPatient(histories: map<int, seq<Message>>, vectorStore: Option<VectorSearch>, patientId: int,
                           userMessage: string, useVectorSearch: bool, store: Store, model: LanguageModel)
    requires GetPatient(store, patientId).None?
    ensures var t := ChatTurn(histories, vectorStore, patientId, userMessage, useVectorSearch, store, model);
      && t.reply == ChatReply("Erreur: Patient non trouvé.", true, None)
      && t.request.None?
      && t.histories == StoredHistories(histories, patientId, None)
  {
  }

  /** A known patient's turn sends exactly its request to the model. */
  lemma ChatSendsRequest(histories: map<int, seq<Message>>, vectorStore: Option<VectorSearch>, patientId: int,
                         userMessage: string, useVectorSearch: bool, ctx: PatientContext, model: LanguageModel)
    ensures LoadedTurn(histories, vectorStore, patientId, userMessage, useVectorSearch, ctx, model).request
      == Some(TurnRequest(histories, vectorStore, patientId, userMessage, useVectorSearch, ctx))
  {
  }

  /** When the model raises, the reply carries its message and no exchange is stored. */
  lemma ChatModelError(histories: map<int, seq<Message>>, vectorStore: Option<VectorSearch>, patientId: int,
                       userMessage: string, useVectorSearch: bool, ctx: PatientContext, model: LanguageModel)
    requires model(TurnRequest(histories, vectorStore, patientId, userMessage, useVectorSearch, ctx)).Raised?
    ensures var t := LoadedTurn(histories, vectorStore, patientId, userMessage, useVectorSearch, ctx, model);
      var e := model(TurnRequest(histories, vectorStore, patientId, userMessage, useVectorSearch, ctx));
      && t.reply == ChatReply(ErrorPrefix + e.message, true, None)
      && t.histories == StoredHistories(histories, patientId, None)
  {
  }

  /** A successful turn: the post-processed answer (at least ten characters) is returned and stored after the question. */
  lemma ChatSuccess(histories: map<int, seq<Message>>, vectorStore: Option<VectorSearch>, patientId: int,
                    userMessage: string, useVectorSearch: bool, ctx: PatientContext, model: LanguageModel)
    requires model(TurnRequest(histories, vectorStore, patientId, userMessage, useVectorSearch, ctx)).Success?
    ensures var t := LoadedTurn(histories, vectorStore, patientId, userMessage, useVectorSearch, ctx, model);
      var content := model(TurnRequest(histories, vectorStore, patientId, userMessage, useVectorSearch, ctx)).value;
      var answer := FinalAnswer(content, userMessage, ctx);
      && t.reply == SuccessReply(answer, ctx, TurnRelevant(vectorStore, userMessage, patientId, useVectorSearch))
      && |t.reply.response| >= 10
      && t.histories == StoredHistories(histories, patientId, Some((userMessage, answer)))
  {
  }

  // ---------------------------------------------------------------------
  // The service
  // ---------------------------------------------------------------------

  class MedicalChat {
    /** `conversation_history`: patient primary key to the stored messages. */
    var history: map<int, seq<Message>>
    const vectorStore: Option<VectorSearch>

    /** Every stored history is made of whole exchanges. */
    ghost predicate Valid()
      reads this
    {
      forall p :: p in history ==> Exchanges(history[p])
    }

    constructor(vectorStore: Option<VectorSearch>)
      ensures this.vectorStore == vectorStore
      ensures history == map[]
      ensures Valid()
    {
      this.vectorStore := vectorStore;
      history := map[];
    }

    /** `MedicalChat._search_relevant_context` with `n_results = 3` */
    method SearchRelevantContext(query: string, patientId: int) returns (text: string)
      ensures text == RelevantContext(vectorStore, query, patientId)
    {
      if vectorStore.None? {
        return "";
      }
      var outcome := vectorStore.value(query, patientId, 3);
      if outcome.Raised? {
        return "";
      }
      var results := outcome.value;
      text := "";
      if |results.conversations| > 0 {
        var shown := Take(results.conversations, 2);
        var lines := "";
        for i := 0 to |shown|
          invariant lines == Excerpts(shown[..i])
        {
          ExcerptsStep(shown, i);
          lines := lines + ExcerptLine(i + 1, shown[i]);
        }
        assert shown[..|shown|] == shown;
        text := ConversationsTitle + lines;
      }
      if |results.medicalNotes| > 0 {
        var shown := Take(results.medicalNotes, 2);
        var lines := "";
        for i := 0 to |shown|
          invariant lines == Excerpts(shown[..i])
        {
          ExcerptsStep(shown, i);
          lines := lines + ExcerptLine(i + 1, shown[i]);
        }
        assert shown[..|shown|] == shown;
        text := text + (NotesTitle + lines);
      }
    }

    /** `MedicalChat.get_history`: reading never creates an entry. */
    function GetHistory(patientId: int): (r: seq<Message>)
      reads this
      ensures patientId in history ==> r == history[patientId]
      ensures patientId !in history ==> r == []
    {
      if patientId in history then history[patientId] else []
    }

    /** `MedicalChat.clear_history` */
    method ClearHistory(patientId: int)
      requires Valid()
      modifies this
      ensures history == old(history) - {patientId}
      ensures GetHistory(patientId) == []
      ensures Valid()
    {
      if patientId in history {
        history := history - {patientId};
      }
    }

    /** The messages `chat` sends for a loaded record: system prompt, record text and search hits, then the history window. */
    method PrepareRequest(patientId: int, userMessage: string, useVectorSearch: bool, ctx: PatientContext)
      returns (messages: seq<Message>, relevantContext: string)
      requires patientId in history
      ensures relevantContext == TurnRelevant(vectorStore, userMessage, patientId, useVectorSearch)
      ensures messages == Request(SystemPrompt(ctx) + ContextText(ctx, 10) + relevantContext, history[patientId], userMessage)
    {
      var systemPrompt := SystemPrompt(ctx);
      var contextText := FormatPatientContext(ctx, 10);
      relevantContext := "";
      if useVectorSearch && vectorStore.Some? {
        relevantContext := SearchRelevantContext(userMessage, patientId);
      }
      messages := Request(systemPrompt + contextText + relevantContext, history[patientId], userMessage);
    }

    /**
     * `MedicalChat.chat`, with the store read and the model called once.
     * `request` is what was sent to the model (`None` when it was not called).
     */
    method Chat(patientId: int, userMessage: string, useVectorSearch: bool, store: Store, model: LanguageModel)
      returns (reply: ChatReply, request: Option<seq<Message>>)
      requires Valid()
      modifies this
      ensures Valid()
      ensures Turn(reply, request, history) == ChatTurn(old(history), vectorStore, patientId, userMessage, useVectorSearch, store, model)
    {
      ghost var before := history;
      StoredKeepsExchanges(before, patientId, None);
      if patientId !in history {
        history := history[patientId := []];
      }
      assert history == Started(before, patientId);
      var context := LoadPatientContext(store, patientId);
      if context.None? {
        return NotFoundReply, None;
      }
      var ctx := context.value;
      var messages, relevantContext := PrepareRequest(patientId, userMessage, useVectorSearch, ctx);
      assert messages == TurnRequest(before, vectorStore, patientId, userMessage, useVectorSearch, ctx);
      request := Some(messages);
      ChatSendsRequest(before, vectorStore, patientId, userMessage, useVectorSearch, ctx, model);
      var response := model(messages);
      if response.Raised? {
        ChatModelError(before, vectorStore, patientId, userMessage, useVectorSearch, ctx, model);
        return ChatReply(ErrorPrefix + response.message, true, None), request;
      }
      var assistantResponse := PostProcess(response.value, userMessage, ctx);
      ChatSuccess(before, vectorStore, patientId, userMessage, useVectorSearch, ctx, model);
      StoredKeepsExchanges(before, patientId, Some((userMessage, assistantResponse)));
      history := history[patientId := AppendTurn(history[patientId], userMessage, assistantResponse)];
      reply := SuccessReply(assistantResponse, ctx, relevantContext);
    }
  }
}
