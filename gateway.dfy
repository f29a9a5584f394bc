/**
 * The text-generation side of the later server: canned fallback texts, the
 * mapping of a provider call to an optional text, and the three endpoints
 * `/api/question`, `/api/turn` (with its question-mark guard) and `/api/ack`.
 */
module Gateway {
  import opened Wrappers
  import opened Strings
  import opened ServerCommon
  import Catalog

  /** The pool of generic acknowledgments used when no generated text is available. */
  const FallbackAcks: seq<string> := [
    // one string, written as two joined literals
    "Takk for at du sier fra — " + "det høres skikkelig ubehagelig ut.",
    "Skjønner. Takk for at du deler.",
    "Det gir mening. Vi tar ett steg om gangen.",
    "Jeg hører deg. La oss gå videre.",
    "Takk, det er nyttig å vite."
  ]

  /** Canned alternative phrasings, per question id. */
  const FallbackQuestions: map<string, seq<string>> := map[
    "open_intro" := [
      "Før vi starter: hva er det viktigste du ønsker at vi skal forstå om plagene dine?",
      "Hva er det viktigste du vil at vi skal få med oss om plagene dine?",
      "Hvis du skulle oppsummere: hva håper du vi forstår om plagene dine?"
    ],
    "q1_duration" := [
      "For å få litt kontekst: hvor lenge har du hatt disse plagene?",
      "Omtrent hvor lenge har dette vart?",
      "Når startet dette omtrent?"
    ],
    "q2_pain" := [
      "Når du ser tilbake på siste uke: hvor sterke smerter har du hatt? (0–10)",
      "Hvis du må sette et tall (0–10): hvor vondt har det vært siste uka?",
      "På en skala fra 0 til 10 – hvor sterke smerter siste uke?"
    ],
    "q3_lightWork" := [
      "I hvor stor grad opplever du at du kan gjøre lettere arbeid under en time? (0–10)",
      "Hvis du må velge et tall (0–10): hvor mulig er lett arbeid under en time?",
      "0–10: hvor lett er det å gjøre lett arbeid under en time nå?"
    ],
    "q4_sleep" := [
      "Hvordan har nattesøvnen fungert? (0–10)",
      "0–10: hvordan har søvnen vært i det siste?",
      "Hvis du må velge: hvor greit har du sovet? (0–10)"
    ],
    "q5_stress" := [
      "Hvor anspent eller stresset har du kjent deg den siste uken? (0–10)",
      "0–10: hvor stresset/anspent har du kjent deg?",
      "Hvis du setter et tall: hvor stresset siste uke? (0–10)"
    ],
    "q6_mood" := [
      "I hvilken grad har du kjent deg nedstemt den siste uken? (0–10)",
      "0–10: hvor nedstemt har du vært siste uke?",
      "Hvis du må velge et tall: hvor nedstemt har du kjent deg? (0–10)"
    ],
    "q7_risk" := [
      "Hva tenker du om risikoen for at plagene kan bli langvarige? (0–10)",
      "0–10: hvor stor risiko føler du det er for at dette blir langvarig?",
      "Hvis du må velge: hvor bekymret er du for at dette varer lenge? (0–10)"
    ],
    "q8_work3mo" := [
      "Hvor stor tror du sjansen er for at du er i arbeid om tre måneder? (0–10)",
      "0–10: hvor sannsynlig er det at du er i jobb om 3 måneder?",
      "Hvis du må velge: sjansen for arbeid om tre måneder (0–10)?"
    ],
    "q9_stopSignal" := [
      "Hvis plagene øker, føler du at du bør stoppe det du gjør til det roer seg? (0–10)",
      "0–10: hvis det blir verre, føler du at du må stoppe helt til det roer seg?",
      "Hvis du må velge: hvor mye må du stoppe når det øker? (0–10)"
    ],
    "q10_avoidNormal" := [
      "Opplever du at du bør unngå normale aktiviteter/arbeid med smerten du har nå? (0–10)",
      "0–10: hvor mye føler du at du bør unngå normale aktiviteter nå?",
      "Hvis du må velge: hvor mye unngår du normale ting pga smerten? (0–10)"
    ]
  ]

  /** The literal used when a question has neither canned variants nor a label. */
  const LastResortQuestion := "OK, neste spørsmål."

  /** No pool acknowledgment is empty or asks a question. */
  lemma FallbackAcksAreStatements()
    ensures forall a :: a in FallbackAcks ==> a != "" && '?' !in a
  {
    PoolAck0(); PoolAck1(); PoolAck2(); PoolAck3(); PoolAck4();
  }

  // The same fact for each pool entry in turn.
  lemma PoolAck0() ensures '?' !in FallbackAcks[0] {}
  lemma PoolAck1() ensures '?' !in FallbackAcks[1] {}
  lemma PoolAck2() ensures '?' !in FallbackAcks[2] {}
  lemma PoolAck3() ensures '?' !in FallbackAcks[3] {}
  lemma PoolAck4() ensures '?' !in FallbackAcks[4] {}

  /** Every id has three non-empty canned variants. */
  lemma FallbackQuestionsShape()
    ensures forall id :: id in FallbackQuestions ==>
      |FallbackQuestions[id]| == 3 && forall v :: v in FallbackQuestions[id] ==> v != ""
  {
  }

  /** The ids that have canned variants. */
  lemma FallbackQuestionIds()
    ensures FallbackQuestions.Keys == {"open_intro", "q1_duration", "q2_pain", "q3_lightWork", "q4_sleep",
      "q5_stress", "q6_mood", "q7_risk", "q8_work3mo", "q9_stopSignal", "q10_avoidNormal"}
  {
  }

  lemma CatalogIds()
    ensures Catalog.Ids(Catalog.Questions) == ["open_intro", "q1_duration", "q2_pain", "q3_lightWork", "q4_sleep",
      "q5_stress", "q6_mood", "q7_risk", "q8_work3mo", "q9_stopSignal", "q10_avoidNormal"]
  {
  }

  /** The canned variants cover exactly the catalog's questions. */
  lemma FallbackQuestionsCoverCatalog()
    ensures FallbackQuestions.Keys == set id | id in Catalog.Ids(Catalog.Questions)
  {
    FallbackQuestionIds();
    CatalogIds();
  }

  /** `FALLBACK_QUESTIONS[questionId]`, empty when the id is absent or has no entry. */
  function Variants(questionId: Option<string>): (r: seq<string>)
    ensures r == [] <==> questionId.None? || questionId.value !in FallbackQuestions
    ensures r != [] ==> |r| == 3 && forall v :: v in r ==> v != ""
  {
    FallbackQuestionsShape();
    if questionId.Some? && questionId.value in FallbackQuestions then FallbackQuestions[questionId.value] else []
  }

  /** Every catalog question has three canned variants. */
  lemma CatalogQuestionHasVariants(k: nat)
    requires k < |Catalog.Questions|
    ensures |Variants(Some(Catalog.Questions[k].id))| == 3
  {
    FallbackQuestionsCoverCatalog();
    FallbackQuestionsShape();
    assert Catalog.Questions[k].id in Catalog.Ids(Catalog.Questions);
  }

  /** `fallbackQuestion(questionId, label)`: a canned variant of the question
      when there is one, else the label, else a fixed literal. */
  function FallbackQuestion(questionId: Option<string>, labelText: Option<string>, i: nat): (r: string)
    requires Variants(questionId) != [] ==> i < |Variants(questionId)|
    ensures Variants(questionId) != [] ==> r in Variants(questionId)
    ensures Variants(questionId) == [] && labelText.Some? && labelText.value != "" ==> r == labelText.value
    ensures Variants(questionId) == [] && (labelText.None? || labelText.value == "") ==> r == LastResortQuestion
    ensures r != ""
  {
    FallbackQuestionsShape();
    var variants := Variants(questionId);
    if variants != [] then Pick(variants, i) else Or(labelText, LastResortQuestion)
  }

  /** `llmGenerate(...)`: every failure becomes `None`; success is the trimmed,
      non-empty content. */
  function LlmGenerate(hasKey: bool, outcome: ProviderOutcome): (r: Option<string>)
    ensures r.Some? <==> hasKey && outcome.Responded? && outcome.ok && outcome.content.Some?
                         && !AllSpace(outcome.content.value)
    ensures r.Some? ==> r.value == Trim(outcome.content.value)
    ensures r.Some? ==> r.value != "" && Trim(r.value) == r.value
  {
    if !hasKey then None
    else match outcome
      case Thrown => None
      case Responded(ok, content) =>
        if !ok || content.None? then None
        else
          var t := Trim(content.value);
          TrimIdempotent(content.value);
          if t == "" then None else Some(t)
  }

  /** `/api/question`: the generated phrasing when there is one, else the fallback. */
  function QuestionEndpoint(questionId: Option<string>, labelText: Option<string>,
                            hasKey: bool, outcome: ProviderOutcome, i: nat): (r: string)
    requires Variants(questionId) != [] ==> i < |Variants(questionId)|
    ensures LlmGenerate(hasKey, outcome).Some? ==> r == LlmGenerate(hasKey, outcome).value
    ensures LlmGenerate(hasKey, outcome).None? ==> r == FallbackQuestion(questionId, labelText, i)
    ensures r != ""
  {
    Or(LlmGenerate(hasKey, outcome), FallbackQuestion(questionId, labelText, i))
  }

  /** The characters the guard strips from the end of a truncated acknowledgment: `[.!\s]`. */
  predicate IsClosing(c: char)
  {
    c == '.' || c == '!' || IsSpace(c)
  }

  /** A text that asked a question, cut before its first `?`, trimmed, with
      trailing `.`, `!` and white space dropped, and closed with a period. */
  function CutQuestion(t: string): (r: string)
    ensures r != "" && r[|r| - 1] == '.' && '?' !in r
  {
    DropWhileEnd(Trim(BeforeFirst(t, '?')), IsClosing) + "."
  }

  /** What `/api/turn` sends back as `ack`, stated case by case: blank or missing
      generated text gives a pool entry, a text with a `?` gives the text before
      it closed with a period, and any other text is returned trimmed. */
  function SanitizeAck(ackAI: Option<string>, i: nat): (r: string)
    requires i < |FallbackAcks|
    ensures '?' !in r
    ensures r != ""
    ensures AllSpace(Or(ackAI, "")) ==> r in FallbackAcks
  {
    FallbackAcksAreStatements();
    var t := Trim(Or(ackAI, ""));
    if t == "" then Pick(FallbackAcks, i)
    else if '?' in t then CutQuestion(t)
    else t
  }

  /** The `/api/turn` handler: the guard reassigns `ack` step by step. */
  method TurnEndpoint(hasKey: bool, outcome: ProviderOutcome, i: nat) returns (ack: string)
    requires i < |FallbackAcks|
    ensures ack == SanitizeAck(LlmGenerate(hasKey, outcome), i)
  {
    var ackAI := LlmGenerate(hasKey, outcome);
    ack := Trim(Or(ackAI, ""));
    if '?' in ack {
      ack := DropWhileEnd(Trim(BeforeFirst(ack, '?')), IsClosing) + ".";
    }
    if ack == "" {
      ack := Pick(FallbackAcks, i);
    }
  }

  /** A generated text that asks no question reaches the client unchanged. */
  lemma {:induction false} SanitizeAckKeepsStatements(ackAI: Option<string>, i: nat)
    requires i < |FallbackAcks|
    requires ackAI.Some? && ackAI.value != "" && !AllSpace(ackAI.value) && '?' !in ackAI.value
    ensures SanitizeAck(ackAI, i) == Trim(ackAI.value)
  {
    assert '?' !in Trim(ackAI.value);
  }

  /** A generated text that asks a question is cut before its first `?`. */
  lemma {:induction false} SanitizeAckCutsQuestions(ackAI: Option<string>, i: nat)
    requires i < |FallbackAcks|
    requires ackAI.Some? && '?' in ackAI.value
    ensures var r := SanitizeAck(ackAI, i);
      r == CutQuestion(Trim(ackAI.value)) && r[|r| - 1] == '.'
  {
    var k :| 0 <= k < |ackAI.value| && ackAI.value[k] == '?';
    TrimKeeps(ackAI.value, k);
  }

  /** A generated text whose first non-blank character is `?` leaves a lone
      period: truncation never yields an empty text, so the pool is drawn
      from only when the text was blank to begin with. */
  lemma {:induction false} SanitizeAckLeadingQuestion(ackAI: Option<string>, i: nat)
    requires i < |FallbackAcks|
    requires ackAI.Some? && Trim(ackAI.value) != "" && Trim(ackAI.value)[0] == '?'
    ensures SanitizeAck(ackAI, i) == "."
  {
    var t := Trim(ackAI.value);
    assert t[0] in t;
  }

  /** `/api/ack`: the generated text when there is one, else a pool entry. */
  function AckEndpoint(hasKey: bool, outcome: ProviderOutcome, i: nat): (r: string)
    requires i < |FallbackAcks|
    ensures r != ""
    ensures LlmGenerate(hasKey, outcome).None? ==> r in FallbackAcks
    ensures LlmGenerate(hasKey, outcome).Some? ==> r == LlmGenerate(hasKey, outcome).value
  {
    FallbackAcksAreStatements();
    Or(LlmGenerate(hasKey, outcome), Pick(FallbackAcks, i))
  }

  /** `/api/turn` and `/api/ack` agree unless the generated text asks a question. */
  lemma TurnAgreesWithAck(hasKey: bool, outcome: ProviderOutcome, i: nat)
    requires i < |FallbackAcks|
    requires LlmGenerate(hasKey, outcome).Some? ==> '?' !in LlmGenerate(hasKey, outcome).value
    ensures SanitizeAck(LlmGenerate(hasKey, outcome), i) == AckEndpoint(hasKey, outcome, i)
  {
  }
}
