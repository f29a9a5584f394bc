/**
 * The question catalog: the fixed list of question descriptors the dialogue
 * controller walks through, the ids that enter the total score, and the
 * id-to-label table.
 */
module Catalog {
  import opened Wrappers

  /** One listed answer of a scored choice (the source's `label`) and the score it carries. */
  datatype Choice = Choice(text: string, score: int)

  /** A descriptor's `type` with its type-specific parameters. `Other` is a
      `type` string the dialogue controller does not recognise. */
  datatype Kind =
    | FreeText
    | ScoredChoice(options: seq<Choice>)
    | NumericScale(min: int, max: int, reverse: bool)
    | Other(tag: string)

  /** A question descriptor; `prompt` is the source's `label`. It is optional
      because the dialogue controller also copes with a descriptor that has none. */
  datatype Question = Question(id: string, prompt: Option<string>, kind: Kind)

  const DurationChoices: seq<Choice> := [
    Choice("0–1 uker", 1),
    Choice("1–2 uker", 2),
    Choice("3–4 uker", 3),
    Choice("4–5 uker", 4),
    Choice("6–8 uker", 5),
    Choice("9–11 uker", 6),
    Choice("3–6 måneder", 7),
    Choice("6–9 måneder", 8),
    Choice("9–12 måneder", 9),
    Choice("Over ett år", 10)
  ]

  const Questions: seq<Question> := [
    Question("open_intro", Some("Før vi starter: hva er det viktigste du ønsker at vi skal forstå om plagene dine?"), FreeText),
    Question("q1_duration", Some("For å få litt kontekst: hvor lenge har du hatt disse plagene?"), ScoredChoice(DurationChoices)),
    Question("q2_pain", Some("Når du ser tilbake på siste uke: hvor sterke smerter har du hatt? (0–10)"), NumericScale(0, 10, false)),
    Question("q3_lightWork", Some("I hvor stor grad opplever du at du kan gjøre lettere arbeid under en time? (0–10)"), NumericScale(0, 10, true)),
    Question("q4_sleep", Some("Hvordan har nattesøvnen fungert? (0–10)"), NumericScale(0, 10, true)),
    Question("q5_stress", Some("Hvor anspent eller stresset har du kjent deg den siste uken? (0–10)"), NumericScale(0, 10, false)),
    Question("q6_mood", Some("I hvilken grad har du kjent deg nedstemt den siste uken? (0–10)"), NumericScale(0, 10, false)),
    Question("q7_risk", Some("Hva tenker du om risikoen for at plagene kan bli langvarige? (0–10)"), NumericScale(0, 10, false)),
    Question("q8_work3mo", Some("Hvor stor tror du sjansen er for at du er i arbeid om tre måneder? (0–10)"), NumericScale(0, 10, true)),
    Question("q9_stopSignal", Some("Hvis plagene øker, føler du at du bør stoppe det du gjør til det roer seg? (0–10)"), NumericScale(0, 10, false)),
    Question("q10_avoidNormal", Some("Opplever du at du bør unngå normale aktiviteter/arbeid med smerten du har nå? (0–10)"), NumericScale(0, 10, false))
  ]

  const ScoreItemIds: seq<string> := [
    "q1_duration", "q2_pain", "q3_lightWork", "q4_sleep", "q5_stress",
    "q6_mood", "q7_risk", "q8_work3mo", "q9_stopSignal", "q10_avoidNormal"
  ]

  /** `qs.map(q => q.id)` */
  function Ids(qs: seq<Question>): (r: seq<string>)
    ensures |r| == |qs| && forall k :: 0 <= k < |qs| ==> r[k] == qs[k].id
  {
    if qs == [] then [] else [qs[0].id] + Ids(qs[1..])
  }

  /** The elements of `s` other than `x`. */
  function Without(s: seq<string>, x: string): (r: seq<string>)
    ensures forall y :: y in r <==> y in s && y != x
  {
    if s == [] then [] else (if s[0] == x then [] else [s[0]]) + Without(s[1..], x)
  }

  /** `Object.fromEntries(qs.map(q => [q.id, q.label]))`: a later entry with the
      same id overwrites an earlier one. */
  function LabelTable(qs: seq<Question>): (r: map<string, Option<string>>)
    ensures r.Keys == set k | 0 <= k < |qs| :: qs[k].id
  {
    if qs == [] then map[] else LabelTable(qs[..|qs| - 1])[qs[|qs| - 1].id := qs[|qs| - 1].prompt]
  }

  const QuestionLabels: map<string, Option<string>> := LabelTable(Questions)

  predicate DistinctIds(qs: seq<Question>)
  {
    forall j, k :: 0 <= j < k < |qs| ==> qs[j].id != qs[k].id
  }

  /** With distinct ids, the table maps every id to its own question's label. */
  lemma {:induction false} LabelTableLookup(qs: seq<Question>, k: nat)
    requires DistinctIds(qs) && k < |qs|
    ensures qs[k].id in LabelTable(qs) && LabelTable(qs)[qs[k].id] == qs[k].prompt
  {
    if k < |qs| - 1 {
      LabelTableLookup(qs[..|qs| - 1], k);
    }
  }

  /** All catalog ids are distinct. */
  lemma QuestionIdsDistinct()
    ensures DistinctIds(Questions)
  {
  }

  /** The scoring ids are the catalog ids, in catalog order, without the free-text intro. */
  lemma ScoreItemIdsAreCatalogIdsWithoutIntro()
    ensures ScoreItemIds == Without(Ids(Questions), "open_intro")
  {
    var ids := Ids(Questions);
    assert ids[0] == "open_intro";
    assert ids[1..] == ScoreItemIds;
    assert "open_intro" !in ScoreItemIds;
    WithoutAbsent(ScoreItemIds, "open_intro");
  }

  lemma {:induction false} WithoutAbsent(s: seq<string>, x: string)
    requires x !in s
    ensures Without(s, x) == s
  {
    if s != [] {
      WithoutAbsent(s[1..], x);
    }
  }

  /** `QUESTION_LABELS[id]` is the label of the question with that id. */
  lemma QuestionLabelsMatch(k: nat)
    requires k < |Questions|
    ensures QuestionLabels[Questions[k].id] == Questions[k].prompt
  {
    QuestionIdsDistinct();
    LabelTableLookup(Questions, k);
  }

  /** The duration choices score 1 through 10 in listed order, and their labels are distinct. */
  lemma DurationScores()
    ensures Questions[1].id == "q1_duration" && Questions[1].kind == ScoredChoice(DurationChoices)
    ensures |DurationChoices| == 10
    ensures forall k :: 0 <= k < 10 ==> DurationChoices[k].score == k + 1
    ensures forall j, k :: 0 <= j < k < 10 ==> DurationChoices[j].text != DurationChoices[k].text
  {
  }

  /** Every numeric scale runs from 0 to 10. */
  lemma ScalesRunFromZeroToTen(k: nat)
    requires k < |Questions| && Questions[k].kind.NumericScale?
    ensures Questions[k].kind.min == 0 && Questions[k].kind.max == 10
  {
  }

  /** The reversed scales are exactly light work, sleep and work in three months. */
  lemma ReversedScales(k: nat)
    requires k < |Questions|
    ensures (Questions[k].kind.NumericScale? && Questions[k].kind.reverse)
      <==> Questions[k].id in {"q3_lightWork", "q4_sleep", "q8_work3mo"}
  {
  }

  /** The only free-text question is the first one. */
  lemma OnlyTheIntroIsFreeText(k: nat)
    requires k < |Questions|
    ensures Questions[k].kind == FreeText <==> k == 0
  {
  }
}
