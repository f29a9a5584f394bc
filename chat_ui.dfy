/**
 * The chat component's dialogue controller: its input gates (`clampInt`,
 * `canSend`), the edits of the draft and the comment, the opening prompt, and
 * `submit`, which records one answer and
 * either completes the conversation or appends an acknowledgment and the next
 * question. Each `postJSON` call is an input of the step (`Reply`), and the
 * calls made are recorded in `requests`.
 */
module ChatUI {
  import opened Wrappers
  import opened Strings
  import opened Catalog

  datatype Speaker = Bot | User

  /** One chat bubble. */
  datatype Message = Message(who: Speaker, text: string)

  /** A submitted value: the trimmed draft, or `Number(draft)` on a scale. */
  datatype Answer = Text(s: string) | Number(n: int)

  type Answers = map<string, Answer>

  /** How one `postJSON` call ended: it threw, or it returned an object whose
      field of interest (`ack` or `text`) is `field`, with "" standing for a
      field that is absent, null or empty. */
  datatype Reply = Threw | Returned(field: string)

  /** The body of one `postJSON` call. */
  datatype Request =
    | TurnRequest(userAnswer: Answer, nextQuestionLabel: string)
    | AckRequest(userAnswer: Answer, nextQuestionLabel: string)
    | QuestionRequest(questionId: Option<string>, labelText: Option<string>)

  const Greeting := "Hei 👋 Jeg skal stille noen korte spørsmål, så lager jeg en oppsummering."
  const Closing := "Tusen takk — da er vi ferdig. Oppsummeringen ligger på veileder-siden."
  const DefaultAck := "Skjønner. Takk for at du deler."
  const FirstPromptFallback := "Klar?"
  const NextLabelFallback := "neste spørsmål"
  const CommentSuffix := "_comment"
  const CommentPrefix := "Ekstra: "

  function Min(a: int, b: int): int { if a <= b then a else b }

  function Max(a: int, b: int): int { if a >= b then a else b }

  /** `clampInt(value, min, max)`: "" when `value` does not parse, else the
      parsed number moved into `[min, max]` and written back in decimal. */
  function ClampInt(value: string, min: int, max: int): (r: string)
    ensures r == "" <==> ParseInt(value).None?
    ensures ParseInt(value).Some? ==> ParseInt(r).Some? && r == DecimalString(ParseInt(r).value)
    ensures ParseInt(value).Some? && min <= max ==> min <= ParseInt(r).value <= max
    ensures ParseInt(value).Some? && min <= ParseInt(value).value <= max ==> ParseInt(r) == ParseInt(value)
    ensures ParseInt(value).Some? && ParseInt(value).value < min <= max ==> ParseInt(r) == Some(min)
    ensures ParseInt(value).Some? && ParseInt(value).value > max ==> ParseInt(r) == Some(max)
  {
    match ParseInt(value)
    case None => ""
    case Some(n) =>
      var clamped := Min(max, Max(min, n));
      ParseDecimalString(clamped);
      DecimalString(clamped)
  }

  /** Clamping what clamping produced changes nothing. */
  lemma ClampIntIdempotent(value: string, min: int, max: int)
    requires min <= max
    ensures ClampInt(ClampInt(value, min, max), min, max) == ClampInt(value, min, max)
  {
    var r := ClampInt(value, min, max);
    if r != "" {
      var n := ParseInt(r).value;
      ParseDecimalString(Min(max, Max(min, n)));
    }
  }

  /** `canSend`: whether the current draft may be sent. `isFinite(d)` stands
      for `Number.isFinite(Number(d))`. */
  function CanSend(current: Option<Question>, done: bool, draft: string, isFinite: string -> bool): (r: bool)
    ensures r ==> current.Some? && !done
    ensures current.Some? && !done && current.value.kind.FreeText? ==> (r <==> !AllSpace(draft))
    ensures current.Some? && !done && current.value.kind.ScoredChoice? ==> (r <==> draft != "")
    ensures current.Some? && !done && current.value.kind.NumericScale? ==> (r <==> draft != "" && isFinite(draft))
    ensures current.Some? && current.value.kind.Other? ==> !r
  {
    if current.None? || done then false
    else match current.value.kind
      case FreeText => |Trim(draft)| > 0
      case ScoredChoice(_) => draft != ""
      case NumericScale(_, _, _) => draft != "" && isFinite(draft)
      case Other(_) => false
  }

  /** On a scale, a draft that came through `clampInt` can be sent exactly when
      the typed text parsed, provided every decimal integer is a finite number. */
  lemma ClampedDraftSendable(q: Question, typed: string, isFinite: string -> bool)
    requires q.kind.NumericScale?
    requires forall n: int :: Min(q.kind.min, q.kind.max) <= n <= q.kind.max ==> isFinite(DecimalString(n))
    ensures CanSend(Some(q), false, ClampInt(typed, q.kind.min, q.kind.max), isFinite)
      <==> ParseInt(typed).Some?
  {
    var d := ClampInt(typed, q.kind.min, q.kind.max);
    if ParseInt(typed).Some? {
      var clamped := Min(q.kind.max, Max(q.kind.min, ParseInt(typed).value));
      assert Min(q.kind.min, q.kind.max) <= clamped <= q.kind.max;
      assert d == DecimalString(clamped);
    }
  }

  /** `String(value)`: a text as it is, a number in decimal. */
  function Render(value: Answer): (r: string)
    ensures value.Text? ==> r == value.s
    ensures value.Number? ==> r == DecimalString(value.n)
  {
    match value
    case Text(s) => s
    case Number(n) => DecimalString(n)
  }

  /** A number's bubble reads back, through `parseInt`, as that number. */
  lemma RenderedNumberReadsBack(n: int)
    ensures ParseInt(Render(Number(n))) == Some(n)
  {
    ParseDecimalString(n);
  }

  function CommentKey(id: string): string
  {
    id + CommentSuffix
  }

  /** The optional comment as stored: trimmed, or absent when it is blank. */
  function Note(comment: string): (r: Option<string>)
    ensures r.None? <==> AllSpace(comment)
    ensures r.Some? ==> r.value == Trim(comment) && r.value != ""
  {
    var trimmed := Trim(comment);
    if |trimmed| > 0 then Some(trimmed) else None
  }

  /** The answers after `submit`: the value under the question's id, and the
      trimmed comment under `id + "_comment"` when there is one. */
  function WithAnswer(answers: Answers, id: string, value: Answer, note: Option<string>): (r: Answers)
    ensures id in r && r[id] == value
    ensures answers.Keys <= r.Keys
    ensures note.Some? ==> CommentKey(id) in r && r[CommentKey(id)] == Text(note.value)
    ensures forall k :: k in r && k != id && (k != CommentKey(id) || note.None?) ==> k in answers
    ensures forall k :: k in answers && k != id && (k != CommentKey(id) || note.None?) ==> r[k] == answers[k]
  {
    assert |CommentKey(id)| > |id|;
    var withValue := answers[id := value];
    if note.Some? then withValue[CommentKey(id) := Text(note.value)] else withValue
  }

  /** The user bubbles `submit` appends: the answer, then the comment when it is not blank. */
  function UserBubbles(value: Answer, note: Option<string>): (r: seq<Message>)
    ensures |r| == (if note.None? then 1 else 2)
    ensures r[0] == Message(User, Render(value))
    ensures note.Some? ==> r[1] == Message(User, CommentPrefix + note.value)
  {
    [Message(User, Render(value))]
      + (if note.Some? then [Message(User, CommentPrefix + note.value)] else [])
  }

  /** `out?.field || otherwise` after a call, where a thrown call leaves `otherwise`. */
  function FieldOr(reply: Reply, otherwise: string): (r: string)
    ensures reply.Returned? && reply.field != "" ==> r == reply.field
    ensures reply.Threw? || reply.field == "" ==> r == otherwise
  {
    if reply.Returned? && reply.field != "" then reply.field else otherwise
  }

  /** The acknowledgment `submit` shows: the `/api/turn` ack when it is
      non-empty; `/api/ack`'s text only when `/api/turn` threw; else the default. */
  function ResolveAck(turn: Reply, ack: Reply): (r: string)
    ensures r != ""
    ensures turn.Returned? && turn.field != "" ==> r == turn.field
    ensures turn.Returned? && turn.field == "" ==> r == DefaultAck
    ensures turn.Threw? && ack.Returned? && ack.field != "" ==> r == ack.field
    ensures turn.Threw? && (ack.Threw? || ack.field == "") ==> r == DefaultAck
  {
    if turn.Threw? then FieldOr(ack, DefaultAck) else FieldOr(turn, DefaultAck)
  }

  /** `next?.label ?? "neste spørsmål"`: only a missing label is replaced. */
  function NextLabel(next: Question): (r: string)
    ensures next.prompt.Some? ==> r == next.prompt.value
    ensures next.prompt.None? ==> r == NextLabelFallback
  {
    match next.prompt
    case Some(l) => l
    case None => NextLabelFallback
  }

  /** `questions[0]?.label || "Klar?"` */
  function FirstPrompt(questions: seq<Question>): (r: string)
    ensures r != ""
    ensures questions != [] && questions[0].prompt.Some? && questions[0].prompt.value != "" ==>
      r == questions[0].prompt.value
    ensures questions == [] || questions[0].prompt.None? || questions[0].prompt.value == "" ==>
      r == FirstPromptFallback
  {
    if questions == [] then FirstPromptFallback else Or(questions[0].prompt, FirstPromptFallback)
  }

  /** The calls of a non-final `submit`, in order. */
  function AdvanceRequests(value: Answer, next: Question, turn: Reply): (r: seq<Request>)
    ensures |r| == (if turn.Threw? then 3 else 2)
    ensures r[0] == TurnRequest(value, NextLabel(next))
    ensures r[|r| - 1] == QuestionRequest(Some(next.id), Some(NextLabel(next)))
    ensures AckRequest(value, NextLabel(next)) in r <==> turn.Threw?
  {
    [TurnRequest(value, NextLabel(next))]
      + (if turn.Threw? then [AckRequest(value, NextLabel(next))] else [])
      + [QuestionRequest(Some(next.id), Some(NextLabel(next)))]
  }

  /** The controller's invariant over its values: `step` stays within the
      catalog, every answered question has an entry, and `onComplete` has run
      once exactly when the last question is answered. */
  predicate Consistent(questions: seq<Question>, step: nat, answers: Answers, completions: seq<Answers>)
  {
    && step <= |questions|
    && (forall k :: 0 <= k < step ==> questions[k].id in answers)
    && |completions| <= 1
    && (completions != [] <==> questions != [] && step == |questions|)
    && (completions != [] ==> completions[0] == answers)
  }

  /** Recording the answer to question `step` keeps the invariant, with
      `onComplete` run when that was the last question. */
  lemma {:induction false} AnswerKeepsConsistent(questions: seq<Question>, step: nat, answers: Answers,
                                                 completions: seq<Answers>, value: Answer, note: Option<string>)
    requires Consistent(questions, step, answers, completions) && step < |questions|
    ensures var next := WithAnswer(answers, questions[step].id, value, note);
      Consistent(questions, step + 1, next,
        if step + 1 == |questions| then completions + [next] else completions)
  {
    var next := WithAnswer(answers, questions[step].id, value, note);
    forall k | 0 <= k < step + 1
      ensures questions[k].id in next
    {
      if k < step {
        assert questions[k].id in answers;
      }
    }
  }

  /** The fallback chain of a non-final `submit`: `/api/turn` first, `/api/ack`
      only if it threw, then `/api/question`; returns the acknowledgment, the
      question text and the calls made, in order. */
  method ResolveTurn(value: Answer, next: Question, turn: Reply, ack: Reply, question: Reply)
    returns (ackText: string, qText: string, calls: seq<Request>)
    ensures ackText == ResolveAck(turn, ack)
    ensures qText == FieldOr(question, NextLabel(next))
    ensures calls == AdvanceRequests(value, next, turn)
  {
    var nextLabel := NextLabel(next);
    ackText := DefaultAck;
    qText := nextLabel;

    calls := [TurnRequest(value, nextLabel)];
    match turn {
      case Returned(field) =>
        ackText := if field != "" then field else ackText;
      case Threw =>
        calls := calls + [AckRequest(value, nextLabel)];
        if ack.Returned? {
          ackText := if ack.field != "" then ack.field else ackText;
        }
    }

    calls := calls + [QuestionRequest(Some(next.id), Some(nextLabel))];
    if question.Returned? {
      qText := if question.field != "" then question.field else qText;
    }
  }

  class Controller {
    const questions: seq<Question>
    var step: nat
    var answers: Answers
    var draft: string
    var comment: string
    var messages: seq<Message>
    /** The `postJSON` calls made so far. */
    var requests: seq<Request>
    /** The answer maps passed to `onComplete` so far. */
    var completions: seq<Answers>

    /** The invariant `Consistent` over the current fields. */
    ghost predicate Valid()
      reads this
    {
      Consistent(questions, step, answers, completions)
    }

    /** The component's initial state. */
    constructor (questions: seq<Question>)
      ensures Valid() && this.questions == questions
      ensures step == 0 && answers == map[] && draft == "" && comment == ""
      ensures messages == [] && requests == [] && completions == []
    {
      this.questions := questions;
      step, answers, draft, comment := 0, map[], "", "";
      messages, requests, completions := [], [], [];
    }

    /** `questions[step]`, absent past the end. */
    function Current(): (r: Option<Question>)
      reads this
      ensures r.Some? <==> step < |questions|
      ensures r.Some? ==> r.value == questions[step]
    {
      if step < |questions| then Some(questions[step]) else None
    }

    /** `isDone` */
    predicate IsDone()
      reads this
      ensures IsDone() <==> Current().None?
    {
      step >= |questions|
    }

    /** The initial effect: a greeting, then the first question, in the
        generated phrasing when `/api/question` gives one. */
    method Start(reply: Reply)
      requires Valid()
      modifies this
      ensures Valid()
      ensures messages == [Message(Bot, Greeting), Message(Bot, FieldOr(reply, FirstPrompt(questions)))]
      ensures requests == old(requests) + [QuestionRequest(
        if questions == [] then None else Some(questions[0].id),
        if questions == [] then None else questions[0].prompt)]
      ensures step == old(step) && answers == old(answers) && completions == old(completions)
      ensures draft == old(draft) && comment == old(comment)
    {
      var qText := FirstPrompt(questions);
      var first: Option<Question> := if questions == [] then None else Some(questions[0]);
      requests := requests + [QuestionRequest(
        if first.None? then None else Some(first.value.id),
        if first.None? then None else first.value.prompt)];
      if reply.Returned? {
        qText := if reply.field != "" then reply.field else qText;
      }
      messages := [Message(Bot, Greeting), Message(Bot, qText)];
    }

    /** `setDraft(e.target.value)`: typing into the text input or choosing in the select. */
    method EditDraft(text: string)
      requires Valid()
      modifies this
      ensures Valid() && draft == text
      ensures step == old(step) && answers == old(answers) && comment == old(comment)
      ensures messages == old(messages) && requests == old(requests) && completions == old(completions)
    {
      draft := text;
    }

    /** `setDraft(clampInt(e.target.value, current.min, current.max))`: typing into
        the scale input, which is shown only while the current question is a
        scale. The draft can then be sent exactly when the typed text parsed. */
    method EditScale(text: string, ghost isFinite: string -> bool)
      requires Valid() && step < |questions| && questions[step].kind.NumericScale?
      requires var k := questions[step].kind;
        forall n: int :: Min(k.min, k.max) <= n <= k.max ==> isFinite(DecimalString(n))
      modifies this
      ensures step == old(step) && answers == old(answers) && comment == old(comment)
      ensures messages == old(messages) && requests == old(requests) && completions == old(completions)
      ensures Valid() && draft == ClampInt(text, questions[step].kind.min, questions[step].kind.max)
      ensures CanSend(Current(), IsDone(), draft, isFinite) <==> ParseInt(text).Some?
    {
      var q := questions[step];
      draft := ClampInt(text, q.kind.min, q.kind.max);
      ClampedDraftSendable(q, text, isFinite);
    }

    /** `setComment(e.target.value)`: typing into the optional comment field. */
    method EditComment(text: string)
      requires Valid()
      modifies this
      ensures Valid() && comment == text
      ensures step == old(step) && answers == old(answers) && draft == old(draft)
      ensures messages == old(messages) && requests == old(requests) && completions == old(completions)
    {
      comment := text;
    }

    /** `submit(value, optionalComment)` as one sequential step; `turn`, `ack`
        and `question` are how the `/api/turn`, `/api/ack` and `/api/question`
        calls end. */
    method Submit(value: Answer, optionalComment: string, turn: Reply, ack: Reply, question: Reply)
      requires Valid() && step < |questions|
      modifies this
      ensures Valid()
      ensures step == old(step) + 1
      ensures answers == WithAnswer(old(answers), questions[old(step)].id, value, Note(optionalComment))
      ensures draft == "" && comment == ""
      ensures step == |questions| ==>
        && messages == old(messages) + UserBubbles(value, Note(optionalComment)) + [Message(Bot, Closing)]
        && completions == old(completions) + [answers]
        && requests == old(requests)
      ensures step < |questions| ==>
        && messages == old(messages) + UserBubbles(value, Note(optionalComment))
             + [Message(Bot, ResolveAck(turn, ack)), Message(Bot, FieldOr(question, NextLabel(questions[step])))]
        && completions == old(completions)
        && requests == old(requests) + AdvanceRequests(value, questions[step], turn)
    {
      var q := questions[step];
      var note := Note(optionalComment);
      var nextAnswers := WithAnswer(answers, q.id, value, note);
      AnswerKeepsConsistent(questions, step, answers, completions, value, note);
      var shown := messages + UserBubbles(value, note);

      var nextStep := step + 1;
      if nextStep >= |questions| {
        answers, draft, comment, completions, messages, step :=
          nextAnswers, "", "", completions + [nextAnswers], shown + [Message(Bot, Closing)], nextStep;
      } else {
        var ackText, qText, calls := ResolveTurn(value, questions[nextStep], turn, ack, question);
        answers, draft, comment, requests, messages, step :=
          nextAnswers, "", "", requests + calls, shown + [Message(Bot, ackText), Message(Bot, qText)], nextStep;
      }
    }
  }
}
