# AI-Spørreskjema: the chat questionnaire core in Dafny

This project models the core of a chat-style health questionnaire. Its parts:

- **Question catalog** (`catalog.dfy`, from `questions.js`). The fixed list of eleven question descriptors: one free-text intro, one scored choice about duration, nine 0–10 scales. It also holds the ids that enter the total score and the id-to-label table.
- **Dialogue controller** (`chat_ui.dfy`, from `ChatUI.jsx`). This is a class, because `submit` updates the component's state step by step. It covers:
  - the input gates `clampInt` and `canSend`;
  - the opening prompt;
  - `submit`, which records an answer and then either completes the conversation or shows an acknowledgment and the next question.

  Every `postJSON` call is an input of the step: it either threw or returned a field. The calls made are recorded in the `requests` field.
- **Text-generation gateway** of the later server (`gateway.dfy`, from `AI-SKJEMA-7.0/server.js`). It covers:
  - the canned acknowledgments and question variants;
  - `fallbackQuestion`;
  - `llmGenerate`, reduced to how the provider call ends;
  - `/api/question`;
  - `/api/turn`, with its guard that keeps a generated acknowledgment from asking a question;
  - `/api/ack`.
- **Earlier server** (`legacy_gateway.dfy`, from `AI-SKJEMA-5.0/server.js`). Its single `/api/ack` handler and its own acknowledgment pool.
- **Submission store** (`submissions.dfy`). A class over the newest-first record list behind `/api/submit`, `/api/list` and `/api/clear`. Both servers' store code is the same: 7.0 lines 168-174 and 5.0 lines 68-74.
- **Shared pieces**:
  - `strings.dfy` holds the JavaScript string operations the code uses: `trim`, `split(c)[0]`, removal of a trailing character run, `parseInt(s, 10)` and `String(n)`;
  - `server_common.dfy` holds `pick` and the outcome of a provider call;
  - `wrappers.dfy` holds `Option`.
- **End-to-end facts** (`end_to_end.dfy`). These join the controller with the later server.

How the environment enters the model:

- Randomness (`pick`) is an index argument `i < |arr|`.
- The id generator and the clock are plain string arguments of `Store.Submit`.
- The API key's presence is a `hasKey` flag.
- The provider's reply is a `ProviderOutcome`:
  - `Thrown` covers network errors and malformed JSON;
  - otherwise it gives `ok` and the optional `content`.

Four behaviours of the code that the model keeps as written:

- `fallbackQuestion` prefers the canned variants for a known id and uses the label only when there are none.
- `/api/turn` returns only `{ ack }` (`AI-SKJEMA-7.0/server.js:150`), although the comment above the handler (line 140) says it returns `{ ack, question }`. The controller asks `/api/question` in a separate call, one call after the other, not concurrently.
- The truncated acknowledgment always ends with a period, so it is never empty. The pool is used only when the generated text is blank before truncation (`Gateway.SanitizeAckLeadingQuestion`).
- A stored submission is the request body's fields spread over `id` and `createdAt`. A body field with either name overrides the generated one.

## Model

| member | source | states |
|---|---|---|
| Strings.Trim | AI-SKJEMA-8.0/src/components/ChatUI.jsx:60-61 | `trim()`: the result is empty exactly when the input is all white space; otherwise it starts and ends with a non-space character; it holds no character the input lacks |
| Strings.TrimStripsBothEnds | AI-SKJEMA-7.0/server.js:146 | `trim()` is exactly the removal of the leading white-space run followed by the removal of the trailing one, so it changes nothing else |
| Strings.PrintableAsciiIsNotSpace | AI-SKJEMA-7.0/server.js:146-147 | no printable ASCII character (digits, signs, `?`, `.`, `!`) is in the white-space set that `trim()` removes and `\s` matches |
| Strings.DropWhileEnd | AI-SKJEMA-7.0/server.js:147 | `replace(/[…]*$/, "")` leaves a prefix of the input; every character it removes is in the class, and the kept text does not end in one |
| Strings.TrimKeeps | AI-SKJEMA-7.0/server.js:146 | `trim()` keeps every non-space character of its input |
| Strings.TrimUnchanged | AI-SKJEMA-7.0/server.js:146 | a string with no leading or trailing white space is its own `trim()` |
| Strings.TrimIdempotent | AI-SKJEMA-7.0/server.js:126 | trimming an already trimmed content changes nothing |
| Strings.Or | AI-SKJEMA-7.0/server.js:137 | `a \|\| d` on an optional string: a present non-empty `a` wins, otherwise `d` |
| Strings.BeforeFirst | AI-SKJEMA-7.0/server.js:147 | `split("?")[0]` is a prefix without `?`; it is shorter than the input exactly when the input has a `?`, which then follows it |
| Strings.NatString | AI-SKJEMA-8.0/src/components/ChatUI.jsx:13 | `String(n)` of a natural number is a non-empty run of decimal digits: "0" for zero, and with no leading zero otherwise |
| Strings.NatStringValue | AI-SKJEMA-8.0/src/components/ChatUI.jsx:13 | the digit run `String(n)` denotes `n` |
| Strings.DecimalString | AI-SKJEMA-8.0/src/components/ChatUI.jsx:13 | `String(n)` is non-empty and starts with a non-space character |
| Strings.ParseInt | AI-SKJEMA-8.0/src/components/ChatUI.jsx:11-12 | `Number.parseInt(s, 10)` is `NaN` exactly when, after the leading white space and an optional sign, no digit follows; a parsed value is never positive after `-` and never negative otherwise |
| Strings.TakeWhileConcat | AI-SKJEMA-8.0/src/components/ChatUI.jsx:11 | the digit run `parseInt` reads from `a + b` is all of `a` when `a` is digits and `b` does not start with one |
| Strings.ParseDigitsPrefix | AI-SKJEMA-8.0/src/components/ChatUI.jsx:11 | a run of digits followed by a non-digit parses as the value of the run, whatever follows |
| Strings.ParseNegativeDigitsPrefix | AI-SKJEMA-8.0/src/components/ChatUI.jsx:11 | the same run after `-` parses as the negated value |
| Strings.ParseNatPrefix | AI-SKJEMA-8.0/src/components/ChatUI.jsx:11-13 | the decimal digits of a natural number parse back as that number, whatever non-digit text follows |
| Strings.ParseNegatedNatPrefix | AI-SKJEMA-8.0/src/components/ChatUI.jsx:11-13 | those digits after `-` parse back as the negated number |
| Strings.ParseDecimalString | AI-SKJEMA-8.0/src/components/ChatUI.jsx:11-13 | `parseInt(String(n), 10)` gives back `n` |
| Catalog.Ids | AI-SKJEMA-5.0/src/questions.js:34 | the ids that line 34's map pairs with labels, position by position |
| Catalog.Without | AI-SKJEMA-5.0/src/questions.js:30-32 | the ids left after removing one are exactly the other ids of the list |
| Catalog.LabelTable | AI-SKJEMA-5.0/src/questions.js:34 | `Object.fromEntries` of id/label pairs has exactly the ids as keys |
| Catalog.LabelTableLookup | AI-SKJEMA-5.0/src/questions.js:34 | with distinct ids, the table maps each question's id to that question's label |
| Catalog.QuestionIdsDistinct | AI-SKJEMA-5.0/src/questions.js:1-28 | the eleven catalog ids are pairwise distinct |
| Catalog.ScoreItemIdsAreCatalogIdsWithoutIntro | AI-SKJEMA-5.0/src/questions.js:30-32 | `SCORE_ITEM_IDS` is the catalog's id list, in order, without the free-text intro |
| Catalog.WithoutAbsent | AI-SKJEMA-5.0/src/questions.js:30-32 | removing an id that is not in the list leaves the list unchanged |
| Catalog.QuestionLabelsMatch | AI-SKJEMA-5.0/src/questions.js:34 | `QUESTION_LABELS[q.id]` is `q.label` for every catalog question |
| Catalog.DurationScores | AI-SKJEMA-5.0/src/questions.js:6-17 | the second question is the duration choice; its ten options score 1 to 10 in listed order and have distinct labels |
| Catalog.ScalesRunFromZeroToTen | AI-SKJEMA-5.0/src/questions.js:19-27 | every scale question runs from 0 to 10 |
| Catalog.ReversedScales | AI-SKJEMA-5.0/src/questions.js:19-27 | exactly the light-work, sleep and work-in-three-months scales are reversed |
| Catalog.OnlyTheIntroIsFreeText | AI-SKJEMA-5.0/src/questions.js:2-27 | the first question, and only the first, is free text |
| ServerCommon.Pick | AI-SKJEMA-7.0/server.js:17-19 | `pick(arr)` returns an element of `arr` |
| Gateway.FallbackAcksAreStatements | AI-SKJEMA-7.0/server.js:22-28 | no pool acknowledgment is empty or contains `?` |
| Gateway.FallbackQuestionsShape | AI-SKJEMA-7.0/server.js:31-87 | every id with canned variants has exactly three, none empty |
| Gateway.FallbackQuestionIds | AI-SKJEMA-7.0/server.js:31-87 | the ids of `FALLBACK_QUESTIONS`, listed |
| Gateway.CatalogIds | AI-SKJEMA-5.0/src/questions.js:1-28 | the catalog's ids in order, listed |
| Gateway.FallbackQuestionsCoverCatalog | AI-SKJEMA-7.0/server.js:31-87 | `FALLBACK_QUESTIONS` has an entry for exactly the catalog's ids |
| Gateway.CatalogQuestionHasVariants | AI-SKJEMA-7.0/server.js:31-87 | every catalog question has three canned variants |
| Gateway.Variants | AI-SKJEMA-7.0/server.js:90 | `FALLBACK_QUESTIONS[questionId]` has no variants exactly for a missing or unknown id; otherwise three non-empty ones |
| Gateway.FallbackQuestion | AI-SKJEMA-7.0/server.js:89-92 | a canned variant when the id has some; else a non-empty label; else "OK, neste spørsmål."; never empty |
| Gateway.LlmGenerate | AI-SKJEMA-7.0/server.js:95-131 | a text exactly when a key is set, the call returns ok, and there is non-blank content; that text is the trimmed content, non-empty and trimmed |
| Gateway.QuestionEndpoint | AI-SKJEMA-7.0/server.js:134-138 | `/api/question` gives the generated phrasing when there is one, else `fallbackQuestion`; never empty |
| Gateway.CutQuestion | AI-SKJEMA-7.0/server.js:147 | the truncation is non-empty, ends with a period and has no `?` |
| Gateway.SanitizeAck | AI-SKJEMA-7.0/server.js:145-148 | the `ack` of `/api/turn` never contains `?` and is never empty; a missing or blank generated text yields a pool entry |
| Gateway.TurnEndpoint | AI-SKJEMA-7.0/server.js:141-151 | the handler's step-by-step reassignment of `ack` computes `SanitizeAck` of `llmGenerate`'s result |
| Gateway.SanitizeAckKeepsStatements | AI-SKJEMA-7.0/server.js:146-148 | a generated text without `?` reaches the client trimmed and otherwise unchanged |
| Gateway.SanitizeAckCutsQuestions | AI-SKJEMA-7.0/server.js:147 | a generated text with `?` is replaced by its truncation, which ends with a period |
| Gateway.SanitizeAckLeadingQuestion | AI-SKJEMA-7.0/server.js:147-148 | a generated text whose first non-blank character is `?` becomes "." and not a pool entry |
| Gateway.AckEndpoint | AI-SKJEMA-7.0/server.js:161-165 | `/api/ack` gives the generated text when there is one, else a pool entry; never empty |
| Gateway.TurnAgreesWithAck | AI-SKJEMA-7.0/server.js:141-165 | when the generated text has no `?`, `/api/turn` and `/api/ack` answer the same text |
| LegacyGateway.AckEndpoint | AI-SKJEMA-5.0/server.js:26-66 | non-empty; a pool entry (the picked one) on no key, not-ok or a throw; with an ok response, the trimmed content if non-blank, else a pool entry |
| LegacyGateway.AckEndpointIsGenerateOrPick | AI-SKJEMA-5.0/server.js:26-66 | the earlier handler equals the later `llmGenerate(...) \|\| pick(pool)` over the earlier pool |
| LegacyGateway.AckEndpointMayAsk | AI-SKJEMA-5.0/server.js:59-62 | the earlier handler passes a generated question, with its `?`, to the client |
| Submissions.NewRecord | AI-SKJEMA-7.0/server.js:169 | the record has the body's keys plus `id` and `createdAt`; body fields win; generated `id` and `createdAt` when the body lacks them |
| Submissions.Store.constructor | AI-SKJEMA-7.0/server.js:12 | the store starts empty |
| Submissions.Store.Submit | AI-SKJEMA-7.0/server.js:168-172 | the new record is prepended, the older records keep their order, and the answer is `ok` with the stored record's `id` |
| Submissions.Store.List | AI-SKJEMA-7.0/server.js:173 | `/api/list` returns the records, newest first, and changes nothing |
| Submissions.Store.Clear | AI-SKJEMA-7.0/server.js:174 | `/api/clear` empties the store and answers `ok` |
| ChatUI.ClampInt | AI-SKJEMA-8.0/src/components/ChatUI.jsx:10-14 | "" exactly when the text does not parse; else exactly `String` of a number in `[min, max]`: the parsed value when it is in range, else the nearer bound |
| ChatUI.ClampIntIdempotent | AI-SKJEMA-8.0/src/components/ChatUI.jsx:10-14 | clamping an already clamped draft changes nothing |
| ChatUI.CanSend | AI-SKJEMA-8.0/src/components/ChatUI.jsx:111-117 | never when done or without a current question; free text needs a non-blank draft; a choice needs a non-empty draft; a scale needs a non-empty finite draft; any other type never |
| ChatUI.ClampedDraftSendable | AI-SKJEMA-8.0/src/components/ChatUI.jsx:111-117 | on a scale, a draft from `clampInt` can be sent exactly when the typed text parsed, given that every decimal integer in the scale's range is a finite number |
| ChatUI.Note | AI-SKJEMA-8.0/src/components/ChatUI.jsx:60-61 | a comment is recorded exactly when it is not blank, and then trimmed |
| ChatUI.WithAnswer | AI-SKJEMA-8.0/src/components/ChatUI.jsx:58-62 | the value under the question id; earlier keys kept; the comment under `id + "_comment"` when present; all other entries unchanged and no others added |
| ChatUI.Render | AI-SKJEMA-8.0/src/components/ChatUI.jsx:67 | `String(value)`: a text as it is, a number as its decimal string |
| ChatUI.RenderedNumberReadsBack | AI-SKJEMA-8.0/src/components/ChatUI.jsx:67 | a number's bubble text parses back, through `parseInt`, as that number |
| ChatUI.UserBubbles | AI-SKJEMA-8.0/src/components/ChatUI.jsx:65-69 | one user bubble with `String(value)`, then "Ekstra: " and the comment when there is one |
| ChatUI.FieldOr | AI-SKJEMA-8.0/src/components/ChatUI.jsx:91 | `out?.field \|\| d`: the returned non-empty field, else `d`, also when the call threw |
| ChatUI.ResolveAck | AI-SKJEMA-8.0/src/components/ChatUI.jsx:86-98 | the `/api/turn` ack when non-empty; `/api/ack`'s text only when `/api/turn` threw; else the default; never empty |
| ChatUI.NextLabel | AI-SKJEMA-8.0/src/components/ChatUI.jsx:85 | `next?.label ?? "neste spørsmål"`: the label whenever it is present, even when empty; the fallback only when it is missing |
| ChatUI.FirstPrompt | AI-SKJEMA-8.0/src/components/ChatUI.jsx:41 | never empty; the first label when it is present and non-empty; "Klar?" when there is no question or its label is missing or empty |
| ChatUI.AdvanceRequests | AI-SKJEMA-8.0/src/components/ChatUI.jsx:89-103 | a non-final `submit` calls `/api/turn` first and `/api/question` last, both with the next label; `/api/ack` is called, once, exactly when `/api/turn` threw |
| ChatUI.AnswerKeepsConsistent | AI-SKJEMA-8.0/src/components/ChatUI.jsx:57-81 | recording an answer keeps every answered question's key, and `onComplete` runs once, after the last question |
| ChatUI.ResolveTurn | AI-SKJEMA-8.0/src/components/ChatUI.jsx:83-103 | the try/catch chain yields `ResolveAck`, the `/api/question` text or the next label, and the calls in order, with `/api/ack` only after `/api/turn` threw |
| ChatUI.Controller.constructor | AI-SKJEMA-8.0/src/components/ChatUI.jsx:24-29 | the initial state: step 0, no answers, empty draft, comment and transcript |
| ChatUI.Controller.Current | AI-SKJEMA-8.0/src/components/ChatUI.jsx:54 | `questions[step]`, present exactly while `step` is within the catalog |
| ChatUI.Controller.IsDone | AI-SKJEMA-8.0/src/components/ChatUI.jsx:55 | done exactly when there is no current question |
| ChatUI.Controller.Start | AI-SKJEMA-8.0/src/components/ChatUI.jsx:38-52 | the transcript becomes the greeting and the first prompt, in the generated phrasing when one comes back; one `/api/question` request with the first id and label |
| ChatUI.Controller.EditDraft | AI-SKJEMA-8.0/src/components/ChatUI.jsx:135 | `setDraft(e.target.value)` from the text input or the select (line 140): the draft becomes the typed text and nothing else changes |
| ChatUI.Controller.EditScale | AI-SKJEMA-8.0/src/components/ChatUI.jsx:158 | the scale input stores `clampInt` of the typed text as the draft, and nothing else changes; `canSend` then holds exactly when the typed text parsed |
| ChatUI.Controller.EditComment | AI-SKJEMA-8.0/src/components/ChatUI.jsx:146 | `setComment(e.target.value)` (also line 164): the comment becomes the typed text and nothing else changes |
| ChatUI.Controller.Submit | AI-SKJEMA-8.0/src/components/ChatUI.jsx:57-109 | keeps the invariant; advances `step`; records the answer; clears draft and comment; on the last question runs `onComplete` with the answers and appends the closing text; otherwise appends the resolved ack and the next question's text, after the calls in order |
| EndToEnd.ShownAckFromTurnNeverAsks | AI-SKJEMA-8.0/src/components/ChatUI.jsx:89-91 | when `/api/turn` answers, the acknowledgment shown is its guarded text and has no `?` |
| EndToEnd.ShownAckFromAckMayAsk | AI-SKJEMA-8.0/src/components/ChatUI.jsx:92-97 | when `/api/turn` throws, a generated question from `/api/ack` reaches the transcript with its `?` |
| EndToEnd.OfflineStepUsesCannedText | AI-SKJEMA-8.0/src/components/ChatUI.jsx:84-106 | without a provider key, a non-final step shows a pool acknowledgment and one of the next question's canned variants |

## Left out

- The Express plumbing is not modelled: JSON body parsing and its size limit, static file serving, the catch-all route and `listen`.
- The prompts sent to the provider, its URL, model name and temperature are not modelled. `llmGenerate`'s `mode` only chooses the prompt, so it is not a parameter.
- `fetch` and the JSON decoding of its response are left out. What they produce is the `ProviderOutcome` argument.
- `uid()` and `new Date().toISOString()` are arguments of `Store.Submit`. `Math.random()` in `pick` is an index argument.
- Lines 152-158 of the later `server.js` are left out. They follow the closed `/api/turn` handler, use names that are not in scope, and end in an unmatched `});` at line 158, so the file as written does not parse. Likewise `Bubble` at `ChatUI.jsx:4-9` is never closed, so that file does not parse either. The model follows the handlers and the component as evidently intended.
- `/api/turn` reads `nextQuestionLabel` only for the prompt, so the label is not an argument of `TurnEndpoint`.
- A non-object request body is left out; the model covers a present or an absent body.
- Submissions.Json: a JSON number is an `int` here rather than a double. The store never computes on body values, it only stores and returns them.
- React rendering is left out: `Bubble`, scrolling, the `setTimeout` calls, the `botTyping` indicator and `showOptionalComment`.
- Keyboard handling in `handleEnterSend` is left out, and so is which value the Send button passes: `Number(draft)` on a scale, otherwise the trimmed draft. The controller takes the submitted value as given. Typing is modelled by the `onChange` edits `EditDraft`, `EditScale` and `EditComment`.
- ChatUI.Controller.Submit: its precondition `step < |questions|` stands for the input bar being shown only while a question is current. The source itself does not guard `submit`.
- `onComplete` is recorded in `completions` rather than called, so a throwing `onComplete` is not modelled.
- Concurrency is not modelled: an effect that runs while `submit` is still awaiting, or two submits in flight. Each `submit` is one atomic step.
- ChatUI.CanSend: `Number.isFinite(Number(draft))` is a function argument, because `Number` string parsing is not modelled.
- ChatUI.ClampInt: integers are unbounded, so a very long digit string that JavaScript parses with floating-point rounding is not modelled.
- Strings are sequences of Unicode scalar values rather than UTF-16 code units. Keys inherited from `Object.prototype` are not modelled as keys of `FALLBACK_QUESTIONS`.
- `SCORE_ITEM_IDS` feeding a scoring module, and the older chat page, are not part of this model. The scoring module and the older page are other components.
