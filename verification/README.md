# Cultural-competence feedback core, modelled in Dafny

The repository is a browser-based cross-cultural training simulator. A user
role-plays a scenario against an AI counterpart. Each free-text action is
judged by a scoring model, and that judgment (a structured feedback value)
moves the user's per-culture competence score. This project models the
behaviour beneath the UI:

- `types.dfy` (module `Types`): the records of `types.ts`. These are the
  severity grades, the feedback dimension, the complete interaction
  feedback, the user profile, the scenario template and the transcript
  turn.
- `competence.dfy` (module `Competence`): `updateCompetence` from
  `App.tsx`, the competence aggregator. It clamps one culture's score to
  0..100 and recomputes the overall score as the rounded mean of all
  entries, or 0 for an empty map. The pure part is the specification
  `Updated`. The method `NextProfile` (the `setCurrentUser` updater) is
  proved equal to it, and its loop `SumValues` is the `reduce`. The class
  `AppState` holds `currentUser`.
- `strings.dfy` (module `Strings`): JavaScript's `trim`, which the
  controller uses to guard and to clean the input.
- `gemini.dfy` (module `Gemini`): `services/gemini.ts`. It covers the
  conversation `contents` sent to the scoring model, the declared reply
  shape `FEEDBACK_SCHEMA` as the predicate `WellFormed`, and the
  parse-or-throw step. The network call and the JSON text parser are
  function parameters (`generate`, `parse`).
- `runner.dfy` (module `Runner`): `ScenarioRunner` from `App.tsx` as a
  class with the component's five state fields. Its methods are the mount
  effect, typing, `handleSubmit` and the gated send button. The awaited
  `processInteraction` call is the function parameter `oracle`, and each
  submission is one sequential step.

In each of the cases below, the model follows the code as written:

- The parsed reply is returned as it is. The -25..+25 range of
  `competenceImpact`, the -5..+5 range of `score` and the severity
  enumeration are never checked at run time. An out-of-range or unknown
  value is not rejected.
- A failed call leaves the input field cleared. The action text is not
  restored.
- The stored user turn holds the trimmed action, not the raw text.
- `handleSubmit` does not test `sessionCompleted`. Only the disabled text
  area and send button stop input after completion.
- Completion is decided on the transcript length before the append
  (`history.length > 8`). The fifth successful submission therefore
  completes the session, when the transcript reaches 11 turns.

`Math.round(s / n)` is modelled as `(2*s + n) / (2*n)` with Dafny's
flooring division. JavaScript's `Math.round` is the floor of `x + 1/2`, so
this is exact for every integer sum, negative sums included.

## Model

| member | source | states |
|---|---|---|
| Competence.Clamp | App.tsx:689 | The result lies in `lo..hi`. It equals `x` when `x` is inside and the nearer bound otherwise (`Math.max(0, Math.min(100, x))`). |
| Competence.RoundHalfUp | App.tsx:694 | The result `r` is within half a unit of `s/n`, with ties going up: `2nr - n <= 2s < 2nr + n`. |
| Competence.RoundHalfUpUnique | App.tsx:694 | Any integer with that half-unit property equals `RoundHalfUp(s, n)`, so the formula is exactly `Math.round(s/n)`. |
| Competence.SumRemove | App.tsx:692-694 | The sum of the map's values does not depend on the order in which entries are visited. |
| Competence.SumBounds | App.tsx:692-694 | If every entry is in 0..100, the sum is between 0 and 100 times the number of entries. |
| Competence.SumValues | App.tsx:692-694 | The loop over the values (the `reduce`) returns exactly the sum of the map. |
| Competence.UpdatedScores | App.tsx:688-690 | The copied map's keys are the old keys plus `cultureId`. That entry is `clamp(old-or-0 + impact, 0, 100)`. Every other entry is unchanged. |
| Competence.NextProfile | App.tsx:686-697 | The updater's result is the specified profile `Updated(prev, cultureId, impact)`: the new scores, and an overall score equal to their rounded mean. |
| Competence.AppState.UpdateCompetence | App.tsx:683-698 | With nobody logged in, nothing changes. Otherwise `currentUser` becomes `Updated(old user, cultureId, impact)`. |
| Competence.UpdatedEntry | App.tsx:689-690 | After an update, the culture is tracked and its score is the clamped sum, which is always in 0..100. |
| Competence.UpdatedFrame | App.tsx:688-696 | The key set grows by `cultureId` at most. Every other entry is unchanged, and the id, name and origin are kept. |
| Competence.OverallIsRoundedMean | App.tsx:692-694 | The overall score is 0 for an empty map. Otherwise it is within half a point of sum/count, rounding ties up. |
| Competence.OverallWithin | App.tsx:692-694 | If every entry is in 0..100, the overall score is in 0..100. |
| Competence.UpdatedStaysWithin | App.tsx:688-696 | If every entry starts in 0..100, an update keeps every entry and the overall score in 0..100, and the overall score matches the map. |
| Competence.ZeroImpactOnTracked | App.tsx:689-694 | Impact 0 on a tracked entry already in 0..100 leaves a consistent profile exactly as it was. |
| Competence.ZeroImpactOnUntracked | App.tsx:689-690 | Impact 0 on an untracked culture adds that culture with score 0. |
| Competence.MockUserAlice | constants.ts:109-116 | The map {GERMANY:45, JAPAN:30} has overall 38. Applying +10 to GERMANY gives {GERMANY:55, JAPAN:30} with overall 43. |
| Competence.MockUserBob | constants.ts:117-123 | The map {BRAZIL:60, INDIA:55} has overall 58 (57.5 rounded up). |
| Competence.FirstCultureTracked | App.tsx:689-694 | From an empty map, +5 for USA gives {USA:5} with overall 5. |
| Strings.SkipLeading | App.tsx:315 | The scan for the start of `trim()` passes only whitespace, and stops at the first character that is not whitespace or at the end. |
| Strings.SkipTrailing | App.tsx:315 | The scan for the end of `trim()` passes only whitespace, moving backwards. It stops after the last character that is not whitespace, or at the start bound. |
| Strings.Trim | App.tsx:317 | `trim()` neither starts nor ends with whitespace and is no longer than its input. |
| Strings.TrimCharacterised | App.tsx:317 | A reference definition of `trim()` that does not use the scans. Take any slice that has only whitespace before and after it and no whitespace at its own ends. That slice is the trimmed string. |
| Strings.TrimEmptyIffBlank | App.tsx:315 | The guard's `!userAction.trim()` holds exactly when the input is all whitespace. |
| Strings.TrimIdempotent | App.tsx:317 | Trimming the already-trimmed action changes nothing. |
| Gemini.HistoryContents | services/gemini.ts:76-79 | There is one request message per history entry, in order, with the mapped role and the entry's text as its single part. |
| Gemini.BuildContents | services/gemini.ts:75-84 | The request has `|history| + 1` messages: the history's messages, then a user message whose text is `"User Action: " + userAction`. |
| Gemini.HistoryContentsRoundTrip | services/gemini.ts:76-79 | Reading the history messages back gives the original history: order, roles and texts are all kept. |
| Gemini.BuildContentsRoundTrip | services/gemini.ts:75-84 | The first `|history|` messages read back as the history. The last one reads back as the user's prefixed action. |
| Gemini.SeverityName | services/gemini.ts:19-22 | Every severity grade has a wire name from the schema's enumeration. |
| Gemini.ParseSeverity | services/gemini.ts:19-22 | A name parses exactly when it is in the enumeration, and it parses to the grade with that name. |
| Gemini.SeverityNameRoundTrip | types.ts:2 | Wire names and grades correspond one to one, in both directions. |
| Gemini.WellFormedHasRequired | services/gemini.ts:35-43 | A reply of the declared shape has all five required top-level properties. Each of its dimensions is an object with all five required properties. |
| Gemini.FeedbackOf | services/gemini.ts:97-98 | A JSON value has a typed reading exactly when it has the declared shape. |
| Gemini.DimensionRoundTrip | services/gemini.ts:24-37 | Any dimension value encodes to a well-formed dimension object and reads back unchanged. |
| Gemini.FeedbackRoundTrip | services/gemini.ts:8-44 | Any feedback value encodes to a reply of the declared shape and reads back unchanged. |
| Gemini.FeedbackOfKeepsNumbers | services/gemini.ts:38-41 | `competenceImpact` and each dimension `score` are taken straight from the JSON, with no clamping or range check. |
| Gemini.OutOfRangeNumbersAreWellFormed | services/gemini.ts:29-41 | An impact of 26 and a score of 9 still fit the declared shape, because the ranges are only descriptions. |
| Gemini.EmptyReplyReadAsEmptyObject | services/gemini.ts:97 | An empty reply text is parsed as `'{}'`, and the outcome is whatever `'{}'` parses to. |
| Gemini.InteractionErrors | services/gemini.ts:96-102 | The only failures are the failed call and the error with the fixed message "Invalid response from AI agent.". The call fails exactly when the engine gives no reply. |
| Gemini.OnlyTheBuiltRequestMatters | services/gemini.ts:75-102 | The engine is consulted only on `BuildContents(history, userAction)`. Two engines that answer that request alike give the same outcome. |
| Gemini.NoValidationOfParsedReply | services/gemini.ts:96-98 | Whatever parses is returned as a success, whether it is well formed or not and whether its numbers are in range or not. |
| Runner.ChatHistoryAppend | App.tsx:322 | The history handed to the engine for a longer transcript is the shorter transcript's history followed by the added turns' roles and texts, without feedback. |
| Runner.NextRequestReplaysBareAction | services/gemini.ts:75-84 | After a reply, the next round's request is two messages longer than the previous one, and its first `|history|` messages are the same. It does not simply extend the previous request, though. The previous request sent the action with the "User Action: " prefix (services/gemini.ts:82), but the transcript stores the bare action (App.tsx:334). So the replay holds the action without the prefix, followed by the reply text. |
| Runner.TranscriptAppend | App.tsx:332-336 | Appending a trimmed user turn and a counterpart turn that carries its feedback keeps the transcript alternating and of odd length. From at most 10 turns it reaches at most 11, and it then exceeds 10 exactly when it exceeded 8 before. |
| Runner.ScenarioRunner.constructor | App.tsx:298-311 | The initial state has empty input, no call in flight, not completed and no feedback. When both lookups succeed, the history is exactly one model turn holding the template's `initialSituation`. |
| Runner.ScenarioRunner.Type | App.tsx:406-412 | The text area takes the typed text unless it is disabled (processing or completed), and nothing else changes. |
| Runner.ScenarioRunner.ApplyReply | App.tsx:332-342 | After a reply, exactly a user turn with the action and a model turn with `aiResponse` and its feedback are appended. The feedback is recorded and the impact is applied once. The session completes exactly when the length captured before the append was over 8. |
| Runner.ScenarioRunner.Process | App.tsx:319-347 | Past the guard, the input ends cleared and the in-flight flag ends down. A failure changes nothing else, and a reply has the effect of `ApplyReply`. |
| Runner.ScenarioRunner.HandleSubmit | App.tsx:313-348 | A rejected submission changes nothing (blank input, a call in flight, or a failed lookup). A failure leaves history, feedback, completion and scores unchanged, with the input cleared and the flag down. A reply appends exactly a user turn with the trimmed action and a model turn with `aiResponse` and its feedback, and records the feedback. It applies the impact once for `cultureId`, and completes the session if the length before the append was over 8. Completion never reverts. |
| Runner.ScenarioRunner.Send | App.tsx:414-420 | When the send button is disabled (blank, processing or completed), nothing changes. Otherwise it has exactly the effect of `HandleSubmit`. |
| Runner.ScenarioRunner.Enter | App.tsx:406-420 | Typing and pressing send. While processing or completed, nothing changes. Otherwise, when the lookups succeeded and the text is not blank, the effect is `Answered` for the trimmed text: earlier turns are kept, the user and model turns of the reply are appended, and the scores are updated. Otherwise only the input changes. |
| Runner.AnsweredRound | App.tsx:406-420 | When every call is answered, entering a non-blank action has the effect `Answered`. Earlier turns are kept, a user turn with the trimmed action and a model turn with the reply are appended, and the impact is applied. The session completes exactly when it had over 8 turns before. |
| Runner.CompleteSession | App.tsx:340-342 | With every call answered, five submissions complete a fresh session with 11 turns, the first being the opening narrative. The input is then empty and the send button is disabled. |

The class invariant `Runner.ScenarioRunner.Valid` states the following:

- The transcript starts with the opening narrative and alternates user and
  counterpart turns, so its length is odd.
- It never exceeds 11 turns.
- `sessionCompleted` holds exactly when the transcript has more than 10
  turns.
- `lastFeedback` is the feedback of the last turn.
- The input is empty once the session is completed.

## Left out

- All React views, layout and routing (cards, buttons, badges, login, dashboard, scenario selection, knowledge base, settings, layout, the route table): UI only.
- `navigate('/scenarios')` when the template or culture is missing: routing. The model keeps the history empty, and the guard then rejects every submission.
- The `GoogleGenAI` client, the model name and the `generateContent` call: these are a foreign library and network I/O, so they become the `generate` parameter. A rejected call is `RequestFailed`. An absent reply text is modelled as the empty string.
- The system-prompt text and the settings object passed to `processInteraction`: free-form prompt wording with no behavioural contract. The culture, template and user reach the engine only through the prompt, so they are not parameters of the model.
- JSON text parsing: this is the `parse` parameter. JSON numbers are integers here. Non-integer impacts and the floating-point division inside `Math.round` are not modelled.
- Gemini.FeedbackOf: the source has no such function. It is the model's reading of the TypeScript cast for values of the declared shape. A parsed value of another shape reaches the controller in the source (a missing `competenceImpact` would turn the score into `NaN`). The controller's `oracle` only delivers typed feedback, so such values are outside the model.
- Asynchronous interleaving and React state batching: each submission runs as one step. `isProcessing` is raised before the call and lowered after it, so the "call in flight" rejection is modelled as a guard but no second event is ever interleaved with a call. The functional `setHistory(prev => ...)` and the captured `history` then denote the same transcript.
- `console.error` logging and `e.preventDefault()`: no effect on state.
- The static catalogues in constants.ts: only the two mock users are used, as test vectors.
