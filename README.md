# ScriptFlow orchestration core in Dafny

This project models the part of ScriptFlow that turns a video title and its
source data into a script by driving three language-model agents:

- **The orchestrator** (`ContentManager`, `content_manager.dfy`) runs up to
  five attempts, with `MAX_ATTEMPTS = 5` and `MIN_SCORE = 8`. Each attempt:
  1. summarises the previous failed evaluation;
  2. asks the script writer for a new draft or a revision;
  3. asks the validator for a score.

  It keeps two append-only logs: the audit trail of agent interactions and
  the progress messages. It stops at:
  - the first approved script;
  - a writer or validator error, with an early return;
  - the fifth failed attempt.

  It is a `class` whose fields `interactions` and `statusUpdates` are updated
  in place by `LogInteraction` and `LogStatus`. `GenerateContent` is its
  do-while loop. The loop is proved equal to `Generate`, a reference
  definition of the same loop as a recursive function over the loop
  variables and logs. The lemmas about the orchestrator are stated over
  `Generate`.
- **The validator's parser** (`Validator`, `validator.dfy`) reads the five
  scores and the verdict out of the model's evaluation text:
  - It implements the regular expression `LABEL:\s*\[\s*([\d.]+)\s*\]` with
    leftmost-match semantics.
  - It reads numbers with `parseFloat`'s longest-prefix rule, computed exactly
    as decimals.
  - It reads `VERDICT:\s*(.*)` with a trim and a fallback.
  - The pass gate is `total >= 8` on the reported TOTAL.
  - It has the outer catch that turns a failed backend call into an all-zero,
    failing evaluation.
- **The genre classifier's post-processing** (`GenreClassifier`,
  `genre_classifier.dfy`) normalises the model's reply: trim, lower-case, and
  strip one trailing `.` or `,`. It then maps the reply onto the 14
  predefined genres or the "not found" sentinel.
- **The completion-call bookkeeping** shared by all agents (`BaseAgent`,
  `base_agent.dfy`):
  - the loop that maps chat messages to the backend's history, with the
    empty-history check;
  - the checks on the backend's response;
  - the retry loop on rate-limit errors.

  Both loops are `method`s proved against reference functions.

The language models, and so the agents' backends, are oracles. The
orchestrator gets an `Agents` value with three functions:

- the summariser's completion outcome, from the evaluation text and the
  attempt number;
- the script writer's outcome, from its arguments and the attempt number;
- the validator agent's answer, from the script, the duration and the attempt
  number.

The validator's answer is either an evaluation (`Assessed`) or a thrown error
(`Raised`). `ParsingValidator` builds the real validator agent from a backend
oracle and the parser. `ParsingValidatorIsSound` and
`SoundValidatorNeverFails` show that with this agent the orchestrator's
validator-error branch is never taken. The model still covers that branch for
a validator that can throw. `BaseAgent` takes the backend as a function from
the history and the call number to a reply. Shared records and JavaScript
text helpers (`trim`, `\s`, number printing) are in `types.dfy`.

## Model

| member | source | states |
|---|---|---|
| ContentManager.ContentManager.constructor | src/managers/contentManager.ts:23-29 | A new manager starts with both logs empty and keeps the agents it is given. |
| ContentManager.ContentManager.LogInteraction | src/managers/contentManager.ts:31-44 | Appends exactly one audit-trail entry with the given agent, action, input and output; the progress messages are unchanged. |
| ContentManager.ContentManager.LogStatus | src/managers/contentManager.ts:46-55 | Appends exactly one progress message; the audit trail is unchanged. |
| ContentManager.ContentManager.SummarizePrevious | src/managers/contentManager.ts:109-132 | The summary step. The summariser is asked about the previous evaluation's full text only when that evaluation exists, failed and has a verdict. A summariser error is not fatal: it logs the error and gives the fallback feedback built from the previous total and verdict. In every other case the feedback is empty. The new logs and the feedback are those of `SummaryPhase`. |
| ContentManager.ContentManager.PrepareAttempt | src/managers/contentManager.ts:103-140 | The head of attempt k: the attempt message, the summary step, then the drafting or revising message, in that order. |
| ContentManager.ContentManager.RunAttempt | src/managers/contentManager.ts:103-245 | One pass through the loop body advances the attempt counter by exactly one. It either returns the early result of a writer or validator error, or the loop variables and logs from which the reference loop `Run` continues. Either way it is the same step `Attempt` takes. |
| ContentManager.ContentManager.Abandon | src/managers/contentManager.ts:169-188 | An agent error logs one error message and returns, without success: the current script or the fixed fallback script; the last evaluation, or an all-zero failing one carrying the error; the current attempt count; and the logs. |
| ContentManager.ContentManager.EvaluateDraft | src/managers/contentManager.ts:162-244 | The second half of an attempt: logs the writer entry and the draft messages, then asks the validator. If the validator throws, returns early with the draft and the previous evaluation (223-242). Otherwise it logs the validator entry and the verdict. Success holds exactly when the evaluation passed with a total of at least 8, and the last script becomes the draft. This is exactly `Evaluated`. |
| ContentManager.ContentManager.GenerateContent | src/managers/contentManager.ts:57-276 | The whole method: resets the logs, logs the genre entry and the opening messages, runs the do-while loop and returns. Its result and final logs equal the reference definition `Generate`. |
| ContentManager.Summarize | src/agents/summarizer.ts:27-30 | The summariser either returns the backend's text or throws its own fixed error, whatever the backend's error was. |
| ContentManager.WriteScript | src/agents/scriptWriter.ts:94-97 | The script writer either returns the backend's text or throws its own fixed error. |
| ContentManager.CountAppend | src/managers/contentManager.ts:31-44 | Appending one entry raises the count of entries by its agent by one and leaves the count of every other agent unchanged. |
| ContentManager.EvaluatedFacts | src/managers/contentManager.ts:162-242 | The second half of an attempt. The logs only grow, and the audit trail gains exactly the writer entry for the draft. If the validator throws, the run stops at this attempt as a validator failure, with no validator entry. It returns the draft, or the fixed failure script when the draft is empty, and the previous evaluation, or an all-zero failing one naming the error. Otherwise the draft becomes both the current and the last script. The evaluation is the validator's verdict on it, success holds exactly when it passed with at least 8, and the audit trail gains exactly the validator entry after the writer entry. The messages end with the verdict messages. |
| ContentManager.WriterStopFacts | src/managers/contentManager.ts:169-188 | A writer error keeps the attempt count and the audit trail. It returns the current script, or the fixed failure script when there is none, and the previous evaluation, or an all-zero failing one naming the error. The messages only grow. |
| ContentManager.AttemptStops | src/managers/contentManager.ts:103-242 | An attempt that returns early counts as one attempt and only extends the logs. On a writer error it returns the previous draft, or the fixed failure script, and the audit trail ends with the summary step: no new writer or validator entry. On a validator error it returns the new draft, or the fixed failure script, and the audit trail gains exactly the writer entry for that draft. Either way the evaluation returned is the previous one, or an all-zero failing one naming the error. |
| ContentManager.WriterStops | src/managers/contentManager.ts:134-188 | A writer error stops the attempt: the attempt count is advanced, the previous draft and evaluation are returned, and the audit trail is the one after the summary step. |
| ContentManager.ValidatorStops | src/managers/contentManager.ts:141-242 | A validator error after the writer returned a draft stops the attempt: the draft and the previous evaluation are returned, and the audit trail gains exactly the writer entry for that draft. |
| ContentManager.HeadFacts | src/managers/contentManager.ts:103-140 | The head of an attempt, up to the writer's call, only appends messages and adds no writer or validator entry. |
| ContentManager.AttemptEvaluates | src/managers/contentManager.ts:103-245 | An attempt that completes counts as one attempt. Its script is what the writer returned for this attempt's call, and its evaluation is the validator's verdict on that script. Success holds exactly when the script passed with at least 8, and the last script is the new script. The audit trail gains, in this order, the summariser entry when a summary was asked for and returned, the writer entry for that script and the validator entry for that evaluation, and nothing else. The messages end with the verdict messages, including "maximum attempts reached" at attempt 5. |
| ContentManager.AttemptScript | src/managers/contentManager.ts:141-221 | The script and evaluation part of `AttemptEvaluates`: the writer's output for this attempt's call is evaluated, and success means approval. |
| ContentManager.AttemptLog | src/managers/contentManager.ts:109-202 | The audit-trail part of `AttemptEvaluates`: exactly the summary entry, if any, the writer entry and the validator entry are appended, in that order. |
| ContentManager.SummaryFacts | src/managers/contentManager.ts:109-132 | The summary step only appends messages. The audit trail is unchanged, or gains exactly one summariser entry holding the previous full evaluation and the returned summary. It gains that entry exactly when the previous evaluation failed with a verdict and the summariser returned. |
| ContentManager.AttemptOK | src/managers/contentManager.ts:103-245 | Every attempt ends in one of the two ways `AttemptStops` and `AttemptEvaluates` describe. |
| ContentManager.RunOutcome | src/managers/contentManager.ts:103-275 | The loop from any state before the fifth attempt makes between one more attempt and five in all, and the logs only grow. Success implies an approved script. It returns the loop variables at the head of each attempt, each attempt but the last coming back with the next. None of these attempts but the last was successful, so the loop stops right after the first approval. The last one ends in exactly one of three ways. On a normal exit, approved or exhausted, the script is the writer's output at the last attempt and the evaluation is the validator's on it. On a writer error the previous draft is returned. On a validator error the new draft is returned. Each completed attempt logs one writer and one validator entry. |
| ContentManager.ContinueOutcome | src/managers/contentManager.ts:245-275 | The loop test keeps `RunOutcome`'s guarantee. It loops again only after an attempt that was not successful, so no attempt before the last one of the run was approved. Otherwise the run ends with that attempt's result. |
| ContentManager.StoppedOutcome | src/managers/contentManager.ts:169-188 | An attempt that returns early is the last one, and the run ends as `Halted` describes. |
| ContentManager.FinishOutcome | src/managers/contentManager.ts:245-275 | An attempt after which the loop test fails is the last one, and its own script and evaluation are returned. |
| ContentManager.NextOutcome | src/managers/contentManager.ts:245-246 | An attempt that was not successful and after which the loop goes on adds one attempt, one writer entry and one validator entry in front of the rest of the run. No attempt after the first in the longer run is successful. |
| ContentManager.TrailCompletes | src/managers/contentManager.ts:103-246 | Every attempt that comes back to the loop test evaluates the writer's output and logs its writer and validator entries, as `AttemptEvaluates` says. |
| ContentManager.FinishFacts | src/managers/contentManager.ts:217-221 | After the last evaluated attempt, the result is a normal exit, approved or exhausted at attempt 5. It returns that attempt's own script and evaluation, its attempt count and its audit trail. Its messages end with the verdict, "maximum attempts reached" when exhausted, and the completion message. Both cases are also at 266-275. |
| ContentManager.GenerateOutcome | src/managers/contentManager.ts:57-276 | The properties of the whole method: 1 ≤ attempts ≤ 5, and the audit trail starts with the genre entry. The first two messages are the start and style messages, and success implies the returned script was approved with a total of at least 8. It returns the loop variables for each attempt, starting from the initial state. Each attempt but the last comes back with the next, and none of them but the last is successful. On a normal exit the returned script is the writer's output at attempt `attempts`, the evaluation is the validator's on it, and the writer and validator entries each number exactly `attempts`. After a writer error the previous draft is returned and both counts are one fewer. After a validator error the new draft is returned and only the validator entries are one fewer. |
| ContentManager.StartOutcome | src/managers/contentManager.ts:64-101 | Applies `RunOutcome`'s guarantee from the start state, whose logs hold only the genre entry and the two opening messages. It yields `GenerateOutcome`'s properties. |
| ContentManager.EarlierAttemptsRejected | src/managers/contentManager.ts:190-245 | On such a run, every attempt that came back to the loop test advanced the count by one, and its script was evaluated by the validator and not approved. |
| ContentManager.ExhaustedRunRejectedFive | src/managers/contentManager.ts:204-245 | A run that ends normally without success is exhausted: it made exactly five attempts. The four that came back to the loop test and the fifth each had their script evaluated and rejected. |
| ContentManager.GenerateExhausted | src/managers/contentManager.ts:57-276 | An unsuccessful normal exit of the whole method follows five attempts from the start state, each with a rejected evaluation, and returns the fifth script and evaluation. |
| ContentManager.SoundValidatorNeverFails | src/managers/contentManager.ts:223-242 | With a validator agent that never throws, no run ends in the validator-error branch. |
| ContentManager.ParsingValidatorIsSound | src/agents/validator.ts:103-126 | The real validator agent, a backend reply parsed by `validateScript`, never throws. Its evaluation passes exactly when the total is at least 8, and it always has a verdict. |
| ContentManager.FailedChecksReason | src/managers/contentManager.ts:204-216 | With the real validator, an unapproved evaluation always gets the reason "Failed validation checks."; the "below minimum" wording cannot occur. |
| ContentManager.FirstWriterCall | src/managers/contentManager.ts:131-148 | Attempt 1 calls the writer with empty feedback and no previous script. |
| ContentManager.RevisionThreading | src/managers/contentManager.ts:109-148 | The attempt after a completed, unapproved one revises exactly the script that attempt produced. Its feedback comes from the summariser, asked about the full evaluation text of that script, or from the fallback built from that evaluation if the summariser throws. The feedback is empty when the evaluation passed or has no verdict. |
| ContentManager.WriterLogHidesScript | src/managers/contentManager.ts:150-167 | The writer's logged input never contains the previous script's text: it is the same whatever that script says. It ends with the `[See Previous Interaction]` marker on a revision. |
| ContentManager.FirstWriterFailure | src/managers/contentManager.ts:169-188 | A writer error on attempt 1 returns at once with the fixed failure script, an all-zero failing evaluation naming the error, attempts = 1, no success and only the genre entry in the audit trail. |
| Validator.RunLength | src/agents/validator.ts:53-54 | A greedy `cls*` run: the longest run of the class starting at the position. |
| Validator.SkipSpace | src/agents/validator.ts:53-54 | `\s*` stops at the first non-whitespace character. |
| Validator.CaptureAt | src/agents/validator.ts:53-54 | The capture of `([\d.]+)\s*\]` is a non-empty run of digits and dots. |
| Validator.BracketAt | src/agents/validator.ts:53-54 | The capture of `\[\s*([\d.]+)\s*\]` is a non-empty run of digits and dots. |
| Validator.FieldAt | src/agents/validator.ts:53-54 | A match of the whole label pattern at a position starts with `LABEL:` and captures digits and dots. |
| Validator.MatchField | src/agents/validator.ts:57 | `result.match(...)` finds the leftmost position where the pattern matches, and no earlier position matches. With no match, no position matches. |
| Validator.Pow10 | src/agents/validator.ts:59 | Powers of ten are positive (used by the exact decimal reading). |
| Validator.DecimalValue | src/agents/validator.ts:59 | The value of `whole.fraction` is at least its integral part. |
| Validator.ParseFloat | src/agents/validator.ts:59 | `parseFloat` of a capture is a non-negative number, or NaN. |
| Validator.ExtractScore | src/agents/validator.ts:56-86 | `extractScore` never yields a negative score: 0 when there is no match or the capture is NaN. |
| Validator.IndexOf | src/agents/validator.ts:94 | The leftmost occurrence of a pattern at or after a position, or none at all. |
| Validator.Verdict | src/agents/validator.ts:94-95 | The verdict is never empty. |
| Validator.ValidateScript | src/agents/validator.ts:53-126 | `passed` holds exactly when `total >= 8`, the verdict is non-empty, the total is non-negative and the full evaluation is the raw reply. A backend error gives the all-zero failing evaluation with the fixed feedback and the error text. |
| Validator.DigitsValueOfNatText | src/agents/validator.ts:59 | Decimal digits printed for a natural number read back as that number. |
| Validator.ParseFloatOfNatText | src/agents/validator.ts:59 | `parseFloat` reads a whole number back exactly. |
| Validator.ParseFloatStopsAtSecondDot | src/agents/validator.ts:59 | `parseFloat` stops at a second dot, so `2.5.1` reads as 2.5. |
| Validator.ParseFloatNaN | src/agents/validator.ts:59-67 | A capture such as `.` or `..5` is NaN, so the score falls back to 0. |
| Validator.RunLengthIs | src/agents/validator.ts:53-54 | A greedy run is determined by where the class ends. |
| Validator.SkipSpaceIs | src/agents/validator.ts:53-54 | `\s*` is determined by where the whitespace ends. |
| Validator.CaptureMatches | src/agents/validator.ts:53-54 | A digit-and-dot run, optional whitespace and `]` match and capture that run. |
| Validator.FieldMatches | src/agents/validator.ts:53-54 | `LABEL:`, whitespace, `[`, whitespace, a digit-and-dot run, whitespace and `]` at the start of a text match the pattern there and capture the run. |
| Validator.FieldAtStart | src/agents/validator.ts:53-54 | The pattern matches at the start of `LABEL: [value]`, with any whitespace the pattern allows, and captures `value`. |
| Validator.LeadingField | src/agents/validator.ts:53-54 | A match at the start of a text begins with `LABEL:` and captures a non-empty run of digits and dots. |
| Validator.ScoreOf | src/agents/validator.ts:58-67 | The score of a capture is `parseFloat` of it, or 0 when that is NaN; it is never negative. |
| Validator.FieldAfter | src/agents/validator.ts:53-67 | A field in the form `LABEL: [value]` anywhere in the reply, after text in which no `LABEL:` starts, reads as `parseFloat(value)`, or 0 when that is NaN. |
| Validator.NoFieldBefore | src/agents/validator.ts:53-57 | The pattern cannot match before the first `LABEL:`. |
| Validator.LeftmostMatch | src/agents/validator.ts:57-67 | The score is read from the leftmost position where the whole pattern matches. |
| Validator.NoMatchIsZero | src/agents/validator.ts:68-85 | When the pattern matches nowhere the score is 0. |
| Validator.MissingFieldIsZero | src/agents/validator.ts:68-85 | A label that never occurs reads as 0, without an error. |
| Validator.UnbracketedFieldIsZero | src/agents/validator.ts:68-85 | When every `LABEL:` in the text is followed, after whitespace, by something other than `[`, as in `SCORE_HOOK: 2`, the score is 0 and no error is raised. |
| Validator.AbsentInitialIsZero | src/agents/validator.ts:68-85 | A label whose first character never appears in the text reads as 0. |
| Validator.ScoresOfTotalOnly | src/agents/validator.ts:88-92 | A reply holding only `TOTAL: [n]` has four zero sub-scores and total n. |
| Validator.TotalIsReportedNotSummed | src/agents/validator.ts:92-111 | `passed` follows the reported TOTAL, not the sum of the sub-scores: such a reply passes exactly when n ≥ 8, while its sub-scores sum to 0. |
| Validator.MissingVerdict | src/agents/validator.ts:94-95 | Without `VERDICT:` the feedback is "Verdict not found.". |
| Validator.NoLabelInPreamble | src/agents/validator.ts:94 | No `VERDICT:` starts inside a preamble that ends a line and does not contain one. |
| Validator.FirstLabelAfter | src/agents/validator.ts:94 | After a preamble in which no `VERDICT:` starts, the first `VERDICT:` is the one right after it. |
| Validator.VerdictLineIs | src/agents/validator.ts:94 | The capture runs from the first non-whitespace character after the label to the end of its line. |
| Validator.VerdictOfLine | src/agents/validator.ts:94-95 | The verdict round trip: after a preamble in which no `VERDICT:` starts, which may end mid-line, `VERDICT:`, whitespace (line breaks included) and `v` yield exactly `v`. The rest of the text after `v`'s line is ignored. |
| Validator.BlankVerdict | src/agents/validator.ts:94-95 | A `VERDICT:` followed by nothing but whitespace gives the fallback "Verdict not found.". |
| Validator.VerdictInReply | src/agents/validator.ts:94-95 | The feedback is the fallback sentence or a piece of the reply. |
| Validator.NoLabelInLine | src/agents/validator.ts:53-54 | In a line `KEY: [value]` whose key does not end in `NAME`, no `NAME:` starts. |
| Validator.NoLabelInReply | src/agents/validator.ts:53-54 | In lines whose keys do not end in `NAME`, no `NAME:` starts. |
| Validator.ConcatSplit | src/agents/validator.ts:34-40 | A reply splits around any one of its lines. |
| Validator.FieldInReply | src/agents/validator.ts:53-67 | In a reply of `KEY: [value]` lines where no earlier key ends in this line's key, the score for this key is `parseFloat` of its value, or 0 when that is NaN. |
| Validator.ScoresInReply | src/agents/validator.ts:53-92 | Every key of such a reply reads as its own value. |
| Validator.FiveLabels | src/agents/validator.ts:88-94 | Five well-formed keys with different last letters, none ending in `VERDICT`, do not end in one another. |
| Validator.RequestedLineEnds | src/agents/validator.ts:34-39 | The five requested keys are labels ending in K, E, N, A and L, and none ends in `VERDICT`. |
| Validator.NoVerdictInFields | src/agents/validator.ts:94 | No `VERDICT:` starts inside the requested score lines. |
| Validator.VerdictAfterFields | src/agents/validator.ts:94-95 | The `VERDICT:` line after the score lines reads back as the verdict sentence. |
| Validator.RequestedReplyIsRead | src/agents/validator.ts:34-114 | A reply in exactly the requested six-line format is read completely. Each score is `parseFloat` of its bracketed value, or 0 when that is NaN. `passed` holds exactly when the TOTAL read is at least 8. The feedback is the verdict sentence and the full evaluation is the reply. |
| GenreClassifier.LowerChar | src/agents/genreClassifier.ts:72 | Lower-casing yields a lower-case ASCII letter only from one, from an ASCII capital or from the Kelvin sign; every other character is kept. |
| GenreClassifier.Lower | src/agents/genreClassifier.ts:72 | The modelled lowering keeps the length and works character by character. |
| GenreClassifier.StripPunctuation | src/agents/genreClassifier.ts:73-75 | Removes exactly one trailing `.` or `,` when there is one, and nothing otherwise. |
| GenreClassifier.ClassifyGenre | src/agents/genreClassifier.ts:72-96 | The result is one of the 14 genres or the sentinel. A backend error gives the sentinel. A genre is returned only when it is the normalised reply. |
| GenreClassifier.GenresAreWords | src/agents/genreClassifier.ts:5-21 | The genres are lower-case ASCII words and none of them is the sentinel. |
| GenreClassifier.NotAWord | src/agents/genreClassifier.ts:5-20 | A text holding anything but lower-case letters is no genre. |
| GenreClassifier.RecognisedIff | src/agents/genreClassifier.ts:79-91 | A genre is returned exactly when the normalised reply is in the list. |
| GenreClassifier.RecognisedShape | src/agents/genreClassifier.ts:72-83 | A recognised reply was, after trimming and lower-casing, the genre itself or the genre followed by one `.` or `,`. |
| GenreClassifier.LowerKeepsSpace | src/agents/genreClassifier.ts:72 | Lower-casing never turns whitespace into anything else, or anything else into whitespace. |
| GenreClassifier.LowerAppend | src/agents/genreClassifier.ts:72 | Lower-casing distributes over concatenation. |
| GenreClassifier.TrimAroundWritten | src/agents/genreClassifier.ts:72 | The trim removes exactly the whitespace around text that starts and ends with a letter. |
| GenreClassifier.NormalisePadded | src/agents/genreClassifier.ts:72-75 | Normalisation undoes surrounding whitespace, letter case and one trailing `.` or `,`. |
| GenreClassifier.StripAfterLetter | src/agents/genreClassifier.ts:73-75 | The strip removes the added `.` or `,` and nothing from a text ending with a letter. |
| GenreClassifier.GenreInAnyCase | src/agents/genreClassifier.ts:72-83 | The round trip: a genre in any letter case, padded with whitespace and followed by at most one `.` or `,`, is recognised as that genre. |
| GenreClassifier.CapitalisedWithPeriod | src/agents/genreClassifier.ts:72-83 | `" History. "` is recognised as `history`. |
| GenreClassifier.DoublePunctuationNotFound | src/agents/genreClassifier.ts:72-91 | Only one trailing mark is stripped: `history..` and `history,.` give the sentinel. |
| GenreClassifier.SpaceBeforePunctuationNotFound | src/agents/genreClassifier.ts:72-91 | There is no second trim: `history .` gives the sentinel. |
| GenreClassifier.SentinelInAnyCase | src/agents/genreClassifier.ts:84-85 | The sentinel phrase in any letter case, padded like a genre, maps to the canonical sentinel. |
| BaseAgent.MapHistory | src/agents/base.ts:261-300 | The mapping loop and the empty-history check compute exactly `History`: the user and model turns in order, the last pending system prompt as the only user turn of an otherwise empty history, or an error. |
| BaseAgent.GenerateCompletion | src/agents/base.ts:251-465 | The whole call, mapping and retry loop, returns the text or the error thrown, and the number of backend calls, as `CompletionOf` defines them. |
| BaseAgent.TurnsAppend | src/agents/base.ts:264-285 | The turns of a concatenation are the concatenated turns: order is kept. |
| BaseAgent.TurnsAround | src/agents/base.ts:264-285 | Each user message yields one `user` turn and each assistant message one `model` turn, in place; a system message yields none. |
| BaseAgent.TurnsEmptyIff | src/agents/base.ts:264-288 | There are no turns exactly when every message is a system message. |
| BaseAgent.HistoryMissingIff | src/agents/base.ts:287-299 | The mapping throws, before any backend call, exactly when all messages are system messages and the input is empty or its last system prompt is empty. |
| BaseAgent.SystemOnlyHistory | src/agents/base.ts:288-295 | With only system messages, the history is the single user turn holding the last one. |
| BaseAgent.TrailingSystemDropped | src/agents/base.ts:264-285 | A system message after a non-empty conversation is never copied into the history. |
| BaseAgent.FinishReasonAccepted | src/agents/base.ts:370-393 | A candidate passes the finish-reason check exactly when the reason is absent, empty, `STOP` or `MAX_TOKENS`. |
| BaseAgent.CheckAcceptsIff | src/agents/base.ts:333-412 | A response is accepted exactly when it has a first candidate that passes the finish-reason check and has a first part with text; that text is returned. |
| BaseAgent.BlockReasonReported | src/agents/base.ts:334-348 | A response without candidates and with a block reason is rejected with an error mentioning that reason. |
| BaseAgent.SafetyStopReported | src/agents/base.ts:376-382 | A `SAFETY` stop is rejected with an error showing the candidate's safety ratings. |
| BaseAgent.CallsBound | src/agents/base.ts:304-464 | The retry loop makes at least one and at most `maxRetries + 1` backend calls; with a negative `maxRetries` it makes none and throws the final error. |
| BaseAgent.EarlierCallsRateLimited | src/agents/base.ts:416-429 | Every call but the last failed with an error mentioning `429` or `rate limit` while retries were left. |
| BaseAgent.LastCallDecides | src/agents/base.ts:411-457 | The last call decides. Its text is returned, or its error is rethrown wrapped with the retry count, because the error was not a rate-limit error or no retries were left. |
| BaseAgent.RetryExhaustion | src/agents/base.ts:416-456 | When every call fails with a rate-limit error, exactly `maxRetries + 1` calls are made and the last error is rethrown, reporting `maxRetries` retries. |
| BaseAgent.OtherErrorsNotRetried | src/agents/base.ts:430-456 | Any other error is rethrown after the first call, reporting zero retries. |
| Types.ZeroValidation | src/managers/contentManager.ts:176-182 | The all-zero, failing evaluation carries the given feedback and full text. |
| Types.Trim | src/agents/genreClassifier.ts:72 | `trim()` leaves no whitespace at either end. |
| Types.TrimPadded | src/agents/genreClassifier.ts:72 | Whitespace padding on either side is exactly what `trim()` removes. |
| Types.TrimSplits | src/agents/validator.ts:95 | What `trim()` drops is whitespace only. |
| Types.TrimSliceContained | src/agents/validator.ts:94-95 | The trimmed verdict line is a piece of the evaluation text. |
| Types.NatText | src/managers/contentManager.ts:105-107 | The decimal text of a number is a non-empty string of digits. |

## Left out

- Timestamps of log entries and progress messages, and all console logging: the entries hold everything else.
- `async`/`await`: every call in the core is awaited before the next one starts, so calls are ordinary function applications.
- The prompt texts, the summariser's and script writer's prompt templating, and model names, temperatures and token limits. The agents are oracles of their arguments and the attempt number. The summariser's and writer's rethrown fixed errors are modelled.
- The backend SDK, client construction, environment variables and the safety-settings constants: the backend is an oracle of the history and the call number.
- The backoff delay between retries (`Math.pow`, `Math.random`, `wait`): it only changes timing.
- The web route, the database pattern lookup and script save, and the user interface: `genrePattern` and `detectedGenre` are plain parameters.
- IEEE floating point: scores are exact decimals (`real`), so `parseFloat` is exact and `NumberText` prints the exact decimal expansion. Where a double would round (long fractions), the printed totals in progress messages may differ. `NumberText` also does not reproduce JavaScript's exponent notation for magnitudes below 1e-6 or from 1e21 up (`1e-7`, `1e+21`); it always prints plain decimals.
- `toLowerCase` beyond what can change a lookup: only ASCII capitals and the Kelvin sign are lowered. Every other character is kept, which cannot change whether a reply matches a genre.
- Non-`Error` values thrown, and errors without a message outside the backend call. The backend may throw with or without a message, and `BaseAgent` prints a missing one as `undefined`. The orchestrator sees only the summariser's and writer's fixed messages and the validator agent's message string.
- The prompt-feedback safety ratings printed with a block reason: they go only to the console.
- ContentManager.ContentManager.GenerateContent: after the loop, the source's fallback for a missing evaluation is never taken, because every normal loop exit has an evaluation. The method proves this with its loop invariant instead of carrying the dead branch. The reference definition `Finish` keeps the branch.
- src/agents/base.ts:1-196, the commented-out earlier implementation, is not part of this model.
