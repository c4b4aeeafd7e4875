/**
 * The orchestrator: up to five attempts of write, evaluate and (from the
 * second attempt on) summarise the previous evaluation, stopping at the first
 * approved script or when the script writer or the validator throws, keeping
 * an audit trail of agent interactions and a list of progress messages.
 *
 * The three agents are modelled by their backends: each is an oracle from the
 * agent's arguments and the attempt number to what the completion call
 * returns or throws. The agents' own wrapping of those outcomes is modelled
 * here; how an outcome arises from the backend is `BaseAgent`.
 */
module ContentManager {
  import opened Types
  import Validator
  import GenreClassifier

  const MAX_ATTEMPTS: nat := 5
  const MIN_SCORE: real := 8.0

  /** The arguments of `generateContent`. */
  datatype Request = Request(title: string, data: string, duration: Duration, genrePattern: string, detectedGenre: string)

  /** The arguments of one call to the script writer. */
  datatype WriterCall = WriterCall(
    title: string,
    data: string,
    duration: Duration,
    summarizedFeedback: string,
    previousScript: Option<string>,
    genrePattern: string)

  /** What a call to the validator agent does: return an evaluation or throw. */
  datatype Assessment = Assessed(result: ValidationResult) | Raised(message: string)

  /**
   * The three agents: the completion outcomes behind the summariser and the
   * script writer, and the validator agent as a whole.
   */
  datatype Agents = Agents(
    summarizer: (string, nat) -> Outcome,
    writer: (WriterCall, nat) -> Outcome,
    validator: (string, Duration, nat) -> Assessment)

  // ---------------------------------------------------------------------
  // The agents as the orchestrator sees them
  // ---------------------------------------------------------------------

  const GENRE_AGENT: string := "GenreClassifierAgent"
  const SUMMARIZER_AGENT: string := "SummarizerAgent"
  const WRITER_AGENT: string := "ScriptWriterAgent"
  const VALIDATOR_AGENT: string := "ValidatorAgent"

  const SUMMARIZER_FAILED: string := "Failed to summarize feedback"
  const WRITER_FAILED: string := "Failed to generate script"

  /** `summarizeFeedback`: the completion text, or its own fixed error. */
  function Summarize(agents: Agents, fullEvaluation: string, attempt: nat): (r: Outcome)
    ensures r.Err? ==> r.message == SUMMARIZER_FAILED
  {
    match agents.summarizer(fullEvaluation, attempt)
    case Ok(summary) => Ok(summary)
    case Err(_) => Err(SUMMARIZER_FAILED)
  }

  /** `generateScript`: the completion text, or its own fixed error. */
  function WriteScript(agents: Agents, call: WriterCall, attempt: nat): (r: Outcome)
    ensures r.Err? ==> r.message == WRITER_FAILED
  {
    match agents.writer(call, attempt)
    case Ok(script) => Ok(script)
    case Err(_) => Err(WRITER_FAILED)
  }

  /** The validator agent built on a backend: its reply parsed by `Validator.ValidateScript`, which never throws. */
  function ParsingValidator(backend: (string, Duration, nat) -> Outcome): (string, Duration, nat) -> Assessment
  {
    (script: string, duration: Duration, attempt: nat) => Assessed(Validator.ValidateScript(backend(script, duration, attempt)))
  }

  /**
   * What the real validator agent guarantees: it never throws, passing means
   * a total of at least 8, and there is always a verdict.
   */
  ghost predicate SoundValidator(agents: Agents)
  {
    forall script: string, duration: Duration, attempt: nat ::
      && agents.validator(script, duration, attempt).Assessed?
      && (agents.validator(script, duration, attempt).result.passed <==> agents.validator(script, duration, attempt).result.total >= MIN_SCORE)
      && agents.validator(script, duration, attempt).result.feedback != ""
  }

  // ---------------------------------------------------------------------
  // Progress messages and audit-trail texts
  // ---------------------------------------------------------------------

  function StartStatus(title: string): string
  {
    "\U{1F680} Starting script generation for \"" + title + "\"..."
  }

  /** The message that says which writing style applies. */
  function StyleStatus(genrePattern: string, detectedGenre: string): string
  {
    if genrePattern != "" then
      "\U{1F3A8} Applying specific genre style pattern for \"" + detectedGenre + "\"."
    else if detectedGenre != "" && detectedGenre != GenreClassifier.NOT_FOUND_MESSAGE then
      "\U{26A0}\U{FE0F} Genre \"" + detectedGenre + "\" detected, but no specific pattern found. Using general style."
    else
      "\U{2699}\U{FE0F} Using general script writing style (no specific genre pattern applied)."
  }

  function AttemptStatus(k: nat): string
  {
    "\U{270D}\U{FE0F} Script generation attempt " + NatText(k) + "/" + NatText(MAX_ATTEMPTS) + "..."
  }

  const ANALYZING_STATUS: string := "\U{1F4A1} Analyzing feedback for improvements..."
  const ANALYZED_STATUS: string := "\U{2728} Feedback analysis complete."

  function SummaryErrorStatus(message: string): string
  {
    "\U{26A0}\U{FE0F} Error summarizing feedback: " + message + ". Continuing without summary."
  }

  function WritingStatus(k: nat): string
  {
    if k > 1 then "\U{1F527} Revising script (Attempt " + NatText(k) + ")..."
    else "\U{1F4DD} Drafting initial script (Attempt " + NatText(k) + ")..."
  }

  function DraftDoneStatus(k: nat): string
  {
    "\U{2705} Script draft complete (Attempt " + NatText(k) + ")."
  }

  function WriterErrorStatus(k: nat, message: string): string
  {
    "\U{274C} Critical error during script generation (Attempt " + NatText(k) + "): " + message + ". Stopping process."
  }

  function ValidatorErrorStatus(k: nat, message: string): string
  {
    "\U{274C} Critical error during script validation (Attempt " + NatText(k) + "): " + message + ". Stopping process."
  }

  function EvaluatingStatus(k: nat): string
  {
    "\U{1F9D0} Evaluating script quality (Attempt " + NatText(k) + ")..."
  }

  function ApprovedStatus(total: real, k: nat): string
  {
    "\U{1F389} Script approved! Score: " + NumberText(total) + "/8 (Attempt " + NatText(k) + ")."
  }

  /** Why an evaluation that was not approved failed. */
  function Reason(v: ValidationResult): string
  {
    if !v.passed then "Failed validation checks."
    else "Score " + NumberText(v.total) + " is below minimum 8."
  }

  function NeedsImprovementStatus(v: ValidationResult, k: nat): string
  {
    "\U{1F4C9} Needs improvement. " + Reason(v) + " (Attempt " + NatText(k) + "). " + v.feedback
  }

  const MAX_REACHED_STATUS: string := "\U{26A0}\U{FE0F} Maximum attempts (5) reached. Providing best available script."
  const NO_VALIDATION_STATUS: string := "\U{274C} Error: Process finished unexpectedly without validation results."
  const COMPLETE_STATUS: string := "\U{1F3C1} Script generation process complete."

  const NO_VALIDATION_TEXT: string := "Process finished without validation."
  const WRITER_FALLBACK_SCRIPT: string := "Script generation failed."
  const VALIDATOR_FALLBACK_SCRIPT: string := "Validation failed."
  const REVISION_MARKER: string := "\nPrevious Script (to revise):\n[See Previous Interaction]"

  /** The feedback used when the summariser fails. */
  function FallbackFeedback(v: ValidationResult): string
  {
    "Feedback summary failed. Focus on improving based on previous score: " + NumberText(v.total)
      + "/10. Issues likely related to: " + v.feedback
  }

  /** The input the audit trail records for a script-writer call. */
  function WriterLogInput(req: Request, feedback: string, lastScript: string, k: nat): string
  {
    "Title: " + req.title + "\nData: " + req.data + "\nDuration: " + DurationText(req.duration)
      + (if req.genrePattern != "" then "\nGenre Pattern:\n" + req.genrePattern else "")
      + (if feedback != "" then "\nSummarized Feedback:\n" + feedback else "")
      + (if k > 1 && lastScript != "" then REVISION_MARKER else "")
  }

  function WriterAction(k: nat): string
  {
    if k > 1 then "Revise Script" else "Generate Initial Script"
  }

  /** The output the audit trail records for a validator call. */
  function ValidatorLogOutput(v: ValidationResult): string
  {
    "Score: " + NumberText(v.total) + "\nVerdict: " + v.feedback + "\nFull Eval:\n" + v.fullEvaluation
  }

  function GenreInteraction(req: Request): AgentInteraction
  {
    AgentInteraction(GENRE_AGENT, "Classify Genre (Result Provided)",
      Some("Title: " + req.title), "Detected Genre: " + req.detectedGenre)
  }

  /** The audit-trail entry of a summary. */
  function SummaryEntry(fullEvaluation: string, summary: string): AgentInteraction
  {
    AgentInteraction(SUMMARIZER_AGENT, "Summarize Feedback", Some(fullEvaluation), summary)
  }

  /** The audit-trail entry of the script written at attempt `k`. */
  function WriterEntry(req: Request, feedback: string, lastScript: string, k: nat, script: string): AgentInteraction
  {
    AgentInteraction(WRITER_AGENT, WriterAction(k), Some(WriterLogInput(req, feedback, lastScript, k)), script)
  }

  /** The audit-trail entry of an evaluation of `script`. */
  function ValidatorEntry(script: string, v: ValidationResult): AgentInteraction
  {
    AgentInteraction(VALIDATOR_AGENT, "Validate Script", Some(script), ValidatorLogOutput(v))
  }

  // ---------------------------------------------------------------------
  // The generation loop as a function of the agents and the request
  // ---------------------------------------------------------------------

  /** The loop's variables together with the two logs. */
  datatype State = State(
    attempts: nat,
    success: bool,
    currentScript: string,
    lastScript: string,
    validation: Option<ValidationResult>,
    interactions: seq<AgentInteraction>,
    statuses: seq<StatusUpdate>)

  // The log updates below append one entry per logging call, in the order
  // the calls are made.

  /** The state before the first attempt: logs reset, the genre recorded, the style announced. */
  function Start(req: Request): State
  {
    State(0, false, "", "", None, [] + [GenreInteraction(req)],
      [] + [StatusUpdate(StartStatus(req.title))] + [StatusUpdate(StyleStatus(req.genrePattern, req.detectedGenre))])
  }

  /** The feedback for the writer and the logs after the summary step. */
  datatype Summary = Summary(feedback: string, interactions: seq<AgentInteraction>, statuses: seq<StatusUpdate>)

  /** The summary of the previous evaluation, when there is a failed one with a verdict. */
  function SummaryPhase(agents: Agents, validation: Option<ValidationResult>, k: nat,
                        interactions: seq<AgentInteraction>, statuses: seq<StatusUpdate>): Summary
  {
    if validation.Some? && validation.value.feedback != "" && !validation.value.passed then
      var v := validation.value;
      var analysing := statuses + [StatusUpdate(ANALYZING_STATUS)];
      match Summarize(agents, v.fullEvaluation, k)
      case Ok(summary) =>
        Summary(summary, interactions + [SummaryEntry(v.fullEvaluation, summary)],
          analysing + [StatusUpdate(ANALYZED_STATUS)])
      case Err(message) =>
        Summary(FallbackFeedback(v), interactions, analysing + [StatusUpdate(SummaryErrorStatus(message))])
    else Summary("", interactions, statuses)
  }

  /** The writer's arguments at attempt `k`: the previous script is passed from the second attempt on. */
  function WriterCallOf(req: Request, feedback: string, lastScript: string, k: nat): WriterCall
  {
    WriterCall(req.title, req.data, req.duration, feedback, if k > 1 then Some(lastScript) else None, req.genrePattern)
  }

  /**
   * The result returned when an agent throws: the current script (or
   * `fallbackScript`), the last evaluation (or an all-zero failing one carrying
   * `failure`), and the error message `status` as the last progress message.
   */
  function Halt(st: State, fallbackScript: string, failure: string, status: string): GenerationResult
  {
    GenerationResult(
      OrElse(st.currentScript, fallbackScript),
      LastValidation(st.validation, failure),
      st.attempts,
      false,
      st.interactions,
      st.statuses + [StatusUpdate(status)])
  }

  /** `s`, or `fallback` when `s` is empty (`s || fallback`). */
  function OrElse(s: string, fallback: string): string
  {
    if s != "" then s else fallback
  }

  /** The last evaluation, or an all-zero failing one carrying `failure` when there is none. */
  function LastValidation(validation: Option<ValidationResult>, failure: string): ValidationResult
  {
    match validation
    case Some(v) => v
    case None => ZeroValidation(failure, failure)
  }

  /** The writer threw: nothing of this attempt but its messages is kept. */
  function WriterStop(st: State, message: string): GenerationResult
  {
    Halt(st, WRITER_FALLBACK_SCRIPT, "Failed during script generation: " + message, WriterErrorStatus(st.attempts, message))
  }

  /** The validator threw: the new draft is returned with the previous evaluation. */
  function ValidatorStop(st: State, message: string): GenerationResult
  {
    Halt(st, VALIDATOR_FALLBACK_SCRIPT, "Failed during validation: " + message, ValidatorErrorStatus(st.attempts, message))
  }

  /** The messages that close an evaluated attempt, appended to `statuses`. */
  function VerdictLog(statuses: seq<StatusUpdate>, v: ValidationResult, k: nat): seq<StatusUpdate>
  {
    if v.passed && v.total >= MIN_SCORE then statuses + [StatusUpdate(ApprovedStatus(v.total, k))]
    else if k >= MAX_ATTEMPTS then statuses + [StatusUpdate(NeedsImprovementStatus(v, k))] + [StatusUpdate(MAX_REACHED_STATUS)]
    else statuses + [StatusUpdate(NeedsImprovementStatus(v, k))]
  }

  datatype Step = Next(state: State) | Stopped(result: GenerationResult)

  /** What follows a written script: it is logged and evaluated, and the verdict logged. */
  function Evaluated(agents: Agents, req: Request, st: State, feedback: string, script: string): Step
  {
    var k := st.attempts;
    var written := st.(
      currentScript := script,
      interactions := st.interactions + [WriterEntry(req, feedback, st.lastScript, k, script)],
      statuses := st.statuses + [StatusUpdate(DraftDoneStatus(k))] + [StatusUpdate(EvaluatingStatus(k))]);
    match agents.validator(script, req.duration, k)
    case Raised(message) => Stopped(ValidatorStop(written, message))
    case Assessed(v) =>
      Next(State(k, v.passed && v.total >= MIN_SCORE, script, script, Some(v),
        written.interactions + [ValidatorEntry(script, v)],
        VerdictLog(written.statuses, v, k)))
  }

  /** The summary step of the attempt that follows `st`. */
  function SummaryAfter(agents: Agents, st: State): Summary
  {
    var k := st.attempts + 1;
    SummaryPhase(agents, st.validation, k, st.interactions, st.statuses + [StatusUpdate(AttemptStatus(k))])
  }

  /** The writer call of the attempt that follows `st`. */
  function WriterCallFor(agents: Agents, req: Request, st: State): WriterCall
  {
    WriterCallOf(req, SummaryAfter(agents, st).feedback, st.lastScript, st.attempts + 1)
  }

  /** One pass through the loop body. */
  function Attempt(agents: Agents, req: Request, st: State): Step
  {
    var k := st.attempts + 1;
    var s := SummaryAfter(agents, st);
    var logged := st.(
      attempts := k,
      interactions := s.interactions,
      statuses := s.statuses + [StatusUpdate(WritingStatus(k))]);
    match WriteScript(agents, WriterCallFor(agents, req, st), k)
    case Err(message) => Stopped(WriterStop(logged, message))
    case Ok(script) => Evaluated(agents, req, logged, s.feedback, script)
  }

  /** What follows the loop: the (unreachable) missing-evaluation fallback, the closing message, the result. */
  function Finish(st: State): GenerationResult
  {
    match st.validation
    case None =>
      GenerationResult(st.currentScript, ZeroValidation(NO_VALIDATION_TEXT, NO_VALIDATION_TEXT), st.attempts, false,
        st.interactions, st.statuses + [StatusUpdate(NO_VALIDATION_STATUS)] + [StatusUpdate(COMPLETE_STATUS)])
    case Some(v) =>
      GenerationResult(st.currentScript, v, st.attempts, st.success, st.interactions, st.statuses + [StatusUpdate(COMPLETE_STATUS)])
  }

  /** The loop from state `st` on: attempts run until one is approved, an agent throws, or five were made. */
  function Run(agents: Agents, req: Request, st: State): GenerationResult
    requires st.attempts < MAX_ATTEMPTS
    decreases MAX_ATTEMPTS - st.attempts, 1
  {
    Continue(agents, req, st, Attempt(agents, req, st))
  }

  /** The loop test after the attempt from `st`, which ended in `step`. */
  function Continue(agents: Agents, req: Request, st: State, step: Step): GenerationResult
    requires st.attempts < MAX_ATTEMPTS
    requires step.Next? ==> step.state.attempts == st.attempts + 1
    decreases MAX_ATTEMPTS - st.attempts, 0
  {
    match step
    case Stopped(result) => result
    case Next(next) =>
      if !next.success && next.attempts < MAX_ATTEMPTS then Run(agents, req, next) else Finish(next)
  }

  /** `generateContent`. */
  function Generate(agents: Agents, req: Request): GenerationResult
  {
    Run(agents, req, Start(req))
  }

  // ---------------------------------------------------------------------
  // The orchestrator object
  // ---------------------------------------------------------------------

  class ContentManager {
    const agents: Agents
    var interactions: seq<AgentInteraction>
    var statusUpdates: seq<StatusUpdate>

    constructor(agents: Agents)
      ensures this.agents == agents
      ensures interactions == [] && statusUpdates == []
    {
      this.agents := agents;
      interactions := [];
      statusUpdates := [];
    }

    method LogInteraction(agent: string, action: string, input: Option<string>, output: string)
      modifies this
      ensures interactions == old(interactions) + [AgentInteraction(agent, action, input, output)]
      ensures statusUpdates == old(statusUpdates)
    {
      interactions := interactions + [AgentInteraction(agent, action, input, output)];
    }

    method LogStatus(message: string)
      modifies this
      ensures statusUpdates == old(statusUpdates) + [StatusUpdate(message)]
      ensures interactions == old(interactions)
    {
      statusUpdates := statusUpdates + [StatusUpdate(message)];
    }

    /** The summary step at the head of attempt `k`: returns the feedback for the writer. */
    method SummarizePrevious(validation: Option<ValidationResult>, k: nat) returns (feedback: string)
      modifies this
      ensures SummaryPhase(agents, validation, k, old(interactions), old(statusUpdates))
        == Summary(feedback, interactions, statusUpdates)
    {
      if validation.Some? && validation.value.feedback != "" && !validation.value.passed {
        LogStatus(ANALYZING_STATUS);
        var summary := Summarize(agents, validation.value.fullEvaluation, k);
        match summary
        case Ok(text) =>
          feedback := text;
          LogInteraction(SUMMARIZER_AGENT, "Summarize Feedback", Some(validation.value.fullEvaluation), feedback);
          LogStatus(ANALYZED_STATUS);
        case Err(message) =>
          LogStatus(SummaryErrorStatus(message));
          feedback := FallbackFeedback(validation.value);
      } else {
        feedback := "";
      }
    }

    /** The head of attempt `k`: its message, the summary of the previous evaluation, the writing message. */
    method PrepareAttempt(k: nat, validation: Option<ValidationResult>) returns (feedback: string)
      requires k >= 1
      modifies this
      ensures var s := SummaryPhase(agents, validation, k, old(interactions), old(statusUpdates) + [StatusUpdate(AttemptStatus(k))]);
        && feedback == s.feedback && interactions == s.interactions
        && statusUpdates == s.statuses + [StatusUpdate(WritingStatus(k))]
    {
      LogStatus(AttemptStatus(k));
      feedback := SummarizePrevious(validation, k);
      LogStatus(WritingStatus(k));
    }

    /**
     * One pass through the body of the attempt loop, from the loop variables
     * at its head: either the result returned when an agent throws, or the
     * loop variables at its end.
     */
    method RunAttempt(req: Request, attempts0: nat, currentScript0: string, lastScript0: string,
                      validation0: Option<ValidationResult>)
      returns (stopped: Option<GenerationResult>, attempts: nat, success: bool, currentScript: string,
               lastScript: string, validation: Option<ValidationResult>)
      modifies this
      ensures attempts == attempts0 + 1
      ensures stopped.None? ==> validation.Some?
      ensures stopped.Some? ==> interactions == stopped.value.interactions && statusUpdates == stopped.value.statusUpdates
      ensures attempts0 < MAX_ATTEMPTS ==>
        var before := State(attempts0, false, currentScript0, lastScript0, validation0, old(interactions), old(statusUpdates));
        Run(agents, req, before)
        == Continue(agents, req, before,
             if stopped.Some? then Stopped(stopped.value)
             else Next(State(attempts, success, currentScript, lastScript, validation, interactions, statusUpdates)))
    {
      ghost var before := State(attempts0, false, currentScript0, lastScript0, validation0, interactions, statusUpdates);
      attempts, success, currentScript, lastScript, validation := attempts0, false, currentScript0, lastScript0, validation0;
      attempts := attempts + 1;
      var summarizedFeedback := PrepareAttempt(attempts, validation);
      var call := WriterCall(req.title, req.data, req.duration, summarizedFeedback,
        if attempts > 1 then Some(lastScript) else None, req.genrePattern);
      var written := WriteScript(agents, call, attempts);
      if written.Err? {
        var result := Abandon(attempts, currentScript, validation, WRITER_FALLBACK_SCRIPT,
          "Failed during script generation: " + written.message, WriterErrorStatus(attempts, written.message));
        stopped := Some(result);
        return;
      }
      ghost var logged := State(attempts, success, currentScript, lastScript, validation, interactions, statusUpdates);
      stopped, success, currentScript, lastScript, validation :=
        EvaluateDraft(req, attempts, lastScript, validation, summarizedFeedback, written.text);
      assert Attempt(agents, req, before) == Evaluated(agents, req, logged, summarizedFeedback, written.text);
    }

    /** An agent threw during attempt `attempts`: log `status` and return what was produced so far. */
    method Abandon(attempts: nat, currentScript: string, validation: Option<ValidationResult>,
                   fallbackScript: string, failure: string, status: string)
      returns (result: GenerationResult)
      modifies this
      ensures forall lastScript: string ::
        result == Halt(State(attempts, false, currentScript, lastScript, validation, old(interactions), old(statusUpdates)),
                       fallbackScript, failure, status)
      ensures interactions == result.interactions && statusUpdates == result.statusUpdates
    {
      LogStatus(status);
      result := GenerationResult(
        if currentScript != "" then currentScript else fallbackScript,
        if validation.Some? then validation.value else ZeroValidation(failure, failure),
        attempts, false, interactions, statusUpdates);
    }

    /** The second half of an attempt: log the draft, evaluate it, log the verdict. */
    method EvaluateDraft(req: Request, attempts: nat, lastScript0: string, validation0: Option<ValidationResult>,
                         summarizedFeedback: string, script: string)
      returns (stopped: Option<GenerationResult>, success: bool, currentScript: string, lastScript: string,
               validation: Option<ValidationResult>)
      modifies this
      ensures stopped.None? ==> validation.Some?
      ensures stopped.Some? ==> interactions == stopped.value.interactions && statusUpdates == stopped.value.statusUpdates
      ensures forall currentScript0: string ::
        match Evaluated(agents, req, State(attempts, false, currentScript0, lastScript0, validation0, old(interactions),
                                           old(statusUpdates)), summarizedFeedback, script)
        case Stopped(r) => stopped == Some(r)
        case Next(next) =>
          stopped.None? && next == State(attempts, success, currentScript, lastScript, validation, interactions, statusUpdates)
    {
      currentScript := script;
      LogInteraction(WRITER_AGENT, WriterAction(attempts),
        Some(WriterLogInput(req, summarizedFeedback, lastScript0, attempts)), currentScript);
      LogStatus(DraftDoneStatus(attempts));

      LogStatus(EvaluatingStatus(attempts));
      var assessment := agents.validator(currentScript, req.duration, attempts);
      if assessment.Raised? {
        var result := Abandon(attempts, currentScript, validation0, VALIDATOR_FALLBACK_SCRIPT,
          "Failed during validation: " + assessment.message, ValidatorErrorStatus(attempts, assessment.message));
        stopped, success, lastScript, validation := Some(result), false, lastScript0, validation0;
        return;
      }
      stopped := None;
      var v := assessment.result;
      validation := Some(v);
      LogInteraction(VALIDATOR_AGENT, "Validate Script", Some(currentScript), ValidatorLogOutput(v));
      if v.passed && v.total >= MIN_SCORE {
        success := true;
        LogStatus(ApprovedStatus(v.total, attempts));
      } else {
        success := false;
        LogStatus(NeedsImprovementStatus(v, attempts));
        if attempts >= MAX_ATTEMPTS {
          LogStatus(MAX_REACHED_STATUS);
        }
      }
      lastScript := currentScript;
    }

    method GenerateContent(title: string, data: string, duration: Duration, genrePattern: string, detectedGenre: string)
      returns (result: GenerationResult)
      modifies this
      ensures result == Generate(agents, Request(title, data, duration, genrePattern, detectedGenre))
      ensures interactions == result.interactions && statusUpdates == result.statusUpdates
    {
      var req := Request(title, data, duration, genrePattern, detectedGenre);
      interactions := [];
      statusUpdates := [];
      LogInteraction(GENRE_AGENT, "Classify Genre (Result Provided)", Some("Title: " + title), "Detected Genre: " + detectedGenre);

      var attempts: nat := 0;
      var success := false;
      var currentScript := "";
      var lastScript := "";
      var validation: Option<ValidationResult> := None;

      LogStatus(StartStatus(title));
      LogStatus(StyleStatus(genrePattern, detectedGenre));
      assert State(attempts, success, currentScript, lastScript, validation, interactions, statusUpdates) == Start(req);

      while true
        invariant attempts < MAX_ATTEMPTS && !success
        invariant attempts > 0 ==> validation.Some?
        invariant Generate(agents, req)
          == Run(agents, req, State(attempts, success, currentScript, lastScript, validation, interactions, statusUpdates))
        decreases MAX_ATTEMPTS - attempts
      {
        var stopped;
        stopped, attempts, success, currentScript, lastScript, validation :=
          RunAttempt(req, attempts, currentScript, lastScript, validation);
        if stopped.Some? {
          return stopped.value;
        }
        if success || attempts >= MAX_ATTEMPTS {
          break;
        }
      }

      LogStatus(COMPLETE_STATUS);
      result := GenerationResult(currentScript, validation.value, attempts, success, interactions, statusUpdates);
    }
  }

  // ---------------------------------------------------------------------
  // Properties of the loop
  // ---------------------------------------------------------------------

  /** The number of audit-trail entries made by `agent`. */
  function CountAgent(xs: seq<AgentInteraction>, agent: string): (n: nat)
    ensures n <= |xs|
  {
    if xs == [] then 0
    else CountAgent(xs[..|xs| - 1], agent) + (if xs[|xs| - 1].agent == agent then 1 else 0)
  }

  lemma CountAppend(xs: seq<AgentInteraction>, x: AgentInteraction, agent: string)
    ensures CountAgent(xs + [x], agent) == CountAgent(xs, agent) + (if x.agent == agent then 1 else 0)
  {
    assert (xs + [x])[..|xs|] == xs;
  }

  /** `xs` ends with the entries `tail`. */
  predicate EndsWith<T(==)>(xs: seq<T>, tail: seq<T>)
  {
    |tail| <= |xs| && xs[|xs| - |tail|..] == tail
  }

  /** A normal exit after an approved attempt: the returned evaluation is the validator's verdict on the returned script. */
  predicate Approved(agents: Agents, req: Request, r: GenerationResult)
  {
    && r.success
    && agents.validator(r.script, req.duration, r.attempts) == Assessed(r.validation)
    && r.validation.passed && r.validation.total >= MIN_SCORE
    && EndsWith(r.statusUpdates, [StatusUpdate(ApprovedStatus(r.validation.total, r.attempts)), StatusUpdate(COMPLETE_STATUS)])
  }

  /** A normal exit after the fifth failed attempt, which returns that attempt's own script and evaluation. */
  predicate Exhausted(agents: Agents, req: Request, r: GenerationResult)
  {
    && !r.success
    && r.attempts == MAX_ATTEMPTS
    && agents.validator(r.script, req.duration, r.attempts) == Assessed(r.validation)
    && !(r.validation.passed && r.validation.total >= MIN_SCORE)
    && EndsWith(r.statusUpdates,
         [StatusUpdate(NeedsImprovementStatus(r.validation, r.attempts)), StatusUpdate(MAX_REACHED_STATUS), StatusUpdate(COMPLETE_STATUS)])
  }

  /** An early return because the script writer threw at attempt `r.attempts`. */
  predicate WriterFailed(r: GenerationResult)
  {
    && !r.success
    && EndsWith(r.statusUpdates, [StatusUpdate(WriterErrorStatus(r.attempts, WRITER_FAILED))])
  }

  /** An early return because the validator threw, with `message`, on `script` at attempt `r.attempts`. */
  predicate ValidatorFailedOn(agents: Agents, req: Request, r: GenerationResult, script: string, message: string)
  {
    && !r.success
    && agents.validator(script, req.duration, r.attempts) == Raised(message)
    && r.script == (if script != "" then script else VALIDATOR_FALLBACK_SCRIPT)
    && EndsWith(r.statusUpdates, [StatusUpdate(ValidatorErrorStatus(r.attempts, message))])
  }

  ghost predicate ValidatorFailed(agents: Agents, req: Request, r: GenerationResult)
  {
    exists script, message :: ValidatorFailedOn(agents, req, r, script, message)
  }

  /** The closing messages of an evaluated attempt. */
  function VerdictTail(v: ValidationResult, k: nat): seq<StatusUpdate>
  {
    if v.passed && v.total >= MIN_SCORE then [StatusUpdate(ApprovedStatus(v.total, k))]
    else if k >= MAX_ATTEMPTS then [StatusUpdate(NeedsImprovementStatus(v, k)), StatusUpdate(MAX_REACHED_STATUS)]
    else [StatusUpdate(NeedsImprovementStatus(v, k))]
  }

  /** The summary step logs the summariser's entry exactly when a summary was asked for and returned. */
  predicate SummaryLogged(agents: Agents, validation: Option<ValidationResult>, k: nat)
  {
    && validation.Some? && validation.value.feedback != "" && !validation.value.passed
    && agents.summarizer(validation.value.fullEvaluation, k).Ok?
  }

  /**
   * The attempt from the loop variables `p` came back to the loop test with
   * `n`: the script the writer returned for this attempt's call was logged,
   * then evaluated, and the evaluation logged; success means approval. The
   * audit trail gained exactly the summary step's entry, if any, the writer's
   * entry and the validator's entry.
   */
  predicate Completes(agents: Agents, req: Request, p: State, n: State)
  {
    Evaluates(agents, req, p, n) && LogsAttempt(agents, req, p, n)
  }

  /** The script and evaluation part of `Completes`. */
  predicate Evaluates(agents: Agents, req: Request, p: State, n: State)
  {
    var k := p.attempts + 1;
    && n.attempts == k
    && p.statuses <= n.statuses
    && n.validation.Some? && n.lastScript == n.currentScript
    && agents.writer(WriterCallFor(agents, req, p), k) == Ok(n.currentScript)
    && agents.validator(n.currentScript, req.duration, k) == Assessed(n.validation.value)
    && (n.success <==> n.validation.value.passed && n.validation.value.total >= MIN_SCORE)
    && EndsWith(n.statuses, VerdictTail(n.validation.value, k))
  }

  /** The audit-trail part of `Completes`. */
  predicate LogsAttempt(agents: Agents, req: Request, p: State, n: State)
  {
    var k := p.attempts + 1;
    var s := SummaryAfter(agents, p);
    && n.validation.Some?
    && p.interactions <= n.interactions
    && n.interactions == s.interactions
         + [WriterEntry(req, s.feedback, p.lastScript, k, n.currentScript)] + [ValidatorEntry(n.currentScript, n.validation.value)]
    && CountAgent(n.interactions, WRITER_AGENT) == CountAgent(p.interactions, WRITER_AGENT) + 1
    && CountAgent(n.interactions, VALIDATOR_AGENT) == CountAgent(p.interactions, VALIDATOR_AGENT) + 1
  }

  /**
   * The writer threw at the attempt from `p`: the previous draft (or the
   * fixed failure script) and the previous evaluation are returned, and the
   * audit trail ends with the summary step.
   */
  predicate LastWriterFailed(agents: Agents, req: Request, p: State, r: GenerationResult)
  {
    var k := p.attempts + 1;
    && r.attempts == k
    && agents.writer(WriterCallFor(agents, req, p), k).Err?
    && r.script == OrElse(p.currentScript, WRITER_FALLBACK_SCRIPT)
    && r.validation == LastValidation(p.validation, "Failed during script generation: " + WRITER_FAILED)
    && r.interactions == SummaryAfter(agents, p).interactions
  }

  /**
   * The validator threw at the attempt from `p`: the new draft (or the fixed
   * failure script) and the previous evaluation are returned, and the audit
   * trail ends with the writer's entry.
   */
  predicate LastValidatorFailed(agents: Agents, req: Request, p: State, r: GenerationResult)
  {
    var k := p.attempts + 1;
    var s := SummaryAfter(agents, p);
    var written := agents.writer(WriterCallFor(agents, req, p), k);
    && r.attempts == k
    && written.Ok?
    && agents.validator(written.text, req.duration, k).Raised?
    && r.script == OrElse(written.text, VALIDATOR_FALLBACK_SCRIPT)
    && r.validation
       == LastValidation(p.validation, "Failed during validation: " + agents.validator(written.text, req.duration, k).message)
    && r.interactions == s.interactions + [WriterEntry(req, s.feedback, p.lastScript, k, written.text)]
  }

  /**
   * The attempt from `p` ended the loop normally: the returned script is the
   * one the writer returned for this attempt's call, the returned evaluation
   * is the validator's on it, and the audit trail ends with the entries of
   * this attempt.
   */
  predicate LastEvaluated(agents: Agents, req: Request, p: State, r: GenerationResult)
  {
    var k := p.attempts + 1;
    var s := SummaryAfter(agents, p);
    && r.attempts == k
    && agents.writer(WriterCallFor(agents, req, p), k) == Ok(r.script)
    && agents.validator(r.script, req.duration, k) == Assessed(r.validation)
    && r.interactions == s.interactions
         + [WriterEntry(req, s.feedback, p.lastScript, k, r.script)] + [ValidatorEntry(r.script, r.validation)]
  }

  /** The attempt from `p` stopped the loop with `r` because the writer or the validator threw. */
  ghost predicate Halted(agents: Agents, req: Request, p: State, r: GenerationResult)
  {
    && p.interactions <= r.interactions && p.statuses <= r.statusUpdates
    && ((WriterFailed(r) && LastWriterFailed(agents, req, p, r)
         && CountAgent(r.interactions, WRITER_AGENT) == CountAgent(p.interactions, WRITER_AGENT)
         && CountAgent(r.interactions, VALIDATOR_AGENT) == CountAgent(p.interactions, VALIDATOR_AGENT))
     || (ValidatorFailed(agents, req, r) && LastValidatorFailed(agents, req, p, r)
         && CountAgent(r.interactions, WRITER_AGENT) == CountAgent(p.interactions, WRITER_AGENT) + 1
         && CountAgent(r.interactions, VALIDATOR_AGENT) == CountAgent(p.interactions, VALIDATOR_AGENT)))
  }

  /**
   * The second half of an attempt: the script is logged, then either the
   * validator throws, or its evaluation is logged and decides success.
   */
  lemma EvaluatedFacts(agents: Agents, req: Request, st: State, feedback: string, script: string)
    ensures var k := st.attempts;
      var written := st.interactions + [WriterEntry(req, feedback, st.lastScript, k, script)];
      match Evaluated(agents, req, st, feedback, script)
      case Stopped(r) =>
        && r.attempts == k
        && st.interactions <= r.interactions && st.statuses <= r.statusUpdates
        && agents.validator(script, req.duration, k).Raised?
        && r.script == OrElse(script, VALIDATOR_FALLBACK_SCRIPT)
        && r.validation == LastValidation(st.validation, "Failed during validation: " + agents.validator(script, req.duration, k).message)
        && r.interactions == written
        && ValidatorFailed(agents, req, r)
        && CountAgent(r.interactions, WRITER_AGENT) == CountAgent(st.interactions, WRITER_AGENT) + 1
        && CountAgent(r.interactions, VALIDATOR_AGENT) == CountAgent(st.interactions, VALIDATOR_AGENT)
      case Next(n) =>
        && n.attempts == k
        && st.interactions <= n.interactions && st.statuses <= n.statuses
        && n.validation.Some? && n.currentScript == script && n.lastScript == script
        && agents.validator(script, req.duration, k) == Assessed(n.validation.value)
        && (n.success <==> n.validation.value.passed && n.validation.value.total >= MIN_SCORE)
        && EndsWith(n.statuses, VerdictTail(n.validation.value, k))
        && n.interactions == written + [ValidatorEntry(script, n.validation.value)]
        && CountAgent(n.interactions, WRITER_AGENT) == CountAgent(st.interactions, WRITER_AGENT) + 1
        && CountAgent(n.interactions, VALIDATOR_AGENT) == CountAgent(st.interactions, VALIDATOR_AGENT) + 1
  {
    var k := st.attempts;
    var entry := WriterEntry(req, feedback, st.lastScript, k, script);
    var logged := st.interactions + [entry];
    var statuses := st.statuses + [StatusUpdate(DraftDoneStatus(k))] + [StatusUpdate(EvaluatingStatus(k))];
    CountAppend(st.interactions, entry, WRITER_AGENT);
    CountAppend(st.interactions, entry, VALIDATOR_AGENT);
    match agents.validator(script, req.duration, k)
    case Raised(message) =>
      var r := ValidatorStop(st.(currentScript := script, interactions := logged, statuses := statuses), message);
      assert ValidatorFailedOn(agents, req, r, script, message);
    case Assessed(v) =>
      var verdict := ValidatorEntry(script, v);
      CountAppend(logged, verdict, WRITER_AGENT);
      CountAppend(logged, verdict, VALIDATOR_AGENT);
      var log := VerdictLog(statuses, v, k);
      assert log == statuses + VerdictTail(v, k);
  }

  /** The writer threw: the current script (or the fixed failure script), the last evaluation and the logs so far are returned. */
  lemma WriterStopFacts(st: State, message: string)
    ensures var r := WriterStop(st, message);
      && r.attempts == st.attempts && r.interactions == st.interactions && st.statuses <= r.statusUpdates
      && r.script == OrElse(st.currentScript, WRITER_FALLBACK_SCRIPT)
      && r.validation == LastValidation(st.validation, "Failed during script generation: " + message)
      && (message == WRITER_FAILED ==> WriterFailed(r))
  {
    var r := WriterStop(st, message);
    Extends(st.statuses, r.statusUpdates, [StatusUpdate(WriterErrorStatus(st.attempts, message))]);
  }

  /**
   * An attempt from `st` that stops: the writer or the validator threw at
   * attempt `st.attempts + 1`, with what `Halted` says is returned and logged.
   */
  lemma AttemptStops(agents: Agents, req: Request, st: State)
    requires Attempt(agents, req, st).Stopped?
    ensures var r := Attempt(agents, req, st).result;
      r.attempts == st.attempts + 1 && Halted(agents, req, st, r)
  {
    if WriteScript(agents, WriterCallFor(agents, req, st), st.attempts + 1).Err? {
      WriterStops(agents, req, st);
    } else {
      ValidatorStops(agents, req, st);
    }
  }

  /** The messages of an attempt up to the writer's call extend those before it. */
  lemma HeadFacts(agents: Agents, req: Request, st: State)
    ensures var k := st.attempts + 1;
      var s := SummaryAfter(agents, st);
      && st.interactions <= s.interactions
      && st.statuses <= s.statuses + [StatusUpdate(WritingStatus(k))]
      && CountAgent(s.interactions, WRITER_AGENT) == CountAgent(st.interactions, WRITER_AGENT)
      && CountAgent(s.interactions, VALIDATOR_AGENT) == CountAgent(st.interactions, VALIDATOR_AGENT)
  {
    var k := st.attempts + 1;
    var s := SummaryAfter(agents, st);
    SummaryFacts(agents, st.validation, k, st.interactions, st.statuses + [StatusUpdate(AttemptStatus(k))]);
    Extends(s.statuses, s.statuses + [StatusUpdate(WritingStatus(k))], [StatusUpdate(WritingStatus(k))]);
    Extends(st.statuses, st.statuses + [StatusUpdate(AttemptStatus(k))], [StatusUpdate(AttemptStatus(k))]);
    PrefixTransitive(st.statuses, st.statuses + [StatusUpdate(AttemptStatus(k))], s.statuses);
    PrefixTransitive(st.statuses, s.statuses, s.statuses + [StatusUpdate(WritingStatus(k))]);
  }

  /** The writer threw: the attempt stops as `LastWriterFailed` says. */
  lemma WriterStops(agents: Agents, req: Request, st: State)
    requires WriteScript(agents, WriterCallFor(agents, req, st), st.attempts + 1).Err?
    ensures Attempt(agents, req, st).Stopped?
    ensures var r := Attempt(agents, req, st).result;
      r.attempts == st.attempts + 1 && Halted(agents, req, st, r)
  {
    var k := st.attempts + 1;
    var s := SummaryAfter(agents, st);
    HeadFacts(agents, req, st);
    var logged := st.(attempts := k, interactions := s.interactions, statuses := s.statuses + [StatusUpdate(WritingStatus(k))]);
    var message := WriteScript(agents, WriterCallFor(agents, req, st), k).message;
    var r := WriterStop(logged, message);
    assert Attempt(agents, req, st) == Stopped(r);
    WriterStopFacts(logged, message);
    PrefixTransitive(st.statuses, logged.statuses, r.statusUpdates);
    assert LastWriterFailed(agents, req, st, r);
  }

  /** The writer returned a script and the validator threw on it: the attempt stops as `LastValidatorFailed` says. */
  lemma ValidatorStops(agents: Agents, req: Request, st: State)
    requires Attempt(agents, req, st).Stopped?
    requires WriteScript(agents, WriterCallFor(agents, req, st), st.attempts + 1).Ok?
    ensures var r := Attempt(agents, req, st).result;
      r.attempts == st.attempts + 1 && Halted(agents, req, st, r)
  {
    var k := st.attempts + 1;
    var s := SummaryAfter(agents, st);
    HeadFacts(agents, req, st);
    var logged := st.(attempts := k, interactions := s.interactions, statuses := s.statuses + [StatusUpdate(WritingStatus(k))]);
    var script := WriteScript(agents, WriterCallFor(agents, req, st), k).text;
    assert agents.writer(WriterCallFor(agents, req, st), k) == Ok(script);
    assert Attempt(agents, req, st) == Evaluated(agents, req, logged, s.feedback, script);
    EvaluatedFacts(agents, req, logged, s.feedback, script);
    var r := Attempt(agents, req, st).result;
    PrefixTransitive(st.statuses, logged.statuses, r.statusUpdates);
    PrefixTransitive(st.interactions, logged.interactions, r.interactions);
    assert r.interactions == s.interactions + [WriterEntry(req, s.feedback, st.lastScript, k, script)];
    assert LastValidatorFailed(agents, req, st, r);
  }

  lemma PrefixTransitive<T>(xs: seq<T>, ys: seq<T>, zs: seq<T>)
    requires xs <= ys && ys <= zs
    ensures xs <= zs
  {
  }

  /**
   * An attempt from `st` that completes does what `Completes` says: it
   * evaluates the script the writer returned for this attempt's call, and
   * logs exactly the summary entry (if any), one writer entry, one validator
   * entry and the verdict.
   */
  lemma AttemptEvaluates(agents: Agents, req: Request, st: State)
    requires Attempt(agents, req, st).Next?
    ensures Completes(agents, req, st, Attempt(agents, req, st).state)
  {
    AttemptScript(agents, req, st);
    AttemptLog(agents, req, st);
  }

  /** The script and evaluation part of `AttemptEvaluates`. */
  lemma AttemptScript(agents: Agents, req: Request, st: State)
    requires Attempt(agents, req, st).Next?
    ensures Evaluates(agents, req, st, Attempt(agents, req, st).state)
  {
    var k := st.attempts + 1;
    var s := SummaryAfter(agents, st);
    HeadFacts(agents, req, st);
    var logged := st.(attempts := k, interactions := s.interactions, statuses := s.statuses + [StatusUpdate(WritingStatus(k))]);
    var script := WriteScript(agents, WriterCallFor(agents, req, st), k).text;
    EvaluatedFacts(agents, req, logged, s.feedback, script);
    PrefixTransitive(st.statuses, logged.statuses, Attempt(agents, req, st).state.statuses);
  }

  /** The audit-trail part of `AttemptEvaluates`. */
  lemma AttemptLog(agents: Agents, req: Request, st: State)
    requires Attempt(agents, req, st).Next?
    ensures LogsAttempt(agents, req, st, Attempt(agents, req, st).state)
  {
    var k := st.attempts + 1;
    var s := SummaryAfter(agents, st);
    SummaryFacts(agents, st.validation, k, st.interactions, st.statuses + [StatusUpdate(AttemptStatus(k))]);
    var logged := st.(attempts := k, interactions := s.interactions, statuses := s.statuses + [StatusUpdate(WritingStatus(k))]);
    var script := WriteScript(agents, WriterCallFor(agents, req, st), k).text;
    EvaluatedFacts(agents, req, logged, s.feedback, script);
  }

  /**
   * The summary step only appends messages, and adds to the audit trail
   * exactly the summariser's entry, holding the feedback it returns, when a
   * summary was asked for and returned.
   */
  lemma SummaryFacts(agents: Agents, validation: Option<ValidationResult>, k: nat,
                     interactions: seq<AgentInteraction>, statuses: seq<StatusUpdate>)
    ensures var s := SummaryPhase(agents, validation, k, interactions, statuses);
      && statuses <= s.statuses
      && s.interactions == interactions
           + (if SummaryLogged(agents, validation, k) then [SummaryEntry(validation.value.fullEvaluation, s.feedback)] else [])
      && interactions <= s.interactions
      && CountAgent(s.interactions, WRITER_AGENT) == CountAgent(interactions, WRITER_AGENT)
      && CountAgent(s.interactions, VALIDATOR_AGENT) == CountAgent(interactions, VALIDATOR_AGENT)
  {
    var s := SummaryPhase(agents, validation, k, interactions, statuses);
    if validation.Some? && validation.value.feedback != "" && !validation.value.passed {
      var v := validation.value;
      var analysing := statuses + [StatusUpdate(ANALYZING_STATUS)];
      Extends(statuses, analysing, [StatusUpdate(ANALYZING_STATUS)]);
      match Summarize(agents, v.fullEvaluation, k)
      case Ok(summary) =>
        var entry := SummaryEntry(v.fullEvaluation, summary);
        Extends(analysing, analysing + [StatusUpdate(ANALYZED_STATUS)], [StatusUpdate(ANALYZED_STATUS)]);
        Extends(interactions, interactions + [entry], [entry]);
        CountAppend(interactions, entry, WRITER_AGENT);
        CountAppend(interactions, entry, VALIDATOR_AGENT);
      case Err(message) =>
        Extends(analysing, analysing + [StatusUpdate(SummaryErrorStatus(message))], [StatusUpdate(SummaryErrorStatus(message))]);
        assert interactions + [] == interactions;
    } else {
      assert interactions + [] == interactions;
    }
  }

  /** Appending keeps a prefix, and prefixes compose. */
  lemma Extends<T>(xs: seq<T>, ys: seq<T>, tail: seq<T>)
    requires ys == xs + tail
    ensures xs <= ys
  {
  }

  /** A normal exit: after an approved attempt, or after the fifth failed one. */
  predicate Completed(agents: Agents, req: Request, r: GenerationResult)
  {
    Approved(agents, req, r) || Exhausted(agents, req, r)
  }

  /**
   * How the attempt from `p` ended the loop with `r`, the last of `d`
   * attempts that added `writers` writer and `validators` validator entries:
   * normally after an evaluation, or because the writer or the validator
   * threw. Every completed attempt logged one writer and one validator entry;
   * the stopping attempt logged no validator entry, and a writer entry only
   * if the writer returned.
   */
  ghost predicate Ending(agents: Agents, req: Request, p: State, r: GenerationResult, d: int, writers: int, validators: int)
  {
    || (Completed(agents, req, r) && LastEvaluated(agents, req, p, r) && writers == d && validators == d)
    || (WriterFailed(r) && LastWriterFailed(agents, req, p, r) && writers == d - 1 && validators == d - 1)
    || (ValidatorFailed(agents, req, r) && LastValidatorFailed(agents, req, p, r) && writers == d && validators == d - 1)
  }

  /**
   * `states` are the loop variables at the head of consecutive attempts:
   * each attempt but the last came back to the loop test with the next.
   */
  predicate Trail(agents: Agents, req: Request, states: seq<State>)
  {
    forall i | 0 <= i < |states| - 1 :: Attempt(agents, req, states[i]) == Next(states[i + 1])
  }

  /**
   * What the loop from `st` guarantees about its result `r`: at least one
   * more attempt and at most five in all; the logs only grow; success only
   * for an approved script; `states` are the loop variables at the head of
   * each of these attempts, none after the first one successful (the loop
   * stops right after an approval), and the last one ended as `Ending` says.
   */
  ghost predicate Outcome(agents: Agents, req: Request, st: State, r: GenerationResult, states: seq<State>)
  {
    var d := r.attempts - st.attempts;
    && st.attempts < r.attempts <= MAX_ATTEMPTS
    && st.interactions <= r.interactions && st.statuses <= r.statusUpdates
    && (r.success ==> Approved(agents, req, r))
    && |states| == d && states[0] == st && Trail(agents, req, states)
    && (forall i | 1 <= i < |states| :: !states[i].success)
    && Ending(agents, req, states[d - 1], r, d,
         CountAgent(r.interactions, WRITER_AGENT) - CountAgent(st.interactions, WRITER_AGENT),
         CountAgent(r.interactions, VALIDATOR_AGENT) - CountAgent(st.interactions, VALIDATOR_AGENT))
  }

  /** What one attempt from `st` guarantees about how it ended. */
  ghost predicate StepOK(agents: Agents, req: Request, st: State, step: Step)
  {
    match step
    case Stopped(r) => r.attempts == st.attempts + 1 && Halted(agents, req, st, r)
    case Next(n) => Completes(agents, req, st, n)
  }

  lemma AttemptOK(agents: Agents, req: Request, st: State)
    ensures StepOK(agents, req, st, Attempt(agents, req, st))
  {
    if Attempt(agents, req, st).Stopped? {
      AttemptStops(agents, req, st);
    } else {
      AttemptEvaluates(agents, req, st);
    }
  }

  /** The loop from `st` on ends in one of the ways `Outcome` lists, after the attempts from `states`. */
  lemma {:induction false} RunOutcome(agents: Agents, req: Request, st: State) returns (states: seq<State>)
    requires st.attempts < MAX_ATTEMPTS
    ensures Outcome(agents, req, st, Run(agents, req, st), states)
    decreases MAX_ATTEMPTS - st.attempts, 1
  {
    AttemptOK(agents, req, st);
    states := ContinueOutcome(agents, req, st, Attempt(agents, req, st));
  }

  /** The loop test after the attempt from `st`, which ended as `StepOK` says, keeps `Outcome`. */
  lemma {:induction false} ContinueOutcome(agents: Agents, req: Request, st: State, step: Step) returns (states: seq<State>)
    requires st.attempts < MAX_ATTEMPTS
    requires step == Attempt(agents, req, st)
    requires step.Next? ==> step.state.attempts == st.attempts + 1
    requires StepOK(agents, req, st, step)
    ensures Outcome(agents, req, st, Continue(agents, req, st, step), states)
    decreases MAX_ATTEMPTS - st.attempts, 0
  {
    match step
    case Stopped(r) =>
      states := [st];
      StoppedOutcome(agents, req, st, r);
    case Next(n) =>
      if !n.success && n.attempts < MAX_ATTEMPTS {
        var rest := RunOutcome(agents, req, n);
        states := [st] + rest;
        NextOutcome(agents, req, st, n, Run(agents, req, n), rest);
      } else {
        states := [st];
        FinishOutcome(agents, req, st, n);
      }
  }

  /** An attempt that stops the loop is its last one. */
  lemma StoppedOutcome(agents: Agents, req: Request, st: State, r: GenerationResult)
    requires st.attempts < MAX_ATTEMPTS
    requires r.attempts == st.attempts + 1 && Halted(agents, req, st, r)
    ensures Outcome(agents, req, st, r, [st])
  {
  }

  /** An attempt after which the loop test fails is its last one. */
  lemma FinishOutcome(agents: Agents, req: Request, st: State, n: State)
    requires st.attempts < MAX_ATTEMPTS
    requires Completes(agents, req, st, n)
    requires n.success || n.attempts >= MAX_ATTEMPTS
    ensures Outcome(agents, req, st, Finish(n), [st])
  {
    FinishFacts(agents, req, n);
    var r := Finish(n);
    PrefixTransitive(st.statuses, n.statuses, r.statusUpdates);
    assert LastEvaluated(agents, req, st, r);
  }

  /** An attempt after which the loop goes on adds one attempt, one writer and one validator entry. */
  lemma NextOutcome(agents: Agents, req: Request, st: State, n: State, r: GenerationResult, states: seq<State>)
    requires Attempt(agents, req, st) == Next(n) && !n.success
    requires Completes(agents, req, st, n)
    requires Outcome(agents, req, n, r, states)
    ensures Outcome(agents, req, st, r, [st] + states)
  {
    PrefixTransitive(st.interactions, n.interactions, r.interactions);
    PrefixTransitive(st.statuses, n.statuses, r.statusUpdates);
    var all := [st] + states;
    TrailCons(agents, req, st, states);
    UnsuccessfulCons(st, states);
    var d := r.attempts - n.attempts;
    assert all[d] == states[d - 1];
    EndingShift(agents, req, states[d - 1], r, d,
      CountAgent(r.interactions, WRITER_AGENT) - CountAgent(n.interactions, WRITER_AGENT),
      CountAgent(r.interactions, VALIDATOR_AGENT) - CountAgent(n.interactions, VALIDATOR_AGENT));
  }

  /** A trail extends backwards by an attempt that comes back with its first state. */
  lemma TrailCons(agents: Agents, req: Request, st: State, states: seq<State>)
    requires |states| > 0 && Attempt(agents, req, st) == Next(states[0])
    requires Trail(agents, req, states)
    ensures Trail(agents, req, [st] + states)
  {
    var all := [st] + states;
    forall i | 0 <= i < |all| - 1 ensures Attempt(agents, req, all[i]) == Next(all[i + 1]) {
      if i > 0 {
        assert all[i] == states[i - 1] && all[i + 1] == states[i];
      }
    }
  }

  /** Loop variables none of which is successful stay so behind one more state. */
  lemma UnsuccessfulCons(st: State, states: seq<State>)
    requires |states| > 0 && !states[0].success
    requires forall i | 1 <= i < |states| :: !states[i].success
    ensures forall i | 1 <= i < |states| + 1 :: !([st] + states)[i].success
  {
    var all := [st] + states;
    forall i | 1 <= i < |all| ensures !all[i].success {
      assert all[i] == states[i - 1];
    }
  }

  /** One more completed attempt before the last one adds one to each count. */
  lemma EndingShift(agents: Agents, req: Request, p: State, r: GenerationResult, d: int, writers: int, validators: int)
    requires Ending(agents, req, p, r, d, writers, validators)
    ensures Ending(agents, req, p, r, d + 1, writers + 1, validators + 1)
  {
  }

  /** After the last evaluated attempt, its script and evaluation are returned and the closing message follows its verdict. */
  lemma FinishFacts(agents: Agents, req: Request, n: State)
    requires n.validation.Some? && n.lastScript == n.currentScript
    requires agents.validator(n.currentScript, req.duration, n.attempts) == Assessed(n.validation.value)
    requires n.success <==> n.validation.value.passed && n.validation.value.total >= MIN_SCORE
    requires EndsWith(n.statuses, VerdictTail(n.validation.value, n.attempts))
    requires n.success || n.attempts >= MAX_ATTEMPTS
    requires n.attempts <= MAX_ATTEMPTS
    ensures var r := Finish(n);
      && Completed(agents, req, r)
      && r.script == n.currentScript && r.validation == n.validation.value
      && r.attempts == n.attempts && r.interactions == n.interactions && n.statuses <= r.statusUpdates
  {
    var r := Finish(n);
    var v := n.validation.value;
    var tail := VerdictTail(v, n.attempts);
    Extends(n.statuses, r.statusUpdates, [StatusUpdate(COMPLETE_STATUS)]);
    assert r.statusUpdates[|r.statusUpdates| - |tail| - 1..] == tail + [StatusUpdate(COMPLETE_STATUS)] by {
      assert n.statuses[|n.statuses| - |tail|..] == tail;
    }
  }

  /**
   * Every attempt of a trail but the last came back to the loop test as
   * `Completes` says.
   */
  lemma TrailCompletes(agents: Agents, req: Request, states: seq<State>)
    requires Trail(agents, req, states)
    ensures forall i | 0 <= i < |states| - 1 :: Completes(agents, req, states[i], states[i + 1])
  {
    forall i | 0 <= i < |states| - 1 ensures Completes(agents, req, states[i], states[i + 1]) {
      assert Attempt(agents, req, states[i]) == Next(states[i + 1]);
      AttemptEvaluates(agents, req, states[i]);
    }
  }

  /** The loop variables `st` hold an evaluation of their current script that did not approve it. */
  predicate Rejected(agents: Agents, req: Request, st: State)
  {
    && st.validation.Some?
    && agents.validator(st.currentScript, req.duration, st.attempts) == Assessed(st.validation.value)
    && !(st.validation.value.passed && st.validation.value.total >= MIN_SCORE)
  }

  /**
   * On a trail where no attempt but the last succeeded, every attempt that
   * came back to the loop test was evaluated and not approved.
   */
  lemma EarlierAttemptsRejected(agents: Agents, req: Request, states: seq<State>)
    requires Trail(agents, req, states)
    requires forall i | 1 <= i < |states| :: !states[i].success
    ensures forall i | 1 <= i < |states| ::
      states[i].attempts == states[i - 1].attempts + 1 && Rejected(agents, req, states[i])
  {
    TrailCompletes(agents, req, states);
    forall i | 1 <= i < |states| ensures states[i].attempts == states[i - 1].attempts + 1 && Rejected(agents, req, states[i]) {
      assert Completes(agents, req, states[i - 1], states[i]);
    }
  }

  /**
   * A run that ends normally without success made five attempts: the four
   * that came back to the loop test and the fifth were all evaluated and
   * none was approved. `states` and `r` are as `GenerateOutcome` gives them.
   */
  lemma ExhaustedRunRejectedFive(agents: Agents, req: Request, r: GenerationResult, states: seq<State>)
    requires Trail(agents, req, states) && |states| == r.attempts
    requires forall i | 1 <= i < |states| :: !states[i].success
    requires Completed(agents, req, r) && !r.success
    ensures Exhausted(agents, req, r) && |states| == MAX_ATTEMPTS
    ensures forall i | 1 <= i < |states| :: states[i].attempts == states[i - 1].attempts + 1 && Rejected(agents, req, states[i])
  {
    EarlierAttemptsRejected(agents, req, states);
  }

  /** Five attempts from the start state, each rejected by the validator. */
  predicate RejectedTrail(agents: Agents, req: Request, states: seq<State>)
  {
    && |states| == MAX_ATTEMPTS && states[0] == Start(req) && Trail(agents, req, states)
    && (forall i | 1 <= i < |states| :: states[i].attempts == states[i - 1].attempts + 1 && Rejected(agents, req, states[i]))
  }

  /** Hence `generateContent` returns without success after a normal exit only when five evaluations rejected five scripts. */
  lemma GenerateExhausted(agents: Agents, req: Request) returns (states: seq<State>)
    ensures var r := Generate(agents, req);
      Completed(agents, req, r) && !r.success ==> Exhausted(agents, req, r) && RejectedTrail(agents, req, states)
  {
    var r := Generate(agents, req);
    states := GenerateOutcome(agents, req);
    if Completed(agents, req, r) && !r.success {
      ExhaustedRunRejectedFive(agents, req, r, states);
    }
  }

  /**
   * `generateContent` as a whole: between one and five attempts; the audit
   * trail opens with the genre entry and the messages with the start and
   * style messages; success only for an approved script; `states` are the
   * loop variables at the head of each attempt, from the start state on, no
   * attempt but the last was approved, and the last one ended as `Ending`
   * says, with one writer and one validator entry per attempt on a normal
   * exit.
   */
  lemma GenerateOutcome(agents: Agents, req: Request) returns (states: seq<State>)
    ensures var r := Generate(agents, req);
      && 1 <= r.attempts <= MAX_ATTEMPTS
      && |r.interactions| >= 1 && r.interactions[0] == GenreInteraction(req)
      && |r.statusUpdates| >= 2
      && r.statusUpdates[0] == StatusUpdate(StartStatus(req.title))
      && r.statusUpdates[1] == StatusUpdate(StyleStatus(req.genrePattern, req.detectedGenre))
      && (r.success ==> Approved(agents, req, r))
      && Trail(agents, req, states) && |states| == r.attempts && states[0] == Start(req)
      && (forall i | 1 <= i < |states| :: !states[i].success)
      && Ending(agents, req, states[|states| - 1], r, r.attempts,
           CountAgent(r.interactions, WRITER_AGENT), CountAgent(r.interactions, VALIDATOR_AGENT))
  {
    var st := Start(req);
    assert st.interactions == [GenreInteraction(req)];
    states := RunOutcome(agents, req, st);
    StartOutcome(agents, req, st, Generate(agents, req), states);
  }

  /** Any result of the loop from a state like the start state satisfies the properties of `GenerateOutcome`. */
  lemma StartOutcome(agents: Agents, req: Request, st: State, r: GenerationResult, states: seq<State>)
    requires st.attempts == 0 && st.interactions == [GenreInteraction(req)]
    requires |st.statuses| == 2
    requires st.statuses[0] == StatusUpdate(StartStatus(req.title))
    requires st.statuses[1] == StatusUpdate(StyleStatus(req.genrePattern, req.detectedGenre))
    requires Outcome(agents, req, st, r, states)
    ensures
      && 1 <= r.attempts <= MAX_ATTEMPTS
      && |r.interactions| >= 1 && r.interactions[0] == GenreInteraction(req)
      && |r.statusUpdates| >= 2
      && r.statusUpdates[0] == StatusUpdate(StartStatus(req.title))
      && r.statusUpdates[1] == StatusUpdate(StyleStatus(req.genrePattern, req.detectedGenre))
      && (r.success ==> Approved(agents, req, r))
      && Trail(agents, req, states) && |states| == r.attempts && states[0] == st
      && (forall i | 1 <= i < |states| :: !states[i].success)
      && Ending(agents, req, states[|states| - 1], r, r.attempts,
           CountAgent(r.interactions, WRITER_AGENT), CountAgent(r.interactions, VALIDATOR_AGENT))
  {
    StartEnding(agents, req, st, r, states);
    assert r.interactions[0] == st.interactions[0];
    assert r.statusUpdates[0] == st.statuses[0] && r.statusUpdates[1] == st.statuses[1];
  }

  /** From a state with no writer or validator entry, the counts `Ending` relates are the whole counts. */
  lemma StartEnding(agents: Agents, req: Request, st: State, r: GenerationResult, states: seq<State>)
    requires st.attempts == 0 && st.interactions == [GenreInteraction(req)]
    requires Outcome(agents, req, st, r, states)
    ensures Ending(agents, req, states[|states| - 1], r, r.attempts,
      CountAgent(r.interactions, WRITER_AGENT), CountAgent(r.interactions, VALIDATOR_AGENT))
  {
    assert CountAgent(st.interactions, WRITER_AGENT) == 0 && CountAgent(st.interactions, VALIDATOR_AGENT) == 0 by {
      assert st.interactions[..0] == [];
    }
  }

  /** With the real validator agent, the orchestrator's validation-error branch is never taken. */
  lemma SoundValidatorNeverFails(agents: Agents, req: Request, r: GenerationResult)
    requires SoundValidator(agents)
    ensures !ValidatorFailed(agents, req, r)
  {
  }

  /** `validateScript` is such an agent: it never throws, and passes exactly the totals of at least 8 with a verdict. */
  lemma ParsingValidatorIsSound(summarizer: (string, nat) -> Outcome, writer: (WriterCall, nat) -> Outcome,
                                backend: (string, Duration, nat) -> Outcome)
    ensures SoundValidator(Agents(summarizer, writer, ParsingValidator(backend)))
  {
    var agents := Agents(summarizer, writer, ParsingValidator(backend));
    forall script: string, duration: Duration, attempt: nat
      ensures agents.validator(script, duration, attempt).Assessed?
      ensures agents.validator(script, duration, attempt).result.passed <==> agents.validator(script, duration, attempt).result.total >= MIN_SCORE
      ensures agents.validator(script, duration, attempt).result.feedback != ""
    {
      var v := Validator.ValidateScript(backend(script, duration, attempt));
      assert agents.validator(script, duration, attempt) == Assessed(v);
    }
  }

  /**
   * With a sound validator, an evaluation that is not approved failed its
   * checks: the "below minimum" wording is never produced.
   */
  lemma FailedChecksReason(v: ValidationResult)
    requires v.passed <==> v.total >= MIN_SCORE
    requires !(v.passed && v.total >= MIN_SCORE)
    ensures Reason(v) == "Failed validation checks."
  {
  }

  /** The first attempt gets no feedback and no previous script. */
  lemma FirstWriterCall(agents: Agents, req: Request)
    ensures WriterCallFor(agents, req, Start(req))
      == WriterCall(req.title, req.data, req.duration, "", None, req.genrePattern)
  {
  }

  /**
   * The attempt after a completed, unapproved one revises exactly the script
   * that attempt produced, with feedback from the summariser, asked about the
   * full evaluation of that script, or the fallback built from it if the
   * summariser throws.
   */
  lemma RevisionThreading(agents: Agents, req: Request, st: State)
    requires Attempt(agents, req, st).Next?
    ensures var n := Attempt(agents, req, st).state;
      var v := n.validation.value;
      var call := WriterCallFor(agents, req, n);
      && agents.writer(WriterCallFor(agents, req, st), n.attempts) == Ok(n.currentScript)
      && agents.validator(n.currentScript, req.duration, n.attempts) == Assessed(v)
      && call.previousScript == Some(n.currentScript)
      && call.summarizedFeedback
         == if v.feedback != "" && !v.passed then
              match agents.summarizer(v.fullEvaluation, n.attempts + 1)
              case Ok(summary) => summary
              case Err(_) => FallbackFeedback(v)
            else ""
  {
    AttemptEvaluates(agents, req, st);
  }

  /**
   * The audit trail never records the previous script's text: the writer's
   * logged input shows the marker when there is one to revise, and is the
   * same whatever that script says.
   */
  lemma WriterLogHidesScript(req: Request, feedback: string, lastScript: string, other: string, k: nat)
    requires lastScript != "" && other != ""
    ensures WriterLogInput(req, feedback, lastScript, k) == WriterLogInput(req, feedback, other, k)
    ensures k > 1 ==> EndsWith(WriterLogInput(req, feedback, lastScript, k), REVISION_MARKER)
    ensures k <= 1 ==> WriterLogInput(req, feedback, lastScript, k) == WriterLogInput(req, feedback, "", k)
  {
  }

  /**
   * A writer failure on the first attempt returns at once, with the fixed
   * failure script, an all-zero failing evaluation naming the error, and only
   * the genre entry in the audit trail.
   */
  lemma FirstWriterFailure(agents: Agents, req: Request)
    requires agents.writer(WriterCall(req.title, req.data, req.duration, "", None, req.genrePattern), 1).Err?
    ensures var r := Generate(agents, req);
      var failure := "Failed during script generation: " + WRITER_FAILED;
      && r.script == WRITER_FALLBACK_SCRIPT
      && r.validation == ZeroValidation(failure, failure)
      && r.attempts == 1 && !r.success
      && r.interactions == [GenreInteraction(req)]
      && EndsWith(r.statusUpdates, [StatusUpdate(WriterErrorStatus(1, WRITER_FAILED))])
  {
    var st := Start(req);
    FirstWriterCall(agents, req);
    assert SummaryAfter(agents, st) == Summary("", st.interactions, st.statuses + [StatusUpdate(AttemptStatus(1))]);
    var logged := st.(attempts := 1, statuses := st.statuses + [StatusUpdate(AttemptStatus(1))] + [StatusUpdate(WritingStatus(1))]);
    var r := WriterStop(logged, WRITER_FAILED);
    assert Attempt(agents, req, st) == Stopped(r);
    assert Generate(agents, req) == Continue(agents, req, st, Attempt(agents, req, st));
    assert [] + [GenreInteraction(req)] == [GenreInteraction(req)];
  }
}
