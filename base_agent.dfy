/**
 * The bookkeeping of one completion call made by any agent: the chat messages
 * are mapped to the backend's history format, the backend is called, its
 * response is checked, and calls that fail with a rate-limit error are retried
 * a bounded number of times.
 *
 * The backend is an oracle: `api(history, i)` is what the `i`-th call (from 0)
 * returns or throws when it is sent `history`.
 */
module BaseAgent {
  import opened Types

  const EMPTY_HISTORY_MESSAGE: string := "Cannot generate completion with empty message history after mapping."
  const EXITED_MESSAGE: string := "Exited generation loop unexpectedly after maximum retries."
  const NO_CANDIDATES_MESSAGE: string := "Failed to generate completion: No response candidates."
  const CANDIDATE_MISSING_MESSAGE: string := "Failed to generate completion: Candidate object missing."
  const INVALID_CONTENT_MESSAGE: string := "Failed to generate completion: Empty or invalid content/text part in response."

  // ---------------------------------------------------------------------
  // Messages and the history sent to the backend
  // ---------------------------------------------------------------------

  datatype Role = System | User | Assistant

  /** A chat message in the application's own format. */
  datatype Message = Message(role: Role, content: string)

  /** One history entry with its single text part: a `user` or a `model` turn. */
  datatype Turn = UserTurn(text: string) | ModelTurn(text: string)

  /** The turns the mapping loop pushes: user and assistant messages in order, system messages dropped. */
  function Turns(ms: seq<Message>): seq<Turn>
    decreases |ms|
  {
    if ms == [] then []
    else
      var m := ms[|ms| - 1];
      var earlier := Turns(ms[..|ms| - 1]);
      match m.role
      case System => earlier
      case User => earlier + [UserTurn(m.content)]
      case Assistant => earlier + [ModelTurn(m.content)]
  }

  /**
   * The system prompt still held when the mapping loop ends: the last system
   * message not followed by a user message (an assistant message does not
   * consume it), or `None`.
   */
  function PendingSystem(ms: seq<Message>): Option<string>
    decreases |ms|
  {
    if ms == [] then None
    else
      var m := ms[|ms| - 1];
      match m.role
      case System => Some(m.content)
      case User => None
      case Assistant => PendingSystem(ms[..|ms| - 1])
  }

  /**
   * The history after mapping and the emptiness check: the turns, or, when
   * there are none, the pending system prompt as a single user turn if it is
   * non-empty; `None` stands for the error thrown before any backend call.
   */
  function History(ms: seq<Message>): Option<seq<Turn>>
  {
    var turns := Turns(ms);
    if turns != [] then Some(turns)
    else
      match PendingSystem(ms)
      case Some(prompt) => if prompt != "" then Some([UserTurn(prompt)]) else None
      case None => None
  }

  /** The mapping loop and the emptiness check after it. */
  method MapHistory(messages: seq<Message>) returns (history: Option<seq<Turn>>)
    ensures history == History(messages)
  {
    var turns: seq<Turn> := [];
    var systemPrompt: Option<string> := None;
    for i := 0 to |messages|
      invariant turns == Turns(messages[..i])
      invariant systemPrompt == PendingSystem(messages[..i])
    {
      var msg := messages[i];
      assert messages[..i + 1][..i] == messages[..i];
      match msg.role
      case System =>
        systemPrompt := Some(msg.content);
      case User =>
        turns := turns + [UserTurn(msg.content)];
        systemPrompt := None;
      case Assistant =>
        turns := turns + [ModelTurn(msg.content)];
    }
    assert messages[..|messages|] == messages;
    if turns == [] {
      if systemPrompt.Some? && systemPrompt.value != "" {
        return Some([UserTurn(systemPrompt.value)]);
      }
      return None;
    }
    return Some(turns);
  }

  // ---------------------------------------------------------------------
  // The backend's response and its checks
  // ---------------------------------------------------------------------

  datatype Part = Part(text: Option<string>)

  datatype Content = Content(parts: Option<seq<Part>>)

  /** A candidate; the safety ratings are kept as the JSON text the error message would show. */
  datatype Candidate = Candidate(finishReason: Option<string>, safetyRatingsJson: string, content: Option<Content>)

  /** A response; `blockReason` is the prompt feedback's block reason, when there is one. */
  datatype Response = Response(candidates: Option<seq<Option<Candidate>>>, blockReason: Option<string>)

  /** What one backend call does: returns a (possibly absent) response, or throws an error with an optional message. */
  datatype ApiReply = Responded(response: Option<Response>) | Threw(message: Option<string>)

  /** JavaScript truthiness of an optional string. */
  predicate Truthy(s: Option<string>)
  {
    s.Some? && s.value != ""
  }

  /** The error the finish-reason check throws, or `None` when the candidate is accepted. */
  function FinishReasonError(c: Candidate): Option<string>
  {
    if Truthy(c.finishReason) && c.finishReason.value != "STOP" then
      var reason := c.finishReason.value;
      if reason == "SAFETY" then Some("Generation stopped due to safety concerns: " + c.safetyRatingsJson)
      else if reason == "MAX_TOKENS" then None
      else Some("Generation failed with finish reason: " + reason)
    else None
  }

  /** The text of the first part, when content, parts, a first part and its text string all exist. */
  function FirstText(c: Candidate): Option<string>
  {
    match c.content
    case None => None
    case Some(content) =>
      match content.parts
      case None => None
      case Some(parts) => if parts == [] then None else parts[0].text
  }

  /** The checks on a response, in the order the source makes them: the text, or the error thrown. */
  function Check(response: Option<Response>): Outcome
  {
    if response.None? || response.value.candidates.None? || response.value.candidates.value == [] then
      if response.Some? && Truthy(response.value.blockReason) then
        Err("Request blocked by safety filters: " + response.value.blockReason.value)
      else Err(NO_CANDIDATES_MESSAGE)
    else
      match response.value.candidates.value[0]
      case None => Err(CANDIDATE_MISSING_MESSAGE)
      case Some(candidate) =>
        match FinishReasonError(candidate)
        case Some(message) => Err(message)
        case None =>
          match FirstText(candidate)
          case None => Err(INVALID_CONTENT_MESSAGE)
          case Some(text) => Ok(text)
  }

  /** What one call amounts to inside the `try`: text, or an error (thrown by the backend or by a check). */
  datatype CallResult = Text(text: string) | Failure(message: Option<string>)

  function Call(reply: ApiReply): CallResult
  {
    match reply
    case Threw(message) => Failure(message)
    case Responded(response) =>
      match Check(response)
      case Ok(text) => Text(text)
      case Err(message) => Failure(Some(message))
  }

  // ---------------------------------------------------------------------
  // The retry loop
  // ---------------------------------------------------------------------

  /** `error.message?.includes("429") || error.message?.includes("rate limit")`. */
  predicate IsRateLimit(message: Option<string>)
  {
    message.Some? && (Contains(message.value, "429") || Contains(message.value, "rate limit"))
  }

  /** `${error.message}`: a missing message prints as `undefined`. */
  function MessageText(message: Option<string>): string
  {
    match message
    case Some(m) => m
    case None => "undefined"
  }

  /** The error rethrown once retrying stops. */
  function WrappedError(retries: nat, message: Option<string>): string
  {
    "Failed to generate completion using Gemini API after " + NatText(retries) + " retries: " + MessageText(message)
  }

  /** The outcome of a completion call and the number of backend calls it made. */
  datatype Completion = Completion(outcome: Outcome, calls: nat)

  /** The retry loop entered with the counter at `retries`. */
  function RetryFrom(history: seq<Turn>, maxRetries: int, api: (seq<Turn>, nat) -> ApiReply, retries: nat): Completion
    decreases if retries <= maxRetries then maxRetries + 1 - retries else 0
  {
    if retries > maxRetries then Completion(Err(EXITED_MESSAGE), 0)
    else
      match Call(api(history, retries))
      case Text(text) => Completion(Ok(text), 1)
      case Failure(message) =>
        if IsRateLimit(message) && retries < maxRetries then
          var rest := RetryFrom(history, maxRetries, api, retries + 1);
          Completion(rest.outcome, rest.calls + 1)
        else Completion(Err(WrappedError(retries, message)), 1)
  }

  /** A whole completion call: the mapping, then the retry loop from a zero counter. */
  function CompletionOf(messages: seq<Message>, maxRetries: int, api: (seq<Turn>, nat) -> ApiReply): Completion
  {
    match History(messages)
    case None => Completion(Err(EMPTY_HISTORY_MESSAGE), 0)
    case Some(history) => RetryFrom(history, maxRetries, api, 0)
  }

  /** `generateCompletion`: returns the text or the error it throws, and the number of backend calls made. */
  method GenerateCompletion(messages: seq<Message>, maxRetries: int, api: (seq<Turn>, nat) -> ApiReply)
    returns (r: Outcome, calls: nat)
    ensures Completion(r, calls) == CompletionOf(messages, maxRetries, api)
  {
    var mapped := MapHistory(messages);
    if mapped.None? {
      return Err(EMPTY_HISTORY_MESSAGE), 0;
    }
    var history := mapped.value;
    var retries: nat := 0;
    calls := 0;
    while retries <= maxRetries
      invariant calls == retries
      invariant retries == 0 || retries <= maxRetries
      invariant var rest := RetryFrom(history, maxRetries, api, retries);
        RetryFrom(history, maxRetries, api, 0) == Completion(rest.outcome, rest.calls + calls)
      decreases maxRetries + 1 - retries
    {
      var reply := api(history, retries);
      calls := calls + 1;
      match Call(reply)
      case Text(text) =>
        return Ok(text), calls;
      case Failure(message) =>
        if IsRateLimit(message) && retries < maxRetries {
          retries := retries + 1;
          continue;
        }
        return Err(WrappedError(retries, message)), calls;
    }
    return Err(EXITED_MESSAGE), calls;
  }

  // ---------------------------------------------------------------------
  // Properties of the mapping
  // ---------------------------------------------------------------------

  /** The turns of a concatenation are the concatenated turns: order is kept and nothing moves across. */
  lemma {:induction false} TurnsAppend(a: seq<Message>, b: seq<Message>)
    ensures Turns(a + b) == Turns(a) + Turns(b)
    decreases |b|
  {
    if b == [] {
      assert a + b == a;
    } else {
      var b' := b[..|b| - 1];
      assert (a + b)[..|a + b| - 1] == a + b';
      assert (a + b)[|a + b| - 1] == b[|b| - 1];
      assert b[..|b| - 1] == b';
      TurnsAppend(a, b');
    }
  }

  /**
   * Each message contributes in place: a user message one `user` turn, an
   * assistant message one `model` turn, a system message nothing.
   */
  lemma TurnsAround(a: seq<Message>, m: Message, b: seq<Message>)
    ensures Turns(a + [m] + b) == Turns(a) + (match m.role
      case System => []
      case User => [UserTurn(m.content)]
      case Assistant => [ModelTurn(m.content)]) + Turns(b)
  {
    TurnsAppend(a + [m], b);
    TurnsAppend(a, [m]);
    assert [m][..0] == [];
  }

  /** There are no turns exactly when every message is a system message. */
  lemma {:induction false} TurnsEmptyIff(ms: seq<Message>)
    ensures Turns(ms) == [] <==> forall i | 0 <= i < |ms| :: ms[i].role == System
    decreases |ms|
  {
    if ms != [] {
      var front := ms[..|ms| - 1];
      TurnsEmptyIff(front);
      assert forall i | 0 <= i < |front| :: front[i] == ms[i];
    }
  }

  /**
   * The mapping fails exactly when there is no user or assistant message and
   * no non-empty system prompt to fall back on: the input is empty, or its
   * messages are all system messages and the last one is empty.
   */
  lemma HistoryMissingIff(ms: seq<Message>)
    ensures History(ms).None? <==>
      (forall i | 0 <= i < |ms| :: ms[i].role == System) && (ms == [] || ms[|ms| - 1].content == "")
  {
    TurnsEmptyIff(ms);
  }

  /**
   * Only the last system prompt is used, and only as the single user turn of
   * an otherwise empty history.
   */
  lemma SystemOnlyHistory(ms: seq<Message>)
    requires ms != [] && forall i | 0 <= i < |ms| :: ms[i].role == System
    requires ms[|ms| - 1].content != ""
    ensures History(ms) == Some([UserTurn(ms[|ms| - 1].content)])
  {
    TurnsEmptyIff(ms);
  }

  /** A system message after a non-empty conversation is dropped. */
  lemma TrailingSystemDropped(ms: seq<Message>, prompt: string)
    requires Turns(ms) != []
    ensures History(ms + [Message(System, prompt)]) == History(ms)
  {
    var all := ms + [Message(System, prompt)];
    assert all[..|all| - 1] == ms;
  }

  // ---------------------------------------------------------------------
  // Properties of the response checks
  // ---------------------------------------------------------------------

  /** A candidate passes the finish-reason check exactly when the reason is absent, empty, `STOP` or `MAX_TOKENS`. */
  lemma FinishReasonAccepted(c: Candidate)
    ensures FinishReasonError(c).None? <==>
      c.finishReason.None? || c.finishReason.value in {"", "STOP", "MAX_TOKENS"}
  {
    if c.finishReason.Some? && c.finishReason.value == "MAX_TOKENS" {
      assert c.finishReason.value != "SAFETY" by {
        assert "MAX_TOKENS"[0] != "SAFETY"[0];
      }
    }
  }

  /**
   * A response is accepted exactly when it has a first candidate that passes
   * the finish-reason check and has a first part with text; the text
   * returned is that part's text, empty or not.
   */
  lemma CheckAcceptsIff(response: Option<Response>)
    ensures Check(response).Ok? <==>
      && response.Some?
      && response.value.candidates.Some?
      && response.value.candidates.value != []
      && response.value.candidates.value[0].Some?
      && FinishReasonError(response.value.candidates.value[0].value).None?
      && FirstText(response.value.candidates.value[0].value).Some?
    ensures Check(response).Ok? ==>
      Some(Check(response).text) == FirstText(response.value.candidates.value[0].value)
  {
  }

  /** A blocked prompt without candidates is reported with its block reason. */
  lemma BlockReasonReported(candidates: Option<seq<Option<Candidate>>>, reason: string)
    requires candidates.None? || candidates.value == []
    requires reason != ""
    ensures Check(Some(Response(candidates, Some(reason)))).Err?
    ensures Contains(Check(Some(Response(candidates, Some(reason)))).message, reason)
  {
    var prefix := "Request blocked by safety filters: ";
    var message := Check(Some(Response(candidates, Some(reason)))).message;
    assert message == prefix + reason;
    assert OccursAt(message, reason, |prefix|);
  }

  /** A candidate stopped for safety is reported with its safety ratings. */
  lemma SafetyStopReported(c: Candidate)
    requires c.finishReason == Some("SAFETY")
    ensures FinishReasonError(c).Some?
    ensures Contains(FinishReasonError(c).value, c.safetyRatingsJson)
  {
    var prefix := "Generation stopped due to safety concerns: ";
    assert "SAFETY" != "STOP" by {
      assert "SAFETY"[1] != "STOP"[1];
    }
    var message := FinishReasonError(c).value;
    assert message == prefix + c.safetyRatingsJson;
    assert OccursAt(message, c.safetyRatingsJson, |prefix|);
  }

  // ---------------------------------------------------------------------
  // Properties of the retry loop
  // ---------------------------------------------------------------------

  /**
   * The loop makes between one and `maxRetries + 1 - retries` calls; with a
   * negative `maxRetries` it makes none and reaches the final throw.
   */
  lemma {:induction false} CallsBound(history: seq<Turn>, maxRetries: int, api: (seq<Turn>, nat) -> ApiReply, retries: nat)
    ensures retries > maxRetries ==> RetryFrom(history, maxRetries, api, retries) == Completion(Err(EXITED_MESSAGE), 0)
    ensures retries <= maxRetries ==> 1 <= RetryFrom(history, maxRetries, api, retries).calls <= maxRetries + 1 - retries
    decreases if retries <= maxRetries then maxRetries + 1 - retries else 0
  {
    if retries <= maxRetries {
      match Call(api(history, retries))
      case Text(_) =>
      case Failure(message) =>
        if IsRateLimit(message) && retries < maxRetries {
          CallsBound(history, maxRetries, api, retries + 1);
        }
    }
  }

  /** Every call but the last failed with a rate-limit error while retries were left. */
  lemma {:induction false} EarlierCallsRateLimited(history: seq<Turn>, maxRetries: int, api: (seq<Turn>, nat) -> ApiReply, retries: nat)
    ensures var n := RetryFrom(history, maxRetries, api, retries).calls;
      forall i | retries <= i < retries + n - 1 ::
        i < maxRetries && Call(api(history, i)).Failure? && IsRateLimit(Call(api(history, i)).message)
    decreases if retries <= maxRetries then maxRetries + 1 - retries else 0
  {
    if retries <= maxRetries {
      match Call(api(history, retries))
      case Text(_) =>
      case Failure(message) =>
        if IsRateLimit(message) && retries < maxRetries {
          EarlierCallsRateLimited(history, maxRetries, api, retries + 1);
        }
    }
  }

  /**
   * The last call decides: its text is returned, or its error is rethrown,
   * wrapped with the number of retries made, because it was not a rate-limit
   * error or no retry was left.
   */
  lemma {:induction false} LastCallDecides(history: seq<Turn>, maxRetries: int, api: (seq<Turn>, nat) -> ApiReply, retries: nat)
    requires retries <= maxRetries
    ensures var c := RetryFrom(history, maxRetries, api, retries);
      c.calls >= 1 &&
      var last := retries + c.calls - 1;
      match Call(api(history, last))
      case Text(text) => c.outcome == Ok(text)
      case Failure(message) =>
        c.outcome == Err(WrappedError(last, message)) && (!IsRateLimit(message) || last == maxRetries)
    decreases maxRetries + 1 - retries
  {
    match Call(api(history, retries))
    case Text(_) =>
    case Failure(message) =>
      if IsRateLimit(message) && retries < maxRetries {
        LastCallDecides(history, maxRetries, api, retries + 1);
      }
  }

  /**
   * Retry exhaustion: when every call fails with a rate-limit error, exactly
   * `maxRetries + 1` calls are made and the last error is rethrown reporting
   * `maxRetries` retries.
   */
  lemma RetryExhaustion(messages: seq<Message>, maxRetries: nat, api: (seq<Turn>, nat) -> ApiReply)
    requires History(messages).Some?
    requires forall i: nat | i <= maxRetries ::
      Call(api(History(messages).value, i)).Failure? && IsRateLimit(Call(api(History(messages).value, i)).message)
    ensures var c := CompletionOf(messages, maxRetries, api);
      c.calls == maxRetries + 1 &&
      c.outcome == Err(WrappedError(maxRetries, Call(api(History(messages).value, maxRetries)).message))
  {
    var h := History(messages).value;
    CallsBound(h, maxRetries, api, 0);
    LastCallDecides(h, maxRetries, api, 0);
  }

  /** An error that is not a rate-limit error is rethrown at once, reporting zero retries. */
  lemma OtherErrorsNotRetried(messages: seq<Message>, maxRetries: nat, api: (seq<Turn>, nat) -> ApiReply)
    requires History(messages).Some?
    requires Call(api(History(messages).value, 0)).Failure?
    requires !IsRateLimit(Call(api(History(messages).value, 0)).message)
    ensures CompletionOf(messages, maxRetries, api) ==
      Completion(Err(WrappedError(0, Call(api(History(messages).value, 0)).message)), 1)
  {
  }
}
