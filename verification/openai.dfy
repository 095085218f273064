/** `OpenAIClient` (src/ai/openai.rs): a chat-completions request in JSON
    mode, retried with a growing token budget while the reply is cut off
    by the length limit, then fence stripping and decoding with the
    clamped brace scan as a fallback. */
module OpenAIClient {
  import opened Basics
  import opened Text
  import opened Json
  import opened Schema
  import opened Client
  import opened Stream
  import opened Extract

  /** Attempts a commit-message call may make. */
  const MaxAttempts: nat := 4

  /** The ceiling a retried budget is held to. */
  const TokenCap: nat := 4000

  const CommitSystemPrompt := "You are a helpful assistant that generates git commit messages in JSON format. Reply with exactly one valid, minified JSON object."
  const RetryPrompt := "Your previous answer was truncated. Send the complete JSON object this time, keep it under 600 characters, and avoid any commentary or markdown fences."
  const ChangelogSystemPrompt := "You are a helpful assistant that generates changelog summaries in JSON format. Reply with exactly one valid, minified JSON object."

  // ---- Requests ----

  /** `max_tokens.saturating_mul(2).min(4000)` on a `u32`. */
  function NextBudget(b: U32): (r: U32)
    ensures r <= TokenCap
    ensures b <= TokenCap / 2 ==> r == 2 * b
    ensures b >= TokenCap / 2 ==> r == TokenCap
  {
    var doubled := if 2 * b > U32_MAX then U32_MAX else 2 * b;
    Min(doubled, TokenCap)
  }

  /** The budget of attempt `k`: the configured one, doubled per retry. */
  function Budget(initial: U32, k: nat): U32 {
    if k == 0 then initial else NextBudget(Budget(initial, k - 1))
  }

  function Pow2(k: nat): nat {
    if k == 0 then 1 else 2 * Pow2(k - 1)
  }

  /** Every retried budget is the initial one times two per retry, held at
      4000; the first attempt uses the configured budget unchanged, even
      above 4000. */
  lemma {:induction false} BudgetClosedForm(initial: U32, k: nat)
    ensures k == 0 ==> Budget(initial, k) == initial
    ensures k > 0 ==> Budget(initial, k) == Min(initial * Pow2(k), TokenCap)
  {
    if k > 1 {
      BudgetClosedForm(initial, k - 1);
      DoubleStep(initial, k);
    }
  }

  lemma DoubleStep(a: nat, k: nat)
    requires k > 0
    ensures a * Pow2(k) == 2 * (a * Pow2(k - 1))
  {
    calc {
      a * Pow2(k);
      a * (2 * Pow2(k - 1));
      2 * (a * Pow2(k - 1));
    }
  }

  /** Retried budgets never shrink, and none exceeds 4000. */
  lemma RetryBudgetsGrow(initial: U32, k: nat)
    requires k > 0
    ensures Budget(initial, k) <= TokenCap
    ensures Budget(initial, k) <= Budget(initial, k + 1)
  {
  }

  /** The messages of attempt `k`: the system instruction, the truncation
      reminder on every retry, and the user prompt. */
  function CommitMessages(k: nat, prompt: string): (ms: seq<ChatMessage>)
    ensures |ms| == if k > 0 then 3 else 2
    ensures ms[0] == ChatMessage("system", CommitSystemPrompt)
    ensures ms[|ms| - 1] == ChatMessage("user", prompt)
    ensures ChatMessage("system", RetryPrompt) in ms <==> k > 0
  {
    assert CommitSystemPrompt != RetryPrompt by {
      assert |CommitSystemPrompt| != |RetryPrompt|;
    }
    assert "system" != "user";
    [ChatMessage("system", CommitSystemPrompt)]
    + (if k > 0 then [ChatMessage("system", RetryPrompt)] else [])
    + [ChatMessage("user", prompt)]
  }

  function CompletionsUrl(config: ClientConfig): string {
    config.baseUrl + "/chat/completions"
  }

  /** The request of attempt `k` of a commit-message call. */
  function CommitRequest(config: ClientConfig, prompt: string, k: nat): (r: ChatRequest)
    ensures r.url == config.baseUrl + "/chat/completions" && r.model == config.model && r.jsonMode
    ensures |r.messages| == if k > 0 then 3 else 2
    ensures r.messages[0] == ChatMessage("system", CommitSystemPrompt)
    ensures r.messages[|r.messages| - 1] == ChatMessage("user", prompt)
    ensures ChatMessage("system", RetryPrompt) in r.messages <==> k > 0
    ensures k == 0 ==> r.maxTokens == config.initialMaxTokens
    ensures k > 0 ==> r.maxTokens <= TokenCap
  {
    ChatRequest(CompletionsUrl(config), config.model, CommitMessages(k, prompt),
                Budget(config.initialMaxTokens, k), true)
  }

  /** The single request of a changelog call. */
  function ChangelogRequest(config: ClientConfig, prompt: string): (r: ChatRequest)
    ensures r.url == config.baseUrl + "/chat/completions" && r.model == config.model && r.jsonMode
    ensures r.messages == [ChatMessage("system", ChangelogSystemPrompt), ChatMessage("user", prompt)]
    ensures r.maxTokens == config.initialMaxTokens
    ensures ChatMessage("system", RetryPrompt) !in r.messages
  {
    ChatRequest(CompletionsUrl(config), config.model,
                [ChatMessage("system", ChangelogSystemPrompt), ChatMessage("user", prompt)],
                config.initialMaxTokens, true)
  }

  // ---- The non-streaming envelope: OpenAIResponse { choices: [Choice] },
  //      Choice { message: ResponseMessage, finish_reason: Option<String> },
  //      ResponseMessage { content: Option<String> } ----

  datatype ChoiceInfo = ChoiceInfo(content: Option<string>, finishReason: Option<string>)

  function DecodeResponseMessage(v: JsonValue, field: string): (r: Result<Option<string>, DecodeError>)
    ensures r.Ok? <==> v.Object? && OptionalNullableString(Find(v.members, {"content"}))
    ensures r.Ok? ==> r.value == GivenString(Find(v.members, {"content"}))
  {
    if !v.Object? then Err(NotAnObject(field))
    else Defaulted(v.members, {"content"}, "content", None, AsOptString)
  }

  function DecodeChoiceInfo(v: JsonValue): (r: Result<ChoiceInfo, DecodeError>)
    ensures r.Ok? <==> && v.Object? && Find(v.members, {"message"}).Present?
                       && DecodeResponseMessage(Find(v.members, {"message"}).value, "message").Ok?
                       && OptionalNullableString(Find(v.members, {"finish_reason"}))
    ensures r.Ok? ==> DecodeResponseMessage(Find(v.members, {"message"}).value, "message") == Ok(r.value.content)
    ensures r.Ok? ==> r.value.finishReason == GivenString(Find(v.members, {"finish_reason"}))
  {
    if !v.Object? then Err(NotAnObject("Choice"))
    else
      var content :- Required(v.members, {"message"}, "message", DecodeResponseMessage);
      var finish :- Defaulted(v.members, {"finish_reason"}, "finish_reason", None, AsOptString);
      Ok(ChoiceInfo(content, finish))
  }

  function ChoiceList(v: JsonValue, field: string): Result<seq<ChoiceInfo>, DecodeError> {
    if v.Array? then DecodeAll(v.items, DecodeChoiceInfo) else Err(InvalidType(field))
  }

  function DecodeEnvelope(v: JsonValue): (r: Result<seq<ChoiceInfo>, DecodeError>)
    ensures r.Ok? <==> v.Object? && ArrayOf(Find(v.members, {"choices"}), DecodeChoiceInfo)
    ensures r.Ok? ==> DecodedAll(Find(v.members, {"choices"}).value.items, DecodeChoiceInfo, r.value)
  {
    if !v.Object? then Err(NotAnObject("OpenAIResponse"))
    else Required(v.members, {"choices"}, "choices", ChoiceList)
  }

  // ---- One attempt ----

  /** The content of a reply and its finish reason. */
  datatype Completion = Completion(content: string, finishReason: Option<string>)

  /** A reply body read as a stream first; a stream counts as finished by
      "stop". Otherwise the first choice of the envelope. */
  function ReadCompletion(body: string, parse: Parser): (r: Result<Completion, Failure>)
    ensures StreamedContent(body, parse).Some? ==>
              r == Ok(Completion(StreamedContent(body, parse).value, Some("stop")))
    ensures StreamedContent(body, parse).None? && DecodeText(body, parse, DecodeEnvelope).Err? ==>
              r == Err(EnvelopeInvalid(OpenAI, DecodeText(body, parse, DecodeEnvelope).error))
    ensures StreamedContent(body, parse).None? && DecodeText(body, parse, DecodeEnvelope) == Ok([]) ==>
              r == Err(NoResponse(OpenAI))
    ensures r.Ok? && StreamedContent(body, parse).None? ==>
              && DecodeText(body, parse, DecodeEnvelope).Ok?
              && |DecodeText(body, parse, DecodeEnvelope).value| > 0
              && DecodeText(body, parse, DecodeEnvelope).value[0]
                 == ChoiceInfo(Some(r.value.content), r.value.finishReason)
    ensures StreamedContent(body, parse).None? && DecodeText(body, parse, DecodeEnvelope).Ok?
            && |DecodeText(body, parse, DecodeEnvelope).value| > 0 ==>
              var first := DecodeText(body, parse, DecodeEnvelope).value[0];
              r == if first.content.None? then Err(ContentNull) else Ok(Completion(first.content.value, first.finishReason))
  {
    match StreamedContent(body, parse)
    case Some(c) => Ok(Completion(c, Some("stop")))
    case None =>
      match DecodeText(body, parse, DecodeEnvelope)
      case Err(e) => Err(EnvelopeInvalid(OpenAI, e))
      case Ok(choices) =>
        if choices == [] then Err(NoResponse(OpenAI))
        else if choices[0].content.None? then Err(ContentNull)
        else Ok(Completion(choices[0].content.value, choices[0].finishReason))
  }

  /** The reply to attempt `k`, read up to its content. */
  function Exchange(env: Environment, k: nat, request: ChatRequest): (r: Result<Completion, Failure>)
    ensures env.server(k, request).SendFailed? ==> r == Err(SendError(OpenAI))
    ensures env.server(k, request).Received? && env.server(k, request).body.None? ==>
              r == Err(BodyUnreadable(IsSuccess(env.server(k, request).status)))
    ensures env.server(k, request).Received? && env.server(k, request).body.Some?
            && !IsSuccess(env.server(k, request).status) ==>
              r == Err(HttpError(OpenAI, env.server(k, request).status))
    ensures env.server(k, request).Received? && env.server(k, request).body.Some?
            && IsSuccess(env.server(k, request).status) ==>
              r == ReadCompletion(env.server(k, request).body.value, env.parse)
  {
    var body :- ReceiveBody(OpenAI, env.server(k, request));
    ReadCompletion(body, env.parse)
  }

  datatype Step = Retry | Proceed | Stop(failure: Failure)

  /** What the finish reason of attempt `k` leads to. */
  function FinishStep(finish: Option<string>, content: string, k: nat): (s: Step)
    ensures s == Retry <==> finish == Some("length") && k + 1 < MaxAttempts
    ensures s == Proceed <==> finish in {None, Some("stop"), Some("stop_sequence")}
    ensures finish == Some("length") && k + 1 == MaxAttempts ==>
              s == Stop(if Trim(content) == [] then TruncatedEmpty else TruncatedIncomplete)
    ensures finish == Some("content_filter") ==> s == Stop(ContentFiltered)
    ensures finish.Some? && finish.value !in {"length", "content_filter", "stop", "stop_sequence"} ==>
              s == Stop(UnexpectedFinishReason(finish.value))
  {
    assert |"length"| == 6 && |"stop"| == 4 && |"stop_sequence"| == 13 && |"content_filter"| == 14;
    if finish == Some("length") then
      if Trim(content) == [] && k + 1 == MaxAttempts then Stop(TruncatedEmpty)
      else if k + 1 < MaxAttempts then Retry
      else Stop(TruncatedIncomplete)
    else if finish == Some("content_filter") then Stop(ContentFiltered)
    else if finish == None || finish == Some("stop") || finish == Some("stop_sequence") then Proceed
    else Stop(UnexpectedFinishReason(finish.value))
  }

  // ---- Decoding the content ----

  /** How decoding the content of a reply ends, with the clamped scan as
      the fallback; both fallback failures keep the primary error. */
  ghost function ContentOutcome<T>(content: string, parse: Parser,
                                   decode: JsonValue -> Result<T, DecodeError>, target: Target): Result<T, Failure>
  {
    var clean := StripFence(content);
    Conclude(Recover(clean, ClampedSpan(clean), parse, decode), target)
  }

  /** The failure a recovery ends in keeps the error of the first,
      whole-reply decoding. */
  function Conclude<T>(rec: Recovery<T>, target: Target): (r: Result<T, Failure>)
    ensures r.Ok? <==> rec.Decoded?
    ensures r.Ok? ==> r.value == rec.value
    ensures rec.NoSpan? ==> r == Err(NoJsonObject(OpenAI, target, Some(rec.primary)))
    ensures rec.SpanInvalid? ==> r == Err(ExtractedJsonInvalid(OpenAI, Some(rec.primary), rec.cause))
  {
    match rec
    case Decoded(v) => Ok(v)
    case NoSpan(p) => Err(NoJsonObject(OpenAI, target, Some(p)))
    case SpanInvalid(p, e) => Err(ExtractedJsonInvalid(OpenAI, Some(p), e))
  }

  method DecodeContent<T>(content: string, parse: Parser,
                          decode: JsonValue -> Result<T, DecodeError>, target: Target) returns (r: Result<T, Failure>)
    ensures r == ContentOutcome(content, parse, decode, target)
  {
    var clean := StripFence(content);
    match DecodeText(clean, parse, decode)
    case Ok(v) =>
      r := Ok(v);
    case Err(primary) =>
      var span := ScanClamped(clean);
      ClampedSpanIs(clean, span);
      match span
      case None =>
        r := Err(NoJsonObject(OpenAI, target, Some(primary)));
      case Some(sp) =>
        r := match DecodeText(clean[sp.start..sp.end], parse, decode)
             case Ok(v) => Ok(v)
             case Err(e) => Err(ExtractedJsonInvalid(OpenAI, Some(primary), e));
  }

  /** How one attempt ends, before its content is decoded. */
  datatype Attempt = Retried | Failed(failure: Failure) | Answered(content: string)

  /** Attempt `k`: the reply is read and its finish reason judged. */
  function AttemptResult(env: Environment, k: nat, request: ChatRequest): (a: Attempt)
    ensures a.Retried? ==> k + 1 < MaxAttempts
  {
    match Exchange(env, k, request)
    case Err(f) => Failed(f)
    case Ok(c) =>
      match FinishStep(c.finishReason, c.content, k)
      case Retry => Retried
      case Stop(f) => Failed(f)
      case Proceed => Answered(c.content)
  }

  /** The outcome of a call whose last attempt ended with `a`. */
  ghost function Concluded<T>(a: Attempt, parse: Parser,
                              decode: JsonValue -> Result<T, DecodeError>, target: Target): Result<T, Failure>
    requires !a.Retried?
  {
    match a
    case Failed(f) => Err(f)
    case Answered(c) => ContentOutcome(c, parse, decode, target)
  }

  // ---- The calls ----

  /** One attempt of a commit-message call: its request, and how it ends
      (`None` to retry). */
  method CommitAttempt(config: ClientConfig, env: Environment, prompt: string,
                       missing: MissingBreakingChange, attempt: nat, maxTokens: U32)
    returns (request: ChatRequest, ended: Option<Result<CommitMessage, Failure>>)
    requires attempt < MaxAttempts
    requires maxTokens == Budget(config.initialMaxTokens, attempt)
    ensures request == CommitRequest(config, prompt, attempt)
    ensures ended.None? <==> CommitRetries(config, env, prompt)(attempt)
    ensures ended.Some? ==> ended.value == Concluded(AttemptResult(env, attempt, request), env.parse,
                                                     CommitDecoder(missing), CommitTarget)
    ensures ended.Some? ==> ended.value != Err(AttemptsExhausted)
  {
    request := ChatRequest(CompletionsUrl(config), config.model, CommitMessages(attempt, prompt), maxTokens, true);
    var reply := Exchange(env, attempt, request);
    if reply.Err? {
      return request, Some(Err(reply.error));
    }
    var c := reply.value;
    match FinishStep(c.finishReason, c.content, attempt)
    case Retry =>
      ended := None;
    case Stop(f) =>
      ended := Some(Err(f));
    case Proceed =>
      var r := DecodeContent(c.content, env.parse, CommitDecoder(missing), CommitTarget);
      ended := Some(r);
  }

  /** The requests of the first `n` attempts. */
  function CommitRequests(config: ClientConfig, prompt: string, n: nat): seq<ChatRequest> {
    if n == 0 then [] else CommitRequests(config, prompt, n - 1) + [CommitRequest(config, prompt, n - 1)]
  }

  lemma {:induction false} CommitRequestsAt(config: ClientConfig, prompt: string, n: nat)
    ensures |CommitRequests(config, prompt, n)| == n
    ensures forall k :: 0 <= k < n ==> CommitRequests(config, prompt, n)[k] == CommitRequest(config, prompt, k)
  {
    if n > 0 {
      CommitRequestsAt(config, prompt, n - 1);
    }
  }

  /** The requests a call sends: the first carries the configured budget
      and no reminder, every later one the reminder and a budget of at
      most 4000. */
  lemma SentRequestsShape(config: ClientConfig, prompt: string, n: nat)
    ensures |CommitRequests(config, prompt, n)| == n
    ensures forall k :: 0 <= k < n ==>
              (ChatMessage("system", RetryPrompt) in CommitRequests(config, prompt, n)[k].messages <==> k > 0)
    ensures n > 0 ==> CommitRequests(config, prompt, n)[0].maxTokens == config.initialMaxTokens
    ensures forall k :: 0 < k < n ==> CommitRequests(config, prompt, n)[k].maxTokens <= TokenCap
  {
    CommitRequestsAt(config, prompt, n);
    forall k | 0 < k < n
      ensures CommitRequests(config, prompt, n)[k].maxTokens <= TokenCap
    {
      RetryBudgetsGrow(config.initialMaxTokens, k);
    }
  }

  /** The first attempt from `k` on that does not ask for a retry. */
  function FirstStop(retries: nat -> bool, k: nat): (n: nat)
    requires k < MaxAttempts
    requires forall j :: k <= j && retries(j) ==> j + 1 < MaxAttempts
    ensures k <= n < MaxAttempts
    ensures !retries(n)
    ensures forall j :: k <= j < n ==> retries(j)
    decreases MaxAttempts - k
  {
    if retries(k) then FirstStop(retries, k + 1) else k
  }

  /** How attempt `j` of a commit-message call ends. */
  function CommitAttemptResult(config: ClientConfig, env: Environment, prompt: string, j: nat): Attempt {
    AttemptResult(env, j, CommitRequest(config, prompt, j))
  }

  /** Whether attempt `j` of a commit-message call asks for a retry. */
  function CommitRetries(config: ClientConfig, env: Environment, prompt: string): nat -> bool {
    (j: nat) => CommitAttemptResult(config, env, prompt, j).Retried?
  }

  lemma CommitRetriesBounded(config: ClientConfig, env: Environment, prompt: string)
    ensures forall j: nat :: CommitRetries(config, env, prompt)(j) ==> j + 1 < MaxAttempts
  {
  }

  /** The index of the last attempt of a commit-message call: every
      attempt before it asked for a retry, and it did not. */
  function LastCommitAttempt(config: ClientConfig, env: Environment, prompt: string): (n: nat)
    ensures n < MaxAttempts
    ensures !CommitRetries(config, env, prompt)(n)
    ensures forall j :: 0 <= j < n ==> CommitRetries(config, env, prompt)(j)
  {
    CommitRetriesBounded(config, env, prompt);
    FirstStop(CommitRetries(config, env, prompt), 0)
  }

  /** An attempt not past the last one is the last exactly when it does
      not ask for a retry. */
  lemma LastAttemptAt(config: ClientConfig, env: Environment, prompt: string, k: nat)
    requires k <= LastCommitAttempt(config, env, prompt)
    ensures k == LastCommitAttempt(config, env, prompt) <==> !CommitRetries(config, env, prompt)(k)
  {
  }

  /** How a commit-message call ends: as its last attempt does. */
  ghost function CommitOutcome(config: ClientConfig, env: Environment, prompt: string,
                               missing: MissingBreakingChange): Result<CommitMessage, Failure>
  {
    Concluded(CommitAttemptResult(config, env, prompt, LastCommitAttempt(config, env, prompt)),
              env.parse, CommitDecoder(missing), CommitTarget)
  }

  /** `generate_commit_message`: up to four attempts; each one after the
      first follows a reply cut off by the length limit, carries the
      truncation reminder and a doubled budget, and the last attempt's
      outcome is the call's. */
  method GenerateCommitMessage(config: ClientConfig, env: Environment, prompt: string,
                               missing: MissingBreakingChange)
    returns (outcome: Result<CommitMessage, Failure>, sent: seq<ChatRequest>)
    ensures 1 <= |sent| <= MaxAttempts
    ensures sent == CommitRequests(config, prompt, LastCommitAttempt(config, env, prompt) + 1)
    ensures outcome == CommitOutcome(config, env, prompt, missing)
    ensures outcome != Err(AttemptsExhausted)
  {
    ghost var last := LastCommitAttempt(config, env, prompt);
    var maxTokens := config.initialMaxTokens;
    var attempt: nat := 0;
    sent := [];
    while attempt < MaxAttempts
      invariant attempt <= last && |sent| == attempt
      invariant maxTokens == Budget(config.initialMaxTokens, attempt)
      invariant sent == CommitRequests(config, prompt, attempt)
    {
      var request, ended := CommitAttempt(config, env, prompt, missing, attempt, maxTokens);
      LastAttemptAt(config, env, prompt, attempt);
      sent := sent + [request];
      if ended.Some? {
        return ended.value, sent;
      }
      maxTokens := NextBudget(maxTokens);
      attempt := attempt + 1;
    }
    // Every attempt up to the last one is made, and the last one ends the
    // call: the bail after the loop is dead code.
    assert false;
    return Err(AttemptsExhausted), sent;
  }

  /** How a changelog call ends: its one reply's content is decoded
      whatever its finish reason. */
  ghost function ChangelogOutcome(env: Environment, request: ChatRequest): Result<ChangelogSummary, Failure> {
    match Exchange(env, 0, request)
    case Err(f) => Err(f)
    case Ok(c) => ContentOutcome(c.content, env.parse, DecodeChangelog, ChangelogTarget)
  }

  /** `generate_changelog`: one request at the configured budget. */
  method GenerateChangelog(config: ClientConfig, env: Environment, prompt: string)
    returns (outcome: Result<ChangelogSummary, Failure>, sent: ChatRequest)
    ensures sent == ChangelogRequest(config, prompt)
    ensures outcome == ChangelogOutcome(env, sent)
  {
    sent := ChatRequest(CompletionsUrl(config), config.model,
                        [ChatMessage("system", ChangelogSystemPrompt), ChatMessage("user", prompt)],
                        config.initialMaxTokens, true);
    var reply := Exchange(env, 0, sent);
    if reply.Err? {
      return Err(reply.error), sent;
    }
    outcome := DecodeContent(reply.value.content, env.parse, DecodeChangelog, ChangelogTarget);
  }

  // ---- Properties of an attempt ----

  /** An attempt asks for a retry exactly when its reply arrived, was
      read, and was cut off by the length limit before the last attempt. */
  lemma RetryOnlyOnLength(env: Environment, k: nat, request: ChatRequest)
    ensures AttemptResult(env, k, request).Retried? <==>
              && Exchange(env, k, request).Ok?
              && Exchange(env, k, request).value.finishReason == Some("length")
              && k + 1 < MaxAttempts
  {
  }

  /** A server that cuts every reply off at the length limit, each with
      some non-blank content, is asked four times, and the call gives up
      with the incomplete-reply failure. */
  lemma AlwaysTruncatedGivesUp(config: ClientConfig, env: Environment, prompt: string,
                               missing: MissingBreakingChange)
    requires forall k :: 0 <= k < MaxAttempts ==>
               && Exchange(env, k, CommitRequest(config, prompt, k)).Ok?
               && Exchange(env, k, CommitRequest(config, prompt, k)).value.finishReason == Some("length")
               && Trim(Exchange(env, k, CommitRequest(config, prompt, k)).value.content) != []
    ensures LastCommitAttempt(config, env, prompt) == MaxAttempts - 1
    ensures |CommitRequests(config, prompt, LastCommitAttempt(config, env, prompt) + 1)| == MaxAttempts
    ensures CommitOutcome(config, env, prompt, missing) == Err(TruncatedIncomplete)
  {
    var n := LastCommitAttempt(config, env, prompt);
    assert !CommitRetries(config, env, prompt)(n);
    CommitRequestsAt(config, prompt, n + 1);
  }

  /** A streamed reply counts as finished: its content is decoded at once. */
  lemma StreamedReplyAnswers(env: Environment, k: nat, request: ChatRequest, body: string)
    requires ReceiveBody(OpenAI, env.server(k, request)) == Ok(body)
    requires StreamedContent(body, env.parse).Some?
    ensures AttemptResult(env, k, request) == Answered(StreamedContent(body, env.parse).value)
  {
  }

  /** A failed status ends the call with the sanitized message, whatever
      attempt it comes at. */
  lemma FailedStatusEndsCall(env: Environment, k: nat, request: ChatRequest, status: nat, body: string)
    requires env.server(k, request) == Received(status, Some(body)) && !IsSuccess(status)
    ensures AttemptResult(env, k, request) == Failed(HttpError(OpenAI, status))
  {
  }

  /** A reply stopped by the content filter fails a commit-message call but
      is still decoded by a changelog call. */
  lemma FinishReasonGuardsOnlyCommits(env: Environment, request: ChatRequest)
    requires Exchange(env, 0, request).Ok?
    requires Exchange(env, 0, request).value.finishReason == Some("content_filter")
    ensures AttemptResult(env, 0, request) == Failed(ContentFiltered)
    ensures ChangelogOutcome(env, request)
            == ContentOutcome(Exchange(env, 0, request).value.content, env.parse, DecodeChangelog, ChangelogTarget)
  {
  }
}
