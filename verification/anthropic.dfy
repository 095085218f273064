/** `AnthropicClient` (src/ai/anthropic.rs): one Messages API request per
    call, no finish-reason check, the text of the first content block, and
    decoding with the unclamped brace scan as a fallback. */
module AnthropicClient {
  import opened Basics
  import opened Json
  import opened Schema
  import opened Client
  import opened Text
  import opened Extract
  import OpenAIClient

  /** Appended to every prompt, since the request has no JSON mode. */
  const JsonOnlyReminder := "\n\nPlease respond with only the JSON object, no other text."

  // ---- The request ----

  function MessagesUrl(config: ClientConfig): string {
    config.baseUrl + "/v1/messages"
  }

  /** The single request of either call: one user message, the configured
      budget, no JSON mode. */
  function MessagesRequest(config: ClientConfig, prompt: string): (r: ChatRequest)
    ensures r.url == config.baseUrl + "/v1/messages" && r.model == config.model
    ensures |r.messages| == 1 && r.messages[0].role == "user"
    ensures |r.messages[0].content| == |prompt| + |JsonOnlyReminder|
    ensures r.messages[0].content[..|prompt|] == prompt
    ensures r.messages[0].content[|prompt|..] == JsonOnlyReminder
    ensures r.maxTokens == config.initialMaxTokens
    ensures !r.jsonMode
  {
    ChatRequest(MessagesUrl(config), config.model,
                [ChatMessage("user", prompt + JsonOnlyReminder)],
                config.initialMaxTokens, false)
  }

  // ---- The envelope: AnthropicResponse { content: [Content] },
  //      Content { text: String } ----

  function DecodeBlock(v: JsonValue): (r: Result<string, DecodeError>)
    ensures r.Ok? <==> v.Object? && RequiredString(Find(v.members, {"text"}))
    ensures r.Ok? ==> v.Object? && Find(v.members, {"text"}) == Present(Str(r.value))
  {
    if !v.Object? then Err(NotAnObject("Content"))
    else Required(v.members, {"text"}, "text", AsString)
  }

  function BlockList(v: JsonValue, field: string): Result<seq<string>, DecodeError> {
    if v.Array? then DecodeAll(v.items, DecodeBlock) else Err(InvalidType(field))
  }

  function DecodeEnvelope(v: JsonValue): (r: Result<seq<string>, DecodeError>)
    ensures r.Ok? <==> v.Object? && ArrayOf(Find(v.members, {"content"}), DecodeBlock)
    ensures r.Ok? ==> DecodedAll(Find(v.members, {"content"}).value.items, DecodeBlock, r.value)
  {
    if !v.Object? then Err(NotAnObject("AnthropicResponse"))
    else Required(v.members, {"content"}, "content", BlockList)
  }

  /** The text of the first content block. Every block must carry a text:
      one that does not fails the whole envelope. */
  function ReadContent(body: string, parse: Parser): (r: Result<string, Failure>)
    ensures DecodeText(body, parse, DecodeEnvelope).Err? ==>
              r == Err(EnvelopeInvalid(Anthropic, DecodeText(body, parse, DecodeEnvelope).error))
    ensures DecodeText(body, parse, DecodeEnvelope) == Ok([]) ==> r == Err(NoResponse(Anthropic))
    ensures r.Ok? ==> DecodeText(body, parse, DecodeEnvelope).Ok?
                      && |DecodeText(body, parse, DecodeEnvelope).value| > 0
                      && DecodeText(body, parse, DecodeEnvelope).value[0] == r.value
    ensures DecodeText(body, parse, DecodeEnvelope).Ok? && |DecodeText(body, parse, DecodeEnvelope).value| > 0 ==>
              r == Ok(DecodeText(body, parse, DecodeEnvelope).value[0])
  {
    match DecodeText(body, parse, DecodeEnvelope)
    case Err(e) => Err(EnvelopeInvalid(Anthropic, e))
    case Ok(blocks) => if blocks == [] then Err(NoResponse(Anthropic)) else Ok(blocks[0])
  }

  function Exchange(env: Environment, request: ChatRequest): (r: Result<string, Failure>)
    ensures env.server(0, request).SendFailed? ==> r == Err(SendError(Anthropic))
    ensures env.server(0, request).Received? && env.server(0, request).body.None? ==>
              r == Err(BodyUnreadable(IsSuccess(env.server(0, request).status)))
    ensures env.server(0, request).Received? && env.server(0, request).body.Some?
            && !IsSuccess(env.server(0, request).status) ==>
              r == Err(HttpError(Anthropic, env.server(0, request).status))
    ensures env.server(0, request).Received? && env.server(0, request).body.Some?
            && IsSuccess(env.server(0, request).status) ==>
              r == ReadContent(env.server(0, request).body.value, env.parse)
  {
    var body :- ReceiveBody(Anthropic, env.server(0, request));
    ReadContent(body, env.parse)
  }

  // ---- Decoding the content ----

  /** How decoding the content ends, with the unclamped scan as the
      fallback; the primary error is dropped from both fallback failures. */
  ghost function ContentOutcome<T>(content: string, parse: Parser,
                                   decode: JsonValue -> Result<T, DecodeError>, target: Target): Result<T, Failure>
  {
    var clean := StripFence(content);
    Conclude(Recover(clean, UnclampedSpan(clean), parse, decode), target)
  }

  /** The failure a recovery ends in drops the error of the first,
      whole-reply decoding. */
  function Conclude<T>(rec: Recovery<T>, target: Target): (r: Result<T, Failure>)
    ensures r.Ok? <==> rec.Decoded?
    ensures r.Ok? ==> r.value == rec.value
    ensures rec.NoSpan? ==> r == Err(NoJsonObject(Anthropic, target, None))
    ensures rec.SpanInvalid? ==> r == Err(ExtractedJsonInvalid(Anthropic, None, rec.cause))
  {
    match rec
    case Decoded(v) => Ok(v)
    case NoSpan(_) => Err(NoJsonObject(Anthropic, target, None))
    case SpanInvalid(_, e) => Err(ExtractedJsonInvalid(Anthropic, None, e))
  }

  method DecodeContent<T>(content: string, parse: Parser,
                          decode: JsonValue -> Result<T, DecodeError>, target: Target) returns (r: Result<T, Failure>)
    ensures r == ContentOutcome(content, parse, decode, target)
  {
    var clean := StripFence(content);
    match DecodeText(clean, parse, decode)
    case Ok(v) =>
      r := Ok(v);
    case Err(_) =>
      var span := ScanUnclamped(clean);
      UnclampedSpanIs(clean, span);
      match span
      case None =>
        r := Err(NoJsonObject(Anthropic, target, None));
      case Some(sp) =>
        r := match DecodeText(clean[sp.start..sp.end], parse, decode)
             case Ok(v) => Ok(v)
             case Err(e) => Err(ExtractedJsonInvalid(Anthropic, None, e));
  }

  /** How a call ends: the one reply's first block is decoded. */
  ghost function CallOutcome<T>(env: Environment, request: ChatRequest,
                                decode: JsonValue -> Result<T, DecodeError>, target: Target): Result<T, Failure>
  {
    match Exchange(env, request)
    case Err(f) => Err(f)
    case Ok(c) => ContentOutcome(c, env.parse, decode, target)
  }

  // ---- The calls ----

  method Generate<T>(config: ClientConfig, env: Environment, prompt: string,
                     decode: JsonValue -> Result<T, DecodeError>, target: Target)
    returns (outcome: Result<T, Failure>, sent: ChatRequest)
    ensures sent == MessagesRequest(config, prompt)
    ensures outcome == CallOutcome(env, sent, decode, target)
  {
    sent := ChatRequest(MessagesUrl(config), config.model,
                        [ChatMessage("user", prompt + JsonOnlyReminder)],
                        config.initialMaxTokens, false);
    var reply := Exchange(env, sent);
    if reply.Err? {
      return Err(reply.error), sent;
    }
    outcome := DecodeContent(reply.value, env.parse, decode, target);
  }

  /** `generate_commit_message`: a single attempt at the configured budget. */
  method GenerateCommitMessage(config: ClientConfig, env: Environment, prompt: string,
                               missing: MissingBreakingChange)
    returns (outcome: Result<CommitMessage, Failure>, sent: ChatRequest)
    ensures sent == MessagesRequest(config, prompt)
    ensures outcome == CallOutcome(env, sent, CommitDecoder(missing), CommitTarget)
  {
    outcome, sent := Generate(config, env, prompt, CommitDecoder(missing), CommitTarget);
  }

  /** `generate_changelog`: the same exchange, decoded as a changelog. */
  method GenerateChangelog(config: ClientConfig, env: Environment, prompt: string)
    returns (outcome: Result<ChangelogSummary, Failure>, sent: ChatRequest)
    ensures sent == MessagesRequest(config, prompt)
    ensures outcome == CallOutcome(env, sent, DecodeChangelog, ChangelogTarget)
  {
    outcome, sent := Generate(config, env, prompt, DecodeChangelog, ChangelogTarget);
  }

  // ---- Properties ----

  /** When the cleaned reply has no '}' before its first '{', the two
      clients recover the same value, and fail in the same situations. */
  lemma ProvidersAgreeWithoutStrayClose<T>(content: string, parse: Parser,
                                           decode: JsonValue -> Result<T, DecodeError>, target: Target)
    requires NoStrayClose(StripFence(content))
    ensures ContentOutcome(content, parse, decode, target).Ok?
            <==> OpenAIClient.ContentOutcome(content, parse, decode, target).Ok?
    ensures ContentOutcome(content, parse, decode, target).Ok? ==>
              ContentOutcome(content, parse, decode, target) == OpenAIClient.ContentOutcome(content, parse, decode, target)
  {
    var clean := StripFence(content);
    RecoveryAgrees(clean, parse, decode);
    var rec := Recover(clean, UnclampedSpan(clean), parse, decode);
    assert ContentOutcome(content, parse, decode, target) == Conclude(rec, target);
    assert OpenAIClient.ContentOutcome(content, parse, decode, target) == OpenAIClient.Conclude(rec, target);
  }

  /** A reply with a stray '}' before the object: the OpenAI client
      recovers the object, this client reports that none was found. */
  lemma StrayCloseSplitsProviders<T>(parse: Parser, decode: JsonValue -> Result<T, DecodeError>, target: Target)
    requires DecodeText("}{\"a\":1}", parse, decode).Err?
    requires DecodeText("{\"a\":1}", parse, decode).Ok?
    ensures OpenAIClient.ContentOutcome("}{\"a\":1}", parse, decode, target)
            == Ok(DecodeText("{\"a\":1}", parse, decode).value)
    ensures ContentOutcome("}{\"a\":1}", parse, decode, target) == Err(NoJsonObject(Anthropic, target, None))
  {
    var s := "}{\"a\":1}";
    assert !IsPrefix(Fence, s) by { assert s[0] != Fence[0]; }
    assert StripFence(s) == s;
    assert FirstOpen(s, 1);
    StrayCloseSpans(s);
    ClampedSpanIs(s, Some(Span(1, 8)));
    UnclampedSpanIs(s, None);
    assert s[1..8] == "{\"a\":1}";
  }
}
