/** What the two provider clients share: provider selection
    (`create_client`, src/ai/mod.rs), the request and reply shapes that
    stand in for the HTTP exchange, the failures a generation call can end
    with, and the mapping of an HTTP error status to a sanitized message. */
module Client {
  import opened Basics
  import opened Json

  datatype Provider = OpenAI | Anthropic

  /** A constructed `OpenAIClient` or `AnthropicClient`; the HTTP client
      itself (timeouts, connection pool) is not modelled. */
  datatype ClientConfig = ClientConfig(
    provider: Provider,
    apiKey: string,
    model: string,
    baseUrl: string,
    initialMaxTokens: U32)

  function DefaultBaseUrl(p: Provider): string {
    match p
    case OpenAI => "https://api.openai.com/v1"
    case Anthropic => "https://api.anthropic.com"
  }

  function LowerChar(c: char): char {
    if 'A' <= c <= 'Z' then (c as int + 32) as char else c
  }

  /** Lower-casing as far as it can matter for comparing with the ASCII
      names "openai" and "anthropic". Only two non-ASCII characters lower
      to anything holding an ASCII letter: the Kelvin sign gives 'k', which
      neither name contains, and capital I with dot above gives 'i' and a
      combining dot, which neither name contains either. Leaving non-ASCII
      characters unchanged therefore decides the comparison the same way
      `str::to_lowercase` does. */
  function ToLower(s: string): (r: string)
    ensures |r| == |s|
    ensures forall i :: 0 <= i < |s| ==> r[i] == LowerChar(s[i])
  {
    seq(|s|, i requires 0 <= i < |s| => LowerChar(s[i]))
  }

  /** `create_client`: the provider name is matched case-insensitively; a
      missing base URL falls back to the provider's public endpoint. */
  function CreateClient(provider: string, apiKey: string, model: string,
                        baseUrl: Option<string>, maxTokens: U32): (r: Result<ClientConfig, Failure>)
    ensures r.Ok? <==> ToLower(provider) == "openai" || ToLower(provider) == "anthropic"
    ensures r.Ok? ==> r.value.provider == (if ToLower(provider) == "openai" then OpenAI else Anthropic)
    ensures r.Ok? ==> r.value.apiKey == apiKey && r.value.model == model && r.value.initialMaxTokens == maxTokens
    ensures r.Ok? ==> r.value.baseUrl == (match baseUrl
                                          case Some(u) => u
                                          case None => DefaultBaseUrl(r.value.provider))
    ensures r.Err? ==> r.error == UnsupportedProvider(provider)
  {
    var name := ToLower(provider);
    if name == "openai" then
      Ok(ClientConfig(OpenAI, apiKey, model, match baseUrl case Some(u) => u case None => DefaultBaseUrl(OpenAI), maxTokens))
    else if name == "anthropic" then
      Ok(ClientConfig(Anthropic, apiKey, model, match baseUrl case Some(u) => u case None => DefaultBaseUrl(Anthropic), maxTokens))
    else Err(UnsupportedProvider(provider))
  }

  /** Selection ignores letter case: a name and its lower-cased form pick
      the same provider. */
  lemma CreateClientIgnoresCase(provider: string, apiKey: string, model: string,
                                baseUrl: Option<string>, maxTokens: U32)
    ensures CreateClient(provider, apiKey, model, baseUrl, maxTokens).Ok?
         == CreateClient(ToLower(provider), apiKey, model, baseUrl, maxTokens).Ok?
    ensures CreateClient(provider, apiKey, model, baseUrl, maxTokens).Ok? ==>
              (CreateClient(provider, apiKey, model, baseUrl, maxTokens).value
               == CreateClient(ToLower(provider), apiKey, model, baseUrl, maxTokens).value)
  {
    assert ToLower(ToLower(provider)) == ToLower(provider);
  }

  lemma MixedCaseNamesAccepted()
    ensures CreateClient("OpenAI", "k", "m", None, 2000) == Ok(ClientConfig(OpenAI, "k", "m", "https://api.openai.com/v1", 2000))
    ensures CreateClient("Anthropic", "k", "m", None, 2000) == Ok(ClientConfig(Anthropic, "k", "m", "https://api.anthropic.com", 2000))
    ensures CreateClient("gemini", "k", "m", None, 2000) == Err(UnsupportedProvider("gemini"))
  {
    assert ToLower("OpenAI") == "openai";
    assert ToLower("Anthropic") == "anthropic";
    assert ToLower("gemini")[0] == 'g';
  }

  // ---- The HTTP exchange, as values ----

  datatype ChatMessage = ChatMessage(role: string, content: string)

  /** One request body and its endpoint. `jsonMode` is OpenAI's
      `response_format: json_object`; the temperature and the authentication
      headers are not modelled. */
  datatype ChatRequest = ChatRequest(
    url: string,
    model: string,
    messages: seq<ChatMessage>,
    maxTokens: U32,
    jsonMode: bool)

  /** What came back for one request: the send failed (connection, timeout),
      or a status arrived with a body, `None` when reading it failed. */
  datatype Reply = SendFailed | Received(status: nat, body: Option<string>)

  /** The provider as seen from the client: the reply to the request sent
      at each attempt index. */
  type Server = (nat, ChatRequest) -> Reply

  /** Everything a generation call depends on besides its configuration. */
  datatype Environment = Environment(server: Server, parse: Parser)

  datatype Target = CommitTarget | ChangelogTarget

  /** Every way a generation call can fail. */
  datatype Failure =
    | UnsupportedProvider(name: string)
    | SendError(provider: Provider)                     // "Failed to send request to …"
    | BodyUnreadable(afterSuccess: bool)                // reading the body failed
    | HttpError(provider: Provider, status: nat)        // "<SafeMessage> (Status: …)"
    | EnvelopeInvalid(provider: Provider, cause: DecodeError) // "Failed to parse … response"
    | NoResponse(provider: Provider)                    // no choice / no content block
    | ContentNull                                       // "Response content is null"
    | TruncatedEmpty                                    // final attempt truncated to nothing
    | TruncatedIncomplete                               // final attempt truncated mid-JSON
    | ContentFiltered
    | UnexpectedFinishReason(reason: string)
    | ExtractedJsonInvalid(provider: Provider, primary: Option<DecodeError>, cause: DecodeError)
    | NoJsonObject(provider: Provider, target: Target, primary: Option<DecodeError>)
    | AttemptsExhausted

  /** `StatusCode::is_success`. */
  predicate IsSuccess(status: nat) {
    200 <= status <= 299
  }

  const AuthMessage := "Authentication failed. Please check your API key."
  const ForbiddenMessage := "Access forbidden. Please check your API permissions."
  const RateLimitMessage := "Rate limit exceeded. Please try again later."
  const GenericMessage := "Request failed. Please check your configuration."

  function ServiceErrorMessage(p: Provider): string {
    match p
    case OpenAI => "OpenAI service error. Please try again later."
    case Anthropic => "Anthropic service error. Please try again later."
  }

  /** The sanitized message for a failed status. */
  function SafeMessage(p: Provider, status: nat): (m: string)
    ensures status == 401 ==> m == AuthMessage
    ensures status == 403 ==> m == ForbiddenMessage
    ensures status == 429 ==> m == RateLimitMessage
    ensures 500 <= status <= 599 ==> m == ServiceErrorMessage(p)
    ensures status !in {401, 403, 429} && !(500 <= status <= 599) ==> m == GenericMessage
  {
    if status == 401 then AuthMessage
    else if status == 403 then ForbiddenMessage
    else if status == 429 then RateLimitMessage
    else if 500 <= status <= 599 then ServiceErrorMessage(p)
    else GenericMessage
  }

  /** The two providers word their messages alike except for server errors,
      which name the provider. */
  lemma SafeMessagesAgreeOutside5xx(status: nat)
    ensures !(500 <= status <= 599) <==> SafeMessage(OpenAI, status) == SafeMessage(Anthropic, status)
  {
    if 500 <= status <= 599 {
      assert |ServiceErrorMessage(OpenAI)| != |ServiceErrorMessage(Anthropic)|;
    }
  }

  /** The status check both clients perform before looking at the body: a
      failed send or a failed status ends the call at once; the body of an
      error reply is never part of the failure. */
  function ReceiveBody(p: Provider, reply: Reply): (r: Result<string, Failure>)
    ensures reply.SendFailed? ==> r == Err(SendError(p))
    ensures reply.Received? && !IsSuccess(reply.status) && reply.body.Some? ==>
              r == Err(HttpError(p, reply.status))
    ensures reply.Received? && reply.body.None? ==> r == Err(BodyUnreadable(IsSuccess(reply.status)))
    ensures r.Ok? <==> reply.Received? && IsSuccess(reply.status) && reply.body.Some?
    ensures r.Ok? ==> r.value == reply.body.value
  {
    match reply
    case SendFailed => Err(SendError(p))
    case Received(status, body) =>
      if body.None? then Err(BodyUnreadable(IsSuccess(status)))
      else if !IsSuccess(status) then Err(HttpError(p, status))
      else Ok(body.value)
  }

  /** Whatever an error reply's body says, the failure is the same. */
  lemma ErrorBodyNeverSurfaces(p: Provider, status: nat, body1: string, body2: string)
    requires !IsSuccess(status)
    ensures ReceiveBody(p, Received(status, Some(body1))) == ReceiveBody(p, Received(status, Some(body2)))
  {
  }
}
