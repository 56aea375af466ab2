/** The provider client modules `src/api/chat/groq.js` (`sendToGroq`) and
    `src/api/chat/deepseek.js` (`sendToDeepSeek`). The two files differ only in the provider's
    name and environment variables, so one function `Send` models both. A thrown error is an
    `Err`; the provider's answer is the input `outcome`. */
module ProviderClient {
  import opened Wrappers
  import opened ChatTypes
  import JsStrings

  datatype Provider = Groq | DeepSeek

  function ProviderName(p: Provider): string {
    match p
    case Groq => "Groq"
    case DeepSeek => "DeepSeek"
  }

  /** Why the client threw. */
  datatype ClientError =
    | MissingUrl
    | MissingKey
    | HttpFailure(status: int, text: string)
    | FetchRejected
    | InvalidJson
    | NoReply

  /** The message of the errors the client builds itself; `None` for errors raised by `fetch`
      or `res.json()`, whose messages come from the runtime. */
  function ErrorMessage(p: Provider, e: ClientError): Option<string> {
    var name := ProviderName(p);
    match e
    case MissingUrl => Some(name + " API URL is not configured.")
    case MissingKey => Some(name + " API Key is not configured.")
    case HttpFailure(status, text) => Some(name + " API " + JsStrings.IntToString(status) + ": " + text)
    case NoReply => Some(name + " API response did not contain a 'reply' field or expected OpenAI structure.")
    case FetchRejected => None
    case InvalidJson => None
  }

  /** The error for a non-ok status names the provider and carries the status and the body text. */
  lemma HttpFailureMessage(p: Provider, status: int, text: string)
    ensures var m := ErrorMessage(p, HttpFailure(status, text)).value;
            var head := ProviderName(p) + " API " + JsStrings.IntToString(status) + ": ";
            && |head| <= |m| && m[..|head|] == head && m[|head|..] == text
  {
    var head := ProviderName(p) + " API " + JsStrings.IntToString(status) + ": ";
    assert ErrorMessage(p, HttpFailure(status, text)).value == head + text;
  }

  /** The request a send made (none when the configuration check threw) and its result. */
  datatype Sent = Sent(request: Option<Forwarded>, result: Result<string, ClientError>)

  /** `sendToGroq` / `sendToDeepSeek` with the URL and key read from the environment. */
  function Send(url: Option<string>, key: Option<string>, payload: ChatPayload, outcome: FetchOutcome): (r: Sent)
    ensures r.request.Some? <==> Truthy(url) && Truthy(key)
    ensures r.request.Some? ==> r.request.value == Forwarded(url.value, key.value, payload)
    ensures !Truthy(url) ==> r.result == Err(MissingUrl)
    ensures Truthy(url) && !Truthy(key) ==> r.result == Err(MissingKey)
    ensures r.result.Ok? ==> r.request.Some? && r.result.value != ""
    ensures r.request.Some? && outcome.Responded? && !IsOkStatus(outcome.status) ==>
              r.result == Err(HttpFailure(outcome.status, outcome.text))
  {
    if !Truthy(url) then Sent(None, Err(MissingUrl))
    else if !Truthy(key) then Sent(None, Err(MissingKey))
    else Sent(Some(Forwarded(url.value, key.value, payload)), ReadReply(outcome))
  }

  /** The answer read back: a truthy `reply` first, then a truthy `choices[0].message.content`. */
  function ReadReply(outcome: FetchOutcome): Result<string, ClientError> {
    match outcome
    case NetworkError => Err(FetchRejected)
    case Responded(status, text, json) =>
      if !IsOkStatus(status) then Err(HttpFailure(status, text))
      else match json
        case NotJson => Err(InvalidJson)
        case JsonObject(reply, content, _) =>
          if Truthy(reply) then Ok(reply.value)
          else if Truthy(content) then Ok(content.value)
          else Err(NoReply)
  }

  /** A send succeeds exactly when URL and key are set, the status is ok, and the body has a
      truthy `reply` or `choices[0].message.content`; the `reply` wins when both are there.
      Every other case is an error, with no value. */
  lemma SendSucceedsIff(url: Option<string>, key: Option<string>, payload: ChatPayload, outcome: FetchOutcome)
    ensures var r := Send(url, key, payload, outcome);
            && (r.result.Ok? <==>
                  Truthy(url) && Truthy(key) && outcome.Responded? && IsOkStatus(outcome.status)
                  && outcome.json.JsonObject? && (Truthy(outcome.json.reply) || Truthy(outcome.json.content)))
            && (r.result.Ok? && Truthy(outcome.json.reply) ==> r.result.value == outcome.json.reply.value)
            && (r.result.Ok? && !Truthy(outcome.json.reply) ==> r.result.value == outcome.json.content.value)
  {
  }

  /** `sendToGroq(payload)`. */
  function SendToGroq(env: ServerEnv, payload: ChatPayload, outcome: FetchOutcome): Sent {
    Send(env.groqUrl, env.groqKey, payload, outcome)
  }

  /** `sendToDeepSeek(payload)`. */
  function SendToDeepSeek(env: ServerEnv, payload: ChatPayload, outcome: FetchOutcome): Sent {
    Send(env.deepseekUrl, env.deepseekKey, payload, outcome)
  }
}
