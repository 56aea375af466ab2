/** The unified chat endpoint of `api/chat.ts`: `proxyToService` turns the client's payload into
    an OpenAI-style request and normalises the answer; `handler` validates the request and tries
    Groq, then DeepSeek. `JSON.stringify` of the task context is the parameter `stringify`;
    the answers of the two providers are the inputs `groqOutcome` and `deepseekOutcome`. */
module ChatTs {
  import opened Wrappers
  import opened ChatTypes
  import JsStrings

  const ContextPrefix: string := "User's current tasks for context: "
  const GroqDefaultModel: string := "llama3-8b-8192"
  const DeepSeekDefaultModel: string := "deepseek-chat"
  const FallbackModel: string := "default-model"

  const BadRequestError: string := "Request body must include at least a userMessage."
  const ConfigError: string := "All AI services are currently unavailable (config error)."
  const UnavailableError: string := "All AI services are unavailable."

  /** The system prompt (when truthy) and the task-context message (when the context is a
      non-empty list) that open the message list. */
  function Prelude(p: ChatPayload, stringify: seq<ContextTask> -> string): seq<Message> {
    (if Truthy(p.systemPrompt) then [Message("system", p.systemPrompt, false)] else [])
    + (if p.tasksContext.Some? && |p.tasksContext.value| > 0
       then [Message("system", Some(ContextPrefix + stringify(p.tasksContext.value)), false)]
       else [])
  }

  /** The message list `proxyToService` sends: prelude, conversation entries as received, user
      message. */
  function MessagesFor(p: ChatPayload, stringify: seq<ContextTask> -> string): seq<Message> {
    Prelude(p, stringify) + p.conversation.GetOr([]) + [Message("user", p.userMessage, false)]
  }

  /** The order of the message list: the system prompt first when it is truthy, then the task
      context when it is a non-empty list, both as 'system' entries and nothing else before the
      conversation; the conversation entries unchanged and in order; the user message last. */
  lemma MessageOrder(p: ChatPayload, stringify: seq<ContextTask> -> string)
    ensures var m, pre, conv := MessagesFor(p, stringify), Prelude(p, stringify), p.conversation.GetOr([]);
            var hasContext := p.tasksContext.Some? && |p.tasksContext.value| > 0;
            && |pre| == (if Truthy(p.systemPrompt) then 1 else 0) + (if hasContext then 1 else 0)
            && |m| == |pre| + |conv| + 1
            && (forall k :: 0 <= k < |pre| ==> m[k].role == "system")
            && (Truthy(p.systemPrompt) ==> m[0] == Message("system", p.systemPrompt, false))
            && (hasContext ==> m[|pre| - 1].content == Some(ContextPrefix + stringify(p.tasksContext.value)))
            && m[|pre|..|pre| + |conv|] == conv
            && m[|m| - 1] == Message("user", p.userMessage, false)
  {
    var m, pre, conv := MessagesFor(p, stringify), Prelude(p, stringify), p.conversation.GetOr([]);
    assert m == pre + conv + [Message("user", p.userMessage, false)];
    assert m[|pre|..|pre| + |conv|] == conv;
  }

  /** `proxyToService`'s message assembly: successive pushes onto `messagesForAI`. */
  method BuildMessages(p: ChatPayload, stringify: seq<ContextTask> -> string) returns (messages: seq<Message>)
    ensures messages == MessagesFor(p, stringify)
  {
    messages := [];
    if Truthy(p.systemPrompt) {
      messages := messages + [Message("system", p.systemPrompt, false)];
    }
    if p.tasksContext.Some? && |p.tasksContext.value| > 0 {
      messages := messages + [Message("system", Some(ContextPrefix + stringify(p.tasksContext.value)), false)];
    }
    if p.conversation.Some? {
      messages := messages + p.conversation.value;
    }
    messages := messages + [Message("user", p.userMessage, false)];
  }

  /** The model name chosen from the provider URL. */
  function ModelFor(url: string, env: ServerEnv): string {
    if JsStrings.Contains(url, "groq") then OrElse(env.groqModel, GroqDefaultModel)
    else if JsStrings.Contains(url, "deepseek") then OrElse(env.deepseekModel, DeepSeekDefaultModel)
    else FallbackModel
  }

  /** A URL mentioning 'groq' gets the configured Groq model or 'llama3-8b-8192', even when it
      also mentions 'deepseek'; otherwise one mentioning 'deepseek' gets the configured DeepSeek
      model or 'deepseek-chat'; any other URL gets 'default-model'. The name is never empty. */
  lemma ModelChoice(url: string, env: ServerEnv)
    ensures var m := ModelFor(url, env);
            && m != ""
            && (JsStrings.Contains(url, "groq") ==>
                  (m == GroqDefaultModel <==> !Truthy(env.groqModel) || env.groqModel.value == GroqDefaultModel))
            && (JsStrings.Contains(url, "groq") && Truthy(env.groqModel) ==> m == env.groqModel.value)
            && (!JsStrings.Contains(url, "groq") && JsStrings.Contains(url, "deepseek") ==>
                  m == OrElse(env.deepseekModel, DeepSeekDefaultModel))
            && (!JsStrings.Contains(url, "groq") && !JsStrings.Contains(url, "deepseek") ==> m == FallbackModel)
  {
  }

  /** The request `proxyToService` sends to `url`, with the fixed generation parameters. */
  function ServiceRequest(url: string, key: string, p: ChatPayload, env: ServerEnv,
                          stringify: seq<ContextTask> -> string): (r: ProviderCall)
    ensures r.payload.temperature == 0.7 && r.payload.maxTokens == 300 && r.payload.topP == 1 && !r.payload.stream
    ensures r.url == url && r.key == key && r.payload.model == ModelFor(url, env)
  {
    ProviderCall(url, key, ServicePayload(MessagesFor(p, stringify), ModelFor(url, env), 0.7, 300, 1, false))
  }

  /** Why `proxyToService` threw. */
  datatype ProxyError = FetchFailed | StatusError(status: int) | InvalidJson | UnexpectedStructure

  /** What `proxyToService` makes of the provider's answer: a non-ok status throws; otherwise a
      truthy `choices[0].message.content` wins over a truthy `reply`; neither throws. */
  function ServiceReply(outcome: FetchOutcome): (r: Result<string, ProxyError>)
    ensures r.Ok? <==> outcome.Responded? && IsOkStatus(outcome.status) && outcome.json.JsonObject?
                       && (Truthy(outcome.json.content) || Truthy(outcome.json.reply))
    ensures r.Ok? ==> r.value != ""
    ensures r.Ok? && Truthy(outcome.json.content) ==> r.value == outcome.json.content.value
    ensures r.Ok? && !Truthy(outcome.json.content) ==> r.value == outcome.json.reply.value
    ensures outcome.Responded? && !IsOkStatus(outcome.status) ==> r == Err(StatusError(outcome.status))
  {
    match outcome
    case NetworkError => Err(FetchFailed)
    case Responded(status, _, json) =>
      if !IsOkStatus(status) then Err(StatusError(status))
      else match json
        case NotJson => Err(InvalidJson)
        case JsonObject(reply, content, _) =>
          if Truthy(content) then Ok(content.value)
          else if Truthy(reply) then Ok(reply.value)
          else Err(UnexpectedStructure)
  }

  /** `proxyToService`: builds and sends the request, then reads the answer. */
  method ProxyToService(url: string, key: string, p: ChatPayload, env: ServerEnv,
                        stringify: seq<ContextTask> -> string, outcome: FetchOutcome)
    returns (call: ProviderCall, result: Result<string, ProxyError>)
    ensures call == ServiceRequest(url, key, p, env, stringify)
    ensures result == ServiceReply(outcome)
  {
    var messages := BuildMessages(p, stringify);
    var model := ModelFor(url, env);
    call := ProviderCall(url, key, ServicePayload(messages, model, 0.7, 300, 1, false));
    match outcome
    case NetworkError =>
      result := Err(FetchFailed);
    case Responded(status, _, json) =>
      if !IsOkStatus(status) {
        result := Err(StatusError(status));
      } else if json.NotJson? {
        result := Err(InvalidJson);
      } else if Truthy(json.content) {
        result := Ok(json.content.value);
      } else if Truthy(json.reply) {
        result := Ok(json.reply.value);
      } else {
        result := Err(UnexpectedStructure);
      }
  }

  /** A POST whose body carries a truthy `userMessage`. */
  predicate Accepted(req: HttpRequest) {
    req.verb == "POST" && req.body.Some? && Truthy(req.body.value.userMessage)
  }

  predicate GroqConfigured(env: ServerEnv) {
    Truthy(env.groqUrl) && Truthy(env.groqKey)
  }

  predicate DeepSeekConfigured(env: ServerEnv) {
    Truthy(env.deepseekUrl) && Truthy(env.deepseekKey)
  }

  /** `handler`. Returns the response and the provider requests made, in order. */
  method Handler(req: HttpRequest, env: ServerEnv, stringify: seq<ContextTask> -> string,
                 groqOutcome: FetchOutcome, deepseekOutcome: FetchOutcome)
    returns (resp: HttpResponse, calls: seq<ProviderCall>)
    ensures req.verb == "OPTIONS" ==> resp == HttpResponse(200, NoBody) && calls == []
    ensures req.verb != "OPTIONS" && req.verb != "POST" ==>
              resp == HttpResponse(405, ErrorBody("Method Not Allowed")) && calls == []
    ensures req.verb == "POST" && !Accepted(req) ==> resp == HttpResponse(400, ErrorBody(BadRequestError)) && calls == []
    ensures Accepted(req) ==>
              var p := req.body.value;
              var groq, ds := ServiceReply(groqOutcome), ServiceReply(deepseekOutcome);
              var groqWon := GroqConfigured(env) && groq.Ok?;
              && (GroqConfigured(env) ==> |calls| >= 1 && calls[0] == ServiceRequest(env.groqUrl.value, env.groqKey.value, p, env, stringify))
              && (groqWon ==> resp == HttpResponse(200, ReplyBody(groq.value, Some("Groq"))) && |calls| == 1)
              && (!groqWon && !DeepSeekConfigured(env) ==>
                    resp == HttpResponse(502, ErrorBody(ConfigError)) && |calls| == (if GroqConfigured(env) then 1 else 0))
              && (!groqWon && DeepSeekConfigured(env) ==>
                    && |calls| == (if GroqConfigured(env) then 2 else 1)
                    && calls[|calls| - 1] == ServiceRequest(env.deepseekUrl.value, env.deepseekKey.value, p, env, stringify)
                    && resp == (if ds.Ok? then HttpResponse(200, ReplyBody(ds.value, Some("DeepSeek")))
                                else HttpResponse(502, ErrorBody(UnavailableError))))
    ensures resp.status == 200 <==> req.verb == "OPTIONS" || resp.body.ReplyBody?
    ensures resp.body.ReplyBody? ==> resp.body.reply != ""
    ensures resp.status == 502 ==> resp.body == ErrorBody(ConfigError) || resp.body == ErrorBody(UnavailableError)
  {
    calls := [];
    if req.verb == "OPTIONS" {
      return HttpResponse(200, NoBody), calls;
    }
    if req.verb != "POST" {
      return HttpResponse(405, ErrorBody("Method Not Allowed")), calls;
    }
    if req.body.None? || !Truthy(req.body.value.userMessage) {
      return HttpResponse(400, ErrorBody(BadRequestError)), calls;
    }
    var payload := req.body.value;
    if GroqConfigured(env) {
      var call, result := ProxyToService(env.groqUrl.value, env.groqKey.value, payload, env, stringify, groqOutcome);
      calls := calls + [call];
      if result.Ok? {
        return HttpResponse(200, ReplyBody(result.value, Some("Groq"))), calls;
      }
    }
    if !DeepSeekConfigured(env) {
      return HttpResponse(502, ErrorBody(ConfigError)), calls;
    }
    var call, result := ProxyToService(env.deepseekUrl.value, env.deepseekKey.value, payload, env, stringify, deepseekOutcome);
    calls := calls + [call];
    if result.Ok? {
      resp := HttpResponse(200, ReplyBody(result.value, Some("DeepSeek")));
    } else {
      resp := HttpResponse(502, ErrorBody(UnavailableError));
    }
  }
}
