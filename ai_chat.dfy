/** The endpoint of `api/ai-chat.js`: validates the request, builds the provider message list
    with the task context rendered as text, and asks Groq and then DeepSeek at their fixed URLs,
    each only when its key is set. The providers' answers are the inputs `groqOutcome` and
    `deepseekOutcome`; only the two keys are read from the environment. */
module AiChat {
  import opened Wrappers
  import opened ChatTypes

  const GroqUrl: string := "https://api.groq.com/openai/v1/chat/completions"
  const DeepSeekUrl: string := "https://api.deepseek.com/v1/chat/completions"
  const GroqModel: string := "llama-3.1-70b-versatile"
  const DeepSeekModel: string := "deepseek-chat"
  const ContextPrefix: string := "Current tasks: "

  const MethodError: string := "Method not allowed"
  const InternalError: string := "Internal server error"
  const MissingMessageError: string := "User message is required"
  const ConfigError: string := "AI service configuration error"
  const UnavailableError: string := "AI services temporarily unavailable"

  /** `${v}` in a template literal for an optional string. */
  function TemplateText(v: Option<string>): string {
    if v.Some? then v.value else "undefined"
  }

  /** One task of the context: `"title" (importance priority, status[, goal: g])`. */
  function FormatTask(t: ContextTask): string {
    "\"" + t.title + "\" (" + TemplateText(t.importance) + " priority, " + TemplateText(t.status)
    + (if Truthy(t.goal) then ", goal: " + t.goal.value else "") + ")"
  }

  /** The goal is shown exactly when it is truthy, after the status and before the closing
      parenthesis; the title comes first, in double quotes. */
  lemma FormatTaskShape(t: ContextTask)
    ensures var s, head := FormatTask(t), "\"" + t.title + "\" (";
            var tail := if Truthy(t.goal) then ", goal: " + t.goal.value + ")" else ")";
            && |head| + |tail| <= |s| && s[..|head|] == head && s[|s| - |tail|..] == tail
  {
    var s, head := FormatTask(t), "\"" + t.title + "\" (";
    var mid := TemplateText(t.importance) + " priority, " + TemplateText(t.status);
    var goalPart := if Truthy(t.goal) then ", goal: " + t.goal.value else "";
    var tail := goalPart + ")";
    assert s == head + mid + tail;
    assert s[..|head|] == head;
    assert s[|s| - |tail|..] == tail;
  }

  /** `parts.join(sep)`. */
  function Join(parts: seq<string>, sep: string): string {
    if |parts| == 0 then ""
    else if |parts| == 1 then parts[0]
    else parts[0] + sep + Join(parts[1..], sep)
  }

  /** Joining keeps the list order: a longer list is the shorter one's join, the separator and
      the new last part. */
  lemma {:induction false} JoinSnoc(parts: seq<string>, last: string, sep: string)
    requires |parts| > 0
    ensures Join(parts + [last], sep) == Join(parts, sep) + sep + last
  {
    if |parts| == 1 {
      assert (parts + [last])[1..] == [last];
    } else {
      assert (parts + [last])[1..] == parts[1..] + [last];
      JoinSnoc(parts[1..], last, sep);
    }
  }

  /** The content of the task-context message. */
  function FormatContext(ctx: seq<ContextTask>): string {
    ContextPrefix + Join(seq(|ctx|, k requires 0 <= k < |ctx| => FormatTask(ctx[k])), ", ")
  }

  /** Two tasks render as their descriptions joined by ', ' in list order. */
  lemma FormatContextTwo(a: ContextTask, b: ContextTask)
    ensures FormatContext([a, b]) == ContextPrefix + FormatTask(a) + ", " + FormatTask(b)
  {
    var parts := seq(2, k requires 0 <= k < 2 => FormatTask([a, b][k]));
    assert parts == [FormatTask(a)] + [FormatTask(b)];
    JoinSnoc([FormatTask(a)], FormatTask(b), ", ");
  }

  /** A conversation entry reduced to `{role, content}`. */
  function Stripped(m: Message): Message {
    Message(m.role, m.content, false)
  }

  predicate HasContext(p: ChatPayload) {
    p.tasksContext.Some? && |p.tasksContext.value| > 0
  }

  /** The message list: the system message, the task context when non-empty, the reduced
      conversation, the user message. */
  function MessagesFor(p: ChatPayload): seq<Message> {
    var conv := p.conversation.GetOr([]);
    [Message("system", p.systemPrompt, false)]
    + (if HasContext(p) then [Message("system", Some(FormatContext(p.tasksContext.value)), false)] else [])
    + seq(|conv|, k requires 0 <= k < |conv| => Stripped(conv[k]))
    + [Message("user", p.userMessage, false)]
  }

  /** The system message comes first even when the prompt is missing; the context message
      follows iff the context is non-empty; the conversation follows in order with only role and
      content kept; the user message is last. */
  lemma MessageOrder(p: ChatPayload)
    ensures var m, conv := MessagesFor(p), p.conversation.GetOr([]);
            var c := if HasContext(p) then 2 else 1;
            && |m| == c + |conv| + 1
            && m[0] == Message("system", p.systemPrompt, false)
            && (HasContext(p) ==> m[1] == Message("system", Some(FormatContext(p.tasksContext.value)), false))
            && (forall k :: 0 <= k < |conv| ==>
                  m[c + k].role == conv[k].role && m[c + k].content == conv[k].content && !m[c + k].error)
            && m[|m| - 1] == Message("user", p.userMessage, false)
  {
  }

  /** Building `messages` by pushes. */
  method BuildMessages(p: ChatPayload) returns (messages: seq<Message>)
    ensures messages == MessagesFor(p)
  {
    messages := [Message("system", p.systemPrompt, false)];
    if p.tasksContext.Some? && |p.tasksContext.value| > 0 {
      messages := messages + [Message("system", Some(FormatContext(p.tasksContext.value)), false)];
    }
    var conv := p.conversation.GetOr([]);
    if p.conversation.Some? && |p.conversation.value| > 0 {
      messages := messages + seq(|conv|, k requires 0 <= k < |conv| => Stripped(conv[k]));
    }
    messages := messages + [Message("user", p.userMessage, false)];
    assert |conv| == 0 ==> seq(|conv|, k requires 0 <= k < |conv| => Stripped(conv[k])) == [];
  }

  /** The request to a provider, with the fixed generation parameters. */
  function CallFor(url: string, key: string, model: string, p: ChatPayload): ProviderCall {
    ProviderCall(url, key, ServicePayload(MessagesFor(p), model, 0.7, 300, 1, false))
  }

  /** The value an attempt assigns to `aiResponse`: `choices[0].message.content` of an ok
      response whose body is JSON; `None` when the attempt assigns nothing. */
  function Assigned(outcome: FetchOutcome): Option<Option<string>> {
    if outcome.Responded? && IsOkStatus(outcome.status) && outcome.json.JsonObject?
    then Some(outcome.json.content) else None
  }

  /** The answer an attempt yields: a truthy content of an ok JSON response. */
  function Answer(outcome: FetchOutcome): (r: Option<string>)
    ensures r.Some? <==> Assigned(outcome).Some? && Truthy(Assigned(outcome).value)
    ensures r.Some? ==> r.value != "" && Some(r.value) == Assigned(outcome).value
  {
    if outcome.Responded? && IsOkStatus(outcome.status) && outcome.json.JsonObject? && Truthy(outcome.json.content)
    then Some(outcome.json.content.value) else None
  }

  /** `handler`. Returns the response and the provider requests made, in order. */
  method Handler(req: HttpRequest, env: ServerEnv, groqOutcome: FetchOutcome, deepseekOutcome: FetchOutcome)
    returns (resp: HttpResponse, calls: seq<ProviderCall>)
    ensures req.verb == "OPTIONS" ==> resp == HttpResponse(200, NoBody) && calls == []
    ensures req.verb != "OPTIONS" && req.verb != "POST" ==> resp == HttpResponse(405, ErrorBody(MethodError)) && calls == []
    ensures req.verb == "POST" && req.body.None? ==> resp == HttpResponse(500, ErrorBody(InternalError)) && calls == []
    ensures req.verb == "POST" && req.body.Some? && !Truthy(req.body.value.userMessage) ==>
              resp == HttpResponse(400, ErrorBody(MissingMessageError)) && calls == []
    ensures req.verb == "POST" && req.body.Some? && Truthy(req.body.value.userMessage)
            && !Truthy(env.groqKey) && !Truthy(env.deepseekKey) ==>
              resp == HttpResponse(500, ErrorBody(ConfigError)) && calls == []
    ensures req.verb == "POST" && req.body.Some? && Truthy(req.body.value.userMessage)
            && (Truthy(env.groqKey) || Truthy(env.deepseekKey)) ==>
              var p := req.body.value;
              var groqWon := Truthy(env.groqKey) && Answer(groqOutcome).Some?;
              var groqCalls := if Truthy(env.groqKey) then [CallFor(GroqUrl, env.groqKey.value, GroqModel, p)] else [];
              && (groqWon ==> resp == HttpResponse(200, AnswerBody(Answer(groqOutcome).value, Some("Groq"))) && calls == groqCalls)
              && (!groqWon && Truthy(env.deepseekKey) ==>
                    && calls == groqCalls + [CallFor(DeepSeekUrl, env.deepseekKey.value, DeepSeekModel, p)]
                    && resp == (if Answer(deepseekOutcome).Some?
                                then HttpResponse(200, AnswerBody(Answer(deepseekOutcome).value, Some("DeepSeek")))
                                else HttpResponse(500, ErrorBody(UnavailableError))))
              && (!groqWon && !Truthy(env.deepseekKey) ==> resp == HttpResponse(500, ErrorBody(UnavailableError)) && calls == groqCalls)
    ensures resp.status == 200 <==> req.verb == "OPTIONS" || resp.body.AnswerBody?
    ensures resp.body.AnswerBody? ==> resp.body.response != "" && resp.body.provider.Some?
  {
    calls := [];
    if req.verb == "OPTIONS" {
      return HttpResponse(200, NoBody), calls;
    }
    if req.verb != "POST" {
      return HttpResponse(405, ErrorBody(MethodError)), calls;
    }
    if req.body.None? {
      // Destructuring a missing body throws inside the try block.
      return HttpResponse(500, ErrorBody(InternalError)), calls;
    }
    var p := req.body.value;
    if !Truthy(p.userMessage) {
      return HttpResponse(400, ErrorBody(MissingMessageError)), calls;
    }
    if !Truthy(env.groqKey) && !Truthy(env.deepseekKey) {
      return HttpResponse(500, ErrorBody(ConfigError)), calls;
    }
    var messages := BuildMessages(p);
    var aiResponse: Option<string> := None;
    var usedProvider: Option<string> := None;
    if Truthy(env.groqKey) {
      calls := calls + [ProviderCall(GroqUrl, env.groqKey.value, ServicePayload(messages, GroqModel, 0.7, 300, 1, false))];
      var got := Assigned(groqOutcome);
      if got.Some? {
        aiResponse := got.value;
        usedProvider := Some("Groq");
      }
    }
    if !Truthy(aiResponse) && Truthy(env.deepseekKey) {
      calls := calls + [ProviderCall(DeepSeekUrl, env.deepseekKey.value, ServicePayload(messages, DeepSeekModel, 0.7, 300, 1, false))];
      var got := Assigned(deepseekOutcome);
      if got.Some? {
        aiResponse := got.value;
        usedProvider := Some("DeepSeek");
      }
    }
    if !Truthy(aiResponse) {
      return HttpResponse(500, ErrorBody(UnavailableError)), calls;
    }
    resp := HttpResponse(200, AnswerBody(aiResponse.value, usedProvider));
  }
}
