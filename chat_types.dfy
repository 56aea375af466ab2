/** The values the chat clients and endpoints exchange. A JSON object is a datatype whose
    optional keys are `Option`s (a key with the value `undefined` is absent, as after
    `JSON.stringify`); what a provider or endpoint answers to a request is an input, a
    `FetchOutcome`. */
module ChatTypes {
  import opened Wrappers

  /** A conversation entry `{role, content}`; `error` is the flag script.js adds to failed
      replies (`false` when absent). */
  datatype Message = Message(role: string, content: Option<string>, error: bool)

  /** A task as the clients describe it to the endpoints (`{title, goal, importance, status}`). */
  datatype ContextTask = ContextTask(title: string, goal: Option<string>, importance: Option<string>, status: Option<string>)

  /** A parsed chat request body. script.js sends `systemPrompt`, `tasksContext`, `taskHint`,
      `conversation` and `userMessage`; Chatbox.tsx sends `message`. `otherKeys` counts the
      keys of any other name (a provider-shaped `{model, messages}` body has two): no endpoint
      reads them, but `api/chat.js` counts them and forwards them unchanged. */
  datatype ChatPayload = ChatPayload(
    systemPrompt: Option<string>,
    tasksContext: Option<seq<ContextTask>>,
    taskHint: Option<ContextTask>,
    conversation: Option<seq<Message>>,
    userMessage: Option<string>,
    message: Option<string>,
    otherKeys: nat)

  const EmptyPayload: ChatPayload := ChatPayload(None, None, None, None, None, None, 0)

  function CountSome<T>(o: Option<T>): nat {
    if o.Some? then 1 else 0
  }

  /** `Object.keys(payload).length`. */
  function KeyCount(p: ChatPayload): (r: nat)
    ensures r == 0 <==> p == EmptyPayload
  {
    CountSome(p.systemPrompt) + CountSome(p.tasksContext) + CountSome(p.taskHint)
    + CountSome(p.conversation) + CountSome(p.userMessage) + CountSome(p.message) + p.otherKeys
  }

  /** The fields of a parsed JSON response body any of the clients read: `reply`,
      `choices[0].message.content` (`None` when any step of that path is missing) and
      `response`. `NotJson` is a body `res.json()` rejects. */
  datatype Json =
    | NotJson
    | JsonObject(reply: Option<string>, content: Option<string>, response: Option<string>)

  /** What a `fetch` yields: a rejected promise, or a response with its status, its text and
      its body read as JSON. */
  datatype FetchOutcome =
    | NetworkError
    | Responded(status: int, text: string, json: Json)

  /** `res.ok`. */
  predicate IsOkStatus(status: int) {
    200 <= status <= 299
  }

  /** The server's `process.env` entries the endpoints read. */
  datatype ServerEnv = ServerEnv(
    groqUrl: Option<string>,
    groqKey: Option<string>,
    groqModel: Option<string>,
    deepseekUrl: Option<string>,
    deepseekKey: Option<string>,
    deepseekModel: Option<string>)

  /** The OpenAI-style request body the server endpoints send to a provider. */
  datatype ServicePayload = ServicePayload(
    messages: seq<Message>,
    model: string,
    temperature: real,
    maxTokens: int,
    topP: int,
    stream: bool)

  /** A provider request: URL, bearer key, body. */
  datatype ProviderCall = ProviderCall(url: string, key: string, payload: ServicePayload)

  /** A request the server sends on unchanged: URL, bearer key, the client's own body. */
  datatype Forwarded = Forwarded(url: string, key: string, payload: ChatPayload)

  /** A JSON response body an endpoint writes. */
  datatype Body =
    | NoBody
    | ErrorBody(error: string)
    | ReplyBody(reply: string, provider: Option<string>)
    | AnswerBody(response: string, provider: Option<string>)

  datatype HttpResponse = HttpResponse(status: int, body: Body)

  /** An incoming request; `body` is `None` when it is missing or is not a JSON object. */
  datatype HttpRequest = HttpRequest(verb: string, body: Option<ChatPayload>)
}
