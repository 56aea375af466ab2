/** The stand-alone chat page of `script.js`: the page-global `messages`, `isFirstApiCall` and
    `currentTasks`, and `handleSendMessage` with the `getAiResponse` it awaits. The replies of
    `/api/groq` and `/api/deepseek` are the inputs `groqOutcome` and `deepseekOutcome`. */
module Script {
  import opened Wrappers
  import opened ChatTypes
  import JsStrings
  import Placeholders

  /** How many entries of the history are sent, and how many are kept. */
  const MaxApiMessages: nat := 20
  const MaxStoredMessages: nat := 20

  const SystemPrompt: string := "You are TrailGuide, an AI assistant for TaskTrail. Use the user's task list context to give concise, actionable replies when asked. Do not loop or re-prompt the user."
  const Apology: string := "Sorry, TrailGuide is unavailable. Please try again later."
  const GroqPath: string := "/api/groq"
  const DeepSeekPath: string := "/api/deepseek"

  /** An entry of the page's `currentTasks`. */
  datatype ScriptTask = ScriptTask(title: string, goal: Option<string>, importanceLevel: Option<string>, completed: bool)

  /** A POST the page makes: the endpoint path and the JSON body. */
  datatype ClientRequest = ClientRequest(path: string, payload: ChatPayload)

  /** A task as the payload describes it. */
  function Describe(t: ScriptTask): (c: ContextTask)
    ensures c.status == Some(if t.completed then "completed" else "pending")
    ensures c.title == t.title && c.goal == t.goal && c.importance == t.importanceLevel
  {
    ContextTask(t.title, t.goal, t.importanceLevel, Some(if t.completed then "completed" else "pending"))
  }

  /** The last `n` entries (`s.slice(-n)`, and the storage cut `s.slice(s.length - n)` when
      `s` is longer than `n`). */
  function LastN<T>(s: seq<T>, n: nat): (r: seq<T>)
    ensures |r| == if |s| <= n then |s| else n
    ensures r == s[|s| - |r|..]
  {
    if |s| <= n then s else s[|s| - n..]
  }

  /** Appending one entry and cutting keeps at most `n` entries, ends with the new entry, and
      drops only the oldest ones. */
  lemma LastNSnoc<T>(s: seq<T>, x: T, n: nat)
    requires n > 0
    ensures var r := LastN(s + [x], n);
            && |r| <= n && |r| >= 1 && r[|r| - 1] == x
            && r[..|r| - 1] == LastN(s, n - 1)
  {
    var r := LastN(s + [x], n);
    assert r[..|r| - 1] == s[|s| - (|r| - 1)..];
  }

  /** The history after the user's message is stored. */
  function UserTurn(history: seq<Message>, text: string): (r: seq<Message>)
    ensures 1 <= |r| <= MaxStoredMessages && r[|r| - 1] == Message("user", Some(text), false)
  {
    LastNSnoc(history, Message("user", Some(text), false), MaxStoredMessages);
    LastN(history + [Message("user", Some(text), false)], MaxStoredMessages)
  }

  /** The hint condition: the lower-cased message includes the lower-cased title. */
  predicate HintMatches(t: ScriptTask, msg: string) {
    JsStrings.Contains(JsStrings.ToLower(msg), JsStrings.ToLower(t.title))
  }

  /** The index `currentTasks.find(...)` stops at; `|tasks|` when no title matches. */
  function HintIndex(tasks: seq<ScriptTask>, msg: string): (k: nat)
    ensures k <= |tasks|
    ensures forall j :: 0 <= j < k ==> !HintMatches(tasks[j], msg)
    ensures k < |tasks| ==> HintMatches(tasks[k], msg)
  {
    if |tasks| == 0 then 0
    else if HintMatches(tasks[0], msg) then 0
    else 1 + HintIndex(tasks[1..], msg)
  }

  /** `taskHint`: the first task, completed or not, whose title occurs in the message, ignoring
      ASCII case. */
  function TaskHint(tasks: seq<ScriptTask>, msg: string): Option<ContextTask> {
    var k := HintIndex(tasks, msg);
    if k < |tasks| then Some(Describe(tasks[k])) else None
  }

  /** A hint is sent exactly when some title matches, and it describes the first such task. A
      task with an empty title matches every message. */
  lemma TaskHintSpec(tasks: seq<ScriptTask>, msg: string)
    ensures TaskHint(tasks, msg).Some? <==> exists k :: 0 <= k < |tasks| && HintMatches(tasks[k], msg)
    ensures forall k :: 0 <= k < |tasks| && HintMatches(tasks[k], msg) && (forall j :: 0 <= j < k ==> !HintMatches(tasks[j], msg))
              ==> TaskHint(tasks, msg) == Some(Describe(tasks[k]))
    ensures forall k :: 0 <= k < |tasks| && tasks[k].title == "" ==> HintMatches(tasks[k], msg)
  {
    forall k | 0 <= k < |tasks| && tasks[k].title == ""
      ensures HintMatches(tasks[k], msg)
    {
      JsStrings.ContainsBasics(JsStrings.ToLower(msg), JsStrings.ToLower(tasks[k].title));
    }
  }

  /** The payload `getAiResponse` sends to both endpoints. */
  function PayloadFor(history: seq<Message>, tasks: seq<ScriptTask>, text: string, first: bool): ChatPayload {
    ChatPayload(
      if first then Some(SystemPrompt) else None,
      Some(seq(|tasks|, k requires 0 <= k < |tasks| => Describe(tasks[k]))),
      TaskHint(tasks, text),
      Some(LastN(history, MaxApiMessages)),
      Some(text),
      None,
      0)
  }

  /** The payload carries the system prompt exactly on a first call, every task (not only the
      open ones) in order, at most 20 history entries ending with the new user message, and the
      message itself. */
  lemma PayloadShape(old_messages: seq<Message>, tasks: seq<ScriptTask>, text: string, first: bool)
    ensures var history := LastN(old_messages + [Message("user", Some(text), false)], MaxStoredMessages);
            var p := PayloadFor(history, tasks, text, first);
            && (p.systemPrompt.Some? <==> first)
            && |p.tasksContext.value| == |tasks|
            && (forall k :: 0 <= k < |tasks| ==> p.tasksContext.value[k] == Describe(tasks[k]))
            && |p.conversation.value| <= MaxApiMessages
            && p.conversation.value[|p.conversation.value| - 1] == Message("user", Some(text), false)
            && p.userMessage == Some(text)
  {
    var history := LastN(old_messages + [Message("user", Some(text), false)], MaxStoredMessages);
    LastNSnoc(old_messages, Message("user", Some(text), false), MaxStoredMessages);
    assert LastN(history, MaxApiMessages) == history;
  }

  /** What the page reads from an endpoint: the truthy `reply` of an ok JSON response; anything
      else throws. */
  function ClientReply(outcome: FetchOutcome): (r: Option<string>)
    ensures r.Some? <==> outcome.Responded? && IsOkStatus(outcome.status) && outcome.json.JsonObject? && Truthy(outcome.json.reply)
    ensures r.Some? ==> r == outcome.json.reply && r.value != ""
  {
    if outcome.Responded? && IsOkStatus(outcome.status) && outcome.json.JsonObject? && Truthy(outcome.json.reply)
    then outcome.json.reply else None
  }

  /** The assistant entry a send appends: the first reply that came back, or the apology marked
      as an error. */
  function ReplyEntry(groq: Option<string>, deepseek: Option<string>): (m: Message)
    ensures m.role == "assistant"
    ensures m.error <==> groq.None? && deepseek.None?
    ensures m.error ==> m.content == Some(Apology)
    ensures groq.Some? ==> m.content == groq
    ensures groq.None? && deepseek.Some? ==> m.content == deepseek
  {
    if groq.Some? then Message("assistant", groq, false)
    else if deepseek.Some? then Message("assistant", deepseek, false)
    else Message("assistant", Some(Apology), true)
  }

  /** The placeholder endpoints answer every payload the page sends (the Groq one unless it
      simulates a failure), quoting the message. */
  lemma PlaceholdersAnswerPage(history: seq<Message>, tasks: seq<ScriptTask>, text: string, first: bool)
    ensures var p := PayloadFor(history, tasks, text, first);
            && Placeholders.DeepSeekRespond("POST", Some(p)) == HttpResponse(200, ReplyBody(Placeholders.DeepSeekReply(text), None))
            && Placeholders.GroqRespond("POST", Some(p), false) == HttpResponse(200, ReplyBody(Placeholders.GroqReply(text), None))
  {
  }

  /** The page's global chat state. */
  class ChatSession {
    var messages: seq<Message>
    var isFirstApiCall: bool
    var currentTasks: seq<ScriptTask>

    /** The stored history never exceeds 20 entries. */
    predicate Valid()
      reads this
    {
      |messages| <= MaxStoredMessages
    }

    constructor (tasks: seq<ScriptTask>)
      ensures Valid()
      ensures messages == [] && isFirstApiCall && currentTasks == tasks
    {
      messages := [];
      isFirstApiCall := true;
      currentTasks := tasks;
    }

    /** `messages.push(m)` followed by the cut to the last 20 entries. */
    method Push(m: Message)
      requires Valid()
      modifies this
      ensures Valid()
      ensures messages == LastN(old(messages) + [m], MaxStoredMessages)
      ensures isFirstApiCall == old(isFirstApiCall) && currentTasks == old(currentTasks)
    {
      messages := messages + [m];
      if |messages| > MaxStoredMessages {
        messages := messages[|messages| - MaxStoredMessages..];
      }
    }

    /** The `payload` object of `getAiResponse`, filled in step by step. */
    method BuildPayload(text: string) returns (payload: ChatPayload)
      ensures payload == PayloadFor(messages, currentTasks, text, isFirstApiCall)
    {
      var tasks := currentTasks;
      payload := ChatPayload(None, Some(seq(|tasks|, k requires 0 <= k < |tasks| => Describe(tasks[k]))),
                             None, Some(LastN(messages, MaxApiMessages)), Some(text), None, 0);
      if isFirstApiCall {
        payload := payload.(systemPrompt := Some(SystemPrompt));
      }
      var hint := HintIndex(tasks, text);
      if hint < |tasks| {
        payload := payload.(taskHint := Some(Describe(tasks[hint])));
      }
    }

    /** `getAiResponse`: Groq first, DeepSeek with the same payload when Groq fails, then one
        assistant entry. The flag clears only when a reply came back. */
    method GetAiResponse(text: string, groqOutcome: FetchOutcome, deepseekOutcome: FetchOutcome)
      returns (requests: seq<ClientRequest>)
      requires Valid()
      modifies this
      ensures Valid()
      ensures currentTasks == old(currentTasks)
      ensures var payload := PayloadFor(old(messages), old(currentTasks), text, old(isFirstApiCall));
              var groq, ds := ClientReply(groqOutcome), ClientReply(deepseekOutcome);
              && requests == [ClientRequest(GroqPath, payload)]
                             + (if groq.Some? then [] else [ClientRequest(DeepSeekPath, payload)])
              && messages == LastN(old(messages) + [ReplyEntry(groq, ds)], MaxStoredMessages)
              && isFirstApiCall == (old(isFirstApiCall) && groq.None? && ds.None?)
    {
      var payload := BuildPayload(text);
      var aiResponse: Option<string> := None;
      var success := false;
      requests := [ClientRequest(GroqPath, payload)];
      var groq := ClientReply(groqOutcome);
      if groq.Some? {
        aiResponse := groq;
        isFirstApiCall := false;
        success := true;
      } else {
        if isFirstApiCall && payload.systemPrompt.None? {
          payload := payload.(systemPrompt := Some(SystemPrompt));
        }
        requests := requests + [ClientRequest(DeepSeekPath, payload)];
        var ds := ClientReply(deepseekOutcome);
        if ds.Some? {
          aiResponse := ds;
          isFirstApiCall := false;
          success := true;
        } else {
          aiResponse := Some(Apology);
        }
      }
      if success && Truthy(aiResponse) {
        Push(Message("assistant", aiResponse, false));
      } else {
        Push(Message("assistant", aiResponse, true));
      }
    }

    /** The part of `handleSendMessage` after the blank check: the message is stored, then
        `getAiResponse` runs. */
    method SendText(text: string, groqOutcome: FetchOutcome, deepseekOutcome: FetchOutcome)
      returns (requests: seq<ClientRequest>)
      requires Valid()
      modifies this
      ensures Valid()
      ensures currentTasks == old(currentTasks)
      ensures var payload := PayloadFor(UserTurn(old(messages), text), old(currentTasks), text, old(isFirstApiCall));
              requests == [ClientRequest(GroqPath, payload)]
                          + (if ClientReply(groqOutcome).Some? then [] else [ClientRequest(DeepSeekPath, payload)])
      ensures var entry := ReplyEntry(ClientReply(groqOutcome), ClientReply(deepseekOutcome));
              && messages == LastN(UserTurn(old(messages), text) + [entry], MaxStoredMessages)
              && messages[|messages| - 1] == entry
      ensures isFirstApiCall == (old(isFirstApiCall) && ClientReply(groqOutcome).None? && ClientReply(deepseekOutcome).None?)
    {
      Push(Message("user", Some(text), false));
      ghost var history := messages;
      requests := GetAiResponse(text, groqOutcome, deepseekOutcome);
      LastNSnoc(history, ReplyEntry(ClientReply(groqOutcome), ClientReply(deepseekOutcome)), MaxStoredMessages);
    }

    /** `handleSendMessage`: a blank message does nothing; otherwise the trimmed message is
        stored and `getAiResponse` runs. Returns the requests made, in order. */
    method HandleSendMessage(input: string, groqOutcome: FetchOutcome, deepseekOutcome: FetchOutcome)
      returns (requests: seq<ClientRequest>)
      requires Valid()
      modifies this
      ensures Valid()
      ensures currentTasks == old(currentTasks)
      ensures JsStrings.AllWhitespace(input) ==>
                requests == [] && messages == old(messages) && isFirstApiCall == old(isFirstApiCall)
      ensures !JsStrings.AllWhitespace(input) ==>
                var text := JsStrings.Trim(input);
                var payload := PayloadFor(UserTurn(old(messages), text), old(currentTasks), text, old(isFirstApiCall));
                requests == [ClientRequest(GroqPath, payload)]
                            + (if ClientReply(groqOutcome).Some? then [] else [ClientRequest(DeepSeekPath, payload)])
      ensures !JsStrings.AllWhitespace(input) ==>
                var entry := ReplyEntry(ClientReply(groqOutcome), ClientReply(deepseekOutcome));
                && messages == LastN(UserTurn(old(messages), JsStrings.Trim(input)) + [entry], MaxStoredMessages)
                && messages[|messages| - 1] == entry
      ensures !JsStrings.AllWhitespace(input) ==>
                isFirstApiCall == (old(isFirstApiCall) && ClientReply(groqOutcome).None? && ClientReply(deepseekOutcome).None?)
    {
      var text := JsStrings.Trim(input);
      JsStrings.TrimEmptyIff(input);
      if text == "" {
        return [];
      }
      requests := SendText(text, groqOutcome, deepseekOutcome);
    }
  }
}
