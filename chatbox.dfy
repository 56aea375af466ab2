/** The chat panel of `src/components/Chatbox.tsx`: the `messages`, `inputText` and `isLoading`
    state and `sendMessage`. The send is split at its `await`: `SendMessage` runs up to the
    request, `ReceiveReply` runs from the answer to the end of `finally`. `Date.now()` is the
    clock parameter of each half; the answer of `/api/deepseek` is the input `outcome`. */
module Chatbox {
  import opened Wrappers
  import opened ChatTypes
  import JsStrings
  import Placeholders

  /** A shown message; `timestamp` is the clock reading it was created at. */
  datatype ChatMessage = ChatMessage(id: string, text: string, isUser: bool, timestamp: int)

  const Endpoint: string := "/api/deepseek"
  const UnprocessedReply: string := "Sorry, I couldn't process your request."
  const ConnectionApology: string := "Sorry, I'm having trouble connecting right now. Please try again later."

  /** The body the panel posts: `{message: inputText}`. */
  function RequestBody(text: string): (p: ChatPayload)
    ensures KeyCount(p) == 1 && p.message == Some(text) && p.userMessage.None?
  {
    EmptyPayload.(message := Some(text))
  }

  /** The assistant text for an answer: a truthy `response` of an ok JSON answer, the
      'could not process' text for any other ok JSON answer, and the connection apology when the
      request failed, the status was not ok or the body was not JSON. */
  function ReplyText(outcome: FetchOutcome): (t: string)
    ensures t != ""
    ensures t == ConnectionApology <==>
              outcome.NetworkError? || !IsOkStatus(outcome.status) || outcome.json.NotJson?
              || outcome.json.response == Some(ConnectionApology)
    ensures outcome.Responded? && IsOkStatus(outcome.status) && outcome.json.JsonObject? ==>
              t == (if Truthy(outcome.json.response) then outcome.json.response.value else UnprocessedReply)
  {
    if outcome.NetworkError? || !IsOkStatus(outcome.status) then ConnectionApology
    else match outcome.json
      case NotJson => ConnectionApology
      case JsonObject(_, _, response) => if Truthy(response) then response.value else UnprocessedReply
  }

  /** The panel posts `{message}`, while the `/api/deepseek` endpoint reads `userMessage`: every
      send it makes is answered with a 500, and the panel shows the connection apology. */
  lemma PlaceholderRejectsPanel(text: string, responseText: string, json: Json)
    ensures var r := Placeholders.DeepSeekRespond("POST", Some(RequestBody(text)));
            && r.status == 500
            && ReplyText(Responded(r.status, responseText, json)) == ConnectionApology
  {
  }

  class Panel {
    var messages: seq<ChatMessage>
    var inputText: string
    var isLoading: bool

    /** The initial state: no messages, empty input, not loading. */
    constructor ()
      ensures messages == [] && inputText == "" && !isLoading
    {
      messages := [];
      inputText := "";
      isLoading := false;
    }

    /** The textarea's `onChange`. */
    method SetInput(text: string)
      modifies this
      ensures inputText == text && messages == old(messages) && isLoading == old(isLoading)
    {
      inputText := text;
    }

    /** `sendMessage` up to the request: a blank input or a pending request changes nothing and
        sends nothing; otherwise the input, untrimmed, becomes a user message, the input is
        cleared, loading starts and `{message: input}` is posted. */
    method SendMessage(now: int) returns (request: Option<ChatPayload>)
      modifies this
      ensures JsStrings.AllWhitespace(old(inputText)) || old(isLoading) ==>
                request.None? && unchanged(this)
      ensures !JsStrings.AllWhitespace(old(inputText)) && !old(isLoading) ==>
                && request == Some(RequestBody(old(inputText)))
                && messages == old(messages) + [ChatMessage(JsStrings.IntToString(now), old(inputText), true, now)]
                && inputText == "" && isLoading
    {
      JsStrings.TrimEmptyIff(inputText);
      if JsStrings.Trim(inputText) == "" || isLoading {
        return None;
      }
      var sent := inputText;
      messages := messages + [ChatMessage(JsStrings.IntToString(now), sent, true, now)];
      inputText := "";
      isLoading := true;
      request := Some(RequestBody(sent));
    }

    /** `sendMessage` after the request: one assistant message, then loading stops. The input,
        which the textarea may have changed meanwhile, is left alone. */
    method ReceiveReply(later: int, outcome: FetchOutcome)
      requires isLoading
      modifies this
      ensures messages == old(messages) + [ChatMessage(JsStrings.IntToString(later + 1), ReplyText(outcome), false, later)]
      ensures !isLoading && inputText == old(inputText)
    {
      var text: string;
      if outcome.NetworkError? || !IsOkStatus(outcome.status) {
        text := ConnectionApology;
      } else if outcome.json.NotJson? {
        text := ConnectionApology;
      } else if Truthy(outcome.json.response) {
        text := outcome.json.response.value;
      } else {
        text := UnprocessedReply;
      }
      messages := messages + [ChatMessage(JsStrings.IntToString(later + 1), text, false, later)];
      isLoading := false;
    }

    /** A whole accepted send appends exactly two messages, the user's and then the assistant's,
        and ends with the panel idle and the input empty. */
    method SendAndReceive(now: int, later: int, outcome: FetchOutcome) returns (request: Option<ChatPayload>)
      requires !JsStrings.AllWhitespace(inputText) && !isLoading
      modifies this
      ensures request == Some(RequestBody(old(inputText)))
      ensures |messages| == |old(messages)| + 2 && messages[..|old(messages)|] == old(messages)
      ensures messages[|messages| - 2] == ChatMessage(JsStrings.IntToString(now), old(inputText), true, now)
      ensures messages[|messages| - 1] == ChatMessage(JsStrings.IntToString(later + 1), ReplyText(outcome), false, later)
      ensures inputText == "" && !isLoading
    {
      request := SendMessage(now);
      ReceiveReply(later, outcome);
    }
  }
}
