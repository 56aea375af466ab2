/** The placeholder endpoints `api/groq.js` and `api/deepseek.js`. Each accumulates the request
    body from its data chunks, parses it and answers with a canned reply quoting the start of
    `userMessage`; the Groq one fails at random first. `JSON.parse` is the parameter `parse`
    (`None` when it throws) and the outcome of `Math.random() < 0.5` is the input
    `simulateFailure`. The API keys only decide whether a warning is logged, so they are not
    inputs. */
module Placeholders {
  import opened Wrappers
  import opened ChatTypes
  import JsStrings

  /** How many characters of the user message the replies quote. */
  const PreviewLength: nat := 60

  const GroqPrefix: string := "(Groq Placeholder Sim) Hello! You said: \""
  const DeepSeekPrefix: string := "(DeepSeek Sim) Understood! You mentioned: \""
  const DeepSeekSuffix: string := "\" (fallback)"

  const GroqInternalError: string := "Internal Server Error in Groq placeholder handler"
  const GroqSimulatedError: string := "Simulated Groq API Error (500) from placeholder"
  const DeepSeekInternalError: string := "Internal Server Error in DeepSeek placeholder handler"

  /** `msg.substring(0, 60)` followed by '...' when the message is longer than 60 characters. */
  function Preview(msg: string): string {
    JsStrings.Take(msg, PreviewLength) + (if |msg| > PreviewLength then "..." else "")
  }

  /** A message of at most 60 characters is quoted whole; a longer one loses everything after
      its 60th character and gains '...'. The quote is never longer than 63 characters. */
  lemma PreviewSpec(msg: string)
    ensures |msg| <= PreviewLength ==> Preview(msg) == msg
    ensures |msg| > PreviewLength ==> Preview(msg) == msg[..PreviewLength] + "..."
    ensures |Preview(msg)| <= PreviewLength + 3
    ensures var n := if |msg| <= PreviewLength then |msg| else PreviewLength;
            Preview(msg)[..n] == msg[..n]
  {
  }

  /** The part of a message the quote keeps: its first 60 characters, or all of a shorter one. */
  function Kept(msg: string): string {
    if |msg| <= PreviewLength then msg else msg[..PreviewLength]
  }

  /** Two messages of any length get the same quote exactly when they agree on their first 60
      characters and either both or neither are longer than 60 characters; in particular,
      messages that differ within their first 60 characters get different quotes. */
  lemma PreviewDistinguishes(a: string, b: string)
    ensures Preview(a) == Preview(b) <==>
            Kept(a) == Kept(b) && (|a| > PreviewLength <==> |b| > PreviewLength)
  {
    PreviewSpec(a);
    PreviewSpec(b);
    if Preview(a) == Preview(b) {
      if |a| > PreviewLength && |b| > PreviewLength {
        assert Kept(a) == Preview(a)[..PreviewLength] == Preview(b)[..PreviewLength] == Kept(b);
      }
    }
  }

  function GroqReply(msg: string): string {
    GroqPrefix + Preview(msg) + "\""
  }

  function DeepSeekReply(msg: string): string {
    DeepSeekPrefix + Preview(msg) + DeepSeekSuffix
  }

  /** Each reply is its fixed prefix, the quote, and its fixed closing text, so the quote can be
      read back from the reply. */
  lemma RepliesQuote(msg: string)
    ensures var r := GroqReply(msg);
            |r| == |GroqPrefix| + |Preview(msg)| + 1 && r[|GroqPrefix|..|r| - 1] == Preview(msg)
    ensures var r := DeepSeekReply(msg);
            |r| == |DeepSeekPrefix| + |Preview(msg)| + |DeepSeekSuffix|
            && r[|DeepSeekPrefix|..|r| - |DeepSeekSuffix|] == Preview(msg)
  {
    var g := GroqReply(msg);
    assert g == GroqPrefix + Preview(msg) + "\"";
    assert g[|GroqPrefix|..|g| - 1] == Preview(msg);
    var d := DeepSeekReply(msg);
    assert d[|DeepSeekPrefix|..|d| - |DeepSeekSuffix|] == Preview(msg);
  }

  /** The chunks of a body, concatenated in arrival order. */
  function Concat(chunks: seq<string>): string {
    if |chunks| == 0 then "" else Concat(chunks[..|chunks| - 1]) + chunks[|chunks| - 1]
  }

  /** The `data` handler: `rawData += chunk` for every chunk. */
  method ReadBody(chunks: seq<string>) returns (rawData: string)
    ensures rawData == Concat(chunks)
  {
    rawData := "";
    var i := 0;
    while i < |chunks|
      invariant 0 <= i <= |chunks|
      invariant rawData == Concat(chunks[..i])
    {
      assert chunks[..i + 1][..i] == chunks[..i];
      rawData := rawData + chunks[i];
      i := i + 1;
    }
    assert chunks[..|chunks|] == chunks;
  }

  /** The response `api/groq.js` writes once the body is parsed as `parsed`. */
  function GroqRespond(verb: string, parsed: Option<ChatPayload>, simulateFailure: bool): (r: HttpResponse)
    ensures verb == "OPTIONS" ==> r == HttpResponse(200, NoBody)
    ensures verb != "OPTIONS" && verb != "POST" ==> r == HttpResponse(405, ErrorBody("Method " + verb + " Not Allowed"))
    ensures verb == "POST" ==> (r.status == 200 || r.status == 500)
    ensures verb == "POST" ==>
              (r.status == 200 <==> parsed.Some? && parsed.value.userMessage.Some? && !simulateFailure)
    ensures verb == "POST" && r.status == 200 ==> r.body == ReplyBody(GroqReply(parsed.value.userMessage.value), None)
    ensures verb == "POST" && parsed.Some? && simulateFailure ==> r == HttpResponse(500, ErrorBody(GroqSimulatedError))
  {
    if verb == "OPTIONS" then HttpResponse(200, NoBody)
    else if verb != "POST" then HttpResponse(405, ErrorBody("Method " + verb + " Not Allowed"))
    else if parsed.None? then HttpResponse(500, ErrorBody(GroqInternalError))
    else if simulateFailure then HttpResponse(500, ErrorBody(GroqSimulatedError))
    else if parsed.value.userMessage.None? then HttpResponse(500, ErrorBody(GroqInternalError))
    else HttpResponse(200, ReplyBody(GroqReply(parsed.value.userMessage.value), None))
  }

  /** The response `api/deepseek.js` writes once the body is parsed as `parsed`: there is no
      simulated failure. */
  function DeepSeekRespond(verb: string, parsed: Option<ChatPayload>): (r: HttpResponse)
    ensures verb == "OPTIONS" ==> r == HttpResponse(200, NoBody)
    ensures verb != "OPTIONS" && verb != "POST" ==> r == HttpResponse(405, ErrorBody("Method " + verb + " Not Allowed"))
    ensures verb == "POST" ==> (r.status == 200 <==> parsed.Some? && parsed.value.userMessage.Some?)
    ensures verb == "POST" && r.status != 200 ==> r == HttpResponse(500, ErrorBody(DeepSeekInternalError))
    ensures verb == "POST" && r.status == 200 ==> r.body == ReplyBody(DeepSeekReply(parsed.value.userMessage.value), None)
  {
    if verb == "OPTIONS" then HttpResponse(200, NoBody)
    else if verb != "POST" then HttpResponse(405, ErrorBody("Method " + verb + " Not Allowed"))
    else if parsed.None? || parsed.value.userMessage.None? then HttpResponse(500, ErrorBody(DeepSeekInternalError))
    else HttpResponse(200, ReplyBody(DeepSeekReply(parsed.value.userMessage.value), None))
  }

  /** `api/groq.js`'s handler: the body is read only for a POST. */
  method GroqHandler(verb: string, chunks: seq<string>, parse: string -> Option<ChatPayload>, simulateFailure: bool)
    returns (resp: HttpResponse)
    ensures resp == GroqRespond(verb, parse(Concat(chunks)), simulateFailure)
  {
    if verb == "OPTIONS" {
      return HttpResponse(200, NoBody);
    }
    if verb != "POST" {
      return HttpResponse(405, ErrorBody("Method " + verb + " Not Allowed"));
    }
    var rawData := ReadBody(chunks);
    var parsed := parse(rawData);
    if parsed.None? {
      return HttpResponse(500, ErrorBody(GroqInternalError));
    }
    if simulateFailure {
      return HttpResponse(500, ErrorBody(GroqSimulatedError));
    }
    var payload := parsed.value;
    if payload.userMessage.None? {
      return HttpResponse(500, ErrorBody(GroqInternalError));
    }
    resp := HttpResponse(200, ReplyBody(GroqReply(payload.userMessage.value), None));
  }

  /** `api/deepseek.js`'s handler: the body is read only for a POST. */
  method DeepSeekHandler(verb: string, chunks: seq<string>, parse: string -> Option<ChatPayload>)
    returns (resp: HttpResponse)
    ensures resp == DeepSeekRespond(verb, parse(Concat(chunks)))
  {
    if verb == "OPTIONS" {
      return HttpResponse(200, NoBody);
    }
    if verb != "POST" {
      return HttpResponse(405, ErrorBody("Method " + verb + " Not Allowed"));
    }
    var rawData := ReadBody(chunks);
    var parsed := parse(rawData);
    if parsed.None? || parsed.value.userMessage.None? {
      return HttpResponse(500, ErrorBody(DeepSeekInternalError));
    }
    resp := HttpResponse(200, ReplyBody(DeepSeekReply(parsed.value.userMessage.value), None));
  }
}
