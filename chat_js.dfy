/** The unified chat endpoint of `api/chat.js`: validates the request, then asks Groq through
    `sendToGroq` and on any error DeepSeek through `sendToDeepSeek`, with the same payload. */
module ChatJs {
  import opened Wrappers
  import opened ChatTypes
  import opened ProviderClient

  const EmptyBodyError: string := "Request body is missing or empty."
  const UnavailableError: string := "All AI services are currently unavailable."

  function RequestsOf(s: Sent): seq<Forwarded> {
    if s.request.Some? then [s.request.value] else []
  }

  /** `handler`. Returns the response and the provider requests made, in order. */
  method Handler(req: HttpRequest, env: ServerEnv, groqOutcome: FetchOutcome, deepseekOutcome: FetchOutcome)
    returns (resp: HttpResponse, calls: seq<Forwarded>)
    ensures req.verb == "OPTIONS" ==> resp == HttpResponse(200, NoBody) && calls == []
    ensures req.verb != "OPTIONS" && req.verb != "POST" ==>
              resp == HttpResponse(405, ErrorBody("Method Not Allowed")) && calls == []
    ensures req.verb == "POST" && (req.body.None? || KeyCount(req.body.value) == 0) ==>
              resp == HttpResponse(400, ErrorBody(EmptyBodyError)) && calls == []
    ensures req.verb == "POST" && req.body.Some? && KeyCount(req.body.value) > 0 ==>
              var p := req.body.value;
              var groq := SendToGroq(env, p, groqOutcome);
              var ds := SendToDeepSeek(env, p, deepseekOutcome);
              && (groq.result.Ok? ==>
                    resp == HttpResponse(200, ReplyBody(groq.result.value, Some("Groq"))) && calls == RequestsOf(groq))
              && (groq.result.Err? && ds.result.Ok? ==>
                    resp == HttpResponse(200, ReplyBody(ds.result.value, Some("DeepSeek")))
                    && calls == RequestsOf(groq) + RequestsOf(ds))
              && (groq.result.Err? && ds.result.Err? ==>
                    resp == HttpResponse(502, ErrorBody(UnavailableError)) && calls == RequestsOf(groq) + RequestsOf(ds))
    ensures resp.status == 200 <==> req.verb == "OPTIONS" || resp.body.ReplyBody?
    ensures resp.body.ReplyBody? ==> resp.body.reply != ""
    ensures forall k :: 0 <= k < |calls| ==> calls[k].payload == req.body.value
  {
    calls := [];
    if req.verb == "OPTIONS" {
      return HttpResponse(200, NoBody), calls;
    }
    if req.verb != "POST" {
      return HttpResponse(405, ErrorBody("Method Not Allowed")), calls;
    }
    if req.body.None? || KeyCount(req.body.value) == 0 {
      return HttpResponse(400, ErrorBody(EmptyBodyError)), calls;
    }
    var payload := req.body.value;
    var groq := SendToGroq(env, payload, groqOutcome);
    calls := calls + RequestsOf(groq);
    if groq.result.Ok? {
      return HttpResponse(200, ReplyBody(groq.result.value, Some("Groq"))), calls;
    }
    var ds := SendToDeepSeek(env, payload, deepseekOutcome);
    calls := calls + RequestsOf(ds);
    if ds.result.Ok? {
      resp := HttpResponse(200, ReplyBody(ds.result.value, Some("DeepSeek")));
    } else {
      resp := HttpResponse(502, ErrorBody(UnavailableError));
    }
  }
}
