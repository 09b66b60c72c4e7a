/**
 The generate route handler: a POST-only guard, one chat-completion call
 with model `o3`, and a trimmed (never fence-stripped) parse whose failure is
 a 500 carrying the raw text. A parsed value is returned whatever its shape.
 */
module Generate {
  import opened JsText
  import opened JsValue
  import opened Fences
  import opened Http

  const GenerationFailed: string := "Generation failed"
  const MethodNotAllowed: string := "Method not allowed"

  /** `completion.choices[0].message.content`, every read plain. */
  const ContentPath: seq<Key> := [Name("choices"), Index(0), Name("message"), Name("content")]

  /** The call the handler makes: always model `o3` and temperature 1; the
      request body, including any `model` key in it, only goes into the
      prompt. */
  function GenerateCall(spec: Json): ChatRequest {
    ChatRequest("o3", 1.0, spec)
  }

  /** `completion.choices[0].message.content.trim()`, or `None` for the
      `TypeError` thrown when a step is missing or the content is not a
      string. */
  function TrimmedContent(data: Json): (t: Option<string>)
    ensures t.Some? <==> StrictChain(Some(data), ContentPath).Read? && StrictChain(Some(data), ContentPath).value.Some?
                         && StrictChain(Some(data), ContentPath).value.value.JString?
    ensures t.Some? ==> t.value == Trim(StrictChain(Some(data), ContentPath).value.value.s)
  {
    match StrictChain(Some(data), ContentPath)
    case Read(Some(JString(s))) => Some(Trim(s))
    case _ => None
  }

  /** The message of the error thrown when parsing fails. */
  function ParseFailureMessage(parseMessage: string, text: string): string {
    "JSON.parse failed: " + parseMessage + "\nRaw response:\n" + text
  }

  /** The handler. A non-POST request is answered 405 with `Allow: POST` and
      makes no upstream call; every POST makes exactly one call; the response
      is a 200 exactly when the trimmed text parses. */
  function Handler(req: Request, reply: UpstreamReply, parse: JsonParser): (h: Handled)
    ensures req.verb != "POST" <==> h.response.status == 405
    ensures req.verb != "POST" ==>
              h.response.allow == Some(["POST"]) && h.upstream.None? && h.parseInput.None?
    ensures req.verb == "POST" ==> h.upstream == Some(GenerateCall(req.body))
    ensures req.verb == "POST" && reply.UpstreamData? ==> h.parseInput == TrimmedContent(reply.data)
    ensures h.response.status == 200 <==> h.parseInput.Some? && parse(h.parseInput.value).Parsed?
    ensures h.response.status == 200 ==> h.response.body == IdeasBody(parse(h.parseInput.value).value)
    ensures h.response.status !in {200, 405} ==>
              h.response.status == 500 && h.response.body.ErrorBody? && h.response.body.error == GenerationFailed
  {
    if req.verb != "POST" then
      Handled(Response(405, Some(["POST"]), ErrorBody(MethodNotAllowed, None)), None, None)
    else
      var call := Some(GenerateCall(req.body));
      match reply
      case UpstreamThrew(m) => Handled(ServerError(GenerationFailed, DetailMessage(m)), call, None)
      case UpstreamData(data) =>
        match TrimmedContent(data)
        case None => Handled(ServerError(GenerationFailed, DetailTypeError), call, None)
        case Some(text) =>
          match parse(text)
          case Parsed(ideas) => Handled(Response(200, None, IdeasBody(ideas)), call, Some(text))
          case SyntaxError(m) =>
            Handled(ServerError(GenerationFailed, DetailMessage(ParseFailureMessage(m, text))), call, Some(text))
  }

  /** The content reaches the parser trimmed and nothing more: a fence stays
      where it is. */
  lemma ParserSeesTrimmedText(req: Request, data: Json, s: string, parse: JsonParser)
    requires req.verb == "POST"
    requires StrictChain(Some(data), ContentPath) == Read(Some(JString(s)))
    ensures Handler(req, UpstreamData(data), parse).parseInput == Some(Trim(s))
  {
  }

  /** So fenced model output never parses: the reply is a 500 "Generation
      failed" whose `detail` ends with the fenced text. */
  lemma FencedOutputRejected(req: Request, data: Json, s: string, parse: JsonParser)
    requires req.verb == "POST"
    requires StrictChain(Some(data), ContentPath) == Read(Some(JString(s)))
    requires StartsWith(Trim(s), Fence)
    requires RejectsBacktick(parse)
    ensures var h := Handler(req, UpstreamData(data), parse);
            && h.response.status == 500
            && h.response.body.error == GenerationFailed
            && h.response.body.detail.Some?
            && h.response.body.detail.value.DetailMessage?
            && EndsWith(h.response.body.detail.value.message, Trim(s))
  {
    var t := Trim(s);
    assert t[0] == t[..3][0];
    assert parse(t).SyntaxError?;
    var m := ParseFailureMessage(parse(t).message, t);
    assert m[|m| - |t|..] == t;
  }

  /** A text that parses is returned as `ideas` whatever it holds: no length
      check and no field check, so an empty array or a bare number is a 200
      too. */
  lemma ParsedValueReturnedAsIs(req: Request, data: Json, s: string, parse: JsonParser, v: Json)
    requires req.verb == "POST"
    requires StrictChain(Some(data), ContentPath) == Read(Some(JString(s)))
    requires parse(Trim(s)) == Parsed(v)
    ensures Handler(req, UpstreamData(data), parse).response == Response(200, None, IdeasBody(v))
  {
  }

  /** The error message starts with the parse error and ends with the
      quoted text. */
  lemma ParseFailureMessageParts(parseMessage: string, text: string)
    ensures StartsWith(ParseFailureMessage(parseMessage, text), "JSON.parse failed: " + parseMessage)
    ensures EndsWith(ParseFailureMessage(parseMessage, text), "\nRaw response:\n" + text)
  {
    var m := ParseFailureMessage(parseMessage, text);
    var head := "JSON.parse failed: " + parseMessage;
    var tail := "\nRaw response:\n" + text;
    assert m == head + tail;
    assert m[..|head|] == head;
    assert m[|m| - |tail|..] == tail;
  }

  /** A text that does not parse is a 500 "Generation failed" whose `detail`
      names the parse error and then quotes the trimmed text in full. */
  lemma ParseFailureQuotesText(req: Request, data: Json, s: string, parse: JsonParser)
    requires req.verb == "POST"
    requires StrictChain(Some(data), ContentPath) == Read(Some(JString(s)))
    requires parse(Trim(s)).SyntaxError?
    ensures var d := Handler(req, UpstreamData(data), parse).response;
            && d.status == 500
            && d.body == ErrorBody(GenerationFailed, d.body.detail)
            && d.body.detail.Some? && d.body.detail.value.DetailMessage?
            && StartsWith(d.body.detail.value.message, "JSON.parse failed: " + parse(Trim(s)).message)
            && EndsWith(d.body.detail.value.message, "\nRaw response:\n" + Trim(s))
  {
    var t := Trim(s);
    assert TrimmedContent(data) == Some(t);
    var m := ParseFailureMessage(parse(t).message, t);
    assert Handler(req, UpstreamData(data), parse).response == ServerError(GenerationFailed, DetailMessage(m));
    ParseFailureMessageParts(parse(t).message, t);
  }

  /** Every other failure on a POST is a 500 "Generation failed" too: an
      exception from the SDK carries its message. */
  lemma UpstreamExceptionRejected(req: Request, message: string, parse: JsonParser)
    requires req.verb == "POST"
    ensures Handler(req, UpstreamThrew(message), parse).response == ServerError(GenerationFailed, DetailMessage(message))
    ensures Handler(req, UpstreamThrew(message), parse).parseInput.None?
  {
  }

  /** A completion without `choices`, or whose content is `null`, throws a
      `TypeError` that the same catch turns into a 500 "Generation failed";
      so does any content that is not a string. */
  lemma MissingContentRejected(req: Request, data: Json, parse: JsonParser)
    requires req.verb == "POST"
    requires || (data.JObject? && "choices" !in data.fields)
             || StrictChain(Some(data), ContentPath) == Read(Some(JNull))
             || TrimmedContent(data).None?
    ensures Handler(req, UpstreamData(data), parse).response == ServerError(GenerationFailed, DetailTypeError)
    ensures Handler(req, UpstreamData(data), parse).parseInput.None?
  {
    if data.JObject? && "choices" !in data.fields {
      assert Get(Some(data), Name("choices")) == Read(None);
      assert ContentPath[1..] == [Index(0), Name("message"), Name("content")];
    }
  }

  /** A `model` key in the body does not choose the model: whatever it says,
      the call uses `o3`, and the key travels only inside the embedded
      specification. */
  lemma ModelKeyDoesNotChooseModel(req: Request, model: string, reply: UpstreamReply, parse: JsonParser)
    requires req.verb == "POST" && req.body.JObject?
    ensures var tagged := req.(body := JObject(req.body.fields["model" := JString(model)]));
            && Handler(tagged, reply, parse).upstream.value.model == "o3"
            && Handler(tagged, reply, parse).upstream.value.model == Handler(req, reply, parse).upstream.value.model
            && Handler(tagged, reply, parse).upstream.value.embedded.fields["model"] == JString(model)
  {
  }
}
