/**
 The enrich route handler: one chat-completion call, then the reply's text
 is trimmed, fence-stripped and parsed, and a text that does not parse is
 replaced by the request body itself.
 */
module Enrich {
  import opened JsText
  import opened JsValue
  import opened Fences
  import opened Http

  const EnrichmentFailed: string := "Enrichment failed"
  const InvalidEnrichmentResponse: string := "Invalid enrichment response"

  /** The steps after `choices`: `[0]`, `.message`, `.content`. */
  const PathAfterChoices: seq<Key> := [Index(0), Name("message"), Name("content")]

  /** The call the handler makes: model `o3`, temperature 1, a prompt that
      embeds the request body. */
  function EnrichCall(userSpec: Json): ChatRequest {
    ChatRequest("o3", 1.0, userSpec)
  }

  /** `data.choices?.[0]?.message?.content`: the read of `choices` is plain,
      so a `null` reply throws. */
  function ContentOf(data: Json): (r: Read)
    ensures r.Throws? <==> data == JNull
    ensures data.JObject? && "choices" !in data.fields ==> r == Read(None)
  {
    match Get(Some(data), Name("choices"))
    case Throws => Throws
    case Read(choices) => Read(OptionalChain(choices, PathAfterChoices))
  }

  /** The text handed to the parser for a string `content`. */
  function ParserInput(content: string): string {
    StripFences(Trim(content))
  }

  /** The handler. It has no method guard: every request makes the upstream
      call. A reply without content is a 500 without a parse; a reply whose
      content is a string is always a 200, carrying either the parsed text or
      the unchanged request body. */
  function Handler(req: Request, reply: UpstreamReply, parse: JsonParser): (h: Handled)
    ensures h.upstream == Some(EnrichCall(req.body))
    ensures h.response.allow.None?
    ensures h.response.status == 200 || h.response.status == 500
    ensures h.response.status == 200 <==> h.parseInput.Some?
    ensures h.response.status == 200 ==>
              h.response.body == EnrichedBody(match parse(h.parseInput.value)
                                              case Parsed(v) => v
                                              case SyntaxError(_) => req.body)
    ensures h.response.status == 500 ==>
              h.response.body.ErrorBody? &&
              h.response.body.error in {EnrichmentFailed, InvalidEnrichmentResponse}
  {
    var call := Some(EnrichCall(req.body));
    match reply
    case UpstreamThrew(m) => Handled(ServerError(EnrichmentFailed, DetailMessage(m)), call, None)
    case UpstreamData(data) =>
      match ContentOf(data)
      case Throws => Handled(ServerError(EnrichmentFailed, DetailTypeError), call, None)
      case Read(content) =>
        if !Truthy(content) then
          Handled(ServerError(InvalidEnrichmentResponse, DetailData(data)), call, None)
        else
          // `data.choices[0].message.content.trim()` reads the chain again
          // with plain reads; only a string has a `trim` method.
          match StrictChain(Some(data), [Name("choices")] + PathAfterChoices)
          case Read(Some(JString(s))) =>
            var text := ParserInput(s);
            var spec := match parse(text) case Parsed(v) => v case SyntaxError(_) => req.body;
            Handled(Response(200, None, EnrichedBody(spec)), call, Some(text))
          case _ => Handled(ServerError(EnrichmentFailed, DetailTypeError), call, None)
  }

  /** The plain re-read of the content finds the value the optional chain
      found. */
  lemma ReReadFindsContent(data: Json)
    requires ContentOf(data).Read? && Truthy(ContentOf(data).value)
    ensures StrictChain(Some(data), [Name("choices")] + PathAfterChoices) == ContentOf(data)
  {
    var keys := [Name("choices")] + PathAfterChoices;
    assert keys[0] == Name("choices") && keys[1..] == PathAfterChoices;
    var choices := Get(Some(data), Name("choices")).value;
    OptionalChainAgreesWithStrict(choices, PathAfterChoices);
  }

  /** A non-empty string content reaches the parser trimmed and, when it then
      begins with a fence, fence-stripped; otherwise it reaches the parser
      exactly as trimmed. */
  lemma ParserSeesStrippedText(req: Request, data: Json, s: string, parse: JsonParser)
    requires ContentOf(data) == Read(Some(JString(s))) && s != ""
    ensures Handler(req, UpstreamData(data), parse).parseInput == Some(StripFences(Trim(s)))
    ensures !StartsWith(Trim(s), Fence) ==> Handler(req, UpstreamData(data), parse).parseInput == Some(Trim(s))
  {
    ReReadFindsContent(data);
  }

  /** When the text does not parse, the response is a 200 whose
      `enrichedSpec` is the request body, unchanged. */
  lemma ParseFailureFallsBackToBody(req: Request, reply: UpstreamReply, parse: JsonParser)
    requires Handler(req, reply, parse).parseInput.Some?
    requires parse(Handler(req, reply, parse).parseInput.value).SyntaxError?
    ensures Handler(req, reply, parse).response == Response(200, None, EnrichedBody(req.body))
  {
  }

  /** A reply that is not `null` but has no truthy content (no `choices`, an
      empty list, no message, an empty string, ...) is a 500 "Invalid
      enrichment response" carrying the reply, and nothing is parsed. */
  lemma MissingContentRejected(req: Request, data: Json, parse: JsonParser)
    requires data != JNull
    ensures ContentOf(data).Read?
    ensures !Truthy(ContentOf(data).value) <==>
              Handler(req, UpstreamData(data), parse).response.body == ErrorBody(InvalidEnrichmentResponse, Some(DetailData(data)))
    ensures !Truthy(ContentOf(data).value) ==>
              && Handler(req, UpstreamData(data), parse).response.status == 500
              && Handler(req, UpstreamData(data), parse).parseInput.None?
  {
  }

  /** A reply object with no `choices` at all is one such reply. */
  lemma NoChoicesRejected(req: Request, data: Json, parse: JsonParser)
    requires data.JObject? && "choices" !in data.fields
    ensures Handler(req, UpstreamData(data), parse) ==
            Handled(ServerError(InvalidEnrichmentResponse, DetailData(data)), Some(EnrichCall(req.body)), None)
  {
  }

  /** A `null` reply throws on `data.choices`: the catch answers 500
      "Enrichment failed". */
  lemma NullReplyRejected(req: Request, parse: JsonParser)
    ensures Handler(req, UpstreamData(JNull), parse) ==
            Handled(ServerError(EnrichmentFailed, DetailTypeError), Some(EnrichCall(req.body)), None)
  {
  }

  /** An exception from the upstream call is a 500 "Enrichment failed" whose
      `detail` is the exception's message. */
  lemma UpstreamExceptionRejected(req: Request, message: string, parse: JsonParser)
    ensures Handler(req, UpstreamThrew(message), parse).response == ServerError(EnrichmentFailed, DetailMessage(message))
    ensures Handler(req, UpstreamThrew(message), parse).parseInput.None?
  {
  }

  /** A truthy content that is not a string has no `trim` method: the
      `TypeError` lands in the same catch as an upstream exception. */
  lemma NonStringContentRejected(req: Request, data: Json, content: Json, parse: JsonParser)
    requires ContentOf(data) == Read(Some(content))
    requires Truthy(Some(content)) && !content.JString?
    ensures Handler(req, UpstreamData(data), parse).response == ServerError(EnrichmentFailed, DetailTypeError)
    ensures Handler(req, UpstreamData(data), parse).parseInput.None?
  {
    ReReadFindsContent(data);
  }

  /** A JSON text fenced as ```json on its own line recovers the same
      response as the bare text, for any parser that ignores a trailing line
      feed and rejects a leading backtick, as `JSON.parse` does. */
  lemma FencedAndBareAgree(req: Request, fencedReply: Json, bareReply: Json, body: string, parse: JsonParser)
    requires body != [] && Trimmed(body)
    requires ContentOf(fencedReply) == Read(Some(JString(Fence + JsonTag + "\n" + body + "\n" + Fence)))
    requires ContentOf(bareReply) == Read(Some(JString(body)))
    requires parse(body).Parsed?
    requires TrailingNewlineInsignificant(parse) && RejectsBacktick(parse)
    ensures Handler(req, UpstreamData(fencedReply), parse).response == Handler(req, UpstreamData(bareReply), parse).response
  {
    var fenced := Fence + JsonTag + "\n" + body + "\n" + Fence;
    assert fenced[0] == '`' && fenced[|fenced| - 1] == '`';
    TrimKeepsTrimmed(fenced);
    TrimKeepsTrimmed(body);
    FencedJsonBody(body);
    assert parse(body + "\n") == parse(body);
    assert body[0] != '`';
    assert !StartsWith(body, Fence) by {
      assert |body| < 3 || body[..3][0] != Fence[0];
    }
    ParserSeesStrippedText(req, fencedReply, fenced, parse);
    ParserSeesStrippedText(req, bareReply, body, parse);
  }
}
