/**
 The request/response shapes shared by the API route handlers, and what a
 handler run leaves behind besides its response: the upstream model call it
 issued and the text it handed to `JSON.parse`.
 */
module Http {
  import opened JsValue

  datatype Request = Request(verb: string, body: Json)

  /** The `detail` of an error body: the upstream reply itself, an
      exception's message, or the message of a `TypeError` the runtime raised
      (its wording is the engine's and is not modelled). */
  datatype Detail = DetailData(data: Json) | DetailMessage(message: string) | DetailTypeError

  datatype ResponseBody =
    | EnrichedBody(enrichedSpec: Json)
    | IdeasBody(ideas: Json)
    | ErrorBody(error: string, detail: Option<Detail>)

  /** `allow` is the `Allow` header, when one is set. */
  datatype Response = Response(status: int, allow: Option<seq<string>>, body: ResponseBody)

  /** A chat-completion request: the model name, the temperature, and the
      JSON value the prompt embeds (the prompt wording is not modelled). */
  datatype ChatRequest = ChatRequest(model: string, temperature: real, embedded: Json)

  /** What the upstream call produced: the exception it threw (a network
      failure, an unreadable body, an SDK error), or the decoded reply. */
  datatype UpstreamReply = UpstreamThrew(message: string) | UpstreamData(data: Json)

  datatype Handled = Handled(response: Response, upstream: Option<ChatRequest>, parseInput: Option<string>)

  /** Stands in for the engine's wording of a `TypeError` message. */
  const TypeErrorText: string := "TypeError"

  function DetailJson(d: Detail): Json {
    match d
    case DetailData(data) => data
    case DetailMessage(m) => JString(m)
    case DetailTypeError => JString(TypeErrorText)
  }

  /** The JSON a response body is sent as. */
  function BodyJson(b: ResponseBody): (j: Json)
    ensures j.JObject?
    ensures b.EnrichedBody? <==> "enrichedSpec" in j.fields
    ensures b.IdeasBody? <==> "ideas" in j.fields
    ensures b.EnrichedBody? ==> j.fields["enrichedSpec"] == b.enrichedSpec
    ensures b.IdeasBody? ==> j.fields["ideas"] == b.ideas
  {
    match b
    case EnrichedBody(v) => JObject(map["enrichedSpec" := v])
    case IdeasBody(v) => JObject(map["ideas" := v])
    case ErrorBody(e, None) => JObject(map["error" := JString(e)])
    case ErrorBody(e, Some(d)) => JObject(map["error" := JString(e), "detail" := DetailJson(d)])
  }

  function ServerError(error: string, detail: Detail): Response {
    Response(500, None, ErrorBody(error, Some(detail)))
  }
}
