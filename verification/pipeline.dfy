/**
 The page and the two route handlers together: what `handleSubmit` does
 with each response the handlers can send.
 */
module Pipeline {
  import opened JsText
  import opened JsValue
  import opened Fences
  import opened Http
  import Enrich
  import Generate
  import opened Home

  /** An enrich failure does not stop the submission: the page reads no
      `enrichedSpec` from the error body, stores `undefined`, and still asks
      for concepts with a body that holds only the model tag. */
  lemma EnrichErrorStillGenerates(
    s: State, req: Request, reply: UpstreamReply, parse: JsonParser, generateReply: Option<Json>)
    requires Enrich.Handler(req, reply, parse).response.status == 500
    ensures var run := HandleSubmit(s, Some(BodyJson(Enrich.Handler(req, reply, parse).response.body)), generateReply);
            && run.after.enrichedSpec == None
            && |run.requests| == 2
            && run.requests[1].body == JObject(map["model" := JString(TextModel)])
  {
    var body := BodyJson(Enrich.Handler(req, reply, parse).response.body);
    assert "enrichedSpec" !in body.fields;
    var run := HandleSubmit(s, Some(body), generateReply);
    assert GenerateBody(None).fields == map["model" := JString(TextModel)];
  }

  /** A generate failure raises no alert: the page stores `undefined` as its
      ideas and finishes loading as if it had succeeded. */
  lemma GenerateErrorStoresUndefinedIdeas(
    s: State, spec: Json, req: Request, reply: UpstreamReply, parse: JsonParser)
    requires Generate.Handler(req, reply, parse).response.status != 200
    ensures var run := HandleSubmit(s, Some(BodyJson(EnrichedBody(spec))),
                                    Some(BodyJson(Generate.Handler(req, reply, parse).response.body)));
            && run.after.enrichedSpec == Some(spec)
            && run.after.ideas == None
            && run.alert.None?
            && !run.after.loading
  {
    var body := BodyJson(Generate.Handler(req, reply, parse).response.body);
    assert "ideas" !in body.fields;
  }

  /** Two successful responses put their values into the page state
      unchanged, and leave the selection, the details flags and the images
      as they were. */
  lemma SuccessfulSubmission(s: State, spec: Json, ideas: Json)
    ensures var run := HandleSubmit(s, Some(BodyJson(EnrichedBody(spec))), Some(BodyJson(IdeasBody(ideas))));
            && run.after.enrichedSpec == Some(spec)
            && run.after.ideas == Some(ideas)
            && run.alert.None?
            && run.after.selected == s.selected
            && run.after.showDetails == s.showDetails
            && run.after.imageUrls == s.imageUrls
  {
  }

  /** The two handlers read the same content from a reply: a non-empty
      string that enrich finds through its optional chain is what generate
      finds through its plain chain, and generate trims it the same way. */
  lemma HandlersReadSameContent(data: Json, s: string)
    requires Enrich.ContentOf(data) == Read(Some(JString(s))) && s != ""
    ensures StrictChain(Some(data), Generate.ContentPath) == Read(Some(JString(s)))
    ensures Generate.TrimmedContent(data) == Some(Trim(s))
  {
    Enrich.ReReadFindsContent(data);
    assert Generate.ContentPath == [Name("choices")] + Enrich.PathAfterChoices;
  }

  /** The same fenced model output is recovered by enrich and refused by
      generate: enrich parses the body with its trailing line feed, generate
      answers 500. */
  lemma FencedOutputContrast(req: Request, data: Json, body: string, parse: JsonParser)
    requires req.verb == "POST"
    requires body != [] && !IsWhiteSpace(body[0])
    requires Enrich.ContentOf(data) == Read(Some(JString(Fence + JsonTag + "\n" + body + "\n" + Fence)))
    requires RejectsBacktick(parse)
    ensures Enrich.Handler(req, UpstreamData(data), parse).parseInput == Some(body + "\n")
    ensures Generate.Handler(req, UpstreamData(data), parse).response.status == 500
  {
    var fenced := Fence + JsonTag + "\n" + body + "\n" + Fence;
    assert fenced[0] == '`' && fenced[|fenced| - 1] == '`';
    TrimKeepsTrimmed(fenced);
    FencedJsonBody(body);
    Enrich.ParserSeesStrippedText(req, data, fenced, parse);
    HandlersReadSameContent(data, fenced);
    assert fenced[..3] == Fence;
    Generate.FencedOutputRejected(req, data, fenced, parse);
  }
}
