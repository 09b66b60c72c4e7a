/**
 The state of the `Home` page and its handlers: editing the form,
 submitting it through enrich and generate, selecting concepts, expanding
 their details, and visualizing the selection.

 Each `fetch` is an oracle argument. A handler's closures see the state of
 the render that created them, so a handler is a function of that state.
 */
module Home {
  import opened JsValue
  import opened Promises

  /** The names of the form's text areas. */
  const FormFields: set<string> :=
    {"personaDetails", "problemDescription", "frustrations", "jtbds", "workaround", "otherSolutions",
     "metricsToSwitch", "industry", "constraints", "businessGoals", "businessAssets"}

  const DefaultImageModel: string := "dall-e-3"
  const TextModel: string := "o3"

  const SubmitAlert: string := "Error generating ideas. Please try again."
  const EmptySelectionAlert: string := "Please select at least one concept to visualize."
  const VisualizeAlert: string := "Error generating sketches."

  /** The page's state hooks. `enrichedSpec` and `ideas` hold whatever the
      replies carried; `None` is `undefined`. The keys of `selected`,
      `showDetails` and `imageUrls` are concept positions. */
  datatype State = State(
    form: map<string, string>,
    enrichedSpec: Value,
    ideas: Value,
    loading: bool,
    selected: set<nat>,
    showDetails: map<nat, bool>,
    imageModel: string,
    imageUrls: map<nat, string>,
    vizLoading: bool)

  /** The first render: `enrichedSpec` is `null` and `ideas` is `[]`. The
      default form texts are an argument. */
  function Initial(defaultForm: map<string, string>): (s: State)
    requires defaultForm.Keys == FormFields
    ensures s.selected == {} && s.imageUrls == map[] && !s.loading && !s.vizLoading
    ensures s.ideas == Some(JArray([])) && s.enrichedSpec == Some(JNull)
    ensures s.form == defaultForm && s.showDetails == map[] && s.imageModel == DefaultImageModel
  {
    State(defaultForm, Some(JNull), Some(JArray([])), false, {}, map[], DefaultImageModel, map[], false)
  }

  // ---------------------------------------------------------------- handleChange

  /** `setForm({ ...form, [name]: value })`: the named field takes the new
      value, every other field keeps its value, and nothing else changes. */
  function HandleChange(s: State, name: string, value: string): (t: State)
    ensures t.form.Keys == s.form.Keys + {name}
    ensures t.form[name] == value
    ensures forall k :: k in s.form && k != name ==> t.form[k] == s.form[k]
    ensures t.(form := s.form) == s
  {
    s.(form := s.form[name := value])
  }

  /** Edits of two different fields do not interfere. */
  lemma ChangesOfDistinctFieldsCommute(s: State, a: string, x: string, b: string, y: string)
    requires a != b
    ensures HandleChange(HandleChange(s, a, x), b, y) == HandleChange(HandleChange(s, b, y), a, x)
  {
  }

  /** The last edit of a field wins. */
  lemma LastChangeWins(s: State, a: string, x: string, y: string)
    ensures HandleChange(HandleChange(s, a, x), a, y) == HandleChange(s, a, y)
  {
  }

  // ---------------------------------------------------------------- toggleSelect

  /** `toggleSelect(i)`: `i` joins the selection when it is out and leaves
      it when it is in; no other position and nothing else changes. */
  function ToggleSelect(s: State, i: nat): (t: State)
    ensures i in t.selected <==> i !in s.selected
    ensures forall j :: j != i ==> (j in t.selected <==> j in s.selected)
    ensures t.(selected := s.selected) == s
  {
    s.(selected := if i in s.selected then s.selected - {i} else s.selected + {i})
  }

  lemma ToggleSelectTwice(s: State, i: nat)
    ensures ToggleSelect(ToggleSelect(s, i), i) == s
  {
    var t := ToggleSelect(ToggleSelect(s, i), i);
    assert t.selected == s.selected;
  }

  // ---------------------------------------------------------------- toggleDetails

  /** `showDetails[i]` read as a boolean: an absent entry is `undefined`,
      which is falsy. */
  predicate DetailsShown(m: map<nat, bool>, i: nat) {
    i in m && m[i]
  }

  /** `toggleDetails(i)`: the entry for `i` becomes the negation of what was
      shown, and every other entry, present or absent, is left alone. */
  function ToggleDetails(s: State, i: nat): (t: State)
    ensures i in t.showDetails && t.showDetails[i] == !DetailsShown(s.showDetails, i)
    ensures forall j :: j != i ==> (j in t.showDetails <==> j in s.showDetails)
    ensures forall j :: j != i && j in s.showDetails ==> t.showDetails[j] == s.showDetails[j]
    ensures t.(showDetails := s.showDetails) == s
  {
    s.(showDetails := s.showDetails[i := !DetailsShown(s.showDetails, i)])
  }

  /** Toggling twice shows what was shown before, for every position (an
      absent entry comes back as an explicit `false`). */
  lemma ToggleDetailsTwice(s: State, i: nat, j: nat)
    ensures DetailsShown(ToggleDetails(ToggleDetails(s, i), i).showDetails, j) == DetailsShown(s.showDetails, j)
  {
  }

  // ---------------------------------------------------------------- handleSubmit

  datatype ClientRequest = ClientRequest(path: string, body: Json)

  function FormJson(form: map<string, string>): Json {
    JObject(map k | k in form :: JString(form[k]))
  }

  /** `{ ...enrichedSpec, model: 'o3' }` */
  function GenerateBody(spec: Value): (j: Json)
    ensures j.JObject? && "model" in j.fields && j.fields["model"] == JString(TextModel)
    ensures forall k :: k != "model" ==> (k in j.fields <==> k in SpreadFields(spec))
    ensures forall k :: k != "model" && k in SpreadFields(spec) ==> j.fields[k] == SpreadFields(spec)[k]
  {
    JObject(SpreadFields(spec)["model" := JString(TextModel)])
  }

  /** `const { field } = await res.json()`: destructuring `null` throws. */
  function Destructure(body: Json, field: string): Read {
    Get(Some(body), Name(field))
  }

  /** A run of `handleSubmit`: the state while the requests are out, the
      state when it is over, the requests sent, and the alert shown. */
  datatype SubmitRun = SubmitRun(during: State, after: State, requests: seq<ClientRequest>, alert: Option<string>)

  function Abandon(during: State, reached: State, requests: seq<ClientRequest>): SubmitRun {
    SubmitRun(during, reached.(loading := false), requests, Some(SubmitAlert))
  }

  /** `handleSubmit`. Each reply is the decoded body of the response, or
      `None` when `fetch` or `json()` rejects. The status of a response is
      never looked at: an error body simply lacks the field being read. */
  function HandleSubmit(s: State, enrichReply: Option<Json>, generateReply: Option<Json>): (run: SubmitRun)
    ensures run.during == s.(loading := true)
    ensures !run.after.loading
    ensures run.after.(enrichedSpec := s.enrichedSpec, ideas := s.ideas, loading := s.loading) == s
    ensures 1 <= |run.requests| <= 2
    ensures |run.requests| == 2 <==> enrichReply.Some? && enrichReply.value != JNull
    ensures run.requests[0] == ClientRequest("/api/enrich", FormJson(s.form))
    ensures |run.requests| == 2 ==> run.requests[1] == ClientRequest("/api/generate", GenerateBody(run.after.enrichedSpec))
    ensures run.alert.Some? ==> run.alert == Some(SubmitAlert)
    ensures run.alert.None? <==>
              && enrichReply.Some? && enrichReply.value != JNull
              && generateReply.Some? && generateReply.value != JNull
    ensures enrichReply.None? || enrichReply.value == JNull ==>
              run.after.enrichedSpec == s.enrichedSpec && run.after.ideas == s.ideas
    ensures enrichReply.Some? && enrichReply.value != JNull ==>
              run.after.enrichedSpec == Member(enrichReply.value, Name("enrichedSpec"))
    ensures enrichReply.Some? && enrichReply.value != JNull && (generateReply.None? || generateReply.value == JNull) ==>
              run.after.ideas == s.ideas
    ensures enrichReply.Some? && enrichReply.value != JNull && generateReply.Some? && generateReply.value != JNull ==>
              run.after.ideas == Member(generateReply.value, Name("ideas"))
  {
    var during := s.(loading := true);
    var enrichRequest := ClientRequest("/api/enrich", FormJson(s.form));
    match enrichReply
    case None => Abandon(during, during, [enrichRequest])
    case Some(body) =>
      match Destructure(body, "enrichedSpec")
      case Throws => Abandon(during, during, [enrichRequest])
      case Read(spec) =>
        var enriched := during.(enrichedSpec := spec);
        var requests := [enrichRequest, ClientRequest("/api/generate", GenerateBody(spec))];
        match generateReply
        case None => Abandon(during, enriched, requests)
        case Some(reply) =>
          match Destructure(reply, "ideas")
          case Throws => Abandon(during, enriched, requests)
          case Read(ideas) => SubmitRun(during, enriched.(ideas := ideas, loading := false), requests, None)
  }

  // ---------------------------------------------------------------- handleVisualize

  /** The body of one visualize request, before `JSON.stringify` drops its
      `undefined` members. */
  datatype VizPayload = VizPayload(
    title: Value, description: Value, problem: Option<string>, personaDetails: Value, model: string)

  /** The reply to one visualize request: a rejected `fetch` or `json()`, a
      response that is not ok (its text becomes the error), or an ok
      response carrying `imageUrl`. */
  datatype VizReply = VizFailed(message: string) | VizNotOk(text: string) | VizOk(imageUrl: string)

  datatype Thrown = TypeError | Error(message: string)

  /** `ideas[idx]`, or `Throws` when `ideas` is `undefined` or `null`. */
  function ConceptAt(s: State, idx: nat): Read {
    Get(s.ideas, Index(idx))
  }

  /** The synchronous part of one task: the payload, or `None` for the
      `TypeError` thrown by `concept.title` on a missing concept or by
      `enrichedSpec.personaDetails` on a missing specification. */
  function BuildPayload(s: State, idx: nat): (p: Option<VizPayload>)
    ensures p.Some? <==> ConceptAt(s, idx).Read? && !Nullish(ConceptAt(s, idx).value) && !Nullish(s.enrichedSpec)
    ensures p.Some? ==>
              var concept := ConceptAt(s, idx).value.value;
              && p.value.title == Member(concept, Name("title"))
              && p.value.description == Member(concept, Name("description"))
              && p.value.problem == (if "problemDescription" in s.form then Some(s.form["problemDescription"]) else None)
              && p.value.personaDetails == Member(s.enrichedSpec.value, Name("personaDetails"))
              && p.value.model == s.imageModel
  {
    match ConceptAt(s, idx)
    case Throws => None
    case Read(concept) =>
      if Nullish(concept) || Nullish(s.enrichedSpec) then None
      else
        Some(VizPayload(
          Member(concept.value, Name("title")),
          Member(concept.value, Name("description")),
          if "problemDescription" in s.form then Some(s.form["problemDescription"]) else None,
          Member(s.enrichedSpec.value, Name("personaDetails")),
          s.imageModel))
  }

  /** One task of the batch: its result `{ idx, imageUrl }`, or the error it
      rejects with. */
  function RunTask(s: State, idx: nat, reply: VizReply): (o: Settled<(nat, string), Thrown>)
    ensures o.Fulfilled? <==> BuildPayload(s, idx).Some? && reply.VizOk?
    ensures o.Fulfilled? ==> o.value == (idx, reply.imageUrl)
  {
    match BuildPayload(s, idx)
    case None => Rejected(TypeError)
    case Some(_) =>
      match reply
      case VizFailed(m) => Rejected(Error(m))
      case VizNotOk(text) => Rejected(Error(text))
      case VizOk(url) => Fulfilled((idx, url))
  }

  /** `order` is `Array.from(selected)`: every selected position once. */
  predicate Enumerates(order: seq<nat>, selected: set<nat>) {
    && (forall k, l :: 0 <= k < l < |order| ==> order[k] != order[l])
    && (forall k :: 0 <= k < |order| ==> order[k] in selected)
    && (forall i :: i in selected ==> i in order)
  }

  function Tasks(s: State, order: seq<nat>, replies: nat -> VizReply): (ts: seq<Settled<(nat, string), Thrown>>)
    ensures |ts| == |order|
    ensures forall k :: 0 <= k < |order| ==> (ts[k].Fulfilled? <==> TaskSucceeds(s, order[k], replies))
    ensures forall k :: 0 <= k < |order| && ts[k].Fulfilled? ==>
              replies(order[k]).VizOk? && ts[k].value == (order[k], replies(order[k]).imageUrl)
  {
    seq(|order|, k requires 0 <= k < |order| => RunTask(s, order[k], replies(order[k])))
  }

  /** The requests actually sent, in dispatch order: a task whose payload
      throws sends nothing. */
  function Requests(s: State, order: seq<nat>): (rs: seq<(nat, VizPayload)>)
    ensures |rs| <= |order|
    ensures forall k :: 0 <= k < |rs| ==> rs[k].0 in order && BuildPayload(s, rs[k].0) == Some(rs[k].1)
    ensures (forall k :: 0 <= k < |order| ==> BuildPayload(s, order[k]).Some?) ==>
              |rs| == |order| && forall k :: 0 <= k < |order| ==> rs[k].0 == order[k]
    ensures forall k :: 0 <= k < |order| && BuildPayload(s, order[k]).Some? ==>
              (order[k], BuildPayload(s, order[k]).value) in rs
    decreases |order|
  {
    if order == [] then []
    else
      var rest := Requests(s, order[1..]);
      assert forall k :: 1 <= k < |order| ==> order[k] == order[1..][k - 1];
      assert forall k :: 0 <= k < |rest| ==> rest[k].0 in order by {
        forall k | 0 <= k < |rest| ensures rest[k].0 in order {
          assert rest[k].0 in order[1..];
        }
      }
      match BuildPayload(s, order[0])
      case None => rest
      case Some(p) => [(order[0], p)] + rest
  }

  /** `.map` starts each task once: over a dispatch order without repeats, no
      position sends two requests. */
  lemma {:induction false} RequestsSentOnce(s: State, order: seq<nat>)
    requires forall k, l :: 0 <= k < l < |order| ==> order[k] != order[l]
    ensures forall k, l :: 0 <= k < l < |Requests(s, order)| ==> Requests(s, order)[k].0 != Requests(s, order)[l].0
    decreases |order|
  {
    if order != [] {
      var tail := order[1..];
      assert forall k :: 0 <= k < |tail| ==> tail[k] == order[k + 1];
      RequestsSentOnce(s, tail);
      var rest := Requests(s, tail);
      assert forall k :: 0 <= k < |rest| ==> rest[k].0 in tail;
      assert order[0] !in tail;
    }
  }

  /** What settling the batch does to the state current at that time: only
      `imageUrls` (on success) and `vizLoading` are written. */
  function Settle(current: State, outcome: Settled<seq<(nat, string)>, Thrown>): (t: State)
    ensures !t.vizLoading
    ensures t.(imageUrls := current.imageUrls, vizLoading := current.vizLoading) == current
    ensures outcome.Fulfilled? ==> t.imageUrls == FromEntries(outcome.value)
    ensures outcome.Rejected? ==> t.imageUrls == current.imageUrls
  {
    match outcome
    case Fulfilled(results) => current.(imageUrls := FromEntries(results), vizLoading := false)
    case Rejected(_) => current.(vizLoading := false)
  }

  /** A run of `handleVisualize`: the state once the batch is dispatched
      (`None` when nothing was), the state once it settles, the requests
      sent, and the alert shown. */
  datatype VizRun = VizRun(dispatched: Option<State>, after: State, requests: seq<(nat, VizPayload)>, alert: Option<string>)

  /** `handleVisualize`, with `replies(i)` the reply to position `i`'s request
      and `arrival` the order in which the tasks settle. */
  function HandleVisualize(s: State, order: seq<nat>, replies: nat -> VizReply, arrival: seq<nat>): (run: VizRun)
    requires Enumerates(order, s.selected)
    requires IsArrivalOrder(arrival, |order|)
    ensures s.selected == {} <==> run.dispatched.None?
    ensures s.selected == {} ==> run.after == s && run.requests == [] && run.alert == Some(EmptySelectionAlert)
    ensures s.selected != {} ==> run.dispatched == Some(s.(vizLoading := true, imageUrls := map[]))
    ensures s.selected != {} ==> !run.after.vizLoading
    ensures s.selected != {} ==> run.requests == Requests(s, order)
    ensures s.selected != {} ==> run.after.(imageUrls := s.imageUrls, vizLoading := s.vizLoading) == s
    ensures s.selected != {} ==> (run.alert.None? <==> forall i :: i in s.selected ==> TaskSucceeds(s, i, replies))
    ensures s.selected != {} && run.alert.Some? ==>
              run.alert == Some(VisualizeAlert) && run.after == s.(imageUrls := map[], vizLoading := false)
  {
    if |s.selected| == 0 then
      VizRun(None, s, [], Some(EmptySelectionAlert))
    else
      var dispatched := s.(vizLoading := true, imageUrls := map[]);
      var tasks := Tasks(s, order, replies);
      var outcome := All(tasks, arrival);
      assert (forall i :: i in s.selected ==> TaskSucceeds(s, i, replies))
         <==> (forall k :: 0 <= k < |tasks| ==> tasks[k].Fulfilled?) by {
        if forall k :: 0 <= k < |tasks| ==> tasks[k].Fulfilled? {
          forall i | i in s.selected ensures TaskSucceeds(s, i, replies) {
            var k :| 0 <= k < |order| && order[k] == i;
            assert tasks[k].Fulfilled?;
          }
        }
      }
      VizRun(Some(dispatched), Settle(dispatched, outcome), Requests(s, order),
             if outcome.Rejected? then Some(VisualizeAlert) else None)
  }

  /** A task succeeds exactly when its payload can be built and its request
      gets an ok reply. */
  predicate TaskSucceeds(s: State, i: nat, replies: nat -> VizReply) {
    BuildPayload(s, i).Some? && replies(i).VizOk?
  }

  /** When every task succeeds, `imageUrls` has exactly the selected
      positions as keys, each holding the URL returned for it, whatever the
      order in which the replies arrived. */
  lemma AllSucceedKeyedByPosition(s: State, order: seq<nat>, replies: nat -> VizReply, arrival: seq<nat>)
    requires Enumerates(order, s.selected) && IsArrivalOrder(arrival, |order|)
    requires s.selected != {}
    requires forall i :: i in s.selected ==> TaskSucceeds(s, i, replies)
    ensures var run := HandleVisualize(s, order, replies, arrival);
            && run.after.imageUrls.Keys == s.selected
            && (forall i :: i in s.selected ==> run.after.imageUrls[i] == replies(i).imageUrl)
            && !run.after.vizLoading
            && run.alert.None?
            && |run.requests| == |order|
  {
    var results := BatchResults(s, order, replies, arrival);
    var m := FromEntries(results);
    FromEntriesOfDistinctKeys(order, results);
    assert m.Keys == s.selected;
    forall i | i in s.selected ensures m[i] == replies(i).imageUrl {
      assert i in order;
      var k :| 0 <= k < |order| && order[k] == i;
    }
    forall k | 0 <= k < |order| ensures BuildPayload(s, order[k]).Some? {
      assert TaskSucceeds(s, order[k], replies);
    }
  }

  /** When every task succeeds the batch fulfils, with one result per
      position of `order`, in that order. */
  lemma BatchResults(s: State, order: seq<nat>, replies: nat -> VizReply, arrival: seq<nat>)
    returns (results: seq<(nat, string)>)
    requires Enumerates(order, s.selected) && IsArrivalOrder(arrival, |order|)
    requires forall i :: i in s.selected ==> TaskSucceeds(s, i, replies)
    ensures All(Tasks(s, order, replies), arrival) == Fulfilled(results)
    ensures |results| == |order|
    ensures forall k :: 0 <= k < |order| ==> results[k] == (order[k], replies(order[k]).imageUrl)
  {
    var tasks := Tasks(s, order, replies);
    forall k | 0 <= k < |order| ensures tasks[k] == Fulfilled((order[k], replies(order[k]).imageUrl)) {
      assert TaskSucceeds(s, order[k], replies);
    }
    results := All(tasks, arrival).value;
  }

  /** If any single task fails, the whole batch is dropped: `imageUrls`
      stays as cleared at dispatch, `vizLoading` is back to false, and the
      alert is shown. */
  lemma AnyFailureDropsBatch(s: State, order: seq<nat>, replies: nat -> VizReply, arrival: seq<nat>, bad: nat)
    requires Enumerates(order, s.selected) && IsArrivalOrder(arrival, |order|)
    requires bad in s.selected && !TaskSucceeds(s, bad, replies)
    ensures var run := HandleVisualize(s, order, replies, arrival);
            && run.after == s.(imageUrls := map[], vizLoading := false)
            && run.alert == Some(VisualizeAlert)
  {
    assert bad in order;
    var k :| 0 <= k < |order| && order[k] == bad;
    assert Tasks(s, order, replies)[k].Rejected?;
  }

  /** The arrival order is never observable in the final state. */
  lemma ArrivalOrderUnobservable(s: State, order: seq<nat>, replies: nat -> VizReply, a1: seq<nat>, a2: seq<nat>)
    requires Enumerates(order, s.selected) && IsArrivalOrder(a1, |order|) && IsArrivalOrder(a2, |order|)
    ensures HandleVisualize(s, order, replies, a1) == HandleVisualize(s, order, replies, a2)
  {
    AllIgnoresArrivalOrder(Tasks(s, order, replies), a1, a2);
  }

  /** The selection is not cleared when new ideas arrive, so a position kept
      from a longer batch reads an `undefined` concept, throws, and sinks
      the whole visualization. */
  lemma StaleSelectionSinksBatch(s: State, order: seq<nat>, replies: nat -> VizReply, arrival: seq<nat>, i: nat)
    requires Enumerates(order, s.selected) && IsArrivalOrder(arrival, |order|)
    requires s.ideas.Some? && s.ideas.value.JArray? && i in s.selected && i >= |s.ideas.value.items|
    ensures HandleVisualize(s, order, replies, arrival).after.imageUrls == map[]
  {
    AnyFailureDropsBatch(s, order, replies, arrival, i);
  }

  /** Without an enriched specification every task throws on
      `enrichedSpec.personaDetails`, so no visualization can succeed. */
  lemma MissingSpecSinksBatch(s: State, order: seq<nat>, replies: nat -> VizReply, arrival: seq<nat>)
    requires Enumerates(order, s.selected) && IsArrivalOrder(arrival, |order|)
    requires Nullish(s.enrichedSpec) && s.selected != {}
    ensures HandleVisualize(s, order, replies, arrival).after.imageUrls == map[]
    ensures HandleVisualize(s, order, replies, arrival).alert == Some(VisualizeAlert)
  {
    var i :| i in s.selected;
    AnyFailureDropsBatch(s, order, replies, arrival, i);
  }

  /** `handleSubmit` never resets the selection, the details flags or the
      images, so a batch that settles after a new submission still writes
      its images over the new concepts: there is no batch token. */
  lemma LateBatchLandsAfterResubmit(
    dispatched: State, enrichReply: Option<Json>, generateReply: Option<Json>, results: seq<(nat, string)>)
    ensures var resubmitted := HandleSubmit(dispatched, enrichReply, generateReply).after;
            && resubmitted.selected == dispatched.selected
            && Settle(resubmitted, Fulfilled(results)).imageUrls == FromEntries(results)
            && Settle(resubmitted, Fulfilled(results)).ideas == resubmitted.ideas
  {
  }
}
