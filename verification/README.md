# Sacrificial concept generator: a Dafny model of its request pipeline

The application is a Next.js front end over chat-completion and image calls.
A product-discovery form is sent to an **enrich** route. That route asks the
text model to expand each field, then trims, fence-strips and parses the
reply. If the reply does not parse, the route falls back to the form itself.
The enriched specification then goes to a **generate** route. That route
accepts only POST, always uses model `o3`, and parses the trimmed reply
without removing fences. A parse failure there is a 500 that quotes the raw
text. The page keeps a selection of concept positions and a per-position
"details" flag. It sends one visualize request at once for each
selected position whose payload can be built, and collects the image URLs keyed by position with `Promise.all`,
where one failure loses the whole batch.

The project models these pieces:

- `js_text.dfy` (`JsText`): `String.prototype.trim`, and the whitespace
  class that `trim` and the regular-expression `\s` share.
- `js_value.dfy` (`JsValue`): JSON values, `undefined`, truthiness,
  plain and optional-chained property reads, object spread, and
  `JSON.parse` as an abstract parser argument.
- `fences.dfy` (`Fences`): the two regular-expression replacements of the
  enrich route.
- `http.dfy` (`Http`): requests, responses, upstream replies, and what a
  handler run leaves behind. That is its response, the upstream call it
  made (if any), and the text it parsed (if any).
- `enrich.dfy` (`Enrich`) and `generate.dfy` (`Generate`): the two route
  handlers.
- `promises.dfy` (`Promises`): `Promise.all` as a fold over settlements
  that arrive in any order, and `Object.fromEntries`.
- `home.dfy` (`Home`): the page state and the handlers `handleChange`,
  `handleSubmit`, `toggleSelect`, `toggleDetails` and `handleVisualize`.
- `pipeline.dfy` (`Pipeline`): what the page does with each response the
  routes can send.

Upstream calls, `fetch` replies and the parser are arguments. Each handler
contract holds for every reply and every parser. Each lemma holds for every
reply that meets its stated condition, such as "the content read from the
reply is the string `s`". Any other fields of the reply are unconstrained. A few lemmas also need a
parser that behaves as `JSON.parse` does on two points: a trailing line feed
is insignificant, and no JSON text begins with a backtick.

The code behaves as follows where a reader might expect otherwise:

- Only text that begins with a fence after trimming is fence-stripped. Prose
  before a fence stays and reaches the parser
  (`Fences.LeadingProseNotRemoved`).
- When the enrich reply does not parse, the result is a 200 carrying the
  request body, not a 500.
- The enrich route has no method guard.
- No length of 25 and no field shape is checked on generated concepts.
- `Promise.all` fails fast. There are no per-item failure entries.
- The selection is not cleared on a new submission, and there is no batch
  token. A late batch writes its images over the new state.
- Treating "none"-like fields specially appears only in the prompt text.
- `handleSubmit` never looks at a response status.
  - An enrich 500 stores `undefined` and still calls generate with
    `{"model": "o3"}`.
  - A generate 500 stores `undefined` ideas and raises no alert.

## Model

| member | source | states |
|---|---|---|
| JsText.Trim | pages/api/enrich.js:39 | the result is the slice of the input between two all-whitespace ends, and neither end of the result is whitespace |
| JsText.TrimOfPadded | pages/api/enrich.js:39 | trim is fully determined: whitespace, then a trimmed core, then whitespace, always trims to that core |
| JsText.TrimKeepsTrimmed | pages/api/generate.js:45 | a text with no whitespace at either end is returned unchanged by trim |
| JsText.TrimIdempotent | pages/api/generate.js:45 | trimming twice is trimming once |
| JsValue.Truthy | pages/api/enrich.js:33 | `undefined` and `null` are falsy, and every array and object is truthy, even an empty one |
| JsValue.SpreadFields | pages/index.js:81 | spreading an object copies exactly its fields; spreading `undefined` or `null` copies nothing |
| JsValue.OptionalChainAgreesWithStrict | pages/api/enrich.js:33-39 | when an optional chain yields a non-nullish value, the same chain with plain reads yields that value and does not throw |
| Fences.StripLeadingFence | pages/api/enrich.js:41 | the removed prefix is the fence, then the greedily taken lower-case `json` tag, then only whitespace, and what is left does not begin with whitespace; without an opening fence nothing is removed |
| Fences.StripFences | pages/api/enrich.js:39-42 | text that does not begin with three backticks is returned unchanged; the result is always a contiguous substring of the trimmed content |
| Fences.StripTrailingFence | pages/api/enrich.js:41 | a text ending in a fence loses exactly that one fence; any other text is unchanged |
| Fences.JsonTagRemoved | pages/api/enrich.js:41 | fence, lower-case `json` tag and all following whitespace are removed, leaving the body from its first non-whitespace character |
| Fences.UpperCaseTagKept | pages/api/enrich.js:41 | an upper-case `JSON` tag is not removed, only the fence before it |
| Fences.TrailingFenceAtMostOnce | pages/api/enrich.js:41 | the input is the result plus nothing or plus exactly one fence, and something is removed exactly when the input ends with a fence |
| Fences.DoubleClosingFenceLosesOne | pages/api/enrich.js:41 | of two closing fences at the end, only the last is removed |
| Fences.WhiteSpaceBeforeClosingFenceKept | pages/api/enrich.js:41 | whitespace before the closing fence stays in the result |
| Fences.FencedJsonBody | pages/api/enrich.js:40-41 | a body whose first character is not whitespace, fenced as ```json on its own lines, strips to the body followed by one line feed |
| Fences.LeadingProseNotRemoved | pages/api/enrich.js:39-42 | "Here is your answer:" before a fenced array leaves the whole text unchanged |
| Http.BodyJson | pages/api/enrich.js:52 | an `enrichedSpec` or `ideas` member is present in the sent JSON exactly for the matching success body, and holds its value |
| Enrich.ContentOf | pages/api/enrich.js:33 | the read throws exactly for a `null` reply; an object reply without `choices` reads `undefined` |
| Enrich.Handler | pages/api/enrich.js:2-57 | every request, whatever its method, makes one `o3` call embedding the body; the status is 200 or 500; 200 exactly when a text was parsed, and then the body is the parsed value or, on a parse failure, the request body; a 500 is "Enrichment failed" or "Invalid enrichment response" |
| Enrich.ReReadFindsContent | pages/api/enrich.js:33-39 | the plain re-read `data.choices[0].message.content` finds the truthy content the optional chain found |
| Enrich.ParserSeesStrippedText | pages/api/enrich.js:39-46 | a non-empty string content reaches the parser as its trimmed, fence-stripped text, and as exactly its trimmed text when that does not begin with a fence |
| Enrich.ParseFailureFallsBackToBody | pages/api/enrich.js:44-52 | when the parsed text fails to parse, the response is 200 with `enrichedSpec` identical to the request body |
| Enrich.MissingContentRejected | pages/api/enrich.js:33-36 | for a non-null reply, a missing or falsy content is exactly the case answered 500 "Invalid enrichment response" with the reply as detail, and then nothing is parsed |
| Enrich.NoChoicesRejected | pages/api/enrich.js:33-36 | any reply object without `choices` gets that 500 carrying the reply, after one upstream call and with no parse |
| Enrich.NullReplyRejected | pages/api/enrich.js:33-56 | a `null` reply throws on `data.choices`, which is a 500 "Enrichment failed" with no parse |
| Enrich.UpstreamExceptionRejected | pages/api/enrich.js:53-56 | an exception from the upstream call is a 500 "Enrichment failed" whose detail is the exception message, and nothing is parsed |
| Enrich.NonStringContentRejected | pages/api/enrich.js:39-56 | for any reply whose content is truthy but not a string, `trim` is missing, and the resulting TypeError is a 500 "Enrichment failed" with no parse |
| Enrich.FencedAndBareAgree | pages/api/enrich.js:39-52 | for a parser with `JSON.parse`'s two stated properties and a non-empty trimmed body that parses, a reply whose content is that body fenced as ```json gets the same response as a reply whose content is the bare body |
| Generate.Handler | pages/api/generate.js:9-71 | non-POST is exactly the 405 case, with `Allow: POST`, no upstream call and no parse; a POST makes one `o3` call embedding the body; a reply's text reaches the parser exactly when its plain chain `choices[0].message.content` is a string, and it arrives trimmed; the status is 200 exactly when that text parses, with `ideas` the parsed value; any other status is a 500 "Generation failed" |
| Generate.ParserSeesTrimmedText | pages/api/generate.js:45-53 | for any reply whose content is a string, the parser gets that string trimmed and not fence-stripped |
| Generate.FencedOutputRejected | pages/api/generate.js:45-69 | for a parser that rejects a leading backtick, any reply whose trimmed content begins with a fence is a 500 "Generation failed" whose detail ends with the trimmed text |
| Generate.ParsedValueReturnedAsIs | pages/api/generate.js:52-62 | for any reply whose trimmed content parses to a value, of any length or shape, the response is a 200 with exactly that value as `ideas` |
| Generate.ParseFailureQuotesText | pages/api/generate.js:54-69 | for any reply whose trimmed content fails to parse, the response is a 500 "Generation failed" whose detail starts with the parse error and ends with the raw trimmed text |
| Generate.UpstreamExceptionRejected | pages/api/generate.js:63-69 | an SDK exception on a POST is a 500 "Generation failed" carrying its message, and nothing is parsed |
| Generate.MissingContentRejected | pages/api/generate.js:45-69 | any reply object without `choices`, or whose content is `null` or not a string, throws a TypeError answered 500 "Generation failed" with no parse |
| Generate.ModelKeyDoesNotChooseModel | pages/api/generate.js:16-38 | setting `model` in the body leaves the called model `o3`; the key appears only in the embedded specification |
| Promises.Fold | pages/index.js:112-130 | while every arrival so far is a fulfilment, the state holds exactly the arrived positions with their values; otherwise it holds the reason of the first rejection to arrive |
| Promises.All | pages/index.js:112-130 | fulfilled exactly when every task fulfils, with the values in input order; otherwise rejected with the first rejection in arrival order |
| Promises.AllIgnoresArrivalOrder | pages/index.js:112-130 | two arrival orders agree on fulfilment and, when fulfilled, on the values |
| Promises.FromEntries | pages/index.js:131 | the keys are exactly the entries' keys, and each key holds the value of its last entry |
| Promises.FromEntriesOfDistinctKeys | pages/index.js:131 | with distinct positions as keys, the map has exactly those keys, each holding its own entry's value |
| Home.Initial | pages/index.js:46-58 | the first render holds the default form, a `null` specification, `[]` as ideas, no selection, no details flags, image model "dall-e-3", no images and no loading |
| Home.HandleChange | pages/index.js:60-62 | the named field takes the new value, every other field keeps its value, and no other state changes |
| Home.ChangesOfDistinctFieldsCommute | pages/index.js:60-62 | edits of two different fields commute |
| Home.LastChangeWins | pages/index.js:60-62 | a second edit of a field overrides the first |
| Home.ToggleSelect | pages/index.js:93-97 | the membership of `i` flips, every other position keeps its membership, and no other state changes |
| Home.ToggleSelectTwice | pages/index.js:93-97 | toggling the same position twice restores the original state |
| Home.ToggleDetails | pages/index.js:99-101 | the entry for `i` becomes the negation of what was shown, an absent entry counting as false; every other key is unchanged |
| Home.ToggleDetailsTwice | pages/index.js:99-101 | toggling twice shows, at every position, what was shown before |
| Home.GenerateBody | pages/index.js:81 | the generate body has `model` = "o3" and otherwise exactly the spread keys of the enriched specification |
| Home.HandleSubmit | pages/index.js:64-91 | loading is true while the requests are out and false afterwards on every path; selection, details flags, images and form are never touched; the alert appears exactly when a reply is unreadable or null; the generate request is sent exactly after a readable, non-null enrich reply; a readable enrich reply stores its `enrichedSpec` member (possibly `undefined`), and an unreadable one keeps the old specification and ideas; after a readable enrich reply, a readable generate reply stores its `ideas` member, and an unreadable one keeps the previous ideas beside the new specification |
| Home.RunTask | pages/index.js:113-129 | a task fulfils exactly when its payload builds and its reply is ok, with the result `(idx, imageUrl)` |
| Home.Tasks | pages/index.js:112-129 | one task per position of `Array.from(selected)`; a task fulfils exactly when its payload builds and its reply is ok, and then it fulfils with `(position, imageUrl)` |
| Home.Requests | pages/index.js:113-125 | every request sent is for a dispatched position with its built payload; every position whose payload builds sends its request, even when other payloads throw; when all payloads build, one request goes out per position, in dispatch order |
| Home.RequestsSentOnce | pages/index.js:113-125 | over a dispatch order without repeats, no position sends two requests |
| Home.Settle | pages/index.js:131-137 | settling writes only `imageUrls` (on success, from the results) and `vizLoading` (false) over the state current at that time |
| Home.HandleVisualize | pages/index.js:103-138 | an empty selection sends nothing, changes nothing and alerts; otherwise `imageUrls` is cleared before dispatch, the built requests are sent, `vizLoading` ends false, and no alert is shown exactly when every selected task succeeds; on an alert, `imageUrls` stays empty and nothing else changes; on every dispatched path only `imageUrls` and `vizLoading` differ from the state before |
| Home.BatchResults | pages/index.js:112-130 | when every task succeeds, the batch fulfils with one `(position, url)` result per dispatched position, in order |
| Home.AllSucceedKeyedByPosition | pages/index.js:112-131 | when every call succeeds, `imageUrls` has exactly the selected positions as keys, each mapped to the URL returned for it, whatever the completion order |
| Home.AnyFailureDropsBatch | pages/index.js:108-137 | if any one task fails, `imageUrls` stays empty, `vizLoading` returns to false, the alert is shown, and nothing else changes |
| Home.ArrivalOrderUnobservable | pages/index.js:112-137 | the whole visualize run is the same for every completion order |
| Home.StaleSelectionSinksBatch | pages/index.js:114-116 | a selected position beyond the current ideas reads an undefined concept and sinks the batch |
| Home.MissingSpecSinksBatch | pages/index.js:118 | without an enriched specification every task throws, so the batch always fails |
| Home.LateBatchLandsAfterResubmit | pages/index.js:64-91 | a resubmission keeps the selection, and a batch settling afterwards still writes its images over the new state |
| Pipeline.EnrichErrorStillGenerates | pages/index.js:74-81 | after any enrich 500 the page stores an undefined specification and still calls generate with a body holding only `model: "o3"` |
| Pipeline.GenerateErrorStoresUndefinedIdeas | pages/index.js:83-84 | after any non-200 generate reply the page stores undefined ideas and shows no alert |
| Pipeline.SuccessfulSubmission | pages/index.js:69-84 | two success bodies put the specification and the ideas into the state unchanged, with no alert and no change to selection, details flags or images |
| Pipeline.HandlersReadSameContent | pages/api/generate.js:45 | a non-empty string that enrich's optional chain reads from a reply is the same string generate's plain chain reads, and generate trims it |
| Pipeline.FencedOutputContrast | pages/api/generate.js:45-53 | for any reply whose content is a ```json-fenced body, enrich parses the body plus a line feed and generate answers 500 |

## Left out

- The upstream HTTP and SDK calls (pages/api/enrich.js:18-30, pages/api/generate.js:21-42) and the page's `fetch` calls (pages/index.js:69-83, 121-127) are external I/O. They are oracle arguments. A visualize reply is one of three things: a rejection, a response that is not ok, or an ok response carrying a string `imageUrl`.
- An ok visualize reply without a string `imageUrl` is not modelled. pages/api/visualize.js:49-50 always sends the URL the image API returns.
- `JSON.parse` is an abstract parser argument. `JSON.stringify` and the JSON grammar are not modelled. Number values are never computed with, and object key order is not kept.
- The prompt wording of every handler carries no checkable meaning. Only the embedded JSON value, the model and the temperature are kept.
- The engine's wording of a runtime `TypeError` message is not modelled. It is one `DetailTypeError` detail, sent as a placeholder string.
- Real concurrency is reduced to an arrival order of settlements. Calls still outstanding after `Promise.all` rejects are not cancelled in the source and are not followed in the model.
- React rendering, JSX, the modal, `console` output and `e.preventDefault()` are not modelled. An alert is modelled as an optional message on the run.
- React's state batching across interleaved handler runs is not modelled. A handler sees the state of its render, and `Home.Settle` applies the final writes to whatever state is current.
- The buttons' `disabled` guards (pages/index.js:234, 300) and the image-model selector (pages/index.js:290-297) are rendering. They are not modelled.
- pages/api/visualize.js is not part of this model. It wraps the image API with a fixed prompt, and its 405 guard repeats the one in generate.
- testGenerate.js, pages/_app.js, pages/_document.js, components/InputField.js and tailwind.config.js are a manual script, presentation and configuration.
- Home.GenerateBody: spreading an enriched specification that is an array or a string copies its index keys in JavaScript. The model copies keys only from an object.
- Home.State: JavaScript stores `showDetails` and `imageUrls` under string keys. The model keys them by position directly.
- `Array.from(selected)` follows the Set's insertion order, which `set<nat>` does not keep. The dispatch order `order` is an argument that lists every selected position once, so every statement holds for the real insertion order too.
- A Dafny `char` is a Unicode code point, not a UTF-16 code unit. The two differ only when a string value is indexed (`Member` on a string). The enrich read `choices?.[0]` on a string `choices` (pages/api/enrich.js:33) reads `undefined` as `message` either way, so its outcome is the same. `ideas[idx]` on a string `ideas` (pages/index.js:114) can differ. For a string with characters outside the Basic Multilingual Plane, take a position at or past its code-point count but below its UTF-16 length. The model reads `undefined` there, so `concept.title` throws and the task sends nothing. JavaScript reads a one-unit string there, so the payload builds and the request is sent. The page cannot reach this case. The visualize button is rendered only inside `ideas.length > 0 && ... ideas.map(...)` (pages/index.js:243-249, 299), and `ideas.map` throws during rendering for a non-empty string.
