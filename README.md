# Whop admin proxy — a verified model

This project models the request-handling core of a small admin proxy for the
Whop platform. The proxy exposes eight product and plan operations:

- list, create, update and delete products;
- list, create, update and delete plans.

The model covers:

- validation of a JSON request body against the request schemas;
- the write guard in front of the six mutating operations;
- the translation of camelCase inputs into the snake_case bodies the upstream
  REST API expects, for creates and for sparse updates;
- the normalization of the collection shapes the upstream returns, and the
  product filter on plan lists;
- the choice of error message for a failed upstream call;
- the route handler's mapping of every outcome to an HTTP status;
- the developer playground's request builder.

Modules, one per file:

| file | module | what it holds |
|---|---|---|
| `wrappers.dfy` | `Wrappers` | `Option`, `Result` |
| `js_values.dfy` | `JsValues` | JSON values, JavaScript truthiness, property reads, `Array.prototype.filter`/`map` |
| `whop_schemas.dfy` | `Schemas` | the request schemas as field lists, the typed requests, decoding with issues, encoding, soundness and completeness |
| `whop_admin.dfy` | `WhopAdmin` | `normalizeConnection`, `whopRest`, `guardWrites`, the payload builders, the plan filter, the eight handlers |
| `route.dfy` | `Route` | `toStatus`, the dispatch `switch`, `POST` |
| `playground.dfy` | `Playground` | `ACTIONS`, `buildPayload`, `parseJSON` |

Modelling choices:

- **Numbers** are reals, so that Zod's integer check means something.
- **Zod schemas** are data: a list of fields, checked in declaration order.
  Unknown keys are stripped, as Zod strips them.
- **Upstream** (SDK reads, `fetch` writes, the API key) is a parameter
  `Upstream`. Every handler returns its result together with the upstream
  calls it made. So "a disabled write never reaches the network" is the
  statement `calls == []`.
- **Imperative parts.** The update payloads of `updateProduct` and
  `updatePlan` are built by conditional field assignments, and `listPlans`
  reassigns its list. These three are methods, each proved equal to the
  specification function the handlers use.

## Model

| member | source | states |
|---|---|---|
| JsValues.Filter | lib/tools/whopAdmin.ts:121-124 | `filter(Boolean)`: keeps exactly the elements passing the test, never more than the input |
| JsValues.FilterAppend | lib/tools/whopAdmin.ts:123-125 | filtering keeps relative order: filtering a concatenation concatenates the filtered parts |
| JsValues.FilterKeepsAll | lib/tools/whopAdmin.ts:121 | a list whose elements all pass comes back unchanged |
| JsValues.MapSeq | lib/tools/whopAdmin.ts:134-135 | `map` keeps the length and applies the function at every index |
| WhopAdmin.NormalizeConnection | lib/tools/whopAdmin.ts:116-140 | every element of the result is truthy; a missing or falsy connection gives `[]` |
| WhopAdmin.NormalizePriority | lib/tools/whopAdmin.ts:127-139 | a `data` array with a truthy entry wins, else a `nodes` array with one, else the nodes of `edges`, else `[]` |
| WhopAdmin.NormalizeBareArray | lib/tools/whopAdmin.ts:123-125 | a bare array keeps exactly its truthy elements, in order |
| WhopAdmin.NormalizeStable | lib/tools/whopAdmin.ts:116-140 | normalizing an already normalized list changes nothing |
| WhopAdmin.NormalizeBareArrayExample | lib/tools/whopAdmin.ts:123-125 | `[a, b]` normalizes to `[a, b]` |
| WhopAdmin.NormalizeDataExample | lib/tools/whopAdmin.ts:127-128 | `{data: [a, null, b]}` normalizes to `[a, b]` |
| WhopAdmin.NormalizeNodesExample | lib/tools/whopAdmin.ts:130-131 | `{nodes: [a, b]}` normalizes to `[a, b]` |
| WhopAdmin.NormalizeEdgesExample | lib/tools/whopAdmin.ts:133-137 | `{edges: [{node: a}, {node: null}, {node: b}]}` normalizes to `[a, b]` |
| WhopAdmin.WhopRest | lib/tools/whopAdmin.ts:147-179 | a missing key throws before any call; otherwise exactly one call. It returns iff the response is 2xx and its body is empty or parses. A non-2xx response throws the payload's string `message`, else the non-empty body text, else the status phrase. A 2xx call returns the parsed body, or null for an empty body; an unparsable 2xx body throws the parser's error; a failed `fetch` is rethrown unchanged (the corrected `whopRest`) |
| WhopAdmin.WhopRestAgrees | lib/tools/whopAdmin.ts:163-176 | the corrected and the as-written `whopRest` agree except on a non-2xx response whose body does not parse |
| WhopAdmin.WhopRestAsWrittenLosesText | lib/tools/whopAdmin.ts:163-176 | as written, a 502 with a plain-text body reports the parser's error, not the text |
| WhopAdmin.GuardWrites | lib/tools/whopAdmin.ts:181-187 | returns a failure iff writes are disabled, and that failure carries the fixed "Writes disabled" message |
| WhopAdmin.ProductPayloadRenames | lib/tools/whopAdmin.ts:189-199 | the create-product body only renames: each snake_case key is present iff its camelCase key was sent, with the same value, and no other key |
| WhopAdmin.PlanPayloadRenames | lib/tools/whopAdmin.ts:201-213 | the same for plans, except that a null `trialDays` is not sent at all |
| WhopAdmin.ProductPatchKeys | lib/tools/whopAdmin.ts:255-264 | `company_id` and `name` are sent iff non-empty; `description`, `image_urls` and `visibility` iff present; no other key |
| WhopAdmin.PlanPatchKeys | lib/tools/whopAdmin.ts:341-353 | `company_id`, `product_id` and `name` iff non-empty; the other four iff present (a null `trialDays` is sent as null); no other key |
| WhopAdmin.UpdateProductPayload | lib/tools/whopAdmin.ts:255-264 | the field-by-field assembly builds exactly `ProductPatch` |
| WhopAdmin.UpdatePlanPayload | lib/tools/whopAdmin.ts:341-353 | the field-by-field assembly builds exactly `PlanPatch` |
| WhopAdmin.ProductPatchVersusCreate | lib/tools/whopAdmin.ts:255-264 | the update body equals the create body of the same record iff neither company id nor name is `""` |
| WhopAdmin.ValidProductPatchNonEmpty | lib/tools/whopAdmin.ts:255-264 | a product update the schema accepts never sends an empty object |
| WhopAdmin.PlanPatchVersusCreate | lib/tools/whopAdmin.ts:341-353 | the update body equals the create body iff no id or name is `""` and `trialDays` is not null |
| WhopAdmin.PlanPatchEmpty | lib/tools/whopAdmin.ts:341-353 | the plan update body is empty iff every given field is an empty id or name |
| WhopAdmin.EmptyPlanPatchAccepted | lib/tools/whopAdmin.ts:341-353 | a plan update the schema accepts (`{companyId: ""}`) is sent as an empty PATCH |
| WhopAdmin.FilterPlans | lib/tools/whopAdmin.ts:294-310 | with a non-empty product id, keeps exactly the plans whose `product` object has that `id`; otherwise the list is unchanged |
| WhopAdmin.PlansOfProductOrder | lib/tools/whopAdmin.ts:296-310 | the product filter keeps order |
| WhopAdmin.PlansOfProductDrops | lib/tools/whopAdmin.ts:297-309 | a plan of another product, or one whose `product` is not an object, is dropped; a plan of this product is kept |
| WhopAdmin.ListProducts | lib/tools/whopAdmin.ts:215-228 | one SDK read, no guard; succeeds iff the read returns, with exactly the normalized `accessPasses` of the returned company, all truthy; a thrown error becomes its message |
| WhopAdmin.ListPlans | lib/tools/whopAdmin.ts:288-316 | one SDK read, no guard; succeeds iff the read returns; the plans are exactly the normalized plans in order, filtered by a non-empty product id (the filter keeps order and drops nothing else) |
| WhopAdmin.GuardedRest | lib/tools/whopAdmin.ts:233-244 | guard first, with no call when writes are disabled; otherwise the one `whopRest` call, its failure message, or its success (with the corrected `whopRest`) |
| WhopAdmin.CreateProduct | lib/tools/whopAdmin.ts:230-245 | disabled: the guard's failure and no call; enabled with a key: one POST of the create body to `/products`; the result is whopRest's (with the corrected `whopRest`) |
| WhopAdmin.UpdateProduct | lib/tools/whopAdmin.ts:247-274 | the same, with one PATCH of `ProductPatch` to `/products/<id>` (with the corrected `whopRest`) |
| WhopAdmin.DeleteProduct | lib/tools/whopAdmin.ts:276-286 | the same, with one DELETE of `/products/<id>`; a success reports `{id}`; a thrown error becomes its message (with the corrected `whopRest`) |
| WhopAdmin.CreatePlan | lib/tools/whopAdmin.ts:318-331 | as CreateProduct, with the plan body to `/plans` (with the corrected `whopRest`) |
| WhopAdmin.UpdatePlan | lib/tools/whopAdmin.ts:333-363 | as UpdateProduct, with `PlanPatch` to `/plans/<id>` (with the corrected `whopRest`) |
| WhopAdmin.DeletePlan | lib/tools/whopAdmin.ts:365-375 | as DeleteProduct, for `/plans/<id>`; a success reports `{id}`; a thrown error becomes its message (with the corrected `whopRest`) |
| WhopAdmin.PlanPathIsNotProductPath | lib/tools/whopAdmin.ts:355 | a plan path reads back as its id and never as a product path |
| WhopAdmin.ProductPathReadsBack | lib/tools/whopAdmin.ts:266 | a product path reads back as its id |
| Schemas.Partial | lib/tools/whopAdmin.ts:23-24 | `.partial()` makes every field optional and keeps its checks |
| Schemas.DecodeRequest | lib/tools/whopAdmin.ts:59-95 | a rejected body always has at least one issue |
| Schemas.ShapeIssuesEmpty | lib/tools/whopAdmin.ts:15-21 | an object raises no issue iff none of its fields does |
| Schemas.UrlItemIssuesEmpty | lib/tools/whopAdmin.ts:19 | an image list raises no element issue iff every element is a string passing the URL check |
| Schemas.NumberRules | lib/tools/whopAdmin.ts:38-40 | cents are accepted iff a non-negative integer; trial days also when null; a negative fraction raises both issues; null cents are refused |
| Schemas.ListAndStringRules | lib/tools/whopAdmin.ts:16-19 | more than ten image URLs are refused; a required string refuses `""`; an optional plain string accepts it |
| Schemas.EmptyUpdateRejected | lib/tools/whopAdmin.ts:23-27 | an update input with no recognised key is refused with the single "At least one field must be provided" issue |
| Schemas.ToolNamedName | lib/tools/whopAdmin.ts:59-95 | a `type` string names a tag iff it is that tag's name |
| Schemas.UrlsSound | lib/tools/whopAdmin.ts:19 | accepted image URLs are at most ten, each a URL |
| Schemas.ProductCreateSound | lib/tools/whopAdmin.ts:15-21 | every accepted create-product input has a non-empty company id and name and valid image URLs |
| Schemas.ProductUpdateSound | lib/tools/whopAdmin.ts:23-27 | every accepted update-product input has non-empty ids where given, valid image URLs and at least one field |
| Schemas.PlanCreateSound | lib/tools/whopAdmin.ts:33-41 | every accepted create-plan input has non-empty company and product ids, a price and an interval |
| Schemas.PlanUpdateSound | lib/tools/whopAdmin.ts:43-55 | every accepted update-plan input has at least one field |
| Schemas.RequestFieldsSound | lib/tools/whopAdmin.ts:59-95 | the accepted fields of each variant form a valid request |
| Schemas.DecodeSound | lib/tools/whopAdmin.ts:59-95 | an accepted body becomes a valid request of the tag its `type` names |
| Schemas.ProductRoundTrip | lib/tools/whopAdmin.ts:15-27 | a product input, sent as JSON, is read back unchanged |
| Schemas.PlanRoundTrip | lib/tools/whopAdmin.ts:33-55 | a plan input, sent as JSON, is read back unchanged |
| Schemas.ProductCreateAccepted | lib/tools/whopAdmin.ts:15-21 | every encoded product input passes the create field checks |
| Schemas.ProductUpdateAccepted | lib/tools/whopAdmin.ts:23-27 | every valid product update, encoded, is accepted |
| Schemas.PlanCreateAccepted | lib/tools/whopAdmin.ts:33-41 | every encoded plan input passes the create field checks |
| Schemas.PlanUpdateAccepted | lib/tools/whopAdmin.ts:43-55 | every valid plan update, encoded, is accepted |
| Schemas.EncodedRequestAccepted | lib/tools/whopAdmin.ts:59-95 | the fields of every valid encoded request raise no issue |
| Schemas.EncodedRequestRead | lib/tools/whopAdmin.ts:59-95 | reading an encoded request's fields gives the request back |
| Schemas.DecodeEncode | lib/tools/whopAdmin.ts:59-95 | every valid request, sent as JSON, is accepted and decodes to exactly itself |
| Route.ToStatus | app/api/tools/route.ts:21-25 | 200 iff success; 403 iff the failure is the write guard's message; 400 iff any other failure |
| Route.Join | app/api/tools/route.ts:38 | joining no parts gives `""`; one part gives that part |
| Route.JoinLength | app/api/tools/route.ts:38 | a join is as long as its parts plus one separator per neighbouring pair |
| Route.JoinAppend | app/api/tools/route.ts:38 | joining a concatenation is joining each side with one separator between them, so a join is the parts in order with one separator between neighbours |
| Route.NoFieldsText | app/api/tools/route.ts:38 | an empty update's error reads exactly "At least one field must be provided" |
| Route.Respond | app/api/tools/route.ts:83-91 | a returned result is sent with its status; status 500 iff a handler threw, with its message or "Unknown error" |
| Route.Dispatch | app/api/tools/route.ts:53-81 | every upstream call targets the request's own operation and subject, at most one call; lists always call once; a disabled write makes no call and returns the guard's failure; a successful delete reports `{id}` |
| Route.Post | app/api/tools/route.ts:27-93 | unparsable JSON gives 400 "Invalid JSON body"; a schema rejection gives 400 with the issue messages joined by ", "; no call in either case; otherwise the dispatched result, unchanged, with its status (with the corrected `whopRest`) |
| Route.PostStatuses | app/api/tools/route.ts:27-93 | POST answers only 200, 400 or 403 |
| Route.RejectedBodyMakesNoCall | app/api/tools/route.ts:30-48 | a body that is not JSON or is refused by the schema is answered 400 with no upstream call |
| Route.WritesDisabledForbidden | app/api/tools/route.ts:53-85 | with writes disabled, every valid create, update or delete is answered 403 with the guard's message and makes no call |
| Route.MissingKeyIsBadRequest | lib/tools/whopAdmin.ts:150-152 | with no API key, a valid write is answered 400 "WHOP_API_KEY is not set" before any call |
| Route.ListRequestCallsOnce | app/api/tools/route.ts:54-68 | a valid list request calls the SDK exactly once, for its company |
| Route.MalformedBodies | app/api/tools/route.ts:32-41 | a non-object body, or an unknown `type`, is answered 400 with the single issue's message |
| Playground.Find | app/dev/tools/playground.tsx:97-100 | a found row is in the table and has the action's tag; no row is found only if no row has it |
| Playground.ActionsListEachToolOnce | app/dev/tools/playground.tsx:8-39 | the table has eight rows, no tag twice, and every tag is found |
| Playground.ParseJSON | app/dev/tools/playground.tsx:293-305 | `""` is parsed as `"{}"`; accepts iff the text parses to an object or array, which is returned; a parser error keeps its message; a scalar gives "Payload must be an object" |
| Playground.ParseJSONEdges | app/dev/tools/playground.tsx:295-297 | an empty input is the empty object; a parsed scalar is refused with the fixed message |
| Playground.BuildPayload | app/dev/tools/playground.tsx:234-291 | a built body is an object whose `type` is the action; the company id, id and product id it carries are the form's non-empty values; its `input` is the parsed input |
| Playground.BuildPayloadFollowsTable | app/dev/tools/playground.tsx:247-287 | a body's keys are exactly `type` plus one per input the table shows for the action (an empty product id left out); an empty required company id or id fails; any other failure is the input's parse error, on rows that show it |
| Playground.IdLabelMatchesMissingIdError | app/dev/tools/playground.tsx:180 | the id label says "Product ID" exactly for the actions whose missing-id error is "Product id required" |
| Playground.BuiltListBodiesDecode | app/dev/tools/playground.tsx:248-273 | built list bodies are accepted by the server as the list request the form describes (an empty product id becomes absent) |
| Playground.BuiltDeleteBodiesDecode | app/dev/tools/playground.tsx:262-287 | built delete bodies are accepted by the server as the deletion of the record the id field names |
| Playground.BuiltUpdateDecodes | app/dev/tools/playground.tsx:254-261 | a built update-product body whose input is a valid update is accepted as that update of the given id |

## Left out

- HTTP transport is not modelled. This covers `fetch`, the headers, the base URL and `JSON.stringify`. A REST call is the value `RestRequest(verb, path, body)` and a response is an abstract status, text and parse result. Object key order is not modelled, because objects are maps.
- The Whop SDK client (`getWhopClient` in lib/whop.ts) is not part of this model. Its reads are a parameter returning the company record or an error.
- Zod is not modelled. Its wording of issues is a parameter; only the repository's own "At least one field must be provided" is fixed. The URL check of `z.string().url()` is also a parameter.
- `JSON.parse` is a parameter, both for the request body and in the playground.
- Environment reads are not modelled: `ALLOW_WRITES` is the `allowWrites` parameter and `WHOP_API_KEY` is `Upstream.apiKey`.
- `async`/`await` is not modelled. Each handler awaits one call, so the model is sequential.
- The route's `default` branch ("Unknown tool request", app/api/tools/route.ts:78-80) is unreachable, because the match over the eight tags is exhaustive. A body with an unknown `type` is already refused by the schema (`Route.MalformedBodies`).
- The playground's `default` branch ("Unsupported action") is unreachable for the same reason.
- The "Invalid JSON payload" fallback of `parseJSON` is unreachable, because a parser failure always carries a message.
- The 500 path is modelled by `Route.Respond`, but `Route.Post` never takes it. Every admin function catches its own errors (`Route.PostStatuses`).
- The React component, `INPUT_TEMPLATES`, the page components, the chat panels, lib/groq.ts and the configuration files are not part of this model.
- WhopAdmin.WhopRest, WhopAdmin.CreateProduct, WhopAdmin.UpdateProduct, WhopAdmin.DeleteProduct, WhopAdmin.CreatePlan, WhopAdmin.UpdatePlan, WhopAdmin.DeletePlan, WhopAdmin.GuardedRest, Route.Post: these follow the corrected `whopRest` (see "## Findings"), not lib/tools/whopAdmin.ts:163-164 as written. On a non-2xx response whose non-empty text is not JSON they report that text, where the code as written reports the parser's error message. `WhopAdmin.WhopRestAsWritten` models the code as written and `WhopAdmin.WhopRestAgrees` shows that this is the only difference.
- Route.Dispatch: states the target and count of the upstream calls, not the full result of every variant. Those results are stated by the eight handler members it calls.

## Findings

| source | as written | input that shows it | evidently intended | confidence | as-written member | corrected member |
|---|---|---|---|---|---|---|
| lib/tools/whopAdmin.ts:163-176 | the body text is parsed before `response.ok` is checked, so a non-2xx response whose text is not JSON throws the parser's error | a 502 "Bad Gateway" whose body is the plain text `upstream unavailable` | a failed response reports its own text when that text is not JSON, as the fallback from the body text to the status phrase suggests | medium, not executed | WhopAdmin.WhopRestAsWrittenLosesText | WhopAdmin.WhopRest |
