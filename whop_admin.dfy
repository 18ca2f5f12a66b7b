/** The admin proxy functions of lib/tools/whopAdmin.ts: the eight product
    and plan operations, the write guard in front of the six that change
    upstream state, the shaping of outbound payloads and of inbound
    collections, and the turning of transport failures into results.

    The upstream (the SDK used for reads, `fetch` used for writes, and the
    API key) is a parameter. Each handler returns the result it produces
    together with the upstream calls it made, so "the guard stops a write
    before any network call" is a statement about that list. */
module WhopAdmin {
  import opened Wrappers
  import opened JsValues
  import opened Schemas

  const WritesDisabledError := "Writes disabled (set ALLOW_WRITES=true)"
  const MissingKeyError := "WHOP_API_KEY is not set"

  /** The uniform `{ok: true, data} | {ok: false, error}` of every handler. */
  datatype ToolResult = Succeeded(data: Json) | Failed(error: string)

  /** A value thrown in JavaScript: an `Error` with its message, or anything else. */
  datatype Thrown = ErrorThrown(message: string) | OtherThrown

  /** getErrorMessage: an Error's message, otherwise "Unknown error". */
  function ErrorMessageOf(t: Thrown): string {
    if t.ErrorThrown? then t.message else "Unknown error"
  }

  // ---------------------------------------------------------------------
  // Upstream

  datatype HttpMethod = Post | Patch | Delete

  datatype RestRequest = RestRequest(verb: HttpMethod, path: string, body: Option<Json>)

  /** A response: its status and status phrase, its body text, and what
      `JSON.parse` makes of that text (a value, or the SyntaxError's message). */
  datatype HttpResponse = HttpResponse(status: int, statusText: string, text: string, parsed: Result<Json, string>)

  /** `response.ok`. */
  predicate IsOk(resp: HttpResponse) {
    200 <= resp.status <= 299
  }

  datatype FetchOutcome = Responded(response: HttpResponse) | FetchFailed(thrown: Thrown)

  datatype SdkCall = ListAccessPassesCall(companyId: string) | ListPlansCall(companyId: string)

  /** What an SDK read returns (the company record) or throws, client construction included. */
  datatype SdkOutcome = SdkReturned(company: Json) | SdkThrew(thrown: Thrown)

  datatype Call = SdkInvoked(sdk: SdkCall) | RestInvoked(rest: RestRequest)

  datatype Upstream = Upstream(apiKey: Option<string>, sdk: SdkCall -> SdkOutcome, fetch: RestRequest -> FetchOutcome)

  /** A handler's result and the upstream calls it made, in order. */
  datatype Handled = Handled(result: ToolResult, calls: seq<Call>)

  datatype RestOutcome = RestReturned(payload: Json) | RestThrew(thrown: Thrown)

  datatype RestRun = RestRun(outcome: RestOutcome, calls: seq<Call>)

  /** `if (!apiKey)`: an absent or empty key counts as missing. */
  predicate KeySet(up: Upstream) {
    up.apiKey.Some? && up.apiKey.value != ""
  }

  // ---------------------------------------------------------------------
  // normalizeConnection

  /** `prune`: the truthy elements of an array; nothing for any other value. */
  function Prune(items: Option<Json>): seq<Json> {
    if items.Some? && items.value.JArr? then Filter(items.value.items, Truthy) else []
  }

  /** `edge?.node ?? null`. */
  function EdgeNode(edge: Json): Json {
    var node := Get(edge, "node");
    if node.Some? then node.value else JNull
  }

  /** Reduces the upstream collection shapes (a bare array, `{data}`,
      `{nodes}`, `{edges: [{node}]}`) to one list with falsy entries removed. */
  function NormalizeConnection(connection: Option<Json>): (r: seq<Json>)
    ensures forall i :: 0 <= i < |r| ==> Truthy(r[i])
    ensures !TruthyOpt(connection) ==> r == []
  {
    if !TruthyOpt(connection) then []
    else if connection.value.JArr? then Filter(connection.value.items, Truthy)
    else
      var data := Prune(Get(connection.value, "data"));
      if |data| > 0 then data
      else
        var nodes := Prune(Get(connection.value, "nodes"));
        if |nodes| > 0 then nodes
        else
          var edges := Get(connection.value, "edges");
          if edges.Some? && edges.value.JArr? then Filter(MapSeq(edges.value.items, EdgeNode), Truthy)
          else []
  }

  /** An array with at least one truthy element. */
  predicate HasTruthyItem(o: Option<Json>) {
    o.Some? && o.value.JArr? && exists i :: 0 <= i < |o.value.items| && Truthy(o.value.items[i])
  }

  lemma PruneNonEmpty(o: Option<Json>)
    ensures |Prune(o)| > 0 <==> HasTruthyItem(o)
  {
    if HasTruthyItem(o) {
      var i :| 0 <= i < |o.value.items| && Truthy(o.value.items[i]);
      assert o.value.items[i] in Prune(o);
    }
  }

  /** The shapes are tried in a fixed order: `data` when it has a truthy
      entry, else `nodes` when it has one, else the nodes of `edges`. */
  lemma NormalizePriority(c: Json)
    requires c.JObj?
    ensures HasTruthyItem(Get(c, "data")) ==>
      NormalizeConnection(Some(c)) == Filter(Get(c, "data").value.items, Truthy)
    ensures !HasTruthyItem(Get(c, "data")) && HasTruthyItem(Get(c, "nodes")) ==>
      NormalizeConnection(Some(c)) == Filter(Get(c, "nodes").value.items, Truthy)
    ensures !HasTruthyItem(Get(c, "data")) && !HasTruthyItem(Get(c, "nodes")) ==>
      NormalizeConnection(Some(c)) ==
        (var edges := Get(c, "edges");
         if edges.Some? && edges.value.JArr? then Filter(MapSeq(edges.value.items, EdgeNode), Truthy) else [])
  {
    PruneNonEmpty(Get(c, "data"));
    PruneNonEmpty(Get(c, "nodes"));
  }

  /** A bare array keeps exactly its truthy elements, in order: normalizing
      a concatenation is the concatenation of the normalized parts. */
  lemma NormalizeBareArray(s: seq<Json>, t: seq<Json>)
    ensures NormalizeConnection(Some(JArr(s + t)))
         == NormalizeConnection(Some(JArr(s))) + NormalizeConnection(Some(JArr(t)))
    ensures forall x :: x in NormalizeConnection(Some(JArr(s))) <==> x in s && Truthy(x)
  {
    FilterAppend(s, t, Truthy);
  }

  /** A normalized list, passed back in as a bare array, comes out unchanged. */
  lemma NormalizeStable(c: Option<Json>)
    ensures NormalizeConnection(Some(JArr(NormalizeConnection(c)))) == NormalizeConnection(c)
  {
    FilterKeepsAll(NormalizeConnection(c), Truthy);
  }

  lemma FilterPair(a: Json, b: Json)
    requires Truthy(a) && Truthy(b)
    ensures Filter([a, b], Truthy) == [a, b]
    ensures Filter([a, JNull, b], Truthy) == [a, b]
  {
    assert [a, b][1..] == [b];
    assert [a, JNull, b][1..] == [JNull, b];
    assert [JNull, b][1..] == [b];
  }

  /** The four documented shapes, each holding truthy `a` and `b` (with a
      null entry in between where the shape allows one), all normalize to
      `[a, b]`. */
  lemma NormalizeBareArrayExample(a: Json, b: Json)
    requires Truthy(a) && Truthy(b)
    ensures NormalizeConnection(Some(JArr([a, b]))) == [a, b]
  {
    FilterPair(a, b);
  }

  lemma NormalizeDataExample(a: Json, b: Json)
    requires Truthy(a) && Truthy(b)
    ensures NormalizeConnection(Some(JObj(map["data" := JArr([a, JNull, b])]))) == [a, b]
  {
    FilterPair(a, b);
    var d := JObj(map["data" := JArr([a, JNull, b])]);
    assert HasTruthyItem(Get(d, "data")) by { assert Truthy([a, JNull, b][0]); }
    NormalizePriority(d);
  }

  lemma NormalizeNodesExample(a: Json, b: Json)
    requires Truthy(a) && Truthy(b)
    ensures NormalizeConnection(Some(JObj(map["nodes" := JArr([a, b])]))) == [a, b]
  {
    FilterPair(a, b);
    var n := JObj(map["nodes" := JArr([a, b])]);
    assert Get(n, "data") == None;
    assert HasTruthyItem(Get(n, "nodes")) by { assert Truthy([a, b][0]); }
    NormalizePriority(n);
  }

  lemma NormalizeEdgesExample(a: Json, b: Json)
    requires Truthy(a) && Truthy(b)
    ensures NormalizeConnection(Some(JObj(map["edges" := JArr([JObj(map["node" := a]), JObj(map["node" := JNull]), JObj(map["node" := b])])]))) == [a, b]
  {
    FilterPair(a, b);
    var edges := [JObj(map["node" := a]), JObj(map["node" := JNull]), JObj(map["node" := b])];
    var e := JObj(map["edges" := JArr(edges)]);
    assert Get(e, "data") == None && Get(e, "nodes") == None;
    assert MapSeq(edges, EdgeNode) == [a, JNull, b];
    NormalizePriority(e);
  }

  // ---------------------------------------------------------------------
  // whopRest

  predicate HasStringMessage(payload: Json) {
    payload.JObj? && "message" in payload.fields && payload.fields["message"].JStr?
  }

  /** The message chosen for a non-2xx response: the payload's string
      `message`, else the body text when non-empty, else the status phrase. */
  function FailureMessage(payload: Json, text: string, statusText: string): string {
    if HasStringMessage(payload) then payload.fields["message"].s
    else if text != "" then text
    else statusText
  }

  /** whopRest as written: the body text is parsed before the status is
      looked at, so a non-2xx response whose text is not JSON throws the
      parser's error instead of an error built from that text. */
  function WhopRestAsWritten(up: Upstream, req: RestRequest): RestRun {
    if !KeySet(up) then RestRun(RestThrew(ErrorThrown(MissingKeyError)), [])
    else
      var calls := [RestInvoked(req)];
      match up.fetch(req)
      case FetchFailed(t) => RestRun(RestThrew(t), calls)
      case Responded(resp) =>
        var payload := if resp.text == "" then Ok(JNull) else resp.parsed;
        if payload.Err? then RestRun(RestThrew(ErrorThrown(payload.error)), calls)
        else if IsOk(resp) then RestRun(RestReturned(payload.value), calls)
        else RestRun(RestThrew(ErrorThrown(FailureMessage(payload.value, resp.text, resp.statusText))), calls)
  }

  /** whopRest with the status looked at first: a 2xx body must parse; a
      non-2xx response always throws the message of FailureMessage, reading a
      `message` only from a body that parses. */
  function WhopRest(up: Upstream, req: RestRequest): (run: RestRun)
    ensures !KeySet(up) ==> run == RestRun(RestThrew(ErrorThrown(MissingKeyError)), [])
    ensures KeySet(up) ==> run.calls == [RestInvoked(req)]
    ensures run.outcome.RestReturned? <==>
      KeySet(up) && up.fetch(req).Responded? && IsOk(up.fetch(req).response)
      && (up.fetch(req).response.text == "" || up.fetch(req).response.parsed.Ok?)
    ensures KeySet(up) && up.fetch(req).Responded? && !IsOk(up.fetch(req).response) ==>
      var resp := up.fetch(req).response;
      && (resp.text != "" && resp.parsed.Ok? && HasStringMessage(resp.parsed.value) ==>
            run.outcome == RestThrew(ErrorThrown(resp.parsed.value.fields["message"].s)))
      && (!(resp.text != "" && resp.parsed.Ok? && HasStringMessage(resp.parsed.value)) && resp.text != "" ==>
            run.outcome == RestThrew(ErrorThrown(resp.text)))
      && (resp.text == "" ==> run.outcome == RestThrew(ErrorThrown(resp.statusText)))
    ensures KeySet(up) && up.fetch(req).Responded? && run.outcome.RestReturned? ==>
      var resp := up.fetch(req).response;
      run.outcome.payload == (if resp.text == "" then JNull else resp.parsed.value)
    ensures KeySet(up) && up.fetch(req).Responded? ==>
      var resp := up.fetch(req).response;
      IsOk(resp) && resp.text != "" && resp.parsed.Err? ==> run.outcome == RestThrew(ErrorThrown(resp.parsed.error))
    ensures KeySet(up) && up.fetch(req).FetchFailed? ==> run.outcome == RestThrew(up.fetch(req).thrown)
  {
    if !KeySet(up) then RestRun(RestThrew(ErrorThrown(MissingKeyError)), [])
    else
      var calls := [RestInvoked(req)];
      match up.fetch(req)
      case FetchFailed(t) => RestRun(RestThrew(t), calls)
      case Responded(resp) =>
        var payload := if resp.text == "" then Ok(JNull) else resp.parsed;
        if IsOk(resp) then
          if payload.Err? then RestRun(RestThrew(ErrorThrown(payload.error)), calls)
          else RestRun(RestReturned(payload.value), calls)
        else
          var received := if payload.Ok? then payload.value else JNull;
          RestRun(RestThrew(ErrorThrown(FailureMessage(received, resp.text, resp.statusText))), calls)
  }

  /** The two agree on every response except a non-2xx one whose non-empty
      text does not parse. */
  lemma WhopRestAgrees(up: Upstream, req: RestRequest)
    requires KeySet(up) && up.fetch(req).Responded? ==>
      var resp := up.fetch(req).response;
      IsOk(resp) || resp.text == "" || resp.parsed.Ok?
    ensures WhopRestAsWritten(up, req) == WhopRest(up, req)
  {
  }

  /** A 502 whose body is the plain text "upstream unavailable": the source
      reports the parser's complaint, the corrected version the text. */
  lemma WhopRestAsWrittenLosesText()
    ensures var up := Upstream(Some("key"), _ => SdkThrew(OtherThrown),
      _ => Responded(HttpResponse(502, "Bad Gateway", "upstream unavailable", Err("Unexpected token 'u'"))));
      var req := RestRequest(Delete, "/plans/plan_1", None);
      && WhopRestAsWritten(up, req).outcome == RestThrew(ErrorThrown("Unexpected token 'u'"))
      && WhopRest(up, req).outcome == RestThrew(ErrorThrown("upstream unavailable"))
  {
  }

  /** How a handler turns whopRest's outcome into its result. */
  function RestResult(o: RestOutcome): ToolResult {
    match o
    case RestReturned(d) => Succeeded(d)
    case RestThrew(t) => Failed(ErrorMessageOf(t))
  }

  // ---------------------------------------------------------------------
  // guardWrites

  function GuardWrites(allowWrites: bool): (r: Option<ToolResult>)
    ensures r.Some? <==> !allowWrites
    ensures r.Some? ==> r.value == Failed(WritesDisabledError)
  {
    if !allowWrites then Some(Failed(WritesDisabledError)) else None
  }

  // ---------------------------------------------------------------------
  // Create payloads

  /** The camelCase input keys and the snake_case keys the upstream expects. */
  const ProductRenames: seq<(string, string)> := [
    ("companyId", "company_id"), ("name", "name"), ("description", "description"),
    ("imageUrls", "image_urls"), ("visibility", "visibility")
  ]

  const PlanRenames: seq<(string, string)> := [
    ("companyId", "company_id"), ("productId", "product_id"), ("name", "name"),
    ("description", "description"), ("priceCents", "price_cents"), ("interval", "interval"),
    ("trialDays", "trial_days")
  ]

  const ProductPayloadKeys: set<string> := {"company_id", "name", "description", "image_urls", "visibility"}
  const PlanPayloadKeys: set<string> := {"company_id", "product_id", "name", "description", "price_cents", "interval", "trial_days"}

  /** One entry of buildProductPayload's object literal; an undefined value
      is not sent, as `JSON.stringify` drops it. */
  function ProductPayloadEntry(input: ProductInput, k: string): Option<Json> {
    if k == "company_id" then StrJson(input.companyId)
    else if k == "name" then StrJson(input.name)
    else if k == "description" then StrJson(input.description)
    else if k == "image_urls" then (if input.imageUrls.Some? then Some(UrlsJson(input.imageUrls.value)) else None)
    else if k == "visibility" then (if input.visibility.Some? then Some(JStr(input.visibility.value.Name())) else None)
    else None
  }

  function BuildProductPayload(input: ProductInput): map<string, Json> {
    map k | k in ProductPayloadKeys && ProductPayloadEntry(input, k).Some? :: ProductPayloadEntry(input, k).value
  }

  /** One entry of buildPlanPayload's object literal: `trialDays ?? undefined`
      turns an explicit null into undefined, which is not sent. */
  function PlanPayloadEntry(input: PlanInput, k: string): Option<Json> {
    if k == "company_id" then StrJson(input.companyId)
    else if k == "product_id" then StrJson(input.productId)
    else if k == "name" then StrJson(input.name)
    else if k == "description" then StrJson(input.description)
    else if k == "price_cents" then (if input.priceCents.Some? then Some(CentsJson(input.priceCents.value)) else None)
    else if k == "interval" then (if input.interval.Some? then Some(JStr(input.interval.value.Name())) else None)
    else if k == "trial_days" then
      (if input.trialDays.Some? && input.trialDays.value.Some? then Some(CentsJson(input.trialDays.value.value)) else None)
    else None
  }

  function BuildPlanPayload(input: PlanInput): map<string, Json> {
    map k | k in PlanPayloadKeys && PlanPayloadEntry(input, k).Some? :: PlanPayloadEntry(input, k).value
  }

  /** buildProductPayload only renames: each snake_case key is sent exactly
      when its camelCase key is in the client's input, with the same value,
      and no other key is sent. */
  lemma ProductPayloadRenames(p: ProductInput)
    ensures forall i :: 0 <= i < |ProductRenames| ==>
      var (camel, snake) := ProductRenames[i];
      && (snake in BuildProductPayload(p) <==> camel in EncodeProduct(p))
      && (camel in EncodeProduct(p) ==> BuildProductPayload(p)[snake] == EncodeProduct(p)[camel])
    ensures forall k :: k in BuildProductPayload(p) ==> exists i :: 0 <= i < |ProductRenames| && ProductRenames[i].1 == k
  {
    forall k | k in BuildProductPayload(p)
      ensures exists i :: 0 <= i < |ProductRenames| && ProductRenames[i].1 == k
    {
      assert k in ProductPayloadKeys;
      if k == "company_id" { assert ProductRenames[0].1 == k; }
      else if k == "name" { assert ProductRenames[1].1 == k; }
      else if k == "description" { assert ProductRenames[2].1 == k; }
      else if k == "image_urls" { assert ProductRenames[3].1 == k; }
      else { assert ProductRenames[4].1 == k; }
    }
  }

  /** buildPlanPayload only renames, except that an explicitly null
      `trialDays` is not sent at all. */
  lemma PlanPayloadRenames(p: PlanInput)
    ensures forall i :: 0 <= i < |PlanRenames| - 1 ==>
      var (camel, snake) := PlanRenames[i];
      && (snake in BuildPlanPayload(p) <==> camel in EncodePlan(p))
      && (camel in EncodePlan(p) ==> BuildPlanPayload(p)[snake] == EncodePlan(p)[camel])
    ensures "trial_days" in BuildPlanPayload(p) <==> "trialDays" in EncodePlan(p) && EncodePlan(p)["trialDays"] != JNull
    ensures "trial_days" in BuildPlanPayload(p) ==> BuildPlanPayload(p)["trial_days"] == EncodePlan(p)["trialDays"]
    ensures forall k :: k in BuildPlanPayload(p) ==> exists i :: 0 <= i < |PlanRenames| && PlanRenames[i].1 == k
  {
    forall k | k in BuildPlanPayload(p)
      ensures exists i :: 0 <= i < |PlanRenames| && PlanRenames[i].1 == k
    {
      assert k in PlanPayloadKeys;
      if k == "company_id" { assert PlanRenames[0].1 == k; }
      else if k == "product_id" { assert PlanRenames[1].1 == k; }
      else if k == "name" { assert PlanRenames[2].1 == k; }
      else if k == "description" { assert PlanRenames[3].1 == k; }
      else if k == "price_cents" { assert PlanRenames[4].1 == k; }
      else if k == "interval" { assert PlanRenames[5].1 == k; }
      else { assert PlanRenames[6].1 == k; }
    }
  }

  // ---------------------------------------------------------------------
  // Update payloads

  /** One entry of updateProduct's payload: the company id and the name are
      sent only when they are non-empty strings (an `if (x)` test), the other
      fields whenever they are present (a `typeof x !== "undefined"` test). */
  function ProductPatchEntry(input: ProductInput, k: string): Option<Json> {
    if k == "company_id" then (if NonEmpty(input.companyId) then StrJson(input.companyId) else None)
    else if k == "name" then (if NonEmpty(input.name) then StrJson(input.name) else None)
    else ProductPayloadEntry(input, k)
  }

  /** The order in which updateProduct considers the keys. */
  const ProductPatchOrder: seq<string> := ["company_id", "name", "description", "image_urls", "visibility"]

  /** The payload updateProduct has built after considering its first `n` keys. */
  function ProductPatchUpTo(input: ProductInput, n: nat): map<string, Json>
    requires n <= |ProductPatchOrder|
  {
    if n == 0 then map[]
    else
      var k := ProductPatchOrder[n - 1];
      var entry := ProductPatchEntry(input, k);
      if entry.Some? then ProductPatchUpTo(input, n - 1)[k := entry.value] else ProductPatchUpTo(input, n - 1)
  }

  /** The object updateProduct sends. */
  function ProductPatch(input: ProductInput): map<string, Json> {
    ProductPatchUpTo(input, |ProductPatchOrder|)
  }

  /** One entry of updatePlan's payload: the company id, product id and name
      only when non-empty; the rest when present, an explicitly null
      `trialDays` included (it is sent as null). */
  function PlanPatchEntry(input: PlanInput, k: string): Option<Json> {
    if k == "company_id" then (if NonEmpty(input.companyId) then StrJson(input.companyId) else None)
    else if k == "product_id" then (if NonEmpty(input.productId) then StrJson(input.productId) else None)
    else if k == "name" then (if NonEmpty(input.name) then StrJson(input.name) else None)
    else if k == "trial_days" then (if input.trialDays.Some? then Some(TrialDaysJson(input.trialDays.value)) else None)
    else PlanPayloadEntry(input, k)
  }

  /** The order in which updatePlan considers the keys. */
  const PlanPatchOrder: seq<string> := ["company_id", "product_id", "name", "description", "price_cents", "interval", "trial_days"]

  /** The payload updatePlan has built after considering its first `n` keys. */
  function PlanPatchUpTo(input: PlanInput, n: nat): map<string, Json>
    requires n <= |PlanPatchOrder|
  {
    if n == 0 then map[]
    else
      var k := PlanPatchOrder[n - 1];
      var entry := PlanPatchEntry(input, k);
      if entry.Some? then PlanPatchUpTo(input, n - 1)[k := entry.value] else PlanPatchUpTo(input, n - 1)
  }

  /** The object updatePlan sends. */
  function PlanPatch(input: PlanInput): map<string, Json> {
    PlanPatchUpTo(input, |PlanPatchOrder|)
  }

  /** The first `n` keys' payload holds exactly the keys among them that
      have an entry, each with its entry. */
  lemma {:induction false} ProductPatchUpToAt(input: ProductInput, n: nat, k: string)
    requires n <= |ProductPatchOrder|
    ensures k in ProductPatchUpTo(input, n) <==> k in ProductPatchOrder[..n] && ProductPatchEntry(input, k).Some?
    ensures k in ProductPatchUpTo(input, n) ==> ProductPatchUpTo(input, n)[k] == ProductPatchEntry(input, k).value
  {
    if n > 0 {
      ProductPatchUpToAt(input, n - 1, k);
      assert ProductPatchOrder[..n] == ProductPatchOrder[..n - 1] + [ProductPatchOrder[n - 1]];
    }
  }

  /** A key of updateProduct's payload and its value. */
  lemma ProductPatchAt(input: ProductInput, k: string)
    ensures k in ProductPatch(input) <==> k in ProductPayloadKeys && ProductPatchEntry(input, k).Some?
    ensures k in ProductPatch(input) ==> ProductPatch(input)[k] == ProductPatchEntry(input, k).value
  {
    ProductPatchUpToAt(input, |ProductPatchOrder|, k);
    assert ProductPatchOrder[..|ProductPatchOrder|] == ProductPatchOrder;
  }

  /** The first `n` keys' payload holds exactly the keys among them that
      have an entry, each with its entry. */
  lemma {:induction false} PlanPatchUpToAt(input: PlanInput, n: nat, k: string)
    requires n <= |PlanPatchOrder|
    ensures k in PlanPatchUpTo(input, n) <==> k in PlanPatchOrder[..n] && PlanPatchEntry(input, k).Some?
    ensures k in PlanPatchUpTo(input, n) ==> PlanPatchUpTo(input, n)[k] == PlanPatchEntry(input, k).value
  {
    if n > 0 {
      PlanPatchUpToAt(input, n - 1, k);
      assert PlanPatchOrder[..n] == PlanPatchOrder[..n - 1] + [PlanPatchOrder[n - 1]];
    }
  }

  /** A key of updatePlan's payload and its value. */
  lemma PlanPatchAt(input: PlanInput, k: string)
    ensures k in PlanPatch(input) <==> k in PlanPayloadKeys && PlanPatchEntry(input, k).Some?
    ensures k in PlanPatch(input) ==> PlanPatch(input)[k] == PlanPatchEntry(input, k).value
  {
    PlanPatchUpToAt(input, |PlanPatchOrder|, k);
    assert PlanPatchOrder[..|PlanPatchOrder|] == PlanPatchOrder;
  }

  /** updateProduct sends the company id and the name only when they are
      non-empty, the description, image URLs and visibility whenever they
      are present, and nothing else. */
  lemma ProductPatchKeys(input: ProductInput)
    ensures "company_id" in ProductPatch(input) <==> NonEmpty(input.companyId)
    ensures "name" in ProductPatch(input) <==> NonEmpty(input.name)
    ensures "description" in ProductPatch(input) <==> input.description.Some?
    ensures "image_urls" in ProductPatch(input) <==> input.imageUrls.Some?
    ensures "visibility" in ProductPatch(input) <==> input.visibility.Some?
    ensures forall k :: k in ProductPatch(input) ==> k in ProductPayloadKeys
  {
    ProductPatchAt(input, "company_id");
    ProductPatchAt(input, "name");
    ProductPatchAt(input, "description");
    ProductPatchAt(input, "image_urls");
    ProductPatchAt(input, "visibility");
    forall k | k in ProductPatch(input)
      ensures k in ProductPayloadKeys
    {
      ProductPatchAt(input, k);
    }
  }

  /** updatePlan sends the company id, product id and name only when they
      are non-empty, the other four fields whenever they are present (an
      explicitly null `trialDays` as null), and nothing else. */
  lemma PlanPatchKeys(input: PlanInput)
    ensures "company_id" in PlanPatch(input) <==> NonEmpty(input.companyId)
    ensures "product_id" in PlanPatch(input) <==> NonEmpty(input.productId)
    ensures "name" in PlanPatch(input) <==> NonEmpty(input.name)
    ensures "description" in PlanPatch(input) <==> input.description.Some?
    ensures "price_cents" in PlanPatch(input) <==> input.priceCents.Some?
    ensures "interval" in PlanPatch(input) <==> input.interval.Some?
    ensures "trial_days" in PlanPatch(input) <==> input.trialDays.Some?
    ensures input.trialDays == Some(None) ==> PlanPatch(input)["trial_days"] == JNull
    ensures forall k :: k in PlanPatch(input) ==> k in PlanPayloadKeys
  {
    PlanPatchAt(input, "company_id");
    PlanPatchAt(input, "product_id");
    PlanPatchAt(input, "name");
    PlanPatchAt(input, "description");
    PlanPatchAt(input, "price_cents");
    PlanPatchAt(input, "interval");
    PlanPatchAt(input, "trial_days");
    forall k | k in PlanPatch(input)
      ensures k in PlanPayloadKeys
    {
      PlanPatchAt(input, k);
    }
  }

  /** updateProduct's payload, assembled field by field. */
  method UpdateProductPayload(input: ProductInput) returns (payload: map<string, Json>)
    ensures payload == ProductPatch(input)
  {
    payload := map[];
    if NonEmpty(input.companyId) {
      payload := payload["company_id" := JStr(input.companyId.value)];
    }
    assert payload == ProductPatchUpTo(input, 1);
    if NonEmpty(input.name) {
      payload := payload["name" := JStr(input.name.value)];
    }
    assert payload == ProductPatchUpTo(input, 2);
    if input.description.Some? {
      payload := payload["description" := JStr(input.description.value)];
    }
    assert payload == ProductPatchUpTo(input, 3);
    if input.imageUrls.Some? {
      payload := payload["image_urls" := UrlsJson(input.imageUrls.value)];
    }
    assert payload == ProductPatchUpTo(input, 4);
    if input.visibility.Some? {
      payload := payload["visibility" := JStr(input.visibility.value.Name())];
    }
    assert payload == ProductPatchUpTo(input, 5);
  }

  /** updatePlan's payload, assembled field by field. */
  method UpdatePlanPayload(input: PlanInput) returns (payload: map<string, Json>)
    ensures payload == PlanPatch(input)
  {
    payload := map[];
    if NonEmpty(input.companyId) {
      payload := payload["company_id" := JStr(input.companyId.value)];
    }
    assert payload == PlanPatchUpTo(input, 1);
    if NonEmpty(input.productId) {
      payload := payload["product_id" := JStr(input.productId.value)];
    }
    assert payload == PlanPatchUpTo(input, 2);
    if NonEmpty(input.name) {
      payload := payload["name" := JStr(input.name.value)];
    }
    assert payload == PlanPatchUpTo(input, 3);
    if input.description.Some? {
      payload := payload["description" := JStr(input.description.value)];
    }
    assert payload == PlanPatchUpTo(input, 4);
    if input.priceCents.Some? {
      payload := payload["price_cents" := CentsJson(input.priceCents.value)];
    }
    assert payload == PlanPatchUpTo(input, 5);
    if input.interval.Some? {
      payload := payload["interval" := JStr(input.interval.value.Name())];
    }
    assert payload == PlanPatchUpTo(input, 6);
    if input.trialDays.Some? {
      payload := payload["trial_days" := TrialDaysJson(input.trialDays.value)];
    }
    assert payload == PlanPatchUpTo(input, 7);
  }

  /** The update payload of a product equals the create payload of the same
      record exactly when neither the company id nor the name is an empty
      string. */
  lemma ProductPatchVersusCreate(p: ProductInput)
    ensures ProductPatch(p) == BuildProductPayload(p) <==> NoneOrNonEmpty(p.companyId) && NoneOrNonEmpty(p.name)
  {
    ProductPatchKeys(p);
    if NoneOrNonEmpty(p.companyId) && NoneOrNonEmpty(p.name) {
      forall k
        ensures (k in ProductPatch(p) <==> k in BuildProductPayload(p))
          && (k in ProductPatch(p) ==> ProductPatch(p)[k] == BuildProductPayload(p)[k])
      {
        ProductPatchAt(p, k);
      }
    } else if !NoneOrNonEmpty(p.companyId) {
      assert "company_id" in BuildProductPayload(p);
    } else {
      assert "name" in BuildProductPayload(p);
    }
  }

  /** Since the product update schema keeps the create schema's non-empty
      rule, a valid update never sends an empty object. */
  lemma ValidProductPatchNonEmpty(p: ProductInput, isUrl: UrlCheck)
    requires ValidProductUpdate(p, isUrl)
    ensures ProductPatch(p) != map[]
  {
    ProductPatchKeys(p);
    if p.companyId.Some? { assert "company_id" in ProductPatch(p); }
    else if p.name.Some? { assert "name" in ProductPatch(p); }
    else if p.description.Some? { assert "description" in ProductPatch(p); }
    else if p.imageUrls.Some? { assert "image_urls" in ProductPatch(p); }
    else { assert "visibility" in ProductPatch(p); }
  }

  /** Where no id or name is empty and no null trial period is given, each
      key's update entry is its create entry. */
  lemma PlanEntriesAgree(p: PlanInput, k: string)
    requires NoneOrNonEmpty(p.companyId) && NoneOrNonEmpty(p.productId) && NoneOrNonEmpty(p.name)
    requires p.trialDays != Some(None)
    ensures PlanPatchEntry(p, k) == PlanPayloadEntry(p, k)
  {
  }

  /** The update payload of a plan equals the create payload of the same
      record exactly when no id or name is an empty string and `trialDays`
      is not an explicit null. */
  lemma PlanPatchVersusCreate(p: PlanInput)
    ensures PlanPatch(p) == BuildPlanPayload(p) <==>
      NoneOrNonEmpty(p.companyId) && NoneOrNonEmpty(p.productId) && NoneOrNonEmpty(p.name)
      && p.trialDays != Some(None)
  {
    PlanPatchKeys(p);
    if NoneOrNonEmpty(p.companyId) && NoneOrNonEmpty(p.productId) && NoneOrNonEmpty(p.name) && p.trialDays != Some(None) {
      forall k
        ensures (k in PlanPatch(p) <==> k in BuildPlanPayload(p))
          && (k in PlanPatch(p) ==> PlanPatch(p)[k] == BuildPlanPayload(p)[k])
      {
        PlanPatchAt(p, k);
        PlanEntriesAgree(p, k);
      }
    } else if !NoneOrNonEmpty(p.companyId) {
      assert "company_id" in BuildPlanPayload(p);
    } else if !NoneOrNonEmpty(p.productId) {
      assert "product_id" in BuildPlanPayload(p);
    } else if !NoneOrNonEmpty(p.name) {
      assert "name" in BuildPlanPayload(p);
    } else {
      assert "trial_days" !in BuildPlanPayload(p);
    }
  }

  /** The plan update schema admits empty strings, so a request it accepts
      can reach the upstream as an empty PATCH: exactly when every given
      field is an empty id or name. */
  lemma PlanPatchEmpty(p: PlanInput)
    ensures PlanPatch(p) == map[] <==>
      !NonEmpty(p.companyId) && !NonEmpty(p.productId) && !NonEmpty(p.name)
      && p.description.None? && p.priceCents.None? && p.interval.None? && p.trialDays.None?
  {
    PlanPatchKeys(p);
    if !(PlanPatch(p) == map[]) {
      var k :| k in PlanPatch(p);
      assert k in PlanPayloadKeys;
    }
  }

  lemma EmptyPlanPatchAccepted()
    ensures var p := PlanInput(Some(""), None, None, None, None, None, None);
      ValidPlanUpdate(p) && PlanPatch(p) == map[]
  {
    PlanPatchEmpty(PlanInput(Some(""), None, None, None, None, None, None));
  }

  // ---------------------------------------------------------------------
  // The listPlans filter

  /** listPlans keeps a plan when it is an object whose `product` is an
      object carrying the requested `id`. */
  predicate OfProduct(plan: Json, productId: string) {
    plan.JObj? && "product" in plan.fields && plan.fields["product"].JObj?
    && Get(plan.fields["product"], "id") == Some(JStr(productId))
  }

  function PlansOfProduct(plans: seq<Json>, productId: string): seq<Json> {
    Filter(plans, p => OfProduct(p, productId))
  }

  /** The filtered list of listPlans, by reassignment of the whole list. */
  method FilterPlans(all: seq<Json>, productId: Option<string>) returns (plans: seq<Json>)
    ensures NonEmpty(productId) ==> forall x :: x in plans <==> x in all && OfProduct(x, productId.value)
    ensures !NonEmpty(productId) ==> plans == all
    ensures NonEmpty(productId) ==> plans == PlansOfProduct(all, productId.value)
  {
    plans := all;
    if NonEmpty(productId) {
      plans := PlansOfProduct(plans, productId.value);
    }
  }

  /** The filter keeps order: filtering a concatenation filters each part. */
  lemma PlansOfProductOrder(s: seq<Json>, t: seq<Json>, productId: string)
    ensures PlansOfProduct(s + t, productId) == PlansOfProduct(s, productId) + PlansOfProduct(t, productId)
  {
    FilterAppend(s, t, p => OfProduct(p, productId));
  }

  /** A plan with no `product` object, or one of another product, is dropped. */
  lemma PlansOfProductDrops(productId: string, other: string)
    requires other != productId
    ensures PlansOfProduct([JObj(map["product" := JObj(map["id" := JStr(other)])])], productId) == []
    ensures PlansOfProduct([JObj(map["product" := JStr(productId)])], productId) == []
    ensures PlansOfProduct([JObj(map["product" := JObj(map["id" := JStr(productId)])])], productId)
         == [JObj(map["product" := JObj(map["id" := JStr(productId)])])]
  {
    var keep := JObj(map["product" := JObj(map["id" := JStr(productId)])]);
    assert OfProduct(keep, productId);
    assert [keep][1..] == [];
  }

  // ---------------------------------------------------------------------
  // The eight handlers

  /** listProducts: one SDK read, no guard; its collection is normalized. */
  function ListProducts(up: Upstream, companyId: string): (h: Handled)
    ensures h.calls == [SdkInvoked(ListAccessPassesCall(companyId))]
    ensures h.result.Succeeded? <==> up.sdk(ListAccessPassesCall(companyId)).SdkReturned?
    ensures up.sdk(ListAccessPassesCall(companyId)).SdkThrew? ==>
      h.result == Failed(ErrorMessageOf(up.sdk(ListAccessPassesCall(companyId)).thrown))
    ensures up.sdk(ListAccessPassesCall(companyId)).SdkReturned? ==>
      h.result == Succeeded(JArr(NormalizeConnection(Get(up.sdk(ListAccessPassesCall(companyId)).company, "accessPasses"))))
    ensures h.result.Succeeded? ==>
      h.result.data.JArr? && forall i :: 0 <= i < |h.result.data.items| ==> Truthy(h.result.data.items[i])
  {
    var call := ListAccessPassesCall(companyId);
    match up.sdk(call)
    case SdkThrew(t) => Handled(Failed(ErrorMessageOf(t)), [SdkInvoked(call)])
    case SdkReturned(company) =>
      Handled(Succeeded(JArr(NormalizeConnection(Get(company, "accessPasses")))), [SdkInvoked(call)])
  }

  /** listPlans: one SDK read, no guard; with a non-empty product id only that
      product's plans are kept. */
  function ListPlans(up: Upstream, companyId: string, productId: Option<string>): (h: Handled)
    ensures h.calls == [SdkInvoked(ListPlansCall(companyId))]
    ensures h.result.Succeeded? <==> up.sdk(ListPlansCall(companyId)).SdkReturned?
    ensures up.sdk(ListPlansCall(companyId)).SdkThrew? ==>
      h.result == Failed(ErrorMessageOf(up.sdk(ListPlansCall(companyId)).thrown))
    ensures h.result.Succeeded? ==>
      var all := NormalizeConnection(Get(up.sdk(ListPlansCall(companyId)).company, "plans"));
      && h.result.data.JArr?
      && (forall x :: x in h.result.data.items <==> x in all && (NonEmpty(productId) ==> OfProduct(x, productId.value)))
      && (!NonEmpty(productId) ==> h.result.data.items == all)
      && h.result.data.items == (if NonEmpty(productId) then PlansOfProduct(all, productId.value) else all)
  {
    var call := ListPlansCall(companyId);
    match up.sdk(call)
    case SdkThrew(t) => Handled(Failed(ErrorMessageOf(t)), [SdkInvoked(call)])
    case SdkReturned(company) =>
      var all := NormalizeConnection(Get(company, "plans"));
      var plans := if NonEmpty(productId) then PlansOfProduct(all, productId.value) else all;
      Handled(Succeeded(JArr(plans)), [SdkInvoked(call)])
  }

  /** The part every mutating handler shares: the guard, then one whopRest
      call whose outcome becomes the result, with `onSuccess` choosing what
      a successful call reports. */
  function GuardedRest(allowWrites: bool, up: Upstream, req: RestRequest, echo: Option<Json>): (h: Handled)
    ensures !allowWrites ==> h == Handled(Failed(WritesDisabledError), [])
    ensures allowWrites ==> h.calls == WhopRest(up, req).calls
    ensures allowWrites ==> (h.result.Succeeded? <==> WhopRest(up, req).outcome.RestReturned?)
    ensures allowWrites && WhopRest(up, req).outcome.RestThrew? ==>
      h.result == Failed(ErrorMessageOf(WhopRest(up, req).outcome.thrown))
    ensures allowWrites && h.result.Succeeded? ==>
      h.result.data == (if echo.Some? then echo.value else WhopRest(up, req).outcome.payload)
  {
    var guard := GuardWrites(allowWrites);
    if guard.Some? then Handled(guard.value, [])
    else
      var run := WhopRest(up, req);
      var result := if run.outcome.RestReturned? && echo.Some? then Succeeded(echo.value) else RestResult(run.outcome);
      Handled(result, run.calls)
  }

  function CreateProduct(allowWrites: bool, up: Upstream, input: ProductInput): (h: Handled)
    ensures !allowWrites ==> h == Handled(Failed(WritesDisabledError), [])
    ensures allowWrites && KeySet(up) ==>
      h.calls == [RestInvoked(RestRequest(Post, "/products", Some(JObj(BuildProductPayload(input)))))]
    ensures allowWrites ==> h.result == RestResult(WhopRest(up, RestRequest(Post, "/products", Some(JObj(BuildProductPayload(input))))).outcome)
  {
    GuardedRest(allowWrites, up, RestRequest(Post, "/products", Some(JObj(BuildProductPayload(input)))), None)
  }

  function UpdateProduct(allowWrites: bool, up: Upstream, id: string, input: ProductInput): (h: Handled)
    ensures !allowWrites ==> h == Handled(Failed(WritesDisabledError), [])
    ensures allowWrites && KeySet(up) ==>
      h.calls == [RestInvoked(RestRequest(Patch, "/products/" + id, Some(JObj(ProductPatch(input)))))]
    ensures allowWrites ==> h.result == RestResult(WhopRest(up, RestRequest(Patch, "/products/" + id, Some(JObj(ProductPatch(input))))).outcome)
  {
    GuardedRest(allowWrites, up, RestRequest(Patch, "/products/" + id, Some(JObj(ProductPatch(input)))), None)
  }

  /** deleteProduct: a successful delete reports `{id}`, whatever the
      upstream answered. */
  function DeleteProduct(allowWrites: bool, up: Upstream, id: string): (h: Handled)
    ensures !allowWrites ==> h == Handled(Failed(WritesDisabledError), [])
    ensures allowWrites && KeySet(up) ==> h.calls == [RestInvoked(RestRequest(Delete, "/products/" + id, None))]
    ensures h.result.Succeeded? ==> h.result.data == JObj(map["id" := JStr(id)])
    ensures allowWrites ==> (h.result.Succeeded? <==> WhopRest(up, RestRequest(Delete, "/products/" + id, None)).outcome.RestReturned?)
    ensures allowWrites && WhopRest(up, RestRequest(Delete, "/products/" + id, None)).outcome.RestThrew? ==>
      h.result == Failed(ErrorMessageOf(WhopRest(up, RestRequest(Delete, "/products/" + id, None)).outcome.thrown))
  {
    GuardedRest(allowWrites, up, RestRequest(Delete, "/products/" + id, None), Some(JObj(map["id" := JStr(id)])))
  }

  function CreatePlan(allowWrites: bool, up: Upstream, input: PlanInput): (h: Handled)
    ensures !allowWrites ==> h == Handled(Failed(WritesDisabledError), [])
    ensures allowWrites && KeySet(up) ==>
      h.calls == [RestInvoked(RestRequest(Post, "/plans", Some(JObj(BuildPlanPayload(input)))))]
    ensures allowWrites ==> h.result == RestResult(WhopRest(up, RestRequest(Post, "/plans", Some(JObj(BuildPlanPayload(input))))).outcome)
  {
    GuardedRest(allowWrites, up, RestRequest(Post, "/plans", Some(JObj(BuildPlanPayload(input)))), None)
  }

  function UpdatePlan(allowWrites: bool, up: Upstream, id: string, input: PlanInput): (h: Handled)
    ensures !allowWrites ==> h == Handled(Failed(WritesDisabledError), [])
    ensures allowWrites && KeySet(up) ==>
      h.calls == [RestInvoked(RestRequest(Patch, "/plans/" + id, Some(JObj(PlanPatch(input)))))]
    ensures allowWrites ==> h.result == RestResult(WhopRest(up, RestRequest(Patch, "/plans/" + id, Some(JObj(PlanPatch(input))))).outcome)
  {
    GuardedRest(allowWrites, up, RestRequest(Patch, "/plans/" + id, Some(JObj(PlanPatch(input)))), None)
  }

  function DeletePlan(allowWrites: bool, up: Upstream, id: string): (h: Handled)
    ensures !allowWrites ==> h == Handled(Failed(WritesDisabledError), [])
    ensures allowWrites && KeySet(up) ==> h.calls == [RestInvoked(RestRequest(Delete, "/plans/" + id, None))]
    ensures h.result.Succeeded? ==> h.result.data == JObj(map["id" := JStr(id)])
    ensures allowWrites ==> (h.result.Succeeded? <==> WhopRest(up, RestRequest(Delete, "/plans/" + id, None)).outcome.RestReturned?)
    ensures allowWrites && WhopRest(up, RestRequest(Delete, "/plans/" + id, None)).outcome.RestThrew? ==>
      h.result == Failed(ErrorMessageOf(WhopRest(up, RestRequest(Delete, "/plans/" + id, None)).outcome.thrown))
  {
    GuardedRest(allowWrites, up, RestRequest(Delete, "/plans/" + id, None), Some(JObj(map["id" := JStr(id)])))
  }

  // ---------------------------------------------------------------------
  // What an upstream call is for

  /** The operation an upstream call performs and the company or record it
      names (empty for a create, whose subject travels in the body). */
  datatype Target = Target(tool: Tool, subject: string)

  function StripPrefix(s: string, prefix: string): Option<string> {
    if |prefix| <= |s| && s[..|prefix|] == prefix then Some(s[|prefix|..]) else None
  }

  /** A plan path never reads as a product path. */
  lemma PlanPathIsNotProductPath(id: string)
    ensures StripPrefix("/plans/" + id, "/products/") == None
    ensures StripPrefix("/plans/" + id, "/plans/") == Some(id)
  {
    var path := "/plans/" + id;
    if |"/products/"| <= |path| {
      assert path[..|"/products/"|][2] != "/products/"[2];
    }
    assert path[..|"/plans/"|] == "/plans/";
  }

  /** A product path reads back as the id it was built from. */
  lemma ProductPathReadsBack(id: string)
    ensures StripPrefix("/products/" + id, "/products/") == Some(id)
  {
    assert ("/products/" + id)[..|"/products/"|] == "/products/";
  }

  /** Reads an upstream call back: the SDK read it names, or the verb and
      path of a REST call. */
  function TargetOf(c: Call): Option<Target> {
    match c
    case SdkInvoked(ListAccessPassesCall(company)) => Some(Target(Tool.ListProducts, company))
    case SdkInvoked(ListPlansCall(company)) => Some(Target(Tool.ListPlans, company))
    case RestInvoked(RestRequest(verb, path, _)) =>
      if verb == Post && path == "/products" then Some(Target(Tool.CreateProduct, ""))
      else if verb == Post && path == "/plans" then Some(Target(Tool.CreatePlan, ""))
      else
        var product := StripPrefix(path, "/products/");
        var plan := StripPrefix(path, "/plans/");
        if verb == Patch && product.Some? then Some(Target(Tool.UpdateProduct, product.value))
        else if verb == Delete && product.Some? then Some(Target(Tool.DeleteProduct, product.value))
        else if verb == Patch && plan.Some? then Some(Target(Tool.UpdatePlan, plan.value))
        else if verb == Delete && plan.Some? then Some(Target(Tool.DeletePlan, plan.value))
        else None
  }

  /** The target a request names. */
  function RequestTarget(r: ToolRequest): Target {
    match r
    case ListProductsRequest(c) => Target(Tool.ListProducts, c)
    case CreateProductRequest(_) => Target(Tool.CreateProduct, "")
    case UpdateProductRequest(id, _) => Target(Tool.UpdateProduct, id)
    case DeleteProductRequest(id) => Target(Tool.DeleteProduct, id)
    case ListPlansRequest(c, _) => Target(Tool.ListPlans, c)
    case CreatePlanRequest(_) => Target(Tool.CreatePlan, "")
    case UpdatePlanRequest(id, _) => Target(Tool.UpdatePlan, id)
    case DeletePlanRequest(id) => Target(Tool.DeletePlan, id)
  }
}
