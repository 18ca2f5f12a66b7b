/** The POST handler of app/api/tools/route.ts: the body is parsed and
    validated, the request is handed to the one admin function of its tag,
    and the result is returned with a status derived from it. */
module Route {
  import opened Wrappers
  import opened JsValues
  import opened Schemas
  import opened WhopAdmin

  const InvalidJsonError := "Invalid JSON body"
  const IssueSeparator := ", "

  /** A JSON reply: its HTTP status and its `{ok, data}` / `{ok, error}` body. */
  datatype Reply = Reply(status: int, body: ToolResult)

  /** A reply together with the upstream calls made while producing it. */
  datatype Served = Served(reply: Reply, calls: seq<Call>)

  /** toStatus: success is 200, the write guard's refusal is 403, and every
      other failure is 400. */
  function ToStatus(result: ToolResult): (status: int)
    ensures status == 200 <==> result.Succeeded?
    ensures status == 403 <==> result.Failed? && result.error == WritesDisabledError
    ensures status == 400 <==> result.Failed? && result.error != WritesDisabledError
  {
    if result.Succeeded? then 200
    else if result.error == WritesDisabledError then 403
    else 400
  }

  /** `Array.prototype.join`. */
  function Join(parts: seq<string>, sep: string): (r: string)
    ensures parts == [] ==> r == ""
    ensures |parts| == 1 ==> r == parts[0]
  {
    if parts == [] then ""
    else if |parts| == 1 then parts[0]
    else parts[0] + sep + Join(parts[1..], sep)
  }

  /** The total length of the strings in `parts`. */
  function TotalLength(parts: seq<string>): nat {
    if parts == [] then 0 else |parts[0]| + TotalLength(parts[1..])
  }

  /** A join is the parts with one separator between each neighbouring pair. */
  lemma {:induction false} JoinLength(parts: seq<string>, sep: string)
    requires parts != []
    ensures |Join(parts, sep)| == TotalLength(parts) + (|parts| - 1) * |sep|
  {
    if |parts| > 1 {
      JoinLength(parts[1..], sep);
    }
  }

  /** Joining two non-empty lists of parts is joining each and putting one
      separator between them; with the one-part case this fixes every join
      as the parts in order, one separator between neighbours. */
  lemma {:induction false} JoinAppend(a: seq<string>, b: seq<string>, sep: string)
    requires a != [] && b != []
    ensures Join(a + b, sep) == Join(a, sep) + sep + Join(b, sep)
  {
    if |a| == 1 {
      assert (a + b)[1..] == b;
    } else {
      assert (a + b)[1..] == a[1..] + b;
      JoinAppend(a[1..], b, sep);
    }
  }

  /** The error of a rejected body: every issue's message, in order, joined
      by a comma and a space. */
  function IssuesText(issues: seq<Issue>, zodText: Issue -> string): string {
    Join(MapSeq(issues, (i: Issue) => IssueMessage(i, zodText)), IssueSeparator)
  }

  /** A refinement failure alone reads exactly as the repository words it. */
  lemma NoFieldsText(path: seq<PathItem>, zodText: Issue -> string)
    ensures IssuesText([Issue(path, NoFields)], zodText) == AtLeastOneFieldMessage
  {
  }

  /** What the handler's `try` yields: the admin function's result, or an
      exception that escaped it. */
  datatype HandlerOutcome = Returned(result: ToolResult) | Raised(thrown: Thrown)

  /** The reply built from the handler's outcome: a result with its status,
      or a 500 carrying the exception's message. */
  function Respond(outcome: HandlerOutcome): (reply: Reply)
    ensures outcome.Returned? ==> reply == Reply(ToStatus(outcome.result), outcome.result)
    ensures reply.status == 500 <==> outcome.Raised?
    ensures outcome.Raised? ==> reply.body == Failed(ErrorMessageOf(outcome.thrown))
  {
    match outcome
    case Returned(result) => Reply(ToStatus(result), result)
    case Raised(t) => Reply(500, Failed(ErrorMessageOf(t)))
  }

  /** The switch on `type`: each request goes to the admin function of its
      own tag, with that variant's fields. */
  function Dispatch(r: ToolRequest, allowWrites: bool, up: Upstream): (h: Handled)
    ensures forall i :: 0 <= i < |h.calls| ==> TargetOf(h.calls[i]) == Some(RequestTarget(r))
    ensures |h.calls| <= 1
    ensures !r.Kind().Mutating() ==> |h.calls| == 1
    ensures r.Kind().Mutating() && !allowWrites ==> h == Handled(Failed(WritesDisabledError), [])
    ensures r.Kind().Mutating() && allowWrites ==> (|h.calls| == 1 <==> KeySet(up))
    ensures (r.DeleteProductRequest? || r.DeletePlanRequest?) && h.result.Succeeded? ==>
      h.result.data == JObj(map["id" := JStr(r.id)])
  {
    match r
    case ListProductsRequest(c) => WhopAdmin.ListProducts(up, c)
    case CreateProductRequest(p) => WhopAdmin.CreateProduct(allowWrites, up, p)
    case UpdateProductRequest(id, p) =>
      ProductPathReadsBack(id);
      WhopAdmin.UpdateProduct(allowWrites, up, id, p)
    case DeleteProductRequest(id) =>
      ProductPathReadsBack(id);
      WhopAdmin.DeleteProduct(allowWrites, up, id)
    case ListPlansRequest(c, pid) => WhopAdmin.ListPlans(up, c, pid)
    case CreatePlanRequest(p) => WhopAdmin.CreatePlan(allowWrites, up, p)
    case UpdatePlanRequest(id, p) =>
      PlanPathIsNotProductPath(id);
      WhopAdmin.UpdatePlan(allowWrites, up, id, p)
    case DeletePlanRequest(id) =>
      PlanPathIsNotProductPath(id);
      WhopAdmin.DeletePlan(allowWrites, up, id)
  }

  /** POST /api/tools. `body` is what `request.json()` made of the request
      (a value, or the parser's complaint). */
  function Post(body: Result<Json, string>, allowWrites: bool, up: Upstream, isUrl: UrlCheck, zodText: Issue -> string): (s: Served)
    ensures body.Err? ==> s == Served(Reply(400, Failed(InvalidJsonError)), [])
    ensures body.Ok? && DecodeRequest(body.value, isUrl).Err? ==>
      s == Served(Reply(400, Failed(IssuesText(DecodeRequest(body.value, isUrl).error, zodText))), [])
    ensures body.Ok? && DecodeRequest(body.value, isUrl).Ok? ==>
      var h := Dispatch(DecodeRequest(body.value, isUrl).value, allowWrites, up);
      s == Served(Reply(ToStatus(h.result), h.result), h.calls)
  {
    if body.Err? then Served(Reply(400, Failed(InvalidJsonError)), [])
    else
      var decoded := DecodeRequest(body.value, isUrl);
      if decoded.Err? then Served(Reply(400, Failed(IssuesText(decoded.error, zodText))), [])
      else
        var h := Dispatch(decoded.value, allowWrites, up);
        Served(Respond(Returned(h.result)), h.calls)
  }

  /** Every admin function catches its own failures, so POST answers 200,
      400 or 403 and never 500. */
  lemma PostStatuses(body: Result<Json, string>, allowWrites: bool, up: Upstream, isUrl: UrlCheck, zodText: Issue -> string)
    ensures var st := Post(body, allowWrites, up, isUrl, zodText).reply.status;
      st == 200 || st == 400 || st == 403
  {
  }

  /** A body that is not valid JSON, or that the schema rejects, never
      reaches the upstream. */
  lemma RejectedBodyMakesNoCall(body: Result<Json, string>, allowWrites: bool, up: Upstream, isUrl: UrlCheck, zodText: Issue -> string)
    requires body.Err? || DecodeRequest(body.value, isUrl).Err?
    ensures Post(body, allowWrites, up, isUrl, zodText).calls == []
    ensures Post(body, allowWrites, up, isUrl, zodText).reply.status == 400
  {
  }

  /** With writes disabled, every well-formed create, update or delete is
      answered 403 with the guard's message and makes no upstream call. */
  lemma WritesDisabledForbidden(r: ToolRequest, up: Upstream, isUrl: UrlCheck, zodText: Issue -> string)
    requires ValidRequest(r, isUrl) && r.Kind().Mutating()
    ensures Post(Ok(EncodeRequest(r)), false, up, isUrl, zodText)
         == Served(Reply(403, Failed(WritesDisabledError)), [])
  {
    DecodeEncode(r, isUrl);
  }

  /** With writes allowed but no API key, a well-formed create, update or
      delete fails before any call with the missing-key message, which the
      status mapping does not tell apart from other upstream failures. */
  lemma MissingKeyIsBadRequest(r: ToolRequest, up: Upstream, isUrl: UrlCheck, zodText: Issue -> string)
    requires ValidRequest(r, isUrl) && r.Kind().Mutating() && !KeySet(up)
    ensures Post(Ok(EncodeRequest(r)), true, up, isUrl, zodText)
         == Served(Reply(400, Failed(MissingKeyError)), [])
  {
    DecodeEncode(r, isUrl);
  }

  /** A well-formed list request reaches the SDK exactly once, for the
      company it names, whether or not writes are allowed. */
  lemma ListRequestCallsOnce(r: ToolRequest, allowWrites: bool, up: Upstream, isUrl: UrlCheck, zodText: Issue -> string)
    requires ValidRequest(r, isUrl) && !r.Kind().Mutating()
    ensures var s := Post(Ok(EncodeRequest(r)), allowWrites, up, isUrl, zodText);
      |s.calls| == 1 && TargetOf(s.calls[0]) == Some(Target(r.Kind(), r.companyId))
  {
    DecodeEncode(r, isUrl);
  }

  /** A non-object body is rejected with one issue, and one whose `type`
      names no tag with one issue at `type`. */
  lemma MalformedBodies(allowWrites: bool, up: Upstream, isUrl: UrlCheck, zodText: Issue -> string)
    ensures Post(Ok(JArr([])), allowWrites, up, isUrl, zodText).reply
         == Reply(400, Failed(zodText(Issue([], InvalidType("object")))))
    ensures Post(Ok(JObj(map["type" := JStr("renameProduct")])), allowWrites, up, isUrl, zodText).reply
         == Reply(400, Failed(zodText(Issue([Key("type")], InvalidDiscriminator))))
  {
    assert ToolNamed("renameProduct").None?;
  }
}
