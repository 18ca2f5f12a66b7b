/** The request builder of the developer playground
    (app/dev/tools/playground.tsx): the table of the eight actions and which
    inputs each asks for, the construction of the request body from the
    form's fields, and the parsing of the free-form JSON input. */
module Playground {
  import opened Wrappers
  import opened JsValues
  import opened Schemas

  /** One row of ACTIONS: the tag, its label (`caption`, as `label` is a Dafny keyword), and which form inputs it shows. */
  datatype ActionSpec = ActionSpec(
    value: Tool,
    caption: string,
    requireCompanyId: bool,
    requireId: bool,
    requireProductId: bool,
    requireInput: bool)

  const Actions: seq<ActionSpec> := [
    ActionSpec(ListProducts, "List Products", true, false, false, false),
    ActionSpec(CreateProduct, "Create Product", false, false, false, true),
    ActionSpec(UpdateProduct, "Update Product", false, true, false, true),
    ActionSpec(DeleteProduct, "Delete Product", false, true, false, false),
    ActionSpec(ListPlans, "List Plans", true, false, true, false),
    ActionSpec(CreatePlan, "Create Plan", false, false, false, true),
    ActionSpec(UpdatePlan, "Update Plan", false, true, false, true),
    ActionSpec(DeletePlan, "Delete Plan", false, true, false, false)
  ]

  /** `ACTIONS.find((item) => item.value === action)`. */
  function Find(table: seq<ActionSpec>, action: Tool): (r: Option<ActionSpec>)
    ensures r.Some? ==> r.value in table && r.value.value == action
    ensures r.None? ==> forall i :: 0 <= i < |table| ==> table[i].value != action
  {
    if table == [] then None
    else if table[0].value == action then Some(table[0])
    else Find(table[1..], action)
  }

  /** Every tag has exactly one row. */
  lemma ActionsListEachToolOnce()
    ensures |Actions| == 8
    ensures forall i, j :: 0 <= i < j < |Actions| ==> Actions[i].value != Actions[j].value
    ensures forall t: Tool :: Find(Actions, t).Some?
  {
    forall t: Tool
      ensures Find(Actions, t).Some?
    {
      assert Actions[0].value == ListProducts && Actions[1].value == CreateProduct;
      assert Actions[2].value == UpdateProduct && Actions[3].value == DeleteProduct;
      assert Actions[4].value == ListPlans && Actions[5].value == CreatePlan;
      assert Actions[6].value == UpdatePlan && Actions[7].value == DeletePlan;
    }
  }

  /** `sub` occurs in `s` starting at index `i`. */
  predicate OccursAt(s: string, sub: string, i: nat) {
    i + |sub| <= |s| && s[i..i + |sub|] == sub
  }

  /** `s.includes(sub)`. */
  predicate Contains(s: string, sub: string) {
    exists i: nat :: i <= |s| && OccursAt(s, sub, i)
  }

  /** The label of the id input: "Product ID" when the action's name contains
      "Product", else "Plan ID". */
  function IdLabel(action: Tool): string {
    if Contains(action.Name(), "Product") then "Product ID" else "Plan ID"
  }

  const CompanyIdRequired := "companyId required"
  const ProductIdRequired := "Product id required"
  const PlanIdRequired := "Plan id required"
  const NotAnObject := "Payload must be an object"

  /** `JSON.parse` belongs to the runtime: a value, or its error's message. */
  type JsonParser = string -> Result<Json, string>

  /** The text parseJSON hands to the parser: `value || "{}"`. */
  function InputText(value: string): string {
    if value == "" then "{}" else value
  }

  /** parseJSON: an empty input reads as "{}"; a value that parses must be an
      object or an array (`typeof` says "object" for both). */
  function ParseJSON(value: string, parse: JsonParser): (r: Result<Json, string>)
    ensures r.Ok? <==> parse(InputText(value)).Ok? && IsObjectLike(parse(InputText(value)).value)
    ensures r.Ok? ==> r.value == parse(InputText(value)).value
    ensures parse(InputText(value)).Err? ==> r == Err(parse(InputText(value)).error)
    ensures parse(InputText(value)).Ok? && r.Err? ==> r == Err(NotAnObject)
  {
    var parsed := parse(InputText(value));
    if parsed.Err? then Err(parsed.error)
    else if !IsObjectLike(parsed.value) then Err(NotAnObject)
    else Ok(parsed.value)
  }

  /** With a parser that reads "{}" as the empty object, an empty input is
      the empty object, and a scalar is refused with the fixed message. */
  lemma ParseJSONEdges(parse: JsonParser, s: string)
    requires parse("{}") == Ok(JObj(map[]))
    requires s != "" && parse(s).Ok? && !IsObjectLike(parse(s).value)
    ensures ParseJSON("", parse) == Ok(JObj(map[]))
    ensures ParseJSON(s, parse) == Err(NotAnObject)
  {
  }

  /** buildPayload: the request body for the chosen action, or the error
      thrown for a missing field or an unusable input. */
  function BuildPayload(action: Tool, companyId: string, productId: string, targetId: string, inputValue: string, parse: JsonParser): (r: Result<Json, string>)
    ensures r.Ok? ==> r.value.JObj? && Get(r.value, "type") == Some(JStr(action.Name()))
    ensures r.Ok? && "companyId" in r.value.fields ==> companyId != "" && r.value.fields["companyId"] == JStr(companyId)
    ensures r.Ok? && "id" in r.value.fields ==> targetId != "" && r.value.fields["id"] == JStr(targetId)
    ensures r.Ok? && "productId" in r.value.fields ==> productId != "" && r.value.fields["productId"] == JStr(productId)
    ensures r.Ok? && "input" in r.value.fields ==>
      ParseJSON(inputValue, parse).Ok? && r.value.fields["input"] == ParseJSON(inputValue, parse).value
  {
    var tag := map["type" := JStr(action.Name())];
    var input := ParseJSON(inputValue, parse);
    match action
    case ListProducts =>
      if companyId == "" then Err(CompanyIdRequired)
      else Ok(JObj(tag["companyId" := JStr(companyId)]))
    case CreateProduct =>
      if input.Err? then Err(input.error)
      else Ok(JObj(tag["input" := input.value]))
    case UpdateProduct =>
      if targetId == "" then Err(ProductIdRequired)
      else if input.Err? then Err(input.error)
      else Ok(JObj(tag["id" := JStr(targetId)]["input" := input.value]))
    case DeleteProduct =>
      if targetId == "" then Err(ProductIdRequired)
      else Ok(JObj(tag["id" := JStr(targetId)]))
    case ListPlans =>
      if companyId == "" then Err(CompanyIdRequired)
      else Ok(JObj(Put(tag["companyId" := JStr(companyId)], "productId", if productId == "" then None else Some(JStr(productId)))))
    case CreatePlan =>
      if input.Err? then Err(input.error)
      else Ok(JObj(tag["input" := input.value]))
    case UpdatePlan =>
      if targetId == "" then Err(PlanIdRequired)
      else if input.Err? then Err(input.error)
      else Ok(JObj(tag["id" := JStr(targetId)]["input" := input.value]))
    case DeletePlan =>
      if targetId == "" then Err(PlanIdRequired)
      else Ok(JObj(tag["id" := JStr(targetId)]))
  }

  // ---------------------------------------------------------------------
  // The table and the builder agree

  /** The keys a body built for `spec` carries: the tag, then one key per
      input the row asks for; an empty optional product id is left out. */
  function BodyKeys(spec: ActionSpec, productId: string): set<string> {
    {"type"}
    + (if spec.requireCompanyId then {"companyId"} else {})
    + (if spec.requireId then {"id"} else {})
    + (if spec.requireInput then {"input"} else {})
    + (if spec.requireProductId && productId != "" then {"productId"} else {})
  }

  /** The inputs a row shows are exactly the ones the builder reads: a body
      carries one key per shown input; an empty company id or target id
      fails exactly for the rows that ask for it; and the input is parsed
      exactly for the rows that show it. */
  lemma BuildPayloadFollowsTable(i: nat, companyId: string, productId: string, targetId: string, inputValue: string, parse: JsonParser)
    requires i < |Actions|
    ensures var spec := Actions[i];
      var r := BuildPayload(spec.value, companyId, productId, targetId, inputValue, parse);
      && (r.Ok? ==> r.value.fields.Keys == BodyKeys(spec, productId))
      && (spec.requireCompanyId && companyId == "" ==> r == Err(CompanyIdRequired))
      && (spec.requireId && targetId == "" ==> r == Err(ProductIdRequired) || r == Err(PlanIdRequired))
      && (r.Err? && !(spec.requireCompanyId && companyId == "") && !(spec.requireId && targetId == "") ==>
            spec.requireInput && r == Err(ParseJSON(inputValue, parse).error))
      && (companyId != "" && targetId != "" && ParseJSON(inputValue, parse).Ok? ==> r.Ok?)
  {
    var spec := Actions[i];
    var r := BuildPayload(spec.value, companyId, productId, targetId, inputValue, parse);
    if r.Ok? {
      var keys := BodyKeys(spec, productId);
      assert forall k :: k in r.value.fields.Keys <==> k in keys;
    }
  }

  /** The label of the id input names the same kind of record as the
      builder's complaint about a missing id. */
  lemma IdLabelMatchesMissingIdError(i: nat, companyId: string, productId: string, inputValue: string, parse: JsonParser)
    requires i < |Actions| && Actions[i].requireId
    ensures BuildPayload(Actions[i].value, companyId, productId, "", inputValue, parse)
         == Err(if IdLabel(Actions[i].value) == "Product ID" then ProductIdRequired else PlanIdRequired)
  {
    var t := Actions[i].value;
    if t == UpdateProduct {
      assert "updateProduct"[6..13] == "Product";
      assert OccursAt(t.Name(), "Product", 6);
    } else if t == DeleteProduct {
      assert "deleteProduct"[6..13] == "Product";
      assert OccursAt(t.Name(), "Product", 6);
    } else {
      var n := t.Name();
      assert n == "updatePlan" || n == "deletePlan";
      forall j: nat
        ensures !OccursAt(n, "Product", j)
      {
        if j + |"Product"| <= |n| {
          assert n[j..j + |"Product"|][0] == n[j];
          assert j <= 3;
        }
      }
    }
  }

  // ---------------------------------------------------------------------
  // What the server makes of a built body

  /** A built list body is accepted by the request schema as the request
      the form describes. */
  lemma BuiltListBodiesDecode(companyId: string, productId: string, targetId: string, inputValue: string, parse: JsonParser, isUrl: UrlCheck)
    requires companyId != ""
    ensures DecodeRequest(BuildPayload(ListProducts, companyId, productId, targetId, inputValue, parse).value, isUrl)
         == Ok(ListProductsRequest(companyId))
    ensures DecodeRequest(BuildPayload(ListPlans, companyId, productId, targetId, inputValue, parse).value, isUrl)
         == Ok(ListPlansRequest(companyId, if productId == "" then None else Some(productId)))
  {
    var products := ListProductsRequest(companyId);
    var plans := ListPlansRequest(companyId, if productId == "" then None else Some(productId));
    assert BuildPayload(ListProducts, companyId, productId, targetId, inputValue, parse) == Ok(EncodeRequest(products));
    assert BuildPayload(ListPlans, companyId, productId, targetId, inputValue, parse) == Ok(EncodeRequest(plans));
    DecodeEncode(products, isUrl);
    DecodeEncode(plans, isUrl);
  }

  /** A built delete body is accepted by the request schema as the deletion
      of the record the id field names. */
  lemma BuiltDeleteBodiesDecode(companyId: string, productId: string, targetId: string, inputValue: string, parse: JsonParser, isUrl: UrlCheck)
    requires targetId != ""
    ensures DecodeRequest(BuildPayload(DeleteProduct, companyId, productId, targetId, inputValue, parse).value, isUrl)
         == Ok(DeleteProductRequest(targetId))
    ensures DecodeRequest(BuildPayload(DeletePlan, companyId, productId, targetId, inputValue, parse).value, isUrl)
         == Ok(DeletePlanRequest(targetId))
  {
    assert BuildPayload(DeleteProduct, companyId, productId, targetId, inputValue, parse) == Ok(EncodeRequest(DeleteProductRequest(targetId)));
    assert BuildPayload(DeletePlan, companyId, productId, targetId, inputValue, parse) == Ok(EncodeRequest(DeletePlanRequest(targetId)));
    DecodeEncode(DeleteProductRequest(targetId), isUrl);
    DecodeEncode(DeletePlanRequest(targetId), isUrl);
  }

  /** A body built from an input that is the JSON of a valid update is
      accepted as that update of the record the id field names. */
  lemma BuiltUpdateDecodes(targetId: string, inputValue: string, parse: JsonParser, isUrl: UrlCheck, p: ProductInput)
    requires targetId != ""
    requires ParseJSON(inputValue, parse) == Ok(JObj(EncodeProduct(p))) && ValidProductUpdate(p, isUrl)
    ensures DecodeRequest(BuildPayload(UpdateProduct, "", "", targetId, inputValue, parse).value, isUrl)
         == Ok(UpdateProductRequest(targetId, p))
  {
    DecodeEncode(UpdateProductRequest(targetId, p), isUrl);
  }
}
