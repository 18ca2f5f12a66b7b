/** The request schemas of the admin proxy (lib/tools/whopAdmin.ts): which
    JSON bodies are accepted, the typed request each accepted body becomes,
    and the validation issues a rejected body produces.

    Each Zod object schema is written as a list of fields (`Shape`), checked
    in declaration order as Zod does; keys outside the shape are ignored,
    because Zod strips them. The typed records keep `Option` fields, and
    hand-written predicates say which records the schemas admit. */
module Schemas {
  import opened Wrappers
  import opened JsValues

  // ---------------------------------------------------------------------
  // Typed values

  datatype Visibility = Visible | Hidden | Archived | QuickLink {
    function Name(): string {
      match this
      case Visible => "visible"
      case Hidden => "hidden"
      case Archived => "archived"
      case QuickLink => "quick_link"
    }
  }

  datatype Interval = Monthly | Annual {
    function Name(): string {
      match this
      case Monthly => "monthly"
      case Annual => "annual"
    }
  }

  /** The fields of a product create or update input. */
  datatype ProductInput = ProductInput(
    companyId: Option<string>,
    name: Option<string>,
    description: Option<string>,
    imageUrls: Option<seq<string>>,
    visibility: Option<Visibility>)

  /** The fields of a plan create or update input. `trialDays` is absent
      (`None`), explicitly null (`Some(None)`) or a count (`Some(Some(n))`). */
  datatype PlanInput = PlanInput(
    companyId: Option<string>,
    productId: Option<string>,
    name: Option<string>,
    description: Option<string>,
    priceCents: Option<nat>,
    interval: Option<Interval>,
    trialDays: Option<Option<nat>>)

  /** The eight request tags, in the order of the discriminated union. */
  datatype Tool =
    | ListProducts | CreateProduct | UpdateProduct | DeleteProduct
    | ListPlans | CreatePlan | UpdatePlan | DeletePlan
  {
    function Name(): string {
      match this
      case ListProducts => "listProducts"
      case CreateProduct => "createProduct"
      case UpdateProduct => "updateProduct"
      case DeleteProduct => "deleteProduct"
      case ListPlans => "listPlans"
      case CreatePlan => "createPlan"
      case UpdatePlan => "updatePlan"
      case DeletePlan => "deletePlan"
    }

    /** Create, update and delete change upstream state; the two lists do not. */
    predicate Mutating() {
      !(ListProducts? || ListPlans?)
    }
  }

  /** A validated request: each variant carries only its own fields. */
  datatype ToolRequest =
    | ListProductsRequest(companyId: string)
    | CreateProductRequest(product: ProductInput)
    | UpdateProductRequest(id: string, product: ProductInput)
    | DeleteProductRequest(id: string)
    | ListPlansRequest(companyId: string, productId: Option<string>)
    | CreatePlanRequest(plan: PlanInput)
    | UpdatePlanRequest(id: string, plan: PlanInput)
    | DeletePlanRequest(id: string)
  {
    function Kind(): Tool {
      match this
      case ListProductsRequest(_) => ListProducts
      case CreateProductRequest(_) => CreateProduct
      case UpdateProductRequest(_, _) => UpdateProduct
      case DeleteProductRequest(_) => DeleteProduct
      case ListPlansRequest(_, _) => ListPlans
      case CreatePlanRequest(_) => CreatePlan
      case UpdatePlanRequest(_, _) => UpdatePlan
      case DeletePlanRequest(_) => DeletePlan
    }
  }

  /** `z.string().url()` belongs to Zod; the model takes it as a parameter. */
  type UrlCheck = string -> bool

  const MaxImageUrls: nat := 10

  // ---------------------------------------------------------------------
  // What the schemas admit, as predicates over the typed records

  predicate NonEmpty(o: Option<string>) {
    o.Some? && o.value != ""
  }

  predicate NoneOrNonEmpty(o: Option<string>) {
    o.None? || o.value != ""
  }

  predicate UrlsOk(urls: Option<seq<string>>, isUrl: UrlCheck) {
    urls.None? || (|urls.value| <= MaxImageUrls && forall i :: 0 <= i < |urls.value| ==> isUrl(urls.value[i]))
  }

  predicate ProductHasField(p: ProductInput) {
    p.companyId.Some? || p.name.Some? || p.description.Some? || p.imageUrls.Some? || p.visibility.Some?
  }

  predicate PlanHasField(p: PlanInput) {
    p.companyId.Some? || p.productId.Some? || p.name.Some? || p.description.Some?
    || p.priceCents.Some? || p.interval.Some? || p.trialDays.Some?
  }

  /** ProductCreateInputSchema: non-empty company id and name, at most ten
      image URLs, each a URL. */
  predicate ValidProductCreate(p: ProductInput, isUrl: UrlCheck) {
    NonEmpty(p.companyId) && NonEmpty(p.name) && UrlsOk(p.imageUrls, isUrl)
  }

  /** ProductUpdateInputSchema: the create schema made partial (so a present
      company id or name must still be non-empty), with at least one field. */
  predicate ValidProductUpdate(p: ProductInput, isUrl: UrlCheck) {
    NoneOrNonEmpty(p.companyId) && NoneOrNonEmpty(p.name) && UrlsOk(p.imageUrls, isUrl)
    && ProductHasField(p)
  }

  /** PlanCreateInputSchema: non-empty company and product ids, a price and an
      interval. Price and trial days are natural numbers by their type. */
  predicate ValidPlanCreate(p: PlanInput) {
    NonEmpty(p.companyId) && NonEmpty(p.productId) && p.priceCents.Some? && p.interval.Some?
  }

  /** PlanUpdateInputSchema: every field optional, strings may be empty, but
      at least one field must be given. */
  predicate ValidPlanUpdate(p: PlanInput) {
    PlanHasField(p)
  }

  predicate ValidRequest(r: ToolRequest, isUrl: UrlCheck) {
    match r
    case ListProductsRequest(c) => c != ""
    case CreateProductRequest(p) => ValidProductCreate(p, isUrl)
    case UpdateProductRequest(id, p) => id != "" && ValidProductUpdate(p, isUrl)
    case DeleteProductRequest(id) => id != ""
    case ListPlansRequest(c, _) => c != ""
    case CreatePlanRequest(p) => ValidPlanCreate(p)
    case UpdatePlanRequest(id, p) => id != "" && ValidPlanUpdate(p)
    case DeletePlanRequest(id) => id != ""
  }

  // ---------------------------------------------------------------------
  // Issues

  datatype PathItem = Key(key: string) | Index(index: nat)

  datatype IssueCode =
    | Required                 // a required key is missing
    | InvalidType(expected: string)
    | TooSmall                 // a string shorter than its minimum of one
    | TooBig                   // more than ten image URLs
    | InvalidUrl
    | InvalidEnum
    | NotInteger
    | Negative
    | InvalidDiscriminator     // `type` is not one of the eight tags
    | NoFields                 // an update input with no recognised field

  datatype Issue = Issue(path: seq<PathItem>, code: IssueCode)

  /** The one message the repository itself writes; all other wording is Zod's. */
  const AtLeastOneFieldMessage := "At least one field must be provided"

  /** An issue's message: the refinement's own text, or Zod's wording, which
      the model takes as a parameter. */
  function IssueMessage(issue: Issue, zodText: Issue -> string): string {
    if issue.code == NoFields then AtLeastOneFieldMessage else zodText(issue)
  }

  // ---------------------------------------------------------------------
  // Schemas as data

  datatype FieldSchema =
    | StringField(minOne: bool)                 // z.string(), or z.string().min(1)
    | UrlListField                              // z.array(z.string().url()).max(10)
    | VisibilityField                           // the visibility enum
    | CentsField                                // z.number().int().nonnegative()
    | IntervalField                             // the interval enum
    | TrialDaysField                            // ... .nullable()
    | ObjectField(shape: seq<Field>, atLeastOne: bool)

  datatype Field = Field(key: string, schema: FieldSchema, required: bool)

  type Shape = seq<Field>

  const ProductCreateShape: Shape := [
    Field("companyId", StringField(true), true),
    Field("name", StringField(true), true),
    Field("description", StringField(false), false),
    Field("imageUrls", UrlListField, false),
    Field("visibility", VisibilityField, false)
  ]

  /** Zod's `.partial()`: every field optional, checks unchanged. */
  function Partial(shape: Shape): (r: Shape)
    ensures |r| == |shape|
    ensures forall i :: 0 <= i < |shape| ==> r[i] == shape[i].(required := false)
  {
    if shape == [] then [] else [shape[0].(required := false)] + Partial(shape[1..])
  }

  const ProductUpdateShape: Shape := Partial(ProductCreateShape)

  const PlanCreateShape: Shape := [
    Field("companyId", StringField(true), true),
    Field("productId", StringField(true), true),
    Field("name", StringField(false), false),
    Field("description", StringField(false), false),
    Field("priceCents", CentsField, true),
    Field("interval", IntervalField, true),
    Field("trialDays", TrialDaysField, false)
  ]

  /** Written out separately in the source: its strings have no minimum. */
  const PlanUpdateShape: Shape := [
    Field("companyId", StringField(false), false),
    Field("productId", StringField(false), false),
    Field("name", StringField(false), false),
    Field("description", StringField(false), false),
    Field("priceCents", CentsField, false),
    Field("interval", IntervalField, false),
    Field("trialDays", TrialDaysField, false)
  ]

  /** The fields of each request variant, after its `type` literal. */
  function RequestShape(t: Tool): Shape {
    match t
    case ListProducts => [Field("companyId", StringField(true), true)]
    case CreateProduct => [Field("input", ObjectField(ProductCreateShape, false), true)]
    case UpdateProduct =>
      [Field("id", StringField(true), true), Field("input", ObjectField(ProductUpdateShape, true), true)]
    case DeleteProduct => [Field("id", StringField(true), true)]
    case ListPlans =>
      [Field("companyId", StringField(true), true), Field("productId", StringField(false), false)]
    case CreatePlan => [Field("input", ObjectField(PlanCreateShape, false), true)]
    case UpdatePlan =>
      [Field("id", StringField(true), true), Field("input", ObjectField(PlanUpdateShape, true), true)]
    case DeletePlan => [Field("id", StringField(true), true)]
  }

  // ---------------------------------------------------------------------
  // Checking a JSON value against a schema

  predicate IsInteger(n: real) {
    n.Floor as real == n
  }

  function VisibilityNamed(s: string): Option<Visibility> {
    if s == "visible" then Some(Visible)
    else if s == "hidden" then Some(Hidden)
    else if s == "archived" then Some(Archived)
    else if s == "quick_link" then Some(QuickLink)
    else None
  }

  function IntervalNamed(s: string): Option<Interval> {
    if s == "monthly" then Some(Monthly) else if s == "annual" then Some(Annual) else None
  }

  function ToolNamed(s: string): Option<Tool> {
    if s == "listProducts" then Some(ListProducts)
    else if s == "createProduct" then Some(CreateProduct)
    else if s == "updateProduct" then Some(UpdateProduct)
    else if s == "deleteProduct" then Some(DeleteProduct)
    else if s == "listPlans" then Some(ListPlans)
    else if s == "createPlan" then Some(CreatePlan)
    else if s == "updatePlan" then Some(UpdatePlan)
    else if s == "deletePlan" then Some(DeletePlan)
    else None
  }

  /** The issues of the elements of an image-URL array, from index `from` on. */
  function UrlItemIssues(items: seq<Json>, path: seq<PathItem>, from: nat, isUrl: UrlCheck): seq<Issue>
    requires from <= |items|
    decreases |items| - from
  {
    if from == |items| then []
    else
      var here := path + [Index(from)];
      var issue :=
        if !items[from].JStr? then [Issue(here, InvalidType("string"))]
        else if !isUrl(items[from].s) then [Issue(here, InvalidUrl)]
        else [];
      issue + UrlItemIssues(items, path, from + 1, isUrl)
  }

  function CentsIssues(j: Json, path: seq<PathItem>): seq<Issue> {
    if !j.JNum? then [Issue(path, InvalidType("number"))]
    else
      (if IsInteger(j.n) then [] else [Issue(path, NotInteger)])
      + (if j.n >= 0.0 then [] else [Issue(path, Negative)])
  }

  predicate HasKeyOf(m: map<string, Json>, shape: Shape) {
    exists i :: 0 <= i < |shape| && shape[i].key in m
  }

  /** The issues Zod reports for a present value `j` under `schema`. */
  function ValueIssues(j: Json, path: seq<PathItem>, schema: FieldSchema, isUrl: UrlCheck): seq<Issue>
    decreases schema, 1
  {
    match schema
    case StringField(minOne) =>
      if !j.JStr? then [Issue(path, InvalidType("string"))]
      else if minOne && j.s == "" then [Issue(path, TooSmall)]
      else []
    case UrlListField =>
      if !j.JArr? then [Issue(path, InvalidType("array"))]
      else
        (if |j.items| > MaxImageUrls then [Issue(path, TooBig)] else [])
        + UrlItemIssues(j.items, path, 0, isUrl)
    case VisibilityField =>
      if !j.JStr? then [Issue(path, InvalidType("string"))]
      else if VisibilityNamed(j.s).None? then [Issue(path, InvalidEnum)]
      else []
    case CentsField => CentsIssues(j, path)
    case IntervalField =>
      if !j.JStr? then [Issue(path, InvalidType("string"))]
      else if IntervalNamed(j.s).None? then [Issue(path, InvalidEnum)]
      else []
    case TrialDaysField => if j.JNull? then [] else CentsIssues(j, path)
    case ObjectField(shape, atLeastOne) =>
      if !j.JObj? then [Issue(path, InvalidType("object"))]
      else
        ShapeIssues(j.fields, path, shape, isUrl)
        + (if atLeastOne && !HasKeyOf(j.fields, shape) then [Issue(path, NoFields)] else [])
  }

  /** The issues of one field of an object: "Required" when a required key is
      missing, nothing when an optional one is. */
  function FieldIssues(m: map<string, Json>, path: seq<PathItem>, f: Field, isUrl: UrlCheck): seq<Issue>
    decreases f.schema, 2
  {
    if f.key in m then ValueIssues(m[f.key], path + [Key(f.key)], f.schema, isUrl)
    else if f.required then [Issue(path + [Key(f.key)], Required)]
    else []
  }

  /** The issues of every field of a shape, in declaration order. */
  function ShapeIssues(m: map<string, Json>, path: seq<PathItem>, shape: Shape, isUrl: UrlCheck): seq<Issue>
    decreases shape
  {
    if shape == [] then []
    else FieldIssues(m, path, shape[0], isUrl) + ShapeIssues(m, path, shape[1..], isUrl)
  }

  // ---------------------------------------------------------------------
  // Reading typed values out of an object that raised no issue

  function StrAt(m: map<string, Json>, k: string): Option<string> {
    if k in m && m[k].JStr? then Some(m[k].s) else None
  }

  function TextAt(m: map<string, Json>, k: string): string {
    if k in m && m[k].JStr? then m[k].s else ""
  }

  function UrlsAt(m: map<string, Json>, k: string): Option<seq<string>> {
    if k in m && m[k].JArr? then
      var items := m[k].items;
      Some(seq(|items|, i requires 0 <= i < |items| => if items[i].JStr? then items[i].s else ""))
    else None
  }

  function VisibilityAt(m: map<string, Json>, k: string): Option<Visibility> {
    if k in m && m[k].JStr? then VisibilityNamed(m[k].s) else None
  }

  function IntervalAt(m: map<string, Json>, k: string): Option<Interval> {
    if k in m && m[k].JStr? then IntervalNamed(m[k].s) else None
  }

  function CentsOf(j: Json): nat {
    if j.JNum? && j.n >= 0.0 then j.n.Floor as nat else 0
  }

  function CentsAt(m: map<string, Json>, k: string): Option<nat> {
    if k in m then Some(CentsOf(m[k])) else None
  }

  function TrialDaysAt(m: map<string, Json>, k: string): Option<Option<nat>> {
    if k !in m then None
    else if m[k].JNull? then Some(None)
    else Some(Some(CentsOf(m[k])))
  }

  function ObjAt(m: map<string, Json>, k: string): map<string, Json> {
    if k in m && m[k].JObj? then m[k].fields else map[]
  }

  function ProductFrom(m: map<string, Json>): ProductInput {
    ProductInput(StrAt(m, "companyId"), StrAt(m, "name"), StrAt(m, "description"),
                 UrlsAt(m, "imageUrls"), VisibilityAt(m, "visibility"))
  }

  function PlanFrom(m: map<string, Json>): PlanInput {
    PlanInput(StrAt(m, "companyId"), StrAt(m, "productId"), StrAt(m, "name"),
              StrAt(m, "description"), CentsAt(m, "priceCents"), IntervalAt(m, "interval"),
              TrialDaysAt(m, "trialDays"))
  }

  function RequestFrom(t: Tool, m: map<string, Json>): ToolRequest {
    match t
    case ListProducts => ListProductsRequest(TextAt(m, "companyId"))
    case CreateProduct => CreateProductRequest(ProductFrom(ObjAt(m, "input")))
    case UpdateProduct => UpdateProductRequest(TextAt(m, "id"), ProductFrom(ObjAt(m, "input")))
    case DeleteProduct => DeleteProductRequest(TextAt(m, "id"))
    case ListPlans => ListPlansRequest(TextAt(m, "companyId"), StrAt(m, "productId"))
    case CreatePlan => CreatePlanRequest(PlanFrom(ObjAt(m, "input")))
    case UpdatePlan => UpdatePlanRequest(TextAt(m, "id"), PlanFrom(ObjAt(m, "input")))
    case DeletePlan => DeletePlanRequest(TextAt(m, "id"))
  }

  /** ToolRequestSchema.parse: the body must be an object whose `type` names
      one of the eight tags; then that variant's fields are checked, and the
      body is accepted exactly when no issue was raised. */
  function DecodeRequest(j: Json, isUrl: UrlCheck): (r: Result<ToolRequest, seq<Issue>>)
    ensures r.Err? ==> r.error != []
  {
    if !j.JObj? then Err([Issue([], InvalidType("object"))])
    else
      var tag := Get(j, "type");
      if !(tag.Some? && tag.value.JStr? && ToolNamed(tag.value.s).Some?) then
        Err([Issue([Key("type")], InvalidDiscriminator)])
      else
        var t := ToolNamed(tag.value.s).value;
        var issues := ShapeIssues(j.fields, [], RequestShape(t), isUrl);
        if issues == [] then Ok(RequestFrom(t, j.fields)) else Err(issues)
  }

  // ---------------------------------------------------------------------
  // Encoding a typed request as the JSON body a client sends

  /** Adds `k: v` when `v` is present, as `JSON.stringify` drops undefined. */
  function Put(m: map<string, Json>, k: string, v: Option<Json>): map<string, Json> {
    if v.Some? then m[k := v.value] else m
  }

  function StrJson(o: Option<string>): Option<Json> {
    if o.Some? then Some(JStr(o.value)) else None
  }

  function UrlsJson(urls: seq<string>): Json {
    JArr(seq(|urls|, i requires 0 <= i < |urls| => JStr(urls[i])))
  }

  function CentsJson(n: nat): Json {
    JNum(n as real)
  }

  const ProductKeys: set<string> := {"companyId", "name", "description", "imageUrls", "visibility"}

  /** The JSON value a client sends under key `k` of a product input, if any. */
  function ProductValue(p: ProductInput, k: string): Option<Json> {
    if k == "companyId" then StrJson(p.companyId)
    else if k == "name" then StrJson(p.name)
    else if k == "description" then StrJson(p.description)
    else if k == "imageUrls" then (if p.imageUrls.Some? then Some(UrlsJson(p.imageUrls.value)) else None)
    else if k == "visibility" then (if p.visibility.Some? then Some(JStr(p.visibility.value.Name())) else None)
    else None
  }

  function EncodeProduct(p: ProductInput): map<string, Json> {
    map k | k in ProductKeys && ProductValue(p, k).Some? :: ProductValue(p, k).value
  }

  function TrialDaysJson(t: Option<nat>): Json {
    if t.Some? then CentsJson(t.value) else JNull
  }

  const PlanKeys: set<string> := {"companyId", "productId", "name", "description", "priceCents", "interval", "trialDays"}

  /** The JSON value a client sends under key `k` of a plan input, if any. */
  function PlanValue(p: PlanInput, k: string): Option<Json> {
    if k == "companyId" then StrJson(p.companyId)
    else if k == "productId" then StrJson(p.productId)
    else if k == "name" then StrJson(p.name)
    else if k == "description" then StrJson(p.description)
    else if k == "priceCents" then (if p.priceCents.Some? then Some(CentsJson(p.priceCents.value)) else None)
    else if k == "interval" then (if p.interval.Some? then Some(JStr(p.interval.value.Name())) else None)
    else if k == "trialDays" then (if p.trialDays.Some? then Some(TrialDaysJson(p.trialDays.value)) else None)
    else None
  }

  function EncodePlan(p: PlanInput): map<string, Json> {
    map k | k in PlanKeys && PlanValue(p, k).Some? :: PlanValue(p, k).value
  }

  function EncodeRequest(r: ToolRequest): Json {
    var tag := map["type" := JStr(r.Kind().Name())];
    match r
    case ListProductsRequest(c) => JObj(tag["companyId" := JStr(c)])
    case CreateProductRequest(p) => JObj(tag["input" := JObj(EncodeProduct(p))])
    case UpdateProductRequest(id, p) => JObj(tag["id" := JStr(id)]["input" := JObj(EncodeProduct(p))])
    case DeleteProductRequest(id) => JObj(tag["id" := JStr(id)])
    case ListPlansRequest(c, pid) => JObj(Put(tag["companyId" := JStr(c)], "productId", StrJson(pid)))
    case CreatePlanRequest(p) => JObj(tag["input" := JObj(EncodePlan(p))])
    case UpdatePlanRequest(id, p) => JObj(tag["id" := JStr(id)]["input" := JObj(EncodePlan(p))])
    case DeletePlanRequest(id) => JObj(tag["id" := JStr(id)])
  }

  // ---------------------------------------------------------------------
  // What the checks mean

  /** An object raises no issue exactly when none of its fields does. */
  lemma {:induction false} ShapeIssuesEmpty(m: map<string, Json>, path: seq<PathItem>, shape: Shape, isUrl: UrlCheck)
    ensures ShapeIssues(m, path, shape, isUrl) == []
        <==> forall i :: 0 <= i < |shape| ==> FieldIssues(m, path, shape[i], isUrl) == []
  {
    if shape != [] {
      ShapeIssuesEmpty(m, path, shape[1..], isUrl);
      assert forall i :: 1 <= i < |shape| ==> shape[i] == shape[1..][i - 1];
    }
  }

  /** An image-URL array raises no element issue exactly when every element
      is a string that passes the URL check. */
  lemma {:induction false} UrlItemIssuesEmpty(items: seq<Json>, path: seq<PathItem>, from: nat, isUrl: UrlCheck)
    requires from <= |items|
    ensures UrlItemIssues(items, path, from, isUrl) == []
        <==> forall i :: from <= i < |items| ==> items[i].JStr? && isUrl(items[i].s)
    decreases |items| - from
  {
    if from < |items| {
      UrlItemIssuesEmpty(items, path, from + 1, isUrl);
    }
  }

  /** One field of an object that raised no issue raised none itself. */
  lemma FieldOk(m: map<string, Json>, path: seq<PathItem>, shape: Shape, i: nat, isUrl: UrlCheck)
    requires i < |shape| && ShapeIssues(m, path, shape, isUrl) == []
    ensures FieldIssues(m, path, shape[i], isUrl) == []
  {
    ShapeIssuesEmpty(m, path, shape, isUrl);
  }

  /** With no recognised key present, an "at least one field" object of
      optional fields raises the one NoFields issue. */
  lemma NoKeysRejected(m: map<string, Json>, path: seq<PathItem>, shape: Shape, isUrl: UrlCheck)
    requires forall i :: 0 <= i < |shape| ==> !shape[i].required && shape[i].key !in m
    ensures ValueIssues(JObj(m), path, ObjectField(shape, true), isUrl) == [Issue(path, NoFields)]
  {
    ShapeIssuesEmpty(m, path, shape, isUrl);
    assert !HasKeyOf(m, shape);
  }

  /** The keys the two update schemas declare. */
  const UpdateKeys: set<string> := {"companyId", "productId", "name", "description", "imageUrls", "visibility", "priceCents", "interval", "trialDays"}

  /** Every field of an update schema is optional and has one of UpdateKeys. */
  lemma UpdateShapeKeys(t: Tool)
    requires t == UpdateProduct || t == UpdatePlan
    ensures RequestShape(t)[1].schema.ObjectField?
    ensures var shape := RequestShape(t)[1].schema.shape;
      forall i :: 0 <= i < |shape| ==> !shape[i].required && shape[i].key in UpdateKeys
  {
    if t == UpdateProduct {
      var shape := ProductUpdateShape;
      forall i | 0 <= i < |shape|
        ensures !shape[i].required && shape[i].key in UpdateKeys
      {
        assert shape[i].key == ProductCreateShape[i].key;
      }
    }
  }

  /** An update input naming no field of its schema (unknown keys are
      stripped first) is rejected with the single "at least one field" issue. */
  lemma EmptyUpdateRejected(m: map<string, Json>, path: seq<PathItem>, t: Tool, isUrl: UrlCheck)
    requires t == UpdateProduct || t == UpdatePlan
    requires forall k :: k in m ==> k !in UpdateKeys
    ensures var schema := RequestShape(t)[1].schema;
      ValueIssues(JObj(m), path, schema, isUrl) == [Issue(path, NoFields)]
      && IssueMessage(Issue(path, NoFields), _ => "") == AtLeastOneFieldMessage
  {
    UpdateShapeKeys(t);
    NoKeysRejected(m, path, RequestShape(t)[1].schema.shape, isUrl);
  }

  /** Cents and trial days: a non-negative integer, trial days also null;
      a fraction and a negative number each raise their own issue. */
  lemma NumberRules(j: Json, path: seq<PathItem>, isUrl: UrlCheck)
    ensures ValueIssues(j, path, CentsField, isUrl) == [] <==> j.JNum? && IsInteger(j.n) && j.n >= 0.0
    ensures ValueIssues(j, path, TrialDaysField, isUrl) == [] <==>
      j.JNull? || (j.JNum? && IsInteger(j.n) && j.n >= 0.0)
    ensures ValueIssues(JNum(-1.5), path, CentsField, isUrl) == [Issue(path, NotInteger), Issue(path, Negative)]
    ensures ValueIssues(JNull, path, CentsField, isUrl) == [Issue(path, InvalidType("number"))]
  {
    assert (-1.5).Floor == -2;
  }

  /** Image URLs: more than ten are refused whatever they hold; a required
      string with a minimum refuses the empty string. */
  lemma ListAndStringRules(items: seq<Json>, path: seq<PathItem>, isUrl: UrlCheck)
    ensures ValueIssues(JArr(items), path, UrlListField, isUrl) == [] ==> |items| <= MaxImageUrls
    ensures |items| > MaxImageUrls ==> ValueIssues(JArr(items), path, UrlListField, isUrl)[0] == Issue(path, TooBig)
    ensures ValueIssues(JStr(""), path, StringField(true), isUrl) == [Issue(path, TooSmall)]
    ensures ValueIssues(JStr(""), path, StringField(false), isUrl) == []
  {
  }

  lemma ToolNamedName(s: string, t: Tool)
    ensures ToolNamed(s) == Some(t) <==> s == t.Name()
  {
  }

  /** Accepted image URLs satisfy the URL and size rules. */
  lemma UrlsSound(m: map<string, Json>, path: seq<PathItem>, isUrl: UrlCheck)
    requires "imageUrls" in m ==> ValueIssues(m["imageUrls"], path, UrlListField, isUrl) == []
    ensures UrlsOk(UrlsAt(m, "imageUrls"), isUrl)
  {
    if "imageUrls" in m && m["imageUrls"].JArr? {
      var items := m["imageUrls"].items;
      UrlItemIssuesEmpty(items, path, 0, isUrl);
    }
  }

  /** Every product input the create schema accepts satisfies
      ValidProductCreate. */
  lemma ProductCreateSound(m: map<string, Json>, path: seq<PathItem>, isUrl: UrlCheck)
    requires ShapeIssues(m, path, ProductCreateShape, isUrl) == []
    ensures ValidProductCreate(ProductFrom(m), isUrl)
  {
    ShapeIssuesEmpty(m, path, ProductCreateShape, isUrl);
    assert FieldIssues(m, path, ProductCreateShape[0], isUrl) == [];
    assert FieldIssues(m, path, ProductCreateShape[1], isUrl) == [];
    assert FieldIssues(m, path, ProductCreateShape[3], isUrl) == [];
    UrlsSound(m, path + [Key("imageUrls")], isUrl);
  }

  /** Every product input the update schema accepts satisfies
      ValidProductUpdate. */
  lemma ProductUpdateSound(j: Json, path: seq<PathItem>, isUrl: UrlCheck)
    requires j.JObj?
    requires ValueIssues(j, path, ObjectField(ProductUpdateShape, true), isUrl) == []
    ensures ValidProductUpdate(ProductFrom(j.fields), isUrl)
  {
    var m := j.fields;
    var shape := ProductUpdateShape;
    ShapeIssuesEmpty(m, path, shape, isUrl);
    forall i | 0 <= i < |shape|
      ensures shape[i].key in m ==> ValueIssues(m[shape[i].key], path + [Key(shape[i].key)], shape[i].schema, isUrl) == []
    {
      assert FieldIssues(m, path, shape[i], isUrl) == [];
    }
    assert shape[3].key == "imageUrls";
    UrlsSound(m, path + [Key("imageUrls")], isUrl);
    assert HasKeyOf(m, shape);
    var i :| 0 <= i < |shape| && shape[i].key in m;
    assert i == 0 || i == 1 || i == 2 || i == 3 || i == 4;
  }

  /** Every plan input the create schema accepts satisfies ValidPlanCreate. */
  lemma PlanCreateSound(m: map<string, Json>, path: seq<PathItem>, isUrl: UrlCheck)
    requires ShapeIssues(m, path, PlanCreateShape, isUrl) == []
    ensures ValidPlanCreate(PlanFrom(m))
  {
    ShapeIssuesEmpty(m, path, PlanCreateShape, isUrl);
    assert FieldIssues(m, path, PlanCreateShape[0], isUrl) == [];
    assert FieldIssues(m, path, PlanCreateShape[1], isUrl) == [];
    assert FieldIssues(m, path, PlanCreateShape[4], isUrl) == [];
    assert FieldIssues(m, path, PlanCreateShape[5], isUrl) == [];
  }

  /** Every plan input the update schema accepts satisfies ValidPlanUpdate. */
  lemma PlanUpdateSound(j: Json, path: seq<PathItem>, isUrl: UrlCheck)
    requires j.JObj?
    requires ValueIssues(j, path, ObjectField(PlanUpdateShape, true), isUrl) == []
    ensures ValidPlanUpdate(PlanFrom(j.fields))
  {
    var m := j.fields;
    var shape := PlanUpdateShape;
    assert ShapeIssues(m, path, shape, isUrl) == [] && HasKeyOf(m, shape);
    var i :| 0 <= i < |shape| && shape[i].key in m;
    FieldOk(m, path, shape, i, isUrl);
    var p := PlanFrom(m);
    if i == 0 { assert p.companyId.Some?; }
    else if i == 1 { assert p.productId.Some?; }
    else if i == 2 { assert p.name.Some?; }
    else if i == 3 { assert p.description.Some?; }
    else if i == 4 { assert p.priceCents.Some?; }
    else if i == 5 { assert p.interval.Some?; }
    else { assert p.trialDays.Some?; }
  }

  /** A required nested `input` that raised no issue is an object whose own
      fields raised none. */
  lemma InputFieldOk(m: map<string, Json>, shape: Shape, atLeastOne: bool, isUrl: UrlCheck)
    requires FieldIssues(m, [], Field("input", ObjectField(shape, atLeastOne), true), isUrl) == []
    ensures "input" in m && m["input"].JObj?
    ensures ValueIssues(m["input"], [Key("input")], ObjectField(shape, atLeastOne), isUrl) == []
    ensures ShapeIssues(m["input"].fields, [Key("input")], shape, isUrl) == []
  {
    assert [] + [Key("input")] == [Key("input")];
  }

  /** The accepted fields of a create-product request form a valid request. */
  lemma CreateProductFieldsSound(m: map<string, Json>, isUrl: UrlCheck)
    requires ShapeIssues(m, [], RequestShape(CreateProduct), isUrl) == []
    ensures ValidRequest(RequestFrom(CreateProduct, m), isUrl)
  {
    ShapeIssuesEmpty(m, [], RequestShape(CreateProduct), isUrl);
    assert FieldIssues(m, [], RequestShape(CreateProduct)[0], isUrl) == [];
    InputFieldOk(m, ProductCreateShape, false, isUrl);
    ProductCreateSound(ObjAt(m, "input"), [Key("input")], isUrl);
  }

  /** The accepted fields of an update-product request form a valid request. */
  lemma UpdateProductFieldsSound(m: map<string, Json>, isUrl: UrlCheck)
    requires ShapeIssues(m, [], RequestShape(UpdateProduct), isUrl) == []
    ensures ValidRequest(RequestFrom(UpdateProduct, m), isUrl)
  {
    var shape := RequestShape(UpdateProduct);
    ShapeIssuesEmpty(m, [], shape, isUrl);
    assert FieldIssues(m, [], shape[0], isUrl) == [];
    assert FieldIssues(m, [], shape[1], isUrl) == [];
    InputFieldOk(m, ProductUpdateShape, true, isUrl);
    ProductUpdateSound(m["input"], [Key("input")], isUrl);
  }

  /** The accepted fields of a create-plan request form a valid request. */
  lemma CreatePlanFieldsSound(m: map<string, Json>, isUrl: UrlCheck)
    requires ShapeIssues(m, [], RequestShape(CreatePlan), isUrl) == []
    ensures ValidRequest(RequestFrom(CreatePlan, m), isUrl)
  {
    ShapeIssuesEmpty(m, [], RequestShape(CreatePlan), isUrl);
    assert FieldIssues(m, [], RequestShape(CreatePlan)[0], isUrl) == [];
    InputFieldOk(m, PlanCreateShape, false, isUrl);
    PlanCreateSound(ObjAt(m, "input"), [Key("input")], isUrl);
  }

  /** The accepted fields of an update-plan request form a valid request. */
  lemma UpdatePlanFieldsSound(m: map<string, Json>, isUrl: UrlCheck)
    requires ShapeIssues(m, [], RequestShape(UpdatePlan), isUrl) == []
    ensures ValidRequest(RequestFrom(UpdatePlan, m), isUrl)
  {
    var shape := RequestShape(UpdatePlan);
    ShapeIssuesEmpty(m, [], shape, isUrl);
    assert FieldIssues(m, [], shape[0], isUrl) == [];
    assert FieldIssues(m, [], shape[1], isUrl) == [];
    InputFieldOk(m, PlanUpdateShape, true, isUrl);
    PlanUpdateSound(m["input"], [Key("input")], isUrl);
  }

  /** The accepted fields of a list or delete request form a valid request. */
  lemma PlainFieldsSound(t: Tool, m: map<string, Json>, isUrl: UrlCheck)
    requires t == ListProducts || t == DeleteProduct || t == ListPlans || t == DeletePlan
    requires ShapeIssues(m, [], RequestShape(t), isUrl) == []
    ensures ValidRequest(RequestFrom(t, m), isUrl)
  {
    var shape := RequestShape(t);
    ShapeIssuesEmpty(m, [], shape, isUrl);
    assert FieldIssues(m, [], shape[0], isUrl) == [];
  }

  /** The fields of each request variant, once accepted, form a valid request. */
  lemma RequestFieldsSound(t: Tool, m: map<string, Json>, isUrl: UrlCheck)
    requires ShapeIssues(m, [], RequestShape(t), isUrl) == []
    ensures ValidRequest(RequestFrom(t, m), isUrl)
  {
    match t
    case CreateProduct => CreateProductFieldsSound(m, isUrl);
    case UpdateProduct => UpdateProductFieldsSound(m, isUrl);
    case CreatePlan => CreatePlanFieldsSound(m, isUrl);
    case UpdatePlan => UpdatePlanFieldsSound(m, isUrl);
    case _ => PlainFieldsSound(t, m, isUrl);
  }

  /** Soundness of the request schema: an accepted body becomes a request of
      the tag named by its `type`, and that request satisfies ValidRequest. */
  lemma DecodeSound(j: Json, isUrl: UrlCheck)
    requires DecodeRequest(j, isUrl).Ok?
    ensures var r := DecodeRequest(j, isUrl).value;
      ValidRequest(r, isUrl) && Get(j, "type") == Some(JStr(r.Kind().Name()))
  {
    var m := j.fields;
    var name := Get(j, "type").value.s;
    var t := ToolNamed(name).value;
    assert DecodeRequest(j, isUrl) == Ok(RequestFrom(t, m));
    ToolNamedName(name, t);
    RequestFieldsSound(t, m, isUrl);
  }

  // ---------------------------------------------------------------------
  // Completeness: every valid request, sent as JSON, is accepted unchanged

  /** Image URLs sent as a JSON array of strings are read back unchanged. */
  lemma UrlsRoundTrip(m: map<string, Json>, urls: seq<string>)
    requires "imageUrls" in m && m["imageUrls"] == UrlsJson(urls)
    ensures UrlsAt(m, "imageUrls") == Some(urls)
  {
    assert UrlsAt(m, "imageUrls").value == urls;
  }

  /** Image URLs that satisfy the URL and size rules, sent as JSON, raise no
      issue. */
  lemma UrlsAccepted(urls: seq<string>, isUrl: UrlCheck, path: seq<PathItem>)
    requires UrlsOk(Some(urls), isUrl)
    ensures ValueIssues(UrlsJson(urls), path, UrlListField, isUrl) == []
  {
    UrlItemIssuesEmpty(UrlsJson(urls).items, path, 0, isUrl);
  }

  lemma {:induction false} ProductRoundTrip(p: ProductInput)
    ensures ProductFrom(EncodeProduct(p)) == p
  {
    var m := EncodeProduct(p);
    if p.imageUrls.Some? {
      UrlsRoundTrip(m, p.imageUrls.value);
    }
    assert p.visibility.Some? ==> VisibilityNamed(p.visibility.value.Name()) == p.visibility;
  }

  lemma {:induction false} PlanRoundTrip(p: PlanInput)
    ensures PlanFrom(EncodePlan(p)) == p
  {
    assert p.interval.Some? ==> IntervalNamed(p.interval.value.Name()) == p.interval;
    assert p.priceCents.Some? ==> CentsOf(CentsJson(p.priceCents.value)) == p.priceCents.value;
    assert p.trialDays.Some? && p.trialDays.value.Some? ==>
      CentsOf(CentsJson(p.trialDays.value.value)) == p.trialDays.value.value;
  }

  /** A present encoded value of the right kind raises no issue. */
  lemma EncodedFieldsOk(p: ProductInput, path: seq<PathItem>, shape: Shape, isUrl: UrlCheck)
    requires shape == ProductCreateShape || shape == ProductUpdateShape
    requires NoneOrNonEmpty(p.companyId) && NoneOrNonEmpty(p.name) && UrlsOk(p.imageUrls, isUrl)
    ensures forall i :: 0 <= i < |shape| && shape[i].key in EncodeProduct(p) ==>
      FieldIssues(EncodeProduct(p), path, shape[i], isUrl) == []
  {
    var m := EncodeProduct(p);
    forall i | 0 <= i < |shape| && shape[i].key in m
      ensures FieldIssues(m, path, shape[i], isUrl) == []
    {
      if i == 3 {
        UrlsAccepted(p.imageUrls.value, isUrl, path + [Key("imageUrls")]);
      } else if i == 4 {
        assert VisibilityNamed(p.visibility.value.Name()).Some?;
      }
    }
  }

  /** An object raises no issue when each present field raises none and
      each absent field is optional. */
  lemma PresentFieldsAccepted(m: map<string, Json>, path: seq<PathItem>, shape: Shape, isUrl: UrlCheck)
    requires forall i :: 0 <= i < |shape| && shape[i].key in m ==> FieldIssues(m, path, shape[i], isUrl) == []
    requires forall i :: 0 <= i < |shape| ==> !shape[i].required
    ensures ShapeIssues(m, path, shape, isUrl) == []
  {
    ShapeIssuesEmpty(m, path, shape, isUrl);
  }

  lemma ProductCreateAccepted(p: ProductInput, path: seq<PathItem>, isUrl: UrlCheck)
    requires ValidProductCreate(p, isUrl)
    ensures ShapeIssues(EncodeProduct(p), path, ProductCreateShape, isUrl) == []
  {
    EncodedFieldsOk(p, path, ProductCreateShape, isUrl);
    ShapeIssuesEmpty(EncodeProduct(p), path, ProductCreateShape, isUrl);
  }

  lemma ProductUpdateAccepted(p: ProductInput, path: seq<PathItem>, isUrl: UrlCheck)
    requires ValidProductUpdate(p, isUrl)
    ensures ValueIssues(JObj(EncodeProduct(p)), path, ObjectField(ProductUpdateShape, true), isUrl) == []
  {
    var m := EncodeProduct(p);
    var shape := ProductUpdateShape;
    EncodedFieldsOk(p, path, shape, isUrl);
    PresentFieldsAccepted(m, path, shape, isUrl);
    if p.companyId.Some? { assert shape[0].key in m; }
    else if p.name.Some? { assert shape[1].key in m; }
    else if p.description.Some? { assert shape[2].key in m; }
    else if p.imageUrls.Some? { assert shape[3].key in m; }
    else { assert shape[4].key in m; }
    AtLeastOneAccepted(m, path, shape, isUrl);
  }

  /** Every present encoded plan value raises no issue under either plan
      shape; what remains is whether required keys are present. */
  lemma EncodedPlanFieldsOk(p: PlanInput, path: seq<PathItem>, shape: Shape, isUrl: UrlCheck)
    requires shape == PlanCreateShape || shape == PlanUpdateShape
    requires shape == PlanCreateShape ==> NoneOrNonEmpty(p.companyId) && NoneOrNonEmpty(p.productId)
    ensures forall i :: 0 <= i < |shape| && shape[i].key in EncodePlan(p) ==>
      FieldIssues(EncodePlan(p), path, shape[i], isUrl) == []
  {
    var m := EncodePlan(p);
    forall i | 0 <= i < |shape| && shape[i].key in m
      ensures FieldIssues(m, path, shape[i], isUrl) == []
    {
      var k := shape[i].key;
      var here := path + [Key(k)];
      if i == 4 {
        assert ValueIssues(m[k], here, CentsField, isUrl) == [];
      } else if i == 6 {
        assert ValueIssues(m[k], here, TrialDaysField, isUrl) == [];
      }
    }
  }

  lemma PlanCreateAccepted(p: PlanInput, path: seq<PathItem>, isUrl: UrlCheck)
    requires ValidPlanCreate(p)
    ensures ShapeIssues(EncodePlan(p), path, PlanCreateShape, isUrl) == []
  {
    EncodedPlanFieldsOk(p, path, PlanCreateShape, isUrl);
    ShapeIssuesEmpty(EncodePlan(p), path, PlanCreateShape, isUrl);
  }

  /** With every field clean and some recognised key present, an
      "at least one field" object raises no issue. */
  lemma AtLeastOneAccepted(m: map<string, Json>, path: seq<PathItem>, shape: Shape, isUrl: UrlCheck)
    requires ShapeIssues(m, path, shape, isUrl) == []
    requires HasKeyOf(m, shape)
    ensures ValueIssues(JObj(m), path, ObjectField(shape, true), isUrl) == []
  {
  }

  lemma PlanUpdateAccepted(p: PlanInput, path: seq<PathItem>, isUrl: UrlCheck)
    requires ValidPlanUpdate(p)
    ensures ValueIssues(JObj(EncodePlan(p)), path, ObjectField(PlanUpdateShape, true), isUrl) == []
  {
    var m := EncodePlan(p);
    var shape := PlanUpdateShape;
    EncodedPlanFieldsOk(p, path, shape, isUrl);
    PresentFieldsAccepted(m, path, shape, isUrl);
    if p.companyId.Some? { assert shape[0].key in m; }
    else if p.productId.Some? { assert shape[1].key in m; }
    else if p.name.Some? { assert shape[2].key in m; }
    else if p.description.Some? { assert shape[3].key in m; }
    else if p.priceCents.Some? { assert shape[4].key in m; }
    else if p.interval.Some? { assert shape[5].key in m; }
    else { assert shape[6].key in m; }
    AtLeastOneAccepted(m, path, shape, isUrl);
  }

  /** A valid nested input, encoded under `input`, raises no issue there. */
  lemma InputAccepted(m: map<string, Json>, schema: FieldSchema, isUrl: UrlCheck)
    requires "input" in m
    requires ValueIssues(m["input"], [Key("input")], schema, isUrl) == []
    ensures FieldIssues(m, [], Field("input", schema, true), isUrl) == []
  {
    assert [] + [Key("input")] == [Key("input")];
  }

  /** A body whose one declared field is a required `input` object raises
      no issue when that object's own fields raise none. */
  lemma SoleInputAccepted(m: map<string, Json>, inner: map<string, Json>, shape: Shape, isUrl: UrlCheck)
    requires "input" in m && m["input"] == JObj(inner)
    requires ShapeIssues(inner, [Key("input")], shape, isUrl) == []
    ensures ShapeIssues(m, [], [Field("input", ObjectField(shape, false), true)], isUrl) == []
  {
    var f := Field("input", ObjectField(shape, false), true);
    assert [] + [Key("input")] == [Key("input")];
    assert FieldIssues(m, [], f, isUrl) == [];
    assert [f][1..] == [];
  }

  lemma EncodedProductRequestAccepted(r: ToolRequest, isUrl: UrlCheck)
    requires r.CreateProductRequest? || r.UpdateProductRequest?
    requires ValidRequest(r, isUrl)
    ensures ShapeIssues(EncodeRequest(r).fields, [], RequestShape(r.Kind()), isUrl) == []
  {
    var m := EncodeRequest(r).fields;
    var shape := RequestShape(r.Kind());
    if r.CreateProductRequest? {
      ProductCreateAccepted(r.product, [Key("input")], isUrl);
      InputAccepted(m, shape[0].schema, isUrl);
    } else {
      ProductUpdateAccepted(r.product, [Key("input")], isUrl);
      InputAccepted(m, shape[1].schema, isUrl);
    }
    ShapeIssuesEmpty(m, [], shape, isUrl);
  }

  lemma EncodedCreatePlanAccepted(p: PlanInput, isUrl: UrlCheck)
    requires ValidPlanCreate(p)
    ensures ShapeIssues(EncodeRequest(CreatePlanRequest(p)).fields, [], RequestShape(CreatePlan), isUrl) == []
  {
    PlanCreateAccepted(p, [Key("input")], isUrl);
    SoleInputAccepted(EncodeRequest(CreatePlanRequest(p)).fields, EncodePlan(p), PlanCreateShape, isUrl);
  }

  lemma EncodedUpdatePlanAccepted(id: string, p: PlanInput, isUrl: UrlCheck)
    requires id != "" && ValidPlanUpdate(p)
    ensures ShapeIssues(EncodeRequest(UpdatePlanRequest(id, p)).fields, [], RequestShape(UpdatePlan), isUrl) == []
  {
    var m := EncodeRequest(UpdatePlanRequest(id, p)).fields;
    var shape := RequestShape(UpdatePlan);
    PlanUpdateAccepted(p, [Key("input")], isUrl);
    InputAccepted(m, shape[1].schema, isUrl);
    assert FieldIssues(m, [], shape[0], isUrl) == [];
    assert shape[1..][1..] == [];
  }

  /** The fields of an encoded valid request raise no issue. */
  lemma EncodedRequestAccepted(r: ToolRequest, isUrl: UrlCheck)
    requires ValidRequest(r, isUrl)
    ensures ShapeIssues(EncodeRequest(r).fields, [], RequestShape(r.Kind()), isUrl) == []
  {
    if r.CreateProductRequest? || r.UpdateProductRequest? {
      EncodedProductRequestAccepted(r, isUrl);
    } else if r.CreatePlanRequest? {
      EncodedCreatePlanAccepted(r.plan, isUrl);
    } else if r.UpdatePlanRequest? {
      EncodedUpdatePlanAccepted(r.id, r.plan, isUrl);
    } else {
      ShapeIssuesEmpty(EncodeRequest(r).fields, [], RequestShape(r.Kind()), isUrl);
    }
  }

  /** Reading an encoded request's fields gives the request back. */
  lemma EncodedRequestRead(r: ToolRequest)
    ensures RequestFrom(r.Kind(), EncodeRequest(r).fields) == r
  {
    match r
    case CreateProductRequest(p) => ProductRoundTrip(p);
    case UpdateProductRequest(_, p) => ProductRoundTrip(p);
    case CreatePlanRequest(p) => PlanRoundTrip(p);
    case UpdatePlanRequest(_, p) => PlanRoundTrip(p);
    case _ =>
  }

  /** An encoded request is an object whose `type` is the request's tag. */
  lemma EncodedRequestTagged(r: ToolRequest)
    ensures EncodeRequest(r).JObj?
    ensures Get(EncodeRequest(r), "type") == Some(JStr(r.Kind().Name()))
  {
  }

  /** Completeness of the request schema: every request that satisfies
      ValidRequest, encoded as the JSON body a client sends, is accepted and
      decodes back to exactly itself. */
  lemma DecodeEncode(r: ToolRequest, isUrl: UrlCheck)
    requires ValidRequest(r, isUrl)
    ensures DecodeRequest(EncodeRequest(r), isUrl) == Ok(r)
  {
    var j := EncodeRequest(r);
    EncodedRequestTagged(r);
    ToolNamedName(r.Kind().Name(), r.Kind());
    EncodedRequestAccepted(r, isUrl);
    EncodedRequestRead(r);
    assert DecodeRequest(j, isUrl) == Ok(RequestFrom(r.Kind(), j.fields));
  }
}
