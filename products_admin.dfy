/**
 * /api/admin/products: the admin's product catalogue behind the
 * `admin-token` gate. Categories and types are stored and filtered
 * upper-cased, prices go through `parseFloat`, and a missing slug is derived
 * from the name.
 */
module ProductsAdmin {
  import opened Wrappers
  import opened Json
  import opened Store
  import opened Http
  import opened Paging
  import Text
  import Gate
  import Crud
  import Auth

  /** The filter for the `category` and `search` parameters. */
  function ProductsWhere(category: Option<string>, search: Option<string>): (w: Where)
    ensures w.conds.Keys <= {"category"}
    ensures "category" in w.conds <==> Given(category)
    ensures "category" in w.conds ==> w.conds["category"] == Is(JStr(Text.Upper(category.value)))
    ensures w.search.Some? <==> Given(search)
    ensures w.search.Some? ==> w.search.value == Search(search.value, ["name", "description"])
  {
    Where(if Given(category) then map["category" := Is(JStr(Text.Upper(category.value)))] else map[],
          if Given(search) then Some(Search(search.value, ["name", "description"])) else None)
  }

  /** The handler's own construction: start from `{}` and assign member by member. */
  method BuildWhere(category: Option<string>, search: Option<string>) returns (w: Where)
    ensures w == ProductsWhere(category, search)
  {
    w := Everything;
    if Given(category) {
      w := w.(conds := w.conds["category" := Is(JStr(Text.Upper(category.value)))]);
    }
    if Given(search) {
      w := w.(search := Some(Search(search.value, ["name", "description"])));
    }
  }

  /** A given category keeps exactly the products of that category in upper case (before any search). */
  lemma CategoryFilterSelects(category: string, row: Json)
    requires category != []
    ensures Selects(ProductsWhere(Some(category), None), row) <==>
      Field(row, "category") == Some(JStr(Text.Upper(category)))
  {
    assert ProductsWhere(Some(category), None).conds.Keys == {"category"};
  }

  /** Featured products first, then the newest. */
  const ListOrder: seq<(string, Dir)> := [("featured", Desc), ("createdAt", Desc)]

  function GetHandler(db: Db, jwt: Auth.Jwt, cookies: Cookies, params: Params): (o: Outcome)
    requires PositiveParam(params, "page") && PositiveParam(params, "limit")
    ensures Crud.GuardedBy(o, Gate.Check(cookies, Gate.AdminCookie, jwt))
    ensures Gate.Check(cookies, Gate.AdminCookie, jwt).Admitted? ==>
      var page := IntParam(params, "page", DefaultPage);
      var limit := IntParam(params, "limit", DefaultLimit);
      o == ListPage(db, Products, "products", ProductsWhere(Param(params, "category"), Param(params, "search")),
                    ListOrder, page, limit)
  {
    match Gate.Check(cookies, Gate.AdminCookie, jwt)
    case Refused(r) => Respond(r)
    case Admitted(_) =>
      var page := IntParam(params, "page", DefaultPage);
      var limit := IntParam(params, "limit", DefaultLimit);
      ListPage(db, Products, "products", ProductsWhere(Param(params, "category"), Param(params, "search")),
               ListOrder, page, limit)
  }

  /** The members a new product can have. */
  const CreateKeys := {"name", "slug", "description", "longDescription", "price", "image", "category", "type",
                       "downloadUrl", "featured", "active"}

  /** The members copied from the request as sent. */
  const PassedThrough := {"name", "description", "longDescription", "image", "downloadUrl"}

  /** `parseFloat(price)`; `undefined` and `null` both give NaN, so a missing price is passed as null. */
  function PriceOf(v: Option<Json>): Json {
    JConv(ParseFloat, v.GetOr(JNull))
  }

  /** Member `key` of the create payload, given the slug and the upper-cased category and type. */
  function CreateMember(data: Body, slug: Json, category: string, kind: string, key: string): Option<Json> {
    if key == "slug" then Some(slug)
    else if key == "price" then Some(PriceOf(Get(data, "price")))
    else if key == "category" then Some(JStr(Text.Upper(category)))
    else if key == "type" then Some(JStr(Text.Upper(kind)))
    else if key == "featured" then Some(GetOrDefault(data, "featured", JBool(false)))
    else if key == "active" then Some(GetOrDefault(data, "active", JBool(true)))
    else if key in PassedThrough then Get(data, key)
    else None
  }

  /** Whether the create payload can be built: a truthy slug or a string name, and a string
      category and type (`toUpperCase` on anything else throws). */
  predicate Creatable(data: Body) {
    && Crud.SlugOr(Get(data, "slug"), Get(data, "name")).Ok?
    && StringValue(Get(data, "category")).Ok?
    && StringValue(Get(data, "type")).Ok?
  }

  function CreateData(data: Body): (r: Fallible<Body>)
    ensures r.Ok? <==> Creatable(data)
    ensures r.Ok? ==> r.value.Keys <= CreateKeys
    ensures r.Ok? ==> forall k :: k in CreateKeys ==>
      Get(r.value, k) == CreateMember(data, Crud.SlugOr(Get(data, "slug"), Get(data, "name")).value,
                                      data["category"].s, data["type"].s, k)
  {
    match (Crud.SlugOr(Get(data, "slug"), Get(data, "name")), StringValue(Get(data, "category")), StringValue(Get(data, "type")))
    case (Ok(slug), Ok(category), Ok(kind)) =>
      Ok(map k | k in CreateKeys && CreateMember(data, slug, category, kind, k).Some? ::
                 CreateMember(data, slug, category, kind, k).value)
    case _ => Threw
  }

  /** `creatable` exactly when a slug can be derived and category and type are strings. */
  lemma CreatableIff(data: Body)
    ensures Creatable(data) <==>
      && (Truthy(Get(data, "slug")) || (Get(data, "name").Some? && data["name"].JStr?))
      && Get(data, "category").Some? && data["category"].JStr?
      && Get(data, "type").Some? && data["type"].JStr?
  {
  }

  /** A new product is active and not featured unless the request says otherwise; its category and
      type are upper case and its price is the parsed price. */
  lemma CreateDefaults(data: Body)
    requires CreateData(data).Ok?
    ensures var d := CreateData(data).value;
      && Get(d, "active") == Some(GetOrDefault(data, "active", JBool(true)))
      && Get(d, "featured") == Some(GetOrDefault(data, "featured", JBool(false)))
      && Get(d, "category") == Some(JStr(Text.Upper(data["category"].s)))
      && Get(d, "type") == Some(JStr(Text.Upper(data["type"].s)))
      && Get(d, "price") == Some(PriceOf(Get(data, "price")))
  {
    var slug := Crud.SlugOr(Get(data, "slug"), Get(data, "name")).value;
    var d := CreateData(data).value;
    assert Get(d, "active") == CreateMember(data, slug, data["category"].s, data["type"].s, "active");
    assert Get(d, "featured") == CreateMember(data, slug, data["category"].s, data["type"].s, "featured");
  }

  /** Name, descriptions, image and download URL are stored as sent. */
  lemma CreatePassesThrough(data: Body, k: string)
    requires CreateData(data).Ok? && k in PassedThrough
    ensures Get(CreateData(data).value, k) == Get(data, k)
  {
    var slug := Crud.SlugOr(Get(data, "slug"), Get(data, "name")).value;
    assert k in CreateKeys;
    assert Get(CreateData(data).value, k) == CreateMember(data, slug, data["category"].s, data["type"].s, k);
    PassedThroughIsPlain(k);
  }

  lemma PassedThroughIsPlain(k: string)
    requires k in PassedThrough
    ensures k != "slug" && k != "price" && k != "category" && k != "type" && k != "featured" && k != "active"
  {
  }

  function PostHandler(db: Db, jwt: Auth.Jwt, cookies: Cookies, body: Fallible<Body>): (o: Outcome)
    ensures Crud.GuardedBy(o, Gate.Check(cookies, Gate.AdminCookie, jwt))
    ensures Gate.Check(cookies, Gate.AdminCookie, jwt).Admitted? ==>
      if body.Ok? && CreateData(body.value).Ok? then o == Crud.Written(db, Create(Products, CreateData(body.value).value), 201)
      else o == Respond(InternalError)
  {
    match Gate.Check(cookies, Gate.AdminCookie, jwt)
    case Refused(r) => Respond(r)
    case Admitted(_) =>
      match body
      case Threw => Respond(InternalError)
      case Ok(data) =>
        match CreateData(data)
        case Threw => Respond(InternalError)
        case Ok(d) => Crud.Written(db, Create(Products, d), 201)
  }

  /** The update payload: every member but `id`, a truthy price parsed, a truthy category and type
      upper-cased; a truthy category or type that is not a string throws. */
  function UpdateData(data: Body): (r: Fallible<(Option<Json>, Body)>)
    ensures r.Ok? <==> (!Truthy(Get(data, "category")) || data["category"].JStr?) &&
                       (!Truthy(Get(data, "type")) || data["type"].JStr?)
    ensures r.Ok? ==> r.value.0 == Get(data, "id")
    ensures r.Ok? ==> r.value.1.Keys == data.Keys - {"id"}
    ensures r.Ok? ==> forall k :: k in data && k !in {"id", "price", "category", "type"} ==> r.value.1[k] == data[k]
    ensures r.Ok? ==> (Get(r.value.1, "price") ==
      if Truthy(Get(data, "price")) then Some(PriceOf(Get(data, "price"))) else Get(data, "price"))
    ensures r.Ok? ==> Get(r.value.1, "category") == Crud.Normalised(Get(data, "category"))
    ensures r.Ok? ==> Get(r.value.1, "type") == Crud.Normalised(Get(data, "type"))
  {
    var (id, rest) := Crud.SplitId(data);
    var d := if Truthy(Get(rest, "price")) then rest["price" := PriceOf(Get(rest, "price"))] else rest;
    match Crud.UpperMember(d, "category")
    case Threw => Threw
    case Ok(d) =>
      match Crud.UpperMember(d, "type")
      case Threw => Threw
      case Ok(d) => Ok((id, d))
  }

  /** The handler's own steps: take `id` out, then convert three members in place. */
  method PrepareUpdate(data: Body) returns (r: Fallible<(Option<Json>, Body)>)
    ensures r == UpdateData(data)
  {
    var id := Get(data, "id");
    var updateData := data - {"id"};
    if Truthy(Get(updateData, "price")) {
      updateData := updateData["price" := JConv(ParseFloat, updateData["price"])];
    }
    if Truthy(Get(updateData, "category")) {
      if !updateData["category"].JStr? {
        return Threw;
      }
      updateData := updateData["category" := JStr(Text.Upper(updateData["category"].s))];
    }
    if Truthy(Get(updateData, "type")) {
      if !updateData["type"].JStr? {
        return Threw;
      }
      updateData := updateData["type" := JStr(Text.Upper(updateData["type"].s))];
    }
    r := Ok((id, updateData));
  }

  /** An update that sets price, category and type stores them exactly as a create would. */
  lemma UpdateConvertsLikeCreate(data: Body)
    requires Creatable(data)
    requires Truthy(Get(data, "price")) && data["category"].s != [] && data["type"].s != []
    ensures UpdateData(data).Ok?
    ensures forall k :: k in {"price", "category", "type"} ==> Get(UpdateData(data).value.1, k) == Get(CreateData(data).value, k)
  {
    var slug := Crud.SlugOr(Get(data, "slug"), Get(data, "name")).value;
    var d := CreateData(data).value;
    assert Get(d, "price") == CreateMember(data, slug, data["category"].s, data["type"].s, "price");
    assert Get(d, "category") == CreateMember(data, slug, data["category"].s, data["type"].s, "category");
    assert Get(d, "type") == CreateMember(data, slug, data["category"].s, data["type"].s, "type");
  }

  function PutHandler(db: Db, jwt: Auth.Jwt, cookies: Cookies, body: Fallible<Body>): (o: Outcome)
    ensures Crud.GuardedBy(o, Gate.Check(cookies, Gate.AdminCookie, jwt))
    ensures Gate.Check(cookies, Gate.AdminCookie, jwt).Admitted? ==>
      if body.Ok? && UpdateData(body.value).Ok? then
        var (id, d) := UpdateData(body.value).value;
        o == Crud.Written(db, Update(Products, id, d), 200)
      else o == Respond(InternalError)
  {
    match Gate.Check(cookies, Gate.AdminCookie, jwt)
    case Refused(r) => Respond(r)
    case Admitted(_) =>
      match body
      case Threw => Respond(InternalError)
      case Ok(data) =>
        match UpdateData(data)
        case Threw => Respond(InternalError)
        case Ok((id, d)) => Crud.Written(db, Update(Products, id, d), 200)
  }

  function DeleteHandler(db: Db, jwt: Auth.Jwt, cookies: Cookies, body: Fallible<Body>): (o: Outcome)
    ensures Crud.GuardedBy(o, Gate.Check(cookies, Gate.AdminCookie, jwt))
    ensures Gate.Check(cookies, Gate.AdminCookie, jwt).Admitted? ==> o == Crud.Deleted(db, Products, body)
  {
    match Gate.Check(cookies, Gate.AdminCookie, jwt)
    case Refused(r) => Respond(r)
    case Admitted(_) => Crud.Deleted(db, Products, body)
  }
}
