/**
 * /api/products: the public catalogue. No token is read; only active products
 * are listed, optionally narrowed by category, type and the featured flag,
 * featured products first and then the newest, without paging.
 */
module ProductsPublic {
  import opened Wrappers
  import opened Json
  import opened Store
  import opened Http
  import Text
  import ProductsAdmin

  /** The filter: `{ active: true }`, then category, featured and type as given. */
  function CatalogueWhere(category: Option<string>, featured: Option<string>, kind: Option<string>): (w: Where)
    ensures w.conds.Keys <= {"active", "category", "featured", "type"}
    ensures "active" in w.conds && w.conds["active"] == Is(JBool(true))
    ensures "category" in w.conds <==> Given(category)
    ensures "category" in w.conds ==> w.conds["category"] == Is(JStr(Text.Upper(category.value)))
    ensures "featured" in w.conds <==> featured == Some("true")
    ensures "featured" in w.conds ==> w.conds["featured"] == Is(JBool(true))
    ensures "type" in w.conds <==> Given(kind)
    ensures "type" in w.conds ==> w.conds["type"] == Is(JStr(Text.Upper(kind.value)))
    ensures w.search.None?
  {
    var conds := map["active" := Is(JBool(true))];
    var conds := if Given(category) then conds["category" := Is(JStr(Text.Upper(category.value)))] else conds;
    var conds := if featured == Some("true") then conds["featured" := Is(JBool(true))] else conds;
    var conds := if Given(kind) then conds["type" := Is(JStr(Text.Upper(kind.value)))] else conds;
    Where(conds, None)
  }

  /** The handler's own construction, member by member. */
  method BuildWhere(category: Option<string>, featured: Option<string>, kind: Option<string>) returns (w: Where)
    ensures w == CatalogueWhere(category, featured, kind)
  {
    w := Where(map["active" := Is(JBool(true))], None);
    if Given(category) {
      w := w.(conds := w.conds["category" := Is(JStr(Text.Upper(category.value)))]);
    }
    var isFeatured := featured == Some("true");
    if isFeatured {
      w := w.(conds := w.conds["featured" := Is(JBool(true))]);
    }
    if Given(kind) {
      w := w.(conds := w.conds["type" := Is(JStr(Text.Upper(kind.value)))]);
    }
  }

  /** Every listed product is active; with `featured=true` every listed product is featured. */
  lemma ListedProductsAreActive(category: Option<string>, featured: Option<string>, kind: Option<string>, row: Json)
    requires Selects(CatalogueWhere(category, featured, kind), row)
    ensures Field(row, "active") == Some(JBool(true))
    ensures featured == Some("true") ==> Field(row, "featured") == Some(JBool(true))
  {
    var w := CatalogueWhere(category, featured, kind);
    assert CondHolds(row, "active", w.conds["active"]);
    if featured == Some("true") {
      assert CondHolds(row, "featured", w.conds["featured"]);
    }
  }

  /** Without parameters the catalogue is exactly the active products. */
  lemma UnfilteredIsActive(row: Json)
    ensures Selects(CatalogueWhere(None, None, None), row) <==> Field(row, "active") == Some(JBool(true))
  {
    assert CatalogueWhere(None, None, None).conds.Keys == {"active"};
  }

  /** A product the admin creates without an `active` member appears in the public catalogue. */
  lemma NewProductIsListed(data: Body)
    requires ProductsAdmin.CreateData(data).Ok? && "active" !in data
    ensures Selects(CatalogueWhere(None, None, None), JObj(ProductsAdmin.CreateData(data).value))
  {
    ProductsAdmin.CreateDefaults(data);
    UnfilteredIsActive(JObj(ProductsAdmin.CreateData(data).value));
  }

  /** One unpaged request; 200 with the rows as an array, 500 if the store rejects it. */
  function GetHandler(db: Db, params: Params): (o: Outcome)
    ensures var w := CatalogueWhere(Param(params, "category"), Param(params, "featured"), Param(params, "type"));
      o.calls == [FindMany(Query(Products, w, ProductsAdmin.ListOrder, None, None))]
    ensures o.response.status == 200 <==> db.rows(o.calls[0]).Ok?
    ensures o.response.status == 200 ==> o.response.body == JArr(db.rows(o.calls[0]).value)
    ensures o.response.status != 200 ==> o.response == InternalError
  {
    var w := CatalogueWhere(Param(params, "category"), Param(params, "featured"), Param(params, "type"));
    var find := FindMany(Query(Products, w, ProductsAdmin.ListOrder, None, None));
    match db.rows(find)
    case Ok(rows) => Outcome(Reply(200, JArr(rows)), [find])
    case Threw => Outcome(InternalError, [find])
  }
}
