/**
 * /api/admin/categories and /api/admin/tags: the post categories and tags.
 * Listing needs no token and is ordered by name; creating one passes the gate
 * on `auth-token` (not `admin-token`), always derives the slug from the name
 * and falls back to a default colour.
 */
module Taxonomy {
  import opened Wrappers
  import opened Json
  import opened Store
  import opened Http
  import Gate
  import Crud
  import Auth
  import Slug

  const CategoryColor := "#3B82F6"
  const TagColor := "#6B7280"

  const ByName: seq<(string, Dir)> := [("name", Asc)]

  /** Every row of `table` by name, unpaged; 200 with the rows, 500 if the store rejects it. */
  function ListByName(db: Db, table: Table): (o: Outcome)
    ensures o.calls == [FindMany(Query(table, Everything, ByName, None, None))]
    ensures o.response.status == 200 <==> db.rows(o.calls[0]).Ok?
    ensures o.response.status == 200 ==> o.response.body == JArr(db.rows(o.calls[0]).value)
    ensures o.response.status != 200 ==> o.response == InternalError
  {
    var find := FindMany(Query(table, Everything, ByName, None, None));
    match db.rows(find)
    case Ok(rows) => Outcome(Reply(200, JArr(rows)), [find])
    case Threw => Outcome(InternalError, [find])
  }

  /** The payload shared by both: name, the name's slug and the colour or its default;
      a name that is not a string throws. */
  function Named(data: Body, defaultColor: string): (r: Fallible<Body>)
    ensures r.Ok? <==> Get(data, "name").Some? && data["name"].JStr?
    ensures r.Ok? ==> r.value.Keys == {"name", "slug", "color"}
    ensures r.Ok? ==> r.value["name"] == data["name"]
    ensures r.Ok? ==> r.value["slug"] == JStr(Slug.Slugify(data["name"].s)) && Slug.IsSlug(r.value["slug"].s)
    ensures r.Ok? ==> r.value["color"] == if Truthy(Get(data, "color")) then data["color"] else JStr(defaultColor)
  {
    match StringValue(Get(data, "name"))
    case Threw => Threw
    case Ok(name) =>
      Slug.SlugifyShape(name);
      Ok(map["name" := JStr(name), "slug" := JStr(Slug.Slugify(name)),
             "color" := Or(Get(data, "color"), Some(JStr(defaultColor))).value])
  }

  /** A category also carries its description when one is sent. */
  function CategoryData(data: Body): (r: Fallible<Body>)
    ensures r.Ok? <==> Named(data, CategoryColor).Ok?
    ensures r.Ok? ==> r.value.Keys <= {"name", "slug", "color", "description"}
    ensures r.Ok? ==> Get(r.value, "description") == Get(data, "description")
    ensures r.Ok? ==> Get(r.value, "name") == Get(data, "name")
    ensures r.Ok? ==> Get(r.value, "slug") == Some(JStr(Slug.Slugify(data["name"].s)))
    ensures r.Ok? ==> Get(r.value, "color") == Some(if Truthy(Get(data, "color")) then data["color"] else JStr(CategoryColor))
  {
    match Named(data, CategoryColor)
    case Threw => Threw
    case Ok(d) =>
      var r := Put(d, "description", Get(data, "description"));
      assert "name" in r && "slug" in r && "color" in r;
      Ok(r)
  }

  /** A tag is exactly name, slug and colour, with '#6B7280' as the default colour. */
  function TagData(data: Body): (r: Fallible<Body>)
    ensures r.Ok? <==> Get(data, "name").Some? && data["name"].JStr?
    ensures r.Ok? ==> r.value.Keys == {"name", "slug", "color"} && r.value["name"] == data["name"]
    ensures r.Ok? ==> r.value["slug"] == JStr(Slug.Slugify(data["name"].s))
    ensures r.Ok? ==> r.value["color"] == if Truthy(Get(data, "color")) then data["color"] else JStr(TagColor)
  {
    Named(data, TagColor)
  }

  /** A slug sent by the client is ignored: the stored slug always comes from the name. */
  lemma ClientSlugIgnored(data: Body, slug: Json)
    ensures CategoryData(data["slug" := slug]) == CategoryData(data)
    ensures TagData(data["slug" := slug]) == TagData(data)
  {
    assert Get(data["slug" := slug], "name") == Get(data, "name");
    assert Get(data["slug" := slug], "color") == Get(data, "color");
    assert Get(data["slug" := slug], "description") == Get(data, "description");
  }

  /** After the `auth-token` gate: one create, 201 with the row; a body that cannot be read or a
      name that is not a string gives 500 without a write. */
  function Created(db: Db, jwt: Auth.Jwt, cookies: Cookies, table: Table, payload: Fallible<Body>): (o: Outcome)
    ensures Crud.GuardedBy(o, Gate.Check(cookies, Gate.AuthCookie, jwt))
    ensures Gate.Check(cookies, Gate.AuthCookie, jwt).Admitted? ==>
      if payload.Ok? then o == Crud.Written(db, Create(table, payload.value), 201) else o == Respond(InternalError)
  {
    match Gate.Check(cookies, Gate.AuthCookie, jwt)
    case Refused(r) => Respond(r)
    case Admitted(_) =>
      match payload
      case Threw => Respond(InternalError)
      case Ok(d) => Crud.Written(db, Create(table, d), 201)
  }

  /** Every category row, by name. */
  function CategoriesGet(db: Db): (o: Outcome)
    ensures o.calls == [FindMany(Query(Categories, Everything, ByName, None, None))]
    ensures o.response == if db.rows(o.calls[0]).Ok? then Reply(200, JArr(db.rows(o.calls[0]).value)) else InternalError
  {
    ListByName(db, Categories)
  }

  function CategoriesPost(db: Db, jwt: Auth.Jwt, cookies: Cookies, body: Fallible<Body>): (o: Outcome)
    ensures Crud.GuardedBy(o, Gate.Check(cookies, Gate.AuthCookie, jwt))
    ensures Gate.Check(cookies, Gate.AuthCookie, jwt).Admitted? && body.Ok? && CategoryData(body.value).Ok? ==>
      && o.calls == [Create(Categories, CategoryData(body.value).value)]
      && o.response == (if db.written(o.calls[0]).Ok? then Reply(201, db.written(o.calls[0]).value) else InternalError)
    ensures Gate.Check(cookies, Gate.AuthCookie, jwt).Admitted? && !(body.Ok? && CategoryData(body.value).Ok?) ==>
      o == Respond(InternalError)
  {
    Created(db, jwt, cookies, Categories, if body.Ok? then CategoryData(body.value) else Threw)
  }

  /** Every tag row, by name. */
  function TagsGet(db: Db): (o: Outcome)
    ensures o.calls == [FindMany(Query(Tags, Everything, ByName, None, None))]
    ensures o.response == if db.rows(o.calls[0]).Ok? then Reply(200, JArr(db.rows(o.calls[0]).value)) else InternalError
  {
    ListByName(db, Tags)
  }

  function TagsPost(db: Db, jwt: Auth.Jwt, cookies: Cookies, body: Fallible<Body>): (o: Outcome)
    ensures Crud.GuardedBy(o, Gate.Check(cookies, Gate.AuthCookie, jwt))
    ensures Gate.Check(cookies, Gate.AuthCookie, jwt).Admitted? && body.Ok? && TagData(body.value).Ok? ==>
      && o.calls == [Create(Tags, TagData(body.value).value)]
      && o.response == (if db.written(o.calls[0]).Ok? then Reply(201, db.written(o.calls[0]).value) else InternalError)
    ensures Gate.Check(cookies, Gate.AuthCookie, jwt).Admitted? && !(body.Ok? && TagData(body.value).Ok?) ==>
      o == Respond(InternalError)
  {
    Created(db, jwt, cookies, Tags, if body.Ok? then TagData(body.value) else Threw)
  }

  /** The gate reads `auth-token`: an `admin-token` cookie alone is refused with 401. */
  lemma AdminCookieAloneRefused(db: Db, jwt: Auth.Jwt, cookies: Cookies, body: Fallible<Body>)
    requires Gate.AuthCookie !in cookies
    ensures CategoriesPost(db, jwt, cookies, body) == Respond(Gate.Unauthorized)
    ensures TagsPost(db, jwt, cookies, body) == Respond(Gate.Unauthorized)
  {
  }
}
