/**
 * /api/admin/posts: the admin's post list and editor. Every method first
 * passes the gate on `admin-token`; GET returns one post by id or a filtered,
 * paged list; POST creates a post with a derived slug and defaults; PUT
 * updates a post, stamping `publishedAt` on first publication; DELETE removes one.
 */
module AdminPosts {
  import opened Wrappers
  import opened Json
  import opened Store
  import opened Http
  import opened Paging
  import Gate
  import Crud
  import Auth

  /** The filter for the `status` and `search` parameters. */
  function PostsWhere(status: Option<string>, search: Option<string>): (w: Where)
    ensures "published" in w.conds <==> status == Some("published") || status == Some("draft")
    ensures "published" in w.conds ==> w.conds["published"] == Is(JBool(status == Some("published")))
    ensures w.conds.Keys <= {"published"}
    ensures w.search.Some? <==> Given(search)
    ensures w.search.Some? ==> w.search.value == Search(search.value, ["title", "excerpt"])
  {
    Where(
      if status == Some("published") then map["published" := Is(JBool(true))]
      else if status == Some("draft") then map["published" := Is(JBool(false))]
      else map[],
      if Given(search) then Some(Search(search.value, ["title", "excerpt"])) else None)
  }

  /** The handler's own construction: start from `{}` and assign member by member. */
  method BuildWhere(status: Option<string>, search: Option<string>) returns (w: Where)
    ensures w == PostsWhere(status, search)
  {
    w := Everything;
    if status == Some("published") {
      w := w.(conds := w.conds["published" := Is(JBool(true))]);
    }
    if status == Some("draft") {
      w := w.(conds := w.conds["published" := Is(JBool(false))]);
    }
    if Given(search) {
      w := w.(search := Some(Search(search.value, ["title", "excerpt"])));
    }
  }

  /** A `published` or `draft` status keeps exactly the posts in that state (before any search). */
  lemma StatusFilterSelects(status: string, row: Json)
    requires status == "published" || status == "draft"
    ensures Selects(PostsWhere(Some(status), None), row) <==> Field(row, "published") == Some(JBool(status == "published"))
  {
    var w := PostsWhere(Some(status), None);
    assert w.conds.Keys == {"published"};
  }

  /** Any other status keeps every post. */
  lemma OtherStatusSelectsAll(status: Option<string>, row: Json)
    requires status != Some("published") && status != Some("draft")
    ensures Selects(PostsWhere(status, None), row)
  {
  }

  const NotFound := "Post not found"
  const ListOrder: seq<(string, Dir)> := [("createdAt", Desc)]

  /** The paged list: newest first, `skip = (page - 1) * limit`, `take = limit`, under PostsWhere. */
  function ListPosts(db: Db, params: Params): (o: Outcome)
    requires PositiveParam(params, "page") && PositiveParam(params, "limit")
    ensures var page := IntParam(params, "page", DefaultPage);
      var limit := IntParam(params, "limit", DefaultLimit);
      var w := PostsWhere(Param(params, "status"), Param(params, "search"));
      && o.calls == [FindMany(Query(Posts, w, ListOrder, Some(Skip(page, limit)), Some(limit))), Count(Posts, w)]
      && o == ListPage(db, Posts, "posts", w, ListOrder, page, limit)
  {
    var page := IntParam(params, "page", DefaultPage);
    var limit := IntParam(params, "limit", DefaultLimit);
    ListPage(db, Posts, "posts", PostsWhere(Param(params, "status"), Param(params, "search")), ListOrder, page, limit)
  }

  function GetHandler(db: Db, jwt: Auth.Jwt, cookies: Cookies, params: Params): (o: Outcome)
    requires !Given(Param(params, "id")) ==> PositiveParam(params, "page") && PositiveParam(params, "limit")
    ensures Crud.GuardedBy(o, Gate.Check(cookies, Gate.AdminCookie, jwt))
    ensures Gate.Check(cookies, Gate.AdminCookie, jwt).Admitted? ==>
      o == if Given(Param(params, "id")) then Crud.GetById(db, Posts, params["id"], NotFound) else ListPosts(db, params)
  {
    match Gate.Check(cookies, Gate.AdminCookie, jwt)
    case Refused(r) => Respond(r)
    case Admitted(_) =>
      var id := Param(params, "id");
      if Given(id) then Crud.GetById(db, Posts, id.value, NotFound) else ListPosts(db, params)
  }

  /** The members a new post can have. */
  const CreateKeys := {"title", "slug", "excerpt", "content", "image", "published", "featured", "authorId",
                       "categoryId", "seoTitle", "seoDescription", "seoKeywords", "readTime", "publishedAt"}

  /** The members copied from the request as sent. */
  const PassedThrough := {"title", "excerpt", "content", "image", "categoryId", "seoKeywords", "readTime"}

  /** Member `key` of the create payload (None: the member is `undefined` and not stored). */
  function CreateMember(data: Body, user: Json, now: nat, slug: Json, key: string): Option<Json> {
    var published := GetOrDefault(data, "published", JBool(false));
    if key == "slug" then Some(slug)
    else if key == "published" then Some(published)
    else if key == "featured" then Some(GetOrDefault(data, "featured", JBool(false)))
    else if key == "authorId" then Field(user, "id")
    else if key == "seoTitle" then Or(Get(data, "seoTitle"), Get(data, "title"))
    else if key == "seoDescription" then Or(Get(data, "seoDescription"), Get(data, "excerpt"))
    else if key == "publishedAt" then Some(if Truthy(Some(published)) then JConv(ToDate, JNum(now)) else JNull)
    else if key in PassedThrough then Get(data, key)
    else None
  }

  /** The create payload, or Threw when neither a slug nor a string title is given. */
  function CreateData(data: Body, user: Json, now: nat): (r: Fallible<Body>)
    ensures r.Ok? <==> Truthy(Get(data, "slug")) || (Get(data, "title").Some? && data["title"].JStr?)
    ensures r.Ok? ==> r.value.Keys <= CreateKeys
    ensures r.Ok? ==> forall k :: k in CreateKeys ==>
      Get(r.value, k) == CreateMember(data, user, now, Crud.SlugOr(Get(data, "slug"), Get(data, "title")).value, k)
  {
    match Crud.SlugOr(Get(data, "slug"), Get(data, "title"))
    case Threw => Threw
    case Ok(slug) =>
      Ok(map k | k in CreateKeys && CreateMember(data, user, now, slug, k).Some? :: CreateMember(data, user, now, slug, k).value)
  }

  /** Title, excerpt, content, image, category, keywords and read time are stored as sent. */
  lemma CreatePassesThrough(data: Body, user: Json, now: nat, k: string)
    requires CreateData(data, user, now).Ok? && k in PassedThrough
    ensures Get(CreateData(data, user, now).value, k) == Get(data, k)
  {
    var slug := Crud.SlugOr(Get(data, "slug"), Get(data, "title")).value;
    assert k in CreateKeys;
    assert k != "slug" && k != "published" && k != "featured" && k != "authorId";
    assert k != "seoTitle" && k != "seoDescription" && k != "publishedAt";
  }

  /**
   * The derived members of a new post: the slug rule, `published` and
   * `featured` false unless given, the token user as author, the SEO
   * fallbacks to title and excerpt, and `publishedAt` set iff published.
   */
  lemma CreateDefaults(data: Body, user: Json, now: nat)
    requires CreateData(data, user, now).Ok?
    ensures var d := CreateData(data, user, now).value;
      && Get(d, "slug") == Some(Crud.SlugOr(Get(data, "slug"), Get(data, "title")).value)
      && Get(d, "published") == Some(GetOrDefault(data, "published", JBool(false)))
      && Get(d, "featured") == Some(GetOrDefault(data, "featured", JBool(false)))
      && Get(d, "authorId") == Field(user, "id")
      && Get(d, "seoTitle") == Or(Get(data, "seoTitle"), Get(data, "title"))
      && Get(d, "seoDescription") == Or(Get(data, "seoDescription"), Get(data, "excerpt"))
  {
  }

  lemma CreatePublishedAt(data: Body, user: Json, now: nat)
    requires CreateData(data, user, now).Ok?
    ensures var d := CreateData(data, user, now).value;
      && "publishedAt" in d && "published" in d
      && (d["publishedAt"] != JNull <==> Truthy(Some(d["published"])))
      && (d["publishedAt"] != JNull ==> d["publishedAt"] == JConv(ToDate, JNum(now)))
  {
    var slug := Crud.SlugOr(Get(data, "slug"), Get(data, "title")).value;
    var d := CreateData(data, user, now).value;
    assert Get(d, "published") == CreateMember(data, user, now, slug, "published");
    assert Get(d, "publishedAt") == CreateMember(data, user, now, slug, "publishedAt");
  }

  function PostHandler(db: Db, jwt: Auth.Jwt, cookies: Cookies, now: nat, body: Fallible<Body>): (o: Outcome)
    ensures Crud.GuardedBy(o, Gate.Check(cookies, Gate.AdminCookie, jwt))
    ensures Gate.Check(cookies, Gate.AdminCookie, jwt).Admitted? ==>
      var user := Gate.Check(cookies, Gate.AdminCookie, jwt).user;
      if body.Ok? && CreateData(body.value, user, now).Ok? then
        o == Crud.Written(db, Create(Posts, CreateData(body.value, user, now).value), 201)
      else o == Respond(InternalError)
  {
    match Gate.Check(cookies, Gate.AdminCookie, jwt)
    case Refused(r) => Respond(r)
    case Admitted(user) =>
      match body
      case Threw => Respond(InternalError)
      case Ok(data) =>
        match CreateData(data, user, now)
        case Threw => Respond(InternalError)
        case Ok(d) => Crud.Written(db, Create(Posts, d), 201)
  }

  /** The update payload: every member but `id`, plus `publishedAt = now` when the post is being
      published and carries no truthy `publishedAt` of its own. */
  function UpdateData(data: Body, now: nat): (r: (Option<Json>, Body))
    ensures r.0 == Get(data, "id")
    ensures forall k :: k in data && k != "id" && k != "publishedAt" ==> Get(r.1, k) == Some(data[k])
    ensures r.1.Keys - {"publishedAt"} == data.Keys - {"id", "publishedAt"}
    ensures Truthy(Get(data, "published")) && !Truthy(Get(data, "publishedAt")) ==>
      Get(r.1, "publishedAt") == Some(JConv(ToDate, JNum(now)))
    ensures !(Truthy(Get(data, "published")) && !Truthy(Get(data, "publishedAt"))) ==>
      Get(r.1, "publishedAt") == Get(data, "publishedAt")
  {
    var (id, rest) := Crud.SplitId(data);
    (id, if Truthy(Get(rest, "published")) && !Truthy(Get(rest, "publishedAt"))
         then rest["publishedAt" := JConv(ToDate, JNum(now))] else rest)
  }

  /** The handler's own steps: take `id` out, then stamp `publishedAt` in place. */
  method PrepareUpdate(data: Body, now: nat) returns (id: Option<Json>, updateData: Body)
    ensures (id, updateData) == UpdateData(data, now)
  {
    id := Get(data, "id");
    updateData := data - {"id"};
    if Truthy(Get(updateData, "published")) && !Truthy(Get(updateData, "publishedAt")) {
      updateData := updateData["publishedAt" := JConv(ToDate, JNum(now))];
    }
  }

  /** Updating twice with the same payload sends the same data the second time: an existing
      truthy `publishedAt` is never replaced. */
  lemma UpdateKeepsPublishedAt(data: Body, now: nat, later: nat)
    requires Truthy(Get(data, "publishedAt"))
    ensures UpdateData(data, later).1["publishedAt"] == data["publishedAt"]
    ensures UpdateData(data, now).1 == UpdateData(data, later).1
  {
  }

  function PutHandler(db: Db, jwt: Auth.Jwt, cookies: Cookies, now: nat, body: Fallible<Body>): (o: Outcome)
    ensures Crud.GuardedBy(o, Gate.Check(cookies, Gate.AdminCookie, jwt))
    ensures Gate.Check(cookies, Gate.AdminCookie, jwt).Admitted? ==>
      if body.Ok? then
        var (id, d) := UpdateData(body.value, now);
        o == Crud.Written(db, Update(Posts, id, d), 200)
      else o == Respond(InternalError)
  {
    match Gate.Check(cookies, Gate.AdminCookie, jwt)
    case Refused(r) => Respond(r)
    case Admitted(_) =>
      match body
      case Threw => Respond(InternalError)
      case Ok(data) =>
        var (id, d) := UpdateData(data, now);
        Crud.Written(db, Update(Posts, id, d), 200)
  }

  function DeleteHandler(db: Db, jwt: Auth.Jwt, cookies: Cookies, body: Fallible<Body>): (o: Outcome)
    ensures Crud.GuardedBy(o, Gate.Check(cookies, Gate.AdminCookie, jwt))
    ensures Gate.Check(cookies, Gate.AdminCookie, jwt).Admitted? ==> o == Crud.Deleted(db, Posts, body)
  {
    match Gate.Check(cookies, Gate.AdminCookie, jwt)
    case Refused(r) => Respond(r)
    case Admitted(_) => Crud.Deleted(db, Posts, body)
  }
}
