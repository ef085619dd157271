/**
 * /api/blog/posts: the public post list (no token; published posts unless
 * asked for `published=false`, with category, tag and text filters and
 * paging) and the post creator behind the `admin-token` gate, which also
 * links the new post to the tag ids it is given.
 */
module BlogPosts {
  import opened Wrappers
  import opened Json
  import opened Store
  import opened Http
  import opened Paging
  import Gate
  import Crud
  import Auth
  import AdminPosts

  /** The filter for the public list, from the `published`, `category`, `tag` and `search` parameters. */
  function BlogWhere(published: Option<string>, category: Option<string>, tag: Option<string>,
                     search: Option<string>): (w: Where)
    ensures w.conds.Keys <= {"published", "category", "tags"}
    ensures "published" in w.conds && w.conds["published"] == Is(JBool(published != Some("false")))
    ensures "category" in w.conds <==> Given(category)
    ensures "category" in w.conds ==> w.conds["category"] == CategorySlug(category.value)
    ensures "tags" in w.conds <==> Given(tag)
    ensures "tags" in w.conds ==> w.conds["tags"] == HasTagSlug(tag.value)
    ensures w.search.Some? <==> Given(search)
    ensures w.search.Some? ==> w.search.value == Search(search.value, ["title", "excerpt", "content"])
  {
    var conds := map["published" := Is(JBool(published != Some("false")))];
    var conds := if Given(category) then conds["category" := CategorySlug(category.value)] else conds;
    var conds := if Given(tag) then conds["tags" := HasTagSlug(tag.value)] else conds;
    Where(conds, if Given(search) then Some(Search(search.value, ["title", "excerpt", "content"])) else None)
  }

  /** The handler's own construction: `{ published }`, then one member per given parameter. */
  method BuildWhere(published: Option<string>, category: Option<string>, tag: Option<string>,
                    search: Option<string>) returns (w: Where)
    ensures w == BlogWhere(published, category, tag, search)
  {
    w := Where(map["published" := Is(JBool(published != Some("false")))], None);
    if Given(category) {
      w := w.(conds := w.conds["category" := CategorySlug(category.value)]);
    }
    if Given(tag) {
      w := w.(conds := w.conds["tags" := HasTagSlug(tag.value)]);
    }
    if Given(search) {
      w := w.(search := Some(Search(search.value, ["title", "excerpt", "content"])));
    }
  }

  /** Every listed post is published, unless the request says exactly `published=false`,
      and then every listed post is a draft. */
  lemma ListedPostsMatchPublished(published: Option<string>, category: Option<string>, tag: Option<string>,
                                  search: Option<string>, row: Json)
    requires Selects(BlogWhere(published, category, tag, search), row)
    ensures Field(row, "published") == Some(JBool(published != Some("false")))
  {
    assert CondHolds(row, "published", BlogWhere(published, category, tag, search).conds["published"]);
  }

  /** Without category, tag or search, the list is exactly the posts in the requested state. */
  lemma PublishedFilterSelects(published: Option<string>, row: Json)
    ensures Selects(BlogWhere(published, None, None, None), row) <==>
      Field(row, "published") == Some(JBool(published != Some("false")))
  {
    assert BlogWhere(published, None, None, None).conds.Keys == {"published"};
  }

  /** A category or tag filter keeps only posts whose category, or one of whose tags, has that slug. */
  lemma SlugFiltersSelect(published: Option<string>, category: Option<string>, tag: Option<string>,
                          search: Option<string>, row: Json)
    requires Selects(BlogWhere(published, category, tag, search), row)
    ensures Given(category) ==>
      Field(row, "category").Some? && Field(Field(row, "category").value, "slug") == Some(JStr(category.value))
    ensures Given(tag) ==>
      match Field(row, "tags")
      case Some(JArr(links)) => exists i :: 0 <= i < |links| && TagSlugIs(links[i], tag.value)
      case _ => false
  {
    var w := BlogWhere(published, category, tag, search);
    if Given(category) {
      assert CondHolds(row, "category", w.conds["category"]);
    }
    if Given(tag) {
      assert CondHolds(row, "tags", w.conds["tags"]);
    }
  }

  const ListOrder: seq<(string, Dir)> := [("createdAt", Desc)]

  /** The public list: no token is read; it pages like the admin list. */
  function GetHandler(db: Db, params: Params): (o: Outcome)
    requires PositiveParam(params, "page") && PositiveParam(params, "limit")
    ensures var page := IntParam(params, "page", DefaultPage);
      var limit := IntParam(params, "limit", DefaultLimit);
      var w := BlogWhere(Param(params, "published"), Param(params, "category"), Param(params, "tag"),
                         Param(params, "search"));
      && o.calls == [FindMany(Query(Posts, w, ListOrder, Some(Skip(page, limit)), Some(limit))), Count(Posts, w)]
      && o == ListPage(db, Posts, "posts", w, ListOrder, page, limit)
  {
    var page := IntParam(params, "page", DefaultPage);
    var limit := IntParam(params, "limit", DefaultLimit);
    var w := BlogWhere(Param(params, "published"), Param(params, "category"), Param(params, "tag"),
                       Param(params, "search"));
    ListPage(db, Posts, "posts", w, ListOrder, page, limit)
  }

  const CategoryRequired := Error(400, "Category is required")

  /** `{ postId: post.id, tagId }`. */
  function LinkRow(post: Json, tagId: Json): (row: Body)
    ensures row.Keys <= {"postId", "tagId"}
    ensures Get(row, "tagId") == Some(tagId) && Get(row, "postId") == Field(post, "id")
  {
    Put(map["tagId" := tagId], "postId", Field(post, "id"))
  }

  /** One link row per tag id, in the order given. */
  function TagLinks(post: Json, tagIds: seq<Json>): (rows: seq<Body>)
    ensures |rows| == |tagIds|
    ensures forall i :: 0 <= i < |rows| ==> rows[i] == LinkRow(post, tagIds[i])
  {
    seq(|tagIds|, i requires 0 <= i < |tagIds| => LinkRow(post, tagIds[i]))
  }

  /** `if (tags.length > 0) createMany(...)`: the link request when there is one to make,
      Threw when `tags` is a value on which that expression throws. */
  function LinkRequest(post: Json, tags: Json): Fallible<Option<Request>> {
    match tags
    case JArr(ids) => Ok(if |ids| > 0 then Some(CreateMany(PostTags, TagLinks(post, ids))) else None)
    case JNull => Threw
    case JStr(s) => if |s| > 0 then Threw else Ok(None)
    case _ => Ok(None)
  }

  /** After the gate: parse, derive the slug (which may throw), require a category, create the post, link its tags. */
  function Create(db: Db, user: Json, now: nat, body: Fallible<Body>): (o: Outcome)
    ensures body.Threw? ==> o == Respond(InternalError)
    ensures body.Ok? && AdminPosts.CreateData(body.value, user, now).Threw? ==> o == Respond(InternalError)
    ensures body.Ok? && AdminPosts.CreateData(body.value, user, now).Ok? && !Truthy(Get(body.value, "categoryId")) ==>
      o == Respond(CategoryRequired)
    ensures body.Ok? && AdminPosts.CreateData(body.value, user, now).Ok? && Truthy(Get(body.value, "categoryId")) ==>
      var create := Request.Create(Posts, AdminPosts.CreateData(body.value, user, now).value);
      var written := db.written(create);
      var links := if written.Ok? then LinkRequest(written.value, GetOrDefault(body.value, "tags", JArr([]))) else Threw;
      && o.calls == [create] + (if links.Ok? && links.value.Some? then [links.value.value] else [])
      && (o.response.status == 201 <==> links.Ok? && (links.value.None? || db.written(links.value.value).Ok?))
      && (o.response.status == 201 ==> o.response == Reply(201, written.value))
      && (o.response.status != 201 ==> o.response == InternalError)
    ensures o.response.status == 201 ==>
      body.Ok? && AdminPosts.CreateData(body.value, user, now).Ok? && Truthy(Get(body.value, "categoryId"))
  {
    match body
    case Threw => Respond(InternalError)
    case Ok(data) =>
      match AdminPosts.CreateData(data, user, now)
      case Threw => Respond(InternalError)
      case Ok(payload) =>
        if !Truthy(Get(data, "categoryId")) then Respond(CategoryRequired)
        else
          var create := Request.Create(Posts, payload);
          match db.written(create)
          case Threw => Outcome(InternalError, [create])
          case Ok(post) =>
            match LinkRequest(post, GetOrDefault(data, "tags", JArr([])))
            case Threw => Outcome(InternalError, [create])
            case Ok(None) => Outcome(Reply(201, post), [create])
            case Ok(Some(link)) =>
              match db.written(link)
              case Threw => Outcome(InternalError, [create, link])
              case Ok(_) => Outcome(Reply(201, post), [create, link])
  }

  function PostHandler(db: Db, jwt: Auth.Jwt, cookies: Cookies, now: nat, body: Fallible<Body>): (o: Outcome)
    ensures Crud.GuardedBy(o, Gate.Check(cookies, Gate.AdminCookie, jwt))
    ensures Gate.Check(cookies, Gate.AdminCookie, jwt).Admitted? ==>
      o == Create(db, Gate.Check(cookies, Gate.AdminCookie, jwt).user, now, body)
  {
    match Gate.Check(cookies, Gate.AdminCookie, jwt)
    case Refused(r) => Respond(r)
    case Admitted(user) => Create(db, user, now, body)
  }

  /** The slug is derived before the category check, so a body with no slug, no title and no
      category is a server error, not a 400. */
  lemma SlugBeforeCategoryCheck(db: Db, user: Json, now: nat, data: Body)
    requires "slug" !in data && "title" !in data && "categoryId" !in data
    ensures Create(db, user, now, Ok(data)) == Respond(InternalError)
  {
  }

  /** With a non-empty list of tag ids, exactly one link row per id is written, in order,
      each pointing at the new post; an empty list writes no link. */
  lemma TagLinksFollowTheList(db: Db, user: Json, now: nat, data: Body, ids: seq<Json>)
    requires Create(db, user, now, Ok(data)).response.status == 201
    requires Get(data, "tags") == Some(JArr(ids))
    ensures |ids| == 0 <==> |Create(db, user, now, Ok(data)).calls| == 1
    ensures |ids| > 0 ==>
      var o := Create(db, user, now, Ok(data));
      var post := db.written(o.calls[0]).value;
      |o.calls| == 2 && o.calls[1] == CreateMany(PostTags, TagLinks(post, ids))
  {
  }
}
