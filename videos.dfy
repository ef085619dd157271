/**
 * /api/videos: the public, paged list of published videos (optionally only
 * the featured ones) and the video creator behind the gate on `auth-token`.
 */
module Videos {
  import opened Wrappers
  import opened Json
  import opened Store
  import opened Http
  import opened Paging
  import Gate
  import Crud
  import Auth

  /** `{ published: true }`, plus `featured: true` when the parameter is exactly 'true'. */
  function VideosWhere(featured: Option<string>): (w: Where)
    ensures w.conds.Keys <= {"published", "featured"}
    ensures "published" in w.conds && w.conds["published"] == Is(JBool(true))
    ensures "featured" in w.conds <==> featured == Some("true")
    ensures "featured" in w.conds ==> w.conds["featured"] == Is(JBool(true))
    ensures w.search.None?
  {
    var conds := map["published" := Is(JBool(true))];
    Where(if featured == Some("true") then conds["featured" := Is(JBool(true))] else conds, None)
  }

  /** The list is exactly the published videos, and with `featured=true` the published featured ones. */
  lemma VideosWhereSelects(featured: Option<string>, row: Json)
    ensures Selects(VideosWhere(featured), row) <==>
      Field(row, "published") == Some(JBool(true)) &&
      (featured == Some("true") ==> Field(row, "featured") == Some(JBool(true)))
  {
    var w := VideosWhere(featured);
    if featured == Some("true") {
      assert w.conds.Keys == {"published", "featured"};
    } else {
      assert w.conds.Keys == {"published"};
    }
  }

  const ListOrder: seq<(string, Dir)> := [("createdAt", Desc)]

  function GetHandler(db: Db, params: Params): (o: Outcome)
    requires PositiveParam(params, "page") && PositiveParam(params, "limit")
    ensures var page := IntParam(params, "page", DefaultPage);
      var limit := IntParam(params, "limit", DefaultLimit);
      && o.calls == [FindMany(Query(Videos, VideosWhere(Param(params, "featured")), ListOrder, Some(Skip(page, limit)), Some(limit))),
                     Count(Videos, VideosWhere(Param(params, "featured")))]
      && o == ListPage(db, Videos, "videos", VideosWhere(Param(params, "featured")), ListOrder, page, limit)
  {
    var page := IntParam(params, "page", DefaultPage);
    var limit := IntParam(params, "limit", DefaultLimit);
    ListPage(db, Videos, "videos", VideosWhere(Param(params, "featured")), ListOrder, page, limit)
  }

  const CreateKeys := {"title", "description", "youtubeId", "thumbnail", "duration", "published", "featured"}
  const PassedThrough := {"title", "description", "youtubeId", "thumbnail", "duration"}

  /** Member `key` of the create payload: `published` defaults to true and `featured` to false. */
  function CreateMember(data: Body, key: string): Option<Json> {
    if key == "published" then Some(GetOrDefault(data, "published", JBool(true)))
    else if key == "featured" then Some(GetOrDefault(data, "featured", JBool(false)))
    else if key in PassedThrough then Get(data, key)
    else None
  }

  function CreateData(data: Body): (r: Body)
    ensures r.Keys <= CreateKeys
    ensures forall k :: k in PassedThrough ==> Get(r, k) == Get(data, k)
    ensures Get(r, "published") == Some(GetOrDefault(data, "published", JBool(true)))
    ensures Get(r, "featured") == Some(GetOrDefault(data, "featured", JBool(false)))
  {
    var r := map k | k in CreateKeys && CreateMember(data, k).Some? :: CreateMember(data, k).value;
    assert Get(r, "published") == CreateMember(data, "published");
    assert Get(r, "featured") == CreateMember(data, "featured");
    r
  }

  /** A video created without `published` is listed; one created without `featured` is left out of
      the featured list. */
  lemma NewVideoVisibility(data: Body)
    ensures "published" !in data ==> Selects(VideosWhere(None), JObj(CreateData(data)))
    ensures "featured" !in data ==> !Selects(VideosWhere(Some("true")), JObj(CreateData(data)))
  {
    VideosWhereSelects(None, JObj(CreateData(data)));
    VideosWhereSelects(Some("true"), JObj(CreateData(data)));
  }

  function PostHandler(db: Db, jwt: Auth.Jwt, cookies: Cookies, body: Fallible<Body>): (o: Outcome)
    ensures Crud.GuardedBy(o, Gate.Check(cookies, Gate.AuthCookie, jwt))
    ensures Gate.Check(cookies, Gate.AuthCookie, jwt).Admitted? ==>
      if body.Ok? then o == Crud.Written(db, Create(Videos, CreateData(body.value)), 201)
      else o == Respond(InternalError)
  {
    match Gate.Check(cookies, Gate.AuthCookie, jwt)
    case Refused(r) => Respond(r)
    case Admitted(_) =>
      match body
      case Threw => Respond(InternalError)
      case Ok(data) => Crud.Written(db, Create(Videos, CreateData(data)), 201)
  }
}
