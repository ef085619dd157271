/**
 * /api/admin/dashboard: behind the `admin-token` gate, ten reads issued
 * together (seven counts and three short lists) and one record of counters
 * derived from them; any rejected read gives 500.
 */
module Dashboard {
  import opened Wrappers
  import opened Json
  import opened Store
  import opened Http
  import Gate
  import Crud
  import Auth

  function Only(key: string, v: Json): Where {
    Where(map[key := Is(v)], None)
  }

  const Newest: seq<(string, Dir)> := [("createdAt", Desc)]

  const TotalPosts := Count(Posts, Everything)
  const PublishedPosts := Count(Posts, Only("published", JBool(true)))
  const TotalMembers := Count(Members, Everything)
  const ActiveMembers := Count(Members, Only("status", JStr("ACTIVE")))
  const PublishedVideos := Count(Videos, Only("published", JBool(true)))
  const ActiveProducts := Count(Products, Only("active", JBool(true)))
  const TotalOrders := Count(Orders, Everything)
  /** Unread contacts, newest first, at most five. */
  const RecentContacts := Query(Contacts, Only("read", JBool(false)), Newest, None, Some(5))
  /** The five newest posts of any status. */
  const RecentPosts := Query(Posts, Everything, Newest, None, Some(5))
  /** At most five published posts, most viewed first. */
  const PopularPosts := Query(Posts, Only("published", JBool(true)), [("views", Desc)], None, Some(5))

  /** The reads, in the order the handler lists them. */
  const Reads: seq<Request> := [TotalPosts, PublishedPosts, TotalMembers, ActiveMembers, PublishedVideos,
                                ActiveProducts, TotalOrders, FindMany(RecentContacts), FindMany(RecentPosts),
                                FindMany(PopularPosts)]

  /** The counters and lists the reads return. */
  datatype Figures = Figures(
    posts: nat, published: nat, members: nat, active: nat, videos: nat, products: nat, orders: nat,
    contacts: seq<Json>, recent: seq<Json>, popular: seq<Json>)

  /** Every read answered, or None when any of them was rejected. */
  function Fetch(db: Db): (f: Option<Figures>)
    ensures f.Some? <==>
      && db.counted(TotalPosts).Ok? && db.counted(PublishedPosts).Ok? && db.counted(TotalMembers).Ok?
      && db.counted(ActiveMembers).Ok? && db.counted(PublishedVideos).Ok? && db.counted(ActiveProducts).Ok?
      && db.counted(TotalOrders).Ok?
      && db.rows(FindMany(RecentContacts)).Ok? && db.rows(FindMany(RecentPosts)).Ok? && db.rows(FindMany(PopularPosts)).Ok?
    ensures f.Some? ==> f.value.posts == db.counted(TotalPosts).value && f.value.published == db.counted(PublishedPosts).value
    ensures f.Some? ==> f.value.members == db.counted(TotalMembers).value && f.value.active == db.counted(ActiveMembers).value
    ensures f.Some? ==> f.value.videos == db.counted(PublishedVideos).value && f.value.products == db.counted(ActiveProducts).value
    ensures f.Some? ==> f.value.orders == db.counted(TotalOrders).value
    ensures f.Some? ==> f.value.contacts == db.rows(FindMany(RecentContacts)).value
    ensures f.Some? ==> f.value.recent == db.rows(FindMany(RecentPosts)).value
    ensures f.Some? ==> f.value.popular == db.rows(FindMany(PopularPosts)).value
  {
    match (db.counted(TotalPosts), db.counted(PublishedPosts), db.counted(TotalMembers), db.counted(ActiveMembers),
           db.counted(PublishedVideos), db.counted(ActiveProducts), db.counted(TotalOrders))
    case (Ok(posts), Ok(published), Ok(members), Ok(active), Ok(videos), Ok(products), Ok(orders)) =>
      (match (db.rows(FindMany(RecentContacts)), db.rows(FindMany(RecentPosts)), db.rows(FindMany(PopularPosts)))
       case (Ok(contacts), Ok(recent), Ok(popular)) =>
         Some(Figures(posts, published, members, active, videos, products, orders, contacts, recent, popular))
       case _ => None)
    case _ => None
  }

  /** The response record: `draft` and `inactive` are plain differences of the counts. */
  function Stats(f: Figures): Json {
    JObj(map[
      "posts" := JObj(map["total" := JNum(f.posts), "published" := JNum(f.published),
                          "draft" := JNum(f.posts - f.published)]),
      "members" := JObj(map["total" := JNum(f.members), "active" := JNum(f.active),
                            "inactive" := JNum(f.members - f.active)]),
      "content" := JObj(map["videos" := JNum(f.videos), "products" := JNum(f.products), "orders" := JNum(f.orders)]),
      "recent" := JObj(map["contacts" := JArr(f.contacts), "posts" := JArr(f.recent), "popular" := JArr(f.popular)])])
  }

  function GetHandler(db: Db, jwt: Auth.Jwt, cookies: Cookies): (o: Outcome)
    ensures Crud.GuardedBy(o, Gate.Check(cookies, Gate.AdminCookie, jwt))
    ensures Gate.Check(cookies, Gate.AdminCookie, jwt).Admitted? ==> o.calls == Reads
    ensures o.response.status == 200 <==> Gate.Check(cookies, Gate.AdminCookie, jwt).Admitted? && Fetch(db).Some?
    ensures o.response.status == 200 ==> o.response.body == Stats(Fetch(db).value)
    ensures Gate.Check(cookies, Gate.AdminCookie, jwt).Admitted? && Fetch(db).None? ==> o.response == InternalError
  {
    match Gate.Check(cookies, Gate.AdminCookie, jwt)
    case Refused(r) => Respond(r)
    case Admitted(_) =>
      match Fetch(db)
      case Some(f) => Outcome(Reply(200, Stats(f)), Reads)
      case None => Outcome(InternalError, Reads)
  }

  /** `draft + published = total` and `inactive + active = total`; both differences are
      non-negative when the filtered counts do not exceed their totals. */
  lemma DerivedCounters(f: Figures)
    ensures var posts := Stats(f).fields["posts"].fields;
      posts["draft"].n + posts["published"].n == posts["total"].n
    ensures var members := Stats(f).fields["members"].fields;
      members["inactive"].n + members["active"].n == members["total"].n
    ensures f.published <= f.posts ==> Stats(f).fields["posts"].fields["draft"].n >= 0
    ensures f.active <= f.members ==> Stats(f).fields["members"].fields["inactive"].n >= 0
  {
  }

  /** With a store that answers its queries faithfully, the recent contacts are unread and at most
      five, and the popular posts are published and at most five. */
  lemma RecentListsAreFiltered(db: Db)
    requires Fetch(db).Some?
    requires Answers(RecentContacts, db.rows(FindMany(RecentContacts)).value)
    requires Answers(PopularPosts, db.rows(FindMany(PopularPosts)).value)
    ensures var f := Fetch(db).value;
      && |f.contacts| <= 5 && (forall i :: 0 <= i < |f.contacts| ==> Field(f.contacts[i], "read") == Some(JBool(false)))
      && |f.popular| <= 5 && (forall i :: 0 <= i < |f.popular| ==> Field(f.popular[i], "published") == Some(JBool(true)))
  {
    var f := Fetch(db).value;
    forall i | 0 <= i < |f.contacts|
      ensures Field(f.contacts[i], "read") == Some(JBool(false))
    {
      assert Selects(RecentContacts.where, f.contacts[i]);
      assert "read" in RecentContacts.where.conds;
    }
    forall i | 0 <= i < |f.popular|
      ensures Field(f.popular[i], "published") == Some(JBool(true))
    {
      assert Selects(PopularPosts.where, f.popular[i]);
      assert "published" in PopularPosts.where.conds;
    }
  }
}
