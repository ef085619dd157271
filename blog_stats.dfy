/**
 * /api/blog/stats: public blog counters. Eight reads are issued together
 * beside a constant zero for the likes; the view total falls back to 0 when
 * the sum is null, and the average and the publish rate are rounded and
 * guarded against zero posts.
 * Any rejected read gives 500 with the six counters set to zero.
 */
module BlogStats {
  import opened Wrappers
  import opened Json
  import opened Store
  import opened Http

  function Only(key: string, v: Json): Where {
    Where(map[key := Is(v)], None)
  }

  const Published := Only("published", JBool(true))

  const Reads: seq<Request> := [
    Count(Posts, Everything), Count(Posts, Published), Count(Posts, Only("published", JBool(false))),
    SumOf(Posts, "views"), Count(Comments, Only("approved", JBool(true))),
    FindMany(Query(Posts, Published, [("createdAt", Desc)], None, Some(5))),
    FindMany(Query(Posts, Published, [("views", Desc)], None, Some(5))),
    FindMany(Query(Categories, Everything, [], None, None))]

  /** `Math.round(a / b)` for `b > 0`, in exact arithmetic: the integer nearest to a/b, halves rounded up. */
  function RoundDiv(a: nat, b: nat): (r: nat)
    requires b > 0
    ensures 2 * b * r <= 2 * a + b < 2 * b * (r + 1)
  {
    (2 * a + b) / (2 * b)
  }

  /** `totalPosts > 0 ? Math.round(views / totalPosts) : 0`. */
  function AverageViews(views: nat, posts: nat): nat {
    if posts > 0 then RoundDiv(views, posts) else 0
  }

  /** `totalPosts > 0 ? Math.round(published / totalPosts * 100) : 0`. */
  function PublishRate(published: nat, posts: nat): nat {
    if posts > 0 then RoundDiv(published * 100, posts) else 0
  }

  /** The average is the nearest whole number to views per post, and 0 when there are no posts. */
  lemma AverageViewsBounds(views: nat, posts: nat)
    ensures posts == 0 ==> AverageViews(views, posts) == 0
    ensures posts > 0 ==> 2 * posts * AverageViews(views, posts) <= 2 * views + posts
    ensures posts > 0 ==> 2 * views + posts < 2 * posts * (AverageViews(views, posts) + 1)
  {
  }

  lemma MulLe(a: nat, b: nat, c: nat)
    requires a <= b
    ensures a * c <= b * c
  {
  }

  /** The publish rate is a percentage: between 0 and 100 whenever no more posts are published
      than exist, 100 when all are, and 0 when none are. */
  lemma PublishRateIsPercentage(published: nat, posts: nat)
    requires published <= posts
    ensures 0 <= PublishRate(published, posts) <= 100
    ensures posts > 0 && published == posts ==> PublishRate(published, posts) == 100
    ensures published == 0 ==> PublishRate(published, posts) == 0
  {
    if posts > 0 {
      var r := PublishRate(published, posts);
      var d := 2 * posts;
      assert d * r <= 2 * (published * 100) + posts;
      MulLe(published, posts, 200);
      if r > 100 {
        MulLe(101, r, d);
        assert false;
      }
      if published == posts {
        if r < 100 {
          MulLe(r + 1, 100, d);
          assert false;
        }
      }
      if published == 0 {
        if r >= 1 {
          MulLe(1, r, d);
          assert false;
        }
      }
    }
  }

  /** The answers to the reads, or None when any was rejected. */
  datatype Figures = Figures(
    posts: nat, published: nat, drafts: nat, views: Option<nat>, comments: nat,
    recent: seq<Json>, popular: seq<Json>, categories: seq<Json>)

  function Fetch(db: Db): (f: Option<Figures>)
    ensures f.Some? <==>
      && db.counted(Reads[0]).Ok? && db.counted(Reads[1]).Ok? && db.counted(Reads[2]).Ok?
      && db.summed(Reads[3]).Ok? && db.counted(Reads[4]).Ok?
      && db.rows(Reads[5]).Ok? && db.rows(Reads[6]).Ok? && db.rows(Reads[7]).Ok?
    ensures f.Some? ==> f.value.posts == db.counted(Reads[0]).value && f.value.published == db.counted(Reads[1]).value
    ensures f.Some? ==> f.value.drafts == db.counted(Reads[2]).value
    ensures f.Some? ==> f.value.views == db.summed(Reads[3]).value && f.value.comments == db.counted(Reads[4]).value
    ensures f.Some? ==> f.value.recent == db.rows(Reads[5]).value && f.value.popular == db.rows(Reads[6]).value
    ensures f.Some? ==> f.value.categories == db.rows(Reads[7]).value
  {
    match (db.counted(Reads[0]), db.counted(Reads[1]), db.counted(Reads[2]), db.summed(Reads[3]), db.counted(Reads[4]))
    case (Ok(posts), Ok(published), Ok(drafts), Ok(views), Ok(comments)) =>
      (match (db.rows(Reads[5]), db.rows(Reads[6]), db.rows(Reads[7]))
       case (Ok(recent), Ok(popular), Ok(categories)) =>
         Some(Figures(posts, published, drafts, views, comments, recent, popular, categories))
       case _ => None)
    case _ => None
  }

  /** `totalViews._sum.views || 0`. */
  function TotalViews(views: Option<nat>): nat {
    views.GetOr(0)
  }

  function Stats(f: Figures): Json {
    JObj(map[
      "totalPosts" := JNum(f.posts), "publishedPosts" := JNum(f.published), "draftPosts" := JNum(f.drafts),
      "totalViews" := JNum(TotalViews(f.views)), "totalComments" := JNum(f.comments), "totalLikes" := JNum(0),
      "recentPosts" := JArr(f.recent), "popularPosts" := JArr(f.popular), "categories" := JArr(f.categories),
      "averageViews" := JNum(AverageViews(TotalViews(f.views), f.posts)),
      "publishRate" := JNum(PublishRate(f.published, f.posts))])
  }

  /** The six counters of the error body. */
  const CounterKeys := ["totalPosts", "publishedPosts", "draftPosts", "totalViews", "totalComments", "totalLikes"]

  const Failed := Response(500, JObj(map[
    "error" := JStr("Internal server error"), "totalPosts" := JNum(0), "publishedPosts" := JNum(0),
    "draftPosts" := JNum(0), "totalViews" := JNum(0), "totalComments" := JNum(0), "totalLikes" := JNum(0)]), None)

  function GetHandler(db: Db): (o: Outcome)
    ensures o.calls == Reads
    ensures o.response.status == 200 <==> Fetch(db).Some?
    ensures o.response.status == 200 ==> o.response.body == Stats(Fetch(db).value)
    ensures o.response.status != 200 ==> o.response == Failed
  {
    match Fetch(db)
    case Some(f) => Outcome(Reply(200, Stats(f)), Reads)
    case None => Outcome(Failed, Reads)
  }

  /** A null view sum counts as 0 views, likes are always 0, and the derived figures are 0 for a blog
      without posts. */
  lemma StatsFallbacks(f: Figures)
    ensures Stats(f).fields["totalViews"] == JNum(if f.views.Some? then f.views.value else 0)
    ensures Stats(f).fields["totalLikes"] == JNum(0)
    ensures f.posts == 0 ==> Stats(f).fields["averageViews"] == JNum(0) && Stats(f).fields["publishRate"] == JNum(0)
  {
  }

  /** The failure body carries the error and all six counters set to zero. */
  lemma FailedCountersAreZero()
    ensures Failed.status == 500
    ensures forall i :: 0 <= i < |CounterKeys| ==> Failed.body.fields[CounterKeys[i]] == JNum(0)
    ensures Failed.body.fields["error"] == JStr("Internal server error")
  {
  }
}
