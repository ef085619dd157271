/**
 * Offset paging shared by the list handlers: `page` and `limit` default to 1
 * and 10, the query skips `(page - 1) * limit` rows and takes `limit`, and the
 * response reports `pages = Math.ceil(total / limit)`.
 */
module Paging {
  import opened Wrappers
  import opened Json
  import opened Store
  import opened Http
  import Text

  const DefaultPage := 1
  const DefaultLimit := 10

  /** A page or limit parameter that `parseInt(get(key) || default)` turns into a positive integer:
      absent, empty, or decimal digits with a positive value. */
  predicate PositiveParam(params: Params, key: string) {
    key !in params || params[key] == [] || (Text.IsDecimal(params[key]) && Text.DecimalValue(params[key]) >= 1)
  }

  /** `parseInt(searchParams.get(key) || default)`. */
  function IntParam(params: Params, key: string, default: nat): (n: nat)
    requires PositiveParam(params, key)
    ensures !Given(Param(params, key)) ==> n == default
    ensures Given(Param(params, key)) ==> n == Text.DecimalValue(params[key]) && n >= 1
  {
    if key in params && params[key] != [] then Text.DecimalValue(params[key]) else default
  }

  function Skip(page: nat, limit: nat): nat
    requires page >= 1
  {
    (page - 1) * limit
  }

  /** `Math.ceil(total / limit)` on integers. */
  function PageCount(total: nat, limit: nat): nat
    requires limit >= 1
  {
    (total + limit - 1) / limit
  }

  /** PageCount is the least number of pages of `limit` rows that holds `total` rows. */
  lemma PageCountIsCeiling(total: nat, limit: nat)
    requires limit >= 1
    ensures PageCount(total, limit) * limit >= total
    ensures PageCount(total, limit) >= 1 ==> (PageCount(total, limit) - 1) * limit < total
    ensures total == 0 <==> PageCount(total, limit) == 0
  {
    var q := PageCount(total, limit);
    var r := (total + limit - 1) % limit;
    assert total + limit - 1 == q * limit + r;
    if q >= 1 {
      assert (q - 1) * limit == q * limit - limit;
    }
  }

  /** The rows the store returns for `skip`/`take` on an ordered result. */
  function Window<T>(rows: seq<T>, skip: nat, take: nat): (w: seq<T>)
    ensures |w| <= take
  {
    if skip >= |rows| then []
    else if skip + take >= |rows| then rows[skip..]
    else rows[skip..skip + take]
  }

  /** Page `page` of `rows`. */
  function PageOf<T>(rows: seq<T>, page: nat, limit: nat): (w: seq<T>)
    requires page >= 1
  {
    Window(rows, Skip(page, limit), limit)
  }

  /** Pages 1 to n, one after another. */
  function FirstPages<T>(rows: seq<T>, n: nat, limit: nat): seq<T>
    decreases n
  {
    if n == 0 then [] else FirstPages(rows, n - 1, limit) + PageOf(rows, n, limit)
  }

  lemma {:induction false} FirstPagesPrefix<T>(rows: seq<T>, n: nat, limit: nat)
    ensures FirstPages(rows, n, limit) == rows[..if n * limit <= |rows| then n * limit else |rows|]
    decreases n
  {
    if n > 0 {
      FirstPagesPrefix(rows, n - 1, limit);
      var lo := (n - 1) * limit;
      assert n * limit == lo + limit;
      var hi := lo + limit;
      assert Skip(n, limit) == lo;
      if lo >= |rows| {
        assert PageOf(rows, n, limit) == [];
      } else if hi >= |rows| {
        assert PageOf(rows, n, limit) == rows[lo..];
        assert rows[..lo] + rows[lo..] == rows[..|rows|];
      } else {
        assert PageOf(rows, n, limit) == rows[lo..hi];
        assert rows[..lo] + rows[lo..hi] == rows[..hi];
      }
    }
  }

  /** Reading pages 1 to `pages` in turn returns every row exactly once, in order. */
  lemma PagesCoverAllRows<T>(rows: seq<T>, limit: nat)
    requires limit >= 1
    ensures FirstPages(rows, PageCount(|rows|, limit), limit) == rows
  {
    PageCountIsCeiling(|rows|, limit);
    FirstPagesPrefix(rows, PageCount(|rows|, limit), limit);
  }

  /** Every page up to `pages` holds rows and every later page is empty. */
  lemma PagesBeyondCountAreEmpty<T>(rows: seq<T>, page: nat, limit: nat)
    requires page >= 1 && limit >= 1
    ensures PageOf(rows, page, limit) == [] <==> page > PageCount(|rows|, limit)
  {
    PageCountIsCeiling(|rows|, limit);
    var q := PageCount(|rows|, limit);
    var skip := Skip(page, limit);
    WindowEmpty(rows, skip, limit);
    if page <= q {
      MulMonotone(page - 1, q - 1, limit);
    } else {
      MulMonotone(q, page - 1, limit);
    }
  }

  lemma WindowEmpty<T>(rows: seq<T>, skip: nat, take: nat)
    requires take >= 1
    ensures Window(rows, skip, take) == [] <==> skip >= |rows|
  {
    if skip < |rows| && skip + take < |rows| {
      assert |rows[skip..skip + take]| == take;
    }
  }

  lemma MulMonotone(a: nat, b: nat, c: nat)
    requires a <= b
    ensures a * c <= b * c
  {
    assert b * c == a * c + (b - a) * c;
  }

  /** `{ page, limit, total, pages }`. */
  function Pagination(page: nat, limit: nat, total: nat): Json
    requires limit >= 1
  {
    JObj(map["page" := JNum(page), "limit" := JNum(limit), "total" := JNum(total),
             "pages" := JNum(PageCount(total, limit))])
  }

  /**
   * The list branch the paged handlers share:
   *   const [rows, total] = await Promise.all([findMany({ where, orderBy, skip, take: limit }), count({ where })])
   * Both requests are issued; either failing gives 500, otherwise 200 with
   * `{ [key]: rows, pagination }`.
   */
  function ListPage(db: Db, table: Table, key: string, where: Where, orderBy: seq<(string, Dir)>,
                    page: nat, limit: nat): (o: Outcome)
    requires page >= 1 && limit >= 1
    ensures o.calls == [FindMany(Query(table, where, orderBy, Some(Skip(page, limit)), Some(limit))), Count(table, where)]
    ensures o.response.status == 200 <==> db.rows(o.calls[0]).Ok? && db.counted(o.calls[1]).Ok?
    ensures o.response.status != 200 ==> o.response == InternalError
    ensures o.response.status == 200 ==>
      o.response.body == JObj(map[key := JArr(db.rows(o.calls[0]).value),
                                  "pagination" := Pagination(page, limit, db.counted(o.calls[1]).value)])
  {
    var find := FindMany(Query(table, where, orderBy, Some(Skip(page, limit)), Some(limit)));
    var count := Count(table, where);
    var response :=
      match (db.rows(find), db.counted(count))
      case (Ok(rows), Ok(total)) =>
        Reply(200, JObj(map[key := JArr(rows), "pagination" := Pagination(page, limit, total)]))
      case _ => InternalError;
    Outcome(response, [find, count])
  }
}
