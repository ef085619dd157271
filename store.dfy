/**
 * The relational store as the handlers use it: the exact requests they issue
 * (filter, ordering, skip/take, create and update payloads) and the store's
 * answers, which the model takes as an oracle. Which relations a request
 * includes in its rows is not modelled.
 */
module Store {
  import opened Wrappers
  import opened Json
  import Text

  datatype Table =
    | Users | AdminSessions | Posts | PostTags | Categories | Tags
    | Members | Products | Videos | Contacts | Comments | Orders

  datatype Dir = Asc | Desc

  /** One member of a `where` object. */
  datatype Cond =
    | Is(v: Json)                 // field: value
    | CategorySlug(slug: string)  // category: { slug }
    | HasTagSlug(slug: string)    // tags: { some: { tag: { slug } } }

  /** `OR: [{ f: { contains: text, mode: 'insensitive' } } for f in fields]`. */
  datatype Search = Search(text: string, fields: seq<string>)

  datatype Where = Where(conds: map<string, Cond>, search: Option<Search>)

  /** The empty filter `{}`. */
  const Everything := Where(map[], None)

  datatype Query = Query(
    table: Table,
    where: Where,
    orderBy: seq<(string, Dir)>,
    skip: Option<nat>,
    take: Option<nat>)

  datatype Request =
    | FindUnique(table: Table, key: string, value: Json)
    | FindMany(query: Query)
    | Count(table: Table, where: Where)
    | SumOf(table: Table, field: string)
    | Create(table: Table, data: Body)
    | CreateMany(table: Table, rows: seq<Body>)
    | Update(table: Table, id: Option<Json>, data: Body)
    | Delete(table: Table, id: Option<Json>)

  /**
   * The store's answer to each kind of request; `Threw` is a rejected call.
   *   found:   findUnique, None for `null`
   *   rows:    findMany
   *   counted: count
   *   summed:  aggregate `_sum`, None for a `null` sum
   *   written: create, createMany, update and delete
   */
  datatype Db = Db(
    found: Request -> Fallible<Option<Json>>,
    rows: Request -> Fallible<seq<Json>>,
    counted: Request -> Fallible<nat>,
    summed: Request -> Fallible<Option<nat>>,
    written: Request -> Fallible<Json>)

  /** `needle` occurs in `hay` as a contiguous piece. */
  predicate Occurs(needle: string, hay: string)
    decreases |hay|
  {
    Text.StartsWith(hay, needle) || (hay != [] && Occurs(needle, hay[1..]))
  }

  /** `{ contains: text, mode: 'insensitive' }` on one field (ASCII case folding). */
  predicate ContainsInsensitive(row: Json, field: string, text: string) {
    match Field(row, field)
    case Some(JStr(s)) => Occurs(Text.Lower(text), Text.Lower(s))
    case _ => false
  }

  /** The rows a single `where` member keeps. */
  predicate CondHolds(row: Json, key: string, c: Cond) {
    match c
    case Is(v) => Field(row, key) == Some(v)
    case CategorySlug(slug) =>
      var category := Field(row, key);
      category.Some? && Field(category.value, "slug") == Some(JStr(slug))
    case HasTagSlug(slug) =>
      match Field(row, key)
      case Some(JArr(links)) =>
        exists i :: 0 <= i < |links| && TagSlugIs(links[i], slug)
      case _ => false
  }

  /** A post-tag link `{ tag: { slug } }` whose tag has this slug. */
  predicate TagSlugIs(link: Json, slug: string) {
    var tag := Field(link, "tag");
    tag.Some? && Field(tag.value, "slug") == Some(JStr(slug))
  }

  /** The rows a filter keeps: every member holds, and with a search some listed field contains the text. */
  predicate Selects(w: Where, row: Json) {
    && (forall key :: key in w.conds ==> CondHolds(row, key, w.conds[key]))
    && (w.search.Some? ==>
          exists j :: 0 <= j < |w.search.value.fields| && ContainsInsensitive(row, w.search.value.fields[j], w.search.value.text))
  }

  /** What a faithful store returns for `findMany`: at most `take` rows, each kept by the filter
      (skipping and ordering are not stated). */
  predicate Answers(q: Query, rows: seq<Json>) {
    && (q.take.Some? ==> |rows| <= q.take.value)
    && (forall i :: 0 <= i < |rows| ==> Selects(q.where, rows[i]))
  }
}
