/**
 * The response shapes the admin handlers share once the gate has passed:
 * fetch one row by id (404 when absent), write one row and echo it, delete
 * one row; any rejected store call gives 500 'Internal server error'.
 */
module Crud {
  import opened Wrappers
  import opened Json
  import opened Store
  import opened Http
  import Gate
  import Auth
  import Slug
  import Text

  /** `findUnique({ where: { id } })`: 200 with the row, 404 with `missing` when there is none. */
  function GetById(db: Db, table: Table, id: string, missing: string): (o: Outcome)
    ensures o.calls == [FindUnique(table, "id", JStr(id))]
    ensures o.response.status == 200 <==> db.found(o.calls[0]).Ok? && db.found(o.calls[0]).value.Some?
    ensures o.response.status == 200 ==> o.response.body == db.found(o.calls[0]).value.value
    ensures o.response.status == 404 <==> db.found(o.calls[0]) == Ok(None)
    ensures o.response.status == 404 ==> o.response == Error(404, missing)
    ensures o.response.status !in {200, 404} ==> o.response == InternalError
  {
    var call := FindUnique(table, "id", JStr(id));
    match db.found(call)
    case Threw => Outcome(InternalError, [call])
    case Ok(None) => Outcome(Error(404, missing), [call])
    case Ok(Some(row)) => Outcome(Reply(200, row), [call])
  }

  /** One write that answers `status` with the written row, or 500 if the store rejects it. */
  function Written(db: Db, call: Request, status: int): (o: Outcome)
    requires status != 500
    ensures o.calls == [call]
    ensures db.written(call).Ok? ==> o.response == Reply(status, db.written(call).value)
    ensures db.written(call).Threw? ==> o.response == InternalError
  {
    match db.written(call)
    case Ok(row) => Outcome(Reply(status, row), [call])
    case Threw => Outcome(InternalError, [call])
  }

  /** `delete({ where: { id } })`, answering `{ success: true }`. */
  function Deleted(db: Db, table: Table, body: Fallible<Body>): (o: Outcome)
    ensures body.Threw? ==> o == Respond(InternalError)
    ensures body.Ok? ==> o.calls == [Delete(table, Get(body.value, "id"))]
    ensures body.Ok? ==> (o.response.status == 200 <==> db.written(o.calls[0]).Ok?)
    ensures o.response.status == 200 ==> o.response.body == Success
    ensures o.response.status != 200 ==> o.response == InternalError
  {
    match body
    case Threw => Respond(InternalError)
    case Ok(fields) =>
      var call := Delete(table, Get(fields, "id"));
      match db.written(call)
      case Ok(_) => Outcome(Reply(200, Success), [call])
      case Threw => Outcome(InternalError, [call])
  }

  /** `const { id, ...updateData } = data`: the id and every other member unchanged. */
  function SplitId(data: Body): (r: (Option<Json>, Body))
    ensures r.0 == Get(data, "id")
    ensures r.1.Keys == data.Keys - {"id"}
    ensures forall k :: k in r.1 ==> r.1[k] == data[k]
  {
    (Get(data, "id"), data - {"id"})
  }

  /** A handler guarded by the gate answers the refusal and touches nothing when the gate refuses. */
  predicate GuardedBy(o: Outcome, v: Gate.Verdict) {
    v.Refused? ==> o == Respond(v.response)
  }

  /** `slug || name.toLowerCase().replace(...)...`: a truthy client slug verbatim, otherwise the
      slug of the name, which must then be a string (anything else throws). */
  function SlugOr(slug: Option<Json>, name: Option<Json>): (r: Fallible<Json>)
    ensures Truthy(slug) ==> r == Ok(slug.value)
    ensures !Truthy(slug) ==> (r.Ok? <==> name.Some? && name.value.JStr?)
    ensures !Truthy(slug) && r.Ok? ==> r.value == JStr(Slug.Slugify(name.value.s)) && Slug.IsSlug(r.value.s)
  {
    if Truthy(slug) then Ok(slug.value)
    else
      match StringValue(name)
      case Threw => Threw
      case Ok(s) =>
        Slug.SlugifyShape(s);
        Ok(JStr(Slug.Slugify(s)))
  }

  /** `if (d.key) d.key = d.key.toUpperCase()`: a truthy member must be a string. */
  function UpperMember(d: Body, key: string): (r: Fallible<Body>)
    ensures r.Ok? <==> !Truthy(Get(d, key)) || d[key].JStr?
    ensures !Truthy(Get(d, key)) ==> r == Ok(d)
    ensures Truthy(Get(d, key)) && r.Ok? ==> r.value == d[key := JStr(Text.Upper(d[key].s))]
  {
    if !Truthy(Get(d, key)) then Ok(d)
    else if d[key].JStr? then Ok(d[key := JStr(Text.Upper(d[key].s))])
    else Threw
  }

  /** A member as `UpperMember` leaves it. */
  function Normalised(v: Option<Json>): Option<Json> {
    if Truthy(v) && v.value.JStr? then Some(JStr(Text.Upper(v.value.s))) else v
  }
}
