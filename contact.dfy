/**
 * /api/contact: the public contact form. All four fields must be truthy; then
 * exactly one contact row holding those four fields is written and a fixed
 * confirmation is sent back instead of the row.
 */
module Contact {
  import opened Wrappers
  import opened Json
  import opened Store
  import opened Http

  const Fields := ["name", "email", "subject", "message"]

  const Missing := Error(400, "All fields are required")

  const Sent := Reply(201, JObj(map["success" := JBool(true), "message" := JStr("Message sent successfully")]))

  /** `name && email && subject && message`. */
  predicate Complete(data: Body) {
    forall i :: 0 <= i < |Fields| ==> Truthy(Get(data, Fields[i]))
  }

  /** The stored row: exactly the four fields as sent. */
  function Row(data: Body): (r: Body)
    requires Complete(data)
    ensures r.Keys == {"name", "email", "subject", "message"}
    ensures forall k :: k in r ==> k in data && r[k] == data[k]
  {
    assert Truthy(Get(data, Fields[0])) && Truthy(Get(data, Fields[1]));
    assert Truthy(Get(data, Fields[2])) && Truthy(Get(data, Fields[3]));
    map["name" := data["name"], "email" := data["email"], "subject" := data["subject"], "message" := data["message"]]
  }

  function PostHandler(db: Db, body: Fallible<Body>): (o: Outcome)
    ensures body.Threw? ==> o == Respond(InternalError)
    ensures body.Ok? && !Complete(body.value) ==> o == Respond(Missing)
    ensures body.Ok? && Complete(body.value) ==> o.calls == [Create(Contacts, Row(body.value))]
    ensures body.Ok? && Complete(body.value) ==>
      o.response == if db.written(o.calls[0]).Ok? then Sent else InternalError
    ensures o.response.status in {201, 400, 500}
  {
    match body
    case Threw => Respond(InternalError)
    case Ok(data) =>
      if !Complete(data) then Respond(Missing)
      else
        var call := Create(Contacts, Row(data));
        Outcome(if db.written(call).Ok? then Sent else InternalError, [call])
  }

  /** An empty or missing field anywhere means 400 and no write at all. */
  lemma AnyMissingFieldRejects(db: Db, data: Body, k: string)
    requires k in Fields && !Truthy(Get(data, k))
    ensures PostHandler(db, Ok(data)) == Respond(Missing)
  {
    var i :| 0 <= i < |Fields| && Fields[i] == k;
  }

  /** The response never echoes the stored row: it is the same for every accepted message. */
  lemma ResponseIgnoresContent(db: Db, a: Body, b: Body)
    requires Complete(a) && Complete(b)
    requires db.written(Create(Contacts, Row(a))).Ok? && db.written(Create(Contacts, Row(b))).Ok?
    ensures PostHandler(db, Ok(a)).response == PostHandler(db, Ok(b)).response == Sent
  {
  }
}
