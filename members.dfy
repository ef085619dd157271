/**
 * /api/admin/members: the admin's member list and editor behind the
 * `admin-token` gate. Plans and statuses are stored and filtered upper-cased;
 * `expiresAt` becomes a date when it is given.
 */
module Members {
  import opened Wrappers
  import opened Json
  import opened Store
  import opened Http
  import opened Paging
  import Text
  import Gate
  import Crud
  import Auth

  /** Every ASCII letter in `s` is upper case. */
  predicate UpperCased(s: string) {
    forall i :: 0 <= i < |s| ==> !Text.IsAsciiLower(s[i])
  }

  /** The filter for the `plan`, `status` and `search` parameters. */
  function MembersWhere(plan: Option<string>, status: Option<string>, search: Option<string>): (w: Where)
    ensures w.conds.Keys <= {"plan", "status"}
    ensures "plan" in w.conds <==> Given(plan)
    ensures "plan" in w.conds ==> w.conds["plan"] == Is(JStr(Text.Upper(plan.value)))
    ensures "status" in w.conds <==> Given(status)
    ensures "status" in w.conds ==> w.conds["status"] == Is(JStr(Text.Upper(status.value)))
    ensures w.search.Some? <==> Given(search)
    ensures w.search.Some? ==> w.search.value == Search(search.value, ["name", "email"])
  {
    var conds := if Given(plan) then map["plan" := Is(JStr(Text.Upper(plan.value)))] else map[];
    var conds := if Given(status) then conds["status" := Is(JStr(Text.Upper(status.value)))] else conds;
    Where(conds, if Given(search) then Some(Search(search.value, ["name", "email"])) else None)
  }

  /** The handler's own construction: start from `{}` and assign member by member. */
  method BuildWhere(plan: Option<string>, status: Option<string>, search: Option<string>) returns (w: Where)
    ensures w == MembersWhere(plan, status, search)
  {
    w := Everything;
    if Given(plan) {
      w := w.(conds := w.conds["plan" := Is(JStr(Text.Upper(plan.value)))]);
    }
    if Given(status) {
      w := w.(conds := w.conds["status" := Is(JStr(Text.Upper(status.value)))]);
    }
    if Given(search) {
      w := w.(search := Some(Search(search.value, ["name", "email"])));
    }
  }

  /** The filter ignores the case of the plan and status it is given. */
  lemma FilterIgnoresCase(plan: Option<string>, status: Option<string>, search: Option<string>)
    ensures MembersWhere(plan, status, search) ==
      MembersWhere(if plan.Some? then Some(Text.Upper(plan.value)) else None,
                   if status.Some? then Some(Text.Upper(status.value)) else None, search)
  {
    if plan.Some? { Text.UpperIdempotent(plan.value); }
    if status.Some? { Text.UpperIdempotent(status.value); }
  }

  /** A given plan keeps exactly the members with that plan in upper case (before any search). */
  lemma PlanFilterSelects(plan: string, row: Json)
    requires plan != []
    ensures Selects(MembersWhere(Some(plan), None, None), row) <==> Field(row, "plan") == Some(JStr(Text.Upper(plan)))
  {
    assert MembersWhere(Some(plan), None, None).conds.Keys == {"plan"};
  }

  const NotFound := "Member not found"
  const ListOrder: seq<(string, Dir)> := [("createdAt", Desc)]

  function ListMembers(db: Db, params: Params): (o: Outcome)
    requires PositiveParam(params, "page") && PositiveParam(params, "limit")
    ensures var page := IntParam(params, "page", DefaultPage);
      var limit := IntParam(params, "limit", DefaultLimit);
      var w := MembersWhere(Param(params, "plan"), Param(params, "status"), Param(params, "search"));
      && o.calls == [FindMany(Query(Members, w, ListOrder, Some(Skip(page, limit)), Some(limit))), Count(Members, w)]
      && o == ListPage(db, Members, "members", w, ListOrder, page, limit)
  {
    var page := IntParam(params, "page", DefaultPage);
    var limit := IntParam(params, "limit", DefaultLimit);
    var w := MembersWhere(Param(params, "plan"), Param(params, "status"), Param(params, "search"));
    ListPage(db, Members, "members", w, ListOrder, page, limit)
  }

  function GetHandler(db: Db, jwt: Auth.Jwt, cookies: Cookies, params: Params): (o: Outcome)
    requires !Given(Param(params, "id")) ==> PositiveParam(params, "page") && PositiveParam(params, "limit")
    ensures Crud.GuardedBy(o, Gate.Check(cookies, Gate.AdminCookie, jwt))
    ensures Gate.Check(cookies, Gate.AdminCookie, jwt).Admitted? ==>
      o == if Given(Param(params, "id")) then Crud.GetById(db, Members, params["id"], NotFound) else ListMembers(db, params)
  {
    match Gate.Check(cookies, Gate.AdminCookie, jwt)
    case Refused(r) => Respond(r)
    case Admitted(_) =>
      var id := Param(params, "id");
      if Given(id) then Crud.GetById(db, Members, id.value, NotFound) else ListMembers(db, params)
  }

  const DefaultStatus := "ACTIVE"

  /** `expiresAt ? new Date(expiresAt) : null`. */
  function ExpiryOf(v: Option<Json>): (r: Json)
    ensures Truthy(v) ==> r == JConv(ToDate, v.value)
    ensures !Truthy(v) ==> r == JNull
  {
    if Truthy(v) then JConv(ToDate, v.value) else JNull
  }

  /** The create payload: name and email as sent, plan and status upper-cased (`status` defaults
      to ACTIVE), the expiry as a date or null. Calling `toUpperCase` on a missing or non-string
      plan or status throws. */
  function CreateData(data: Body): (r: Fallible<Body>)
    ensures r.Ok? <==> Get(data, "plan").Some? && data["plan"].JStr? && GetOrDefault(data, "status", JStr(DefaultStatus)).JStr?
    ensures r.Ok? ==> r.value.Keys <= {"name", "email", "plan", "status", "expiresAt"}
    ensures r.Ok? ==> Get(r.value, "name") == Get(data, "name") && Get(r.value, "email") == Get(data, "email")
    ensures r.Ok? ==> Get(r.value, "plan") == Some(JStr(Text.Upper(data["plan"].s)))
    ensures r.Ok? ==> Get(r.value, "status") == Some(JStr(Text.Upper(GetOrDefault(data, "status", JStr(DefaultStatus)).s)))
    ensures r.Ok? ==> Get(r.value, "expiresAt") == Some(ExpiryOf(Get(data, "expiresAt")))
  {
    match (StringValue(Get(data, "plan")), StringValue(Some(GetOrDefault(data, "status", JStr(DefaultStatus)))))
    case (Ok(plan), Ok(status)) =>
      var fixed := map["plan" := JStr(Text.Upper(plan)), "status" := JStr(Text.Upper(status)),
                       "expiresAt" := ExpiryOf(Get(data, "expiresAt"))];
      Ok(Put(Put(fixed, "name", Get(data, "name")), "email", Get(data, "email")))
    case _ => Threw
  }

  /** A new member's plan and status are upper case; without a status the member is ACTIVE. */
  lemma CreateStoresUpperCase(data: Body)
    requires CreateData(data).Ok?
    ensures var d := CreateData(data).value;
      && "plan" in d && d["plan"].JStr? && UpperCased(d["plan"].s)
      && "status" in d && d["status"].JStr? && UpperCased(d["status"].s)
      && ("status" !in data ==> d["status"] == JStr(DefaultStatus))
  {
    var d := CreateData(data).value;
    assert Text.Upper(DefaultStatus) == DefaultStatus;
  }

  /** A member created with some plan is found by the plan filter written in any ASCII case. */
  lemma CreatedMemberFoundByPlan(data: Body, plan: string)
    requires CreateData(data).Ok? && plan != []
    requires Text.Upper(plan) == Text.Upper(data["plan"].s)
    ensures Selects(MembersWhere(Some(plan), None, None), JObj(CreateData(data).value))
  {
    PlanFilterSelects(plan, JObj(CreateData(data).value));
  }

  function PostHandler(db: Db, jwt: Auth.Jwt, cookies: Cookies, body: Fallible<Body>): (o: Outcome)
    ensures Crud.GuardedBy(o, Gate.Check(cookies, Gate.AdminCookie, jwt))
    ensures Gate.Check(cookies, Gate.AdminCookie, jwt).Admitted? ==>
      if body.Ok? && CreateData(body.value).Ok? then o == Crud.Written(db, Create(Members, CreateData(body.value).value), 201)
      else o == Respond(InternalError)
  {
    match Gate.Check(cookies, Gate.AdminCookie, jwt)
    case Refused(r) => Respond(r)
    case Admitted(_) =>
      match body
      case Threw => Respond(InternalError)
      case Ok(data) =>
        match CreateData(data)
        case Threw => Respond(InternalError)
        case Ok(d) => Crud.Written(db, Create(Members, d), 201)
  }

  /** The update payload: every member but `id`, with a truthy plan and status upper-cased and a
      truthy `expiresAt` turned into a date; a truthy plan or status that is not a string throws. */
  function UpdateData(data: Body): (r: Fallible<(Option<Json>, Body)>)
    ensures r.Ok? <==> (!Truthy(Get(data, "plan")) || data["plan"].JStr?) &&
                       (!Truthy(Get(data, "status")) || data["status"].JStr?)
    ensures r.Ok? ==> r.value.0 == Get(data, "id")
    ensures r.Ok? ==> r.value.1.Keys == data.Keys - {"id"}
    ensures r.Ok? ==> forall k :: k in data && k !in {"id", "plan", "status", "expiresAt"} ==> r.value.1[k] == data[k]
    ensures r.Ok? ==> Get(r.value.1, "plan") == Crud.Normalised(Get(data, "plan"))
    ensures r.Ok? ==> Get(r.value.1, "status") == Crud.Normalised(Get(data, "status"))
    ensures r.Ok? ==> (Get(r.value.1, "expiresAt") ==
      if Truthy(Get(data, "expiresAt")) then Some(JConv(ToDate, data["expiresAt"])) else Get(data, "expiresAt"))
  {
    var (id, rest) := Crud.SplitId(data);
    match Crud.UpperMember(rest, "plan")
    case Threw => Threw
    case Ok(d) =>
      match Crud.UpperMember(d, "status")
      case Threw => Threw
      case Ok(d) =>
        Ok((id, if Truthy(Get(d, "expiresAt")) then d["expiresAt" := JConv(ToDate, d["expiresAt"])] else d))
  }

  /** The handler's own steps: take `id` out, then normalise three members in place. */
  method PrepareUpdate(data: Body) returns (r: Fallible<(Option<Json>, Body)>)
    ensures r == UpdateData(data)
  {
    var id := Get(data, "id");
    var updateData := data - {"id"};
    if Truthy(Get(updateData, "plan")) {
      if !updateData["plan"].JStr? {
        return Threw;
      }
      updateData := updateData["plan" := JStr(Text.Upper(updateData["plan"].s))];
    }
    if Truthy(Get(updateData, "status")) {
      if !updateData["status"].JStr? {
        return Threw;
      }
      updateData := updateData["status" := JStr(Text.Upper(updateData["status"].s))];
    }
    if Truthy(Get(updateData, "expiresAt")) {
      updateData := updateData["expiresAt" := JConv(ToDate, updateData["expiresAt"])];
    }
    r := Ok((id, updateData));
  }

  /** An update that sets plan, status and expiry stores them exactly as a create would. */
  lemma UpdateNormalisesLikeCreate(data: Body)
    requires Get(data, "plan").Some? && data["plan"].JStr? && data["plan"].s != []
    requires Get(data, "status").Some? && data["status"].JStr? && data["status"].s != []
    requires Truthy(Get(data, "expiresAt"))
    ensures UpdateData(data).Ok? && CreateData(data).Ok?
    ensures forall k :: k in {"plan", "status", "expiresAt"} ==> Get(UpdateData(data).value.1, k) == Get(CreateData(data).value, k)
  {
  }

  function PutHandler(db: Db, jwt: Auth.Jwt, cookies: Cookies, body: Fallible<Body>): (o: Outcome)
    ensures Crud.GuardedBy(o, Gate.Check(cookies, Gate.AdminCookie, jwt))
    ensures Gate.Check(cookies, Gate.AdminCookie, jwt).Admitted? ==>
      if body.Ok? && UpdateData(body.value).Ok? then
        var (id, d) := UpdateData(body.value).value;
        o == Crud.Written(db, Update(Members, id, d), 200)
      else o == Respond(InternalError)
  {
    match Gate.Check(cookies, Gate.AdminCookie, jwt)
    case Refused(r) => Respond(r)
    case Admitted(_) =>
      match body
      case Threw => Respond(InternalError)
      case Ok(data) =>
        match UpdateData(data)
        case Threw => Respond(InternalError)
        case Ok((id, d)) => Crud.Written(db, Update(Members, id, d), 200)
  }

  function DeleteHandler(db: Db, jwt: Auth.Jwt, cookies: Cookies, body: Fallible<Body>): (o: Outcome)
    ensures Crud.GuardedBy(o, Gate.Check(cookies, Gate.AdminCookie, jwt))
    ensures Gate.Check(cookies, Gate.AdminCookie, jwt).Admitted? ==> o == Crud.Deleted(db, Members, body)
  {
    match Gate.Check(cookies, Gate.AdminCookie, jwt)
    case Refused(r) => Respond(r)
    case Admitted(_) => Crud.Deleted(db, Members, body)
  }
}
