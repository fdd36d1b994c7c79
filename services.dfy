/** The service controller (controllers/serviceControllers.js): repair jobs with a model,
    an optional `ServiceType`, a service date and an optional link to a user. */
module Services {
  import opened Values
  import opened Search
  import opened Paging

  datatype Service = Service(
    id: int,
    model: Value,
    imei: Value,
    serviceType: Value,
    serviceCost: Value,
    serviceCharge: Value,
    completed: Value,
    date: Option<string>,
    warranty: Value,
    userId: Option<int>)

  /** Whether the handler parses the date: on create when it is truthy, on update when it
      is neither `undefined` nor `null` (so an empty string is parsed there). */
  predicate DateSent(body: Body, onUpdate: bool) {
    if onUpdate then Given(Field(body, "m04_date")) else Truthy(Field(body, "m04_date"))
  }

  /** The checks of createService and updateService, in order, each failing with 422: the
      model is present, the service type is absent or one of `ServiceType`, a sent date is a
      valid date, a user id that is neither `undefined` nor `null` is a number. Yields the
      date as an ISO string and the user id, `None` when not sent. */
  function CheckService(env: Env, body: Body, onUpdate: bool): (r: Result<(Option<string>, Option<int>)>)
    ensures r.Success? <==>
      && Truthy(Field(body, "m04_model"))
      && (!Truthy(Field(body, "m04_service_type")) || IsOneOf(env.enums.serviceType, Field(body, "m04_service_type")))
      && (DateSent(body, onUpdate) ==> env.parse.isoDate(Field(body, "m04_date")).Some?)
      && (Given(Field(body, "m04_m01_user_id")) ==> env.parse.parseInt(Field(body, "m04_m01_user_id")).Some?)
    ensures r.Success? ==>
      && (r.value.0.Some? <==> DateSent(body, onUpdate))
      && (r.value.0.Some? ==> r.value.0 == env.parse.isoDate(Field(body, "m04_date")))
      && (r.value.1.Some? <==> Given(Field(body, "m04_m01_user_id")))
      && (r.value.1.Some? ==> r.value.1 == env.parse.parseInt(Field(body, "m04_m01_user_id")))
    ensures r.Failure? ==> r.status == UNPROCESSABLE
    ensures !Truthy(Field(body, "m04_model")) ==> r == Failure(UNPROCESSABLE, "m04_model")
    ensures Truthy(Field(body, "m04_model"))
      && Truthy(Field(body, "m04_service_type")) && !IsOneOf(env.enums.serviceType, Field(body, "m04_service_type"))
      ==> r == Failure(UNPROCESSABLE, "m04_service_type")
    ensures Truthy(Field(body, "m04_model"))
      && (!Truthy(Field(body, "m04_service_type")) || IsOneOf(env.enums.serviceType, Field(body, "m04_service_type")))
      && DateSent(body, onUpdate) && env.parse.isoDate(Field(body, "m04_date")).None?
      ==> r == Failure(UNPROCESSABLE, "m04_date")
    ensures Truthy(Field(body, "m04_model"))
      && (!Truthy(Field(body, "m04_service_type")) || IsOneOf(env.enums.serviceType, Field(body, "m04_service_type")))
      && (DateSent(body, onUpdate) ==> env.parse.isoDate(Field(body, "m04_date")).Some?)
      && Given(Field(body, "m04_m01_user_id")) && env.parse.parseInt(Field(body, "m04_m01_user_id")).None?
      ==> r == Failure(UNPROCESSABLE, "m04_m01_user_id")
  {
    var serviceType := Field(body, "m04_service_type");
    var date := Field(body, "m04_date");
    var user := Field(body, "m04_m01_user_id");
    if !Truthy(Field(body, "m04_model")) then Failure(UNPROCESSABLE, "m04_model")
    else if Truthy(serviceType) && !IsOneOf(env.enums.serviceType, serviceType)
    then Failure(UNPROCESSABLE, "m04_service_type")
    else if DateSent(body, onUpdate) && env.parse.isoDate(date).None? then Failure(UNPROCESSABLE, "m04_date")
    else if Given(user) && env.parse.parseInt(user).None? then Failure(UNPROCESSABLE, "m04_m01_user_id")
    else Success((if DateSent(body, onUpdate) then env.parse.isoDate(date) else None,
                  if Given(user) then env.parse.parseInt(user) else None))
  }

  /** An empty date string is ignored on create but parsed, and refused, on update. */
  lemma EmptyDateRefusedOnlyOnUpdate(env: Env, body: Body)
    requires Truthy(Field(body, "m04_model")) && !Truthy(Field(body, "m04_service_type"))
    requires !Given(Field(body, "m04_m01_user_id"))
    requires Field(body, "m04_date") == Str("") && env.parse.isoDate(Str("")).None?
    ensures CheckService(env, body, false) == Success((None, None))
    ensures CheckService(env, body, true) == Failure(UNPROCESSABLE, "m04_date")
  {
  }

  /** The optional text columns of a service, by their request field names; cost and
      charge are among them, stored as sent with no numeric check. */
  const OptionalTextFields: set<string> :=
    {"m04_imei", "m04_service_type", "m04_service_cost", "m04_service_charge", "m04_warrenty"}

  /** The stored value of the optional text column that request field `f` fills. */
  function Column(s: Service, f: string): Value {
    if f == "m04_imei" then s.imei
    else if f == "m04_service_type" then s.serviceType
    else if f == "m04_service_cost" then s.serviceCost
    else if f == "m04_service_charge" then s.serviceCharge
    else if f == "m04_warrenty" then s.warranty
    else Undefined
  }

  /** The record createService writes: optional text fields `null` when falsy, `completed`
      false unless truthy, the checked date and user id. */
  function NewService(id: int, body: Body, checked: (Option<string>, Option<int>)): (s: Service)
    ensures s.id == id && s.model == Field(body, "m04_model")
    ensures s.date == checked.0 && s.userId == checked.1
    ensures Truthy(Field(body, "m04_completed")) ==> s.completed == Field(body, "m04_completed")
    ensures !Truthy(Field(body, "m04_completed")) ==> s.completed == Bool(false)
    ensures forall f :: f in OptionalTextFields && !Truthy(Field(body, f)) ==> Column(s, f) == Null
    ensures forall f :: f in OptionalTextFields && Truthy(Field(body, f)) ==> Column(s, f) == Field(body, f)
  {
    Service(id, Field(body, "m04_model"), OrNull(Field(body, "m04_imei")),
            OrNull(Field(body, "m04_service_type")), OrNull(Field(body, "m04_service_cost")),
            OrNull(Field(body, "m04_service_charge")), Or(Field(body, "m04_completed"), Bool(false)),
            checked.0, OrNull(Field(body, "m04_warrenty")), checked.1)
  }

  /** The fields updateService writes; `None` marks a field dropped as `undefined`. */
  datatype ServicePatch = ServicePatch(
    model: Value,
    imei: Option<Value>,
    serviceType: Option<Value>,
    serviceCost: Option<Value>,
    serviceCharge: Option<Value>,
    completed: Option<Value>,
    date: Option<string>,
    warranty: Option<Value>,
    userId: Option<int>)

  /** The written value of the optional text column that request field `f` fills, `None`
      when dropped. */
  function PatchColumn(p: ServicePatch, f: string): Option<Value> {
    if f == "m04_imei" then p.imei
    else if f == "m04_service_type" then p.serviceType
    else if f == "m04_service_cost" then p.serviceCost
    else if f == "m04_service_charge" then p.serviceCharge
    else if f == "m04_warrenty" then p.warranty
    else None
  }

  /** Every optional field goes through `v || undefined`: only truthy values are written. */
  function ServicePatchOf(body: Body, checked: (Option<string>, Option<int>)): (p: ServicePatch)
    ensures p.model == Field(body, "m04_model") && p.date == checked.0 && p.userId == checked.1
    ensures forall f :: f in OptionalTextFields ==> (PatchColumn(p, f).Some? <==> Truthy(Field(body, f)))
    ensures forall f :: f in OptionalTextFields && PatchColumn(p, f).Some? ==> PatchColumn(p, f).value == Field(body, f)
    ensures p.completed.Some? <==> Truthy(Field(body, "m04_completed"))
    ensures p.completed.Some? ==> p.completed.value == Field(body, "m04_completed")
  {
    ServicePatch(Field(body, "m04_model"), IfTruthy(Field(body, "m04_imei")),
                 IfTruthy(Field(body, "m04_service_type")), IfTruthy(Field(body, "m04_service_cost")),
                 IfTruthy(Field(body, "m04_service_charge")), IfTruthy(Field(body, "m04_completed")),
                 checked.0, IfTruthy(Field(body, "m04_warrenty")), checked.1)
  }

  /** The update write: supplied fields replace the stored ones, dropped fields keep theirs,
      and the id never changes. */
  function Patched(s: Service, p: ServicePatch): (r: Service)
    ensures r.id == s.id && r.model == p.model
    ensures p.imei.None? ==> r.imei == s.imei
    ensures p.serviceType.None? ==> r.serviceType == s.serviceType
    ensures p.serviceCost.None? ==> r.serviceCost == s.serviceCost
    ensures p.serviceCharge.None? ==> r.serviceCharge == s.serviceCharge
    ensures p.completed.None? ==> r.completed == s.completed
    ensures p.date.None? ==> r.date == s.date
    ensures p.warranty.None? ==> r.warranty == s.warranty
    ensures p.userId.None? ==> r.userId == s.userId
    ensures p.imei.Some? ==> r.imei == p.imei.value
    ensures p.serviceType.Some? ==> r.serviceType == p.serviceType.value
    ensures p.serviceCost.Some? ==> r.serviceCost == p.serviceCost.value
    ensures p.serviceCharge.Some? ==> r.serviceCharge == p.serviceCharge.value
    ensures p.completed.Some? ==> r.completed == p.completed.value
    ensures p.date.Some? ==> r.date == p.date
    ensures p.warranty.Some? ==> r.warranty == p.warranty.value
    ensures p.userId.Some? ==> r.userId == p.userId
  {
    s.(model := p.model, imei := p.imei.GetOr(s.imei), serviceType := p.serviceType.GetOr(s.serviceType),
       serviceCost := p.serviceCost.GetOr(s.serviceCost), serviceCharge := p.serviceCharge.GetOr(s.serviceCharge),
       completed := p.completed.GetOr(s.completed), date := if p.date.Some? then p.date else s.date,
       warranty := p.warranty.GetOr(s.warranty), userId := if p.userId.Some? then p.userId else s.userId)
  }

  /** Once a service is completed no update makes it not completed again, and once it is
      linked to a user or given a date no update removes them: a falsy `completed` is dropped
      from the write, and a `null` user id or date is never parsed into one. */
  lemma CompletedAndUserNeverCleared(s: Service, body: Body, checked: (Option<string>, Option<int>))
    ensures Truthy(s.completed) ==> Truthy(Patched(s, ServicePatchOf(body, checked)).completed)
    ensures s.userId.Some? ==> Patched(s, ServicePatchOf(body, checked)).userId.Some?
    ensures s.date.Some? ==> Patched(s, ServicePatchOf(body, checked)).date.Some?
  {
  }

  /** getAllServices' filter: model, IMEI, service type, cost, charge or warranty contains
      the term. */
  predicate ServiceMatches(term: string, s: Service)
    ensures term == "" ==> ServiceMatches(term, s)
    ensures term != "" && s.model == Null && s.imei == Null && s.serviceType == Null
      && s.serviceCost == Null && s.serviceCharge == Null && s.warranty == Null
      ==> !ServiceMatches(term, s)
  {
    || term == ""
    || FieldContains(s.model, term)
    || FieldContains(s.imei, term)
    || FieldContains(s.serviceType, term)
    || FieldContains(s.serviceCost, term)
    || FieldContains(s.serviceCharge, term)
    || FieldContains(s.warranty, term)
  }

  class ServiceTable {
    var rows: map<int, Service>
    var nextId: int

    ghost predicate Valid()
      reads this
    {
      && nextId >= 1
      && (forall k :: k in rows ==> 1 <= k < nextId && rows[k].id == k)
    }

    constructor ()
      ensures Valid() && rows == map[]
    {
      rows := map[];
      nextId := 1;
    }

    /** createService: the checks (422), then the record is written and 201 sent. */
    method Create(env: Env, body: Body) returns (reply: Reply<Service>)
      requires Valid()
      modifies this
      ensures Valid()
      ensures var check := CheckService(env, body, false);
        reply == if check.Failure? then Refusal(check)
                 else Ok(CREATED, Some(NewService(old(nextId), body, check.value)))
      ensures reply.Ok? ==>
        && old(nextId) !in old(rows)
        && rows == old(rows)[old(nextId) := reply.data.value]
        && nextId == old(nextId) + 1
      ensures reply.Err? ==> rows == old(rows) && nextId == old(nextId)
    {
      var check := CheckService(env, body, false);
      if check.Failure? {
        return Refusal(check);
      }
      var created := NewService(nextId, body, check.value);
      rows := rows[nextId := created];
      nextId := nextId + 1;
      reply := Ok(CREATED, Some(created));
    }

    /** getAllServices: paginated, filtered by `ServiceMatches`. */
    method List(env: Env, q: Query) returns (reply: Reply<Listing<Service>>, ghost ids: seq<int>)
      requires Valid() && LimitUsable(env, q)
      ensures var page := PageNumber(env, q);
        var limit := LimitNumber(env, q).value;
        var term := SearchTerm(q);
        if page.None? || page.value < 1 then reply == Err(SERVER_ERROR, "page")
        else
          && Enumerates(ids, rows, s => ServiceMatches(term, s))
          && reply == Ok(OK, Some(Listing(Window(RowsOf(rows, ids), Skip(page.value, limit), limit),
                                          |ids|, page.value, limit, TotalPages(|ids|, limit))))
    {
      var term := SearchTerm(q);
      reply, ids := ListPage(env, q, rows, nextId, s => ServiceMatches(term, s));
    }

    /** getSingleService: a non-numeric id is 400, an unknown one 404. */
    method Get(env: Env, idParam: string) returns (reply: Reply<Service>)
      requires Valid()
      ensures var id := ParseId(env, idParam);
        reply == if id.None? then Err(BAD_REQUEST, "m04_id")
                 else if id.value !in rows then Err(NOT_FOUND, "m04_id")
                 else Ok(OK, Some(rows[id.value]))
    {
      var id := ParseId(env, idParam);
      if id.None? {
        return Err(BAD_REQUEST, "m04_id");
      }
      if id.value !in rows {
        return Err(NOT_FOUND, "m04_id");
      }
      reply := Ok(OK, Some(rows[id.value]));
    }

    /** updateService: 400, 404, the checks (422), then only the truthy optional fields, the
        date when sent and the user id when sent are written. */
    method Update(env: Env, idParam: string, body: Body) returns (reply: Reply<Service>)
      requires Valid()
      modifies this
      ensures Valid()
      ensures var id := ParseId(env, idParam); var check := CheckService(env, body, true);
        reply == if id.None? then Err(BAD_REQUEST, "m04_id")
                 else if id.value !in old(rows) then Err(NOT_FOUND, "m04_id")
                 else if check.Failure? then Refusal(check)
                 else Ok(OK, Some(Patched(old(rows)[id.value], ServicePatchOf(body, check.value))))
      ensures reply.Ok? ==> rows == old(rows)[reply.data.value.id := reply.data.value]
      ensures reply.Err? ==> rows == old(rows)
      ensures nextId == old(nextId)
    {
      var id := ParseId(env, idParam);
      if id.None? {
        return Err(BAD_REQUEST, "m04_id");
      }
      if id.value !in rows {
        return Err(NOT_FOUND, "m04_id");
      }
      var check := CheckService(env, body, true);
      if check.Failure? {
        return Refusal(check);
      }
      var updated := Patched(rows[id.value], ServicePatchOf(body, check.value));
      assert updated.id == rows[id.value].id == id.value;
      rows := rows[id.value := updated];
      reply := Ok(OK, Some(updated));
    }

    /** deleteService: 400 for a non-numeric id, 404 if missing, else removed with 204. */
    method Delete(env: Env, idParam: string) returns (reply: Reply<Service>)
      requires Valid()
      modifies this
      ensures Valid()
      ensures var id := ParseId(env, idParam);
        reply == if id.None? then Err(BAD_REQUEST, "m04_id")
                 else if id.value !in old(rows) then Err(NOT_FOUND, "m04_id")
                 else Ok(NO_CONTENT, None)
      ensures reply.Ok? ==> rows == old(rows) - {ParseId(env, idParam).value}
      ensures reply.Err? ==> rows == old(rows)
      ensures nextId == old(nextId)
    {
      var id := ParseId(env, idParam);
      if id.None? {
        return Err(BAD_REQUEST, "m04_id");
      }
      if id.value !in rows {
        return Err(NOT_FOUND, "m04_id");
      }
      rows := rows - {id.value};
      reply := Ok(NO_CONTENT, None);
    }
  }
}
