/**
 * The service-request and appointment lifecycle of `/api/appointments`:
 * a client contacts a worker (a service request) or books an appointment
 * directly, the worker accepts a request (which creates an appointment in
 * a transaction) or sets its status, and either party of an appointment
 * moves its status while its worker sets its price. The list endpoints are
 * WHERE + ORDER BY queries over the same tables.
 *
 * Every handler is a method on the store `Db`; its contract gives the
 * answer and the whole new content of the tables it may write, for every
 * branch of the handler, including the error answers that write nothing.
 */
module AppointmentRoutes {
  import opened Common
  import opened Schema
  import opened Query

  /** `scheduled_time` of an appointment created from a request without a preferred time ('10:00:00'). */
  const DefaultAcceptTime: int := 10 * 3600

  /** `description` of an appointment created from a request without one. */
  const AcceptedDescription: string := "Servicio aceptado desde solicitud"

  /** The body of `POST /contact`; `None` is a field that was not sent or was null. */
  datatype ContactBody = ContactBody(
    workerId: Option<int>,
    serviceType: Option<string>,
    urgency: Option<string>,
    description: Option<string>,
    budgetEstimate: Option<int>,
    preferredDate: Option<int>,
    preferredTime: Option<int>,
    contactMethod: Option<string>)

  /** The body of `POST /`. */
  datatype BookingBody = BookingBody(
    workerId: Option<int>,
    serviceType: Option<string>,
    description: Option<string>,
    scheduledDate: Option<int>,
    scheduledTime: Option<int>,
    address: Option<string>,
    contactPhone: Option<string>,
    specialInstructions: Option<string>)

  /** Which write of the accept transaction the database refuses, if any. */
  datatype WriteFault = NoFault | UpdateFails | InsertFails

  // ---------------------------------------------------------------- rows written

  /** The row `POST /contact` inserts, under the id the table assigns it. */
  function ContactRequest(caller: Caller, body: ContactBody, id: int, now: int): (r: ServiceRequest)
    requires body.workerId.Some? && body.serviceType.Some?
    ensures r.id == id && r.createdAt == now && r.status == RequestStatus.Pending
    ensures r.clientId == caller.id && r.workerId == body.workerId.value && r.serviceType == body.serviceType.value
    ensures Present(body.urgency) ==> r.urgency == body.urgency.value
    ensures !Present(body.urgency) ==> r.urgency == "medium"
    ensures Present(body.contactMethod) ==> r.contactMethod == body.contactMethod.value
    ensures !Present(body.contactMethod) ==> r.contactMethod == "both"
    ensures r.description.Some? <==> Present(body.description)
    ensures r.description.Some? ==> r.description == body.description
    ensures r.budgetEstimate.Some? <==> NonZero(body.budgetEstimate)
    ensures r.budgetEstimate.Some? ==> r.budgetEstimate == body.budgetEstimate
    ensures r.preferredDate == body.preferredDate && r.preferredTime == body.preferredTime
    ensures r.clientPhone.Some? <==> Present(caller.phone)
    ensures r.clientPhone.Some? ==> r.clientPhone == caller.phone
  {
    ServiceRequest(
      id := id,
      clientId := caller.id,
      workerId := body.workerId.value,
      serviceType := body.serviceType.value,
      urgency := TextOr(body.urgency, "medium"),
      description := TextOrNull(body.description),
      budgetEstimate := NumberOrNull(body.budgetEstimate),
      preferredDate := body.preferredDate,
      preferredTime := body.preferredTime,
      contactMethod := TextOr(body.contactMethod, "both"),
      clientPhone := TextOrNull(caller.phone),
      status := RequestStatus.Pending,
      createdAt := now)
  }

  /** The row `POST /` inserts: no price yet, status from the column default. */
  function BookedAppointment(caller: Caller, body: BookingBody, id: int, now: int): (r: Appointment)
    requires body.workerId.Some? && body.serviceType.Some? && body.scheduledDate.Some? && body.scheduledTime.Some?
    ensures r.id == id && r.createdAt == now
    ensures r.status == AppointmentStatus.Pending && r.totalCost.None?
    ensures r.clientId == caller.id && r.workerId == body.workerId.value && r.serviceType == body.serviceType.value
    ensures r.scheduledDate == body.scheduledDate.value && r.scheduledTime == body.scheduledTime.value
    ensures r.description.Some? <==> Present(body.description)
    ensures r.address.Some? <==> Present(body.address)
    ensures r.contactPhone.Some? <==> Present(body.contactPhone)
    ensures r.specialInstructions.Some? <==> Present(body.specialInstructions)
    ensures r.description.Some? ==> r.description == body.description
    ensures r.address.Some? ==> r.address == body.address
    ensures r.contactPhone.Some? ==> r.contactPhone == body.contactPhone
    ensures r.specialInstructions.Some? ==> r.specialInstructions == body.specialInstructions
  {
    Appointment(
      id := id,
      clientId := caller.id,
      workerId := body.workerId.value,
      serviceType := body.serviceType.value,
      description := TextOrNull(body.description),
      scheduledDate := body.scheduledDate.value,
      scheduledTime := body.scheduledTime.value,
      status := AppointmentStatus.Pending,
      totalCost := None,
      address := TextOrNull(body.address),
      contactPhone := TextOrNull(body.contactPhone),
      specialInstructions := TextOrNull(body.specialInstructions),
      createdAt := now)
  }

  /** The appointment the accept transaction creates from a request and the agreed budget. */
  function AppointmentFrom(req: ServiceRequest, budget: Option<int>, id: int, today: int, now: int): (r: Appointment)
    ensures r.id == id && r.createdAt == now
    ensures r.clientId == req.clientId && r.workerId == req.workerId && r.serviceType == req.serviceType
    ensures r.status == AppointmentStatus.Pending && r.totalCost == budget
    ensures Present(req.description) ==> r.description == req.description
    ensures !Present(req.description) ==> r.description == Some(AcceptedDescription)
    ensures r.scheduledDate == (if req.preferredDate.Some? then req.preferredDate.value else today)
    ensures r.scheduledTime == (if req.preferredTime.Some? then req.preferredTime.value else DefaultAcceptTime)
    ensures r.address.None? && r.contactPhone.None? && r.specialInstructions.None?
  {
    Appointment(
      id := id,
      clientId := req.clientId,
      workerId := req.workerId,
      serviceType := req.serviceType,
      description := Some(TextOr(req.description, AcceptedDescription)),
      scheduledDate := if req.preferredDate.Some? then req.preferredDate.value else today,
      scheduledTime := if req.preferredTime.Some? then req.preferredTime.value else DefaultAcceptTime,
      status := AppointmentStatus.Pending,
      totalCost := budget,
      address := None,
      contactPhone := None,
      specialInstructions := None,
      createdAt := now)
  }

  // ---------------------------------------------------------------- ownership guards

  /*
   * On a valid store the row with id k sits at position k - 1, so "the row
   * with this id" is `t[id - 1]` whenever 1 <= id <= |t|.
   */

  /** `SELECT * FROM appointments WHERE id = ? AND (client_id = ? OR worker_id = ?)` finds the row. */
  predicate PartyTo(t: seq<Appointment>, id: int, me: int)
  {
    1 <= id <= |t| && (t[id - 1].clientId == me || t[id - 1].workerId == me)
  }

  /**
   * `SELECT * FROM appointments WHERE id = ? AND worker_id = ?` finds the row.
   * It is stricter than `PartyTo`: whoever may price a row may also set its status.
   */
  predicate WorksOn(t: seq<Appointment>, id: int, me: int)
  {
    1 <= id <= |t| && t[id - 1].workerId == me
  }

  /** `SELECT * FROM service_requests WHERE id = ? AND worker_id = ?` finds the row. */
  predicate AssignedTo(rs: seq<ServiceRequest>, id: int, me: int)
  {
    1 <= id <= |rs| && rs[id - 1].workerId == me
  }

  // ---------------------------------------------------------------- handlers that create rows

  /** `POST /contact`. */
  method Contact(db: Db, caller: Caller, body: ContactBody, now: int) returns (out: Outcome<ServiceRequest>)
    requires db.Valid()
    modifies db`requests
    ensures db.Valid()
    ensures !NonZero(body.workerId) || !Present(body.serviceType) ==>
      out == BadRequest && db.requests == old(db.requests)
    ensures NonZero(body.workerId) && Present(body.serviceType) && !IsWorkerUser(db.users, body.workerId.value) ==>
      out == NotFound && db.requests == old(db.requests)
    ensures NonZero(body.workerId) && Present(body.serviceType) && IsWorkerUser(db.users, body.workerId.value) ==>
      && out == Ok(ContactRequest(caller, body, |old(db.requests)| + 1, now))
      && db.requests == old(db.requests) + [out.value]
  {
    if !NonZero(body.workerId) || !Present(body.serviceType) {
      return BadRequest;
    }
    if !IsWorkerUser(db.users, body.workerId.value) {
      return NotFound;
    }
    var row := ContactRequest(caller, body, |db.requests| + 1, now);
    db.requests := db.requests + [row];
    out := Ok(row);
  }

  /** `POST /`: a direct booking. */
  method Book(db: Db, caller: Caller, body: BookingBody, now: int) returns (out: Outcome<Appointment>)
    requires db.Valid()
    modifies db`appointments
    ensures db.Valid()
    ensures !NonZero(body.workerId) || !Present(body.serviceType) || body.scheduledDate.None? || body.scheduledTime.None? ==>
      out == BadRequest && db.appointments == old(db.appointments)
    ensures NonZero(body.workerId) && Present(body.serviceType) && body.scheduledDate.Some? && body.scheduledTime.Some? ==>
      if !IsWorkerUser(db.users, body.workerId.value) then
        out == NotFound && db.appointments == old(db.appointments)
      else
        && out == Ok(BookedAppointment(caller, body, |old(db.appointments)| + 1, now))
        && db.appointments == old(db.appointments) + [out.value]
        && (UserExists(db.users, caller.id) ==> out.value in MyAppointments(db.users, db.appointments, caller.id))
  {
    if !NonZero(body.workerId) || !Present(body.serviceType) || body.scheduledDate.None? || body.scheduledTime.None? {
      return BadRequest;
    }
    if !IsWorkerUser(db.users, body.workerId.value) {
      return NotFound;
    }
    var row := BookedAppointment(caller, body, |db.appointments| + 1, now);
    db.appointments := db.appointments + [row];
    out := Ok(row);
  }

  // ---------------------------------------------------------------- handlers that update rows

  /** `PUT /:id/status`: any listed status, by either party, with no transition rule. */
  method SetAppointmentStatus(db: Db, caller: Caller, id: int, status: Option<string>) returns (out: Outcome<AppointmentStatus>)
    requires db.Valid()
    modifies db`appointments
    ensures db.Valid()
    ensures (status.None? || status.value !in AppointmentStatusNames) ==>
      out == BadRequest && db.appointments == old(db.appointments)
    ensures status.Some? && status.value in AppointmentStatusNames && !PartyTo(old(db.appointments), id, caller.id) ==>
      out == NotFound && db.appointments == old(db.appointments)
    ensures status.Some? && status.value in AppointmentStatusNames && PartyTo(old(db.appointments), id, caller.id) ==>
      && out.Ok? && AppointmentStatusName(out.value) == status.value
      && db.appointments == old(db.appointments)[id - 1 := old(db.appointments)[id - 1].(status := out.value)]
  {
    var parsed := if status.Some? then ParseAppointmentStatus(status.value) else None;
    if parsed.None? {
      return BadRequest;
    }
    if !PartyTo(db.appointments, id, caller.id) {
      return NotFound;
    }
    db.appointments := db.appointments[id - 1 := db.appointments[id - 1].(status := parsed.value)];
    out := Ok(parsed.value);
  }

  /** `PUT /requests/:id/status`: any listed status, by the request's worker only. */
  method SetRequestStatus(db: Db, caller: Caller, id: int, status: Option<string>) returns (out: Outcome<RequestStatus>)
    requires db.Valid()
    modifies db`requests
    ensures db.Valid()
    ensures (status.None? || status.value !in RequestStatusNames) ==>
      out == BadRequest && db.requests == old(db.requests)
    ensures status.Some? && status.value in RequestStatusNames && !AssignedTo(old(db.requests), id, caller.id) ==>
      out == NotFound && db.requests == old(db.requests)
    ensures status.Some? && status.value in RequestStatusNames && AssignedTo(old(db.requests), id, caller.id) ==>
      && out.Ok? && RequestStatusName(out.value) == status.value
      && db.requests == old(db.requests)[id - 1 := old(db.requests)[id - 1].(status := out.value)]
  {
    var parsed := if status.Some? then ParseRequestStatus(status.value) else None;
    if parsed.None? {
      return BadRequest;
    }
    if !AssignedTo(db.requests, id, caller.id) {
      return NotFound;
    }
    db.requests := db.requests[id - 1 := db.requests[id - 1].(status := parsed.value)];
    out := Ok(parsed.value);
  }

  /**
   * `PUT /requests/:id/accept`. The guard only checks the worker, not the
   * request's status. The two writes run in a transaction: when either is
   * refused (`fault`, or an absent `budget_amount`, which the driver refuses
   * as an undefined bind parameter) both tables are left as they were.
   */
  method Accept(db: Db, caller: Caller, id: int, budget: Patch<Option<int>>, today: int, now: int, fault: WriteFault)
    returns (out: Outcome<Appointment>)
    requires db.Valid()
    modifies db`requests, db`appointments
    ensures db.Valid()
    ensures !AssignedTo(old(db.requests), id, caller.id) ==>
      out == NotFound && db.requests == old(db.requests) && db.appointments == old(db.appointments)
    ensures AssignedTo(old(db.requests), id, caller.id) && (budget.Keep? || fault != NoFault) ==>
      out == ServerError && db.requests == old(db.requests) && db.appointments == old(db.appointments)
    ensures AssignedTo(old(db.requests), id, caller.id) && budget.Set? && fault == NoFault ==>
      var req := old(db.requests)[id - 1];
      && db.requests == old(db.requests)[id - 1 := req.(status := Accepted, budgetEstimate := budget.value)]
      && out == Ok(AppointmentFrom(req, budget.value, |old(db.appointments)| + 1, today, now))
      && db.appointments == old(db.appointments) + [out.value]
  {
    if !AssignedTo(db.requests, id, caller.id) {
      return NotFound;
    }
    var req := db.requests[id - 1];
    var before := db.requests;
    // BEGIN; UPDATE service_requests SET status = 'accepted', budget_estimate = ?
    if fault == UpdateFails || budget.Keep? {
      return ServerError;
    }
    db.requests := db.requests[id - 1 := req.(status := Accepted, budgetEstimate := budget.value)];
    // INSERT INTO appointments ...
    if fault == InsertFails {
      db.requests := before;  // ROLLBACK
      return ServerError;
    }
    var appt := AppointmentFrom(req, budget.value, |db.appointments| + 1, today, now);
    db.appointments := db.appointments + [appt];
    out := Ok(appt);
  }

  /**
   * Nothing stops a second accept of an already accepted request: it
   * succeeds again and creates a second appointment for the same request.
   */
  method AcceptTwice(db: Db, caller: Caller, id: int, budget: Option<int>, today: int, now: int)
    returns (first: Outcome<Appointment>, second: Outcome<Appointment>)
    requires db.Valid() && AssignedTo(db.requests, id, caller.id)
    modifies db`requests, db`appointments
    ensures db.Valid()
    ensures first.Ok? && second.Ok? && first.value.id != second.value.id
    ensures db.appointments == old(db.appointments) + [first.value, second.value]
    ensures AssignedTo(db.requests, id, caller.id)
    ensures db.requests[id - 1].status == Accepted && db.requests[id - 1].budgetEstimate == budget
  {
    first := Accept(db, caller, id, Set(budget), today, now, NoFault);
    second := Accept(db, caller, id, Set(budget), today, now, NoFault);
  }

  /** `PUT /:id/price`: any amount, at any status, by the appointment's worker only. */
  method SetPrice(db: Db, caller: Caller, id: int, totalCost: Patch<Option<int>>) returns (out: Outcome<Option<int>>)
    requires db.Valid()
    modifies db`appointments
    ensures db.Valid()
    ensures !WorksOn(old(db.appointments), id, caller.id) ==>
      out == NotFound && db.appointments == old(db.appointments)
    ensures WorksOn(old(db.appointments), id, caller.id) && totalCost.Keep? ==>
      out == ServerError && db.appointments == old(db.appointments)
    ensures WorksOn(old(db.appointments), id, caller.id) && totalCost.Set? ==>
      && out == Ok(totalCost.value)
      && db.appointments == old(db.appointments)[id - 1 := old(db.appointments)[id - 1].(totalCost := totalCost.value)]
  {
    if !WorksOn(db.appointments, id, caller.id) {
      return NotFound;
    }
    if totalCost.Keep? {
      return ServerError;
    }
    db.appointments := db.appointments[id - 1 := db.appointments[id - 1].(totalCost := totalCost.value)];
    out := Ok(totalCost.value);
  }

  // ---------------------------------------------------------------- list queries

  /** ORDER BY scheduled_date DESC, scheduled_time DESC. */
  predicate LaterSlotFirst(a: Appointment, b: Appointment)
  {
    a.scheduledDate > b.scheduledDate || (a.scheduledDate == b.scheduledDate && a.scheduledTime >= b.scheduledTime)
  }

  /** ORDER BY created_at DESC. */
  predicate NewerFirst(a: ServiceRequest, b: ServiceRequest)
  {
    a.createdAt >= b.createdAt
  }

  lemma LaterSlotFirstOrders()
    ensures TotalPreorder(LaterSlotFirst)
  {
  }

  lemma NewerFirstOrders()
    ensures TotalPreorder(NewerFirst)
  {
  }

  /** WHERE client_id = me OR worker_id = me, joined to both users. */
  function InvolvingAppointment(users: seq<User>, me: int): Appointment -> bool
  {
    (a: Appointment) => (a.clientId == me || a.workerId == me) && UserExists(users, a.workerId) && UserExists(users, a.clientId)
  }

  /** WHERE worker_id = me, joined to both users. */
  function WorkingAppointment(users: seq<User>, me: int): Appointment -> bool
  {
    (a: Appointment) => a.workerId == me && UserExists(users, a.workerId) && UserExists(users, a.clientId)
  }

  function InvolvingRequest(users: seq<User>, me: int): ServiceRequest -> bool
  {
    (r: ServiceRequest) => (r.clientId == me || r.workerId == me) && UserExists(users, r.workerId) && UserExists(users, r.clientId)
  }

  function WorkingRequest(users: seq<User>, me: int): ServiceRequest -> bool
  {
    (r: ServiceRequest) => r.workerId == me && UserExists(users, r.workerId) && UserExists(users, r.clientId)
  }

  /** `GET /my-appointments`. */
  function MyAppointments(users: seq<User>, t: seq<Appointment>, me: int): (r: seq<Appointment>)
    ensures forall a :: a in r <==>
      a in t && (a.clientId == me || a.workerId == me) && UserExists(users, a.workerId) && UserExists(users, a.clientId)
    ensures multiset(r) == multiset(Filter(t, InvolvingAppointment(users, me)))
    ensures SortedBy(r, LaterSlotFirst)
  {
    var rows := Filter(t, InvolvingAppointment(users, me));
    LaterSlotFirstOrders();
    SortBySorted(rows, LaterSlotFirst);
    SortByMembers(rows, LaterSlotFirst);
    SortBy(rows, LaterSlotFirst)
  }

  /** `GET /worker-appointments`. */
  function WorkerAppointments(users: seq<User>, t: seq<Appointment>, me: int): (r: seq<Appointment>)
    ensures forall a :: a in r <==>
      a in t && a.workerId == me && UserExists(users, a.workerId) && UserExists(users, a.clientId)
    ensures multiset(r) == multiset(Filter(t, WorkingAppointment(users, me)))
    ensures SortedBy(r, LaterSlotFirst)
  {
    var rows := Filter(t, WorkingAppointment(users, me));
    LaterSlotFirstOrders();
    SortBySorted(rows, LaterSlotFirst);
    SortByMembers(rows, LaterSlotFirst);
    SortBy(rows, LaterSlotFirst)
  }

  /** `GET /my-requests`. */
  function MyRequests(users: seq<User>, rs: seq<ServiceRequest>, me: int): (r: seq<ServiceRequest>)
    ensures forall x :: x in r <==>
      x in rs && (x.clientId == me || x.workerId == me) && UserExists(users, x.workerId) && UserExists(users, x.clientId)
    ensures multiset(r) == multiset(Filter(rs, InvolvingRequest(users, me)))
    ensures SortedBy(r, NewerFirst)
  {
    var rows := Filter(rs, InvolvingRequest(users, me));
    NewerFirstOrders();
    SortBySorted(rows, NewerFirst);
    SortByMembers(rows, NewerFirst);
    SortBy(rows, NewerFirst)
  }

  /** The `phone` on the user row with this id, as the join on users reads it. */
  function PhoneOf(users: seq<User>, id: int): (r: Option<string>)
    ensures UniqueUserIds(users) ==> forall k :: 0 <= k < |users| && users[k].id == id ==> r == users[k].phone
    ensures !UserExists(users, id) ==> r.None?
  {
    match UserIndex(users, id)
    case Some(k) => users[k].phone
    case None => None
  }

  /**
   * A row of `SELECT sr.*, ..., uc.phone AS client_phone`: the driver builds
   * one object per row, so the joined column overwrites the stored
   * `client_phone` with the client's current phone.
   */
  function ListedForWorker(users: seq<User>, x: ServiceRequest): (r: ServiceRequest)
    ensures r.clientPhone == PhoneOf(users, x.clientId)
    ensures r.(clientPhone := x.clientPhone) == x
  {
    x.(clientPhone := PhoneOf(users, x.clientId))
  }

  function ListAllForWorker(users: seq<User>, rows: seq<ServiceRequest>): (r: seq<ServiceRequest>)
    ensures |r| == |rows|
    ensures forall i :: 0 <= i < |rows| ==> r[i] == ListedForWorker(users, rows[i])
  {
    seq(|rows|, i requires 0 <= i < |rows| => ListedForWorker(users, rows[i]))
  }

  /**
   * `GET /worker-requests`: the worker's joined requests, newest first, each
   * showing the client's current phone instead of the stored one.
   */
  function WorkerRequests(users: seq<User>, rs: seq<ServiceRequest>, me: int): (r: seq<ServiceRequest>)
    ensures forall x :: x in rs && x.workerId == me && UserExists(users, x.workerId) && UserExists(users, x.clientId) ==>
      ListedForWorker(users, x) in r
    ensures forall y :: y in r ==>
      exists x :: x in rs && WorkingRequest(users, me)(x) && y == ListedForWorker(users, x)
    ensures forall y :: y in r ==> y.workerId == me && y.clientPhone == PhoneOf(users, y.clientId)
    ensures multiset(r) == multiset(ListAllForWorker(users, Filter(rs, WorkingRequest(users, me))))
    ensures SortedBy(r, NewerFirst)
  {
    var rows := Filter(rs, WorkingRequest(users, me));
    var listed := ListAllForWorker(users, rows);
    forall x | x in rs && WorkingRequest(users, me)(x)
      ensures ListedForWorker(users, x) in listed
    {
      var i :| 0 <= i < |rows| && rows[i] == x;
      assert listed[i] == ListedForWorker(users, x);
    }
    forall y | y in listed
      ensures exists x :: x in rs && WorkingRequest(users, me)(x) && y == ListedForWorker(users, x)
    {
      var i :| 0 <= i < |listed| && listed[i] == y;
      assert rows[i] in rows;
    }
    NewerFirstOrders();
    SortBySorted(listed, NewerFirst);
    SortByMembers(listed, NewerFirst);
    SortBy(listed, NewerFirst)
  }

  /**
   * The worker's own listing is the part of the shared listing where the
   * worker is the assigned worker: a client-side view never leaks into it.
   */
  lemma WorkerAppointmentsWithinMine(users: seq<User>, t: seq<Appointment>, me: int)
    ensures forall a :: a in WorkerAppointments(users, t, me) <==> a in MyAppointments(users, t, me) && a.workerId == me
  {
  }

  /**
   * What accept creates shows up in the worker's listing and in the client's,
   * carrying the agreed budget, as soon as both users exist.
   */
  lemma AcceptedIsListed(users: seq<User>, t: seq<Appointment>, req: ServiceRequest, budget: Option<int>, today: int, now: int)
    requires UserExists(users, req.clientId) && UserExists(users, req.workerId)
    ensures var a := AppointmentFrom(req, budget, |t| + 1, today, now);
      && a in WorkerAppointments(users, t + [a], req.workerId)
      && a in MyAppointments(users, t + [a], req.clientId)
      && a.totalCost == budget
  {
  }

  /** A contact request is listed for both of its parties once it is stored. */
  lemma ContactIsListed(users: seq<User>, rs: seq<ServiceRequest>, caller: Caller, body: ContactBody, now: int)
    requires body.workerId.Some? && body.serviceType.Some?
    requires UserExists(users, caller.id) && UserExists(users, body.workerId.value)
    ensures var x := ContactRequest(caller, body, |rs| + 1, now);
      && x in MyRequests(users, rs + [x], caller.id)
      && ListedForWorker(users, x) in WorkerRequests(users, rs + [x], body.workerId.value)
      && ListedForWorker(users, x).clientPhone == PhoneOf(users, caller.id)
  {
  }
}
