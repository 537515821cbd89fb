/**
 * The relational store both route modules read and write: the enumerations
 * stored in its columns, one row type per table, and the `Db` class whose
 * fields are the tables.
 *
 * `service_requests` and `appointments` are sequences in insertion order
 * whose k-th row has id k + 1. This is a simplification: AUTO_INCREMENT
 * skips the ids of rolled-back inserts, and deleting an account cascades to
 * that user's rows, so real ids can have gaps. `users` is a sequence with unique ids, `workers` is
 * keyed by `user_id`, and `worker_availability` is a sequence of rows keyed
 * by the pair (worker_id, day_of_week).
 */
module Schema {
  import opened Common
  import Week

  datatype Role = Client | Worker | Admin

  /** The tri-state `workers.availability`. */
  datatype Availability = Available | Busy | Offline

  datatype AppointmentStatus = Pending | Confirmed | InProgress | Completed | Cancelled

  datatype RequestStatus = Pending | Accepted | Rejected | Completed

  /** The authenticated caller, as the token middleware hands it to a handler. */
  datatype Caller = Caller(id: int, role: Option<Role>, phone: Option<string>)

  // ---------------------------------------------------------------- enumerations

  const AppointmentStatusNames: seq<string> :=
    ["pending", "confirmed", "in_progress", "completed", "cancelled"]

  const RequestStatusNames: seq<string> :=
    ["pending", "accepted", "rejected", "completed"]

  const AvailabilityNames: seq<string> := ["available", "busy", "offline"]

  function AppointmentStatusName(s: AppointmentStatus): string
  {
    match s
    case Pending => "pending"
    case Confirmed => "confirmed"
    case InProgress => "in_progress"
    case Completed => "completed"
    case Cancelled => "cancelled"
  }

  /** The flat allow-list of `PUT /:id/status`. */
  function ParseAppointmentStatus(s: string): (r: Option<AppointmentStatus>)
    ensures r.Some? <==> s in AppointmentStatusNames
    ensures r.Some? ==> AppointmentStatusName(r.value) == s
  {
    if s == "pending" then Some(AppointmentStatus.Pending)
    else if s == "confirmed" then Some(Confirmed)
    else if s == "in_progress" then Some(InProgress)
    else if s == "completed" then Some(AppointmentStatus.Completed)
    else if s == "cancelled" then Some(Cancelled)
    else None
  }

  lemma AppointmentStatusRoundTrip(s: AppointmentStatus)
    ensures ParseAppointmentStatus(AppointmentStatusName(s)) == Some(s)
  {
  }

  function RequestStatusName(s: RequestStatus): string
  {
    match s
    case Pending => "pending"
    case Accepted => "accepted"
    case Rejected => "rejected"
    case Completed => "completed"
  }

  /** The flat allow-list of `PUT /requests/:id/status`. */
  function ParseRequestStatus(s: string): (r: Option<RequestStatus>)
    ensures r.Some? <==> s in RequestStatusNames
    ensures r.Some? ==> RequestStatusName(r.value) == s
  {
    if s == "pending" then Some(RequestStatus.Pending)
    else if s == "accepted" then Some(Accepted)
    else if s == "rejected" then Some(Rejected)
    else if s == "completed" then Some(RequestStatus.Completed)
    else None
  }

  lemma RequestStatusRoundTrip(s: RequestStatus)
    ensures ParseRequestStatus(RequestStatusName(s)) == Some(s)
  {
  }

  function AvailabilityName(a: Availability): string
  {
    match a
    case Available => "available"
    case Busy => "busy"
    case Offline => "offline"
  }

  /** The allow-list of `PUT /workers/availability`. */
  function ParseAvailability(s: string): (r: Option<Availability>)
    ensures r.Some? <==> s in AvailabilityNames
    ensures r.Some? ==> AvailabilityName(r.value) == s
  {
    if s == "available" then Some(Available)
    else if s == "busy" then Some(Busy)
    else if s == "offline" then Some(Offline)
    else None
  }

  lemma AvailabilityRoundTrip(a: Availability)
    ensures ParseAvailability(AvailabilityName(a)) == Some(a)
  {
  }

  /** The allow-list of `PUT /update-role`: a user may choose client or worker, never admin. */
  function ParseChosenRole(s: string): (r: Option<Role>)
    ensures r.Some? <==> s == "client" || s == "worker"
    ensures s == "client" ==> r == Some(Client)
    ensures s == "worker" ==> r == Some(Worker)
    ensures r != Some(Admin)
  {
    if s == "client" then Some(Client)
    else if s == "worker" then Some(Worker)
    else None
  }

  // ---------------------------------------------------------------- rows

  /** `users` (only the columns the core reads or writes). */
  datatype User = User(
    id: int,
    name: string,
    role: Option<Role>,
    phone: Option<string>,
    avatarUrl: Option<string>)

  /** `workers`, the 1:1 profile of a user with role worker; ratings are hundredths. */
  datatype WorkerProfile = WorkerProfile(
    profession: Option<string>,
    description: Option<string>,
    availability: Availability,
    rating: Option<int>,
    immediateService: Option<bool>,
    coverageRadius: Option<int>)

  /** `service_requests`; money in cents, dates as day numbers, times as seconds of the day. */
  datatype ServiceRequest = ServiceRequest(
    id: int,
    clientId: int,
    workerId: int,
    serviceType: string,
    urgency: string,
    description: Option<string>,
    budgetEstimate: Option<int>,
    preferredDate: Option<int>,
    preferredTime: Option<int>,
    contactMethod: string,
    clientPhone: Option<string>,
    status: RequestStatus,
    createdAt: int)

  /** `appointments`. */
  datatype Appointment = Appointment(
    id: int,
    clientId: int,
    workerId: int,
    serviceType: string,
    description: Option<string>,
    scheduledDate: int,
    scheduledTime: int,
    status: AppointmentStatus,
    totalCost: Option<int>,
    address: Option<string>,
    contactPhone: Option<string>,
    specialInstructions: Option<string>,
    createdAt: int)

  /** `worker_availability`: one day of a worker's weekly schedule. */
  datatype SlotRow = SlotRow(
    workerId: int,
    day: string,
    enabled: bool,
    startTime: string,
    endTime: string)

  // ---------------------------------------------------------------- table invariants

  ghost predicate UniqueUserIds(users: seq<User>)
  {
    forall i, j :: 0 <= i < j < |users| ==> users[i].id != users[j].id
  }

  ghost predicate RequestsNumbered(rs: seq<ServiceRequest>)
  {
    forall k :: 0 <= k < |rs| ==> rs[k].id == k + 1
  }

  ghost predicate AppointmentsNumbered(rs: seq<Appointment>)
  {
    forall k :: 0 <= k < |rs| ==> rs[k].id == k + 1
  }

  /** No two schedule rows share (worker_id, day_of_week). */
  ghost predicate SlotKeysUnique(t: seq<SlotRow>)
  {
    forall i, j :: 0 <= i < j < |t| ==> t[i].workerId != t[j].workerId || t[i].day != t[j].day
  }

  /** Every stored `day_of_week` is one of the seven English keys. */
  ghost predicate SlotDaysKnown(t: seq<SlotRow>)
  {
    forall i :: 0 <= i < |t| ==> t[i].day in Week.EnglishKeys
  }

  // ---------------------------------------------------------------- lookups

  /** Some row of `users` has this id (what an INNER JOIN on users needs). */
  predicate UserExists(users: seq<User>, id: int)
  {
    exists i :: 0 <= i < |users| && users[i].id == id
  }

  /** `SELECT ... FROM users WHERE id = ? AND role = "worker"` finds a row. */
  predicate IsWorkerUser(users: seq<User>, id: int)
  {
    exists i :: 0 <= i < |users| && users[i].id == id && users[i].role == Some(Worker)
  }

  /** Position of the row of `users` with this id, if any. */
  function UserIndex(users: seq<User>, id: int): (r: Option<nat>)
    ensures r.Some? ==> r.value < |users| && users[r.value].id == id
    ensures r.None? <==> !UserExists(users, id)
  {
    if users == [] then None
    else if users[0].id == id then Some(0)
    else
      match UserIndex(users[1..], id)
      case None => None
      case Some(k) => Some(k + 1)
  }

  // ---------------------------------------------------------------- the store

  class Db {
    var users: seq<User>
    var workers: map<int, WorkerProfile>
    var requests: seq<ServiceRequest>
    var appointments: seq<Appointment>
    var slots: seq<SlotRow>

    ghost predicate Valid()
      reads this
    {
      && UniqueUserIds(users)
      && RequestsNumbered(requests)
      && AppointmentsNumbered(appointments)
      && SlotKeysUnique(slots)
      && SlotDaysKnown(slots)
    }

    /** A store whose users and profiles were created by registration, with no activity yet. */
    constructor (users: seq<User>, workers: map<int, WorkerProfile>)
      requires UniqueUserIds(users)
      ensures Valid()
      ensures this.users == users && this.workers == workers
      ensures requests == [] && appointments == [] && slots == []
    {
      this.users := users;
      this.workers := workers;
      requests := [];
      appointments := [];
      slots := [];
    }
  }
}
