/**
 * The account and worker-profile handlers of `/api/users`: the partial
 * profile update with its lazy creation of the worker row, the role and
 * profession choices, the tri-state availability flag and its reader, and
 * the public worker listing with its filters and ordering.
 */
module UserRoutes {
  import opened Common
  import opened Schema
  import opened Query

  // ---------------------------------------------------------------- profile merge

  /** The body of `PUT /profile`: every field may be left out. */
  datatype ProfilePatch = ProfilePatch(
    name: Patch<Option<string>>,
    phone: Patch<Option<string>>,
    avatarUrl: Patch<Option<string>>,
    profession: Patch<Option<string>>,
    description: Patch<Option<string>>)

  /** `name !== undefined && !name`: a name that is sent must be a non-empty string. */
  predicate NameCleared(body: ProfilePatch)
  {
    body.name.Set? && !Present(body.name.value)
  }

  /** The worker row of a user, if any (`SELECT ... FROM workers WHERE user_id = ?`). */
  function ProfileOf(workers: map<int, WorkerProfile>, id: int): (r: Option<WorkerProfile>)
    ensures r.Some? <==> id in workers
    ensures r.Some? ==> r.value == workers[id]
  {
    if id in workers then Some(workers[id]) else None
  }

  /**
   * A worker row created by `INSERT INTO workers (user_id, profession,
   * description, availability)`: available, and the columns the insert does
   * not name left NULL.
   */
  function FreshWorker(profession: Option<string>, description: Option<string>): (r: WorkerProfile)
    ensures r.profession == profession && r.description == description
    ensures r.availability == Available
    ensures r.rating.None? && r.immediateService.None? && r.coverageRadius.None?
  {
    WorkerProfile(profession, description, Available, None, None, None)
  }

  /** The `updateData` of `PUT /profile`: each sent field replaces the stored one. */
  function MergedUser(u: User, body: ProfilePatch): (r: User)
    ensures r.id == u.id && r.role == u.role
    ensures body.name.Keep? ==> r.name == u.name
    ensures body.name.Set? && Present(body.name.value) ==> r.name == body.name.value.value
    ensures body.phone.Keep? ==> r.phone == u.phone
    ensures body.phone.Set? ==> r.phone == body.phone.value
    ensures body.avatarUrl.Keep? ==> r.avatarUrl == u.avatarUrl
    ensures body.avatarUrl.Set? ==> r.avatarUrl == body.avatarUrl.value
  {
    var name := if body.name.Set? && body.name.value.Some? then body.name.value.value else u.name;
    u.(name := name, phone := Merge(body.phone, u.phone), avatarUrl := Merge(body.avatarUrl, u.avatarUrl))
  }

  /**
   * The `workerData` of `PUT /profile`: profession and description merged
   * over the current row, or over NULLs when the row is still to be created.
   */
  function MergedWorker(current: Option<WorkerProfile>, body: ProfilePatch): (r: WorkerProfile)
    ensures current.Some? ==>
      r.(profession := current.value.profession, description := current.value.description) == current.value
    ensures current.None? ==> r == FreshWorker(r.profession, r.description)
    ensures body.profession.Set? ==> r.profession == body.profession.value
    ensures body.profession.Keep? ==> r.profession == (if current.Some? then current.value.profession else None)
    ensures body.description.Set? ==> r.description == body.description.value
    ensures body.description.Keep? ==> r.description == (if current.Some? then current.value.description else None)
  {
    var base := if current.Some? then current.value else FreshWorker(None, None);
    base.(profession := Merge(body.profession, base.profession), description := Merge(body.description, base.description))
  }

  /** Worker fields are written only for a worker token that sent profession or description. */
  predicate TouchesWorker(caller: Caller, body: ProfilePatch)
  {
    caller.role == Some(Worker) && (body.profession.Set? || body.description.Set?)
  }

  /** Sending the same profile twice leaves what the first send stored. */
  lemma ProfileMergeIdempotent(u: User, current: Option<WorkerProfile>, body: ProfilePatch)
    ensures MergedUser(MergedUser(u, body), body) == MergedUser(u, body)
    ensures MergedWorker(Some(MergedWorker(current, body)), body) == MergedWorker(current, body)
  {
  }

  /** A body that sends nothing rewrites the user row and an existing worker row unchanged. */
  lemma EmptyPatchKeepsProfile(u: User, w: WorkerProfile)
    ensures MergedUser(u, ProfilePatch(Keep, Keep, Keep, Keep, Keep)) == u
    ensures MergedWorker(Some(w), ProfilePatch(Keep, Keep, Keep, Keep, Keep)) == w
  {
  }

  /** `PUT /profile`, run in one transaction. */
  method UpdateProfile(db: Db, caller: Caller, body: ProfilePatch) returns (out: Outcome<User>)
    requires db.Valid()
    modifies db`users, db`workers
    ensures db.Valid()
    ensures out.Ok? || out.BadRequest? || out.ServerError?
    ensures out.BadRequest? <==> NameCleared(body)
    ensures out.ServerError? <==> !NameCleared(body) && !UserExists(old(db.users), caller.id)
    ensures !out.Ok? ==> db.users == old(db.users) && db.workers == old(db.workers)
    ensures out.Ok? ==> UserIndex(old(db.users), caller.id).Some?
    ensures out.Ok? ==>
      var k := UserIndex(old(db.users), caller.id).value;
      && out.value == MergedUser(old(db.users)[k], body)
      && db.users == old(db.users)[k := out.value]
    ensures out.Ok? && TouchesWorker(caller, body) ==>
      db.workers == old(db.workers)[caller.id := MergedWorker(ProfileOf(old(db.workers), caller.id), body)]
    ensures out.Ok? && !TouchesWorker(caller, body) ==> db.workers == old(db.workers)
  {
    if NameCleared(body) {
      return BadRequest;
    }
    var k := UserIndex(db.users, caller.id);
    if k.None? {
      // 'Usuario no encontrado' is thrown inside the transaction: rollback, 500.
      return ServerError;
    }
    var u := MergedUser(db.users[k.value], body);
    db.users := db.users[k.value := u];
    if TouchesWorker(caller, body) {
      db.workers := db.workers[caller.id := MergedWorker(ProfileOf(db.workers, caller.id), body)];
    }
    out := Ok(u);
  }

  // ---------------------------------------------------------------- role and profession

  /** `PUT /update-role`. */
  method UpdateRole(db: Db, caller: Caller, role: Option<string>) returns (out: Outcome<Role>)
    requires db.Valid()
    modifies db`users
    ensures db.Valid()
    ensures out.Ok? || out.BadRequest? || out.ServerError?
    ensures out.BadRequest? <==> role.None? || ParseChosenRole(role.value).None?
    ensures out.ServerError? <==> !out.BadRequest? && !UserExists(old(db.users), caller.id)
    ensures out.Ok? ==> role.Some? && ParseChosenRole(role.value) == Some(out.value) && out.value != Admin
    ensures !out.Ok? ==> db.users == old(db.users)
    ensures out.Ok? ==> UserIndex(old(db.users), caller.id).Some?
    ensures out.Ok? ==>
      var k := UserIndex(old(db.users), caller.id).value;
      db.users == old(db.users)[k := old(db.users)[k].(role := Some(out.value))]
  {
    if role.None? || ParseChosenRole(role.value).None? {
      return BadRequest;
    }
    var r := ParseChosenRole(role.value).value;
    var k := UserIndex(db.users, caller.id);
    if k.None? {
      // The UPDATE matches no row and reading `users[0].id` throws: 500.
      return ServerError;
    }
    db.users := db.users[k.value := db.users[k.value].(role := Some(r))];
    out := Ok(r);
  }

  /** The description `PUT /update-profession` stores: the one sent, or a generated one. */
  function ProfessionDescription(profession: string, description: Option<string>): (r: string)
    ensures Present(description) ==> r == description.value
    ensures !Present(description) ==> r == "Soy " + profession + " profesional"
    ensures profession != "" ==> r != ""
  {
    TextOr(description, "Soy " + profession + " profesional")
  }

  /** The worker row after `PUT /update-profession`: updated in place, or inserted as available. */
  function WithProfession(current: Option<WorkerProfile>, profession: string, description: Option<string>): (r: WorkerProfile)
    ensures r.profession == Some(profession)
    ensures r.description == Some(ProfessionDescription(profession, description))
    ensures current.Some? ==>
      r.(profession := current.value.profession, description := current.value.description) == current.value
    ensures current.None? ==> r == FreshWorker(r.profession, r.description)
  {
    var desc := Some(ProfessionDescription(profession, description));
    if current.Some? then current.value.(profession := Some(profession), description := desc)
    else FreshWorker(Some(profession), desc)
  }

  /** `PUT /update-profession`: only a user stored with role worker may set a profession. */
  method UpdateProfession(db: Db, caller: Caller, profession: Option<string>, description: Option<string>)
    returns (out: Outcome<WorkerProfile>)
    requires db.Valid()
    modifies db`workers
    ensures db.Valid()
    ensures out.Ok? || out.BadRequest? || out.NotFound?
    ensures out.NotFound? <==> Present(profession) && !UserExists(db.users, caller.id)
    ensures out.BadRequest? <==>
      !Present(profession) || (UserExists(db.users, caller.id) && !IsWorkerUser(db.users, caller.id))
    ensures out.Ok? ==> Present(profession) && IsWorkerUser(db.users, caller.id)
    ensures !out.Ok? ==> db.workers == old(db.workers)
    ensures out.Ok? ==>
      && out.value == WithProfession(ProfileOf(old(db.workers), caller.id), profession.value, description)
      && db.workers == old(db.workers)[caller.id := out.value]
  {
    if !Present(profession) {
      return BadRequest;
    }
    var k := UserIndex(db.users, caller.id);
    if k.None? {
      return NotFound;
    }
    if db.users[k.value].role != Some(Worker) {
      assert !IsWorkerUser(db.users, caller.id);
      return BadRequest;
    }
    var row := WithProfession(ProfileOf(db.workers, caller.id), profession.value, description);
    db.workers := db.workers[caller.id := row];
    out := Ok(row);
  }

  // ---------------------------------------------------------------- availability flag

  /** `GET /my-availability`: the stored flag, `available` when there is no worker row. */
  function MyAvailability(workers: map<int, WorkerProfile>, id: int): (r: Availability)
    ensures id !in workers ==> r == Available
    ensures id in workers ==> r == workers[id].availability
  {
    if id in workers then workers[id].availability else Available
  }

  /**
   * `PUT /workers/availability`, behind the worker-only role guard (403). The
   * UPDATE touches the caller's worker row if there is one; with none it
   * matches nothing and the handler still answers success.
   */
  method SetWorkerAvailability(db: Db, caller: Caller, availability: Option<string>) returns (out: Outcome<Availability>)
    requires db.Valid()
    modifies db`workers
    ensures db.Valid()
    ensures out.Ok? || out.Forbidden? || out.BadRequest?
    ensures out.Forbidden? <==> caller.role != Some(Worker)
    ensures out.BadRequest? <==>
      caller.role == Some(Worker) && (availability.None? || ParseAvailability(availability.value).None?)
    ensures out.Ok? ==> availability.Some? && AvailabilityName(out.value) == availability.value
    ensures !out.Ok? ==> db.workers == old(db.workers)
    ensures out.Ok? && caller.id in old(db.workers) ==>
      && db.workers == old(db.workers)[caller.id := old(db.workers)[caller.id].(availability := out.value)]
      && MyAvailability(db.workers, caller.id) == out.value
    ensures out.Ok? && caller.id !in old(db.workers) ==>
      db.workers == old(db.workers) && MyAvailability(db.workers, caller.id) == Available
  {
    if caller.role != Some(Worker) {
      return Forbidden;
    }
    if availability.None? || ParseAvailability(availability.value).None? {
      return BadRequest;
    }
    var a := ParseAvailability(availability.value).value;
    if caller.id in db.workers {
      db.workers := db.workers[caller.id := db.workers[caller.id].(availability := a)];
    }
    out := Ok(a);
  }

  // ---------------------------------------------------------------- worker listing

  /** The query string of `GET /workers`; `minRating` is the parsed `min_rating` in hundredths. */
  datatype WorkerQuery = WorkerQuery(profession: Option<string>, minRating: Option<int>, available: Option<string>)

  /** One row of the listing (`users` joined to `workers`). */
  datatype WorkerCard = WorkerCard(
    id: int,
    name: string,
    avatarUrl: Option<string>,
    profession: Option<string>,
    description: Option<string>,
    availability: Availability,
    rating: Option<int>)

  function CardOf(u: User, w: WorkerProfile): WorkerCard
  {
    WorkerCard(u.id, u.name, u.avatarUrl, w.profession, w.description, w.availability, w.rating)
  }

  /** `users u INNER JOIN workers w ON u.id = w.user_id WHERE u.role = 'worker'`. */
  function WorkerRows(users: seq<User>, workers: map<int, WorkerProfile>): (r: seq<WorkerCard>)
    ensures forall c :: c in r <==>
      exists u :: u in users && u.role == Some(Worker) && u.id in workers && c == CardOf(u, workers[u.id])
  {
    if users == [] then []
    else
      var rest := WorkerRows(users[1..], workers);
      assert forall u :: u in users <==> u == users[0] || u in users[1..];
      var u := users[0];
      if u.role == Some(Worker) && u.id in workers then [CardOf(u, workers[u.id])] + rest else rest
  }

  /** The optional filters: truthy `profession`, truthy `min_rating`, and `available === 'true'`. */
  function MatchesQuery(q: WorkerQuery): WorkerCard -> bool
  {
    (c: WorkerCard) =>
      && (Present(q.profession) ==> c.profession == q.profession)
      && (q.minRating.Some? ==> c.rating.Some? && c.rating.value >= q.minRating.value)
      && (q.available == Some("true") ==> c.availability == Available)
  }

  /** `ORDER BY w.rating DESC`: MySQL sorts NULL below every rating, so unrated workers come last. */
  predicate HigherRatedFirst(a: WorkerCard, b: WorkerCard)
  {
    b.rating.None? || (a.rating.Some? && a.rating.value >= b.rating.value)
  }

  lemma HigherRatedFirstOrders()
    ensures TotalPreorder(HigherRatedFirst)
  {
  }

  /** `GET /workers`. */
  function ListWorkers(users: seq<User>, workers: map<int, WorkerProfile>, q: WorkerQuery): (r: seq<WorkerCard>)
    ensures forall c :: c in r <==> c in WorkerRows(users, workers) && MatchesQuery(q)(c)
    ensures multiset(r) == multiset(Filter(WorkerRows(users, workers), MatchesQuery(q)))
    ensures SortedBy(r, HigherRatedFirst)
    ensures q.available == Some("true") ==> forall c :: c in r ==> c.availability == Available
    ensures Present(q.profession) ==> forall c :: c in r ==> c.profession == q.profession
    ensures q.minRating.Some? ==> forall c :: c in r ==> c.rating.Some? && c.rating.value >= q.minRating.value
  {
    var rows := Filter(WorkerRows(users, workers), MatchesQuery(q));
    HigherRatedFirstOrders();
    SortBySorted(rows, HigherRatedFirst);
    SortByMembers(rows, HigherRatedFirst);
    SortBy(rows, HigherRatedFirst)
  }

  /** With no filter every user with role worker and a worker row is listed. */
  lemma UnfilteredListsEveryWorker(users: seq<User>, workers: map<int, WorkerProfile>, u: User)
    requires u in users && u.role == Some(Worker) && u.id in workers
    ensures CardOf(u, workers[u.id]) in ListWorkers(users, workers, WorkerQuery(None, None, None))
  {
  }

  /** A user without a worker row, or whose role is not worker, is never listed. */
  lemma OnlyProfiledWorkersListed(users: seq<User>, workers: map<int, WorkerProfile>, q: WorkerQuery, c: WorkerCard)
    requires UniqueUserIds(users)
    requires c in ListWorkers(users, workers, q)
    ensures IsWorkerUser(users, c.id) && c.id in workers
    ensures c.availability == workers[c.id].availability && c.rating == workers[c.id].rating
  {
  }

  /** With `available=true`, a worker who went offline or busy disappears from the listing. */
  lemma UnavailableWorkerHidden(users: seq<User>, workers: map<int, WorkerProfile>, q: WorkerQuery, u: User)
    requires q.available == Some("true")
    requires u.id in workers && workers[u.id].availability != Available
    ensures CardOf(u, workers[u.id]) !in ListWorkers(users, workers, q)
  {
  }
}
