/**
 Requests and the serial job worker of internal/modules/databases, as a
 transition system: users.go, databases.go, grants.go, drops.go, operations.go
 and resource_state.go.

 A request handler is one step, with its submission and AttachJob; the code
 submits first and attaches second, so this is an assumption. A job runs step by
 step, its user-drop commit statement by statement, and may stop anywhere: a
 failing report, a failing statement and a crash all end it where it is, and an
 interrupted job is not run again. The engine's ApplyPlan is atomic: on an error
 nothing changed.
 */
module DatabaseMachine {
  import opened Wrappers
  import opened DatabaseTables

  datatype UserAction = Create | Rotate | Drop

  datatype Job =
    | UserJob(user: Id, action: UserAction)
    | DatabaseJob(database: Id, drop: bool)
    | GrantJob(grant: Id, revoke: bool)

  /** How far the running job has come. */
  datatype Worker =
    | Idle
    | Planned(job: Job, transfers: seq<Transfer>)                             // change resolved and signed
    | Applied(job: Job, secret: Option<Secret>, transfers: seq<Transfer>)     // the engine has made the change
    | Handing(user: Id, transfers: seq<Transfer>)                             // in the ownership loop
    | Ungranted(user: Id)                                                     // the user's grants are gone
    | Clearing(database: Id)                                                  // the database's grants are gone

  /** `engine` is the password each account accepts; `ids` the ids ever used, which are random. */
  datatype State = State(tables: Tables, engine: map<Id, Secret>, queue: map<Id, Job>, worker: Worker, ids: set<Id>)

  /** How a handler's submission ends. */
  datatype Submission = Submitted | SubmitFailed | Died

  datatype Step =
    | CreateUser(user: Id, server: Id, secret: Secret, job: Id, end: Submission)
    | SetPassword(user: Id, secret: Secret, job: Id, end: Submission)
    | DropUser(user: Id, job: Id)
    | CreateDatabase(database: Id, server: Id, owner: Id, job: Id, end: Submission)
    | DropDatabase(database: Id, job: Id)
    | CreateGrant(grant: Id, database: Id, user: Id, now: int, job: Id, end: Submission)
    | DropGrant(grant: Id, job: Id)
    | TouchDatabase(database: Id, status: Status)
    | Begin(job: Id, transfers: seq<Transfer>, ok: bool, stored: bool)
    | Apply(ok: bool, stored: bool)
    | Commit
    | CommitNext
    | Abort

  function EngineOf(engine: map<Id, Secret>, u: Id): Option<Secret> {
    if u in engine then Some(engine[u]) else None
  }

  predicate EnsureRemovable(status: Status) {
    status == Active || status == Failed || status == PlanReady
  }

  function BusyStatus(action: UserAction): Status {
    if action == Drop then Deleting else Applying
  }

  function Enqueue(s: State, id: Id, job: Job): State {
    s.(queue := s.queue[id := job])
  }

  // ----- request handlers -----

  /** submitExecute for a user that was just staged; a failed submission goes through failResource. */
  function SubmitUser(s: State, u: Id, action: UserAction, job: Id, end: Submission): State {
    match end
    case Submitted => Enqueue(s.(tables := SetUserStatus(s.tables, u, BusyStatus(action))), job, UserJob(u, action))
    case SubmitFailed => s.(tables := FailUser(s.tables, u))
    case Died => s
  }

  function DoCreateUser(s: State, u: Id, server: Id, secret: Secret, job: Id, end: Submission): State {
    if u in s.ids || job in s.queue then s
    else
      var t := s.tables.(users := s.tables.users[u := User(server, Applying, None, Some(secret))]);
      SubmitUser(s.(tables := t, ids := s.ids + {u}), u, Create, job, end)
  }

  function DoSetPassword(s: State, u: Id, secret: Secret, job: Id, end: Submission): State {
    if u !in s.tables.users || job in s.queue then s
    else if s.tables.users[u].status != Active && s.tables.users[u].status != Failed then s
    else SubmitUser(s.(tables := SetPending(s.tables, u, secret)), u, Rotate, job, end)
  }

  ghost function DoDropUser(s: State, u: Id, job: Id): State {
    if u !in s.tables.users || job in s.queue then s
    else if !EnsureRemovable(s.tables.users[u].status) || !Removable(s.tables, u) then s
    else SubmitUser(s, u, Drop, job, Submitted)
  }

  predicate ActiveOn(t: Tables, u: Id, server: Id) {
    u in t.users && t.users[u].status == Active && t.users[u].server == server
  }

  function DoCreateDatabase(s: State, d: Id, server: Id, owner: Id, job: Id, end: Submission): State {
    if d in s.ids || job in s.queue || !ActiveOn(s.tables, owner, server) then s
    else
      var status := if end == SubmitFailed then Failed else Applying;
      var created := s.(tables := s.tables.(databases := s.tables.databases[d := Database(server, owner, status)]),
        ids := s.ids + {d});
      if end == Submitted then Enqueue(created, job, DatabaseJob(d, false)) else created
  }

  function DoDropDatabase(s: State, d: Id, job: Id): State {
    if d !in s.tables.databases || job in s.queue || !EnsureRemovable(s.tables.databases[d].status) then s
    else Enqueue(s.(tables := SetDatabaseStatus(s.tables, d, Deleting)), job, DatabaseJob(d, true))
  }

  predicate Granted(t: Tables, d: Id, u: Id) {
    exists h :: h in t.grants && t.grants[h].database == d && t.grants[h].user == u
  }

  /** A second grant for the same pair resets the first one. */
  function DoCreateGrant(s: State, g: Id, d: Id, u: Id, now: int, job: Id, end: Submission): State {
    if d !in s.tables.databases || s.tables.databases[d].status != Active || job in s.queue then s
    else if !ActiveOn(s.tables, u, s.tables.databases[d].server) then s
    else
      var status := if end == SubmitFailed then Failed else Applying;
      if g in s.tables.grants && s.tables.grants[g].database == d && s.tables.grants[g].user == u then
        var reset := s.(tables := SetGrantStatus(s.tables, g, status));
        if end == Submitted then Enqueue(reset, job, GrantJob(g, false)) else reset
      else if g in s.ids || Granted(s.tables, d, u) then s
      else
        var inserted := s.(tables := s.tables.(grants := s.tables.grants[g := Grant(d, u, status, now)]),
          ids := s.ids + {g});
        if end == Submitted then Enqueue(inserted, job, GrantJob(g, false)) else inserted
  }

  function DoDropGrant(s: State, g: Id, job: Id): State {
    if g !in s.tables.grants || job in s.queue || !EnsureRemovable(s.tables.grants[g].status) then s
    else Enqueue(s.(tables := SetGrantStatus(s.tables, g, Deleting)), job, GrantJob(g, true))
  }

  // ----- the worker -----

  /** failResource on behalf of the running job; its own statement may fail too. */
  function FailJob(s: State, job: Job, stored: bool): State {
    var idle := s.(worker := Idle);
    if !stored then idle
    else
      match job
      case UserJob(u, _) => idle.(tables := FailUser(s.tables, u))
      case DatabaseJob(d, _) => idle.(tables := SetDatabaseStatus(s.tables, d, Failed))
      case GrantJob(g, _) => idle.(tables := SetGrantStatus(s.tables, g, Failed))
  }

  /** changeFor and PlanChange. A user drop derives the heirs now, not when it was requested. */
  ghost function DoBegin(s: State, id: Id, transfers: seq<Transfer>, ok: bool, stored: bool): State {
    if s.worker != Idle || id !in s.queue then s
    else
      var job := s.queue[id];
      var taken := s.(queue := s.queue - {id});
      match job
      case UserJob(u, Drop) =>
        if !ok || u !in s.tables.users || !Removable(s.tables, u) then FailJob(taken, job, stored)
        else if !PlansFor(s.tables, u, transfers) then s
        else taken.(worker := Planned(job, transfers))
      case UserJob(u, _) =>
        if !ok || u !in s.tables.users || s.tables.users[u].pending.None? then FailJob(taken, job, stored)
        else taken.(worker := Planned(job, []))
      case _ => if !ok then FailJob(taken, job, stored) else taken.(worker := Planned(job, []))
  }

  predicate HasPending(t: Tables, u: Id) {
    u in t.users && t.users[u].pending.Some?
  }

  /** Read the pending secret again and let the engine apply the plan. */
  function DoApply(s: State, ok: bool, stored: bool): State {
    if !s.worker.Planned? then s
    else
      var Planned(job, transfers) := s.worker;
      if job.UserJob? && job.action != Drop && !HasPending(s.tables, job.user) then s.(worker := Idle)
      else if !ok then FailJob(s, job, stored)
      else if !job.UserJob? then s.(worker := Applied(job, None, transfers))
      else if job.action == Drop then s.(engine := s.engine - {job.user}, worker := Applied(job, None, transfers))
      else
        var secret := s.tables.users[job.user].pending.value;
        s.(engine := s.engine[job.user := secret], worker := Applied(job, Some(secret), transfers))
  }

  /** commitObservation. */
  function DoCommit(s: State): State {
    if !s.worker.Applied? then s
    else
      var idle := s.(worker := Idle);
      match s.worker.job
      case UserJob(u, Drop) => s.(worker := Handing(u, s.worker.transfers))
      case UserJob(u, _) => idle.(tables := SwapCredential(s.tables, u))
      case DatabaseJob(d, true) => s.(tables := DeleteGrantsForDatabase(s.tables, d), worker := Clearing(d))
      case DatabaseJob(d, false) => idle.(tables := SetDatabaseStatus(s.tables, d, Active))
      case GrantJob(g, true) => idle.(tables := DeleteGrant(s.tables, g))
      case GrantJob(g, false) => idle.(tables := SetGrantStatus(s.tables, g, Active))
  }

  /** The next statement of commitDrop. */
  function DoCommitNext(s: State): State {
    match s.worker
    case Handing(u, transfers) =>
      if transfers == [] then s.(tables := DeleteGrantsForUser(s.tables, u), worker := Ungranted(u))
      else
        s.(tables := SetOwner(s.tables, transfers[0].database, transfers[0].newOwner),
          worker := Handing(u, transfers[1..]))
    case Ungranted(u) => s.(tables := DeleteUser(s.tables, u), worker := Idle)
    case Clearing(d) => s.(tables := DeleteDatabase(s.tables, d), worker := Idle)
    case _ => s
  }

  ghost function Next(s: State, step: Step): State {
    match step
    case CreateUser(u, server, secret, job, end) => DoCreateUser(s, u, server, secret, job, end)
    case SetPassword(u, secret, job, end) => DoSetPassword(s, u, secret, job, end)
    case DropUser(u, job) => DoDropUser(s, u, job)
    case CreateDatabase(d, server, owner, job, end) => DoCreateDatabase(s, d, server, owner, job, end)
    case DropDatabase(d, job) => DoDropDatabase(s, d, job)
    case CreateGrant(g, d, u, now, job, end) => DoCreateGrant(s, g, d, u, now, job, end)
    case DropGrant(g, job) => DoDropGrant(s, g, job)
    case TouchDatabase(d, status) => s.(tables := SetDatabaseStatus(s.tables, d, status))
    case Begin(job, transfers, ok, stored) => DoBegin(s, job, transfers, ok, stored)
    case Apply(ok, stored) => DoApply(s, ok, stored)
    case Commit => DoCommit(s)
    case CommitNext => DoCommitNext(s)
    case Abort => s.(worker := Idle)
  }

  ghost function Exec(s: State, run: seq<Step>): State
    decreases |run|
  {
    if run == [] then s else Exec(Next(s, run[0]), run[1..])
  }

  function Initial(): State {
    State(Tables(map[], map[], map[]), map[], map[], Idle, {})
  }

  // ----- what holds between steps -----

  /** Every database has an owner row, on its own server. */
  ghost predicate OwnersInv(t: Tables) {
    forall d :: d in t.databases ==>
      t.databases[d].owner in t.users && t.users[t.databases[d].owner].server == t.databases[d].server
  }

  ghost predicate GrantsInv(t: Tables, ids: set<Id>) {
    forall g :: g in t.grants ==>
      && t.grants[g].user in t.users && t.grants[g].database in ids
      && (t.grants[g].database in t.databases ==>
           t.users[t.grants[g].user].server == t.databases[t.grants[g].database].server)
  }

  ghost predicate IdsInv(t: Tables, ids: set<Id>) {
    (forall u :: u in t.users ==> u in ids) && (forall d :: d in t.databases ==> d in ids)
  }

  /** The user the running job works on, until its row may be gone. */
  function WorkerUser(w: Worker): Option<(Id, UserAction)> {
    match w
    case Planned(UserJob(u, action), _) => Some((u, action))
    case Applied(UserJob(u, action), _, _) => Some((u, action))
    case Handing(u, _) => Some((u, Drop))
    case Ungranted(u) => Some((u, Drop))
    case _ => None
  }

  /** An outstanding user job has its user to itself, and the user's status says so. */
  ghost predicate QueueInv(users: map<Id, User>, queue: map<Id, Job>, worker: Worker) {
    && (forall j :: j in queue && queue[j].UserJob? ==>
          && queue[j].user in users && users[queue[j].user].status == BusyStatus(queue[j].action)
          && (WorkerUser(worker).Some? ==> WorkerUser(worker).value.0 != queue[j].user))
    && (forall j, k ::
        j in queue && k in queue && queue[j].UserJob? && queue[k].UserJob? && queue[j].user == queue[k].user ==> j == k)
    && (WorkerUser(worker).Some? ==>
          && WorkerUser(worker).value.0 in users
          && users[WorkerUser(worker).value.0].status == BusyStatus(WorkerUser(worker).value.1))
  }

  /** The plan of a drop covers whatever the user still owns, and names heirs that exist. */
  ghost predicate Heirs(t: Tables, ids: set<Id>, u: Id, transfers: seq<Transfer>) {
    && (forall d :: Owns(t, u, d) ==> exists k :: 0 <= k < |transfers| && transfers[k].database == d)
    && (forall k :: 0 <= k < |transfers| ==>
          && transfers[k].newOwner in t.users && transfers[k].newOwner != u && transfers[k].database in ids
          && (transfers[k].database in t.databases ==>
               t.users[transfers[k].newOwner].server == t.databases[transfers[k].database].server))
  }

  ghost predicate DropInv(t: Tables, ids: set<Id>, worker: Worker) {
    match worker
    case Planned(UserJob(u, Drop), transfers) => Heirs(t, ids, u, transfers)
    case Applied(UserJob(u, Drop), _, transfers) => Heirs(t, ids, u, transfers)
    case Handing(u, transfers) => Heirs(t, ids, u, transfers)
    case Ungranted(u) =>
      (forall d ::
          d in t.databases ==> t.databases[d].owner != u) && (forall g :: g in t.grants ==> t.grants[g].user != u)
    case _ => true
  }

  ghost predicate OwnershipInv(s: State) {
    && OwnersInv(s.tables) && GrantsInv(s.tables, s.ids) && IdsInv(s.tables, s.ids)
    && QueueInv(s.tables.users, s.queue, s.worker) && DropInv(s.tables, s.ids, s.worker)
  }

  // ----- credentials -----

  predicate UserAgrees(row: User, engine: Option<Secret>) {
    match row.status
    case Active => row.committed.Some? && engine == row.committed && row.pending.None?
    case Failed => row.committed.None? && engine.None?
    case Applying => engine == row.committed || engine == row.pending
    case Deleting => engine == row.committed || engine.None?
    case PlanReady => false
  }

  /** The engine and the rows agree; a job that has not been applied finds the engine at the committed secret. */
  ghost predicate CredentialsInv(users: map<Id, User>, engine: map<Id, Secret>, queue: map<Id, Job>, worker: Worker) {
    && (forall u :: u in users ==> UserAgrees(users[u], EngineOf(engine, u)))
    && (forall u :: u in engine ==> u in users)
    && (forall j :: j in queue && queue[j].UserJob? && queue[j].user in users ==>
         EngineOf(engine, queue[j].user) == users[queue[j].user].committed)
    && (worker.Planned? && worker.job.UserJob? && worker.job.user in users ==>
          EngineOf(engine, worker.job.user) == users[worker.job.user].committed)
    && (worker.Applied? && worker.job.UserJob? && worker.job.user in users ==>
          if worker.job.action == Drop then EngineOf(engine, worker.job.user).None?
          else
            worker.secret.Some? && users[worker.job.user].pending == worker.secret
              && EngineOf(engine, worker.job.user) == worker.secret)
    && ((worker.Handing? || worker.Ungranted?) ==> worker.user !in engine)
  }

  ghost predicate Inv(s: State) {
    OwnershipInv(s) && CredentialsInv(s.tables.users, s.engine, s.queue, s.worker)
  }
}
