/** No run of requests, jobs, failures and crashes leaves a database without its owner row. */
module DatabaseOwnership {
  import opened Wrappers
  import opened DatabaseTables
  import opened DatabaseMachine

  // ----- statements -----

  /** Statements on one user's row that keep its server keep every ownership fact. */
  lemma UserRowKeepsTables(t: Tables, ids: set<Id>, worker: Worker, u: Id, row: User)
    requires OwnersInv(t) && GrantsInv(t, ids) && IdsInv(t, ids) && DropInv(t, ids, worker)
    requires u in t.users && row.server == t.users[u].server
    ensures
      var t' := SetUser(t, u, row);
      OwnersInv(t') && GrantsInv(t', ids) && IdsInv(t', ids) && DropInv(t', ids, worker)
  {
    HeirsFollowRows(t, ids, SetUser(t, u, row), ids, worker);
  }

  /** The running job does not drop this user. */
  predicate Spared(worker: Worker, u: Id) {
    WorkerUser(worker) != Some((u, Drop))
  }

  /** Plans stay good as long as nobody gains a database and no heir disappears or moves. */
  lemma HeirsFollowRows(t: Tables, ids: set<Id>, t': Tables, ids': set<Id>, worker: Worker)
    requires DropInv(t, ids, worker) && ids <= ids'
    requires forall u :: u in t.users ==> u in t'.users && t'.users[u].server == t.users[u].server
    requires forall d :: d in t'.databases && d in ids ==>
               d in t.databases && t'.databases[d].owner == t.databases[d].owner
                 && t'.databases[d].server == t.databases[d].server
    requires forall d :: d in t'.databases && d !in ids ==> Spared(worker, t'.databases[d].owner)
    requires forall g :: g in t'.grants ==>
               (g in t.grants && t'.grants[g].user == t.grants[g].user) || Spared(worker, t'.grants[g].user)
    ensures DropInv(t', ids', worker)
  {
    forall u, d | Owns(t', u, d) && !Spared(worker, u) ensures Owns(t, u, d) { }
  }

  lemma StatusKeepsQueue(users: map<Id, User>, queue: map<Id, Job>, worker: Worker, u: Id, row: User)
    requires QueueInv(users, queue, worker) && u in users
    requires forall j :: j in queue && queue[j].UserJob? ==> queue[j].user != u
    requires WorkerUser(worker).Some? ==> WorkerUser(worker).value.0 != u
    ensures QueueInv(users[u := row], queue, worker)
  {
  }

  lemma EnqueueKeepsQueue(users: map<Id, User>, queue: map<Id, Job>, worker: Worker, u: Id, row: User, j: Id,
                          action: UserAction)
    requires QueueInv(users, queue, worker) && u in users && j !in queue && row.status == BusyStatus(action)
    requires forall k :: k in queue && queue[k].UserJob? ==> queue[k].user != u
    requires WorkerUser(worker).Some? ==> WorkerUser(worker).value.0 != u
    ensures QueueInv(users[u := row], queue[j := UserJob(u, action)], worker)
  {
  }

  /** A user that no busy status holds has no outstanding job. */
  lemma IdleUser(users: map<Id, User>, queue: map<Id, Job>, worker: Worker, u: Id)
    requires QueueInv(users, queue, worker)
    requires u in users ==> users[u].status != Applying && users[u].status != Deleting
    ensures forall j :: j in queue && queue[j].UserJob? ==> queue[j].user != u
    ensures WorkerUser(worker).Some? ==> WorkerUser(worker).value.0 != u
  {
  }

  // ----- requests -----

  lemma SubmitUserKeeps(s: State, u: Id, action: UserAction, job: Id, end: Submission)
    requires OwnershipInv(s) && u in s.tables.users && job !in s.queue
    requires forall j :: j in s.queue && s.queue[j].UserJob? ==> s.queue[j].user != u
    requires WorkerUser(s.worker).Some? ==> WorkerUser(s.worker).value.0 != u
    ensures OwnershipInv(SubmitUser(s, u, action, job, end))
  {
    var row := s.tables.users[u];
    if end == Submitted {
      UserRowKeepsTables(s.tables, s.ids, s.worker, u, row.(status := BusyStatus(action)));
      EnqueueKeepsQueue(s.tables.users, s.queue, s.worker, u, row.(status := BusyStatus(action)), job, action);
    } else if end == SubmitFailed {
      FailUserKeeps(s, u);
    }
  }

  lemma FailUserKeeps(s: State, u: Id)
    requires OwnershipInv(s)
    requires forall j :: j in s.queue && s.queue[j].UserJob? ==> s.queue[j].user != u
    requires WorkerUser(s.worker).Some? ==> WorkerUser(s.worker).value.0 != u
    ensures OwnershipInv(s.(tables := FailUser(s.tables, u)))
  {
    if u in s.tables.users {
      var row := FailUser(s.tables, u).users[u];
      UserRowKeepsTables(s.tables, s.ids, s.worker, u, row);
      StatusKeepsQueue(s.tables.users, s.queue, s.worker, u, row);
    }
  }

  lemma InsertUserKeeps(s: State, u: Id, row: User)
    requires OwnershipInv(s) && u !in s.ids
    ensures OwnershipInv(s.(tables := s.tables.(users := s.tables.users[u := row]), ids := s.ids + {u}))
    ensures forall j :: j in s.queue && s.queue[j].UserJob? ==> s.queue[j].user != u
    ensures WorkerUser(s.worker).Some? ==> WorkerUser(s.worker).value.0 != u
  {
    HeirsFollowRows(s.tables, s.ids, s.tables.(users := s.tables.users[u := row]), s.ids + {u}, s.worker);
  }

  lemma CreateUserKeeps(s: State, u: Id, server: Id, secret: Secret, job: Id, end: Submission)
    requires OwnershipInv(s)
    ensures OwnershipInv(DoCreateUser(s, u, server, secret, job, end))
  {
    if u !in s.ids && job !in s.queue {
      var row := User(server, Applying, None, Some(secret));
      InsertUserKeeps(s, u, row);
      SubmitUserKeeps(s.(tables := s.tables.(users := s.tables.users[u := row]), ids := s.ids + {u}), u, Create, job,
        end);
    }
  }

  /** A secret is staged for a user that nothing works on. */
  lemma StagingKeeps(s: State, u: Id, secret: Secret)
    requires OwnershipInv(s) && u in s.tables.users
    requires forall j :: j in s.queue && s.queue[j].UserJob? ==> s.queue[j].user != u
    requires WorkerUser(s.worker).Some? ==> WorkerUser(s.worker).value.0 != u
    ensures OwnershipInv(s.(tables := SetPending(s.tables, u, secret)))
  {
    var row := s.tables.users[u].(pending := Some(secret), status := Applying);
    UserRowKeepsTables(s.tables, s.ids, s.worker, u, row);
    StatusKeepsQueue(s.tables.users, s.queue, s.worker, u, row);
  }

  lemma SetPasswordKeeps(s: State, u: Id, secret: Secret, job: Id, end: Submission)
    requires OwnershipInv(s)
    ensures OwnershipInv(DoSetPassword(s, u, secret, job, end))
  {
    if u in s.tables.users && job !in s.queue
      && (s.tables.users[u].status == Active || s.tables.users[u].status == Failed) {
      IdleUser(s.tables.users, s.queue, s.worker, u);
      StagingKeeps(s, u, secret);
      SubmitUserKeeps(s.(tables := SetPending(s.tables, u, secret)), u, Rotate, job, end);
    }
  }

  lemma DropUserKeeps(s: State, u: Id, job: Id)
    requires OwnershipInv(s)
    ensures OwnershipInv(DoDropUser(s, u, job))
  {
    if u in s.tables.users && job !in s.queue && EnsureRemovable(s.tables.users[u].status) {
      IdleUser(s.tables.users, s.queue, s.worker, u);
      SubmitUserKeeps(s, u, Drop, job, Submitted);
    }
  }

  /** Jobs on databases and grants do not concern the user queue. */
  lemma OtherJobKeepsQueue(users: map<Id, User>, queue: map<Id, Job>, worker: Worker, j: Id, job: Job)
    requires QueueInv(users, queue, worker) && j !in queue && !job.UserJob?
    ensures QueueInv(users, queue[j := job], worker)
  {
  }

  lemma ActiveIsSpared(s: State, u: Id)
    requires OwnershipInv(s) && u in s.tables.users && s.tables.users[u].status == Active
    ensures Spared(s.worker, u)
  {
  }

  /** A new database goes to an active user, so not to one that is being dropped. */
  lemma CreateDatabaseKeeps(s: State, d: Id, server: Id, owner: Id, job: Id, end: Submission)
    requires OwnershipInv(s)
    ensures OwnershipInv(DoCreateDatabase(s, d, server, owner, job, end))
  {
    if d !in s.ids && job !in s.queue && ActiveOn(s.tables, owner, server) {
      ActiveIsSpared(s, owner);
      var t' := DoCreateDatabase(s, d, server, owner, job, end).tables;
      HeirsFollowRows(s.tables, s.ids, t', s.ids + {d}, s.worker);
      OtherJobKeepsQueue(s.tables.users, s.queue, s.worker, job, DatabaseJob(d, false));
    }
  }

  lemma DatabaseStatusKeeps(s: State, d: Id, status: Status)
    requires OwnershipInv(s)
    ensures OwnershipInv(s.(tables := SetDatabaseStatus(s.tables, d, status)))
  {
    HeirsFollowRows(s.tables, s.ids, SetDatabaseStatus(s.tables, d, status), s.ids, s.worker);
  }

  lemma DropDatabaseKeeps(s: State, d: Id, job: Id)
    requires OwnershipInv(s)
    ensures OwnershipInv(DoDropDatabase(s, d, job))
  {
    DatabaseStatusKeeps(s, d, Deleting);
    if job !in s.queue { OtherJobKeepsQueue(s.tables.users, s.queue, s.worker, job, DatabaseJob(d, true)); }
  }

  /** Grant rows may change status or go. */
  lemma GrantsKeep(s: State, grants': map<Id, Grant>)
    requires OwnershipInv(s)
    requires forall g :: g in grants' ==>
               g in s.tables.grants && grants'[g].user == s.tables.grants[g].user
                 && grants'[g].database == s.tables.grants[g].database
    ensures OwnershipInv(s.(tables := s.tables.(grants := grants')))
  {
    HeirsFollowRows(s.tables, s.ids, s.tables.(grants := grants'), s.ids, s.worker);
  }

  lemma GrantStatusKeeps(s: State, g: Id, status: Status)
    requires OwnershipInv(s)
    ensures OwnershipInv(s.(tables := SetGrantStatus(s.tables, g, status)))
  {
    if g in s.tables.grants {
      var grants' := s.tables.grants[g := s.tables.grants[g].(status := status)];
      GrantsKeep(s, grants');
    }
  }

  lemma InsertGrantKeeps(s: State, g: Id, row: Grant)
    requires OwnershipInv(s) && row.database in s.tables.databases
             && ActiveOn(s.tables, row.user, s.tables.databases[row.database].server)
    ensures OwnershipInv(s.(tables := s.tables.(grants := s.tables.grants[g := row]), ids := s.ids + {g}))
  {
    ActiveIsSpared(s, row.user);
    HeirsFollowRows(s.tables, s.ids, s.tables.(grants := s.tables.grants[g := row]), s.ids, s.worker);
    HeirsFollowRows(s.tables, s.ids, s.tables.(grants := s.tables.grants[g := row]), s.ids + {g}, s.worker);
  }

  lemma CreateGrantKeeps(s: State, g: Id, d: Id, u: Id, now: int, job: Id, end: Submission)
    requires OwnershipInv(s)
    ensures OwnershipInv(DoCreateGrant(s, g, d, u, now, job, end))
  {
    if d in s.tables.databases && ActiveOn(s.tables, u, s.tables.databases[d].server) && job !in s.queue {
      var status := if end == SubmitFailed then Failed else Applying;
      OtherJobKeepsQueue(s.tables.users, s.queue, s.worker, job, GrantJob(g, false));
      GrantStatusKeeps(s, g, status);
      InsertGrantKeeps(s, g, Grant(d, u, status, now));
    }
  }

  lemma DropGrantKeeps(s: State, g: Id, job: Id)
    requires OwnershipInv(s)
    ensures OwnershipInv(DoDropGrant(s, g, job))
  {
    GrantStatusKeeps(s, g, Deleting);
    if job !in s.queue { OtherJobKeepsQueue(s.tables.users, s.queue, s.worker, job, GrantJob(g, true)); }
  }

  // ----- the worker -----

  /** Letting the worker go, or taking a job off the queue, frees users. */
  lemma IdleKeeps(s: State)
    requires OwnershipInv(s)
    ensures OwnershipInv(s.(worker := Idle))
  {
  }

  lemma DequeueKeeps(s: State, j: Id)
    requires OwnershipInv(s) && j in s.queue
    ensures OwnershipInv(s.(queue := s.queue - {j}))
    ensures s.queue[j].UserJob? ==> forall k :: k in s.queue - {j} && s.queue[k].UserJob? ==>
              s.queue[k].user != s.queue[j].user
  {
  }

  lemma FailJobKeeps(s: State, job: Job, stored: bool)
    requires OwnershipInv(s)
    requires job.UserJob? ==> forall j :: j in s.queue && s.queue[j].UserJob? ==> s.queue[j].user != job.user
    ensures OwnershipInv(FailJob(s, job, stored))
  {
    IdleKeeps(s);
    var idle := s.(worker := Idle);
    match job
    case UserJob(u, _) => FailUserKeeps(idle, u);
    case DatabaseJob(d, _) => DatabaseStatusKeeps(idle, d, Failed);
    case GrantJob(g, _) => GrantStatusKeeps(idle, g, Failed);
  }

  /** The plan of a drop names heirs that exist, on the right server. */
  lemma PlanHasHeirs(t: Tables, ids: set<Id>, u: Id, transfers: seq<Transfer>)
    requires OwnersInv(t) && GrantsInv(t, ids) && IdsInv(t, ids) && PlansFor(t, u, transfers)
    ensures Heirs(t, ids, u, transfers)
  {
  }

  lemma PlannedKeeps(s: State, u: Id, action: UserAction, transfers: seq<Transfer>)
    requires OwnershipInv(s) && s.worker == Idle
    requires u in s.tables.users && s.tables.users[u].status == BusyStatus(action)
    requires forall j :: j in s.queue && s.queue[j].UserJob? ==> s.queue[j].user != u
    requires action == Drop ==> Heirs(s.tables, s.ids, u, transfers)
    ensures OwnershipInv(s.(worker := Planned(UserJob(u, action), transfers)))
  {
  }

  lemma BeginKeeps(s: State, j: Id, transfers: seq<Transfer>, ok: bool, stored: bool)
    requires OwnershipInv(s)
    ensures OwnershipInv(DoBegin(s, j, transfers, ok, stored))
  {
    if s.worker == Idle && j in s.queue {
      var job := s.queue[j];
      var taken := s.(queue := s.queue - {j});
      DequeueKeeps(s, j);
      FailJobKeeps(taken, job, stored);
      if job.UserJob? && job.user in s.tables.users {
        if job.action != Drop {
          PlannedKeeps(taken, job.user, job.action, []);
        } else if PlansFor(s.tables, job.user, transfers) {
          PlanHasHeirs(s.tables, s.ids, job.user, transfers);
          PlannedKeeps(taken, job.user, job.action, transfers);
        }
      }
    }
  }

  lemma ApplyKeeps(s: State, ok: bool, stored: bool)
    requires OwnershipInv(s)
    ensures OwnershipInv(DoApply(s, ok, stored))
  {
    IdleKeeps(s);
    if s.worker.Planned? { FailJobKeeps(s, s.worker.job, stored); }
  }

  lemma CommitKeeps(s: State)
    requires OwnershipInv(s)
    ensures OwnershipInv(DoCommit(s))
  {
    IdleKeeps(s);
    if s.worker.Applied? {
      var idle := s.(worker := Idle);
      match s.worker.job
      case UserJob(u, action) =>
        if action != Drop && u in s.tables.users {
          var row := SwapCredential(s.tables, u).users[u];
          UserRowKeepsTables(idle.tables, idle.ids, Idle, u, row);
          StatusKeepsQueue(idle.tables.users, idle.queue, Idle, u, row);
        }
      case DatabaseJob(d, drop) => if drop { ClearKeeps(s, d); } else { DatabaseStatusKeeps(idle, d, Active); }
      case GrantJob(g, revoke) =>
        if revoke {
          HeirsFollowRows(idle.tables, idle.ids, DeleteGrant(idle.tables, g), idle.ids, Idle);
        } else {
          GrantStatusKeeps(idle, g, Active);
        }
    }
  }

  lemma ClearKeeps(s: State, d: Id)
    requires OwnershipInv(s) && s.worker.Applied? && s.worker.job.DatabaseJob?
    ensures OwnershipInv(s.(tables := DeleteGrantsForDatabase(s.tables, d), worker := Clearing(d)))
  {
  }

  lemma HandNextKeeps(s: State)
    requires OwnershipInv(s) && s.worker.Handing? && s.worker.transfers != []
    ensures OwnershipInv(DoCommitNext(s))
  {
    var Handing(u, transfers) := s.worker;
    var t' := SetOwner(s.tables, transfers[0].database, transfers[0].newOwner);
    forall d | Owns(t', u, d) ensures exists k :: 0 <= k < |transfers[1..]| && transfers[1..][k].database == d {
      assert Owns(s.tables, u, d) && d != transfers[0].database;
      var k :| 0 <= k < |transfers| && transfers[k].database == d;
      assert transfers[1..][k - 1].database == d;
    }
    assert Heirs(t', s.ids, u, transfers[1..]);
  }

  lemma UngrantKeeps(s: State)
    requires OwnershipInv(s) && s.worker.Handing? && s.worker.transfers == []
    ensures OwnershipInv(DoCommitNext(s))
  {
    forall d | d in s.tables.databases ensures s.tables.databases[d].owner != s.worker.user {
      if s.tables.databases[d].owner == s.worker.user {
        assert Owns(s.tables, s.worker.user, d);
        assert false;
      }
    }
  }

  lemma RemoveKeeps(s: State)
    requires OwnershipInv(s) && (s.worker.Ungranted? || s.worker.Clearing?)
    ensures OwnershipInv(DoCommitNext(s))
  {
  }

  // ----- every step, every run -----

  predicate ByWorker(step: Step) {
    step.Begin? || step.Apply? || step.Commit? || step.CommitNext? || step.Abort?
  }

  lemma CommitNextKeeps(s: State)
    requires OwnershipInv(s)
    ensures OwnershipInv(DoCommitNext(s))
  {
    if s.worker.Handing? {
      if s.worker.transfers == [] { UngrantKeeps(s); } else { HandNextKeeps(s); }
    } else if s.worker.Ungranted? || s.worker.Clearing? {
      RemoveKeeps(s);
    }
  }

  lemma WorkerKeepsOwnership(s: State, step: Step)
    requires OwnershipInv(s) && ByWorker(step)
    ensures OwnershipInv(Next(s, step))
  {
    match step
    case Begin(job, transfers, ok, stored) => BeginKeeps(s, job, transfers, ok, stored);
    case Apply(ok, stored) => ApplyKeeps(s, ok, stored);
    case Commit => CommitKeeps(s);
    case CommitNext => CommitNextKeeps(s);
    case Abort => IdleKeeps(s);
  }

  lemma StepKeepsOwnership(s: State, step: Step)
    requires OwnershipInv(s)
    ensures OwnershipInv(Next(s, step))
  {
    if ByWorker(step) {
      WorkerKeepsOwnership(s, step);
    } else {
      RequestKeepsOwnership(s, step);
    }
  }

  lemma RequestKeepsOwnership(s: State, step: Step)
    requires OwnershipInv(s) && !ByWorker(step)
    ensures OwnershipInv(Next(s, step))
  {
    match step
    case CreateUser(u, server, secret, job, end) => CreateUserKeeps(s, u, server, secret, job, end);
    case SetPassword(u, secret, job, end) => SetPasswordKeeps(s, u, secret, job, end);
    case DropUser(u, job) => DropUserKeeps(s, u, job);
    case CreateDatabase(d, server, owner, job, end) => CreateDatabaseKeeps(s, d, server, owner, job, end);
    case DropDatabase(d, job) => DropDatabaseKeeps(s, d, job);
    case CreateGrant(g, d, u, now, job, end) => CreateGrantKeeps(s, g, d, u, now, job, end);
    case DropGrant(g, job) => DropGrantKeeps(s, g, job);
    case TouchDatabase(d, status) => DatabaseStatusKeeps(s, d, status);
  }

  lemma {:induction false} ExecKeepsOwnership(s: State, run: seq<Step>)
    requires OwnershipInv(s)
    ensures OwnershipInv(Exec(s, run))
    decreases |run|
  {
    if run != [] {
      StepKeepsOwnership(s, run[0]);
      ExecKeepsOwnership(Next(s, run[0]), run[1..]);
    }
  }

  /**
   In every interleaving, and wherever jobs fail or stop, each database's owner row exists on the database's
   server.
   */
  lemma NoDatabaseIsStranded(run: seq<Step>, d: Id)
    requires d in Exec(Initial(), run).tables.databases
    ensures
      var t := Exec(Initial(), run).tables;
      t.databases[d].owner in t.users && t.users[t.databases[d].owner].server == t.databases[d].server
  {
    ExecKeepsOwnership(Initial(), run);
  }
}
