/** The secret the panel keeps for a user is the one the engine accepts, over every run. */
module DatabaseCredentials {
  import opened Wrappers
  import opened DatabaseTables
  import opened DatabaseMachine
  import opened DatabaseOwnership

  ghost predicate Cred(s: State) {
    CredentialsInv(s.tables.users, s.engine, s.queue, s.worker)
  }

  /** A row may change as long as it agrees with the engine and no job waits for the user. */
  lemma RowKeepsCred(users: map<Id, User>, engine: map<Id, Secret>, queue: map<Id, Job>, worker: Worker, u: Id,
                     row: User)
    requires CredentialsInv(users, engine, queue, worker) && u in users && UserAgrees(row, EngineOf(engine, u))
    requires forall j :: j in queue && queue[j].UserJob? ==> queue[j].user != u
    requires WorkerUser(worker).Some? ==> WorkerUser(worker).value.0 != u
    ensures CredentialsInv(users[u := row], engine, queue, worker)
  {
  }

  lemma EnqueueKeepsCred(users: map<Id, User>, engine: map<Id, Secret>, queue: map<Id, Job>, worker: Worker, j: Id,
                         job: Job)
    requires CredentialsInv(users, engine, queue, worker) && j !in queue
    requires job.UserJob? && job.user in users ==> EngineOf(engine, job.user) == users[job.user].committed
    ensures CredentialsInv(users, engine, queue[j := job], worker)
  {
  }

  /** What a user that nothing works on can be staged for. */
  lemma SubmitUserCred(s: State, u: Id, action: UserAction, job: Id, end: Submission)
    requires Cred(s) && u in s.tables.users && job !in s.queue
    requires forall j :: j in s.queue && s.queue[j].UserJob? ==> s.queue[j].user != u
    requires WorkerUser(s.worker).Some? ==> WorkerUser(s.worker).value.0 != u
    requires EngineOf(s.engine, u) == s.tables.users[u].committed
    ensures Cred(SubmitUser(s, u, action, job, end))
  {
    var row := s.tables.users[u];
    if end == Submitted {
      var busy := row.(status := BusyStatus(action));
      RowKeepsCred(s.tables.users, s.engine, s.queue, s.worker, u, busy);
      EnqueueKeepsCred(s.tables.users[u := busy], s.engine, s.queue, s.worker, job, UserJob(u, action));
    } else if end == SubmitFailed {
      FailUserCred(s, u);
    }
  }

  /** failResource lands on a state that agrees with an engine the failed job left alone. */
  lemma FailUserCred(s: State, u: Id)
    requires Cred(s)
    requires u in s.tables.users ==> EngineOf(s.engine, u) == s.tables.users[u].committed
    requires forall j :: j in s.queue && s.queue[j].UserJob? ==> s.queue[j].user != u
    requires WorkerUser(s.worker).Some? ==> WorkerUser(s.worker).value.0 != u
    ensures Cred(s.(tables := FailUser(s.tables, u)))
  {
  }

  lemma CreateUserCred(s: State, u: Id, server: Id, secret: Secret, job: Id, end: Submission)
    requires Inv(s)
    ensures Cred(DoCreateUser(s, u, server, secret, job, end))
  {
    if u !in s.ids && job !in s.queue {
      var row := User(server, Applying, None, Some(secret));
      InsertUserKeeps(s, u, row);
      var inserted := s.(tables := s.tables.(users := s.tables.users[u := row]), ids := s.ids + {u});
      assert u !in s.tables.users && u !in s.engine;
      SubmitUserCred(inserted, u, Create, job, end);
    }
  }

  lemma SetPasswordCred(s: State, u: Id, secret: Secret, job: Id, end: Submission)
    requires Inv(s)
    ensures Cred(DoSetPassword(s, u, secret, job, end))
  {
    if u in s.tables.users && job !in s.queue
      && (s.tables.users[u].status == Active || s.tables.users[u].status == Failed) {
      var row := s.tables.users[u].(pending := Some(secret), status := Applying);
      IdleUser(s.tables.users, s.queue, s.worker, u);
      RowKeepsCred(s.tables.users, s.engine, s.queue, s.worker, u, row);
      SubmitUserCred(s.(tables := SetPending(s.tables, u, secret)), u, Rotate, job, end);
    }
  }

  lemma DropUserCred(s: State, u: Id, job: Id)
    requires Inv(s)
    ensures Cred(DoDropUser(s, u, job))
  {
  }

  // ----- the worker -----

  lemma IdleCred(s: State)
    requires Cred(s)
    ensures Cred(s.(worker := Idle))
  {
  }

  lemma FailJobCred(s: State, job: Job, stored: bool)
    requires Cred(s)
    requires job.UserJob? ==> forall j :: j in s.queue && s.queue[j].UserJob? ==> s.queue[j].user != job.user
    requires job.UserJob? && job.user in s.tables.users ==>
               EngineOf(s.engine, job.user) == s.tables.users[job.user].committed
    ensures Cred(FailJob(s, job, stored))
  {
  }

  lemma BeginCred(s: State, j: Id, transfers: seq<Transfer>, ok: bool, stored: bool)
    requires Inv(s)
    ensures Cred(DoBegin(s, j, transfers, ok, stored))
  {
    if s.worker == Idle && j in s.queue {
      DequeueKeeps(s, j);
      FailJobCred(s.(queue := s.queue - {j}), s.queue[j], stored);
    }
  }

  /** The engine takes the pending secret, or forgets the user. */
  lemma EngineCred(s: State, u: Id, action: UserAction, transfers: seq<Transfer>)
    requires Inv(s) && s.worker == Planned(UserJob(u, action), transfers) && u in s.tables.users
    ensures action == Drop ==>
              CredentialsInv(s.tables.users, s.engine - {u}, s.queue, Applied(UserJob(u, action), None, transfers))
    ensures action != Drop && s.tables.users[u].pending.Some? ==>
              CredentialsInv(s.tables.users, s.engine[u := s.tables.users[u].pending.value], s.queue,
                             Applied(UserJob(u, action), s.tables.users[u].pending, transfers))
  {
  }

  lemma ApplyCred(s: State, ok: bool, stored: bool)
    requires Inv(s)
    ensures Cred(DoApply(s, ok, stored))
  {
    IdleCred(s);
    if s.worker.Planned? {
      var Planned(job, transfers) := s.worker;
      FailJobCred(s, job, stored);
      if job.UserJob? { EngineCred(s, job.user, job.action, transfers); }
    }
  }

  /** SwapUserCredential promotes exactly the secret this job applied. */
  lemma PromotedIsApplied(s: State)
    requires Inv(s) && s.worker.Applied? && s.worker.job.UserJob? && s.worker.job.action != Drop
    ensures
      var u := s.worker.job.user;
      var s' := Next(s, Commit);
      && u in s'.tables.users && s.worker.secret.Some?
      && s'.tables.users[u].committed == s.worker.secret && EngineOf(s'.engine, u) == s.worker.secret
      && s'.tables.users[u].status == Active && s'.tables.users[u].pending == None
  {
  }

  lemma CommitCred(s: State)
    requires Inv(s)
    ensures Cred(DoCommit(s))
  {
    IdleCred(s);
    if s.worker.Applied? && s.worker.job.UserJob? && s.worker.job.action != Drop {
      PromotedIsApplied(s);
      var u := s.worker.job.user;
      var idle := s.(worker := Idle);
      RowKeepsCred(idle.tables.users, idle.engine, idle.queue, Idle, u, SwapCredential(s.tables, u).users[u]);
    }
  }

  lemma GoneUserCred(users: map<Id, User>, engine: map<Id, Secret>, queue: map<Id, Job>, u: Id)
    requires CredentialsInv(users, engine, queue, Ungranted(u))
    ensures CredentialsInv(users - {u}, engine, queue, Idle)
  {
  }

  lemma CommitNextCred(s: State)
    requires Inv(s)
    ensures Cred(DoCommitNext(s))
  {
    if s.worker.Ungranted? {
      GoneUserCred(s.tables.users, s.engine, s.queue, s.worker.user);
    } else if s.worker.Handing? {
      assert DoCommitNext(s).tables.users == s.tables.users;
    }
  }

  /** Requests and statements on databases and grants. */
  lemma OtherStepsCred(s: State, step: Step)
    requires Inv(s)
    requires step.CreateDatabase? || step.DropDatabase? || step.CreateGrant? || step.DropGrant? || step.TouchDatabase?
    ensures Cred(Next(s, step))
  {
    if !step.TouchDatabase? && step.job !in s.queue {
      if step.CreateDatabase? {
        EnqueueKeepsCred(s.tables.users, s.engine, s.queue, s.worker, step.job, DatabaseJob(step.database, false));
      } else if step.DropDatabase? {
        EnqueueKeepsCred(s.tables.users, s.engine, s.queue, s.worker, step.job, DatabaseJob(step.database, true));
      } else {
        EnqueueKeepsCred(s.tables.users, s.engine, s.queue, s.worker, step.job, GrantJob(step.grant, step.DropGrant?));
      }
    }
  }

  // ----- every step, every run -----

  lemma StepKeepsInv(s: State, step: Step)
    requires Inv(s)
    ensures Inv(Next(s, step))
  {
    StepKeepsOwnership(s, step);
    match step
    case CreateUser(u, server, secret, job, end) => CreateUserCred(s, u, server, secret, job, end);
    case SetPassword(u, secret, job, end) => SetPasswordCred(s, u, secret, job, end);
    case DropUser(u, job) => DropUserCred(s, u, job);
    case Begin(job, transfers, ok, stored) => BeginCred(s, job, transfers, ok, stored);
    case Apply(ok, stored) => ApplyCred(s, ok, stored);
    case Commit => CommitCred(s);
    case CommitNext => CommitNextCred(s);
    case Abort => IdleCred(s);
    case _ => OtherStepsCred(s, step);
  }

  lemma {:induction false} ExecKeepsInv(s: State, run: seq<Step>)
    requires Inv(s)
    ensures Inv(Exec(s, run))
    decreases |run|
  {
    if run != [] {
      StepKeepsInv(s, run[0]);
      ExecKeepsInv(Next(s, run[0]), run[1..]);
    }
  }

  /**
   An active user's committed secret is the one the engine accepts. Any other
   user's engine password is the committed or the pending secret, or, on the way
   out, the account is already gone.
   */
  lemma CredentialsAgree(run: seq<Step>, u: Id)
    requires u in Exec(Initial(), run).tables.users
    ensures
      var s := Exec(Initial(), run);
      var row := s.tables.users[u];
      var engine := EngineOf(s.engine, u);
      && (row.status == Active ==> row.committed.Some? && engine == row.committed)
      && (engine == row.committed || engine == row.pending || (row.status == Deleting && engine.None?))
  {
    ExecKeepsInv(Initial(), run);
  }

  /** Over every run: what a commit promotes is what its job applied. */
  lemma PromotionsAreApplied(run: seq<Step>)
    requires
      var w := Exec(Initial(), run).worker;
      w.Applied? && w.job.UserJob? && w.job.action != Drop
    ensures
      var s := Exec(Initial(), run);
      var s' := Next(s, Commit);
      s.worker.job.user in s'.tables.users && s'.tables.users[s.worker.job.user].committed == s.worker.secret
      && EngineOf(s'.engine, s.worker.job.user) == s.worker.secret
  {
    ExecKeepsInv(Initial(), run);
    PromotedIsApplied(Exec(Initial(), run));
  }

  // ----- the heirs are derived when the job runs -----

  /**
   Of two users queued for deletion who are each other's replacement the second
   is refused: its job finds a database with no other user left, changes no
   database, and gives the user back.
   */
  lemma LastUserSurvives(s: State, j: Id, u: Id, d: Id, transfers: seq<Transfer>, ok: bool)
    requires s.worker == Idle && j in s.queue && s.queue[j] == UserJob(u, Drop)
    requires u in s.tables.users && Owns(s.tables, u, d) && !(exists g :: OtherGrant(s.tables, d, u, g))
    ensures
      var s' := Next(s, Begin(j, transfers, ok, true));
      && s'.worker == Idle && s'.tables.databases == s.tables.databases && s'.engine == s.engine
      && u in s'.tables.users && s'.tables.users[u].committed == s.tables.users[u].committed
      && s'.tables.users[u].status == (if s.tables.users[u].committed.Some? then Active else Failed)
  {
  }
}
