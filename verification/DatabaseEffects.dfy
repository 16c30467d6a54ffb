/**
 What an accepted request leaves once its job has run to its end: the rows asked for, the engine's password,
 and nothing else.
 */
module DatabaseEffects {
  import opened Wrappers
  import opened DatabaseTables
  import opened DatabaseMachine

  lemma {:induction false} ExecConcat(s: State, a: seq<Step>, b: seq<Step>)
    ensures Exec(s, a + b) == Exec(Exec(s, a), b)
    decreases |a|
  {
    if a == [] {
      assert a + b == b;
    } else {
      assert (a + b)[1..] == a[1..] + b;
      ExecConcat(Next(s, a[0]), a[1..], b);
    }
  }

  lemma ExecTwo(s: State, one: Step, two: Step)
    ensures Exec(s, [one, two]) == Next(Next(s, one), two)
  {
    assert [one, two][1..] == [two] && [two][1..] == [];
    assert Exec(Next(s, one), [two]) == Next(Next(s, one), two);
  }

  lemma ExecFour(s: State, one: Step, two: Step, three: Step, four: Step)
    ensures Exec(s, [one, two] + [three, four]) == Next(Next(Next(Next(s, one), two), three), four)
  {
    ExecConcat(s, [one, two], [three, four]);
    ExecTwo(s, one, two);
    ExecTwo(Next(Next(s, one), two), three, four);
  }

  /** A request and the whole of its job, uninterrupted. */
  function Done(request: Step, job: Id): seq<Step> {
    [request, Begin(job, [], true, true)] + [Apply(true, true), Commit]
  }

  /** Somebody can ask for something: no job is running, and this job id is new. */
  predicate Ready(s: State, job: Id) {
    s.worker == Idle && job !in s.queue
  }

  /** The queued job, from its beginning to its commit. */
  ghost function JobRun(s: State, job: Id): State {
    Next(Next(Next(s, Begin(job, [], true, true)), Apply(true, true)), Commit)
  }

  lemma DoneIsJobRun(s: State, request: Step, job: Id)
    ensures Exec(s, Done(request, job)) == JobRun(Next(s, request), job)
  {
    ExecFour(s, request, Begin(job, [], true, true), Apply(true, true), Commit);
  }

  // ----- jobs -----

  lemma UserJobRuns(s: State, job: Id, u: Id, action: UserAction, secret: Secret)
    requires Ready(s, job) && action != Drop
    requires u in s.tables.users && s.tables.users[u].pending == Some(secret)
    ensures JobRun(Enqueue(s, job, UserJob(u, action)), job)
            == s.(tables := SwapCredential(s.tables, u), engine := s.engine[u := secret])
  {
    var asked := Enqueue(s, job, UserJob(u, action));
    assert asked.queue - {job} == s.queue;
    assert Next(asked, Begin(job, [], true, true)) == s.(worker := Planned(UserJob(u, action), []));
    assert Next(s.(worker := Planned(UserJob(u, action), [])), Apply(true, true))
        == s.(engine := s.engine[u := secret], worker := Applied(UserJob(u, action), Some(secret), []));
  }

  /** A job on a database or a grant, up to its commit. */
  lemma OtherJobIsApplied(s: State, j: Id, job: Job)
    requires Ready(s, j) && !job.UserJob?
    ensures Next(Next(Enqueue(s, j, job), Begin(j, [], true, true)), Apply(true, true))
            == s.(worker := Applied(job, None, []))
  {
    var asked := Enqueue(s, j, job);
    assert asked.queue - {j} == s.queue;
    assert Next(asked, Begin(j, [], true, true)) == s.(worker := Planned(job, []));
  }

  // ----- what is created is active, as it was asked for -----

  /** A new user has the requested password, in its row and in the engine. */
  lemma CreatedUserIsActive(s: State, u: Id, server: Id, secret: Secret, job: Id)
    requires Ready(s, job) && u !in s.ids && u !in s.tables.users
    ensures
      var s' := Exec(s, Done(CreateUser(u, server, secret, job, Submitted), job));
      s' == s.(tables := s.tables.(users := s.tables.users[u := User(server, Active, Some(secret), None)]),
               engine := s.engine[u := secret], ids := s.ids + {u})
  {
    var request := CreateUser(u, server, secret, job, Submitted);
    var row := User(server, Applying, None, Some(secret));
    var staged := s.(tables := s.tables.(users := s.tables.users[u := row]), ids := s.ids + {u});
    DoneIsJobRun(s, request, job);
    assert staged.tables.users[u := row] == staged.tables.users;
    assert Next(s, request) == Enqueue(staged, job, UserJob(u, Create));
    UserJobRuns(staged, job, u, Create, secret);
    assert SwapCredential(staged.tables, u).users == s.tables.users[u := User(server, Active, Some(secret), None)];
  }

  /** A new password replaces the old one, in its row and in the engine. */
  lemma SetPasswordIsAccepted(s: State, u: Id, secret: Secret, job: Id)
    requires Ready(s, job) && u in s.tables.users
    requires s.tables.users[u].status == Active || s.tables.users[u].status == Failed
    ensures
      var s' := Exec(s, Done(SetPassword(u, secret, job, Submitted), job));
      s' == s.(tables := s.tables.(users := s.tables.users[u := User(s.tables.users[u].server, Active, Some(secret),
        None)]),
               engine := s.engine[u := secret])
  {
    var request := SetPassword(u, secret, job, Submitted);
    var row := s.tables.users[u].(pending := Some(secret), status := Applying);
    var staged := s.(tables := s.tables.(users := s.tables.users[u := row]));
    DoneIsJobRun(s, request, job);
    assert staged.tables.users[u := row] == staged.tables.users;
    assert Next(s, request) == Enqueue(staged, job, UserJob(u, Rotate));
    UserJobRuns(staged, job, u, Rotate, secret);
    assert SwapCredential(staged.tables, u).users
        == s.tables.users[u := User(s.tables.users[u].server, Active, Some(secret), None)];
  }

  /** A new database is on the requested server and belongs to the requested user. */
  lemma CreatedDatabaseIsActive(s: State, d: Id, server: Id, owner: Id, job: Id)
    requires Ready(s, job) && d !in s.ids && ActiveOn(s.tables, owner, server)
    ensures
      var s' := Exec(s, Done(CreateDatabase(d, server, owner, job, Submitted), job));
      s' == s.(tables := s.tables.(databases := s.tables.databases[d := Database(server, owner, Active)]),
        ids := s.ids + {d})
  {
    var request := CreateDatabase(d, server, owner, job, Submitted);
    var rows := s.tables.databases[d := Database(server, owner, Applying)];
    var staged := s.(tables := s.tables.(databases := rows), ids := s.ids + {d});
    DoneIsJobRun(s, request, job);
    assert Next(s, request) == Enqueue(staged, job, DatabaseJob(d, false));
    OtherJobIsApplied(staged, job, DatabaseJob(d, false));
    assert rows[d := Database(server, owner, Active)] == s.tables.databases[d := Database(server, owner, Active)];
  }

  lemma GrantJobRuns(s: State, g: Id, row: Grant, ids: set<Id>, job: Id)
    requires Ready(s, job)
    ensures
      var staged := s.(tables := s.tables.(grants := s.tables.grants[g := row]), ids := ids);
      JobRun(Enqueue(staged, job, GrantJob(g, false)), job)
      == s.(tables := s.tables.(grants := s.tables.grants[g := row.(status := Active)]), ids := ids)
  {
    var staged := s.(tables := s.tables.(grants := s.tables.grants[g := row]), ids := ids);
    OtherJobIsApplied(staged, job, GrantJob(g, false));
    assert staged.tables.grants[g := row.(status := Active)] == s.tables.grants[g := row.(status := Active)];
  }

  /** A new grant is for the requested pair. */
  lemma CreatedGrantIsActive(s: State, g: Id, d: Id, u: Id, now: int, job: Id)
    requires Ready(s, job) && d in s.tables.databases && s.tables.databases[d].status == Active
    requires ActiveOn(s.tables, u, s.tables.databases[d].server)
    requires g !in s.ids && g !in s.tables.grants && !Granted(s.tables, d, u)
    ensures Exec(s, Done(CreateGrant(g, d, u, now, job, Submitted), job))
            == s.(tables := s.tables.(grants := s.tables.grants[g := Grant(d, u, Active, now)]), ids := s.ids + {g})
  {
    DoneIsJobRun(s, CreateGrant(g, d, u, now, job, Submitted), job);
    GrantJobRuns(s, g, Grant(d, u, Applying, now), s.ids + {g}, job);
  }

  /** Asking again for a pair that has a grant gives that grant back as active. */
  lemma RepeatedGrantIsActive(s: State, g: Id, d: Id, u: Id, now: int, job: Id)
    requires Ready(s, job) && d in s.tables.databases && s.tables.databases[d].status == Active
    requires ActiveOn(s.tables, u, s.tables.databases[d].server)
    requires g in s.tables.grants && s.tables.grants[g].database == d && s.tables.grants[g].user == u
    ensures Exec(s, Done(CreateGrant(g, d, u, now, job, Submitted), job))
            == s.(tables := s.tables.(grants := s.tables.grants[g := s.tables.grants[g].(status := Active)]))
  {
    DoneIsJobRun(s, CreateGrant(g, d, u, now, job, Submitted), job);
    GrantJobRuns(s, g, s.tables.grants[g].(status := Applying), s.ids, job);
  }

  // ----- what is dropped is gone -----

  /** A revoked grant is gone; no other row changes. */
  lemma RevokedGrantIsGone(s: State, g: Id, job: Id)
    requires Ready(s, job) && g in s.tables.grants && EnsureRemovable(s.tables.grants[g].status)
    ensures Exec(s, Done(DropGrant(g, job), job)) == s.(tables := s.tables.(grants := s.tables.grants - {g}))
  {
    var staged := s.(tables := SetGrantStatus(s.tables, g, Deleting));
    DoneIsJobRun(s, DropGrant(g, job), job);
    assert Next(s, DropGrant(g, job)) == Enqueue(staged, job, GrantJob(g, true));
    OtherJobIsApplied(staged, job, GrantJob(g, true));
    assert staged.tables.grants - {g} == s.tables.grants - {g};
  }

  /** However the revocation is interleaved: its commit takes the grant away and changes nothing else. */
  lemma CommittedRevokeRemoves(s: State, g: Id)
    requires s.worker.Applied? && s.worker.job == GrantJob(g, true)
    ensures
      var t := Next(s, Commit).tables;
      && g !in t.grants && t.users == s.tables.users && t.databases == s.tables.databases
      && forall h :: h != g ==>
           (h in t.grants <==> h in s.tables.grants) && (h in t.grants ==> t.grants[h] == s.tables.grants[h])
  {
  }

  /** A dropped database is gone with all its grants; no other row changes. */
  lemma DroppedDatabaseIsGone(s: State, d: Id, job: Id)
    requires Ready(s, job) && d in s.tables.databases && EnsureRemovable(s.tables.databases[d].status)
    ensures
      var s' := Exec(s, Done(DropDatabase(d, job), job) + [CommitNext]);
      && s' == s.(tables := s'.tables) && s'.tables.users == s.tables.users
         && s'.tables.databases == s.tables.databases - {d}
      && forall g :: (g in s'.tables.grants <==> g in s.tables.grants && s.tables.grants[g].database != d)
                     && (g in s'.tables.grants ==> s'.tables.grants[g] == s.tables.grants[g])
  {
    var staged := s.(tables := SetDatabaseStatus(s.tables, d, Deleting));
    DoneIsJobRun(s, DropDatabase(d, job), job);
    assert Next(s, DropDatabase(d, job)) == Enqueue(staged, job, DatabaseJob(d, true));
    OtherJobIsApplied(staged, job, DatabaseJob(d, true));
    ExecConcat(s, Done(DropDatabase(d, job), job), [CommitNext]);
    var committed := Exec(s, Done(DropDatabase(d, job), job));
    assert committed == staged.(tables := DeleteGrantsForDatabase(staged.tables, d), worker := Clearing(d));
    assert [CommitNext][1..] == [];
    assert Exec(committed, [CommitNext]) == Next(committed, CommitNext);
    assert staged.tables.databases - {d} == s.tables.databases - {d};
  }

  // ----- dropping a user -----

  /** That many statements of commitDrop. */
  function Statements(count: nat): seq<Step>
    decreases count
  {
    if count == 0 then [] else [CommitNext] + Statements(count - 1)
  }

  lemma {:induction false} HandsOverAll(s: State, u: Id, transfers: seq<Transfer>)
    requires s.worker == Handing(u, transfers)
    ensures Exec(s, Statements(|transfers| + 2)) == s.(tables := CommitDropUser(s.tables, u, transfers), worker := Idle)
    decreases |transfers|
  {
    var next := Next(s, CommitNext);
    assert Statements(|transfers| + 2)[1..] == Statements(|transfers| + 1);
    if transfers == [] {
      assert Statements(1)[1..] == [];
      assert next == s.(tables := DeleteGrantsForUser(s.tables, u), worker := Ungranted(u));
      assert Exec(next, Statements(1)) == Next(next, CommitNext);
    } else {
      HandsOverAll(next, u, transfers[1..]);
    }
  }

  /** Marking the user as leaving changes no plan. */
  lemma PlanIgnoresStatus(t: Tables, u: Id, status: Status, transfers: seq<Transfer>)
    requires u in t.users
    ensures Removable(SetUserStatus(t, u, status), u) <==> Removable(t, u)
    ensures PlansFor(t, u, transfers) ==> PlansFor(SetUserStatus(t, u, status), u, transfers)
  {
    var t' := SetUserStatus(t, u, status);
    forall d, g ensures OtherGrant(t', d, u, g) == OtherGrant(t, d, u, g) { }
    forall d ensures Owns(t', u, d) == Owns(t, u, d) { }
    if PlansFor(t, u, transfers) {
      forall k | 0 <= k < |transfers| ensures Hands(t', u, transfers[k]) {
        assert Hands(t, u, transfers[k]);
        var g :| Replaces(t, transfers[k].database, u, g) && t.grants[g].user == transfers[k].newOwner;
        assert Replaces(t', transfers[k].database, u, g);
      }
    }
  }

  lemma {:induction false} HandOverKeepsUsers(t: Tables, transfers: seq<Transfer>)
    ensures HandOver(t, transfers).users == t.users
    decreases |transfers|
  {
    if transfers != [] {
      HandOverKeepsUsers(SetOwner(t, transfers[0].database, transfers[0].newOwner), transfers[1..]);
    }
  }

  lemma {:induction false} HandOverIgnoresUsers(t: Tables, other: map<Id, User>, transfers: seq<Transfer>)
    ensures HandOver(t.(users := other), transfers) == HandOver(t, transfers).(users := other)
    decreases |transfers|
  {
    if transfers != [] {
      var t' := SetOwner(t, transfers[0].database, transfers[0].newOwner);
      assert SetOwner(t.(users := other), transfers[0].database, transfers[0].newOwner) == t'.(users := other);
      HandOverIgnoresUsers(t', other, transfers[1..]);
    }
  }

  /** Deleting a user ends with its databases handed over by the plan, its grants gone, and its row and account gone. */
  lemma {:induction false} DroppedUserIsGone(s: State, u: Id, job: Id, transfers: seq<Transfer>)
    requires Ready(s, job) && u in s.tables.users && EnsureRemovable(s.tables.users[u].status)
    requires Removable(s.tables, u) && PlansFor(s.tables, u, transfers)
    ensures
      var run := [DropUser(u, job), Begin(job, transfers, true, true)] + [Apply(true, true), Commit]
                 + Statements(|transfers| + 2);
      Exec(s, run) == s.(tables := CommitDropUser(s.tables, u, transfers), engine := s.engine - {u})
  {
    var leaving := SetUserStatus(s.tables, u, Deleting);
    PlanIgnoresStatus(s.tables, u, Deleting, transfers);
    var head := [DropUser(u, job), Begin(job, transfers, true, true)] + [Apply(true, true), Commit];
    ExecConcat(s, head, Statements(|transfers| + 2));
    ExecFour(s, DropUser(u, job), Begin(job, transfers, true, true), Apply(true, true), Commit);
    var asked := Enqueue(s.(tables := leaving), job, UserJob(u, Drop));
    assert asked.queue - {job} == s.queue;
    var planned := s.(tables := leaving, worker := Planned(UserJob(u, Drop), transfers));
    var applied := s.(tables := leaving, engine := s.engine - {u},
      worker := Applied(UserJob(u, Drop), None, transfers));
    assert Next(s, DropUser(u, job)) == asked;
    assert Next(asked, Begin(job, transfers, true, true)) == planned;
    assert Next(planned, Apply(true, true)) == applied;
    HandsOverAll(Next(applied, Commit), u, transfers);
    HandOverIgnoresUsers(s.tables, leaving.users, transfers);
    HandOverKeepsUsers(s.tables, transfers);
    assert leaving.users - {u} == s.tables.users - {u};
    assert CommitDropUser(leaving, u, transfers) == CommitDropUser(s.tables, u, transfers);
  }

  // ----- what is refused -----

  /** A job that fails marks its database or grant as failed and changes nothing else. */
  lemma FailedJobIsMarked(s: State, j: Id, job: Job)
    requires Ready(s, j) && !job.UserJob?
    ensures
      var s' := Next(Enqueue(s, j, job), Begin(j, [], false, true));
      && s'.worker == Idle && s'.queue == s.queue && s'.engine == s.engine
      && match job
         case DatabaseJob(d, _) =>
           d in s.tables.databases ==>
             s'.tables == s.tables.(databases := s.tables.databases[d := s.tables.databases[d].(status := Failed)])
         case GrantJob(g, _) =>
           g in s.tables.grants ==>
             s'.tables == s.tables.(grants := s.tables.grants[g := s.tables.grants[g].(status := Failed)])
  {
    assert Enqueue(s, j, job).queue - {j} == s.queue;
  }

  /** A password job whose staged password is gone by the time it would be applied ends without touching anything. */
  lemma WithdrawnPasswordEndsTheJob(s: State, u: Id, action: UserAction, transfers: seq<Transfer>, ok: bool,
                                    stored: bool)
    requires s.worker == Planned(UserJob(u, action), transfers) && action != Drop
    requires u !in s.tables.users || s.tables.users[u].pending.None?
    ensures Next(s, Apply(ok, stored)) == s.(worker := Idle)
  {
  }

  /** What a request stores whose job could not be submitted: the row it asked for, marked as failed, and no job. */
  lemma UnsubmittedIsMarked(s: State, step: Step)
    requires
      match step
      case CreateUser(u, _, _, job, end) => end == SubmitFailed && u !in s.ids && job !in s.queue
      case CreateDatabase(d, server, owner, job, end) =>
        end == SubmitFailed && d !in s.ids && job !in s.queue && ActiveOn(s.tables, owner, server)
      case CreateGrant(g, d, u, _, job, end) =>
        && end == SubmitFailed && g !in s.ids && g !in s.tables.grants && job !in s.queue && !Granted(s.tables, d, u)
        && d in s.tables.databases && s.tables.databases[d].status == Active
        && ActiveOn(s.tables, u, s.tables.databases[d].server)
      case _ => false
    ensures
      match step
      case CreateUser(u, server, secret, _, _) =>
        Next(s, step) == s.(ids := s.ids + {u},
          tables := s.tables.(users := s.tables.users[u := User(server, Failed, None, Some(secret))]))
      case CreateDatabase(d, server, owner, _, _) =>
        Next(s, step) == s.(ids := s.ids + {d},
          tables := s.tables.(databases := s.tables.databases[d := Database(server, owner, Failed)]))
      case CreateGrant(g, d, u, now, _, _) =>
        Next(s, step) == s.(ids := s.ids + {g},
          tables := s.tables.(grants := s.tables.grants[g := Grant(d, u, Failed, now)]))
  {
    if step.CreateUser? {
      var CreateUser(u, server, secret, _, _) := step;
      var row := User(server, Failed, None, Some(secret));
      assert s.tables.users[u := row.(status := Applying)][u := row] == s.tables.users[u := row];
    }
  }

  /** The only user of a database cannot be deleted: the request is refused at once. */
  lemma OnlyUserIsNotDropped(s: State, u: Id, d: Id, job: Id)
    requires Owns(s.tables, u, d) && !(exists g :: OtherGrant(s.tables, d, u, g))
    ensures Next(s, DropUser(u, job)) == s
  {
  }

  /** A database needs an active owner on its server; a grant an active database and an active user on its server. */
  lemma InactiveIsRefused(s: State, step: Step)
    requires
      match step
      case CreateDatabase(_, server, owner, _, _) =>
        owner !in s.tables.users || s.tables.users[owner].status != Active || s.tables.users[owner].server != server
      case CreateGrant(_, d, u, _, _, _) =>
        || d !in s.tables.databases || s.tables.databases[d].status != Active
        || u !in s.tables.users || s.tables.users[u].status != Active
        || s.tables.users[u].server != s.tables.databases[d].server
      case _ => false
    ensures Next(s, step) == s
  {
  }
}
