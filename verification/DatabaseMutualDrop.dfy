/** Two users who are each other's only replacement, both queued for deletion: a run from the empty state to its end. */
module DatabaseMutualDrop {
  import opened Wrappers
  import opened DatabaseTables
  import opened DatabaseMachine
  import opened DatabaseEffects

  const SERVER: Id := 9

  /** Nothing queued, nothing running. */
  function AtRest(t: Tables, engine: map<Id, Secret>, ids: set<Id>): State {
    State(t, engine, map[], Idle, ids)
  }

  function Member(status: Status, secret: Secret): User {
    User(SERVER, status, Some(secret), None)
  }

  const BOTH_USERS := map[1 := Member(Active, 10), 2 := Member(Active, 20)]
  const BOTH_DATABASES := map[3 := Database(SERVER, 1, Active), 4 := Database(SERVER, 2, Active)]
  const BOTH_GRANTS := map[5 := Grant(3, 2, Active, 0), 6 := Grant(4, 1, Active, 0)]
  const BOTH_SECRETS: map<Id, Secret> := map[1 := 10, 2 := 20]

  /** Each of two users owns a database on which only the other one has a grant. */
  function Mutual(): State {
    AtRest(Tables(BOTH_USERS, BOTH_DATABASES, BOTH_GRANTS), BOTH_SECRETS, {1, 2, 3, 4, 5, 6})
  }

  lemma UsersAreMade() returns (run: seq<Step>)
    ensures Exec(Initial(), run) == AtRest(Tables(BOTH_USERS, map[], map[]), BOTH_SECRETS, {1, 2})
  {
    var none: set<Id> := {};
    var one := map[1 := Member(Active, 10)];
    var first := Done(CreateUser(1, SERVER, 10, 0, Submitted), 0);
    var second := Done(CreateUser(2, SERVER, 20, 0, Submitted), 0);
    CreatedUserIsActive(AtRest(Tables(map[], map[], map[]), map[], none), 1, SERVER, 10, 0);
    assert none + {1} == {1};
    CreatedUserIsActive(AtRest(Tables(one, map[], map[]), map[1 := 10], {1}), 2, SERVER, 20, 0);
    assert one[2 := Member(Active, 20)] == BOTH_USERS;
    assert {1} + {2} == {1, 2};
    ExecConcat(Initial(), first, second);
    run := first + second;
  }

  lemma DatabasesAreMade() returns (run: seq<Step>)
    ensures Exec(Initial(), run) == AtRest(Tables(BOTH_USERS, BOTH_DATABASES, map[]), BOTH_SECRETS, {1, 2, 3, 4})
  {
    run := UsersAreMade();
    CreatedDatabaseIsActive(AtRest(Tables(BOTH_USERS, map[], map[]), BOTH_SECRETS, {1, 2}), 3, SERVER, 1, 0);
    ExecConcat(Initial(), run, Done(CreateDatabase(3, SERVER, 1, 0, Submitted), 0));
    run := run + Done(CreateDatabase(3, SERVER, 1, 0, Submitted), 0);
    var one := map[3 := Database(SERVER, 1, Active)];
    CreatedDatabaseIsActive(AtRest(Tables(BOTH_USERS, one, map[]), BOTH_SECRETS, {1, 2} + {3}), 4, SERVER, 2, 0);
    ExecConcat(Initial(), run, Done(CreateDatabase(4, SERVER, 2, 0, Submitted), 0));
    run := run + Done(CreateDatabase(4, SERVER, 2, 0, Submitted), 0);
    assert {1, 2} + {3} + {4} == {1, 2, 3, 4};
  }

  lemma GrantsAreMade() returns (run: seq<Step>)
    ensures Exec(Initial(), run) == Mutual()
  {
    run := DatabasesAreMade();
    CreatedGrantIsActive(AtRest(Tables(BOTH_USERS, BOTH_DATABASES, map[]), BOTH_SECRETS, {1, 2, 3, 4}), 5, 3, 2, 0, 0);
    ExecConcat(Initial(), run, Done(CreateGrant(5, 3, 2, 0, 0, Submitted), 0));
    run := run + Done(CreateGrant(5, 3, 2, 0, 0, Submitted), 0);
    var one := map[5 := Grant(3, 2, Active, 0)];
    CreatedGrantIsActive(AtRest(Tables(BOTH_USERS, BOTH_DATABASES, one), BOTH_SECRETS, {1, 2, 3, 4} + {5}), 6, 4, 1,
      0, 0);
    ExecConcat(Initial(), run, Done(CreateGrant(6, 4, 1, 0, 0, Submitted), 0));
    run := run + Done(CreateGrant(6, 4, 1, 0, 0, Submitted), 0);
    assert {1, 2, 3, 4} + {5} + {6} == {1, 2, 3, 4, 5, 6};
  }

  const BOTH_LEAVING := map[1 := Member(Deleting, 10), 2 := Member(Deleting, 20)]

  /** Both deletions have been accepted and wait for the worker. */
  function BothQueued(): State {
    Mutual().(tables := Mutual().tables.(users := BOTH_LEAVING),
      queue := map[0 := UserJob(1, Drop), 1 := UserJob(2, Drop)])
  }

  lemma DropIsQueued(s: State, u: Id, job: Id)
    requires u in s.tables.users && s.tables.users[u].status == Active && job !in s.queue && Removable(s.tables, u)
    ensures Next(s, DropUser(u, job))
            == Enqueue(s.(tables := SetUserStatus(s.tables, u, Deleting)), job, UserJob(u, Drop))
  {
  }

  /** The first deletion has been accepted. */
  function OneQueued(): State {
    Mutual().(tables := Mutual().tables.(users := map[1 := Member(Deleting, 10), 2 := Member(Active, 20)]),
      queue := map[0 := UserJob(1, Drop)])
  }

  lemma FirstIsQueued()
    ensures Next(Mutual(), DropUser(1, 0)) == OneQueued()
  {
    assert OtherGrant(Mutual().tables, 3, 1, 5);
    assert Removable(Mutual().tables, 1);
    DropIsQueued(Mutual(), 1, 0);
    assert BOTH_USERS[1 := Member(Deleting, 10)] == map[1 := Member(Deleting, 10), 2 := Member(Active, 20)];
  }

  lemma SecondIsQueued()
    ensures Next(OneQueued(), DropUser(2, 1)) == BothQueued()
  {
    assert OtherGrant(OneQueued().tables, 4, 2, 6);
    assert Removable(OneQueued().tables, 2);
    DropIsQueued(OneQueued(), 2, 1);
    assert OneQueued().tables.users[2 := Member(Deleting, 20)] == BOTH_LEAVING;
  }

  lemma BothAreQueued()
    ensures Exec(Mutual(), [DropUser(1, 0), DropUser(2, 1)]) == BothQueued()
  {
    ExecTwo(Mutual(), DropUser(1, 0), DropUser(2, 1));
    FirstIsQueued();
    SecondIsQueued();
  }

  const HAND := [Transfer(3, 2)]
  const HANDED_DATABASES := map[3 := Database(SERVER, 2, Active), 4 := Database(SERVER, 2, Active)]

  /** The first job has handed its user's database to the second user and is about to remove the first one's grants. */
  function Handed(): State {
    BothQueued().(tables := BothQueued().tables.(databases := HANDED_DATABASES),
                  engine := map[2 := 20], queue := map[1 := UserJob(2, Drop)], worker := Handing(1, []))
  }

  /** The first job's plan hands its user's only database to the user of the only other grant. */
  lemma HandIsThePlan()
    ensures PlansFor(BothQueued().tables, 1, HAND) && Removable(BothQueued().tables, 1)
  {
    var t := BothQueued().tables;
    assert OtherGrant(t, 3, 1, 5);
    assert Replaces(t, 3, 1, 5);
    assert Hands(t, 1, HAND[0]);
    assert HAND[0].database == 3;
  }

  /** The second deletion alone is left in the queue. */
  function Running(worker: Worker): State {
    BothQueued().(queue := map[1 := UserJob(2, Drop)], worker := worker)
  }

  lemma FirstIsPlanned()
    ensures Next(BothQueued(), Begin(0, HAND, true, true)) == Running(Planned(UserJob(1, Drop), HAND))
  {
    HandIsThePlan();
    assert BothQueued().queue - {0} == map[1 := UserJob(2, Drop)];
  }

  lemma FirstIsApplied()
    ensures Next(Running(Planned(UserJob(1, Drop), HAND)), Apply(true, true))
            == Running(Applied(UserJob(1, Drop), None, HAND)).(engine := map[2 := 20])
  {
    assert BOTH_SECRETS - {1} == map[2 := 20];
  }

  lemma FirstStartsHanding()
    ensures Next(Running(Applied(UserJob(1, Drop), None, HAND)).(engine := map[2 := 20]), Commit)
            == Running(Handing(1, HAND)).(engine := map[2 := 20])
  {
  }

  lemma FirstHasHanded()
    ensures Next(Running(Handing(1, HAND)).(engine := map[2 := 20]), CommitNext) == Handed()
  {
    assert HAND[1..] == [];
  }

  lemma FirstHandsOver()
    ensures Exec(BothQueued(), [Begin(0, HAND, true, true), Apply(true, true)] + [Commit, CommitNext]) == Handed()
  {
    ExecFour(BothQueued(), Begin(0, HAND, true, true), Apply(true, true), Commit, CommitNext);
    FirstIsPlanned();
    FirstIsApplied();
    FirstStartsHanding();
    FirstHasHanded();
  }

  /** The first user is gone; the second one owns both databases and nobody else has a grant on them. */
  function FirstGone(): State {
    Handed().(tables := Tables(map[2 := Member(Deleting, 20)], Handed().tables.databases,
      map[5 := Grant(3, 2, Active, 0)]), worker := Idle)
  }

  function Ungranting(): State {
    Handed().(tables := Handed().tables.(grants := map[5 := Grant(3, 2, Active, 0)]), worker := Ungranted(1))
  }

  lemma GrantsGo()
    ensures Next(Handed(), CommitNext) == Ungranting()
  {
    assert DeleteGrantsForUser(Handed().tables, 1).grants == map[5 := Grant(3, 2, Active, 0)];
  }

  lemma RowGoes()
    ensures Next(Ungranting(), CommitNext) == FirstGone()
  {
    assert BOTH_LEAVING - {1} == map[2 := Member(Deleting, 20)];
  }

  lemma FirstGoes()
    ensures Exec(Handed(), [CommitNext, CommitNext]) == FirstGone()
  {
    ExecTwo(Handed(), CommitNext, CommitNext);
    GrantsGo();
    RowGoes();
  }

  lemma BothLookRemovable()
    ensures Removable(BothQueued().tables, 1) && Removable(BothQueued().tables, 2)
    ensures Owns(BothQueued().tables, 1, 3) && Owns(BothQueued().tables, 2, 4)
  {
    var t := BothQueued().tables;
    assert OtherGrant(t, 3, 1, 5) && OtherGrant(t, 4, 2, 6);
  }

  /**
   Two users who are each other's only replacement may both be queued for deletion.
   The first job runs to its end; the second, whose replacement has gone, is refused:
   no database is left without an owner, and the second user is given back.
   */
  lemma MutualReplacementsKeepOne() returns (queued: seq<Step>, worked: seq<Step>)
    ensures
      var s := Exec(Initial(), queued);
      && s.queue == map[0 := UserJob(1, Drop), 1 := UserJob(2, Drop)] && Removable(s.tables, 1)
         && Removable(s.tables, 2)
      && Owns(s.tables, 1, 3) && Owns(s.tables, 2, 4)
    ensures
      var s := Exec(Initial(), queued + worked);
      && s.worker == Idle && s.queue == map[] && 1 !in s.tables.users && Owns(s.tables, 2, 3) && Owns(s.tables, 2, 4)
      && 2 in s.tables.users && s.tables.users[2].status == Active
         && EngineOf(s.engine, 2) == s.tables.users[2].committed
  {
    var made := GrantsAreMade();
    BothAreQueued();
    ExecConcat(Initial(), made, [DropUser(1, 0), DropUser(2, 1)]);
    queued := made + [DropUser(1, 0), DropUser(2, 1)];
    BothLookRemovable();
    var handing := [Begin(0, HAND, true, true), Apply(true, true)] + [Commit, CommitNext];
    FirstHandsOver();
    FirstGoes();
    SecondIsRefused();
    worked := handing + [CommitNext, CommitNext] + [Begin(1, [], true, true)];
    ExecConcat(Initial(), queued, worked);
    ExecConcat(BothQueued(), handing + [CommitNext, CommitNext], [Begin(1, [], true, true)]);
    ExecConcat(BothQueued(), handing, [CommitNext, CommitNext]);
  }

  lemma DropIsRefused(s: State, j: Id, u: Id)
    requires s.worker == Idle && j in s.queue && s.queue[j] == UserJob(u, Drop)
    requires u in s.tables.users && !Removable(s.tables, u)
    ensures Next(s, Begin(j, [], true, true)) == s.(queue := s.queue - {j}, tables := FailUser(s.tables, u))
  {
  }

  /** The second job's user is given back: the re-check finds no other grant on its databases. */
  lemma SecondIsGivenBack()
    ensures
      var s := Next(FirstGone(), Begin(1, [], true, true));
      && s.worker == Idle && s.queue == map[] && s.tables.databases == FirstGone().tables.databases
      && s.engine == map[2 := 20] && s.tables.users == map[2 := Member(Active, 20)]
  {
    var s := FirstGone();
    assert Owns(s.tables, 2, 4) && forall g :: !OtherGrant(s.tables, 4, 2, g);
    DropIsRefused(s, 1, 2);
    assert s.queue - {1} == map[];
    assert s.tables.users[2 := Member(Active, 20)] == map[2 := Member(Active, 20)];
  }

  lemma SecondIsRefused()
    ensures
      var s := Exec(FirstGone(), [Begin(1, [], true, true)]);
      && s.worker == Idle && s.queue == map[] && s.tables.databases == FirstGone().tables.databases
         && s.engine == map[2 := 20]
      && s.tables.users == map[2 := Member(Active, 20)]
  {
    SecondIsGivenBack();
    assert [Begin(1, [], true, true)][1..] == [];
    assert Exec(FirstGone(), [Begin(1, [], true, true)]) == Next(FirstGone(), Begin(1, [], true, true));
  }
}
