/**
 Requests and reconciliation passes on backup plans, statement by statement.

 Rows are changed outside the mutex; a changed plan is then synced under it.
 Any call may fail, an operator call that fails may leave any timer for its
 plan, and the process may end at any point, which forgets every owed sync.
 */
module BackupRaces {
  import opened Wrappers
  import opened BackupSchedules

  type Thread = nat

  /** A request between its statements outside the mutex. */
  datatype Request =
    | Editing(id: PlanId)    // UpdatePlan read the row and will write all of it
    | Toggled(id: PlanId)    // togglePlanHTTP wrote the flag and will read the row back
    | Owing(id: PlanId)      // the row is written; syncSchedule is still to come

  /** What the holder of the mutex is doing. */
  datatype Holder =
    | Free
    | Entered(id: PlanId)                              // syncSchedule before its SELECT
    | Selected(id: PlanId, row: Plan)                  // before the operator call
    | Called(id: PlanId, row: Plan, outcome: Outcome)  // before the state is stored
    | Deleting(id: PlanId)                             // DeletePlan read the row and found no copies
    | Removed(id: PlanId)                              // the timer is gone
    | Unremoved(id: PlanId)                            // RemoveSchedule failed
    | Marked(id: PlanId)                               // the row says pending

  /**
   `ids` are the plan ids ever used; `adrift` the plans whose sync was lost, or whose observed state was not
   stored.
   */
  datatype State = State(rows: Rows, timers: Timers, requests: map<Thread, Request>, holder: Holder, ids: set<PlanId>,
                         adrift: set<PlanId>)

  datatype Step =
    | Create(thread: Thread, id: PlanId, name: string, schedule: string, enabled: bool)
    | UpdateRead(thread: Thread, id: PlanId)
    | UpdateWrite(thread: Thread, name: string, schedule: string, enabled: bool, ok: bool)
    | Toggle(thread: Thread, id: PlanId, enabled: bool, ok: bool)
    | ToggleRead(thread: Thread, ok: bool)
    | Enter(thread: Thread)
    | EnterPass(id: PlanId)
    | Select(ok: bool)
    | Operate(outcome: Outcome)
    | Store(ok: bool)
    | DeleteEnter(id: PlanId, hasCopies: bool)
    | DeleteRemove(outcome: Outcome)
    | DeleteMark(ok: bool)
    | DeleteRow(ok: bool)
    | Crash

  // ----- requests outside the mutex -----

  /** Plan ids are random and never used again. */
  function DoCreate(s: State, th: Thread, id: PlanId, name: string, schedule: string, enabled: bool): State {
    if th in s.requests || id in s.ids then s
    else
      s.(rows := s.rows[id := Plan(name, schedule, enabled, Pending)], requests := s.requests[th := Owing(id)],
        ids := s.ids + {id})
  }

  /** The write touches no row if the plan was deleted meanwhile; syncSchedule then finds nothing. */
  function DoUpdateWrite(s: State, th: Thread, name: string, schedule: string, enabled: bool, ok: bool): State {
    if th !in s.requests || !s.requests[th].Editing? then s
    else
      var id := s.requests[th].id;
      if !ok then s.(requests := s.requests - {th})
      else
        s.(requests := s.requests[th := Owing(id)],
           rows := if id in s.rows then s.rows[id := Plan(name, schedule, enabled, Pending)] else s.rows)
  }

  function DoToggle(s: State, th: Thread, id: PlanId, enabled: bool, ok: bool): State {
    if th in s.requests || !ok || id !in s.rows then s
    else
      s.(rows := s.rows[id := s.rows[id].(enabled := enabled, state := Pending)],
        requests := s.requests[th := Toggled(id)])
  }

  /**
   When the row cannot be read back the sync is skipped: there is none to do for a plan deleted meanwhile, a
   failing read loses it.
   */
  function DoToggleRead(s: State, th: Thread, ok: bool): State {
    if th !in s.requests || !s.requests[th].Toggled? then s
    else
      var id := s.requests[th].id;
      if !ok then s.(requests := s.requests - {th}, adrift := s.adrift + {id})
      else if id !in s.rows then s.(requests := s.requests - {th})
      else s.(requests := s.requests[th := Owing(id)])
  }

  // ----- under the mutex -----

  function DoEnter(s: State, th: Thread): State {
    if s.holder != Free || th !in s.requests || !s.requests[th].Owing? then s
    else s.(holder := Entered(s.requests[th].id), requests := s.requests - {th})
  }

  function DoSelect(s: State, ok: bool): State {
    if !s.holder.Entered? then s
    else
      var id := s.holder.id;
      if !ok then s.(holder := Free, adrift := s.adrift + {id})
      else if id !in s.rows then s.(holder := Free)
      else s.(holder := Selected(id, s.rows[id]))
  }

  function DoOperate(s: State, outcome: Outcome): State {
    if !s.holder.Selected? then s
    else
      s.(holder := Called(s.holder.id, s.holder.row, outcome),
        timers := Operated(s.timers, s.holder.id, s.holder.row, outcome))
  }

  /** Nobody has changed what the row asks for since it was read, or is about to. */
  predicate StillWanted(s: State, id: PlanId, row: Plan) {
    !Owed(s.requests, id) && (id in s.rows ==> SameWish(s.rows[id], row))
  }

  /** Only the state columns are written, whatever the row has become meanwhile. */
  function DoStore(s: State, ok: bool): State {
    if !s.holder.Called? then s
    else
      var Called(id, row, outcome) := s.holder;
      if !ok then s.(holder := Free, adrift := s.adrift + {id})
      else
        s.(holder := Free,
           rows := if id in s.rows then s.rows[id := s.rows[id].(state := StateAfter(row, outcome))] else s.rows,
           adrift := if outcome.Works? && StillWanted(s, id, row) then s.adrift - {id} else s.adrift)
  }

  function DoDeleteEnter(s: State, id: PlanId, hasCopies: bool): State {
    if s.holder != Free || id !in s.rows || hasCopies then s else s.(holder := Deleting(id))
  }

  function DoDeleteRemove(s: State, outcome: Outcome): State {
    if !s.holder.Deleting? then s
    else
      var id := s.holder.id;
      if outcome.Fails? then s.(timers := PutTimer(s.timers, id, outcome.left), holder := Unremoved(id))
      else s.(timers := s.timers - {id}, holder := Removed(id))
  }

  /** pending after a removal, error after a failed one; the delete does not stop for a failing error write. */
  function DoDeleteMark(s: State, ok: bool): State {
    if !s.holder.Removed? && !s.holder.Unremoved? then s
    else
      var id := s.holder.id;
      var state := if s.holder.Removed? then Pending else Error;
      if !ok then s.(holder := Free, adrift := s.adrift + {id})
      else
        s.(rows := if id in s.rows then s.rows[id := s.rows[id].(state := state)] else s.rows,
           holder := if s.holder.Removed? then Marked(id) else Free)
  }

  function DoDeleteRow(s: State, ok: bool): State {
    if !s.holder.Marked? then s
    else s.(holder := Free, rows := if ok then s.rows - {s.holder.id} else s.rows)
  }

  function OwedIds(requests: map<Thread, Request>): set<PlanId> {
    set th | th in requests && !requests[th].Editing? :: requests[th].id
  }

  function DoCrash(s: State): State {
    State(s.rows, s.timers, map[], Free, s.ids,
      s.adrift + OwedIds(s.requests) + (if s.holder == Free then {} else {s.holder.id}))
  }

  function Next(s: State, step: Step): State {
    match step
    case Create(th, id, name, schedule, enabled) => DoCreate(s, th, id, name, schedule, enabled)
    case UpdateRead(th, id) =>
      if th in s.requests || id !in s.rows then s else s.(requests := s.requests[th := Editing(id)])
    case UpdateWrite(th, name, schedule, enabled, ok) => DoUpdateWrite(s, th, name, schedule, enabled, ok)
    case Toggle(th, id, enabled, ok) => DoToggle(s, th, id, enabled, ok)
    case ToggleRead(th, ok) => DoToggleRead(s, th, ok)
    case Enter(th) => DoEnter(s, th)
    case EnterPass(id) => if s.holder == Free then s.(holder := Entered(id)) else s
    case Select(ok) => DoSelect(s, ok)
    case Operate(outcome) => DoOperate(s, outcome)
    case Store(ok) => DoStore(s, ok)
    case DeleteEnter(id, hasCopies) => DoDeleteEnter(s, id, hasCopies)
    case DeleteRemove(outcome) => DoDeleteRemove(s, outcome)
    case DeleteMark(ok) => DoDeleteMark(s, ok)
    case DeleteRow(ok) => DoDeleteRow(s, ok)
    case Crash => DoCrash(s)
  }

  function Exec(s: State, run: seq<Step>): State
    decreases |run|
  {
    if run == [] then s else Exec(Next(s, run[0]), run[1..])
  }

  function Initial(): State {
    State(map[], map[], map[], Free, {}, {})
  }

  // ----- invariants -----

  /** An update or toggle of this plan has written its row and still owes its sync. */
  predicate Owed(requests: map<Thread, Request>, id: PlanId) {
    exists th :: th in requests && !requests[th].Editing? && requests[th].id == id
  }

  predicate OnPlan(holder: Holder, id: PlanId) {
    holder != Free && holder.id == id
  }

  /** The holder works on a row that exists; only its own delete can take it away. */
  ghost predicate HolderInv(rows: Rows, timers: Timers, holder: Holder) {
    && (holder.Selected? || holder.Called? ==> holder.id in rows)
    && (holder.Deleting? || holder.Removed? || holder.Unremoved? || holder.Marked? ==> holder.id in rows)
    && (holder.Removed? || holder.Marked? ==> holder.id !in timers)
    && (holder.Called? && holder.outcome.Works? ==> Present(timers, holder.id) == Wanted(holder.row))
  }

  /** A row whose recorded state is settled is what the node has. */
  predicate Honest(rows: Rows, timers: Timers, id: PlanId) {
    id in rows && Settled(rows[id].state) ==> Matches(rows, timers, id) && rows[id].state == StateAfter(rows[id], Works)
  }

  predicate SameWish(a: Plan, b: Plan) {
    a.(state := Pending) == b.(state := Pending)
  }

  /** What is known about one plan that nobody owes a sync. */
  ghost predicate PlanInv(rows: Rows, timers: Timers, holder: Holder, id: PlanId) {
    if !OnPlan(holder, id) then Honest(rows, timers, id)
    else
      match holder
      case Selected(_, row) => id in rows ==> SameWish(rows[id], row)
      case Called(_, row, _) => id in rows ==> SameWish(rows[id], row)
      case Marked(_) => id in rows ==> rows[id].state == Pending
      case Deleting(_) => Honest(rows, timers, id)
      case _ => true
  }

  ghost predicate Inv(s: State) {
    && NoOrphans(s.rows, s.timers)
    && s.rows.Keys <= s.ids
    && HolderInv(s.rows, s.timers, s.holder)
    && forall id :: id !in s.adrift && !Owed(s.requests, id) ==> PlanInv(s.rows, s.timers, s.holder, id)
  }

  // ----- steps -----

  /** One request may end or move; whoever else owes a sync still owes it. */
  lemma OwedWithout(requests: map<Thread, Request>, th: Thread, id: PlanId)
    requires th in requests
    ensures Owed(requests - {th}, id) ==> Owed(requests, id)
    ensures Owed(requests, id) && requests[th].id != id ==> Owed(requests - {th}, id)
    ensures Owed(requests, id) && requests[th].Editing? ==> Owed(requests - {th}, id)
  {
    var less := requests - {th};
    if Owed(less, id) {
      var o :| o in less && !less[o].Editing? && less[o].id == id;
      assert requests[o] == less[o];
    }
    if Owed(requests, id) && (requests[th].id != id || requests[th].Editing?) {
      var o :| o in requests && !requests[o].Editing? && requests[o].id == id;
      assert less[o] == requests[o];
    }
  }

  lemma OwedWith(requests: map<Thread, Request>, th: Thread, r: Request, id: PlanId)
    requires th !in requests || requests[th].Editing? || (requests[th].id == r.id && !r.Editing?)
    ensures Owed(requests[th := r], id) <==> Owed(requests, id) || (r.id == id && !r.Editing?)
  {
    var more := requests[th := r];
    if Owed(more, id) && !(r.id == id && !r.Editing?) {
      var o :| o in more && !more[o].Editing? && more[o].id == id;
      assert requests[o] == more[o];
    }
    if Owed(requests, id) {
      var o :| o in requests && !requests[o].Editing? && requests[o].id == id;
      if o != th { assert more[o] == requests[o]; } else { assert more[th] == r; }
    }
    if r.id == id && !r.Editing? { assert more[th] == r; }
  }

  lemma CreateKeeps(s: State, th: Thread, id: PlanId, name: string, schedule: string, enabled: bool)
    requires Inv(s)
    ensures Inv(DoCreate(s, th, id, name, schedule, enabled))
  {
    if th !in s.requests {
      forall other ensures Owed(s.requests[th := Owing(id)], other) <==> Owed(s.requests, other) || id == other {
        OwedWith(s.requests, th, Owing(id), other);
      }
    }
  }

  lemma UpdateReadKeeps(s: State, th: Thread, id: PlanId)
    requires Inv(s)
    ensures Inv(Next(s, UpdateRead(th, id)))
  {
    if th !in s.requests {
      forall other ensures Owed(s.requests[th := Editing(id)], other) <==> Owed(s.requests, other) {
        OwedWith(s.requests, th, Editing(id), other);
      }
    }
  }

  lemma UpdateWriteKeeps(s: State, th: Thread, name: string, schedule: string, enabled: bool, ok: bool)
    requires Inv(s)
    ensures Inv(DoUpdateWrite(s, th, name, schedule, enabled, ok))
  {
    if th in s.requests && s.requests[th].Editing? {
      var id := s.requests[th].id;
      forall other ensures Owed(s.requests[th := Owing(id)], other) <==> Owed(s.requests, other) || id == other {
        OwedWith(s.requests, th, Owing(id), other);
      }
      forall other ensures Owed(s.requests - {th}, other) <==> Owed(s.requests, other) {
        OwedWithout(s.requests, th, other);
      }
    }
  }

  lemma ToggleKeeps(s: State, th: Thread, id: PlanId, enabled: bool, ok: bool)
    requires Inv(s)
    ensures Inv(DoToggle(s, th, id, enabled, ok))
  {
    if th !in s.requests {
      forall other ensures Owed(s.requests[th := Toggled(id)], other) <==> Owed(s.requests, other) || id == other {
        OwedWith(s.requests, th, Toggled(id), other);
      }
    }
  }

  lemma ToggleReadKeeps(s: State, th: Thread, ok: bool)
    requires Inv(s)
    ensures Inv(DoToggleRead(s, th, ok))
  {
    if th in s.requests && s.requests[th].Toggled? {
      var id := s.requests[th].id;
      forall other ensures Owed(s.requests[th := Owing(id)], other) <==> Owed(s.requests, other) || id == other {
        OwedWith(s.requests, th, Owing(id), other);
      }
      forall other
        ensures (Owed(s.requests - {th}, other) ==> Owed(s.requests, other))
                && (Owed(s.requests, other) && other != id ==> Owed(s.requests - {th}, other))
      {
        OwedWithout(s.requests, th, other);
      }
      assert Owed(s.requests, id);
    }
  }

  lemma EnterKeeps(s: State, th: Thread)
    requires Inv(s)
    ensures Inv(DoEnter(s, th))
  {
    if th in s.requests {
      forall other
        ensures (Owed(s.requests - {th}, other) ==> Owed(s.requests, other))
                && (Owed(s.requests, other) && other != s.requests[th].id ==> Owed(s.requests - {th}, other))
      {
        OwedWithout(s.requests, th, other);
      }
    }
  }

  lemma SyncKeeps(s: State, step: Step)
    requires Inv(s) && (step.EnterPass? || step.Select? || step.Operate?)
    ensures Inv(Next(s, step))
  {
  }

  lemma StoreKeeps(s: State, ok: bool)
    requires Inv(s)
    ensures Inv(DoStore(s, ok))
  {
  }

  lemma DeleteKeeps(s: State, step: Step)
    requires Inv(s) && (step.DeleteEnter? || step.DeleteRemove? || step.DeleteMark? || step.DeleteRow?)
    ensures Inv(Next(s, step))
  {
  }

  lemma CrashKeeps(s: State)
    requires Inv(s)
    ensures Inv(DoCrash(s))
  {
  }

  lemma StepKeepsInv(s: State, step: Step)
    requires Inv(s)
    ensures Inv(Next(s, step))
  {
    match step
    case Create(th, id, name, schedule, enabled) => CreateKeeps(s, th, id, name, schedule, enabled);
    case UpdateRead(th, id) => UpdateReadKeeps(s, th, id);
    case UpdateWrite(th, name, schedule, enabled, ok) => UpdateWriteKeeps(s, th, name, schedule, enabled, ok);
    case Toggle(th, id, enabled, ok) => ToggleKeeps(s, th, id, enabled, ok);
    case ToggleRead(th, ok) => ToggleReadKeeps(s, th, ok);
    case Enter(th) => EnterKeeps(s, th);
    case Store(ok) => StoreKeeps(s, ok);
    case DeleteEnter(_, _) => DeleteKeeps(s, step);
    case DeleteRemove(_) => DeleteKeeps(s, step);
    case DeleteMark(_) => DeleteKeeps(s, step);
    case DeleteRow(_) => DeleteKeeps(s, step);
    case Crash => CrashKeeps(s);
    case _ => SyncKeeps(s, step);
  }

  lemma {:induction false} ExecKeepsInv(s: State, run: seq<Step>)
    requires Inv(s)
    ensures Inv(Exec(s, run))
    decreases |run|
  {
    if run != [] {
      StepKeepsInv(s, run[0]);
      ExecKeepsInv(Next(s, run[0]), run[1..]);
    }
  }

  /** A timer on the node always belongs to a plan that exists, whatever interleaves, fails or crashes. */
  lemma NoOrphanTimers(run: seq<Step>, id: PlanId)
    requires id in Exec(Initial(), run).timers
    ensures id in Exec(Initial(), run).rows
  {
    ExecKeepsInv(Initial(), run);
  }

  /** A row that says installed or disabled is what the node has, unless its sync is owed, running or was lost. */
  lemma SettledRowsAreTrue(run: seq<Step>, id: PlanId)
    requires
      var s := Exec(Initial(), run);
      id in s.rows && Settled(s.rows[id].state) && id !in s.adrift && !Owed(s.requests, id) && !OnPlan(s.holder, id)
    ensures
      var s := Exec(Initial(), run);
      && Present(s.timers, id) == Wanted(s.rows[id])
      && (s.rows[id].state == Installed <==> s.rows[id].enabled)
  {
    ExecKeepsInv(Initial(), run);
  }

  // ----- what puts a plan adrift -----

  /**
   This step loses the sync of this plan, or the record of it: one of four calls to the database fails, or the
   process ends meanwhile.
   */
  predicate Loses(s: State, step: Step, id: PlanId) {
    match step
    case ToggleRead(th, ok) => !ok && th in s.requests && s.requests[th] == Toggled(id)
    case Select(ok) => !ok && s.holder == Entered(id)
    case Store(ok) => !ok && s.holder.Called? && s.holder.id == id
    case DeleteMark(ok) => !ok && (s.holder == Removed(id) || s.holder == Unremoved(id))
    case Crash => Owed(s.requests, id) || OnPlan(s.holder, id)
    case _ => false
  }

  predicate NeverLoses(s: State, run: seq<Step>, id: PlanId)
    decreases |run|
  {
    run == [] || (!Loses(s, run[0], id) && NeverLoses(Next(s, run[0]), run[1..], id))
  }

  /** A plan goes adrift only in these ways. */
  lemma OnlyLossesSetAdrift(s: State, step: Step, id: PlanId)
    requires id in Next(s, step).adrift
    ensures id in s.adrift || Loses(s, step, id)
  {
  }

  lemma {:induction false} NothingLostNothingAdrift(s: State, run: seq<Step>, id: PlanId)
    requires id !in s.adrift && NeverLoses(s, run, id)
    ensures id !in Exec(s, run).adrift
    decreases |run|
  {
    if run != [] {
      if id in Next(s, run[0]).adrift { OnlyLossesSetAdrift(s, run[0], id); }
      NothingLostNothingAdrift(Next(s, run[0]), run[1..], id);
    }
  }

  /**
   In a run that loses no sync of this plan, its row, once settled, is what the node has whenever nobody owes
   or runs its sync.
   */
  lemma SettledRowsWithoutLoss(run: seq<Step>, id: PlanId)
    requires NeverLoses(Initial(), run, id)
    requires
      var s := Exec(Initial(), run);
      id in s.rows && Settled(s.rows[id].state) && !Owed(s.requests, id) && !OnPlan(s.holder, id)
    ensures
      var s := Exec(Initial(), run);
      && Present(s.timers, id) == Wanted(s.rows[id])
      && (s.rows[id].state == Installed <==> s.rows[id].enabled)
  {
    NothingLostNothingAdrift(Initial(), run, id);
    SettledRowsAreTrue(run, id);
  }

  // ----- what a request leaves -----

  /** What the node holds once a row with these values has been synced. */
  function TimersFor(timers: Timers, id: PlanId, name: string, schedule: string, enabled: bool): Timers {
    if enabled then timers[id := Timer(name, schedule)] else timers - {id}
  }

  function SettledState(enabled: bool): ScheduleState {
    if enabled then Installed else Disabled
  }

  /** The sync a request owes, uninterrupted and with its own statements succeeding. */
  function OwedSync(th: Thread): seq<Step> {
    [Enter(th), Select(true)] + [Operate(Works), Store(true)]
  }

  /** It leaves the plan's timer as its row asks, records that, and touches no other plan. */
  lemma OwedSyncRuns(s: State, th: Thread, id: PlanId)
    requires s.holder == Free && th in s.requests && s.requests[th] == Owing(id) && id in s.rows
    ensures
      var row := s.rows[id];
      var s' := Exec(s, OwedSync(th));
      && s'.rows == s.rows[id := row.(state := SettledState(row.enabled))]
      && s'.timers == TimersFor(s.timers, id, row.name, row.schedule, row.enabled)
      && s'.holder == Free && s'.requests == s.requests - {th}
      && (!Owed(s.requests - {th}, id) ==> s'.adrift == s.adrift - {id})
  {
    ExecConcat(s, [Enter(th), Select(true)], [Operate(Works), Store(true)]);
    ExecTwo(s, Enter(th), Select(true));
    ExecTwo(Next(Next(s, Enter(th)), Select(true)), Operate(Works), Store(true));
  }

  /**
   A statement that fails ends its call: the mutex is free, or the request answered, and the plan is
   marked as not known to agree; rows and timers stay.
   */
  lemma FailedStatementEndsTheCall(s: State, step: Step)
    requires
      match step
      case Select(ok) => !ok && s.holder.Entered?
      case Store(ok) => !ok && s.holder.Called?
      case DeleteMark(ok) => !ok && (s.holder.Removed? || s.holder.Unremoved?)
      case _ => false
    ensures Next(s, step) == s.(holder := Free, adrift := s.adrift + {s.holder.id})
  {
  }

  /** A toggle whose row cannot be read back is answered, and leaves the toggled row for the next pass. */
  lemma UnreadToggleIsAnswered(s: State, th: Thread, id: PlanId, enabled: bool)
    requires th !in s.requests && id in s.rows
    ensures
      var s' := Next(Next(s, Toggle(th, id, enabled, true)), ToggleRead(th, false));
      && s'.rows == s.rows[id := s.rows[id].(enabled := enabled, state := Pending)] && s'.timers == s.timers
      && s'.requests == s.requests && s'.holder == s.holder && s'.adrift == s.adrift + {id}
  {
    assert s.requests[th := Toggled(id)] - {th} == s.requests;
  }

  /** A new plan is stored as asked, pending. */
  lemma CreateStores(s: State, th: Thread, id: PlanId, name: string, schedule: string, enabled: bool)
    requires th !in s.requests && id !in s.ids
    ensures
      var s' := Next(s, Create(th, id, name, schedule, enabled));
      s'.rows == s.rows[id := Plan(name, schedule, enabled, Pending)] && s'.requests == s.requests[th := Owing(id)]
      && s'.timers == s.timers
  {
  }

  /** An update stores what was asked, pending, whatever the row was. */
  lemma UpdateStores(s: State, th: Thread, id: PlanId, name: string, schedule: string, enabled: bool)
    requires th !in s.requests && id in s.rows
    ensures
      var s' := Next(Next(s, UpdateRead(th, id)), UpdateWrite(th, name, schedule, enabled, true));
      s'.rows == s.rows[id := Plan(name, schedule, enabled, Pending)] && s'.requests == s.requests[th := Owing(id)]
      && s'.timers == s.timers
  {
  }

  /** A toggle stores the flag, pending, and keeps name and schedule. */
  lemma ToggleStores(s: State, th: Thread, id: PlanId, enabled: bool)
    requires th !in s.requests && id in s.rows
    ensures
      var s' := Next(Next(s, Toggle(th, id, enabled, true)), ToggleRead(th, true));
      s'.rows == s.rows[id := Plan(s.rows[id].name, s.rows[id].schedule, enabled, Pending)]
      && s'.requests == s.requests[th := Owing(id)] && s'.timers == s.timers
  {
  }

  /**
   The plan is as asked for and recorded as installed or disabled, its timer is there exactly when it is
   enabled, and nothing else changed.
   */
  ghost predicate LeftAsAsked(s: State, s': State, id: PlanId, name: string, schedule: string, enabled: bool) {
    && s'.rows == s.rows[id := Plan(name, schedule, enabled, SettledState(enabled))]
    && s'.timers == TimersFor(s.timers, id, name, schedule, enabled)
    && s'.holder == Free && s'.requests == s.requests
  }

  lemma SyncLeavesAsAsked(s: State, written: State, th: Thread, id: PlanId, name: string, schedule: string,
                          enabled: bool)
    requires s.holder == Free && th !in s.requests
    requires written.rows == s.rows[id := Plan(name, schedule, enabled, Pending)] && written.timers == s.timers
    requires written.requests == s.requests[th := Owing(id)] && written.holder == Free
    ensures LeftAsAsked(s, Exec(written, OwedSync(th)), id, name, schedule, enabled)
  {
    OwedSyncRuns(written, th, id);
    assert written.rows[id := Plan(name, schedule, enabled, SettledState(enabled))]
        == s.rows[id := Plan(name, schedule, enabled, SettledState(enabled))];
    assert s.requests[th := Owing(id)] - {th} == s.requests;
  }

  /** An update that is not interrupted leaves the requested plan on the node and in its row. */
  lemma UpdateLeavesAsAsked(s: State, th: Thread, id: PlanId, name: string, schedule: string, enabled: bool)
    requires s.holder == Free && th !in s.requests && id in s.rows
    ensures LeftAsAsked(s, Exec(s, [UpdateRead(th, id), UpdateWrite(th, name, schedule, enabled, true)] + OwedSync(th)),
              id, name, schedule, enabled)
  {
    var write := [UpdateRead(th, id), UpdateWrite(th, name, schedule, enabled, true)];
    ExecConcat(s, write, OwedSync(th));
    ExecTwo(s, UpdateRead(th, id), UpdateWrite(th, name, schedule, enabled, true));
    UpdateStores(s, th, id, name, schedule, enabled);
    SyncLeavesAsAsked(s, Exec(s, write), th, id, name, schedule, enabled);
  }

  /** So does the creation of a plan. */
  lemma CreateLeavesAsAsked(s: State, th: Thread, id: PlanId, name: string, schedule: string, enabled: bool)
    requires s.holder == Free && th !in s.requests && id !in s.ids
    ensures LeftAsAsked(s, Exec(s, [Create(th, id, name, schedule, enabled)] + OwedSync(th)), id, name, schedule,
            enabled)
  {
    ExecConcat(s, [Create(th, id, name, schedule, enabled)], OwedSync(th));
    ExecOne(s, Create(th, id, name, schedule, enabled));
    CreateStores(s, th, id, name, schedule, enabled);
    SyncLeavesAsAsked(s, Next(s, Create(th, id, name, schedule, enabled)), th, id, name, schedule, enabled);
  }

  /** And a toggle, with the plan's own name and schedule. */
  lemma ToggleLeavesAsAsked(s: State, th: Thread, id: PlanId, enabled: bool)
    requires s.holder == Free && th !in s.requests && id in s.rows
    ensures LeftAsAsked(s, Exec(s, [Toggle(th, id, enabled, true), ToggleRead(th, true)] + OwedSync(th)),
              id, s.rows[id].name, s.rows[id].schedule, enabled)
  {
    var write := [Toggle(th, id, enabled, true), ToggleRead(th, true)];
    ExecConcat(s, write, OwedSync(th));
    ExecTwo(s, Toggle(th, id, enabled, true), ToggleRead(th, true));
    ToggleStores(s, th, id, enabled);
    SyncLeavesAsAsked(s, Exec(s, write), th, id, s.rows[id].name, s.rows[id].schedule, enabled);
  }

  /**
   A deletion that is not interrupted takes the plan and its timer away and touches no other plan; one with
   copies does nothing.
   */
  lemma DeleteRemovesPlan(s: State, id: PlanId)
    requires s.holder == Free && id in s.rows
    ensures
      var s' := Exec(s, [DeleteEnter(id, false), DeleteRemove(Works)] + [DeleteMark(true), DeleteRow(true)]);
      s'.rows == s.rows - {id} && s'.timers == s.timers - {id} && s'.holder == Free && s'.requests == s.requests
    ensures Next(s, DeleteEnter(id, true)) == s
  {
    var removed := Next(Next(s, DeleteEnter(id, false)), DeleteRemove(Works));
    ExecConcat(s, [DeleteEnter(id, false), DeleteRemove(Works)], [DeleteMark(true), DeleteRow(true)]);
    ExecTwo(s, DeleteEnter(id, false), DeleteRemove(Works));
    ExecTwo(removed, DeleteMark(true), DeleteRow(true));
  }

  // ----- a pass, step by step -----

  /** One syncSchedule of a pass, uninterrupted and with its own statements succeeding. */
  function SyncRun(id: PlanId, outcome: Outcome): seq<Step> {
    [EnterPass(id), Select(true)] + [Operate(outcome), Store(true)]
  }

  function WorldOf(s: State): World {
    World(s.rows, s.timers)
  }

  lemma SyncIsFourSteps(s: State, id: PlanId, outcome: Outcome)
    requires s.holder == Free
    ensures
      var s' := Exec(s, SyncRun(id, outcome));
      WorldOf(s') == Synced(WorldOf(s), id, outcome) && s'.holder == Free && s'.requests == s.requests
  {
    var middle := Next(Next(s, EnterPass(id)), Select(true));
    ExecConcat(s, [EnterPass(id), Select(true)], [Operate(outcome), Store(true)]);
    ExecTwo(s, EnterPass(id), Select(true));
    ExecTwo(middle, Operate(outcome), Store(true));
  }

  function PassRun(ids: seq<PlanId>, outcomes: seq<Outcome>): seq<Step>
    requires |outcomes| == |ids|
    decreases |ids|
  {
    if ids == [] then [] else SyncRun(ids[0], outcomes[0]) + PassRun(ids[1..], outcomes[1..])
  }

  lemma {:induction false} PassIsItsSteps(s: State, ids: seq<PlanId>, outcomes: seq<Outcome>)
    requires |outcomes| == |ids| && s.holder == Free
    ensures
      var s' := Exec(s, PassRun(ids, outcomes));
      WorldOf(s') == Pass(WorldOf(s), ids, outcomes) && s'.holder == Free && s'.requests == s.requests
    decreases |ids|
  {
    if ids != [] {
      SyncIsFourSteps(s, ids[0], outcomes[0]);
      ExecConcat(s, SyncRun(ids[0], outcomes[0]), PassRun(ids[1..], outcomes[1..]));
      PassIsItsSteps(Exec(s, SyncRun(ids[0], outcomes[0])), ids[1..], outcomes[1..]);
    }
  }

  /**
   From any reachable state with the mutex free, a forced pass that is not interrupted
   and whose calls succeed reaches agreement with no timer left over, and doing it again changes nothing.
   */
  lemma ForcedPassHeals(run: seq<Step>, ids: seq<PlanId>, outcomes: seq<Outcome>)
    requires
      var s := Exec(Initial(), run);
      s.holder == Free && |outcomes| == |ids| && Selects(s.rows, true, ids) && AllWork(outcomes)
    ensures
      var s' := Exec(Initial(), run + PassRun(ids, outcomes));
      && Agreement(s'.rows, s'.timers) && NoOrphans(s'.rows, s'.timers)
      && WorldOf(Exec(s', PassRun(ids, outcomes))) == WorldOf(s')
  {
    ExecKeepsInv(Initial(), run);
    var s := Exec(Initial(), run);
    ExecConcat(Initial(), run, PassRun(ids, outcomes));
    PassIsItsSteps(s, ids, outcomes);
    ForcedPassAgrees(WorldOf(s), ids, outcomes);
    PassIsIdentity(Pass(WorldOf(s), ids, outcomes), ids, outcomes);
    PassIsItsSteps(Exec(s, PassRun(ids, outcomes)), ids, outcomes);
  }

  lemma {:induction false} ExecConcat(s: State, a: seq<Step>, b: seq<Step>)
    ensures Exec(s, a + b) == Exec(Exec(s, a), b)
    decreases |a|
  {
    if a == [] {
      assert a + b == b;
    } else {
      assert (a + b)[1..] == a[1..] + b;
      ExecConcat(Next(s, a[0]), a[1..], b);
    }
  }

  lemma ExecOne(s: State, one: Step)
    ensures Exec(s, [one]) == Next(s, one)
  {
  }

  lemma ExecTwo(s: State, one: Step, two: Step)
    ensures Exec(s, [one, two]) == Next(Next(s, one), two)
  {
    assert [one, two] == [one] + [two];
    ExecConcat(s, [one], [two]);
    ExecOne(s, one);
    ExecOne(Next(s, one), two);
  }

  /**
   From any reachable state with the mutex free in which no settled row's sync is owed
   or was lost, a retry pass that is not interrupted and whose calls succeed reaches agreement.
   */
  lemma RetryPassHeals(run: seq<Step>, ids: seq<PlanId>, outcomes: seq<Outcome>)
    requires
      var s := Exec(Initial(), run);
      && s.holder == Free && |outcomes| == |ids| && Selects(s.rows, false, ids) && AllWork(outcomes)
      && forall id :: id in s.rows && Settled(s.rows[id].state) ==> id !in s.adrift && !Owed(s.requests, id)
    ensures
      var s' := Exec(Initial(), run + PassRun(ids, outcomes));
      Agreement(s'.rows, s'.timers) && NoOrphans(s'.rows, s'.timers)
  {
    var s := Exec(Initial(), run);
    forall id | id in s.rows && Settled(s.rows[id].state)
      ensures Matches(s.rows, s.timers, id) && s.rows[id].state == StateAfter(s.rows[id], Works)
    {
      SettledRowsAreTrue(run, id);
    }
    ExecConcat(Initial(), run, PassRun(ids, outcomes));
    PassIsItsSteps(s, ids, outcomes);
    RetryPassAgreesIff(WorldOf(s), ids, outcomes);
    NoOrphansAfter(run + PassRun(ids, outcomes));
  }

  lemma NoOrphansAfter(run: seq<Step>)
    ensures NoOrphans(Exec(Initial(), run).rows, Exec(Initial(), run).timers)
  {
    ExecKeepsInv(Initial(), run);
  }

  const NIGHTLY := Plan("nightly", "0 3 * * *", true, Pending)
  const NIGHTLY_TIMER := Timer(NIGHTLY.name, NIGHTLY.schedule)

  lemma WindowOpens()
    ensures Exec(Initial(),
            [Create(0, 7, NIGHTLY.name, NIGHTLY.schedule, true), Enter(0)] + [Select(true), Operate(Works)])
            == State(map[7 := NIGHTLY], map[7 := NIGHTLY_TIMER], map[], Called(7, NIGHTLY, Works), {7}, {})
  {
    var s2 := State(map[7 := NIGHTLY], map[], map[], Entered(7), {7}, {});
    ExecConcat(Initial(), [Create(0, 7, NIGHTLY.name, NIGHTLY.schedule, true), Enter(0)],
      [Select(true), Operate(Works)]);
    ExecTwo(Initial(), Create(0, 7, NIGHTLY.name, NIGHTLY.schedule, true), Enter(0));
    assert map[0 := Owing(7)] - {0} == map[];
    ExecTwo(s2, Select(true), Operate(Works));
  }

  const OFF_PLAN := Plan(NIGHTLY.name, NIGHTLY.schedule, false, Installed)

  /** The toggle writes before the sync stores what it did for the row as it was. */
  lemma WindowIsUsed(s: State)
    requires s == State(map[7 := NIGHTLY], map[7 := NIGHTLY_TIMER], map[], Called(7, NIGHTLY, Works), {7}, {})
    ensures Exec(s, [Toggle(1, 7, false, true), Store(true)])
            == State(map[7 := OFF_PLAN], s.timers, map[1 := Toggled(7)], Free, {7}, {})
  {
  }

  lemma CrashForgets(s: State)
    requires s.requests == map[1 := Toggled(7)] && s.holder == Free && s.adrift == {}
    ensures Exec(s, [Crash]) == State(s.rows, s.timers, map[], Free, s.ids, {7})
  {
    assert s.requests[1].id == 7;
    assert OwedIds(s.requests) == {7};
    ExecOne(s, Crash);
  }

  /**
   A retry pass need not repair: a toggle that writes while a sync stores its
   result, followed by a crash, leaves "installed" on a disabled plan, and a
   retry pass does not select it.
   */
  lemma RetryPassMayMiss() returns (run: seq<Step>, end: State, id: PlanId)
    ensures end == Exec(Initial(), run) && Missed(end, id)
  {
    WindowOpens();
    var open := [Create(0, 7, NIGHTLY.name, NIGHTLY.schedule, true), Enter(0)] + [Select(true), Operate(Works)];
    var used := [Toggle(1, 7, false, true), Store(true)];
    var s := Exec(Initial(), open);
    WindowIsUsed(s);
    CrashForgets(Exec(s, used));
    ExecConcat(Initial(), open, used);
    ExecConcat(Initial(), open + used, [Crash]);
    run, id := open + used + [Crash], 7;
    OffPlanIsMissed();
    end := Exec(Initial(), run);
    assert end == State(map[7 := OFF_PLAN], map[7 := NIGHTLY_TIMER], map[], Free, {7}, {7});
    assert Missed(end, id);
  }

  lemma OffPlanIsMissed()
    ensures Missed(State(map[7 := OFF_PLAN], map[7 := NIGHTLY_TIMER], map[], Free, {7}, {7}), 7)
  {
  }

  /** At rest, the retry pass selects nothing, and yet this plan's timer is wrong. */
  ghost predicate Missed(s: State, id: PlanId) {
    s.requests == map[] && s.holder == Free && Selects(s.rows, false, []) && id in s.rows
      && !Matches(s.rows, s.timers, id)
  }
}
