/** The promises of the safeguard, over every run. */
module SafeguardTheorems {
  import opened Wrappers
  import opened SafeguardMachine
  import opened SafeguardInvariants
  import opened SafeguardCoverage
  import opened SafeguardOnce

  ghost function Reached(window: nat, clock: int, run: seq<Step>): State {
    Exec(Initial(window, clock), run)
  }

  lemma ReachedInv(window: nat, clock: int, run: seq<Step>)
    ensures Inv(Reached(window, clock, run)) && OnceInv(Reached(window, clock, run))
  {
    InitialInv(window, clock);
    ExecKeepsInv(Initial(window, clock), run);
    ExecKeepsOnce(Initial(window, clock), run);
  }

  // ----- what each kind of step leaves alone -----

  predicate ByArmOrStart(step: Step) {
    step.Tick? || step.Register? || step.ArmBegin? || step.ArmInsert? || step.ReadDelay? || step.EnterSchedule?
      || step.StartBegin? || step.StartSelect?
  }

  predicate ByConfirm(step: Step) {
    step.ConfirmLoad? || step.ConfirmUpdate? || step.ConfirmUnlink? || step.ConfirmStop? || step.ConfirmRelease?
  }

  predicate ByFireStart(step: Step) {
    step.Expire? || step.FireUnlink? || step.FireLoad? || step.FireLookup?
  }

  predicate ByFire(step: Step) {
    ByFireStart(step) || step.FireCall? || step.FireReturn? || step.FireFinish? || step.FireLeave?
  }

  ghost predicate SameProcess(s: State, s': State) {
    s'.epoch == s.epoch && s'.closing == s.closing && s.stranded <= s'.stranded
  }

  lemma ArmFrame(s: State, step: Step)
    requires ByArmOrStart(step)
    ensures
      var s' := Next(s, step);
      && SameProcess(s, s') && s'.log == s.log
      && (!step.ArmInsert? ==> s'.rows == s.rows && s'.armedHere == s.armedHere)
      && (!step.StartSelect? ==> s'.overlapped == s.overlapped)
      && (s.boot == Reconciled ==> s'.boot == Reconciled)
  {
    match step
    case StartSelect(th, dues, ok) => StartSelectFrame(s, th, dues, ok);
    case _ =>
  }

  lemma StartSelectFrame(s: State, th: Thread, dues: seq<Due>, ok: bool)
    ensures
      var s' := DoStartSelect(s, th, dues, ok);
      && SameProcess(s, s') && s'.log == s.log && s'.rows == s.rows && s'.armedHere == s.armedHere
      && (s.boot == Reconciled ==> s'.boot == Reconciled)
  {
  }

  lemma ConfirmFrame(s: State, step: Step)
    requires ByConfirm(step)
    ensures
      var s' := Next(s, step);
      && SameProcess(s, s') && s'.log == s.log && s'.armedHere == s.armedHere && s'.overlapped == s.overlapped
         && s'.boot == s.boot
      && (!step.ConfirmUpdate? ==> s'.rows == s.rows)
  {
  }

  /** fire, up to its call, changes nothing but its ticket, the map, and the record of failures. */
  predicate FireStarts(s: State, s': State) {
    s' == s.(mem := s'.mem, stranded := s'.stranded) && s.stranded <= s'.stranded
  }

  lemma FireStartChanges(s: State, t: TicketId, ok: bool)
    ensures FireStarts(s, DoExpire(s, t)) && FireStarts(s, DoFireUnlink(s, t)) && FireStarts(s, DoFireLoad(s, t, ok))
            && FireStarts(s, DoFireLookup(s, t))
  {
  }

  lemma FireStartFrame(s: State, step: Step)
    requires ByFireStart(step)
    ensures
      var s' := Next(s, step);
      && SameProcess(s, s') && s'.armedHere == s.armedHere && s'.overlapped == s.overlapped && s'.boot == s.boot
      && s'.log == s.log && s'.rows == s.rows
  {
    FireStartChanges(s, step.ticket, if step.FireLoad? then step.ok else true);
    assert FireStarts(s, Next(s, step));
  }

  /** fire, from its call on, changes nothing but its ticket, the log, the row, and the record of failures. */
  predicate FireEnds(s: State, s': State) {
    s' == s.(mem := s'.mem, stranded := s'.stranded, log := s'.log, rows := s'.rows) && s.stranded <= s'.stranded
  }

  lemma CallChanges(s: State, t: TicketId, failed: bool, job: int)
    ensures FireEnds(s, DoFireCall(s, t)) && DoFireCall(s, t).rows == s.rows
    ensures FireStarts(s, DoFireReturn(s, t, failed, job))
  {
  }

  lemma FinishChanges(s: State, t: TicketId, ok: bool)
    ensures FireEnds(s, DoFireFinish(s, t, ok)) && DoFireFinish(s, t, ok).log == s.log
    ensures FireStarts(s, DoFireLeave(s, t))
  {
  }

  lemma FireFrame(s: State, step: Step)
    requires ByFire(step)
    ensures
      var s' := Next(s, step);
      && SameProcess(s, s') && s'.armedHere == s.armedHere && s'.overlapped == s.overlapped && s'.boot == s.boot
      && (!step.FireCall? ==> s'.log == s.log) && (!step.FireFinish? ==> s'.rows == s.rows)
  {
    if ByFireStart(step) {
      FireStartFrame(s, step);
    } else if step.FireCall? || step.FireReturn? {
      CallFrame(s, step);
    } else {
      FinishFrame(s, step);
    }
  }

  lemma CallFrame(s: State, step: Step)
    requires step.FireCall? || step.FireReturn?
    ensures FireEnds(s, Next(s, step)) && Next(s, step).rows == s.rows
            && (step.FireReturn? ==> Next(s, step).log == s.log)
  {
    match step
    case FireCall(t) => CallChanges(s, t, true, 0);
    case FireReturn(t, failed, job) => CallChanges(s, t, failed, job);
  }

  lemma FinishFrame(s: State, step: Step)
    requires step.FireFinish? || step.FireLeave?
    ensures FireEnds(s, Next(s, step)) && Next(s, step).log == s.log
            && (step.FireLeave? ==> Next(s, step).rows == s.rows)
  {
    match step
    case FireFinish(t, ok) => FinishChanges(s, t, ok);
    case FireLeave(t) => FinishChanges(s, t, true);
  }

  lemma CloseFrame(s: State, step: Step)
    requires !ByArmOrStart(step) && !ByConfirm(step) && !ByFire(step)
    ensures
      var s' := Next(s, step);
      && s'.rows == s.rows && s'.log == s.log && s'.overlapped == s.overlapped
      && (step != Crash ==> s'.epoch == s.epoch && s'.stranded == s.stranded)
      && (step != Crash ==> s'.armedHere == s.armedHere && s'.boot == s.boot)
      && (step != Crash && s.closing == Closed ==> s'.closing == Closed)
  {
    if step != Crash { CloseChanges(s, step); }
  }

  /** Close changes nothing but the guard's memory and how far it has come itself. */
  lemma CloseChanges(s: State, step: Step)
    requires step == CloseLock || step.CloseRelease? || step == CloseCancel || step == CloseReturn
    ensures
      var s' := Next(s, step);
      s' == s.(mem := s'.mem, closing := s'.closing) && (s.closing == Closed ==> s'.closing == Closed)
  {
  }

  /** What each step leaves alone, in one place. */
  lemma StepFrame(s: State, step: Step)
    ensures
      var s' := Next(s, step);
      && (!step.FireCall? ==> s'.log == s.log)
      && (!step.ArmInsert? && !step.ConfirmUpdate? && !step.FireFinish? ==> s'.rows == s.rows)
      && (!step.StartSelect? ==> s'.overlapped == s.overlapped)
      && (!step.ArmInsert? && step != Crash ==> s'.armedHere == s.armedHere)
      && (step != Crash ==> s'.epoch == s.epoch && s.stranded <= s'.stranded)
      && (step != Crash && s.boot == Reconciled ==> s'.boot == Reconciled)
      && (step != Crash && s.closing == Closed ==> s'.closing == Closed)
  {
    if ByArmOrStart(step) {
      ArmFrame(s, step);
    } else if ByConfirm(step) {
      ConfirmFrame(s, step);
    } else if ByFire(step) {
      FireFrame(s, step);
    } else {
      CloseFrame(s, step);
    }
  }

  // ----- the WaitGroup -----

  ghost function Counting(m: Memory): set<TicketId> { set t | t in m.tickets && m.tickets[t].phase.Pending? }
  ghost function Bodies(m: Memory): set<TicketId> { set t | t in m.tickets && m.tickets[t].phase.Firing? }
  ghost function Stopped(m: Memory): set<TicketId> { set t | t in m.tickets && m.tickets[t].phase.StopOwed? }

  lemma LiveSplits(m: Memory)
    ensures |Live(m)| == |Counting(m)| + |Bodies(m)| + |Stopped(m)|
  {
    assert Live(m) == Counting(m) + Bodies(m) + Stopped(m);
  }

  /** The counter is pending timers plus running bodies plus stopped timers whose Done is owed. */
  lemma WaitGroupBalance(window: nat, clock: int, run: seq<Step>)
    ensures
      var m := Reached(window, clock, run).mem;
      m.running == |Counting(m)| + |Bodies(m)| + |Stopped(m)|
  {
    ReachedInv(window, clock, run);
    LiveSplits(Reached(window, clock, run).mem);
  }

  /** schedule, the only caller of Add, adds nothing once Close has taken the mutex. */
  lemma NoAddAfterClose(s: State, th: Thread, t: TicketId)
    requires Inv(s) && s.closing != Open
    ensures Next(s, EnterSchedule(th, t)).mem == s.mem
  {
  }

  lemma OnlyFireCallExecutes(s: State, step: Step)
    requires !step.FireCall?
    ensures Next(s, step).log == s.log
  {
    StepFrame(s, step);
  }

  lemma OnlyCrashReopens(s: State, step: Step)
    requires s.closing == Closed && step != Crash
    ensures Next(s, step).closing == Closed
  {
    StepFrame(s, step);
  }

  lemma ClosedIsIdle(s: State)
    requires Inv(s) && s.closing == Closed
    ensures forall t :: t in s.mem.tickets ==> s.mem.tickets[t].phase == Retired
  {
    assert Live(s.mem) == {};
    forall t | t in s.mem.tickets ensures s.mem.tickets[t].phase == Retired {
      assert t !in Live(s.mem);
    }
  }

  /** After Close returned no executor is running and none will ever start in this process. */
  lemma {:induction false} NothingRunsAfterClose(s: State, run: seq<Step>)
    requires Inv(s) && s.closing == Closed && Crash !in run
    ensures Exec(s, run).log == s.log && Bodies(Exec(s, run).mem) == {} && Counting(Exec(s, run).mem) == {}
    decreases |run|
  {
    ClosedIsIdle(s);
    if run != [] {
      if !run[0].FireCall? { OnlyFireCallExecutes(s, run[0]); }
      OnlyCrashReopens(s, run[0]);
      StepKeepsInv(s, run[0]);
      NothingRunsAfterClose(Next(s, run[0]), run[1..]);
    }
  }

  // ----- never lost, never early -----

  /** A timer is counting down for this revert, its fire has not ended, or a call is about to schedule it. */
  ghost predicate Watched(s: State, id: Id) {
    || (exists t :: t in s.mem.tickets && s.mem.tickets[t].id == id && s.mem.tickets[t].phase == Pending)
    || (exists t ::
        t in s.mem.tickets && s.mem.tickets[t].id == id && s.mem.tickets[t].phase.Firing?
          && !s.mem.tickets[t].phase.pc.Leave?)
    || (exists th, d :: th in s.scheduling && d in s.scheduling[th].dues && d.id == id)
  }

  /** This revert is armed, and this process has read the table or armed it itself. */
  predicate Entrusted(s: State, id: Id) {
    s.closing == Open && IsArmed(s, id) && (s.boot == Reconciled || id in s.armedHere)
  }

  /**
   In an open guard every armed revert it knows is watched, unless a failing SQL
   call of this process is on record for it.
   */
  lemma NoRevertIsLost(window: nat, clock: int, run: seq<Step>, id: Id)
    requires Entrusted(Reached(window, clock, run), id) && id !in Reached(window, clock, run).stranded
    ensures Watched(Reached(window, clock, run), id)
  {
    ReachedInv(window, clock, run);
    var s := Reached(window, clock, run);
    if Handled(s.mem, id) {
      var t :| t in s.mem.tickets && Handles(s.mem.tickets[t], id);
    } else {
      var th :| th in s.scheduling && Carries(s.scheduling[th], id);
    }
  }

  /**
   This step is a SQL call that fails for this revert: Start's read of the table, or fire's load or update of
   the row.
   */
  predicate Strands(s: State, step: Step, id: Id) {
    match step
    case StartSelect(th, _, ok) => !ok && s.boot == Reading && th !in s.scheduling && IsArmed(s, id)
    case FireLoad(t, ok) => !ok && At(s, t, Firing(Load)) && s.mem.tickets[t].id == id
    case FireFinish(t, ok) => !ok && Finishing(s, t) && s.mem.tickets[t].id == id
    case _ => false
  }

  ghost predicate NeverStrands(s: State, run: seq<Step>, id: Id)
    decreases |run|
  {
    run == [] || (!Strands(s, run[0], id) && NeverStrands(Next(s, run[0]), run[1..], id))
  }

  /** The record: only those calls put a revert on it, and only the end of the process takes it off. */
  lemma StrandedIff(s: State, step: Step, id: Id)
    ensures id in Next(s, step).stranded <==> step != Crash && (id in s.stranded || Strands(s, step, id))
  {
    if ByArmOrStart(step) {
      ArmStrandsIff(s, step, id);
    } else if ByConfirm(step) {
      ConfirmStrandsIff(s, step, id);
    } else if ByFireStart(step) {
      FireStartStrandsIff(s, step, id);
    } else if ByFire(step) {
      FireEndStrandsIff(s, step, id);
    } else {
      CloseFrame(s, step);
    }
  }

  lemma ArmStrandsIff(s: State, step: Step, id: Id)
    requires ByArmOrStart(step)
    ensures id in Next(s, step).stranded <==> id in s.stranded || Strands(s, step, id)
  {
  }

  lemma ConfirmStrandsIff(s: State, step: Step, id: Id)
    requires ByConfirm(step)
    ensures id in Next(s, step).stranded <==> id in s.stranded
  {
  }

  lemma LoadStrandsIff(s: State, t: TicketId, ok: bool, id: Id)
    ensures id in DoFireLoad(s, t, ok).stranded <==> id in s.stranded || Strands(s, FireLoad(t, ok), id)
  {
  }

  lemma FireStartStrandsIff(s: State, step: Step, id: Id)
    requires ByFireStart(step)
    ensures id in Next(s, step).stranded <==> id in s.stranded || Strands(s, step, id)
  {
    match step
    case FireLoad(t, ok) => LoadStrandsIff(s, t, ok, id);
    case _ =>
  }

  lemma FireEndStrandsIff(s: State, step: Step, id: Id)
    requires ByFire(step) && !ByFireStart(step)
    ensures id in Next(s, step).stranded <==> id in s.stranded || Strands(s, step, id)
  {
  }

  lemma {:induction false} NothingIsStranded(s: State, run: seq<Step>, id: Id)
    requires id !in s.stranded && NeverStrands(s, run, id)
    ensures id !in Exec(s, run).stranded
    decreases |run|
  {
    if run != [] {
      StrandedIff(s, run[0], id);
      NothingIsStranded(Next(s, run[0]), run[1..], id);
    }
  }

  lemma {:induction false} ExecConcat(s: State, a: seq<Step>, b: seq<Step>)
    ensures Exec(s, a + b) == Exec(Exec(s, a), b)
    decreases |a|
  {
    if a == [] {
      assert a + b == b;
    } else {
      assert (a + b)[1..] == a[1..] + b;
      ExecConcat(Next(s, a[0]), a[1..], b);
    }
  }

  /**
   Whatever happened before this process started, as long as its own SQL calls for
   a revert succeed, that revert is watched while it is armed and the guard is open.
   */
  lemma NoRevertIsLostWithoutFailures(window: nat, clock: int, before: seq<Step>, run: seq<Step>, id: Id)
    requires before != [] ==> before[|before| - 1] == Crash
    requires NeverStrands(Reached(window, clock, before), run, id)
    requires Entrusted(Reached(window, clock, before + run), id)
    ensures Watched(Reached(window, clock, before + run), id)
  {
    var s := Initial(window, clock);
    if before != [] {
      var lives := before[..|before| - 1];
      assert before == lives + [Crash];
      ExecConcat(s, lives, [Crash]);
      assert [Crash][1..] == [];
      assert Exec(Exec(s, lives), [Crash]) == Next(Exec(s, lives), Crash);
    }
    ExecConcat(s, before, run);
    NothingIsStranded(Exec(s, before), run, id);
    NoRevertIsLost(window, clock, before + run, id);
  }

  /** No executor is ever called before the stored deadline, across any number of restarts. */
  lemma NoRevertIsEarly(window: nat, clock: int, run: seq<Step>, i: nat)
    requires i < |Reached(window, clock, run).log|
    ensures
      var s := Reached(window, clock, run);
      s.log[i].id in s.rows && s.rows[s.log[i].id].expiresAt <= s.log[i].at
  {
    ReachedInv(window, clock, run);
  }

  // ----- rows -----

  /** Rows only come, deadlines and domains never move, and a settled row never changes again. */
  ghost predicate Frozen(rows: map<Id, Row>, rows': map<Id, Row>) {
    forall id :: id in rows ==>
      && id in rows' && rows'[id].expiresAt == rows[id].expiresAt && rows'[id].domain == rows[id].domain
         && rows'[id].armedAt == rows[id].armedAt
      && (rows[id].state != Armed ==> rows'[id] == rows[id])
  }

  lemma OnlyThreeStatementsWrite(s: State, step: Step)
    requires !step.ArmInsert? && !step.ConfirmUpdate? && !step.FireFinish?
    ensures Next(s, step).rows == s.rows
  {
    StepFrame(s, step);
  }

  /** The two ways a row changes: a new key, or one armed row settles. */
  lemma WriteFreezes(rows: map<Id, Row>, id: Id, row: Row)
    requires id in rows ==>
               rows[id].state == Armed && rows[id].expiresAt == row.expiresAt && rows[id].domain == row.domain
                 && rows[id].armedAt == row.armedAt
    ensures Frozen(rows, rows[id := row])
  {
  }

  lemma ArmInsertFreezes(s: State, th: Thread, ok: bool)
    ensures Frozen(s.rows, Next(s, ArmInsert(th, ok)).rows)
  {
  }

  lemma ConfirmUpdateFreezes(s: State, th: Thread, ok: bool)
    ensures Frozen(s.rows, Next(s, ConfirmUpdate(th, ok)).rows)
  {
  }

  lemma FireFinishFreezes(s: State, t: TicketId, ok: bool)
    ensures Frozen(s.rows, Next(s, FireFinish(t, ok)).rows)
  {
    if Finishing(s, t) && ok && IsArmed(s, s.mem.tickets[t].id) {
      var id := s.mem.tickets[t].id;
      var Finish(outcome, job) := s.mem.tickets[t].phase.pc;
      WriteFreezes(s.rows, id, s.rows[id].(state := outcome, revertJob := job));
    }
  }

  lemma StepFreezes(s: State, step: Step)
    ensures Frozen(s.rows, Next(s, step).rows)
  {
    if step.ArmInsert? {
      ArmInsertFreezes(s, step.thread, step.ok);
    } else if step.ConfirmUpdate? {
      ConfirmUpdateFreezes(s, step.thread, step.ok);
    } else if step.FireFinish? {
      FireFinishFreezes(s, step.ticket, step.ok);
    } else {
      OnlyThreeStatementsWrite(s, step);
    }
  }

  lemma FrozenTransitive(a: map<Id, Row>, b: map<Id, Row>, c: map<Id, Row>)
    requires Frozen(a, b) && Frozen(b, c)
    ensures Frozen(a, c)
  {
  }

  /** A row leaves armed at most once, terminal states absorb, and no step and no restart moves a deadline. */
  lemma {:induction false} RowsAreFrozen(s: State, run: seq<Step>)
    ensures Frozen(s.rows, Exec(s, run).rows)
    decreases |run|
  {
    if run != [] {
      StepFreezes(s, run[0]);
      RowsAreFrozen(Next(s, run[0]), run[1..]);
      FrozenTransitive(s.rows, Next(s, run[0]).rows, Exec(s, run).rows);
    }
  }

  // ----- Confirm against fire -----

  function CallsOf(log: seq<Execution>, id: Id): nat {
    if log == [] then 0 else CallsOf(log[..|log| - 1], id) + (if log[|log| - 1].id == id then 1 else 0)
  }

  /** No fire has read this revert as armed and still has to call its executor. */
  ghost predicate Uncommitted(s: State, id: Id) {
    forall t :: t in s.mem.tickets && s.mem.tickets[t].id == id ==> !Committed(s.mem.tickets[t].phase)
  }

  /** One step: no call for this revert, and still none that has read it as armed. */
  lemma UncommittedStays(s: State, step: Step, id: Id)
    requires Base(s) && OnceInv(s) && Settled(s.rows, id) && Uncommitted(s, id)
    ensures Uncommitted(Next(s, step), id) && CallsOf(Next(s, step).log, id) == CallsOf(s.log, id)
  {
    StepKeepsOnce(s, step);
    if step.FireCall? {
      SettledIsNotCalled(s, step.ticket, id);
    } else {
      OnlyFireCallExecutes(s, step);
    }
  }

  lemma SettledIsNotCalled(s: State, t: TicketId, id: Id)
    requires Uncommitted(s, id)
    ensures CallsOf(Next(s, FireCall(t)).log, id) == CallsOf(s.log, id)
  {
    if At(s, t, Firing(Call)) { OtherCallsCount(s.log, Execution(s.mem.tickets[t].id, s.clock, s.epoch), id); }
  }

  lemma OtherCallsCount(log: seq<Execution>, e: Execution, id: Id)
    requires e.id != id
    ensures CallsOf(log + [e], id) == CallsOf(log, id)
  {
    assert (log + [e])[..|log|] == log;
  }

  /**
   A confirmation (or any other outcome) that is stored before fire re-reads the
   row wins: from then on, in every run, the executor is not called for this revert.
   */
  lemma {:induction false} ConfirmBeforeReloadWins(s: State, run: seq<Step>, id: Id)
    requires Inv(s) && OnceInv(s)
    requires Settled(s.rows, id) && Uncommitted(s, id)
    ensures CallsOf(Exec(s, run).log, id) == CallsOf(s.log, id)
    decreases |run|
  {
    if run != [] {
      StepKeepsInv(s, run[0]);
      StepKeepsOnce(s, run[0]);
      StepFreezes(s, run[0]);
      UncommittedStays(s, run[0], id);
      ConfirmBeforeReloadWins(Next(s, run[0]), run[1..], id);
    }
  }

}
