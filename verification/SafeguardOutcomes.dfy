/** When a revert can be both confirmed and executed, and how often it is executed. */
module SafeguardOutcomes {
  import opened Wrappers
  import opened SafeguardMachine
  import opened SafeguardInvariants
  import opened SafeguardCoverage
  import opened SafeguardOnce
  import opened SafeguardTheorems

  /** The executor was called for this ticket and its outcome is still to be stored. */
  predicate Flying(p: Phase) {
    p.Firing? && (p.pc == Running || p.pc.Finish?)
  }

  ghost predicate InFlight(tickets: Tickets, id: Id) {
    exists t :: t in tickets && tickets[t].id == id && Flying(tickets[t].phase)
  }

  predicate Open(rows: map<Id, Row>, stranded: set<Id>, id: Id) {
    id in rows && rows[id].state == Armed && id !in stranded
  }

  /**
   A revert executed in this lifetime whose row is still armed is in flight, unless its outcome was lost to a
   SQL error.
   */
  ghost predicate Executed(rows: map<Id, Row>, log: seq<Execution>, epoch: nat, stranded: set<Id>, tickets: Tickets) {
    forall i :: 0 <= i < |log| && log[i].epoch == epoch && Open(rows, stranded, log[i].id) ==>
        InFlight(tickets, log[i].id)
  }

  ghost predicate ExecutedInv(s: State) {
    Executed(s.rows, s.log, s.epoch, s.stranded, s.mem.tickets)
  }

  /** Rows settle, reverts get stranded, tickets in flight stay so as long as their row is open. */
  lemma FlightKept(rows: map<Id, Row>, rows': map<Id, Row>, log: seq<Execution>, epoch: nat, stranded: set<Id>,
                   stranded': set<Id>, tickets: Tickets, tickets': Tickets)
    requires Executed(rows, log, epoch, stranded, tickets) && stranded <= stranded'
    requires forall i :: 0 <= i < |log| && Open(rows', stranded', log[i].id) ==> Open(rows, stranded, log[i].id)
    requires forall t :: t in tickets && Flying(tickets[t].phase) && Open(rows', stranded', tickets[t].id) ==>
               t in tickets' && tickets'[t].id == tickets[t].id && Flying(tickets'[t].phase)
    ensures Executed(rows', log, epoch, stranded', tickets')
  {
  }

  lemma ArmInsertKeepsExecuted(s: State, th: Thread, ok: bool)
    requires Base(s) && ExecutedInv(s)
    ensures ExecutedInv(DoArmInsert(s, th, ok))
  {
  }

  lemma ConfirmUpdateKeepsExecuted(s: State, th: Thread, ok: bool)
    requires ExecutedInv(s)
    ensures ExecutedInv(DoConfirmUpdate(s, th, ok))
  {
  }

  /** finish settles the row, loses the outcome, or finds the row settled: in each case the ticket may leave. */
  lemma LeaveKeepsExecuted(rows: map<Id, Row>, rows': map<Id, Row>, log: seq<Execution>, epoch: nat, stranded: set<Id>,
                           stranded': set<Id>, m: Memory, t: TicketId)
    requires Executed(rows, log, epoch, stranded, m.tickets) && stranded <= stranded'
    requires t in m.tickets && !Open(rows', stranded', m.tickets[t].id)
    requires forall id :: Open(rows', stranded', id) ==> Open(rows, stranded, id)
    ensures Executed(rows', log, epoch, stranded', SetPhase(m, t, Firing(Leave)).tickets)
  {
    FlightKept(rows, rows', log, epoch, stranded, stranded', m.tickets, SetPhase(m, t, Firing(Leave)).tickets);
  }

  lemma FireFinishKeepsExecuted(s: State, t: TicketId, ok: bool)
    requires Base(s) && ExecutedInv(s)
    ensures ExecutedInv(DoFireFinish(s, t, ok))
  {
    if Finishing(s, t) {
      assert TicketOk(s.rows, s.clock, s.mem.tickets[t]);
      LeaveKeepsExecuted(s.rows, DoFireFinish(s, t, ok).rows, s.log, s.epoch, s.stranded,
        DoFireFinish(s, t, ok).stranded, s.mem, t);
    }
  }

  lemma FireCallKeepsExecuted(s: State, t: TicketId)
    requires ExecutedInv(s)
    ensures ExecutedInv(DoFireCall(s, t))
  {
    if At(s, t, Firing(Call)) {
      var tickets' := SetPhase(s.mem, t, Firing(Running)).tickets;
      FlightKept(s.rows, s.rows, s.log, s.epoch, s.stranded, s.stranded, s.mem.tickets, tickets');
      assert Flying(tickets'[t].phase);
      assert InFlight(tickets', s.mem.tickets[t].id);
    }
  }

  lemma CrashKeepsExecuted(s: State)
    requires Base(s)
    ensures ExecutedInv(DoCrash(s))
  {
  }

  predicate LeavesMemory(step: Step) {
    step.Tick? || step.Register? || step.ArmBegin? || step.ArmInsert? || step.ReadDelay? || step.StartBegin?
      || step.StartSelect?
    || step.ConfirmLoad? || step.ConfirmUpdate? || step == CloseCancel || step == CloseReturn
  }

  lemma MemoryLeft(s: State, step: Step)
    requires LeavesMemory(step)
    ensures Next(s, step).mem == s.mem
  {
  }

  ghost predicate SameFlight(m: Memory, m': Memory, t: TicketId) {
    t in m.tickets && t in m'.tickets && m'.tickets[t].id == m.tickets[t].id && Flying(m'.tickets[t].phase)
  }

  lemma FireFlightStays(s: State, step: Step, t: TicketId)
    requires t in s.mem.tickets && Flying(s.mem.tickets[t].phase)
    requires step.Expire? || step.FireUnlink? || step.FireLeave?
    ensures SameFlight(s.mem, Next(s, step).mem, t)
  {
  }

  lemma LoadFlightStays(s: State, u: TicketId, ok: bool, t: TicketId)
    requires t in s.mem.tickets && Flying(s.mem.tickets[t].phase)
    ensures SameFlight(s.mem, DoFireLoad(s, u, ok).mem, t)
  {
    if At(s, u, Firing(Load)) { assert u != t; }
  }

  lemma LookupFlightStays(s: State, u: TicketId, t: TicketId)
    requires t in s.mem.tickets && Flying(s.mem.tickets[t].phase)
    ensures SameFlight(s.mem, DoFireLookup(s, u).mem, t)
  {
    if LookingUp(s, u) { assert u != t; }
  }

  lemma ReturnFlightStays(s: State, u: TicketId, failed: bool, job: int, t: TicketId)
    requires t in s.mem.tickets && Flying(s.mem.tickets[t].phase)
    ensures SameFlight(s.mem, DoFireReturn(s, u, failed, job).mem, t)
  {
  }

  lemma EnterFlightStays(s: State, th: Thread, u: TicketId, t: TicketId)
    requires t in s.mem.tickets && Flying(s.mem.tickets[t].phase)
    ensures SameFlight(s.mem, DoEnterSchedule(s, th, u).mem, t)
  {
  }

  lemma LockFlightStays(s: State, t: TicketId)
    requires t in s.mem.tickets && Flying(s.mem.tickets[t].phase)
    ensures SameFlight(s.mem, DoCloseLock(s).mem, t)
  {
  }

  lemma CloseReleaseFlightStays(s: State, u: TicketId, t: TicketId)
    requires t in s.mem.tickets && Flying(s.mem.tickets[t].phase)
    ensures SameFlight(s.mem, DoCloseRelease(s, u).mem, t)
  {
  }

  lemma CloseFlightStays(s: State, step: Step, t: TicketId)
    requires t in s.mem.tickets && Flying(s.mem.tickets[t].phase)
    requires step.EnterSchedule? || step.CloseLock? || step.CloseRelease?
    ensures SameFlight(s.mem, Next(s, step).mem, t)
  {
    match step
    case EnterSchedule(th, u) => EnterFlightStays(s, th, u, t);
    case CloseLock => LockFlightStays(s, t);
    case CloseRelease(u) => CloseReleaseFlightStays(s, u, t);
  }

  lemma UnlinkFlightStays(s: State, step: Step, t: TicketId)
    requires Base(s) && t in s.mem.tickets && Flying(s.mem.tickets[t].phase)
    requires step.ConfirmUnlink?
    ensures SameFlight(s.mem, Next(s, step).mem, t)
  {
  }

  lemma StopFlightStays(s: State, step: Step, t: TicketId)
    requires Base(s) && t in s.mem.tickets && Flying(s.mem.tickets[t].phase)
    requires step.ConfirmStop?
    ensures SameFlight(s.mem, Next(s, step).mem, t)
  {
  }

  lemma ReleaseFlightStays(s: State, step: Step, t: TicketId)
    requires Base(s) && t in s.mem.tickets && Flying(s.mem.tickets[t].phase)
    requires step.ConfirmRelease?
    ensures SameFlight(s.mem, Next(s, step).mem, t)
  {
  }

  /** Every other step takes no ticket out of flight. */
  lemma FlightStays(s: State, step: Step, t: TicketId)
    requires Base(s) && t in s.mem.tickets && Flying(s.mem.tickets[t].phase)
    requires !step.FireCall? && step != Crash && !step.FireFinish?
    ensures SameFlight(s.mem, Next(s, step).mem, t)
  {
    if LeavesMemory(step) {
      MemoryLeft(s, step);
    } else if step.ConfirmUnlink? {
      UnlinkFlightStays(s, step, t);
    } else if step.ConfirmStop? {
      StopFlightStays(s, step, t);
    } else if step.ConfirmRelease? {
      ReleaseFlightStays(s, step, t);
    } else if step.FireLoad? {
      LoadFlightStays(s, step.ticket, step.ok, t);
    } else if step.FireLookup? {
      LookupFlightStays(s, step.ticket, t);
    } else if step.FireReturn? {
      ReturnFlightStays(s, step.ticket, step.failed, step.job, t);
    } else if step.EnterSchedule? || step.CloseLock? || step.CloseRelease? {
      CloseFlightStays(s, step, t);
    } else {
      FireFlightStays(s, step, t);
    }
  }

  lemma StepStrands(s: State, step: Step)
    requires step != Crash
    ensures s.stranded <= Next(s, step).stranded && Next(s, step).epoch == s.epoch
  {
    StepFrame(s, step);
  }

  lemma StepKeepsExecuted(s: State, step: Step)
    requires Base(s) && ExecutedInv(s)
    ensures ExecutedInv(Next(s, step))
  {
    if step.ArmInsert? {
      ArmInsertKeepsExecuted(s, step.thread, step.ok);
    } else if step.ConfirmUpdate? {
      ConfirmUpdateKeepsExecuted(s, step.thread, step.ok);
    } else if step.FireFinish? {
      FireFinishKeepsExecuted(s, step.ticket, step.ok);
    } else if step.FireCall? {
      FireCallKeepsExecuted(s, step.ticket);
    } else if step == Crash {
      CrashKeepsExecuted(s);
    } else {
      OnlyThreeStatementsWrite(s, step);
      OnlyFireCallExecutes(s, step);
      StepStrands(s, step);
      var s' := Next(s, step);
      forall t | t in s.mem.tickets && Flying(s.mem.tickets[t].phase)
        ensures t in s'.mem.tickets && s'.mem.tickets[t].id == s.mem.tickets[t].id && Flying(s'.mem.tickets[t].phase)
      {
        FlightStays(s, step, t);
      }
      FlightKept(s.rows, s'.rows, s.log, s.epoch, s.stranded, s'.stranded, s.mem.tickets, s'.mem.tickets);
    }
  }

  lemma {:induction false} ExecKeepsExecuted(s: State, run: seq<Step>)
    requires Inv(s) && ExecutedInv(s)
    ensures ExecutedInv(Exec(s, run))
    decreases |run|
  {
    if run != [] {
      StepKeepsInv(s, run[0]);
      StepKeepsExecuted(s, run[0]);
      ExecKeepsExecuted(Next(s, run[0]), run[1..]);
    }
  }

  /**
   A Confirm whose update takes the row finds the executor already called only
   if that fire has not stored its outcome yet, or the outcome was lost: to a
   failing SQL call of this process, or to the end of an earlier one. With
   ConfirmBeforeReloadWins this places every confirmed and executed revert's
   confirmation between fire's re-read and its last update.
   */
  lemma ConfirmedAfterTheCall(window: nat, clock: int, run: seq<Step>, th: Thread, i: nat)
    requires
      var s := Reached(window, clock, run);
      && th in s.confirms && s.confirms[th].Confirming? && IsArmed(s, s.confirms[th].id)
      && i < |s.log| && s.log[i].id == s.confirms[th].id
    ensures
      var s := Reached(window, clock, run);
      InFlight(s.mem.tickets, s.log[i].id) || s.log[i].id in s.stranded || s.log[i].epoch < s.epoch
  {
    var s := Reached(window, clock, run);
    ReachedInv(window, clock, run);
    InitialInv(window, clock);
    ExecKeepsExecuted(Initial(window, clock), run);
    assert Open(s.rows, s.stranded, s.log[i].id) || s.log[i].id in s.stranded;
  }

  // ----- at most once per process lifetime -----

  /** Two calls for one revert fall into different lifetimes, or Start read that lifetime's table after an Arm. */
  lemma AtMostOncePerLifetime(window: nat, clock: int, run: seq<Step>, i: nat, j: nat)
    requires i < j < |Reached(window, clock, run).log|
    requires
      var log := Reached(window, clock, run).log;
      log[i].id == log[j].id && log[i].epoch == log[j].epoch
    ensures
      var s := Reached(window, clock, run);
      s.log[i].epoch in s.overlapped
  {
    ReachedInv(window, clock, run);
  }

  /** Every Arm of the run stores its row after Start has read the table of that lifetime. */
  ghost predicate StartsFirst(s: State, run: seq<Step>)
    decreases |run|
  {
    run == [] || ((run[0].ArmInsert? ==> s.boot == Reconciled) && StartsFirst(Next(s, run[0]), run[1..]))
  }

  lemma OnlyStartOverlaps(s: State, step: Step)
    requires !step.StartSelect?
    ensures Next(s, step).overlapped == s.overlapped
  {
    StepFrame(s, step);
  }

  lemma OnlyArmArms(s: State, step: Step)
    requires !step.ArmInsert? && step != Crash
    ensures Next(s, step).armedHere == s.armedHere
  {
    StepFrame(s, step);
  }

  lemma OnlyCrashForgetsTheTable(s: State, step: Step)
    requires s.boot == Reconciled && step != Crash
    ensures Next(s, step).boot == Reconciled
  {
    StepFrame(s, step);
  }

  lemma NothingArmedEarly(s: State, step: Step)
    requires s.boot != Reconciled ==> s.armedHere == {}
    requires step.ArmInsert? ==> s.boot == Reconciled
    ensures Next(s, step).boot != Reconciled ==> Next(s, step).armedHere == {}
    ensures Next(s, step).overlapped == s.overlapped
  {
    if !step.StartSelect? { OnlyStartOverlaps(s, step); }
    if step != Crash {
      if !step.ArmInsert? { OnlyArmArms(s, step); }
      if s.boot == Reconciled { OnlyCrashForgetsTheTable(s, step); }
    }
  }

  lemma {:induction false} StartFirstNeverOverlaps(s: State, run: seq<Step>)
    requires StartsFirst(s, run)
    requires s.boot != Reconciled ==> s.armedHere == {}
    ensures Exec(s, run).overlapped == s.overlapped
    decreases |run|
  {
    if run != [] {
      NothingArmedEarly(s, run[0]);
      StartFirstNeverOverlaps(Next(s, run[0]), run[1..]);
    }
  }

  /** With Start before Arm, a revert's executor is called at most once in any lifetime of the process. */
  lemma OncePerLifetimeWhenStartedFirst(window: nat, clock: int, run: seq<Step>, i: nat, j: nat)
    requires StartsFirst(Initial(window, clock), run)
    requires i < j < |Reached(window, clock, run).log|
    ensures
      var log := Reached(window, clock, run).log;
      log[i].id == log[j].id ==> log[i].epoch != log[j].epoch
  {
    StartFirstNeverOverlaps(Initial(window, clock), run);
    var log := Reached(window, clock, run).log;
    if log[i].id == log[j].id && log[i].epoch == log[j].epoch {
      AtMostOncePerLifetime(window, clock, run, i, j);
      assert false;
    }
  }
}
