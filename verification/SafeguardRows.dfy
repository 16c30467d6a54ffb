/** What a stored revert says is what happened to it. */
module SafeguardRows {
  import opened Wrappers
  import opened SafeguardMachine
  import opened SafeguardInvariants
  import opened SafeguardCoverage
  import opened SafeguardTheorems

  predicate Logged(log: seq<Execution>, id: Id) {
    exists i :: 0 <= i < |log| && log[i].id == id
  }

  predicate IsCall(e: Execution, id: Id, epoch: nat) {
    e.id == id && e.epoch == epoch
  }

  /** The executor was called for this revert in this process lifetime. */
  ghost predicate HasCall(log: seq<Execution>, id: Id, epoch: nat) {
    exists i :: 0 <= i < |log| && IsCall(log[i], id, epoch)
  }

  /**
   The window is counted from the arming; a confirmation carries its time; "reverted" means the executor was
   called.
   */
  predicate RowTold(row: Row, id: Id, window: nat, clock: int, log: seq<Execution>) {
    && row.expiresAt == row.armedAt + window && row.armedAt <= clock
    && (row.state == Confirmed <==> row.confirmedAt.Some?)
    && (row.confirmedAt.Some? ==> row.confirmedAt.value <= clock)
    && (row.state == Reverted ==> Logged(log, id))
  }

  /** The executor was called for this ticket, and did not fail if it has returned. */
  predicate Reporting(p: Phase) {
    p.Firing? && (p.pc == Running || (p.pc.Finish? && p.pc.outcome == Reverted))
  }

  ghost predicate RowsTold(rows: map<Id, Row>, window: nat, clock: int, log: seq<Execution>) {
    forall id :: id in rows ==> RowTold(rows[id], id, window, clock, log)
  }

  ghost predicate TicketsTold(tickets: map<TicketId, Ticket>, log: seq<Execution>, epoch: nat) {
    forall t :: t in tickets && Reporting(tickets[t].phase) ==> HasCall(log, tickets[t].id, epoch)
  }

  ghost predicate ArmingTold(arming: map<Thread, Arming>, clock: int) {
    forall th :: th in arming ==> arming[th].armedAt <= clock
  }

  ghost predicate Told(s: State) {
    RowsTold(s.rows, s.window, s.clock, s.log) && TicketsTold(s.mem.tickets, s.log, s.epoch)
      && ArmingTold(s.arming, s.clock)
  }

  lemma LogGrows(rows: map<Id, Row>, window: nat, clock: int, log: seq<Execution>, e: Execution,
                 tickets: map<TicketId, Ticket>)
    requires RowsTold(rows, window, clock, log) && TicketsTold(tickets, log, e.epoch)
    ensures RowsTold(rows, window, clock, log + [e]) && TicketsTold(tickets, log + [e], e.epoch)
    ensures HasCall(log + [e], e.id, e.epoch)
  {
    var log' := log + [e];
    assert log'[|log|] == e;
    forall id | Logged(log, id) ensures Logged(log', id) {
      var i :| 0 <= i < |log| && log[i].id == id;
      assert log'[i] == log[i];
    }
    forall id | HasCall(log, id, e.epoch) ensures HasCall(log', id, e.epoch) {
      var i :| 0 <= i < |log| && IsCall(log[i], id, e.epoch);
      assert log'[i] == log[i];
    }
  }

  // ----- the steps that matter -----

  lemma TickTells(s: State, elapsed: nat)
    requires Told(s)
    ensures Told(Next(s, Tick(elapsed)))
  {
  }

  lemma ArmTells(s: State, th: Thread, id: Id, domain: string, ok: bool)
    requires Told(s)
    ensures Told(DoArmBegin(s, th, id, domain)) && Told(DoArmInsert(s, th, ok))
  {
  }

  lemma ConfirmTells(s: State, th: Thread, ok: bool)
    requires Told(s)
    ensures Told(DoConfirmUpdate(s, th, ok))
  {
  }

  lemma CallTells(s: State, t: TicketId)
    requires Told(s)
    ensures Told(DoFireCall(s, t))
  {
    if At(s, t, Firing(Call)) {
      LogGrows(s.rows, s.window, s.clock, s.log, Execution(s.mem.tickets[t].id, s.clock, s.epoch), s.mem.tickets);
    }
  }

  lemma FinishTells(s: State, t: TicketId, ok: bool)
    requires Told(s) && (Finishing(s, t) ==> s.mem.tickets[t].phase.pc.outcome != Confirmed)
    ensures Told(DoFireFinish(s, t, ok))
  {
    if Finishing(s, t) && s.mem.tickets[t].phase.pc.outcome == Reverted { assert Reporting(s.mem.tickets[t].phase); }
  }

  lemma CrashTells(s: State)
    requires Told(s)
    ensures Told(DoCrash(s))
  {
  }

  // ----- the steps that do not -----

  ghost predicate SameReports(m: Memory, m': Memory) {
    forall t :: t in m'.tickets && Reporting(m'.tickets[t].phase) ==>
        t in m.tickets && m.tickets[t].id == m'.tickets[t].id && Reporting(m.tickets[t].phase)
  }

  predicate Plain(step: Step) {
    !step.Tick? && !step.ArmBegin? && !step.ArmInsert? && !step.ConfirmUpdate? && !step.FireCall? && !step.FireFinish?
      && step != Crash
  }

  ghost predicate SameClock(s: State, s': State) {
    s'.arming == s.arming && s'.clock == s.clock && s'.window == s.window && s'.epoch == s.epoch
  }

  lemma ArmClockFrame(s: State, step: Step)
    requires Plain(step) && ByArmOrStart(step)
    ensures SameClock(s, Next(s, step))
  {
  }

  lemma ConfirmClockFrame(s: State, step: Step)
    requires Plain(step) && !ByArmOrStart(step) && !ByFire(step)
    ensures SameClock(s, Next(s, step))
  {
  }

  lemma ClockFrame(s: State, step: Step)
    requires Plain(step) && !ByFire(step)
    ensures SameClock(s, Next(s, step))
  {
    if ByArmOrStart(step) { ArmClockFrame(s, step); } else { ConfirmClockFrame(s, step); }
  }

  lemma FireClockFrame(s: State, step: Step)
    requires Plain(step) && ByFire(step)
    ensures SameClock(s, Next(s, step))
  {
    if ByFireStart(step) {
      FireStartChanges(s, step.ticket, if step.FireLoad? then step.ok else true);
      assert FireStarts(s, Next(s, step));
    } else {
      CallChanges(s, step.ticket, if step.FireReturn? then step.failed else true,
        if step.FireReturn? then step.job else 0);
      FinishChanges(s, step.ticket, true);
      assert FireStarts(s, Next(s, step));
    }
  }

  lemma SameTicketsReport(m: Memory, m': Memory)
    requires m'.tickets == m.tickets
    ensures SameReports(m, m')
  {
  }

  lemma EnterReports(s: State, th: Thread, t: TicketId)
    ensures SameReports(s.mem, DoEnterSchedule(s, th, t).mem)
  {
  }

  lemma ArmReports(s: State, step: Step)
    requires ByArmOrStart(step) && Plain(step)
    ensures SameReports(s.mem, Next(s, step).mem)
  {
    if step.EnterSchedule? {
      EnterReports(s, step.thread, step.ticket);
    } else {
      SameTicketsReport(s.mem, Next(s, step).mem);
    }
  }

  lemma StopReports(s: State, th: Thread)
    ensures SameReports(s.mem, DoConfirmStop(s, th).mem) && SameReports(s.mem, DoConfirmRelease(s, th).mem)
  {
  }

  lemma ConfirmReports(s: State, step: Step)
    requires ByConfirm(step) && Plain(step)
    ensures SameReports(s.mem, Next(s, step).mem)
  {
    if step.ConfirmStop? || step.ConfirmRelease? {
      StopReports(s, step.thread);
    } else {
      SameTicketsReport(s.mem, Next(s, step).mem);
    }
  }

  lemma ExpireReports(s: State, t: TicketId)
    ensures SameReports(s.mem, DoExpire(s, t).mem)
  {
    if At(s, t, Pending) { PhaseReports(s.mem, t, Firing(Unlink)); }
  }

  lemma UnlinkReports(s: State, t: TicketId)
    ensures SameReports(s.mem, DoFireUnlink(s, t).mem)
  {
    if At(s, t, Firing(Unlink)) { PhaseReports(s.mem, t, Firing(Load)); }
  }

  lemma LoadReports(s: State, t: TicketId, ok: bool)
    ensures SameReports(s.mem, DoFireLoad(s, t, ok).mem)
  {
    if At(s, t, Firing(Load)) { PhaseReports(s.mem, t, DoFireLoad(s, t, ok).mem.tickets[t].phase); }
  }

  lemma LookupReports(s: State, t: TicketId)
    ensures SameReports(s.mem, DoFireLookup(s, t).mem)
  {
    if LookingUp(s, t) { PhaseReports(s.mem, t, DoFireLookup(s, t).mem.tickets[t].phase); }
  }

  lemma PhaseReports(m: Memory, t: TicketId, phase: Phase)
    requires t in m.tickets && (Reporting(phase) ==> Reporting(m.tickets[t].phase))
    ensures SameReports(m, SetPhase(m, t, phase))
  {
  }

  lemma ReturnReports(s: State, step: Step)
    requires step.FireReturn? || step.FireLeave?
    ensures SameReports(s.mem, Next(s, step).mem)
  {
    if step.FireReturn? && At(s, step.ticket, Firing(Running)) {
      PhaseReports(s.mem, step.ticket, Next(s, step).mem.tickets[step.ticket].phase);
    } else if step.FireLeave? && At(s, step.ticket, Firing(Leave)) {
      PhaseReports(s.mem, step.ticket, Retired);
    }
  }

  lemma CloseLockReports(s: State)
    ensures SameReports(s.mem, DoCloseLock(s).mem)
  {
  }

  lemma CloseReleaseReports(s: State, t: TicketId)
    ensures SameReports(s.mem, DoCloseRelease(s, t).mem)
  {
  }

  lemma CloseReports(s: State, step: Step)
    requires !ByArmOrStart(step) && !ByConfirm(step) && !ByFire(step) && Plain(step)
    ensures SameReports(s.mem, Next(s, step).mem)
  {
    if step == CloseLock {
      CloseLockReports(s);
    } else if step.CloseRelease? {
      CloseReleaseReports(s, step.ticket);
    } else {
      SameTicketsReport(s.mem, Next(s, step).mem);
    }
  }

  lemma PlainTells(s: State, step: Step)
    requires Told(s) && Plain(step)
    ensures Told(Next(s, step))
  {
    OnlyThreeStatementsWrite(s, step);
    OnlyFireCallExecutes(s, step);
    if ByFire(step) { FireClockFrame(s, step); } else { ClockFrame(s, step); }
    if ByArmOrStart(step) {
      ArmReports(s, step);
    } else if ByConfirm(step) {
      ConfirmReports(s, step);
    } else if step.Expire? {
      ExpireReports(s, step.ticket);
    } else if step.FireUnlink? {
      UnlinkReports(s, step.ticket);
    } else if step.FireLoad? {
      LoadReports(s, step.ticket, step.ok);
    } else if step.FireLookup? {
      LookupReports(s, step.ticket);
    } else if ByFire(step) {
      ReturnReports(s, step);
    } else {
      CloseReports(s, step);
    }
  }

  // ----- every run -----

  lemma StepKeepsTold(s: State, step: Step)
    requires Inv(s) && Told(s)
    ensures Told(Next(s, step))
  {
    if Plain(step) {
      PlainTells(s, step);
    } else if step.Tick? {
      TickTells(s, step.elapsed);
    } else if step.ArmBegin? {
      ArmTells(s, step.thread, step.id, step.domain, true);
    } else if step.ArmInsert? {
      ArmTells(s, step.thread, 0, "", step.ok);
    } else if step.ConfirmUpdate? {
      ConfirmTells(s, step.thread, step.ok);
    } else if step.FireCall? {
      CallTells(s, step.ticket);
    } else if step.FireFinish? {
      if Finishing(s, step.ticket) { assert TicketOk(s.rows, s.clock, s.mem.tickets[step.ticket]); }
      FinishTells(s, step.ticket, step.ok);
    } else {
      CrashTells(s);
    }
  }

  lemma {:induction false} ExecKeepsTold(s: State, run: seq<Step>)
    requires Inv(s) && Told(s)
    ensures Told(Exec(s, run))
    decreases |run|
  {
    if run != [] {
      StepKeepsInv(s, run[0]);
      StepKeepsTold(s, run[0]);
      ExecKeepsTold(Next(s, run[0]), run[1..]);
    }
  }

  /**
   The deadline is one window after the arming, a confirmed row carries the time
   of its confirmation and no other row does, and "reverted" is only ever said of
   a revert whose executor was called.
   */
  lemma RowsTellTheTruth(window: nat, clock: int, run: seq<Step>, id: Id)
    requires id in Reached(window, clock, run).rows
    ensures
      var s := Reached(window, clock, run);
      RowTold(s.rows[id], id, s.window, s.clock, s.log)
  {
    ReachedInv(window, clock, run);
    InitialInv(window, clock);
    ExecKeepsTold(Initial(window, clock), run);
  }

  /** A timer set while the clock stands still is due at the deadline, or at once when that is past. */
  lemma TimersAreOnTime(s: State, th: Thread, t: TicketId)
    requires th in s.scheduling && s.scheduling[th].delay.None? && s.scheduling[th].dues != [] && t !in s.mem.tickets
    requires !s.mem.closed && s.scheduling[th].dues[0].id !in s.mem.timers
    ensures
      var due := s.scheduling[th].dues[0];
      var s' := Next(DoReadDelay(s, th), EnterSchedule(th, t));
      && t in s'.mem.tickets
      && s'.mem.tickets[t] == Ticket(due.id, if due.expiresAt < s.clock then s.clock else due.expiresAt, Pending)
  {
  }
}
