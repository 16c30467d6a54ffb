/** The outcome a revert is stored with is the one its executor gave. */
module SafeguardVerdicts {
  import opened Wrappers
  import opened SafeguardMachine
  import opened SafeguardInvariants
  import opened SafeguardCoverage
  import opened SafeguardOnce
  import opened SafeguardTheorems

  lemma ExecAppend(s: State, run: seq<Step>, step: Step)
    ensures Exec(s, run + [step]) == Next(Exec(s, run), step)
  {
    ExecConcat(s, run, [step]);
    assert [step][1..] == [];
    assert Exec(Exec(s, run), [step]) == Next(Exec(s, run), step);
  }

  // ----- what happened at a point of the run -----

  /** At this point the executor of this revert returned, with this job and with or without an error. */
  ghost predicate ReturnsAt(start: State, run: seq<Step>, k: nat, id: Id, failed: bool, job: int) {
    && k < |run| && run[k].FireReturn? && run[k].failed == failed && run[k].job == job
    && At(Exec(start, run[..k]), run[k].ticket, Firing(Running))
    && Exec(start, run[..k]).mem.tickets[run[k].ticket].id == id
  }

  /** At this point the fire of this revert looked for an executor of the row's domain and there was none. */
  ghost predicate MissesAt(start: State, run: seq<Step>, k: nat, id: Id) {
    && k < |run| && run[k].FireLookup?
    && var s := Exec(start, run[..k]);
    && LookingUp(s, run[k].ticket) && s.mem.tickets[run[k].ticket].id == id
    && id in s.rows && s.rows[id].domain !in s.executors
  }

  ghost predicate Returned(start: State, run: seq<Step>, id: Id, failed: bool, job: int) {
    exists k: nat :: ReturnsAt(start, run, k, id, failed, job)
  }

  ghost predicate Missed(start: State, run: seq<Step>, id: Id) {
    exists k: nat :: MissesAt(start, run, k, id)
  }

  /**
   Reverted is said of a call that returned without an error; revert_failed of one that did not, or of none for
   want of an executor.
   */
  ghost predicate Told(start: State, run: seq<Step>, id: Id, outcome: RowState, job: int) {
    match outcome
    case Reverted => Returned(start, run, id, false, job)
    case RevertFailed => Returned(start, run, id, true, job) || (Missed(start, run, id) && job == 0)
    case _ => false
  }

  lemma ToldStays(start: State, run: seq<Step>, step: Step, id: Id, outcome: RowState, job: int)
    requires Told(start, run, id, outcome, job)
    ensures Told(start, run + [step], id, outcome, job)
  {
    var more := run + [step];
    forall k | 0 <= k < |run| ensures more[..k] == run[..k] { }
    if k: nat :| MissesAt(start, run, k, id) { assert MissesAt(start, more, k, id); }
    forall failed, k: nat | ReturnsAt(start, run, k, id, failed, job)
      ensures ReturnsAt(start, more, k, id, failed, job)
    {
      }
  }

  // ----- what is kept -----

  predicate RowSettles(row: Row) {
    row.state == Reverted || row.state == RevertFailed
  }

  ghost predicate RowsAreTold(start: State, run: seq<Step>, rows: map<Id, Row>) {
    forall id :: id in rows && RowSettles(rows[id]) ==> Told(start, run, id, rows[id].state, rows[id].revertJob)
  }

  /** A fire about to store an outcome has it from its executor, or from the lack of one. */
  ghost predicate FinishTold(start: State, run: seq<Step>, k: Ticket) {
    k.phase.Firing? && k.phase.pc.Finish? ==> Told(start, run, k.id, k.phase.pc.outcome, k.phase.pc.job)
  }

  ghost predicate FinishesAreTold(start: State, run: seq<Step>, tickets: map<TicketId, Ticket>) {
    forall t :: t in tickets ==> FinishTold(start, run, tickets[t])
  }

  /** A fire looks for the executor of its row's domain, and calls only one that is registered. */
  predicate ExecutorOk(rows: map<Id, Row>, executors: set<string>, k: Ticket) {
    && (k.phase.Firing? && k.phase.pc.Lookup? ==> k.id in rows && k.phase.pc.domain == rows[k.id].domain)
    && (k.phase.Firing? && (k.phase.pc == Call || k.phase.pc == Running) ==>
         k.id in rows && rows[k.id].domain in executors)
  }

  ghost predicate ExecutorsOk(rows: map<Id, Row>, executors: set<string>, tickets: map<TicketId, Ticket>) {
    forall t :: t in tickets ==> ExecutorOk(rows, executors, tickets[t])
  }

  // ----- executors -----

  /** A ticket of the later state is one of the earlier state, or at a point where it asks for no executor. */
  ghost predicate AsksAsBefore(m: Memory, m': Memory) {
    forall t :: t in m'.tickets && Asks(m'.tickets[t].phase) ==> t in m.tickets && m'.tickets[t] == m.tickets[t]
  }

  predicate Asks(p: Phase) {
    p.Firing? && (p.pc.Lookup? || p.pc == Call || p.pc == Running || p.pc.Finish?)
  }

  /** The tickets after the row was re-read: one goes on to leave, or to look for the executor of the row's domain. */
  ghost predicate Reread(s: State, t: TicketId, tickets: map<TicketId, Ticket>) {
    || tickets == s.mem.tickets
    || (t in s.mem.tickets && tickets == s.mem.tickets[t := s.mem.tickets[t].(phase := Firing(Leave))])
    || (t in s.mem.tickets && s.mem.tickets[t].id in s.rows
       && tickets == s.mem.tickets[t := s.mem.tickets[t].(phase := Firing(Lookup(s.rows[s.mem.tickets[t].id].domain)))])
  }

  lemma LoadRereads(s: State, t: TicketId, ok: bool)
    ensures Reread(s, t, DoFireLoad(s, t, ok).mem.tickets)
  {
    if At(s, t, Firing(Load)) {
      var id := s.mem.tickets[t].id;
      if ok && IsArmed(s, id) {
        assert DoFireLoad(s, t, ok).mem == SetPhase(s.mem, t, Firing(Lookup(s.rows[id].domain)));
      } else {
        assert DoFireLoad(s, t, ok).mem == SetPhase(s.mem, t, Firing(Leave));
      }
    }
  }

  lemma RereadAsks(s: State, t: TicketId, tickets: map<TicketId, Ticket>)
    requires ExecutorsOk(s.rows, s.executors, s.mem.tickets) && Reread(s, t, tickets)
    ensures ExecutorsOk(s.rows, s.executors, tickets)
  {
  }

  lemma LoadAsks(s: State, t: TicketId, ok: bool)
    requires ExecutorsOk(s.rows, s.executors, s.mem.tickets)
    ensures ExecutorsOk(s.rows, s.executors, DoFireLoad(s, t, ok).mem.tickets)
  {
    LoadRereads(s, t, ok);
    RereadAsks(s, t, DoFireLoad(s, t, ok).mem.tickets);
  }

  lemma LookupAsks(s: State, t: TicketId)
    requires ExecutorsOk(s.rows, s.executors, s.mem.tickets)
    ensures ExecutorsOk(s.rows, s.executors, DoFireLookup(s, t).mem.tickets)
  {
    if LookingUp(s, t) { assert ExecutorOk(s.rows, s.executors, s.mem.tickets[t]); }
  }

  lemma CallAsks(s: State, t: TicketId)
    requires ExecutorsOk(s.rows, s.executors, s.mem.tickets)
    ensures ExecutorsOk(s.rows, s.executors, DoFireCall(s, t).mem.tickets)
  {
    if At(s, t, Firing(Call)) { assert ExecutorOk(s.rows, s.executors, s.mem.tickets[t]); }
  }

  lemma SchedulingAsks(s: State, th: Thread, t: TicketId)
    ensures AsksAsBefore(s.mem, DoEnterSchedule(s, th, t).mem)
  {
  }

  lemma StopAsks(s: State, th: Thread)
    ensures AsksAsBefore(s.mem, DoConfirmStop(s, th).mem) && AsksAsBefore(s.mem, DoConfirmRelease(s, th).mem)
  {
  }

  lemma ExpireAsks(s: State, t: TicketId)
    ensures AsksAsBefore(s.mem, DoExpire(s, t).mem) && AsksAsBefore(s.mem, DoFireUnlink(s, t).mem)
  {
  }

  lemma FinishAsks(s: State, t: TicketId, ok: bool)
    ensures AsksAsBefore(s.mem, DoFireFinish(s, t, ok).mem)
  {
  }

  lemma LeaveAsks(s: State, t: TicketId)
    ensures AsksAsBefore(s.mem, DoFireLeave(s, t).mem)
  {
  }

  lemma CloseAsks(s: State, t: TicketId)
    ensures AsksAsBefore(s.mem, DoCloseLock(s).mem) && AsksAsBefore(s.mem, DoCloseRelease(s, t).mem)
  {
  }

  predicate Answers(step: Step) {
    step.FireLoad? || step.FireLookup? || step.FireCall? || step.FireReturn?
  }

  predicate MovesTickets(step: Step) {
    || step.EnterSchedule? || step.ConfirmStop? || step.ConfirmRelease? || step.Expire? || step.FireUnlink?
    || step.FireFinish? || step.FireLeave? || step == CloseLock || step.CloseRelease?
  }

  lemma FireOthersAsk(s: State, step: Step)
    requires ByFire(step) && !Answers(step)
    ensures AsksAsBefore(s.mem, Next(s, step).mem)
  {
    match step
    case Expire(t) => ExpireAsks(s, t);
    case FireUnlink(t) => ExpireAsks(s, t);
    case FireFinish(t, ok) => FinishAsks(s, t, ok);
    case FireLeave(t) => LeaveAsks(s, t);
  }

  lemma MoversAsk(s: State, step: Step)
    requires MovesTickets(step) && !ByFire(step)
    ensures AsksAsBefore(s.mem, Next(s, step).mem)
  {
    match step
    case EnterSchedule(th, t) => SchedulingAsks(s, th, t);
    case ConfirmStop(th) => StopAsks(s, th);
    case ConfirmRelease(th) => StopAsks(s, th);
    case CloseLock => CloseAsks(s, 0);
    case CloseRelease(t) => CloseAsks(s, t);
  }

  lemma ArmLeavesTickets(s: State, step: Step)
    requires ByArmOrStart(step) && !step.EnterSchedule?
    ensures Next(s, step).mem.tickets == s.mem.tickets
  {
    if step.ArmBegin? || step.ArmInsert? {
      assert Next(s, step).mem == s.mem;
    } else if step.StartBegin? || step.StartSelect? {
      assert Next(s, step).mem == s.mem;
    } else {
      assert Next(s, step).mem == s.mem;
    }
  }

  lemma OthersLeaveTickets(s: State, step: Step)
    requires !ByArmOrStart(step) && !ByFire(step) && !MovesTickets(step) && step != Crash
    ensures Next(s, step).mem.tickets == s.mem.tickets
  {
  }

  lemma OthersAsk(s: State, step: Step)
    requires !Answers(step) && step != Crash
    ensures AsksAsBefore(s.mem, Next(s, step).mem)
  {
    if ByFire(step) {
      FireOthersAsk(s, step);
    } else if MovesTickets(step) {
      MoversAsk(s, step);
    } else if ByArmOrStart(step) {
      ArmLeavesTickets(s, step);
    } else {
      OthersLeaveTickets(s, step);
    }
  }

  // ----- every step -----

  ghost predicate Kept(start: State, run: seq<Step>, s: State) {
    && RowsAreTold(start, run, s.rows) && FinishesAreTold(start, run, s.mem.tickets)
    && ExecutorsOk(s.rows, s.executors, s.mem.tickets)
  }

  lemma KeptGoesOn(start: State, run: seq<Step>, step: Step, s: State)
    requires Kept(start, run, s)
    ensures Kept(start, run + [step], s)
  {
    forall id, outcome, job | Told(start, run, id, outcome, job) ensures Told(start, run + [step], id, outcome, job) {
      ToldStays(start, run, step, id, outcome, job);
    }
  }

  lemma ExecutorsGrow(s: State, step: Step)
    requires step != Crash
    ensures s.executors <= Next(s, step).executors
  {
    if ByFire(step) {
      FireExecutors(s, step);
    } else if ByArmOrStart(step) {
      ArmExecutors(s, step);
    } else {
      OtherExecutors(s, step);
    }
  }

  lemma FireStartExecutors(s: State, step: Step)
    requires ByFireStart(step)
    ensures Next(s, step).executors == s.executors
  {
    FireStartChanges(s, step.ticket, step.FireLoad? && step.ok);
  }

  lemma FireExecutors(s: State, step: Step)
    requires ByFire(step)
    ensures Next(s, step).executors == s.executors
  {
    if ByFireStart(step) {
      FireStartExecutors(s, step);
    } else if step.FireCall? || step.FireReturn? {
      CallFrame(s, step);
    } else {
      FinishFrame(s, step);
    }
  }

  lemma ArmExecutors(s: State, step: Step)
    requires ByArmOrStart(step)
    ensures s.executors <= Next(s, step).executors
  {
  }

  lemma OtherExecutors(s: State, step: Step)
    requires !ByArmOrStart(step) && !ByFire(step) && step != Crash
    ensures Next(s, step).executors == s.executors
  {
  }

  lemma ExecutorsStayOk(s: State, step: Step)
    requires ExecutorsOk(s.rows, s.executors, s.mem.tickets)
    ensures ExecutorsOk(Next(s, step).rows, Next(s, step).executors, Next(s, step).mem.tickets)
  {
    if step != Crash {
      var s' := Next(s, step);
      StepFreezes(s, step);
      ExecutorsGrow(s, step);
      if Answers(step) { AnswersStayOk(s, step); } else { OthersAsk(s, step); }
      forall t | t in s'.mem.tickets ensures ExecutorOk(s'.rows, s'.executors, s'.mem.tickets[t]) {
        assert ExecutorOk(s.rows, s.executors, s'.mem.tickets[t]);
      }
    }
  }

  lemma ReturnAsks(s: State, t: TicketId, failed: bool, job: int)
    requires ExecutorsOk(s.rows, s.executors, s.mem.tickets)
    ensures ExecutorsOk(s.rows, s.executors, DoFireReturn(s, t, failed, job).mem.tickets)
  {
  }

  lemma AnswersStayOk(s: State, step: Step)
    requires ExecutorsOk(s.rows, s.executors, s.mem.tickets) && Answers(step)
    ensures ExecutorsOk(s.rows, s.executors, Next(s, step).mem.tickets)
  {
    match step
    case FireLoad(t, ok) => LoadAsks(s, t, ok);
    case FireLookup(t) => LookupAsks(s, t);
    case FireCall(t) => CallAsks(s, t);
    case FireReturn(t, failed, job) => ReturnAsks(s, t, failed, job);
  }

  /** A return is told by the step itself. */
  lemma ReturnIsTold(start: State, run: seq<Step>, t: TicketId, failed: bool, job: int)
    requires
      var s := Exec(start, run);
      Kept(start, run, s)
    ensures
      var step := FireReturn(t, failed, job);
      FinishesAreTold(start, run + [step], DoFireReturn(Exec(start, run), t, failed, job).mem.tickets)
  {
    var s, step := Exec(start, run), FireReturn(t, failed, job);
    KeptGoesOn(start, run, step, s);
    if At(s, t, Firing(Running)) {
      assert (run + [step])[..|run|] == run;
      assert ReturnsAt(start, run + [step], |run|, s.mem.tickets[t].id, failed, job);
    }
  }

  /** So is a lookup that finds nobody. */
  lemma MissIsTold(start: State, run: seq<Step>, t: TicketId)
    requires
      var s := Exec(start, run);
      Kept(start, run, s)
    ensures FinishesAreTold(start, run + [FireLookup(t)], DoFireLookup(Exec(start, run), t).mem.tickets)
  {
    var s, step := Exec(start, run), FireLookup(t);
    KeptGoesOn(start, run, step, s);
    if LookingUp(s, t) && s.mem.tickets[t].phase.pc.domain !in s.executors {
      assert ExecutorOk(s.rows, s.executors, s.mem.tickets[t]);
      assert (run + [step])[..|run|] == run;
      assert MissesAt(start, run + [step], |run|, s.mem.tickets[t].id);
    }
  }

  lemma RereadTells(start: State, run: seq<Step>, s: State, t: TicketId, tickets: map<TicketId, Ticket>)
    requires FinishesAreTold(start, run, s.mem.tickets) && Reread(s, t, tickets)
    ensures FinishesAreTold(start, run, tickets)
  {
  }

  lemma LoadTells(start: State, run: seq<Step>, s: State, t: TicketId, ok: bool)
    requires FinishesAreTold(start, run, s.mem.tickets)
    ensures FinishesAreTold(start, run, DoFireLoad(s, t, ok).mem.tickets)
  {
    LoadRereads(s, t, ok);
    RereadTells(start, run, s, t, DoFireLoad(s, t, ok).mem.tickets);
  }

  lemma CallTells(start: State, run: seq<Step>, s: State, t: TicketId)
    requires FinishesAreTold(start, run, s.mem.tickets)
    ensures FinishesAreTold(start, run, DoFireCall(s, t).mem.tickets)
  {
  }

  lemma OthersStayTold(start: State, run: seq<Step>, s: State, step: Step)
    requires FinishesAreTold(start, run, s.mem.tickets) && !Answers(step) && step != Crash
    ensures FinishesAreTold(start, run, Next(s, step).mem.tickets)
  {
    OthersAsk(s, step);
  }

  lemma FinishesStayTold(start: State, run: seq<Step>, step: Step)
    requires Kept(start, run, Exec(start, run))
    ensures FinishesAreTold(start, run + [step], Next(Exec(start, run), step).mem.tickets)
  {
    var s := Exec(start, run);
    KeptGoesOn(start, run, step, s);
    match step
    case FireReturn(t, failed, job) => ReturnIsTold(start, run, t, failed, job);
    case FireLookup(t) => MissIsTold(start, run, t);
    case FireLoad(t, ok) => LoadTells(start, run + [step], s, t, ok);
    case FireCall(t) => CallTells(start, run + [step], s, t);
    case Crash =>
    case _ => OthersStayTold(start, run + [step], s, step);
  }

  lemma FinishTellsRow(start: State, run: seq<Step>, s: State, t: TicketId, ok: bool)
    requires RowsAreTold(start, run, s.rows) && FinishesAreTold(start, run, s.mem.tickets)
    ensures RowsAreTold(start, run, DoFireFinish(s, t, ok).rows)
  {
    if Finishing(s, t) { assert FinishTold(start, run, s.mem.tickets[t]); }
  }

  lemma NewRowsSettleNothing(start: State, run: seq<Step>, s: State, th: Thread, ok: bool)
    requires RowsAreTold(start, run, s.rows)
    ensures RowsAreTold(start, run, DoArmInsert(s, th, ok).rows)
    ensures RowsAreTold(start, run, DoConfirmUpdate(s, th, ok).rows)
  {
  }

  lemma RowsStayTold(start: State, run: seq<Step>, step: Step)
    requires Kept(start, run, Exec(start, run))
    ensures RowsAreTold(start, run + [step], Next(Exec(start, run), step).rows)
  {
    var s := Exec(start, run);
    KeptGoesOn(start, run, step, s);
    match step
    case FireFinish(t, ok) => FinishTellsRow(start, run + [step], s, t, ok);
    case ArmInsert(th, ok) => NewRowsSettleNothing(start, run + [step], s, th, ok);
    case ConfirmUpdate(th, ok) => NewRowsSettleNothing(start, run + [step], s, th, ok);
    case _ => OnlyThreeStatementsWrite(s, step);
  }

  lemma {:induction false} RunKeeps(start: State, run: seq<Step>)
    requires start.rows == map[] && start.mem.tickets == map[]
    ensures Kept(start, run, Exec(start, run))
    decreases |run|
  {
    if run != [] {
      var before, step := run[..|run| - 1], run[|run| - 1];
      assert run == before + [step];
      RunKeeps(start, before);
      ExecAppend(start, before, step);
      RowsStayTold(start, before, step);
      FinishesStayTold(start, before, step);
      ExecutorsStayOk(Exec(start, before), step);
    }
  }

  /**
   In every run, a revert stored as reverted had its executor called and return without an
   error, with the job that is stored; one stored as failed had its executor return an error, with
   the job that is stored, or had none registered for its domain when its fire looked.
   */
  lemma OutcomeIsTheExecutors(window: nat, clock: int, run: seq<Step>, id: Id)
    requires id in Reached(window, clock, run).rows
    ensures
      var row := Reached(window, clock, run).rows[id];
      && (row.state == Reverted ==> Returned(Initial(window, clock), run, id, false, row.revertJob))
      && (row.state == RevertFailed ==>
            || Returned(Initial(window, clock), run, id, true, row.revertJob)
            || (Missed(Initial(window, clock), run, id) && row.revertJob == 0))
  {
    RunKeeps(Initial(window, clock), run);
  }

  /** An executor is only called for a revert of the domain it is registered for. */
  lemma CallsOnlyItsExecutor(window: nat, clock: int, run: seq<Step>, t: TicketId)
    requires At(Reached(window, clock, run), t, Firing(Call))
    ensures
      var s := Reached(window, clock, run);
      s.mem.tickets[t].id in s.rows && s.rows[s.mem.tickets[t].id].domain in s.executors
  {
    RunKeeps(Initial(window, clock), run);
    var s := Reached(window, clock, run);
    assert ExecutorOk(s.rows, s.executors, s.mem.tickets[t]);
  }

  // ----- what Arm and Confirm store -----

  /** Arm stores an armed row of its domain, due one window after its clock reading. */
  lemma ArmStores(s: State, th: Thread, id: Id, domain: string)
    requires th !in s.arming && th !in s.scheduling && domain != "" && id !in s.rows
    ensures
      var s' := Next(Next(s, ArmBegin(th, id, domain)), ArmInsert(th, true));
      && s'.rows == s.rows[id := Row(domain, s.clock, s.clock + s.window, Armed, None, 0)]
      && th in s'.scheduling && s'.scheduling[th].dues == [Due(id, s.clock + s.window)]
  {
  }

  /** A revert is confirmed exactly when it is armed and the caller names its domain or none; nothing else changes. */
  lemma ConfirmStoresIff(s: State, th: Thread, id: Id, domain: string)
    requires th !in s.confirms
    ensures
      var rows := Next(Next(s, ConfirmLoad(th, id, domain)), ConfirmUpdate(th, true)).rows;
      if IsArmed(s, id) && (domain == "" || s.rows[id].domain == domain)
      then rows == s.rows[id := s.rows[id].(state := Confirmed, confirmedAt := Some(s.clock))]
      else rows == s.rows
  {
  }
}
