/** Close can always come to its end: nothing it waits for is stuck. */
module SafeguardClose {
  import opened Wrappers
  import opened SafeguardMachine
  import opened SafeguardInvariants
  import opened SafeguardCoverage
  import opened SafeguardTheorems

  /** The process goes on and the SQL call, if it is one, succeeds. */
  predicate Smooth(step: Step) {
    step != Crash && (step.FireLoad? || step.FireFinish? ==> step.ok)
  }

  predicate AllSmooth(run: seq<Step>) {
    forall k :: 0 <= k < |run| ==> Smooth(run[k])
  }

  /** The run takes one ticket off the count and leaves Close where it is. */
  ghost predicate Retires(s: State, run: seq<Step>) {
    var s' := Exec(s, run);
    AllSmooth(run) && s'.closing == s.closing && s'.mem.running == s.mem.running - 1
  }

  lemma Ahead(s: State, step: Step, run: seq<Step>)
    requires Smooth(step) && Next(s, step).closing == s.closing && Next(s, step).mem.running == s.mem.running
    requires Retires(Next(s, step), run)
    ensures Retires(s, [step] + run)
  {
    assert ([step] + run)[1..] == run;
  }

  lemma Last(s: State, step: Step)
    requires Smooth(step) && Next(s, step).closing == s.closing && Next(s, step).mem.running == s.mem.running - 1
    ensures Retires(s, [step])
  {
    assert [step][1..] == [];
    assert Exec(s, [step]) == Next(s, step);
  }

  // ----- a fire comes to its end, from wherever it is -----

  lemma FromLeave(s: State, t: TicketId) returns (run: seq<Step>)
    requires At(s, t, Firing(Leave))
    ensures Retires(s, run)
  {
    Last(s, FireLeave(t));
    run := [FireLeave(t)];
  }

  lemma FromFinish(s: State, t: TicketId) returns (run: seq<Step>)
    requires Finishing(s, t)
    ensures Retires(s, run)
  {
    run := FromLeave(Next(s, FireFinish(t, true)), t);
    Ahead(s, FireFinish(t, true), run);
    run := [FireFinish(t, true)] + run;
  }

  /** The executor returns: Close has cancelled its context. */
  lemma FromRunning(s: State, t: TicketId) returns (run: seq<Step>)
    requires At(s, t, Firing(Running))
    ensures Retires(s, run)
  {
    run := FromFinish(Next(s, FireReturn(t, true, 0)), t);
    Ahead(s, FireReturn(t, true, 0), run);
    run := [FireReturn(t, true, 0)] + run;
  }

  lemma FromCall(s: State, t: TicketId) returns (run: seq<Step>)
    requires At(s, t, Firing(Call))
    ensures Retires(s, run)
  {
    run := FromRunning(Next(s, FireCall(t)), t);
    Ahead(s, FireCall(t), run);
    run := [FireCall(t)] + run;
  }

  lemma LookupGoesOn(s: State, t: TicketId)
    requires LookingUp(s, t)
    ensures
      var s' := DoFireLookup(s, t);
      && s'.closing == s.closing && s'.mem.running == s.mem.running
      && (At(s', t, Firing(Call)) || Finishing(s', t))
  {
  }

  lemma FromLookup(s: State, t: TicketId) returns (run: seq<Step>)
    requires LookingUp(s, t)
    ensures Retires(s, run)
  {
    LookupGoesOn(s, t);
    var s' := Next(s, FireLookup(t));
    if At(s', t, Firing(Call)) {
      run := FromCall(s', t);
    } else {
      run := FromFinish(s', t);
    }
    Ahead(s, FireLookup(t), run);
    run := [FireLookup(t)] + run;
  }

  lemma LoadGoesOn(s: State, t: TicketId)
    requires At(s, t, Firing(Load))
    ensures
      var s' := DoFireLoad(s, t, true);
      && s'.closing == s.closing && s'.mem.running == s.mem.running
      && (LookingUp(s', t) || At(s', t, Firing(Leave)))
  {
  }

  lemma FromLoad(s: State, t: TicketId) returns (run: seq<Step>)
    requires At(s, t, Firing(Load))
    ensures Retires(s, run)
  {
    LoadGoesOn(s, t);
    var s' := Next(s, FireLoad(t, true));
    if LookingUp(s', t) {
      run := FromLookup(s', t);
    } else {
      run := FromLeave(s', t);
    }
    Ahead(s, FireLoad(t, true), run);
    run := [FireLoad(t, true)] + run;
  }

  lemma FromUnlink(s: State, t: TicketId) returns (run: seq<Step>)
    requires At(s, t, Firing(Unlink))
    ensures Retires(s, run)
  {
    run := FromLoad(Next(s, FireUnlink(t)), t);
    Ahead(s, FireUnlink(t), run);
    run := [FireUnlink(t)] + run;
  }

  lemma FromDue(s: State, t: TicketId) returns (run: seq<Step>)
    requires At(s, t, Pending) && s.mem.tickets[t].fireAt <= s.clock
    ensures Retires(s, run)
  {
    run := FromUnlink(Next(s, Expire(t)), t);
    Ahead(s, Expire(t), run);
    run := [Expire(t)] + run;
  }

  /** A timer that another fire took out of the map was not stopped by Close; it expires in its own time. */
  lemma FromPending(s: State, t: TicketId) returns (run: seq<Step>)
    requires At(s, t, Pending)
    ensures Retires(s, run)
  {
    var fireAt := s.mem.tickets[t].fireAt;
    var elapsed: nat := if fireAt > s.clock then fireAt - s.clock else 0;
    run := FromDue(Next(s, Tick(elapsed)), t);
    Ahead(s, Tick(elapsed), run);
    run := [Tick(elapsed)] + run;
  }

  lemma FromFiring(s: State, t: TicketId) returns (run: seq<Step>)
    requires t in s.mem.tickets && s.mem.tickets[t].phase.Firing?
    ensures Retires(s, run)
  {
    match s.mem.tickets[t].phase.pc
    case Unlink => run := FromUnlink(s, t);
    case Load => run := FromLoad(s, t);
    case Lookup(_) => run := FromLookup(s, t);
    case Call => run := FromCall(s, t);
    case Running => run := FromRunning(s, t);
    case Finish(_, _) => run := FromFinish(s, t);
    case Leave => run := FromLeave(s, t);
  }

  // ----- a stopped timer's Done comes -----

  lemma FromStopped(s: State, t: TicketId) returns (run: seq<Step>)
    requires Inv(s) && s.closing != Open && t in s.mem.tickets && s.mem.tickets[t].phase.StopOwed?
    ensures Retires(s, run)
  {
    match s.mem.tickets[t].phase.owner
    case Closer =>
      Last(s, CloseRelease(t));
      run := [CloseRelease(t)];
    case Confirmer(th) =>
      Last(s, ConfirmRelease(th));
      run := [ConfirmRelease(th)];
  }

  /** While the count is above zero, something can take one off it. */
  lemma OneRetires(s: State) returns (run: seq<Step>)
    requires Inv(s) && s.closing != Open && s.mem.running != 0
    ensures Retires(s, run)
  {
    assert Live(s.mem) != {};
    var t :| t in Live(s.mem);
    match s.mem.tickets[t].phase
    case Pending => run := FromPending(s, t);
    case Firing(_) => run := FromFiring(s, t);
    case StopOwed(_) => run := FromStopped(s, t);
  }

  lemma {:induction false} AllRetire(s: State) returns (run: seq<Step>)
    requires Inv(s) && s.closing != Open
    ensures
      var s' := Exec(s, run);
      AllSmooth(run) && Inv(s') && s'.closing == s.closing && s'.mem.running == 0
    decreases |Live(s.mem)|
  {
    run := [];
    if s.mem.running != 0 {
      var first := OneRetires(s);
      ExecKeepsInv(s, first);
      var rest := AllRetire(Exec(s, first));
      ExecConcat(s, first, rest);
      run := first + rest;
    }
  }

  lemma NothingOwed(s: State)
    requires Inv(s) && s.mem.running == 0
    ensures forall t :: t in s.mem.tickets ==> s.mem.tickets[t].phase == Retired
  {
    assert Live(s.mem) == {};
    assert forall t :: t in s.mem.tickets ==> t !in Live(s.mem);
  }

  lemma CancelEndsDraining(s: State)
    requires forall t :: t in s.mem.tickets ==> s.mem.tickets[t].phase == Retired
    requires s.closing == Draining || s.closing == Waiting
    ensures DoCloseCancel(s) == s.(closing := Waiting)
  {
  }

  /** The Done loop has ended and the count is zero: cancel, wait, return. */
  lemma Returns(s: State) returns (run: seq<Step>)
    requires Inv(s) && (s.closing == Draining || s.closing == Waiting) && s.mem.running == 0
    ensures AllSmooth(run) && Exec(s, run).closing == Closed
  {
    NothingOwed(s);
    CancelEndsDraining(s);
    run := LastTwo(s);
  }

  lemma LastTwo(s: State) returns (run: seq<Step>)
    requires DoCloseCancel(s) == s.(closing := Waiting) && s.mem.running == 0
    ensures AllSmooth(run) && Exec(s, run).closing == Closed
  {
    run := [CloseCancel] + [CloseReturn];
    assert run[1..] == [CloseReturn] && run[1..][1..] == [];
    assert Exec(s, run) == Exec(DoCloseCancel(s), [CloseReturn]);
    assert Exec(DoCloseCancel(s), [CloseReturn]) == DoCloseReturn(DoCloseCancel(s));
  }

  /**
   From every reachable state in which Close has begun, without a crash and with every
   SQL call succeeding, Close can return: no count is left that nobody would take back.
   */
  lemma CloseCanReturn(window: nat, clock: int, before: seq<Step>) returns (run: seq<Step>)
    requires Reached(window, clock, before).closing != Open
    ensures AllSmooth(run) && Reached(window, clock, before + run).closing == Closed
  {
    ReachedInv(window, clock, before);
    var s := Reached(window, clock, before);
    run := [];
    if s.closing != Closed {
      var drain := AllRetire(s);
      var last := Returns(Exec(s, drain));
      ExecConcat(s, drain, last);
      run := drain + last;
    }
    ExecConcat(Initial(window, clock), before, run);
  }

  // ----- and nothing is added -----

  ghost predicate AddsNothing(s: State, s': State) {
    s'.mem.tickets.Keys == s.mem.tickets.Keys && s'.mem.running <= s.mem.running
      && (s.closing != Open ==> s'.closing != Open)
  }

  lemma ArmAddsNothing(s: State, step: Step)
    requires Inv(s) && s.closing != Open && ByArmOrStart(step)
    ensures AddsNothing(s, Next(s, step))
  {
    ArmFrame(s, step);
    if step.EnterSchedule? { NoAddAfterClose(s, step.thread, step.ticket); }
  }

  lemma ConfirmAddsNothing(s: State, step: Step)
    requires ByConfirm(step)
    ensures AddsNothing(s, Next(s, step))
  {
  }

  lemma PhaseAddsNothing(m: Memory, t: TicketId, phase: Phase)
    requires t in m.tickets
    ensures SetPhase(m, t, phase).tickets.Keys == m.tickets.Keys && Retire(m, t).tickets.Keys == m.tickets.Keys
  {
  }

  lemma ExpireAddsNothing(s: State, t: TicketId)
    ensures AddsNothing(s, DoExpire(s, t)) && AddsNothing(s, DoFireUnlink(s, t))
  {
    if t in s.mem.tickets {
      PhaseAddsNothing(s.mem, t, Firing(Unlink));
      PhaseAddsNothing(s.mem, t, Firing(Load));
    }
  }

  lemma LoadAddsNothing(s: State, t: TicketId, ok: bool)
    ensures AddsNothing(s, DoFireLoad(s, t, ok))
  {
    if At(s, t, Firing(Load)) { PhaseAddsNothing(s.mem, t, DoFireLoad(s, t, ok).mem.tickets[t].phase); }
  }

  lemma LookupAddsNothing(s: State, t: TicketId)
    ensures AddsNothing(s, DoFireLookup(s, t))
  {
    if LookingUp(s, t) { PhaseAddsNothing(s.mem, t, DoFireLookup(s, t).mem.tickets[t].phase); }
  }

  lemma FireStartAddsNothing(s: State, step: Step)
    requires ByFireStart(step)
    ensures AddsNothing(s, Next(s, step))
  {
    match step
    case Expire(t) => ExpireAddsNothing(s, t);
    case FireUnlink(t) => ExpireAddsNothing(s, t);
    case FireLoad(t, ok) => LoadAddsNothing(s, t, ok);
    case FireLookup(t) => LookupAddsNothing(s, t);
  }

  lemma CallAddsNothing(s: State, t: TicketId, failed: bool, job: int)
    ensures AddsNothing(s, DoFireCall(s, t)) && AddsNothing(s, DoFireReturn(s, t, failed, job))
  {
  }

  lemma LeaveAddsNothing(s: State, t: TicketId, ok: bool)
    ensures AddsNothing(s, DoFireFinish(s, t, ok)) && AddsNothing(s, DoFireLeave(s, t))
  {
  }

  lemma FireEndAddsNothing(s: State, step: Step)
    requires ByFire(step) && !ByFireStart(step)
    ensures AddsNothing(s, Next(s, step))
  {
    match step
    case FireCall(t) => CallAddsNothing(s, t, true, 0);
    case FireReturn(t, failed, job) => CallAddsNothing(s, t, failed, job);
    case FireFinish(t, ok) => LeaveAddsNothing(s, t, ok);
    case FireLeave(t) => LeaveAddsNothing(s, t, true);
  }

  lemma CloseAddsNothing(s: State, step: Step)
    requires !ByArmOrStart(step) && !ByConfirm(step) && !ByFire(step) && step != Crash
    ensures AddsNothing(s, Next(s, step))
  {
  }

  /**
   From the moment Close has taken the mutex no timer is made and the count only falls, in every run of this
   process.
   */
  lemma {:induction false} NothingIsAdded(s: State, run: seq<Step>)
    requires Inv(s) && s.closing != Open && Crash !in run
    ensures AddsNothing(s, Exec(s, run))
    decreases |run|
  {
    if run != [] {
      var step := run[0];
      if ByArmOrStart(step) {
        ArmAddsNothing(s, step);
      } else if ByConfirm(step) {
        ConfirmAddsNothing(s, step);
      } else if ByFireStart(step) {
        FireStartAddsNothing(s, step);
      } else if ByFire(step) {
        FireEndAddsNothing(s, step);
      } else {
        CloseAddsNothing(s, step);
      }
      StepKeepsInv(s, step);
      NothingIsAdded(Next(s, step), run[1..]);
    }
  }
}
