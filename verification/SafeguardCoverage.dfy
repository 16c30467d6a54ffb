/** No armed revert is lost, and no revert is executed twice in one process lifetime. */
module SafeguardCoverage {
  import opened Wrappers
  import opened SafeguardMachine
  import opened SafeguardInvariants

  // ----- coverage -----

  /** Coverage survives a step after which every armed, unstranded revert that was covered still is. */
  lemma CoverKept(s: State, s': State)
    requires CoverInv(s)
    requires s'.closing == Open ==>
               s.closing == Open && s'.boot == s.boot && s'.armedHere == s.armedHere && s.stranded <= s'.stranded
    requires forall id :: IsArmed(s', id) ==> IsArmed(s, id)
    requires forall id :: IsArmed(s', id) && id !in s'.stranded && Handled(s.mem, id) ==>
               Handled(s'.mem, id) || Carried(s'.scheduling, id)
    requires forall id :: IsArmed(s', id) && id !in s'.stranded && Carried(s.scheduling, id) ==>
               Handled(s'.mem, id) || Carried(s'.scheduling, id)
    ensures CoverInv(s')
  {
  }

  /** A phase change that keeps the ticket handling, or that concerns a settled or stranded revert. */
  lemma PhaseKeepsHandled(m: Memory, t: TicketId, phase: Phase, timers: map<Id, TicketId>, id: Id)
    requires t in m.tickets && Handled(m, id)
    requires Handles(m.tickets[t], id) ==> Handles(m.tickets[t].(phase := phase), id)
    ensures Handled(SetPhase(m, t, phase).(timers := timers), id)
    ensures Handled(SetPhase(m, t, phase), id)
    ensures Handled(SetPhase(m, t, phase).(running := m.running - 1), id)
  {
    var k :| k in m.tickets && Handles(m.tickets[k], id);
    assert Handles(SetPhase(m, t, phase).tickets[k], id);
  }

  lemma PhaseKeepsCover(s: State, t: TicketId, phase: Phase, s': State)
    requires CoverInv(s) && t in s.mem.tickets
    requires s'.mem.tickets == SetPhase(s.mem, t, phase).tickets && s'.scheduling == s.scheduling
    requires s'.closing == Open ==>
               s.closing == Open && s'.boot == s.boot && s'.armedHere == s.armedHere && s.stranded <= s'.stranded
    requires forall id :: IsArmed(s', id) ==> IsArmed(s, id)
    requires
      var id := s.mem.tickets[t].id;
      IsArmed(s', id) && id !in s'.stranded && Handles(s.mem.tickets[t], id) ==>
          Handles(s.mem.tickets[t].(phase := phase), id)
    ensures CoverInv(s')
  {
    forall id | IsArmed(s', id) && id !in s'.stranded && Handled(s.mem, id) ensures Handled(s'.mem, id) {
      PhaseKeepsHandled(s.mem, t, phase, s'.mem.timers, id);
      var k :| k in SetPhase(s.mem, t, phase).tickets && Handles(SetPhase(s.mem, t, phase).tickets[k], id);
      assert Handles(s'.mem.tickets[k], id);
    }
    CoverKept(s, s');
  }

  lemma ArmInsertKeepsCover(s: State, th: Thread, ok: bool)
    requires CoverInv(s)
    ensures CoverInv(DoArmInsert(s, th, ok))
  {
    var s' := DoArmInsert(s, th, ok);
    if th in s.arming && th !in s.scheduling {
      var id := s.arming[th].id;
      if !ok || id in s.rows {
        CoverKept(s, s');
      } else {
        assert s'.scheduling[th].dues[0] in s'.scheduling[th].dues;
        assert Carries(s'.scheduling[th], id);
        forall other | Carried(s.scheduling, other) ensures Carried(s'.scheduling, other) {
          var w :| w in s.scheduling && Carries(s.scheduling[w], other);
          assert Carries(s'.scheduling[w], other);
        }
      }
    }
  }

  lemma ReadDelayKeepsCover(s: State, th: Thread)
    requires CoverInv(s)
    ensures CoverInv(DoReadDelay(s, th))
  {
    var s' := DoReadDelay(s, th);
    forall id | Carried(s.scheduling, id) ensures Carried(s'.scheduling, id) {
      var w :| w in s.scheduling && Carries(s.scheduling[w], id);
      var d :| d in s.scheduling[w].dues && d.id == id;
      assert d in s'.scheduling[w].dues;
    }
    CoverKept(s, s');
  }

  /** Leaving dues[0] behind: schedule placed a timer for it, found one in the map, or the guard is closing. */
  lemma EnterScheduleKeepsCover(s: State, th: Thread, t: TicketId)
    requires Base(s) && CoverInv(s)
    ensures CoverInv(DoEnterSchedule(s, th, t))
  {
    var s' := DoEnterSchedule(s, th, t);
    if s' != s && s.closing == Open {
      var Scheduling(dues, delay) := s.scheduling[th];
      var first := dues[0].id;
      assert Handled(s'.mem, first) by {
        if first in s.mem.timers {
          assert Handles(s'.mem.tickets[s.mem.timers[first]], first);
        } else {
          assert Handles(s'.mem.tickets[t], first);
        }
      }
      forall id | Handled(s.mem, id) ensures Handled(s'.mem, id) {
        var k :| k in s.mem.tickets && Handles(s.mem.tickets[k], id);
        assert Handles(s'.mem.tickets[k], id);
      }
      forall id | Carried(s.scheduling, id) ensures Handled(s'.mem, id) || Carried(s'.scheduling, id) {
        var w :| w in s.scheduling && Carries(s.scheduling[w], id);
        if w == th && id != first {
          var d :| d in dues && d.id == id;
          assert d in dues[1..];
          assert Carries(s'.scheduling[th], id);
        } else if w != th {
          assert Carries(s'.scheduling[w], id);
        }
      }
      CoverKept(s, s');
    }
  }

  lemma StartSelectKeepsCover(s: State, th: Thread, dues: seq<Due>, ok: bool)
    requires CoverInv(s)
    ensures CoverInv(DoStartSelect(s, th, dues, ok))
  {
    var s' := DoStartSelect(s, th, dues, ok);
    if s' != s && ok {
      forall id | IsArmed(s', id) ensures Carried(s'.scheduling, id) {
        assert Due(id, s.rows[id].expiresAt) in s'.scheduling[th].dues;
        assert Carries(s'.scheduling[th], id);
      }
    } else if s' != s {
      forall id | IsArmed(s', id) ensures id in s'.stranded {
        assert id in ArmedIds(s.rows);
      }
    }
  }

  lemma FireLoadKeepsCover(s: State, t: TicketId, ok: bool)
    requires CoverInv(s)
    ensures CoverInv(DoFireLoad(s, t, ok))
  {
    if At(s, t, Firing(Load)) {
      PhaseKeepsCover(s, t, DoFireLoad(s, t, ok).mem.tickets[t].phase, DoFireLoad(s, t, ok));
    }
  }

  lemma FireFinishKeepsCover(s: State, t: TicketId, ok: bool)
    requires CoverInv(s) && (Finishing(s, t) ==> IsOutcome(s.mem.tickets[t].phase.pc.outcome))
    ensures CoverInv(DoFireFinish(s, t, ok))
  {
    if Finishing(s, t) {
      PhaseKeepsCover(s, t, Firing(Leave), DoFireFinish(s, t, ok));
    }
  }

  lemma ConfirmStopKeepsCover(s: State, th: Thread)
    requires Base(s) && CoverInv(s)
    ensures CoverInv(DoConfirmStop(s, th))
  {
    if th in s.confirms && s.confirms[th].Stopping? && At(s, s.confirms[th].ticket, Pending) {
      assert ConfirmOk(s.rows, s.mem.tickets, s.confirms[th]);
      PhaseKeepsCover(s, s.confirms[th].ticket, StopOwed(Confirmer(th)), DoConfirmStop(s, th));
    }
  }

  // ----- the whole invariant -----

  lemma ArmStartStep(s: State, step: Step)
    requires Inv(s)
    requires step.Tick? || step.Register? || step.ArmBegin? || step.ArmInsert? || step.ReadDelay?
             || step.EnterSchedule? || step.StartBegin? || step.StartSelect?
    ensures Inv(Next(s, step))
  {
    match step
    case Tick(elapsed) => TickKeepsBase(s, elapsed);
    case Register(domain) =>
    case ArmBegin(th, id, domain) => ArmBeginKeepsBase(s, th, id, domain);
    case ArmInsert(th, ok) => ArmInsertKeepsBase(s, th, ok); ArmInsertKeepsCover(s, th, ok);
    case ReadDelay(th) => ReadDelayKeepsBase(s, th); ReadDelayKeepsCover(s, th);
    case EnterSchedule(th, t) => EnterScheduleKeepsBase(s, th, t); EnterScheduleKeepsCover(s, th, t);
    case StartBegin =>
    case StartSelect(th, dues, ok) => StartSelectKeepsBase(s, th, dues, ok); StartSelectKeepsCover(s, th, dues, ok);
  }

  lemma ConfirmLoadKeepsInv(s: State, th: Thread, id: Id, domain: string)
    requires Inv(s)
    ensures Inv(DoConfirmLoad(s, th, id, domain))
  {
    ConfirmLoadKeepsBase(s, th, id, domain);
  }

  lemma ConfirmUpdateKeepsInv(s: State, th: Thread, ok: bool)
    requires Inv(s)
    ensures Inv(DoConfirmUpdate(s, th, ok))
  {
    ConfirmUpdateKeepsBase(s, th, ok);
    CoverKept(s, DoConfirmUpdate(s, th, ok));
  }

  lemma ConfirmUnlinkKeepsInv(s: State, th: Thread)
    requires Inv(s)
    ensures Inv(DoConfirmUnlink(s, th))
  {
    ConfirmUnlinkKeepsBase(s, th);
    UnlinkKeepsCover(s, th);
  }

  lemma ConfirmStopKeepsInv(s: State, th: Thread)
    requires Inv(s)
    ensures Inv(DoConfirmStop(s, th))
  {
    ConfirmStopKeepsBase(s, th);
    ConfirmStopKeepsCover(s, th);
  }

  lemma ConfirmReleaseKeepsInv(s: State, th: Thread)
    requires Inv(s)
    ensures Inv(DoConfirmRelease(s, th))
  {
    ConfirmReleaseKeepsBase(s, th);
    ReleaseKeepsCover(s, th);
  }

  lemma ConfirmStep(s: State, step: Step)
    requires Inv(s)
    requires step.ConfirmLoad? || step.ConfirmUpdate? || step.ConfirmUnlink? || step.ConfirmStop?
             || step.ConfirmRelease?
    ensures Inv(Next(s, step))
  {
    if step.ConfirmLoad? {
      ConfirmLoadKeepsInv(s, step.thread, step.id, step.domain);
    } else if step.ConfirmUpdate? {
      ConfirmUpdateKeepsInv(s, step.thread, step.ok);
    } else if step.ConfirmUnlink? {
      ConfirmUnlinkKeepsInv(s, step.thread);
    } else if step.ConfirmStop? {
      ConfirmStopKeepsInv(s, step.thread);
    } else {
      ConfirmReleaseKeepsInv(s, step.thread);
    }
  }

  lemma UnlinkKeepsCover(s: State, th: Thread)
    requires CoverInv(s)
    ensures CoverInv(DoConfirmUnlink(s, th))
  {
  }

  lemma ReleaseKeepsCover(s: State, th: Thread)
    requires Base(s) && CoverInv(s)
    ensures CoverInv(DoConfirmRelease(s, th))
  {
    if th in s.confirms && s.confirms[th].Releasing? {
      PhaseKeepsCover(s, s.confirms[th].ticket, Retired, DoConfirmRelease(s, th));
    }
  }

  /** fire moving from one statement to the next without leaving. */
  lemma FireMoveKeepsInv(s: State, t: TicketId, pc: FirePc)
    requires Inv(s)
    requires t in s.mem.tickets && s.mem.tickets[t].phase.Firing? && s.mem.tickets[t].phase.pc != Unlink
    requires pc != Leave && (pc.Finish? ==> IsOutcome(pc.outcome))
    ensures Inv(s.(mem := SetPhase(s.mem, t, Firing(pc))))
  {
    FireKeepsBase(s, t, pc);
    PhaseKeepsCover(s, t, Firing(pc), s.(mem := SetPhase(s.mem, t, Firing(pc))));
  }

  lemma ExpireKeepsInv(s: State, t: TicketId)
    requires Inv(s)
    ensures Inv(DoExpire(s, t))
  {
    ExpireKeepsBase(s, t);
    if At(s, t, Pending) && s.mem.tickets[t].fireAt <= s.clock {
      PhaseKeepsCover(s, t, Firing(Unlink), DoExpire(s, t));
    }
  }

  lemma FireUnlinkKeepsInv(s: State, t: TicketId)
    requires Inv(s)
    ensures Inv(DoFireUnlink(s, t))
  {
    FireUnlinkKeepsBase(s, t);
    if At(s, t, Firing(Unlink)) { PhaseKeepsCover(s, t, Firing(Load), DoFireUnlink(s, t)); }
  }

  lemma FireLoadKeepsBase(s: State, t: TicketId, ok: bool)
    requires Base(s)
    ensures Base(DoFireLoad(s, t, ok))
  {
    if At(s, t, Firing(Load)) {
      FireKeepsBase(s, t, Leave);
      FireKeepsBase(s, t, Lookup(s.rows[s.mem.tickets[t].id].domain));
    }
  }

  lemma FireLoadKeepsInv(s: State, t: TicketId, ok: bool)
    requires Inv(s)
    ensures Inv(DoFireLoad(s, t, ok))
  {
    FireLoadKeepsBase(s, t, ok);
    FireLoadKeepsCover(s, t, ok);
  }

  lemma FireLookupKeepsInv(s: State, t: TicketId)
    requires Inv(s)
    ensures Inv(DoFireLookup(s, t))
  {
    if LookingUp(s, t) {
      if s.mem.tickets[t].phase.pc.domain in s.executors {
        FireMoveKeepsInv(s, t, Call);
      } else {
        FireMoveKeepsInv(s, t, Finish(RevertFailed, 0));
      }
    }
  }

  lemma FireStartStep(s: State, step: Step)
    requires Inv(s)
    requires step.Expire? || step.FireUnlink? || step.FireLoad? || step.FireLookup?
    ensures Inv(Next(s, step))
  {
    match step
    case Expire(t) => ExpireKeepsInv(s, t);
    case FireUnlink(t) => FireUnlinkKeepsInv(s, t);
    case FireLoad(t, ok) => FireLoadKeepsInv(s, t, ok);
    case FireLookup(t) => FireLookupKeepsInv(s, t);
  }

  lemma FireCallKeepsInv(s: State, t: TicketId)
    requires Inv(s)
    ensures Inv(DoFireCall(s, t))
  {
    FireCallKeepsBase(s, t);
    if At(s, t, Firing(Call)) { PhaseKeepsCover(s, t, Firing(Running), DoFireCall(s, t)); }
  }

  lemma FireReturnKeepsInv(s: State, t: TicketId, failed: bool, job: int)
    requires Inv(s)
    ensures Inv(DoFireReturn(s, t, failed, job))
  {
    if At(s, t, Firing(Running)) { FireMoveKeepsInv(s, t, Finish(if failed then RevertFailed else Reverted, job)); }
  }

  lemma FireFinishKeepsInv(s: State, t: TicketId, ok: bool)
    requires Inv(s)
    ensures Inv(DoFireFinish(s, t, ok))
  {
    FireFinishKeepsBase(s, t, ok);
    if Finishing(s, t) { assert TicketOk(s.rows, s.clock, s.mem.tickets[t]); }
    FireFinishKeepsCover(s, t, ok);
  }

  lemma FireLeaveKeepsInv(s: State, t: TicketId)
    requires Inv(s)
    ensures Inv(DoFireLeave(s, t))
  {
    if At(s, t, Firing(Leave)) {
      RetireKeepsBase(s, t);
      PhaseKeepsCover(s, t, Retired, DoFireLeave(s, t));
    }
  }

  lemma FireCallStep(s: State, step: Step)
    requires Inv(s) && (step.FireCall? || step.FireReturn?)
    ensures Inv(Next(s, step))
  {
    match step
    case FireCall(t) => FireCallKeepsInv(s, t);
    case FireReturn(t, failed, job) => FireReturnKeepsInv(s, t, failed, job);
  }

  lemma FireEndStep(s: State, step: Step)
    requires Inv(s) && (step.FireFinish? || step.FireLeave?)
    ensures Inv(Next(s, step))
  {
    match step
    case FireFinish(t, ok) => FireFinishKeepsInv(s, t, ok);
    case FireLeave(t) => FireLeaveKeepsInv(s, t);
  }

  /** Once the guard is closing nothing is promised about coverage. */
  lemma CloseLockKeepsInv(s: State)
    requires Inv(s)
    ensures Inv(DoCloseLock(s))
  {
    CloseLockKeepsBase(s);
  }

  lemma CloseReleaseKeepsInv(s: State, t: TicketId)
    requires Inv(s)
    ensures Inv(DoCloseRelease(s, t))
  {
    if s.closing == Draining && At(s, t, StopOwed(Closer)) { RetireKeepsBase(s, t); }
  }

  lemma CloseEndKeepsInv(s: State)
    requires Inv(s)
    ensures Inv(DoCloseCancel(s)) && Inv(DoCloseReturn(s))
  {
    CloseCancelKeepsBase(s);
  }

  lemma CrashKeepsInv(s: State)
    requires Inv(s)
    ensures Inv(DoCrash(s))
  {
    CrashKeepsBase(s);
  }

  lemma CloseStartStep(s: State, step: Step)
    requires Inv(s) && (step.CloseLock? || step.CloseRelease?)
    ensures Inv(Next(s, step))
  {
    match step
    case CloseLock => CloseLockKeepsInv(s);
    case CloseRelease(t) => CloseReleaseKeepsInv(s, t);
  }

  lemma CloseEndStep(s: State, step: Step)
    requires Inv(s) && (step.CloseCancel? || step.CloseReturn?)
    ensures Inv(Next(s, step))
  {
    CloseEndKeepsInv(s);
  }

  lemma CrashStep(s: State)
    requires Inv(s)
    ensures Inv(Next(s, Crash))
  {
    CrashKeepsInv(s);
  }

  lemma StepKeepsInv(s: State, step: Step)
    requires Inv(s)
    ensures Inv(Next(s, step))
  {
    if step.CloseLock? || step.CloseRelease? {
      CloseStartStep(s, step);
    } else if step.CloseCancel? || step.CloseReturn? {
      CloseEndStep(s, step);
    } else if step == Crash {
      CrashStep(s);
    } else if step.ConfirmLoad? || step.ConfirmUpdate? || step.ConfirmUnlink? || step.ConfirmStop?
              || step.ConfirmRelease? {
      ConfirmStep(s, step);
    } else if step.Expire? || step.FireUnlink? || step.FireLoad? || step.FireLookup? {
      FireStartStep(s, step);
    } else if step.FireCall? || step.FireReturn? {
      FireCallStep(s, step);
    } else if step.FireFinish? || step.FireLeave? {
      FireEndStep(s, step);
    } else {
      ArmStartStep(s, step);
    }
  }

  lemma InitialInv(window: nat, clock: int)
    ensures Inv(Initial(window, clock))
  {
  }

  /** Every reachable state, in every interleaving, with failures and crashes anywhere. */
  lemma {:induction false} ExecKeepsInv(s: State, run: seq<Step>)
    requires Inv(s)
    ensures Inv(Exec(s, run))
    decreases |run|
  {
    if run != [] {
      StepKeepsInv(s, run[0]);
      ExecKeepsInv(Next(s, run[0]), run[1..]);
    }
  }
}
