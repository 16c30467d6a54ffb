/**
 A revert's executor is called at most once in a process lifetime unless Start read a revert that Arm had taken
 on.
 */
module SafeguardOnce {
  import opened Wrappers
  import opened SafeguardMachine
  import opened SafeguardInvariants
  import opened SafeguardCoverage

  type Tickets = map<TicketId, Ticket>
  type Schedulers = map<Thread, Scheduling>

  /** The executor was called for this ticket, or never will be. */
  predicate Called(p: Phase) {
    p == Retired || (p.Firing? && (p.pc == Running || p.pc.Finish? || p.pc == Leave))
  }

  ghost predicate TicketsOnce(tickets: Tickets) {
    forall t, u :: t in tickets && u in tickets && tickets[t].id == tickets[u].id ==> t == u
  }

  ghost predicate Distinct(dues: seq<Due>) {
    forall i, j :: 0 <= i < j < |dues| ==> dues[i].id != dues[j].id
  }

  /** No revert waits to be scheduled in two places. */
  ghost predicate DuesOnce(scheduling: Schedulers) {
    && (forall th :: th in scheduling ==> Distinct(scheduling[th].dues))
    && (forall th, id, other ::
        th in scheduling && other in scheduling && Carries(scheduling[th], id) && Carries(scheduling[other], id) ==>
            th == other)
  }

  /** No revert that has a timer waits to be scheduled. */
  ghost predicate Apart(tickets: Tickets, scheduling: Schedulers) {
    forall t, th :: t in tickets && th in scheduling ==> !Carries(scheduling[th], tickets[t].id)
  }

  ghost predicate CalledTicket(tickets: Tickets, id: Id) {
    exists t :: t in tickets && tickets[t].id == id && Called(tickets[t].phase)
  }

  ghost predicate CallsOnce(log: seq<Execution>, epoch: nat, tickets: Tickets) {
    forall i :: 0 <= i < |log| && log[i].epoch == epoch ==> CalledTicket(tickets, log[i].id)
  }

  /** Two calls of one executor in one lifetime only in an overlapped lifetime. */
  ghost predicate History(log: seq<Execution>, overlapped: set<nat>) {
    forall i, j :: 0 <= i < j < |log| && log[i].id == log[j].id && log[i].epoch == log[j].epoch ==>
        log[i].epoch in overlapped
  }

  ghost predicate Single(log: seq<Execution>, epoch: nat, tickets: Tickets, scheduling: Schedulers) {
    TicketsOnce(tickets) && DuesOnce(scheduling) && Apart(tickets, scheduling) && CallsOnce(log, epoch, tickets)
  }

  /** Until Start has read the table, this process only knows what it armed itself. */
  ghost predicate Early(boot: Boot, tickets: Tickets, scheduling: Schedulers, armedHere: set<Id>) {
    boot != Reconciled ==>
      && (forall t :: t in tickets ==> tickets[t].id in armedHere)
      && (forall th, d :: th in scheduling && d in scheduling[th].dues ==> d.id in armedHere)
  }

  ghost predicate Once(log: seq<Execution>, overlapped: set<nat>, epoch: nat, boot: Boot, armedHere: set<Id>,
                       tickets: Tickets, scheduling: Schedulers) {
    && History(log, overlapped)
    && Early(boot, tickets, scheduling, armedHere)
    && (epoch in overlapped || Single(log, epoch, tickets, scheduling))
  }

  ghost predicate OnceInv(s: State) {
    Once(s.log, s.overlapped, s.epoch, s.boot, s.armedHere, s.mem.tickets, s.scheduling)
  }

  /** fire read the row as armed and has not called the executor yet. */
  predicate Committed(p: Phase) {
    p.Firing? && (p.pc.Lookup? || p.pc == Call)
  }

  /** Only a ticket whose row is armed may become committed. */
  ghost predicate Commits(rows: map<Id, Row>, tickets: Tickets, tickets': Tickets) {
    forall t :: t in tickets' && Committed(tickets'[t].phase) ==>
      && t in tickets && tickets'[t].id == tickets[t].id
      && (Committed(tickets[t].phase) || (tickets[t].id in rows && rows[tickets[t].id].state == Armed))
  }

  // ----- scheduling -----

  /** A revert without a row has no timer and waits nowhere. */
  lemma NewIsNowhere(s: State, id: Id)
    requires Base(s) && id !in s.rows
    ensures forall t :: t in s.mem.tickets ==> s.mem.tickets[t].id != id
    ensures forall th :: th in s.scheduling ==> !Carries(s.scheduling[th], id)
  {
    forall t | t in s.mem.tickets ensures s.mem.tickets[t].id != id {
      assert TicketOk(s.rows, s.clock, s.mem.tickets[t]);
    }
    forall w | w in s.scheduling ensures !Carries(s.scheduling[w], id) {
      assert Known(s.rows, s.scheduling[w].dues);
    }
  }

  lemma OneDueKeepsSingle(log: seq<Execution>, epoch: nat, tickets: Tickets, scheduling: Schedulers, th: Thread,
                          due: Due)
    requires Single(log, epoch, tickets, scheduling) && th !in scheduling
    requires forall t :: t in tickets ==> tickets[t].id != due.id
    requires forall w :: w in scheduling ==> !Carries(scheduling[w], due.id)
    ensures Single(log, epoch, tickets, scheduling[th := Scheduling([due], None)])
  {
    forall other | Carries(Scheduling([due], None), other) ensures other == due.id { }
  }

  /** A call starts with a list of one revert that is nowhere else. */
  lemma NewListKeepsOnce(s: State, th: Thread, due: Due, rows: map<Id, Row>, arming: map<Thread, Arming>)
    requires OnceInv(s) && th !in s.scheduling
    requires forall t :: t in s.mem.tickets ==> s.mem.tickets[t].id != due.id
    requires forall w :: w in s.scheduling ==> !Carries(s.scheduling[w], due.id)
    ensures OnceInv(s.(scheduling := s.scheduling[th := Scheduling([due], None)], armedHere := s.armedHere + {due.id},
                       rows := rows, arming := arming))
  {
    if s.epoch !in s.overlapped {
      OneDueKeepsSingle(s.log, s.epoch, s.mem.tickets, s.scheduling, th, due);
    }
  }

  lemma ArmInsertKeepsOnce(s: State, th: Thread, ok: bool)
    requires Base(s) && OnceInv(s)
    ensures OnceInv(DoArmInsert(s, th, ok))
    ensures Commits(s.rows, s.mem.tickets, DoArmInsert(s, th, ok).mem.tickets)
  {
    if th in s.arming && th !in s.scheduling && ok && s.arming[th].id !in s.rows {
      var s' := DoArmInsert(s, th, ok);
      NewIsNowhere(s, s.arming[th].id);
      NewListKeepsOnce(s, th, Due(s.arming[th].id, s.arming[th].armedAt + s.window), s'.rows, s'.arming);
    }
  }

  lemma SameDuesKeepOnce(s: State, scheduling: Schedulers)
    requires OnceInv(s)
    requires forall w :: w in scheduling ==> w in s.scheduling && scheduling[w].dues == s.scheduling[w].dues
    ensures OnceInv(s.(scheduling := scheduling))
  {
    forall w, id | w in scheduling ensures Carries(scheduling[w], id) == Carries(s.scheduling[w], id) { }
  }

  lemma ReadDelayKeepsOnce(s: State, th: Thread)
    requires OnceInv(s)
    ensures OnceInv(DoReadDelay(s, th))
    ensures Commits(s.rows, s.mem.tickets, DoReadDelay(s, th).mem.tickets)
  {
    SameDuesKeepOnce(s, DoReadDelay(s, th).scheduling);
  }

  lemma TailCarries(dues: seq<Due>, id: Id)
    requires dues != [] && Distinct(dues)
    ensures Distinct(dues[1..])
    ensures Carries(Scheduling(dues[1..], None), id) ==> Carries(Scheduling(dues, None), id) && id != dues[0].id
  {
  }

  /** The head of one list becomes a ticket. */
  lemma PlaceKeepsSingle(log: seq<Execution>, epoch: nat, tickets: Tickets, scheduling: Schedulers, th: Thread,
                         t: TicketId, k: Ticket)
    requires Single(log, epoch, tickets, scheduling)
    requires th in scheduling && scheduling[th].dues != [] && t !in tickets && k.id == scheduling[th].dues[0].id
    ensures Single(log, epoch, tickets, scheduling[th := Scheduling(scheduling[th].dues[1..], None)])
    ensures Single(log, epoch, tickets[t := k], scheduling[th := Scheduling(scheduling[th].dues[1..], None)])
  {
    var dues := scheduling[th].dues;
    var scheduling' := scheduling[th := Scheduling(dues[1..], None)];
    var tickets' := tickets[t := k];
    assert dues[0] in dues;
    assert Carries(scheduling[th], k.id);
    forall w, id | w in scheduling' ensures Carries(scheduling'[w], id) ==> Carries(scheduling[w], id) && id != k.id {
      if w == th { TailCarries(dues, id); }
    }
    TailCarries(dues, k.id);
    forall i | 0 <= i < |log| && log[i].epoch == epoch ensures CalledTicket(tickets', log[i].id) {
      var c :| c in tickets && tickets[c].id == log[i].id && Called(tickets[c].phase);
      assert tickets'[c] == tickets[c];
    }
  }

  /** The head of a list goes, and becomes a ticket or not. */
  lemma HeadKeepsOnce(s: State, th: Thread, t: TicketId, fireAt: int)
    requires OnceInv(s) && th in s.scheduling && s.scheduling[th].dues != [] && t !in s.mem.tickets
    ensures
      var due := s.scheduling[th].dues[0];
      var rest := s.scheduling[th := Scheduling(s.scheduling[th].dues[1..], None)];
      OnceInv(s.(scheduling := rest, mem := Place(s.mem, t, due.id, fireAt)))
  {
    var due := s.scheduling[th].dues[0];
    assert due in s.scheduling[th].dues;
    if s.epoch !in s.overlapped {
      PlaceKeepsSingle(s.log, s.epoch, s.mem.tickets, s.scheduling, th, t, Ticket(due.id, fireAt, Pending));
    }
  }

  lemma PlacedIsNotCommitted(s: State, t: TicketId, id: Id, fireAt: int)
    ensures Commits(s.rows, s.mem.tickets, Place(s.mem, t, id, fireAt).tickets)
  {
  }

  lemma EnterScheduleKeepsOnce(s: State, th: Thread, t: TicketId)
    requires OnceInv(s)
    ensures OnceInv(DoEnterSchedule(s, th, t))
    ensures Commits(s.rows, s.mem.tickets, DoEnterSchedule(s, th, t).mem.tickets)
  {
    if th in s.scheduling && s.scheduling[th].delay.Some? && s.scheduling[th].dues != [] && t !in s.mem.tickets {
      var Scheduling(dues, delay) := s.scheduling[th];
      var fireAt := s.clock + delay.value;
      HeadKeepsOnce(s, th, t, fireAt);
      PlacedIsNotCommitted(s, t, dues[0].id, fireAt);
      assert DoEnterSchedule(s, th, t)
          == s.(scheduling := s.scheduling[th := Scheduling(dues[1..], None)],
             mem := Place(s.mem, t, dues[0].id, fireAt));
    }
  }

  lemma StartSelectKeepsOnce(s: State, th: Thread, dues: seq<Due>, ok: bool)
    requires OnceInv(s)
    ensures OnceInv(DoStartSelect(s, th, dues, ok))
    ensures Commits(s.rows, s.mem.tickets, DoStartSelect(s, th, dues, ok).mem.tickets)
  {
    var both := s.armedHere * ArmedIds(s.rows);
    if s.boot == Reading && th !in s.scheduling && ok && ListsArmedRows(s.rows, dues) && s.epoch !in s.overlapped
      && both == {} {
      forall d | d in dues ensures d.id !in s.armedHere { assert d.id !in both; }
      forall id | Carries(Scheduling(dues, None), id) ensures id !in s.armedHere { }
      forall w, id | w in s.scheduling && Carries(s.scheduling[w], id) ensures id in s.armedHere { }
      assert DuesOnce(s.scheduling[th := Scheduling(dues, None)]);
      assert Apart(s.mem.tickets, s.scheduling[th := Scheduling(dues, None)]);
    }
  }

  // ----- tickets moving on -----

  /** Tickets move on, without a call being logged. */
  lemma MoveKeepsOnce(log: seq<Execution>, epoch: nat, tickets: Tickets, scheduling: Schedulers, tickets': Tickets)
    requires Single(log, epoch, tickets, scheduling)
    requires tickets'.Keys == tickets.Keys
    requires forall t :: t in tickets ==>
               tickets'[t].id == tickets[t].id && (Called(tickets[t].phase) ==> Called(tickets'[t].phase))
    ensures Single(log, epoch, tickets', scheduling)
  {
  }

  lemma PhaseKeepsOnce(s: State, t: TicketId, phase: Phase)
    requires OnceInv(s) && t in s.mem.tickets && (Called(s.mem.tickets[t].phase) ==> Called(phase))
    ensures Once(s.log, s.overlapped, s.epoch, s.boot, s.armedHere, SetPhase(s.mem, t, phase).tickets, s.scheduling)
    ensures (Committed(phase) ==> Committed(s.mem.tickets[t].phase) || IsArmed(s, s.mem.tickets[t].id))
              ==> Commits(s.rows, s.mem.tickets, SetPhase(s.mem, t, phase).tickets)
  {
    if s.epoch !in s.overlapped {
      MoveKeepsOnce(s.log, s.epoch, s.mem.tickets, s.scheduling, SetPhase(s.mem, t, phase).tickets);
    }
  }

  lemma FireCallKeepsOnce(s: State, t: TicketId)
    requires OnceInv(s)
    ensures OnceInv(DoFireCall(s, t))
    ensures Commits(s.rows, s.mem.tickets, DoFireCall(s, t).mem.tickets)
  {
    if At(s, t, Firing(Call)) {
      PhaseKeepsOnce(s, t, Firing(Running));
      var tickets' := SetPhase(s.mem, t, Firing(Running)).tickets;
      var id := s.mem.tickets[t].id;
      var log' := s.log + [Execution(id, s.clock, s.epoch)];
      if s.epoch !in s.overlapped {
        forall i | 0 <= i < |s.log| && s.log[i].epoch == s.epoch ensures s.log[i].id != id {
          var k :| k in s.mem.tickets && s.mem.tickets[k].id == s.log[i].id && Called(s.mem.tickets[k].phase);
          assert k != t;
        }
        assert CalledTicket(tickets', id) by { assert Called(tickets'[t].phase); }
        assert CallsOnce(log', s.epoch, tickets');
      }
      assert History(log', s.overlapped);
    }
  }

  lemma CloseLockKeepsOnce(s: State)
    requires OnceInv(s)
    ensures OnceInv(DoCloseLock(s))
    ensures Commits(s.rows, s.mem.tickets, DoCloseLock(s).mem.tickets)
  {
    if s.epoch !in s.overlapped {
      MoveKeepsOnce(s.log, s.epoch, s.mem.tickets, s.scheduling, CloseTimers(s.mem).tickets);
    }
  }

  lemma CrashKeepsOnce(s: State)
    requires Base(s) && OnceInv(s)
    ensures OnceInv(DoCrash(s))
    ensures Commits(s.rows, s.mem.tickets, DoCrash(s).mem.tickets)
  {
  }

  lemma ExpireKeepsOnce(s: State, t: TicketId)
    requires OnceInv(s)
    ensures OnceInv(DoExpire(s, t)) && Commits(s.rows, s.mem.tickets, DoExpire(s, t).mem.tickets)
  {
    if At(s, t, Pending) { PhaseKeepsOnce(s, t, Firing(Unlink)); }
  }

  lemma FireUnlinkKeepsOnce(s: State, t: TicketId)
    requires OnceInv(s)
    ensures OnceInv(DoFireUnlink(s, t)) && Commits(s.rows, s.mem.tickets, DoFireUnlink(s, t).mem.tickets)
  {
    if At(s, t, Firing(Unlink)) { PhaseKeepsOnce(s, t, Firing(Load)); }
  }

  lemma FireLoadKeepsOnce(s: State, t: TicketId, ok: bool)
    requires OnceInv(s)
    ensures OnceInv(DoFireLoad(s, t, ok))
    ensures Commits(s.rows, s.mem.tickets, DoFireLoad(s, t, ok).mem.tickets)
  {
    if At(s, t, Firing(Load)) { PhaseKeepsOnce(s, t, DoFireLoad(s, t, ok).mem.tickets[t].phase); }
  }

  lemma FireLookupKeepsOnce(s: State, t: TicketId)
    requires OnceInv(s)
    ensures OnceInv(DoFireLookup(s, t))
    ensures Commits(s.rows, s.mem.tickets, DoFireLookup(s, t).mem.tickets)
  {
    if LookingUp(s, t) { PhaseKeepsOnce(s, t, DoFireLookup(s, t).mem.tickets[t].phase); }
  }

  lemma FireReturnKeepsOnce(s: State, t: TicketId, failed: bool, job: int)
    requires OnceInv(s)
    ensures OnceInv(DoFireReturn(s, t, failed, job))
    ensures Commits(s.rows, s.mem.tickets, DoFireReturn(s, t, failed, job).mem.tickets)
  {
    if At(s, t, Firing(Running)) { PhaseKeepsOnce(s, t, Firing(Finish(if failed then RevertFailed
    else Reverted, job))); }
  }

  lemma FireFinishKeepsOnce(s: State, t: TicketId, ok: bool)
    requires OnceInv(s)
    ensures OnceInv(DoFireFinish(s, t, ok))
    ensures Commits(s.rows, s.mem.tickets, DoFireFinish(s, t, ok).mem.tickets)
  {
    if Finishing(s, t) { PhaseKeepsOnce(s, t, Firing(Leave)); }
  }

  lemma FireLeaveKeepsOnce(s: State, t: TicketId)
    requires OnceInv(s)
    ensures OnceInv(DoFireLeave(s, t))
    ensures Commits(s.rows, s.mem.tickets, DoFireLeave(s, t).mem.tickets)
  {
    if At(s, t, Firing(Leave)) { PhaseKeepsOnce(s, t, Retired); }
  }

  lemma ConfirmStopKeepsOnce(s: State, th: Thread)
    requires OnceInv(s)
    ensures OnceInv(DoConfirmStop(s, th)) && Commits(s.rows, s.mem.tickets, DoConfirmStop(s, th).mem.tickets)
  {
    if th in s.confirms && s.confirms[th].Stopping? && At(s, s.confirms[th].ticket, Pending) {
      PhaseKeepsOnce(s, s.confirms[th].ticket, StopOwed(Confirmer(th)));
    }
  }

  lemma ConfirmReleaseKeepsOnce(s: State, th: Thread)
    requires OnceInv(s)
    ensures OnceInv(DoConfirmRelease(s, th)) && Commits(s.rows, s.mem.tickets, DoConfirmRelease(s, th).mem.tickets)
  {
    if th in s.confirms && s.confirms[th].Releasing? && s.confirms[th].ticket in s.mem.tickets {
      PhaseKeepsOnce(s, s.confirms[th].ticket, Retired);
    }
  }

  lemma CloseReleaseKeepsOnce(s: State, t: TicketId)
    requires OnceInv(s)
    ensures OnceInv(DoCloseRelease(s, t)) && Commits(s.rows, s.mem.tickets, DoCloseRelease(s, t).mem.tickets)
  {
    if t in s.mem.tickets { PhaseKeepsOnce(s, t, Retired); }
  }

  // ----- every step, every run -----

  lemma FireStartKeepsOnce(s: State, step: Step)
    requires OnceInv(s) && (step.Expire? || step.FireUnlink? || step.FireLoad? || step.FireLookup?)
    ensures KeepsOnce(s, Next(s, step))
  {
    match step
    case Expire(t) => ExpireKeepsOnce(s, t);
    case FireUnlink(t) => FireUnlinkKeepsOnce(s, t);
    case FireLoad(t, ok) => FireLoadKeepsOnce(s, t, ok);
    case FireLookup(t) => FireLookupKeepsOnce(s, t);
  }

  lemma FireEndKeepsOnce(s: State, step: Step)
    requires OnceInv(s) && (step.FireCall? || step.FireReturn? || step.FireFinish? || step.FireLeave?)
    ensures KeepsOnce(s, Next(s, step))
  {
    match step
    case FireCall(t) => FireCallKeepsOnce(s, t);
    case FireReturn(t, failed, job) => FireReturnKeepsOnce(s, t, failed, job);
    case FireFinish(t, ok) => FireFinishKeepsOnce(s, t, ok);
    case FireLeave(t) => FireLeaveKeepsOnce(s, t);
  }

  lemma StopKeepsOnce(s: State, step: Step)
    requires OnceInv(s) && (step.ConfirmStop? || step.ConfirmRelease? || step.CloseRelease?)
    ensures KeepsOnce(s, Next(s, step))
  {
    match step
    case ConfirmStop(th) => ConfirmStopKeepsOnce(s, th);
    case ConfirmRelease(th) => ConfirmReleaseKeepsOnce(s, th);
    case CloseRelease(t) => CloseReleaseKeepsOnce(s, t);
  }

  lemma EndKeepsOnce(s: State, step: Step)
    requires Base(s) && OnceInv(s) && (step == CloseLock || step == Crash)
    ensures KeepsOnce(s, Next(s, step))
  {
    if step == Crash { CrashKeepsOnce(s); } else { CloseLockKeepsOnce(s); }
  }

  lemma SchedulingKeepsOnce(s: State, step: Step)
    requires Base(s) && OnceInv(s)
    requires step.ArmInsert? || step.ReadDelay? || step.EnterSchedule? || step.StartSelect?
    ensures KeepsOnce(s, Next(s, step))
  {
    match step
    case ArmInsert(th, ok) => ArmInsertKeepsOnce(s, th, ok);
    case ReadDelay(th) => ReadDelayKeepsOnce(s, th);
    case EnterSchedule(th, t) => EnterScheduleKeepsOnce(s, th, t);
    case StartSelect(th, dues, ok) => StartSelectKeepsOnce(s, th, dues, ok);
  }

  lemma StepKeepsOnce(s: State, step: Step)
    requires Base(s) && OnceInv(s)
    ensures OnceInv(Next(s, step)) && Commits(s.rows, s.mem.tickets, Next(s, step).mem.tickets)
  {
    if step.ArmInsert? || step.ReadDelay? || step.EnterSchedule? || step.StartSelect? {
      SchedulingKeepsOnce(s, step);
    } else if step.ConfirmStop? || step.ConfirmRelease? || step.CloseRelease? {
      StopKeepsOnce(s, step);
    } else if step == CloseLock || step == Crash {
      EndKeepsOnce(s, step);
    } else if step.Expire? || step.FireUnlink? || step.FireLoad? || step.FireLookup? {
      FireStartKeepsOnce(s, step);
    } else if step.FireCall? || step.FireReturn? || step.FireFinish? || step.FireLeave? {
      FireEndKeepsOnce(s, step);
    } else {
      IdleKeepsOnce(s, step);
    }
  }

  ghost predicate KeepsOnce(s: State, s': State) {
    OnceInv(s') && Commits(s.rows, s.mem.tickets, s'.mem.tickets)
  }

  /** What OnceInv reads stays, and Start has not read the table meanwhile. */
  predicate SameSources(s: State, s': State) {
    && s'.mem.tickets == s.mem.tickets && s'.scheduling == s.scheduling && s'.log == s.log
       && s'.overlapped == s.overlapped
    && s'.epoch == s.epoch && s'.armedHere == s.armedHere && (s'.boot == Reconciled <==> s.boot == Reconciled)
  }

  lemma SameSourcesKeepOnce(s: State, s': State)
    requires OnceInv(s) && SameSources(s, s')
    ensures KeepsOnce(s, s')
  {
  }

  lemma IdleArmKeepsOnce(s: State, step: Step)
    requires OnceInv(s) && (step.Tick? || step.Register? || step.ArmBegin? || step.StartBegin?)
    ensures KeepsOnce(s, Next(s, step))
  {
    assert SameSources(s, Next(s, step));
    SameSourcesKeepOnce(s, Next(s, step));
  }

  lemma IdleConfirmKeepsOnce(s: State, step: Step)
    requires OnceInv(s) && (step.ConfirmLoad? || step.ConfirmUpdate? || step.ConfirmUnlink?)
    ensures KeepsOnce(s, Next(s, step))
  {
    assert SameSources(s, Next(s, step));
    SameSourcesKeepOnce(s, Next(s, step));
  }

  lemma IdleCloseKeepsOnce(s: State, step: Step)
    requires OnceInv(s) && (step == CloseCancel || step == CloseReturn)
    ensures KeepsOnce(s, Next(s, step))
  {
    assert SameSources(s, Next(s, step));
    SameSourcesKeepOnce(s, Next(s, step));
  }

  /** Steps that leave tickets, lists and the log alone. */
  lemma IdleKeepsOnce(s: State, step: Step)
    requires OnceInv(s)
    requires step.Tick? || step.Register? || step.ArmBegin? || step.StartBegin? || step.ConfirmLoad?
             || step.ConfirmUpdate?
             || step.ConfirmUnlink? || step == CloseCancel || step == CloseReturn
    ensures KeepsOnce(s, Next(s, step))
  {
    if step == CloseCancel || step == CloseReturn {
      IdleCloseKeepsOnce(s, step);
    } else if step.ConfirmLoad? || step.ConfirmUpdate? || step.ConfirmUnlink? {
      IdleConfirmKeepsOnce(s, step);
    } else {
      IdleArmKeepsOnce(s, step);
    }
  }

  lemma {:induction false} ExecKeepsOnce(s: State, run: seq<Step>)
    requires Inv(s) && OnceInv(s)
    ensures OnceInv(Exec(s, run))
    decreases |run|
  {
    if run != [] {
      StepKeepsInv(s, run[0]);
      StepKeepsOnce(s, run[0]);
      ExecKeepsOnce(Next(s, run[0]), run[1..]);
    }
  }
}
