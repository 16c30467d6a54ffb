/** What every step of the safeguard keeps. */
module SafeguardInvariants {
  import opened Wrappers
  import opened SafeguardMachine

  // ----- WaitGroup accounting -----

  ghost function Live(m: Memory): set<TicketId> {
    set t | t in m.tickets && m.tickets[t].phase != Retired
  }

  /** The WaitGroup counts the tickets whose Done is still to come. */
  ghost predicate CountInv(m: Memory) {
    m.running == |Live(m)|
  }

  /** A mapped timer has not got past taking its own entry out of the map. */
  ghost predicate TimersInv(m: Memory) {
    forall id :: id in m.timers ==>
      && m.timers[id] in m.tickets
      && m.tickets[m.timers[id]].id == id
      && (m.tickets[m.timers[id]].phase == Pending || m.tickets[m.timers[id]].phase == Firing(Unlink))
  }

  /** Every stopped timer has exactly one call that owes its Done. */
  ghost predicate OwnersInv(m: Memory, confirms: map<Thread, Confirm>) {
    && (forall th :: th in confirms && confirms[th].Releasing? ==>
          confirms[th].ticket in m.tickets && m.tickets[confirms[th].ticket].phase == StopOwed(Confirmer(th)))
    && (forall t :: t in m.tickets && m.tickets[t].phase.StopOwed? && m.tickets[t].phase.owner.Confirmer? ==>
          m.tickets[t].phase.owner.thread in confirms && confirms[m.tickets[t].phase.owner.thread] == Releasing(t))
    && (forall th :: th in confirms && confirms[th].Stopping? ==>
          confirms[th].ticket in m.tickets && !Mapped(m, confirms[th].ticket))
  }

  ghost predicate ClosingInv(m: Memory, closing: Closing) {
    && m.closed == (closing != Open)
    && (closing != Open ==> m.timers == map[])
    && (closing != Draining ==> forall t :: t in m.tickets ==> m.tickets[t].phase != StopOwed(Closer))
    && (closing == Closed ==> m.running == 0)
  }

  // ----- rows, deadlines -----

  ghost predicate Known(rows: map<Id, Row>, dues: seq<Due>) {
    forall d :: d in dues ==> d.id in rows && rows[d.id].expiresAt == d.expiresAt
  }

  ghost predicate DuesInv(rows: map<Id, Row>, clock: int, scheduling: map<Thread, Scheduling>) {
    forall th :: th in scheduling ==>
      && Known(rows, scheduling[th].dues)
      && (scheduling[th].delay.Some? && scheduling[th].dues != [] ==>
            scheduling[th].dues[0].expiresAt <= clock + scheduling[th].delay.value)
  }

  predicate IsOutcome(state: RowState) {
    state == Reverted || state == RevertFailed
  }

  ghost predicate TicketOk(rows: map<Id, Row>, clock: int, k: Ticket) {
    && k.id in rows
    && rows[k.id].expiresAt <= k.fireAt
    && (k.phase.Firing? ==> k.fireAt <= clock)
    && (k.phase.Firing? && k.phase.pc.Finish? ==> IsOutcome(k.phase.pc.outcome))
  }

  ghost predicate TicketsInv(rows: map<Id, Row>, clock: int, tickets: map<TicketId, Ticket>) {
    forall t :: t in tickets ==> TicketOk(rows, clock, tickets[t])
  }

  ghost predicate LogInv(rows: map<Id, Row>, log: seq<Execution>, epoch: nat) {
    forall i :: 0 <= i < |log| ==> log[i].id in rows && rows[log[i].id].expiresAt <= log[i].at && log[i].epoch <= epoch
  }

  predicate Settled(rows: map<Id, Row>, id: Id) {
    id in rows && rows[id].state != Armed
  }

  /** A Confirm past its update works on a settled revert. */
  ghost predicate ConfirmOk(rows: map<Id, Row>, tickets: map<TicketId, Ticket>, c: Confirm) {
    && (c.Confirming? ==> c.id in rows)
    && (c.Unlinking? ==> Settled(rows, c.id))
    && (c.Stopping? && c.ticket in tickets ==> Settled(rows, tickets[c.ticket].id))
  }

  ghost predicate ConfirmsInv(rows: map<Id, Row>, tickets: map<TicketId, Ticket>, confirms: map<Thread, Confirm>) {
    forall th :: th in confirms ==> ConfirmOk(rows, tickets, confirms[th])
  }

  // ----- no armed revert is lost -----

  /** A timer that is counting down or a fire that has not finished. */
  predicate Handles(t: Ticket, id: Id) {
    t.id == id && (t.phase.Pending? || (t.phase.Firing? && !t.phase.pc.Leave?))
  }

  predicate Carries(c: Scheduling, id: Id) {
    exists d :: d in c.dues && d.id == id
  }

  ghost predicate Handled(m: Memory, id: Id) {
    exists t :: t in m.tickets && Handles(m.tickets[t], id)
  }

  ghost predicate Carried(scheduling: map<Thread, Scheduling>, id: Id) {
    exists th :: th in scheduling && Carries(scheduling[th], id)
  }

  ghost predicate CoverInv(s: State) {
    s.closing == Open ==>
      forall id :: IsArmed(s, id) && (id in s.armedHere || s.boot == Reconciled) && id !in s.stranded
        ==> Handled(s.mem, id) || Carried(s.scheduling, id)
  }

  /** The guard's memory and the Confirm calls working on it. */
  ghost predicate MemInv(m: Memory, closing: Closing, confirms: map<Thread, Confirm>) {
    CountInv(m) && TimersInv(m) && OwnersInv(m, confirms) && ClosingInv(m, closing)
  }

  /** What the rows say about everything that acts on them. */
  ghost predicate TableInv(rows: map<Id, Row>, clock: int, tickets: map<TicketId, Ticket>,
                           scheduling: map<Thread, Scheduling>, confirms: map<Thread, Confirm>) {
    DuesInv(rows, clock, scheduling) && TicketsInv(rows, clock, tickets) && ConfirmsInv(rows, tickets, confirms)
  }

  ghost predicate Base(s: State) {
    && MemInv(s.mem, s.closing, s.confirms)
    && TableInv(s.rows, s.clock, s.mem.tickets, s.scheduling, s.confirms)
    && LogInv(s.rows, s.log, s.epoch)
  }

  ghost predicate Inv(s: State) {
    Base(s) && CoverInv(s)
  }

  // ----- what one change of the memory keeps -----

  lemma SetPhaseKeepsCount(m: Memory, t: TicketId, phase: Phase)
    requires CountInv(m) && t in m.tickets && m.tickets[t].phase != Retired && phase != Retired
    ensures CountInv(SetPhase(m, t, phase))
  {
    assert Live(SetPhase(m, t, phase)) == Live(m);
  }

  lemma RetireKeepsCount(m: Memory, t: TicketId)
    requires CountInv(m) && t in m.tickets && m.tickets[t].phase != Retired
    ensures CountInv(Retire(m, t))
  {
    assert Live(Retire(m, t)) == Live(m) - {t};
  }

  lemma UnmapKeepsCount(m: Memory, id: Id)
    requires CountInv(m)
    ensures CountInv(m.(timers := Without(m.timers, id)))
  {
  }

  lemma PlaceKeepsCount(m: Memory, t: TicketId, id: Id, fireAt: int)
    requires CountInv(m)
    ensures CountInv(Place(m, t, id, fireAt))
  {
    if id !in m.timers && !m.closed && t !in m.tickets {
      assert Live(Place(m, t, id, fireAt)) == Live(m) + {t};
    }
  }

  lemma PlaceKeepsOwners(m: Memory, confirms: map<Thread, Confirm>, t: TicketId, id: Id, fireAt: int)
    requires TimersInv(m) && OwnersInv(m, confirms)
    ensures OwnersInv(Place(m, t, id, fireAt), confirms)
  {
  }

  lemma PlaceKeepsMem(m: Memory, closing: Closing, confirms: map<Thread, Confirm>, t: TicketId, id: Id, fireAt: int)
    requires MemInv(m, closing, confirms)
    ensures MemInv(Place(m, t, id, fireAt), closing, confirms)
  {
    PlaceKeepsCount(m, t, id, fireAt);
    PlaceKeepsOwners(m, confirms, t, id, fireAt);
  }

  lemma UnlinkKeepsMem(m: Memory, closing: Closing, confirms: map<Thread, Confirm>, th: Thread, id: Id)
    requires MemInv(m, closing, confirms) && th in confirms && confirms[th].Unlinking? && id in m.timers
    ensures MemInv(m.(timers := Without(m.timers, id)), closing, confirms[th := Stopping(m.timers[id])])
  {
  }

  lemma StopKeepsMem(m: Memory, closing: Closing, confirms: map<Thread, Confirm>, th: Thread, t: TicketId)
    requires MemInv(m, closing, confirms) && th in confirms && confirms[th] == Stopping(t)
    requires t in m.tickets && m.tickets[t].phase == Pending
    ensures MemInv(SetPhase(m, t, StopOwed(Confirmer(th))), closing, confirms[th := Releasing(t)])
  {
    SetPhaseKeepsCount(m, t, StopOwed(Confirmer(th)));
  }

  lemma ReleaseKeepsMem(m: Memory, closing: Closing, confirms: map<Thread, Confirm>, th: Thread)
    requires MemInv(m, closing, confirms) && th in confirms && confirms[th].Releasing?
    ensures confirms[th].ticket in m.tickets && m.running > 0
    ensures MemInv(Retire(m, confirms[th].ticket), closing, confirms - {th})
  {
    var t := confirms[th].ticket;
    assert t in Live(m);
    RetireKeepsCount(m, t);
  }

  /** A Confirm that owes nothing may end or move on as long as it still owes nothing. */
  lemma ConfirmMoveKeepsMem(m: Memory, closing: Closing, confirms: map<Thread, Confirm>, th: Thread, c: Confirm)
    requires MemInv(m, closing, confirms) && (th in confirms ==> !confirms[th].Releasing?)
    requires c.Confirming? || c.Unlinking?
    ensures MemInv(m, closing, confirms[th := c]) && MemInv(m, closing, confirms - {th})
  {
  }

  lemma ExpireKeepsMem(m: Memory, closing: Closing, confirms: map<Thread, Confirm>, t: TicketId)
    requires MemInv(m, closing, confirms) && t in m.tickets && m.tickets[t].phase == Pending
    ensures MemInv(SetPhase(m, t, Firing(Unlink)), closing, confirms)
  {
    SetPhaseKeepsCount(m, t, Firing(Unlink));
  }

  lemma FireUnlinkKeepsMem(m: Memory, closing: Closing, confirms: map<Thread, Confirm>, t: TicketId)
    requires MemInv(m, closing, confirms) && t in m.tickets && m.tickets[t].phase == Firing(Unlink)
    ensures MemInv(SetPhase(m, t, Firing(Load)).(timers := Without(m.timers, m.tickets[t].id)), closing, confirms)
  {
    SetPhaseKeepsCount(m, t, Firing(Load));
    UnmapKeepsCount(SetPhase(m, t, Firing(Load)), m.tickets[t].id);
  }

  lemma FireKeepsMem(m: Memory, closing: Closing, confirms: map<Thread, Confirm>, t: TicketId, pc: FirePc)
    requires MemInv(m, closing, confirms)
    requires t in m.tickets && m.tickets[t].phase.Firing? && m.tickets[t].phase.pc != Unlink
    ensures MemInv(SetPhase(m, t, Firing(pc)), closing, confirms)
  {
    SetPhaseKeepsCount(m, t, Firing(pc));
  }

  /** The two places that call Done without a Confirm: the end of fire and the loop in Close. */
  lemma RetireKeepsMem(m: Memory, closing: Closing, confirms: map<Thread, Confirm>, t: TicketId)
    requires MemInv(m, closing, confirms)
    requires t in m.tickets && (m.tickets[t].phase == Firing(Leave) || m.tickets[t].phase == StopOwed(Closer))
    ensures m.running > 0
    ensures MemInv(Retire(m, t), closing, confirms)
  {
    assert t in Live(m);
    RetireKeepsCount(m, t);
  }

  lemma CloseKeepsMem(m: Memory, confirms: map<Thread, Confirm>)
    requires MemInv(m, Open, confirms)
    ensures MemInv(CloseTimers(m), Draining, confirms)
  {
    assert Live(CloseTimers(m)) == Live(m);
  }

  // ----- the base invariant, step by step -----

  lemma TickKeepsBase(s: State, elapsed: nat)
    requires Base(s)
    ensures Base(s.(clock := s.clock + elapsed))
  {
  }

  lemma ArmBeginKeepsBase(s: State, th: Thread, id: Id, domain: string)
    requires Base(s)
    ensures Base(DoArmBegin(s, th, id, domain))
  {
  }

  lemma ArmInsertKeepsBase(s: State, th: Thread, ok: bool)
    requires Base(s)
    ensures Base(DoArmInsert(s, th, ok))
  {
  }

  lemma DelayKeepsDues(rows: map<Id, Row>, clock: int, scheduling: map<Thread, Scheduling>, th: Thread, delay: nat)
    requires DuesInv(rows, clock, scheduling) && th in scheduling && scheduling[th].dues != []
    requires scheduling[th].dues[0].expiresAt <= clock + delay
    ensures DuesInv(rows, clock, scheduling[th := Scheduling(scheduling[th].dues, Some(delay))])
  {
  }

  lemma ReadDelayKeepsBase(s: State, th: Thread)
    requires Base(s)
    ensures Base(DoReadDelay(s, th))
  {
    if th in s.scheduling && s.scheduling[th].delay.None? && s.scheduling[th].dues != [] {
      var delay := s.scheduling[th].dues[0].expiresAt - s.clock;
      DelayKeepsDues(s.rows, s.clock, s.scheduling, th, if delay < 0 then 0 else delay);
    }
  }

  /** The head of a list goes, and may become a timer that is not due before its deadline. */
  lemma HeadKeepsTable(rows: map<Id, Row>, clock: int, m: Memory, scheduling: map<Thread, Scheduling>,
                       confirms: map<Thread, Confirm>, th: Thread, t: TicketId, fireAt: int)
    requires TableInv(rows, clock, m.tickets, scheduling, confirms) && OwnersInv(m, confirms) && t !in m.tickets
    requires th in scheduling && scheduling[th].dues != [] && scheduling[th].dues[0].expiresAt <= fireAt
    ensures TableInv(rows, clock, Place(m, t, scheduling[th].dues[0].id, fireAt).tickets,
                     scheduling[th := Scheduling(scheduling[th].dues[1..], None)], confirms)
  {
    var due := scheduling[th].dues[0];
    assert due in scheduling[th].dues;
    assert TicketOk(rows, clock, Ticket(due.id, fireAt, Pending));
  }

  lemma EnterScheduleKeepsBase(s: State, th: Thread, t: TicketId)
    requires Base(s)
    ensures Base(DoEnterSchedule(s, th, t))
  {
    if th in s.scheduling && s.scheduling[th].delay.Some? && s.scheduling[th].dues != [] && t !in s.mem.tickets {
      var id, fireAt := s.scheduling[th].dues[0].id, s.clock + s.scheduling[th].delay.value;
      PlaceKeepsMem(s.mem, s.closing, s.confirms, t, id, fireAt);
      HeadKeepsTable(s.rows, s.clock, s.mem, s.scheduling, s.confirms, th, t, fireAt);
    }
  }

  lemma StartSelectKeepsBase(s: State, th: Thread, dues: seq<Due>, ok: bool)
    requires Base(s)
    ensures Base(DoStartSelect(s, th, dues, ok))
  {
    if ListsArmedRows(s.rows, dues) { assert Known(s.rows, dues); }
  }

  lemma ConfirmLoadKeepsBase(s: State, th: Thread, id: Id, domain: string)
    requires Base(s)
    ensures Base(DoConfirmLoad(s, th, id, domain))
  {
  }

  /** An armed row is confirmed; everything that acts on the rows goes on. */
  lemma ConfirmedKeepsTable(rows: map<Id, Row>, clock: int, tickets: map<TicketId, Ticket>, scheduling: map<Thread,
                            Scheduling>,
                            confirms: map<Thread, Confirm>, th: Thread, id: Id)
    requires TableInv(rows, clock, tickets, scheduling, confirms) && id in rows
    ensures TableInv(rows[id := rows[id].(state := Confirmed, confirmedAt := Some(clock))], clock, tickets, scheduling,
                     confirms[th := Unlinking(id)])
  {
    var rows' := rows[id := rows[id].(state := Confirmed, confirmedAt := Some(clock))];
    var confirms' := confirms[th := Unlinking(id)];
    forall w | w in confirms' ensures ConfirmOk(rows', tickets, confirms'[w]) {
      if w != th { assert ConfirmOk(rows, tickets, confirms[w]); }
    }
  }

  lemma ConfirmUpdateKeepsBase(s: State, th: Thread, ok: bool)
    requires Base(s)
    ensures Base(DoConfirmUpdate(s, th, ok))
  {
    if th in s.confirms && s.confirms[th].Confirming? {
      var id := s.confirms[th].id;
      ConfirmMoveKeepsMem(s.mem, s.closing, s.confirms, th, Unlinking(id));
      assert ConfirmOk(s.rows, s.mem.tickets, s.confirms[th]);
      ConfirmedKeepsTable(s.rows, s.clock, s.mem.tickets, s.scheduling, s.confirms, th, id);
    }
  }

  lemma ConfirmUnlinkKeepsBase(s: State, th: Thread)
    requires Base(s)
    ensures Base(DoConfirmUnlink(s, th))
  {
    if th in s.confirms && s.confirms[th].Unlinking? {
      var id := s.confirms[th].id;
      if id in s.mem.timers {
        UnlinkKeepsMem(s.mem, s.closing, s.confirms, th, id);
      } else {
        ConfirmMoveKeepsMem(s.mem, s.closing, s.confirms, th, Confirming(id));
      }
    }
  }

  lemma ConfirmStopKeepsBase(s: State, th: Thread)
    requires Base(s)
    ensures Base(DoConfirmStop(s, th))
  {
    if th in s.confirms && s.confirms[th].Stopping? {
      var t := s.confirms[th].ticket;
      if At(s, t, Pending) {
        StopKeepsMem(s.mem, s.closing, s.confirms, th, t);
      } else {
        ConfirmMoveKeepsMem(s.mem, s.closing, s.confirms, th, Confirming(0));
      }
    }
  }

  lemma ConfirmReleaseKeepsBase(s: State, th: Thread)
    requires Base(s)
    ensures Base(DoConfirmRelease(s, th))
  {
    if th in s.confirms && s.confirms[th].Releasing? { ReleaseKeepsMem(s.mem, s.closing, s.confirms, th); }
  }

  lemma ExpireKeepsBase(s: State, t: TicketId)
    requires Base(s)
    ensures Base(DoExpire(s, t))
  {
    if At(s, t, Pending) { ExpireKeepsMem(s.mem, s.closing, s.confirms, t); }
  }

  lemma FireUnlinkKeepsBase(s: State, t: TicketId)
    requires Base(s)
    ensures Base(DoFireUnlink(s, t))
  {
    if At(s, t, Firing(Unlink)) { FireUnlinkKeepsMem(s.mem, s.closing, s.confirms, t); }
  }

  /** fire moves on without touching the rows. */
  lemma FireKeepsBase(s: State, t: TicketId, pc: FirePc)
    requires Base(s)
    requires t in s.mem.tickets && s.mem.tickets[t].phase.Firing? && s.mem.tickets[t].phase.pc != Unlink
    requires pc.Finish? ==> IsOutcome(pc.outcome)
    ensures Base(s.(mem := SetPhase(s.mem, t, Firing(pc))))
  {
    FireKeepsMem(s.mem, s.closing, s.confirms, t, pc);
  }

  lemma FireCallKeepsBase(s: State, t: TicketId)
    requires Base(s)
    ensures Base(DoFireCall(s, t))
  {
    if At(s, t, Firing(Call)) {
      FireKeepsBase(s, t, Running);
      assert TicketOk(s.rows, s.clock, s.mem.tickets[t]);
    }
  }

  /** An armed row takes its outcome; everything that acts on the rows goes on. */
  lemma OutcomeKeepsTable(rows: map<Id, Row>, clock: int, tickets: map<TicketId, Ticket>, scheduling: map<Thread,
                          Scheduling>,
                          confirms: map<Thread, Confirm>, id: Id, outcome: RowState, job: int)
    requires TableInv(rows, clock, tickets, scheduling, confirms) && id in rows && IsOutcome(outcome)
    ensures TableInv(rows[id := rows[id].(state := outcome, revertJob := job)], clock, tickets, scheduling, confirms)
  {
  }

  lemma FireFinishKeepsBase(s: State, t: TicketId, ok: bool)
    requires Base(s)
    ensures Base(DoFireFinish(s, t, ok))
  {
    if Finishing(s, t) {
      FireKeepsBase(s, t, Leave);
      assert TicketOk(s.rows, s.clock, s.mem.tickets[t]);
      if ok && IsArmed(s, s.mem.tickets[t].id) {
        var Finish(outcome, job) := s.mem.tickets[t].phase.pc;
        var mem := SetPhase(s.mem, t, Firing(Leave));
        OutcomeKeepsTable(s.rows, s.clock, mem.tickets, s.scheduling, s.confirms, s.mem.tickets[t].id, outcome, job);
      }
    }
  }

  lemma RetireKeepsBase(s: State, t: TicketId)
    requires Base(s) && (At(s, t, Firing(Leave)) || At(s, t, StopOwed(Closer)))
    ensures Base(s.(mem := Retire(s.mem, t)))
  {
    RetireKeepsMem(s.mem, s.closing, s.confirms, t);
  }

  lemma CloseLockKeepsBase(s: State)
    requires Base(s)
    ensures Base(DoCloseLock(s))
  {
    if s.closing == Open { CloseKeepsMem(s.mem, s.confirms); }
  }

  lemma CloseCancelKeepsBase(s: State)
    requires Base(s)
    ensures Base(DoCloseCancel(s)) && Base(DoCloseReturn(s))
  {
  }

  lemma CrashKeepsBase(s: State)
    requires Base(s)
    ensures Base(DoCrash(s))
  {
  }
}
