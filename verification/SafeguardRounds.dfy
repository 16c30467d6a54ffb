/** A revert from its arming to its end, when nothing else happens in between. */
module SafeguardRounds {
  import opened Wrappers
  import opened SafeguardMachine

  /** An open guard that knows nothing of this revert, thread and ticket, with an executor for the domain. */
  predicate Ready(s: State, th: Thread, id: Id, domain: string, t: TicketId) {
    && !s.mem.closed && th !in s.arming && th !in s.scheduling && th !in s.confirms && domain != ""
    && id !in s.rows && id !in s.mem.timers && t !in s.mem.tickets && domain in s.executors
  }

  lemma LastUpdateStays<K, V>(m: map<K, V>, k: K, one: V, other: V)
    ensures m[k := one][k := other] == m[k := other]
  {
  }

  lemma AddedAndRemoved<K, V>(m: map<K, V>, k: K, one: V)
    requires k !in m
    ensures m[k := one] - {k} == m
  {
  }

  // ----- armed -----

  /** Arm, statement by statement. */
  function Arm(s: State, th: Thread, id: Id, domain: string, t: TicketId): State {
    DoReadDelay(DoEnterSchedule(DoReadDelay(DoArmInsert(DoArmBegin(s, th, id, domain), th, true), th), th, t), th)
  }

  /** What Arm leaves: one row, one timer due one window later, one more Add. */
  function Guarded(s: State, id: Id, domain: string, t: TicketId): State {
    var due := s.clock + s.window;
    s.(rows := s.rows[id := Row(domain, s.clock, due, Armed, None, 0)],
       mem := s.mem.(running := s.mem.running + 1, timers := s.mem.timers[id := t],
                     tickets := s.mem.tickets[t := Ticket(id, due, Pending)]),
       armedHere := s.armedHere + {id})
  }

  lemma ArmInserts(s: State, th: Thread, id: Id, domain: string)
    requires th !in s.arming && th !in s.scheduling && domain != "" && id !in s.rows
    ensures
      var due := s.clock + s.window;
      DoArmInsert(DoArmBegin(s, th, id, domain), th, true)
      == s.(scheduling := s.scheduling[th := Scheduling([Due(id, due)], None)],
            rows := s.rows[id := Row(domain, s.clock, due, Armed, None, 0)],
            armedHere := s.armedHere + {id})
  {
    AddedAndRemoved(s.arming, th, Arming(id, domain, s.clock));
  }

  lemma ScheduleReads(s: State, th: Thread, due: Due)
    requires th in s.scheduling && s.scheduling[th] == Scheduling([due], None) && due.expiresAt >= s.clock
    ensures DoReadDelay(s, th)
            == s.(scheduling := s.scheduling[th := Scheduling([due], Some(due.expiresAt - s.clock))])
  {
  }

  lemma ScheduleEnters(s: State, th: Thread, due: Due, delay: nat, t: TicketId)
    requires th in s.scheduling && s.scheduling[th] == Scheduling([due], Some(delay)) && t !in s.mem.tickets
    ensures DoReadDelay(DoEnterSchedule(s, th, t), th)
            == s.(scheduling := s.scheduling - {th}, mem := Place(s.mem, t, due.id, s.clock + delay))
  {
    assert [due][1..] == [];
    assert s.scheduling[th := Scheduling([], None)] - {th} == s.scheduling - {th};
  }

  lemma ArmIsArmed(s: State, th: Thread, id: Id, domain: string, t: TicketId)
    requires Ready(s, th, id, domain, t)
    ensures Arm(s, th, id, domain, t) == Guarded(s, id, domain, t)
  {
    ArmInserts(s, th, id, domain);
    var stored := DoArmInsert(DoArmBegin(s, th, id, domain), th, true);
    var due := Due(id, s.clock + s.window);
    ScheduleReads(stored, th, due);
    LastUpdateStays(s.scheduling, th, Scheduling([due], None), Scheduling([due], Some(s.window)));
    var delayed := DoReadDelay(stored, th);
    ScheduleEnters(delayed, th, due, s.window, t);
    AddedAndRemoved(s.scheduling, th, Scheduling([due], Some(s.window)));
  }

  // ----- not confirmed -----

  function Loaded(s: State, t: TicketId): State {
    DoFireLoad(DoFireUnlink(DoExpire(s, t), t), t, true)
  }

  function Returned(s: State, t: TicketId, failed: bool, job: int): State {
    DoFireReturn(DoFireCall(DoFireLookup(s, t), t), t, failed, job)
  }

  function Ended(s: State, t: TicketId): State {
    DoFireLeave(DoFireFinish(s, t, true), t)
  }

  /** The timer of a revert that nobody settled, from its expiry to the end of fire. */
  function Fire(s: State, t: TicketId, failed: bool, job: int): State {
    Ended(Returned(Loaded(s, t), t, failed, job), t)
  }

  lemma FireLoads(s: State, t: TicketId)
    requires At(s, t, Pending) && s.mem.tickets[t].fireAt <= s.clock && IsArmed(s, s.mem.tickets[t].id)
    ensures
      var id := s.mem.tickets[t].id;
      Loaded(s, t)
      == s.(mem := SetPhase(s.mem, t, Firing(Lookup(s.rows[id].domain))).(timers := s.mem.timers - {id}))
  {
    var firing := s.mem.tickets[t];
    var looking := firing.(phase := Firing(Lookup(s.rows[firing.id].domain)));
    LastUpdateStays(s.mem.tickets, t, firing.(phase := Firing(Unlink)), firing.(phase := Firing(Load)));
    LastUpdateStays(s.mem.tickets, t, firing.(phase := Firing(Load)), looking);
  }

  lemma FireLooks(s: State, t: TicketId)
    requires LookingUp(s, t) && s.mem.tickets[t].phase.pc.domain in s.executors
    ensures DoFireLookup(s, t) == s.(mem := SetPhase(s.mem, t, Firing(Call)))
  {
  }

  lemma FireCallsAndReturns(s: State, t: TicketId, failed: bool, job: int)
    requires At(s, t, Firing(Call))
    ensures
      DoFireReturn(DoFireCall(s, t), t, failed, job)
      == s.(mem := SetPhase(s.mem, t, Firing(Finish(if failed then RevertFailed else Reverted, job))),
            log := s.log + [Execution(s.mem.tickets[t].id, s.clock, s.epoch)])
  {
    var firing := s.mem.tickets[t];
    var finishing := firing.(phase := Firing(Finish(if failed then RevertFailed else Reverted, job)));
    LastUpdateStays(s.mem.tickets, t, firing.(phase := Firing(Running)), finishing);
  }

  lemma FireCalls(s: State, t: TicketId, failed: bool, job: int)
    requires LookingUp(s, t) && s.mem.tickets[t].phase.pc.domain in s.executors
    ensures
      Returned(s, t, failed, job)
      == s.(mem := SetPhase(s.mem, t, Firing(Finish(if failed then RevertFailed else Reverted, job))),
            log := s.log + [Execution(s.mem.tickets[t].id, s.clock, s.epoch)])
  {
    FireLooks(s, t);
    var calling := s.(mem := SetPhase(s.mem, t, Firing(Call)));
    FireCallsAndReturns(calling, t, failed, job);
    var firing := s.mem.tickets[t];
    var finishing := firing.(phase := Firing(Finish(if failed then RevertFailed else Reverted, job)));
    LastUpdateStays(s.mem.tickets, t, firing.(phase := Firing(Call)), finishing);
  }

  lemma FireEnds(s: State, t: TicketId)
    requires Finishing(s, t) && IsArmed(s, s.mem.tickets[t].id)
    ensures
      var id := s.mem.tickets[t].id;
      var Finish(outcome, job) := s.mem.tickets[t].phase.pc;
      Ended(s, t)
      == s.(mem := Retire(s.mem, t), rows := s.rows[id := s.rows[id].(state := outcome, revertJob := job)])
  {
    var firing := s.mem.tickets[t];
    LastUpdateStays(s.mem.tickets, t, firing.(phase := Firing(Leave)), firing.(phase := Retired));
  }

  /** The state after the executor answered. */
  function Answered(s: State, t: TicketId, failed: bool, job: int): State
    requires t in s.mem.tickets
  {
    var id := s.mem.tickets[t].id;
    s.(mem := SetPhase(s.mem, t, Firing(Finish(if failed then RevertFailed else Reverted, job)))
              .(timers := s.mem.timers - {id}),
       log := s.log + [Execution(id, s.clock, s.epoch)])
  }

  /** The state at the end of fire. */
  function Fired(s: State, t: TicketId, failed: bool, job: int): State
    requires t in s.mem.tickets && s.mem.tickets[t].id in s.rows
  {
    var id := s.mem.tickets[t].id;
    var outcome := if failed then RevertFailed else Reverted;
    s.(mem := Retire(s.mem, t).(timers := s.mem.timers - {id}),
       rows := s.rows[id := s.rows[id].(state := outcome, revertJob := job)],
       log := s.log + [Execution(id, s.clock, s.epoch)])
  }

  predicate IsDue(s: State, t: TicketId) {
    && At(s, t, Pending) && s.mem.tickets[t].fireAt <= s.clock && IsArmed(s, s.mem.tickets[t].id)
    && s.rows[s.mem.tickets[t].id].domain in s.executors
  }

  lemma FireAnswers(s: State, t: TicketId, failed: bool, job: int)
    requires IsDue(s, t)
    ensures Returned(Loaded(s, t), t, failed, job) == Answered(s, t, failed, job)
  {
    var firing := s.mem.tickets[t];
    var looking := firing.(phase := Firing(Lookup(s.rows[firing.id].domain)));
    FireLoads(s, t);
    FireCalls(s.(mem := SetPhase(s.mem, t, looking.phase).(timers := s.mem.timers - {firing.id})), t, failed, job);
    var finishing := firing.(phase := Firing(Finish(if failed then RevertFailed else Reverted, job)));
    LastUpdateStays(s.mem.tickets, t, looking, finishing);
  }

  /** The timer of an armed revert that is due: its executor is called, and its answer stored. */
  lemma FireRuns(s: State, t: TicketId, failed: bool, job: int)
    requires IsDue(s, t)
    ensures Fire(s, t, failed, job) == Fired(s, t, failed, job)
  {
    FireAnswers(s, t, failed, job);
    FireEnds(Answered(s, t, failed, job), t);
    var firing := s.mem.tickets[t];
    var finishing := firing.(phase := Firing(Finish(if failed then RevertFailed else Reverted, job)));
    LastUpdateStays(s.mem.tickets, t, finishing, firing.(phase := Retired));
  }

  /** What the whole round leaves. */
  predicate LeftUndone(s: State, s': State, id: Id, domain: string, failed: bool, job: int) {
    var due := s.clock + s.window;
    && s'.clock == due && s'.log == s.log + [Execution(id, due, s.epoch)]
    && s'.rows == s.rows[id := Row(domain, s.clock, due, if failed then RevertFailed else Reverted, None, job)]
    && s'.mem.running == s.mem.running && s'.mem.timers == s.mem.timers && s'.stranded == s.stranded
  }

  lemma FiredIsLeftUndone(s: State, th: Thread, id: Id, domain: string, t: TicketId, failed: bool, job: int)
    requires Ready(s, th, id, domain, t)
    ensures
      var ripe := Guarded(s, id, domain, t).(clock := s.clock + s.window);
      IsDue(ripe, t) && LeftUndone(s, Fired(ripe, t, failed, job), id, domain, failed, job)
  {
    AddedAndRemoved(s.mem.timers, id, t);
    var row := Row(domain, s.clock, s.clock + s.window, Armed, None, 0);
    LastUpdateStays(s.rows, id, row, row.(state := if failed then RevertFailed else Reverted, revertJob := job));
  }

  /**
   A change that nobody confirms is undone: its executor is called once, exactly one window after
   the arming, the row says how that went, and no timer and no Done is left.
   */
  lemma UnconfirmedIsUndone(s: State, th: Thread, id: Id, domain: string, t: TicketId, failed: bool, job: int)
    requires Ready(s, th, id, domain, t)
    ensures LeftUndone(s, Fire(Arm(s, th, id, domain, t).(clock := s.clock + s.window), t, failed, job),
              id, domain, failed, job)
  {
    ArmIsArmed(s, th, id, domain, t);
    FiredIsLeftUndone(s, th, id, domain, t, failed, job);
    FireRuns(Guarded(s, id, domain, t).(clock := s.clock + s.window), t, failed, job);
  }

  // ----- confirmed in time -----

  function Stored(s: State, th: Thread, id: Id, domain: string): State {
    DoConfirmUpdate(DoConfirmLoad(s, th, id, domain), th, true)
  }

  function Stopped(s: State, th: Thread): State {
    DoConfirmStop(DoConfirmUnlink(s, th), th)
  }

  /** Confirm, statement by statement. */
  function Confirm(s: State, th: Thread, id: Id, domain: string): State {
    DoConfirmRelease(Stopped(Stored(s, th, id, domain), th), th)
  }

  lemma ConfirmStores(s: State, th: Thread, id: Id, domain: string)
    requires th !in s.confirms && IsArmed(s, id) && s.rows[id].domain == domain
    ensures Stored(s, th, id, domain)
            == s.(confirms := s.confirms[th := Unlinking(id)],
                  rows := s.rows[id := s.rows[id].(state := Confirmed, confirmedAt := Some(s.clock))])
  {
    LastUpdateStays(s.confirms, th, Confirming(id), Unlinking(id));
  }

  lemma ConfirmStops(s: State, th: Thread, id: Id, t: TicketId)
    requires th in s.confirms && s.confirms[th] == Unlinking(id)
    requires id in s.mem.timers && s.mem.timers[id] == t && At(s, t, Pending)
    ensures
      Stopped(s, th)
      == s.(confirms := s.confirms[th := Releasing(t)],
            mem := SetPhase(s.mem, t, StopOwed(Confirmer(th))).(timers := s.mem.timers - {id}))
  {
    LastUpdateStays(s.confirms, th, Stopping(t), Releasing(t));
  }

  lemma ConfirmReleases(s: State, th: Thread, t: TicketId)
    requires th in s.confirms && s.confirms[th] == Releasing(t) && t in s.mem.tickets
    ensures DoConfirmRelease(s, th) == s.(confirms := s.confirms - {th}, mem := Retire(s.mem, t))
  {
  }

  /** Confirming an armed revert whose timer has not fired: the row is confirmed, and timer and Done are gone. */
  lemma ConfirmRuns(s: State, th: Thread, id: Id, domain: string, t: TicketId)
    requires th !in s.confirms && IsArmed(s, id) && s.rows[id].domain == domain
    requires id in s.mem.timers && s.mem.timers[id] == t && At(s, t, Pending)
    ensures Confirm(s, th, id, domain) == Settled(s, id, t)
  {
    ConfirmStores(s, th, id, domain);
    var stored := Stored(s, th, id, domain);
    ConfirmStops(stored, th, id, t);
    LastUpdateStays(s.confirms, th, Unlinking(id), Releasing(t));
    var stopped := Stopped(stored, th);
    ConfirmReleases(stopped, th, t);
    AddedAndRemoved(s.confirms, th, Releasing(t));
    var waiting := s.mem.tickets[t];
    LastUpdateStays(s.mem.tickets, t, waiting.(phase := StopOwed(Confirmer(th))), waiting.(phase := Retired));
  }

  /** Nothing fires once the timer was stopped. */
  lemma RetiredStays(s: State, t: TicketId, failed: bool, job: int)
    requires At(s, t, Retired)
    ensures Fire(s, t, failed, job) == s
  {
  }

  /** What confirming an armed revert leaves. */
  function Settled(s: State, id: Id, t: TicketId): State
    requires id in s.rows && t in s.mem.tickets
  {
    s.(rows := s.rows[id := s.rows[id].(state := Confirmed, confirmedAt := Some(s.clock))],
       mem := Retire(s.mem, t).(timers := s.mem.timers - {id}))
  }

  predicate LeftConfirmed(s: State, s': State, id: Id, domain: string, now: int) {
    && s'.log == s.log
    && s'.rows == s.rows[id := Row(domain, s.clock, s.clock + s.window, Confirmed, Some(now), 0)]
    && s'.mem.running == s.mem.running && s'.mem.timers == s.mem.timers && s'.confirms == s.confirms
  }

  lemma SettledIsLeftConfirmed(s: State, th: Thread, id: Id, domain: string, t: TicketId, elapsed: nat)
    requires Ready(s, th, id, domain, t)
    ensures
      var waiting := Guarded(s, id, domain, t).(clock := s.clock + elapsed);
      LeftConfirmed(s, Settled(waiting, id, t), id, domain, s.clock + elapsed)
        && At(Settled(waiting, id, t), t, Retired)
  {
    AddedAndRemoved(s.mem.timers, id, t);
    var row := Row(domain, s.clock, s.clock + s.window, Armed, None, 0);
    LastUpdateStays(s.rows, id, row, row.(state := Confirmed, confirmedAt := Some(s.clock + elapsed)));
  }

  /**
   A change that is confirmed before its timer fires stays: the row says when, neither timer nor Done is
   left, and the timer's body has nothing to run.
   */
  lemma ConfirmedInTimeStays(s: State, th: Thread, id: Id, domain: string, t: TicketId, elapsed: nat, failed: bool,
                             job: int)
    requires Ready(s, th, id, domain, t)
    ensures
      var s' := Confirm(Arm(s, th, id, domain, t).(clock := s.clock + elapsed), th, id, domain);
      LeftConfirmed(s, s', id, domain, s.clock + elapsed) && Fire(s', t, failed, job) == s'
  {
    ArmIsArmed(s, th, id, domain, t);
    var waiting := Guarded(s, id, domain, t).(clock := s.clock + elapsed);
    SettledIsLeftConfirmed(s, th, id, domain, t, elapsed);
    ConfirmRuns(waiting, th, id, domain, t);
    RetiredStays(Settled(waiting, id, t), t, failed, job);
  }

  // ----- the rounds are runs of the machine -----

  lemma ArmIsItsSteps(s: State, th: Thread, id: Id, domain: string, t: TicketId)
    ensures
      Arm(s, th, id, domain, t)
      == Next(Next(Next(Next(Next(s, ArmBegin(th, id, domain)), ArmInsert(th, true)), ReadDelay(th)),
           EnterSchedule(th, t)), ReadDelay(th))
  {
  }

  lemma LoadedIsItsSteps(s: State, t: TicketId)
    ensures Loaded(s, t) == Next(Next(Next(s, Expire(t)), FireUnlink(t)), FireLoad(t, true))
  {
  }

  lemma ReturnedIsItsSteps(s: State, t: TicketId, failed: bool, job: int)
    ensures Returned(s, t, failed, job) == Next(Next(Next(s, FireLookup(t)), FireCall(t)), FireReturn(t, failed, job))
  {
  }

  lemma EndedIsItsSteps(s: State, t: TicketId)
    ensures Ended(s, t) == Next(Next(s, FireFinish(t, true)), FireLeave(t))
  {
  }

  lemma ConfirmIsItsSteps(s: State, th: Thread, id: Id, domain: string)
    ensures
      Confirm(s, th, id, domain)
      == Next(Next(Next(Next(Next(s, ConfirmLoad(th, id, domain)), ConfirmUpdate(th, true)), ConfirmUnlink(th)),
           ConfirmStop(th)), ConfirmRelease(th))
  {
  }
}
