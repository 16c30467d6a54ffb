/**
 The timed automatic revert of internal/modules/safeguard/safeguard.go as a
 transition system. One step is one statement that touches shared state: one
 SQL statement, one critical section of the guard's mutex, one clock reading,
 one timer.Stop, one WaitGroup.Done. Any number of Arm, Confirm and Start calls
 are in flight at once; every time.AfterFunc is a ticket. Calls into SQLite may
 fail at any time, the process may crash at any time, and only the rows survive
 a crash.

 Next is total: a step that is not enabled leaves the state as it is, so a run
 is any sequence of steps and every theorem over runs quantifies over all of them.
 */
module SafeguardMachine {
  import opened Wrappers

  type Id = nat
  type Thread = nat
  type TicketId = nat

  // ----- the lockout_reverts table -----

  datatype RowState = Armed | Confirmed | Reverted | RevertFailed

  datatype Row = Row(domain: string, armedAt: int, expiresAt: int, state: RowState, confirmedAt: Option<int>,
                     revertJob: int)

  // ----- the guard's memory: timers map, WaitGroup, closed flag, runtime timers -----

  /** Where the body of one AfterFunc stands inside fire and finish. */
  datatype FirePc =
    | Unlink                                  // take the mutex, delete the map entry
    | Load                                    // re-read the row
    | Lookup(domain: string)                  // the row was armed; find the executor
    | Call                                    // about to call the executor
    | Running                                 // inside the executor
    | Finish(outcome: RowState, job: int)     // record the outcome, if still armed
    | Leave                                   // run the deferred Done

  /** Who must still call Done for a timer that Stop kept from running. */
  datatype Owner = Closer | Confirmer(thread: Thread)

  datatype Phase = Pending | Firing(pc: FirePc) | StopOwed(owner: Owner) | Retired

  datatype Ticket = Ticket(id: Id, fireAt: int, phase: Phase)

  datatype Memory = Memory(closed: bool, running: int, timers: map<Id, TicketId>, tickets: map<TicketId, Ticket>)

  /** The critical section of schedule: a second timer for the same revert and a timer after Close are refused. */
  function Place(m: Memory, t: TicketId, id: Id, fireAt: int): Memory {
    if id in m.timers || m.closed || t in m.tickets then m
    else
      m.(running := m.running + 1, timers := m.timers[id := t], tickets := m.tickets[t := Ticket(id, fireAt, Pending)])
  }

  function Without(timers: map<Id, TicketId>, id: Id): map<Id, TicketId> {
    timers - {id}
  }

  function SetPhase(m: Memory, t: TicketId, phase: Phase): Memory
    requires t in m.tickets
  {
    m.(tickets := m.tickets[t := m.tickets[t].(phase := phase)])
  }

  /** WaitGroup.Done on behalf of one ticket. */
  function Retire(m: Memory, t: TicketId): Memory
    requires t in m.tickets
  {
    SetPhase(m, t, Retired).(running := m.running - 1)
  }

  /** The map holds this timer, under the revert it was made for. */
  predicate Mapped(m: Memory, t: TicketId) {
    t in m.tickets && m.tickets[t].id in m.timers && m.timers[m.tickets[t].id] == t
  }

  /** The critical section of Close: every mapped timer is stopped if it has not fired, and the map is emptied. */
  function CloseTimers(m: Memory): Memory {
    m.(closed := true, timers := map[],
       tickets := map t | t in m.tickets ::
         if Mapped(m, t) && m.tickets[t].phase == Pending
         then m.tickets[t].(phase := StopOwed(Closer)) else m.tickets[t])
  }

  // ----- calls in flight -----

  /** Arm between reading the clock and inserting the row. */
  datatype Arming = Arming(id: Id, domain: string, armedAt: int)

  datatype Due = Due(id: Id, expiresAt: int)

  /** Arm or Start working through schedule; delay is None until the clock was read for dues[0]. */
  datatype Scheduling = Scheduling(dues: seq<Due>, delay: Option<nat>)

  datatype Confirm =
    | Confirming(id: Id)          // the row was read as armed
    | Unlinking(id: Id)           // the update took a row; about to enter stopTimer
    | Stopping(ticket: TicketId)  // map entry removed, about to call Stop
    | Releasing(ticket: TicketId) // Stop won, Done is owed

  datatype Boot = Unstarted | Reading | Reconciled

  datatype Closing = Open | Draining | Waiting | Closed

  /** One call of an executor: which revert, when, and in which process lifetime. */
  datatype Execution = Execution(id: Id, at: int, epoch: nat)

  /**
   The last four fields are ghosts: the executor log, `armedHere` the reverts this
   process inserted, `stranded` those this process lost to a failing SQL call,
   `overlapped` the process lifetimes in which Start read a revert that Arm had
   already taken on.
   */
  datatype State = State(
    window: nat, clock: int, rows: map<Id, Row>,
    mem: Memory, boot: Boot, closing: Closing, executors: set<string>,
    arming: map<Thread, Arming>, scheduling: map<Thread, Scheduling>, confirms: map<Thread, Confirm>,
    epoch: nat, log: seq<Execution>, armedHere: set<Id>, stranded: set<Id>, overlapped: set<nat>)

  datatype Step =
    | Tick(elapsed: nat)
    | Register(domain: string)
    | ArmBegin(thread: Thread, id: Id, domain: string)
    | ArmInsert(thread: Thread, ok: bool)
    | ReadDelay(thread: Thread)
    | EnterSchedule(thread: Thread, ticket: TicketId)
    | StartBegin
    | StartSelect(thread: Thread, dues: seq<Due>, ok: bool)
    | ConfirmLoad(thread: Thread, id: Id, domain: string)
    | ConfirmUpdate(thread: Thread, ok: bool)
    | ConfirmUnlink(thread: Thread)
    | ConfirmStop(thread: Thread)
    | ConfirmRelease(thread: Thread)
    | Expire(ticket: TicketId)
    | FireUnlink(ticket: TicketId)
    | FireLoad(ticket: TicketId, ok: bool)
    | FireLookup(ticket: TicketId)
    | FireCall(ticket: TicketId)
    | FireReturn(ticket: TicketId, failed: bool, job: int)
    | FireFinish(ticket: TicketId, ok: bool)
    | FireLeave(ticket: TicketId)
    | CloseLock
    | CloseRelease(ticket: TicketId)
    | CloseCancel
    | CloseReturn
    | Crash

  predicate At(s: State, t: TicketId, phase: Phase) {
    t in s.mem.tickets && s.mem.tickets[t].phase == phase
  }

  predicate IsArmed(s: State, id: Id) {
    id in s.rows && s.rows[id].state == Armed
  }

  // ----- Arm and Start -----

  function DoArmBegin(s: State, th: Thread, id: Id, domain: string): State {
    if th in s.arming || domain == "" then s
    else s.(arming := s.arming[th := Arming(id, domain, s.clock)])
  }

  /** The insert fails on a duplicate key like on any other error. */
  function DoArmInsert(s: State, th: Thread, ok: bool): State {
    if th !in s.arming || th in s.scheduling then s
    else
      var Arming(id, domain, armedAt) := s.arming[th];
      if !ok || id in s.rows then s.(arming := s.arming - {th})
      else
        s.(arming := s.arming - {th},
           scheduling := s.scheduling[th := Scheduling([Due(id, armedAt + s.window)], None)],
           rows := s.rows[id := Row(domain, armedAt, armedAt + s.window, Armed, None, 0)],
           armedHere := s.armedHere + {id})
  }

  /** schedule reads the clock before it takes the mutex. */
  function DoReadDelay(s: State, th: Thread): State {
    if th !in s.scheduling || s.scheduling[th].delay.Some? then s
    else
      var dues := s.scheduling[th].dues;
      if dues == [] then s.(scheduling := s.scheduling - {th})
      else
        var delay := dues[0].expiresAt - s.clock;
        s.(scheduling := s.scheduling[th := Scheduling(dues, Some(if delay < 0 then 0 else delay))])
  }

  function DoEnterSchedule(s: State, th: Thread, t: TicketId): State {
    if th !in s.scheduling || s.scheduling[th].delay.None? || s.scheduling[th].dues == [] || t in s.mem.tickets then s
    else
      var Scheduling(dues, delay) := s.scheduling[th];
      s.(scheduling := s.scheduling[th := Scheduling(dues[1..], None)],
         mem := Place(s.mem, t, dues[0].id, s.clock + delay.value))
  }

  /** A second Start returns at once: the cancel function is already set. */
  function DoStartBegin(s: State): State {
    if s.boot != Unstarted then s else s.(boot := Reading)
  }

  function ArmedIds(rows: map<Id, Row>): set<Id> {
    set id | id in rows && rows[id].state == Armed
  }

  /** `dues` lists exactly the armed rows, each once, in whatever order SQLite returns them. */
  ghost predicate ListsArmedRows(rows: map<Id, Row>, dues: seq<Due>) {
    && (forall id :: id in rows && rows[id].state == Armed ==> Due(id, rows[id].expiresAt) in dues)
    && (forall d :: d in dues ==> d.id in rows && rows[d.id].state == Armed && rows[d.id].expiresAt == d.expiresAt)
    && (forall i, j :: 0 <= i < j < |dues| ==> dues[i].id != dues[j].id)
  }

  ghost function DoStartSelect(s: State, th: Thread, dues: seq<Due>, ok: bool): State {
    if s.boot != Reading || th in s.scheduling then s
    else if !ok then s.(boot := Reconciled, stranded := s.stranded + ArmedIds(s.rows))
    else if !ListsArmedRows(s.rows, dues) then s
    else s.(boot := Reconciled, scheduling := s.scheduling[th := Scheduling(dues, None)],
            overlapped := if s.armedHere * ArmedIds(s.rows) == {} then s.overlapped else s.overlapped + {s.epoch})
  }

  // ----- Confirm and stopTimer -----

  /** A load error, a foreign domain and a settled row all end the call without touching anything. */
  function DoConfirmLoad(s: State, th: Thread, id: Id, domain: string): State {
    if th in s.confirms || !IsArmed(s, id) || (domain != "" && s.rows[id].domain != domain) then s
    else s.(confirms := s.confirms[th := Confirming(id)])
  }

  function DoConfirmUpdate(s: State, th: Thread, ok: bool): State {
    if th !in s.confirms || !s.confirms[th].Confirming? then s
    else
      var id := s.confirms[th].id;
      if !ok || !IsArmed(s, id) then s.(confirms := s.confirms - {th})
      else s.(confirms := s.confirms[th := Unlinking(id)],
              rows := s.rows[id := s.rows[id].(state := Confirmed, confirmedAt := Some(s.clock))])
  }

  function DoConfirmUnlink(s: State, th: Thread): State {
    if th !in s.confirms || !s.confirms[th].Unlinking? then s
    else
      var id := s.confirms[th].id;
      if id !in s.mem.timers then s.(confirms := s.confirms - {th})
      else
        s.(confirms := s.confirms[th := Stopping(s.mem.timers[id])], mem := s.mem.(timers := Without(s.mem.timers, id)))
  }

  /** Stop succeeds exactly when the body has not been started. */
  function DoConfirmStop(s: State, th: Thread): State {
    if th !in s.confirms || !s.confirms[th].Stopping? then s
    else
      var t := s.confirms[th].ticket;
      if !At(s, t, Pending) then s.(confirms := s.confirms - {th})
      else s.(confirms := s.confirms[th := Releasing(t)], mem := SetPhase(s.mem, t, StopOwed(Confirmer(th))))
  }

  function DoConfirmRelease(s: State, th: Thread): State {
    if th !in s.confirms || !s.confirms[th].Releasing? || s.confirms[th].ticket !in s.mem.tickets then s
    else s.(confirms := s.confirms - {th}, mem := Retire(s.mem, s.confirms[th].ticket))
  }

  // ----- timer expiry, fire and finish -----

  function DoExpire(s: State, t: TicketId): State {
    if !At(s, t, Pending) || s.clock < s.mem.tickets[t].fireAt then s
    else s.(mem := SetPhase(s.mem, t, Firing(Unlink)))
  }

  /** fire deletes whatever entry the map holds under the revert's id. */
  function DoFireUnlink(s: State, t: TicketId): State {
    if !At(s, t, Firing(Unlink)) then s
    else s.(mem := SetPhase(s.mem, t, Firing(Load)).(timers := Without(s.mem.timers, s.mem.tickets[t].id)))
  }

  function DoFireLoad(s: State, t: TicketId, ok: bool): State {
    if !At(s, t, Firing(Load)) then s
    else
      var id := s.mem.tickets[t].id;
      if !ok then s.(mem := SetPhase(s.mem, t, Firing(Leave)), stranded := s.stranded + {id})
      else if !IsArmed(s, id) then s.(mem := SetPhase(s.mem, t, Firing(Leave)))
      else s.(mem := SetPhase(s.mem, t, Firing(Lookup(s.rows[id].domain))))
  }

  predicate LookingUp(s: State, t: TicketId) {
    t in s.mem.tickets && s.mem.tickets[t].phase.Firing? && s.mem.tickets[t].phase.pc.Lookup?
  }

  function DoFireLookup(s: State, t: TicketId): State {
    if !LookingUp(s, t) then s
    else if s.mem.tickets[t].phase.pc.domain in s.executors then s.(mem := SetPhase(s.mem, t, Firing(Call)))
    else s.(mem := SetPhase(s.mem, t, Firing(Finish(RevertFailed, 0))))
  }

  function DoFireCall(s: State, t: TicketId): State {
    if !At(s, t, Firing(Call)) then s
    else
      s.(mem := SetPhase(s.mem, t, Firing(Running)), log := s.log + [Execution(s.mem.tickets[t].id, s.clock, s.epoch)])
  }

  function DoFireReturn(s: State, t: TicketId, failed: bool, job: int): State {
    if !At(s, t, Firing(Running)) then s
    else s.(mem := SetPhase(s.mem, t, Firing(Finish(if failed then RevertFailed else Reverted, job))))
  }

  predicate Finishing(s: State, t: TicketId) {
    t in s.mem.tickets && s.mem.tickets[t].phase.Firing? && s.mem.tickets[t].phase.pc.Finish?
  }

  function DoFireFinish(s: State, t: TicketId, ok: bool): State {
    if !Finishing(s, t) then s
    else
      var id := s.mem.tickets[t].id;
      var Finish(outcome, job) := s.mem.tickets[t].phase.pc;
      var mem := SetPhase(s.mem, t, Firing(Leave));
      if !ok then s.(mem := mem, stranded := s.stranded + {id})
      else if !IsArmed(s, id) then s.(mem := mem)
      else s.(mem := mem, rows := s.rows[id := s.rows[id].(state := outcome, revertJob := job)])
  }

  function DoFireLeave(s: State, t: TicketId): State {
    if !At(s, t, Firing(Leave)) then s else s.(mem := Retire(s.mem, t))
  }

  // ----- Close and the end of the process -----

  function DoCloseLock(s: State): State {
    if s.closing != Open then s else s.(mem := CloseTimers(s.mem), closing := Draining)
  }

  function DoCloseRelease(s: State, t: TicketId): State {
    if s.closing != Draining || !At(s, t, StopOwed(Closer)) then s else s.(mem := Retire(s.mem, t))
  }

  /** The loop of Done calls has ended; cancel the context and start waiting. */
  function DoCloseCancel(s: State): State {
    if s.closing != Draining || (exists t :: t in s.mem.tickets && s.mem.tickets[t].phase == StopOwed(Closer)) then s
    else s.(closing := Waiting)
  }

  function DoCloseReturn(s: State): State {
    if s.closing != Waiting || s.mem.running != 0 then s else s.(closing := Closed)
  }

  function Booted(window: nat, clock: int, rows: map<Id, Row>, epoch: nat, log: seq<Execution>,
                  overlapped: set<nat>): State {
    State(window, clock, rows, Memory(false, 0, map[], map[]), Unstarted, Open, {}, map[], map[], map[],
          epoch, log, {}, {}, overlapped)
  }

  function DoCrash(s: State): State {
    Booted(s.window, s.clock, s.rows, s.epoch + 1, s.log, s.overlapped)
  }

  ghost function Next(s: State, step: Step): State {
    match step
    case Tick(elapsed) => s.(clock := s.clock + elapsed)
    case Register(domain) => s.(executors := s.executors + {domain})
    case ArmBegin(th, id, domain) => DoArmBegin(s, th, id, domain)
    case ArmInsert(th, ok) => DoArmInsert(s, th, ok)
    case ReadDelay(th) => DoReadDelay(s, th)
    case EnterSchedule(th, t) => DoEnterSchedule(s, th, t)
    case StartBegin => DoStartBegin(s)
    case StartSelect(th, dues, ok) => DoStartSelect(s, th, dues, ok)
    case ConfirmLoad(th, id, domain) => DoConfirmLoad(s, th, id, domain)
    case ConfirmUpdate(th, ok) => DoConfirmUpdate(s, th, ok)
    case ConfirmUnlink(th) => DoConfirmUnlink(s, th)
    case ConfirmStop(th) => DoConfirmStop(s, th)
    case ConfirmRelease(th) => DoConfirmRelease(s, th)
    case Expire(t) => DoExpire(s, t)
    case FireUnlink(t) => DoFireUnlink(s, t)
    case FireLoad(t, ok) => DoFireLoad(s, t, ok)
    case FireLookup(t) => DoFireLookup(s, t)
    case FireCall(t) => DoFireCall(s, t)
    case FireReturn(t, failed, job) => DoFireReturn(s, t, failed, job)
    case FireFinish(t, ok) => DoFireFinish(s, t, ok)
    case FireLeave(t) => DoFireLeave(s, t)
    case CloseLock => DoCloseLock(s)
    case CloseRelease(t) => DoCloseRelease(s, t)
    case CloseCancel => DoCloseCancel(s)
    case CloseReturn => DoCloseReturn(s)
    case Crash => DoCrash(s)
  }

  /** The state after a run. */
  ghost function Exec(s: State, run: seq<Step>): State
    decreases |run|
  {
    if run == [] then s else Exec(Next(s, run[0]), run[1..])
  }

  function Initial(window: nat, clock: int): State {
    Booted(window, clock, map[], 0, [], {})
  }
}
