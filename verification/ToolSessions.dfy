/**
 The sliding sessions of internal/modules/admintools/launch.go. A launch token is
 used once to start a session; the session's deadline slides forward on traffic,
 up to a cap counted from the launch. Times are in nanoseconds.
 */
module ToolSessions {
  import opened Wrappers

  type Id = nat
  type Kind = nat

  const SECOND := 1_000_000_000
  const MINUTE := 60 * SECOND
  const LAUNCH_WINDOW := 60 * SECOND
  const IDLE_WINDOW := 15 * MINUTE
  const MAX_LIFETIME := 480 * MINUTE
  const RENEW_AFTER := 5 * MINUTE

  datatype Row = Row(kind: Kind, createdAt: int, launchExpires: int, sessionExpires: int, usedAt: Option<int>)

  type Rows = map<Id, Row>

  /** The row CreateLaunch inserts. */
  function NewRow(kind: Kind, now: int): Row {
    Row(kind, now, now + LAUNCH_WINDOW, now + IDLE_WINDOW, None)
  }

  /** Whatever happens, no deadline lies past the cap. */
  predicate Capped(row: Row) {
    row.sessionExpires <= row.createdAt + MAX_LIFETIME
  }

  /** The deadline a renewal at this time would write. */
  function Deadline(row: Row, now: int): int {
    if now + IDLE_WINDOW > row.createdAt + MAX_LIFETIME then row.createdAt + MAX_LIFETIME else now + IDLE_WINDOW
  }

  /** renewSession leaves the row alone unless the deadline moves forward and enough of the window is used up. */
  predicate Renews(row: Row, now: int) {
    Deadline(row, now) > row.sessionExpires && row.sessionExpires - now <= IDLE_WINDOW - RENEW_AFTER
  }

  /** expireLaunchesAt: one UPDATE over every row of the kind. */
  function Expired(rows: Rows, kind: Kind, at: int): Rows {
    map id | id in rows ::
      if rows[id].kind == kind then rows[id].(launchExpires := at, sessionExpires := at) else rows[id]
  }

  /** The conditional UPDATE of a renewal. */
  function Renewed(rows: Rows, id: Id, now: int, deadline: int): Rows {
    if id in rows && rows[id].sessionExpires > now then rows[id := rows[id].(sessionExpires := deadline)] else rows
  }

  /** The conditional UPDATE that uses a launch. */
  function Consumed(rows: Rows, id: Id, now: int): Rows {
    if id in rows && rows[id].usedAt.None? then rows[id := rows[id].(usedAt := Some(now))] else rows
  }

  datatype Slide = Unchanged | Slid(deadline: int) | Gone | Failed

  class Store {
    var rows: Rows

    constructor ()
      ensures rows == map[]
    {
      rows := map[];
    }

    /**
     `model` is the row as it was loaded, possibly before other requests changed it; `ok` says whether the
     UPDATE reached the database.
     */
    method RenewSession(id: Id, model: Row, now: int, ok: bool) returns (slide: Slide)
      modifies this
      ensures slide == Unchanged <==> !Renews(model, now)
      ensures slide.Slid? <==> Renews(model, now) && ok && id in old(rows) && old(rows)[id].sessionExpires > now
      ensures slide.Slid? ==>
                slide.deadline == Deadline(model, now)
                  && model.sessionExpires < slide.deadline <= model.createdAt + MAX_LIFETIME
      ensures rows == if slide.Slid? then Renewed(old(rows), id, now, Deadline(model, now)) else old(rows)
    {
      var deadline := now + IDLE_WINDOW;
      var limit := model.createdAt + MAX_LIFETIME;
      if deadline > limit { deadline := limit; }
      if !(deadline > model.sessionExpires) || model.sessionExpires - now > IDLE_WINDOW - RENEW_AFTER {
        return Unchanged;
      }
      if !ok { return Failed; }
      if id !in rows || !(rows[id].sessionExpires > now) { return Gone; }
      rows := rows[id := rows[id].(sessionExpires := deadline)];
      return Slid(deadline);
    }

    /** True for the one request that uses the launch. */
    method ConsumeLaunch(id: Id, now: int) returns (won: bool)
      modifies this
      ensures won <==> id in old(rows) && old(rows)[id].usedAt.None?
      ensures rows == Consumed(old(rows), id, now)
    {
      if id !in rows || rows[id].usedAt.Some? { return false; }
      rows := rows[id := rows[id].(usedAt := Some(now))];
      return true;
    }
  }

  // ----- concurrent requests, statement by statement -----

  type Thread = nat

  datatype Request =
    | LaunchSeen(id: Id, row: Row)                             // loaded by launch token
    | LaunchChecked(id: Id, createdAt: int, at: int)           // found unused and unexpired at this reading
    | SessionSeen(id: Id, row: Row)                            // loaded by session token
    | Renewing(id: Id, row: Row, now: int, deadline: int)      // about to write the new deadline
    | Expiring(kind: Kind, at: int, launches: bool)            // expireLaunchesAt is to come, for a stop or a launch
    | Launching(kind: Kind, at: int)                           // CreateLaunch is about to insert its row

  /** A request let through on its session cookie, with the clock reading it was judged by. */
  datatype Authorisation = Authorisation(id: Id, createdAt: int, at: int)

  /** A launch that was used, with the clock reading its expiry was judged by. */
  datatype Consumption = Consumption(id: Id, createdAt: int, checkedAt: int)

  datatype State = State(clock: int, rows: Rows, ids: set<Id>, requests: map<Thread, Request>,
                         authorised: seq<Authorisation>, consumed: seq<Consumption>)

  datatype Step =
    | Tick(elapsed: nat)
    | LaunchRead(thread: Thread, kind: Kind, rotates: bool)
    | LaunchInsert(thread: Thread, id: Id, ok: bool)
    | Withdraw(id: Id)
    | LaunchLoad(thread: Thread, id: Id)
    | LaunchCheck(thread: Thread)
    | LaunchConsume(thread: Thread, ok: bool)
    | SessionLoad(thread: Thread, id: Id)
    | SessionCheck(thread: Thread)
    | SessionRenew(thread: Thread, ok: bool)
    | ExpireRead(thread: Thread, kind: Kind)
    | ExpireWrite(thread: Thread, ok: bool)

  /**
   CreateLaunch reads the clock once; a tool with one catalog for all its sessions first stamps its earlier
   launches with that reading.
   */
  function DoLaunchRead(s: State, th: Thread, kind: Kind, rotates: bool): State {
    Begin(s, th, if rotates then Expiring(kind, s.clock, true) else Launching(kind, s.clock))
  }

  /** Ids are random and never used again. */
  function DoLaunchInsert(s: State, th: Thread, id: Id, ok: bool): State {
    if th !in s.requests || !s.requests[th].Launching? then s
    else
      var Launching(kind, at) := s.requests[th];
      var done := s.(requests := s.requests - {th});
      if !ok || id in s.ids then done else done.(rows := s.rows[id := NewRow(kind, at)], ids := s.ids + {id})
  }

  function DoLaunchCheck(s: State, th: Thread): State {
    if th !in s.requests || !s.requests[th].LaunchSeen? then s
    else
      var LaunchSeen(id, row) := s.requests[th];
      if row.usedAt.None? && s.clock < row.launchExpires then
        s.(requests := s.requests[th := LaunchChecked(id, row.createdAt, s.clock)])
      else s.(requests := s.requests - {th})
  }

  function DoLaunchConsume(s: State, th: Thread, ok: bool): State {
    if th !in s.requests || !s.requests[th].LaunchChecked? then s
    else
      var LaunchChecked(id, createdAt, at) := s.requests[th];
      var done := s.(requests := s.requests - {th});
      if !ok || id !in s.rows || s.rows[id].usedAt.Some? then done
      else done.(rows := Consumed(s.rows, id, s.clock), consumed := s.consumed + [Consumption(id, createdAt, at)])
  }

  /** The clock is read after the row is loaded. */
  function DoSessionCheck(s: State, th: Thread): State {
    if th !in s.requests || !s.requests[th].SessionSeen? then s
    else
      var SessionSeen(id, row) := s.requests[th];
      var done := s.(requests := s.requests - {th});
      if !(s.clock < row.sessionExpires) then done
      else if Renews(row, s.clock) then
        s.(requests := s.requests[th := Renewing(id, row, s.clock, Deadline(row, s.clock))])
      else done.(authorised := s.authorised + [Authorisation(id, row.createdAt, s.clock)])
  }

  function DoSessionRenew(s: State, th: Thread, ok: bool): State {
    if th !in s.requests || !s.requests[th].Renewing? then s
    else
      var Renewing(id, row, now, deadline) := s.requests[th];
      var done := s.(requests := s.requests - {th});
      if !ok || id !in s.rows || !(s.rows[id].sessionExpires > now) then done
      else
        done.(rows := Renewed(s.rows, id, now, deadline),
          authorised := s.authorised + [Authorisation(id, row.createdAt, now)])
  }

  function DoExpireWrite(s: State, th: Thread, ok: bool): State {
    if th !in s.requests || !s.requests[th].Expiring? then s
    else
      var Expiring(kind, at, launches) := s.requests[th];
      var done := s.(requests := s.requests - {th});
      if !ok then done
      else
        s.(rows := Expired(s.rows, kind, at),
          requests := if launches then s.requests[th := Launching(kind, at)] else done.requests)
  }

  function Begin(s: State, th: Thread, r: Request): State {
    if th in s.requests then s else s.(requests := s.requests[th := r])
  }

  function Next(s: State, step: Step): State {
    match step
    case Tick(elapsed) => s.(clock := s.clock + elapsed)
    case LaunchRead(th, kind, rotates) => DoLaunchRead(s, th, kind, rotates)
    case LaunchInsert(th, id, ok) => DoLaunchInsert(s, th, id, ok)
    case Withdraw(id) => s.(rows := s.rows - {id})
    case LaunchLoad(th, id) => if id in s.rows then Begin(s, th, LaunchSeen(id, s.rows[id])) else s
    case LaunchCheck(th) => DoLaunchCheck(s, th)
    case LaunchConsume(th, ok) => DoLaunchConsume(s, th, ok)
    case SessionLoad(th, id) => if id in s.rows then Begin(s, th, SessionSeen(id, s.rows[id])) else s
    case SessionCheck(th) => DoSessionCheck(s, th)
    case SessionRenew(th, ok) => DoSessionRenew(s, th, ok)
    case ExpireRead(th, kind) => Begin(s, th, Expiring(kind, s.clock, false))
    case ExpireWrite(th, ok) => DoExpireWrite(s, th, ok)
  }

  function Exec(s: State, run: seq<Step>): State
    decreases |run|
  {
    if run == [] then s else Exec(Next(s, run[0]), run[1..])
  }

  function Initial(clock: int): State {
    State(clock, map[], {}, map[], [], [])
  }

  // ----- the cap, and single use -----

  /** A stamp may lie past the cap of an old row; it is never later than the clock. */
  predicate RowOk(row: Row, clock: int) {
    && (Capped(row) || row.sessionExpires <= clock)
    && (row.launchExpires <= row.createdAt + LAUNCH_WINDOW || row.launchExpires <= clock)
  }

  ghost predicate RequestOk(clock: int, rows: Rows, ids: set<Id>, r: Request) {
    match r
    case LaunchSeen(id, row) => id in ids && RowOk(row, clock)
    case LaunchChecked(id, createdAt, at) => id in ids && at < createdAt + LAUNCH_WINDOW
    case SessionSeen(id, row) => id in ids && RowOk(row, clock) && (id in rows ==> rows[id].createdAt == row.createdAt)
    case Renewing(id, row, now, deadline) =>
      && id in ids && Capped(row) && now < row.sessionExpires && now <= clock
      && deadline == Deadline(row, now) && (id in rows ==> rows[id].createdAt == row.createdAt)
    case Expiring(_, at, _) => at <= clock
    case Launching(_, at) => at <= clock
  }

  ghost predicate Inv(s: State) {
    && (forall id :: id in s.rows ==> id in s.ids && RowOk(s.rows[id], s.clock))
    && (forall th :: th in s.requests ==> RequestOk(s.clock, s.rows, s.ids, s.requests[th]))
    && (forall i :: 0 <= i < |s.authorised| ==> s.authorised[i].at < s.authorised[i].createdAt + MAX_LIFETIME)
    && (forall i :: 0 <= i < |s.consumed| ==>
          && s.consumed[i].id in s.ids && (s.consumed[i].id in s.rows ==> s.rows[s.consumed[i].id].usedAt.Some?)
          && s.consumed[i].checkedAt < s.consumed[i].createdAt + LAUNCH_WINDOW)
    && (forall i, j :: 0 <= i < j < |s.consumed| ==> s.consumed[i].id != s.consumed[j].id)
  }
}
