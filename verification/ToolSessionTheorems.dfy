/** How long a tool session can live, over every interleaving of requests and expiries. */
module ToolSessionTheorems {
  import opened Wrappers
  import opened ToolSessions

  // ----- every step keeps the cap -----

  lemma TickKeeps(s: State, elapsed: nat)
    requires Inv(s)
    ensures Inv(Next(s, Tick(elapsed)))
  {
  }

  lemma LaunchKeeps(s: State, th: Thread, id: Id, ok: bool)
    requires Inv(s)
    ensures Inv(DoLaunchInsert(s, th, id, ok))
  {
  }

  lemma RowsKeep(s: State, rows': Rows)
    requires Inv(s)
    requires forall id :: id in rows' ==>
               id in s.rows && rows'[id].createdAt == s.rows[id].createdAt && RowOk(rows'[id], s.clock)
                                          && (s.rows[id].usedAt.Some? ==> rows'[id].usedAt.Some?)
    ensures Inv(s.(rows := rows'))
  {
  }

  lemma DropKeeps(s: State, th: Thread)
    requires Inv(s)
    ensures Inv(s.(requests := s.requests - {th}))
  {
  }

  lemma RequestKeeps(s: State, th: Thread, r: Request)
    requires Inv(s) && RequestOk(s.clock, s.rows, s.ids, r)
    ensures Inv(s.(requests := s.requests[th := r]))
  {
  }

  lemma ConsumeKeeps(s: State, th: Thread, ok: bool)
    requires Inv(s)
    ensures Inv(DoLaunchConsume(s, th, ok))
  {
  }

  lemma CheckKeeps(s: State, th: Thread)
    requires Inv(s)
    ensures Inv(DoSessionCheck(s, th))
  {
  }

  lemma RenewKeeps(s: State, th: Thread, ok: bool)
    requires Inv(s)
    ensures Inv(DoSessionRenew(s, th, ok))
  {
  }

  lemma StepKeepsInv(s: State, step: Step)
    requires Inv(s)
    ensures Inv(Next(s, step))
  {
    match step
    case Tick(elapsed) => TickKeeps(s, elapsed);
    case LaunchRead(th, kind, rotates) =>
      RequestKeeps(s, th, if rotates then Expiring(kind, s.clock, true) else Launching(kind, s.clock));
    case LaunchInsert(th, id, ok) => LaunchKeeps(s, th, id, ok);
    case Withdraw(id) => RowsKeep(s, s.rows - {id});
    case LaunchLoad(th, id) => if id in s.rows { RequestKeeps(s, th, LaunchSeen(id, s.rows[id])); }
    case LaunchCheck(th) =>
      if th in s.requests && s.requests[th].LaunchSeen? {
        assert RequestOk(s.clock, s.rows, s.ids, s.requests[th]);
        DropKeeps(s, th);
        var LaunchSeen(id, row) := s.requests[th];
        if row.usedAt.None? && s.clock < row.launchExpires {
          RequestKeeps(s, th, LaunchChecked(id, row.createdAt, s.clock));
        }
      }
    case LaunchConsume(th, ok) => ConsumeKeeps(s, th, ok);
    case SessionLoad(th, id) => if id in s.rows { RequestKeeps(s, th, SessionSeen(id, s.rows[id])); }
    case SessionCheck(th) => CheckKeeps(s, th);
    case SessionRenew(th, ok) => RenewKeeps(s, th, ok);
    case ExpireRead(th, kind) => RequestKeeps(s, th, Expiring(kind, s.clock, false));
    case ExpireWrite(th, ok) =>
      if th in s.requests && s.requests[th].Expiring? {
        assert RequestOk(s.clock, s.rows, s.ids, s.requests[th]);
        DropKeeps(s, th);
        if ok {
          var Expiring(kind, at, launches) := s.requests[th];
          RowsKeep(s, Expired(s.rows, kind, at));
          var stamped := s.(rows := Expired(s.rows, kind, at));
          if launches { RequestKeeps(stamped, th, Launching(kind, at)); } else { DropKeeps(stamped, th); }
        }
      }
  }

  lemma {:induction false} ExecKeepsInv(s: State, run: seq<Step>)
    requires Inv(s)
    ensures Inv(Exec(s, run))
    decreases |run|
  {
    if run != [] {
      StepKeepsInv(s, run[0]);
      ExecKeepsInv(Next(s, run[0]), run[1..]);
    }
  }

  /** Every request let in on a session cookie was judged less than eight hours after that session's launch. */
  lemma NoAuthorisationPastTheCap(clock: int, run: seq<Step>, i: nat)
    requires i < |Exec(Initial(clock), run).authorised|
    ensures
      var a := Exec(Initial(clock), run).authorised[i];
      a.at < a.createdAt + MAX_LIFETIME
  {
    ExecKeepsInv(Initial(clock), run);
  }

  /** A launch token starts at most one session. */
  lemma LaunchIsUsedOnce(clock: int, run: seq<Step>, i: nat, j: nat)
    requires i < j < |Exec(Initial(clock), run).consumed|
    ensures Exec(Initial(clock), run).consumed[i].id != Exec(Initial(clock), run).consumed[j].id
  {
    ExecKeepsInv(Initial(clock), run);
  }

  /** It is only used when it was judged within a minute of its launch. */
  lemma LaunchIsUsedInTime(clock: int, run: seq<Step>, i: nat)
    requires i < |Exec(Initial(clock), run).consumed|
    ensures
      var c := Exec(Initial(clock), run).consumed[i];
      c.checkedAt < c.createdAt + LAUNCH_WINDOW
  {
    ExecKeepsInv(Initial(clock), run);
  }

  // ----- a renewal and an expiry decided elsewhere -----

  /** This step stamps every row of the kind. */
  predicate Stamps(s: State, step: Step, kind: Kind) {
    && step.ExpireWrite? && step.ok
    && step.thread in s.requests && s.requests[step.thread].Expiring? && s.requests[step.thread].kind == kind
  }

  predicate NeverStamps(s: State, run: seq<Step>, kind: Kind)
    decreases |run|
  {
    run == [] || (!Stamps(s, run[0], kind) && NeverStamps(Next(s, run[0]), run[1..], kind))
  }

  /** The row, while there is one, has this kind and this deadline. */
  predicate HasDeadline(s: State, id: Id, kind: Kind, at: int) {
    id in s.rows ==> s.rows[id].kind == kind && s.rows[id].sessionExpires == at
  }

  /** The row, while there is one, has this kind and a deadline no later than this. */
  predicate IsOver(s: State, id: Id, kind: Kind, at: int) {
    id in s.rows ==> s.rows[id].kind == kind && s.rows[id].sessionExpires <= at
  }

  /** Every renewal about to write this row read the clock at or after `at`, or would write `at` itself. */
  ghost predicate NoneFromBefore(s: State, id: Id, at: int) {
    forall th :: th in s.requests && s.requests[th].Renewing? && s.requests[th].id == id ==>
      at <= s.requests[th].now || s.requests[th].deadline == at
  }

  /** Every renewal about to write this row read the clock at or after `at`, or would write nothing later than `at`. */
  ghost predicate NoneBeyond(s: State, id: Id, at: int) {
    forall th :: th in s.requests && s.requests[th].Renewing? && s.requests[th].id == id ==>
      at <= s.requests[th].now || s.requests[th].deadline <= at
  }

  lemma StepKeepsDeadline(s: State, step: Step, id: Id, kind: Kind, at: int)
    requires Inv(s) && id in s.ids && at <= s.clock && !Stamps(s, step, kind)
    requires HasDeadline(s, id, kind, at) && NoneFromBefore(s, id, at)
    ensures HasDeadline(Next(s, step), id, kind, at) && NoneFromBefore(Next(s, step), id, at)
  {
  }

  lemma StepKeepsOver(s: State, step: Step, id: Id, kind: Kind, at: int)
    requires Inv(s) && id in s.ids && at <= s.clock && !Stamps(s, step, kind)
    requires IsOver(s, id, kind, at) && NoneBeyond(s, id, at)
    ensures IsOver(Next(s, step), id, kind, at) && NoneBeyond(Next(s, step), id, at)
  {
  }

  lemma TimeGoesOn(s: State, step: Step)
    ensures s.clock <= Next(s, step).clock && s.ids <= Next(s, step).ids
  {
  }

  lemma {:induction false} ExecKeepsDeadline(s: State, run: seq<Step>, id: Id, kind: Kind, at: int)
    requires Inv(s) && id in s.ids && at <= s.clock && NeverStamps(s, run, kind)
    ensures HasDeadline(s, id, kind, at) && NoneFromBefore(s, id, at) ==> HasDeadline(Exec(s, run), id, kind, at)
    ensures IsOver(s, id, kind, at) && NoneBeyond(s, id, at) ==> IsOver(Exec(s, run), id, kind, at)
    decreases |run|
  {
    if run != [] {
      StepKeepsInv(s, run[0]);
      TimeGoesOn(s, run[0]);
      if HasDeadline(s, id, kind, at) && NoneFromBefore(s, id, at) { StepKeepsDeadline(s, run[0], id, kind, at); }
      if IsOver(s, id, kind, at) && NoneBeyond(s, id, at) { StepKeepsOver(s, run[0], id, kind, at); }
      ExecKeepsDeadline(Next(s, run[0]), run[1..], id, kind, at);
    }
  }

  /**
   A stamp stays on a row, in every run up to the next stamp of its kind, exactly when
   each renewal of that row then in flight was judged at or after the stamp's clock
   reading (or happens to write the very same deadline). Requests judged later never matter.
   */
  lemma StampStaysIff(s: State, e: Thread, id: Id)
    requires Inv(s) && e in s.requests && s.requests[e].Expiring?
    requires id in s.rows && s.rows[id].kind == s.requests[e].kind
    ensures
      var Expiring(kind, at, _) := s.requests[e];
      var stamped := Next(s, ExpireWrite(e, true));
      (forall run :: NeverStamps(stamped, run, kind) ==> HasDeadline(Exec(stamped, run), id, kind, at)) <==>
          NoneFromBefore(s, id, at)
  {
    var Expiring(kind, at, _) := s.requests[e];
    var stamped := Next(s, ExpireWrite(e, true));
    StepKeepsInv(s, ExpireWrite(e, true));
    assert HasDeadline(stamped, id, kind, at);
    if NoneFromBefore(s, id, at) {
      forall run | NeverStamps(stamped, run, kind) ensures HasDeadline(Exec(stamped, run), id, kind, at) {
        ExecKeepsDeadline(stamped, run, id, kind, at);
      }
    } else {
      var th :| th in s.requests && s.requests[th].Renewing? && s.requests[th].id == id
        && !(at <= s.requests[th].now || s.requests[th].deadline == at);
      OneMoreRenewal(stamped, th, kind);
    }
  }

  /**
   The session stays over, in every run up to the next stamp of its kind, exactly when no renewal in flight was
   judged before the stamp and reaches beyond it.
   */
  lemma ExpiryIsNotUndoneIff(s: State, e: Thread, id: Id)
    requires Inv(s) && e in s.requests && s.requests[e].Expiring?
    requires id in s.rows && s.rows[id].kind == s.requests[e].kind
    ensures
      var Expiring(kind, at, _) := s.requests[e];
      var stamped := Next(s, ExpireWrite(e, true));
      (forall run :: NeverStamps(stamped, run, kind) ==> IsOver(Exec(stamped, run), id, kind, at)) <==>
          NoneBeyond(s, id, at)
  {
    var Expiring(kind, at, _) := s.requests[e];
    var stamped := Next(s, ExpireWrite(e, true));
    StepKeepsInv(s, ExpireWrite(e, true));
    assert IsOver(stamped, id, kind, at);
    if NoneBeyond(s, id, at) {
      forall run | NeverStamps(stamped, run, kind) ensures IsOver(Exec(stamped, run), id, kind, at) {
        ExecKeepsDeadline(stamped, run, id, kind, at);
      }
    } else {
      var th :| th in s.requests && s.requests[th].Renewing? && s.requests[th].id == id
        && !(at <= s.requests[th].now || s.requests[th].deadline <= at);
      OneMoreRenewal(stamped, th, kind);
    }
  }

  /** A run of one renewal, and what it writes. */
  lemma OneMoreRenewal(s: State, th: Thread, kind: Kind)
    requires th in s.requests && s.requests[th].Renewing? && s.requests[th].id in s.rows
    requires s.requests[th].now < s.rows[s.requests[th].id].sessionExpires
    ensures NeverStamps(s, [SessionRenew(th, true)], kind)
    ensures s.requests[th].id in Exec(s, [SessionRenew(th, true)]).rows
    ensures Exec(s, [SessionRenew(th, true)]).rows[s.requests[th].id].sessionExpires == s.requests[th].deadline
  {
    var run := [SessionRenew(th, true)];
    assert run[1..] == [];
    assert Exec(Next(s, run[0]), run[1..]) == Next(s, run[0]);
  }

  lemma {:induction false} ExecConcat(s: State, a: seq<Step>, b: seq<Step>)
    ensures Exec(s, a + b) == Exec(Exec(s, a), b)
    decreases |a|
  {
    if a == [] {
      assert a + b == b;
    } else {
      assert (a + b)[1..] == a[1..] + b;
      ExecConcat(Next(s, a[0]), a[1..], b);
    }
  }

  lemma ExecTwo(s: State, one: Step, two: Step)
    ensures Exec(s, [one, two]) == Next(Next(s, one), two)
  {
    assert [one, two][1..] == [two] && [two][1..] == [];
    assert Exec(Next(s, one), [two]) == Next(Next(s, one), two);
  }

  /** A session launched at time 0, at this time, with these requests in flight. */
  function Busy(id: Id, kind: Kind, clock: int, requests: map<Thread, Request>): State {
    State(clock, map[id := NewRow(kind, 0)], {id}, requests, [], [])
  }

  /** A request that is about to slide the deadline. */
  function Sliding(id: Id, kind: Kind): Request {
    Renewing(id, NewRow(kind, 0), 6 * MINUTE, 21 * MINUTE)
  }

  lemma LaunchHappens(clock: int, id: Id, kind: Kind)
    ensures Exec(Initial(clock), [LaunchRead(0, kind, false), LaunchInsert(0, id, true)])
            == State(clock, map[id := NewRow(kind, clock)], {id}, map[], [], [])
  {
    ExecTwo(Initial(clock), LaunchRead(0, kind, false), LaunchInsert(0, id, true));
    assert map[0 := Launching(kind, clock)] - {0} == map[];
  }

  lemma RequestIsLoaded(id: Id, kind: Kind)
    ensures Exec(Busy(id, kind, 0, map[]), [Tick(6 * MINUTE), SessionLoad(1, id)])
            == Busy(id, kind, 6 * MINUTE, map[1 := SessionSeen(id, NewRow(kind, 0))])
  {
    ExecTwo(Busy(id, kind, 0, map[]), Tick(6 * MINUTE), SessionLoad(1, id));
  }

  lemma RequestIsJudged(id: Id, kind: Kind)
    ensures Exec(Busy(id, kind, 6 * MINUTE, map[1 := SessionSeen(id, NewRow(kind, 0))]),
            [SessionCheck(1), Tick(MINUTE)])
            == Busy(id, kind, 7 * MINUTE, map[1 := Sliding(id, kind)])
  {
    ExecTwo(Busy(id, kind, 6 * MINUTE, map[1 := SessionSeen(id, NewRow(kind, 0))]), SessionCheck(1), Tick(MINUTE));
  }

  lemma StopIsStamped(id: Id, kind: Kind)
    ensures
      var s := Exec(Busy(id, kind, 7 * MINUTE, map[1 := Sliding(id, kind)]),
        [ExpireRead(2, kind), ExpireWrite(2, true)]);
      && id in s.rows && s.rows[id].sessionExpires == 7 * MINUTE && s.clock == 7 * MINUTE
      && 1 in s.requests && s.requests[1] == Sliding(id, kind)
  {
    ExecTwo(Busy(id, kind, 7 * MINUTE, map[1 := Sliding(id, kind)]), ExpireRead(2, kind), ExpireWrite(2, true));
  }

  /**
   One stamp is enough: a request judged a minute before the tool is stopped, and
   slower than the stop, leaves the session it ended alive for fourteen more minutes.
   */
  lemma OneStampMayBeUndone(id: Id, kind: Kind) returns (run: seq<Step>)
    ensures
      var s := Exec(Initial(0), run);
      id in s.rows && s.clock == 7 * MINUTE && s.rows[id].sessionExpires == 21 * MINUTE
    ensures |run| == 9 && run[7] == ExpireWrite(2, true) && forall k :: 0 <= k < 9 && run[k].ExpireWrite? ==> k == 7
  {
    LaunchHappens(0, id, kind);
    RequestIsLoaded(id, kind);
    RequestIsJudged(id, kind);
    StopIsStamped(id, kind);
    run := [LaunchRead(0, kind, false), LaunchInsert(0, id, true)];
    ExecConcat(Initial(0), run, [Tick(6 * MINUTE), SessionLoad(1, id)]);
    run := run + [Tick(6 * MINUTE), SessionLoad(1, id)];
    ExecConcat(Initial(0), run, [SessionCheck(1), Tick(MINUTE)]);
    run := run + [SessionCheck(1), Tick(MINUTE)];
    ExecConcat(Initial(0), run, [ExpireRead(2, kind), ExpireWrite(2, true)]);
    run := run + [ExpireRead(2, kind), ExpireWrite(2, true)];
    OneMoreRenewal(Exec(Initial(0), run), 1, kind);
    ExecConcat(Initial(0), run, [SessionRenew(1, true)]);
    assert Next(Exec(Initial(0), run), SessionRenew(1, true)).clock == 7 * MINUTE;
    run := run + [SessionRenew(1, true)];
  }

  // ----- how often one session is renewed when its requests do not overlap -----

  predicate OfSession(r: Request, id: Id) {
    (r.SessionSeen? || r.Renewing?) && r.id == id
  }

  ghost predicate OneInFlight(s: State, id: Id) {
    forall t, u ::
        t in s.requests && u in s.requests && OfSession(s.requests[t], id) && OfSession(s.requests[u], id) ==> t == u
  }

  /** No two requests of this session are in flight at once; stamps, launches and other sessions may fall anywhere. */
  ghost predicate NoOverlap(s: State, run: seq<Step>, id: Id)
    decreases |run|
  {
    OneInFlight(s, id) && (run == [] || NoOverlap(Next(s, run[0]), run[1..], id))
  }

  /** This step slides the session's deadline. */
  predicate Slides(s: State, step: Step, id: Id) {
    && step.SessionRenew? && step.ok && step.thread in s.requests
    && s.requests[step.thread].Renewing? && s.requests[step.thread].id == id
    && id in s.rows && s.requests[step.thread].now < s.rows[id].sessionExpires
  }

  function Renewals(s: State, run: seq<Step>, id: Id): nat
    decreases |run|
  {
    if run == [] then 0 else (if Slides(s, run[0], id) then 1 else 0) + Renewals(Next(s, run[0]), run[1..], id)
  }

  /** A loaded row shows the furthest deadline the session ever had, or a session that is over. */
  predicate Seen(row: Row, createdAt: int, peak: int, clock: int) {
    row.createdAt == createdAt && (row.sessionExpires == peak || row.sessionExpires <= clock)
  }

  /** `peak` is the furthest deadline the session ever had, and every renewal in flight was judged by it. */
  ghost predicate AtPeak(s: State, id: Id, createdAt: int, peak: int) {
    && id in s.ids && peak <= createdAt + MAX_LIFETIME
    && (id in s.rows ==> Seen(s.rows[id], createdAt, peak, s.clock))
    && (forall th :: th in s.requests && OfSession(s.requests[th], id) ==>
          && Seen(s.requests[th].row, createdAt, peak, s.clock)
          && (s.requests[th].Renewing? ==>
                && s.requests[th].row.sessionExpires == peak && Renews(s.requests[th].row, s.requests[th].now)
                && s.requests[th].deadline == Deadline(s.requests[th].row, s.requests[th].now)))
  }

  /** Renewals still possible: each one the cap does not cut moves the peak at least five minutes. */
  function Left(createdAt: int, peak: int): int {
    (createdAt + MAX_LIFETIME - peak + RENEW_AFTER - 1) / RENEW_AFTER
  }

  lemma StepKeepsPeak(s: State, step: Step, id: Id, createdAt: int, peak: int)
    requires Inv(s) && AtPeak(s, id, createdAt, peak) && !Slides(s, step, id)
    ensures AtPeak(Next(s, step), id, createdAt, peak)
  {
  }

  lemma SlideMovesPeak(s: State, step: Step, id: Id, createdAt: int, peak: int) returns (peak': int)
    requires Inv(s) && AtPeak(s, id, createdAt, peak) && OneInFlight(s, id) && Slides(s, step, id)
    ensures AtPeak(Next(s, step), id, createdAt, peak')
    ensures 0 <= Left(createdAt, peak') <= Left(createdAt, peak) - 1
  {
    peak' := s.requests[step.thread].deadline;
  }

  lemma {:induction false} RenewalsAreBounded(s: State, run: seq<Step>, id: Id, createdAt: int, peak: int)
    requires Inv(s) && AtPeak(s, id, createdAt, peak) && NoOverlap(s, run, id)
    ensures Renewals(s, run, id) <= Left(createdAt, peak)
    decreases |run|
  {
    if run != [] {
      StepKeepsInv(s, run[0]);
      var peak' := peak;
      if Slides(s, run[0], id) {
        peak' := SlideMovesPeak(s, run[0], id, createdAt, peak);
      } else {
        StepKeepsPeak(s, run[0], id, createdAt, peak);
      }
      RenewalsAreBounded(Next(s, run[0]), run[1..], id, createdAt, peak');
    }
  }

  lemma {:induction false} BoundFromLaunch(s: State, run: seq<Step>, id: Id)
    requires Inv(s) && id !in s.ids && NoOverlap(s, run, id)
    ensures Renewals(s, run, id) <= 93
    decreases |run|
  {
    if run != [] {
      StepKeepsInv(s, run[0]);
      assert !Slides(s, run[0], id);
      var s' := Next(s, run[0]);
      if id in s'.ids {
        var at := s.requests[run[0].thread].at;
        assert AtPeak(s', id, at, at + IDLE_WINDOW);
        RenewalsAreBounded(s', run[1..], id, at, at + IDLE_WINDOW);
      } else {
        BoundFromLaunch(s', run[1..], id);
      }
    }
  }

  /** In every run in which requests of one session do not overlap, that session is renewed at most 93 times. */
  lemma AtMost93Renewals(clock: int, run: seq<Step>, id: Id)
    requires NoOverlap(Initial(clock), run, id)
    ensures Renewals(Initial(clock), run, id) <= 93
  {
    BoundFromLaunch(Initial(clock), run, id);
  }

  /** What one step adds to the count, and what it leaves to check. */
  lemma CountStep(s: State, step: Step, rest: seq<Step>, id: Id)
    ensures Renewals(s, [step] + rest, id) == (if Slides(s, step, id) then 1 else 0) + Renewals(Next(s, step), rest, id)
    ensures OneInFlight(s, id) && NoOverlap(Next(s, step), rest, id) ==> NoOverlap(s, [step] + rest, id)
  {
    assert ([step] + rest)[1..] == rest;
  }

  predicate Fresh(s: State, id: Id) {
    s.requests == map[] && id in s.rows && s.rows[id].sessionExpires == s.clock + IDLE_WINDOW
  }

  /** Five minutes later one request slides the deadline, and the session is as fresh as before. */
  lemma RoundSlides(s: State, id: Id)
    requires Fresh(s, id) && s.rows[id].sessionExpires + RENEW_AFTER <= s.rows[id].createdAt + MAX_LIFETIME
    ensures
      var s1 := Next(s, Tick(RENEW_AFTER));
      var s2 := Next(s1, SessionLoad(1, id));
      var s3 := Next(s2, SessionCheck(1));
      var s4 := Next(s3, SessionRenew(1, true));
      && OneInFlight(s, id) && OneInFlight(s1, id) && OneInFlight(s2, id) && OneInFlight(s3, id)
      && Slides(s3, SessionRenew(1, true), id) && Fresh(s4, id)
      && s4.rows[id].createdAt == s.rows[id].createdAt
         && s4.rows[id].sessionExpires == s.rows[id].sessionExpires + RENEW_AFTER
  {
    var s1 := Next(s, Tick(RENEW_AFTER));
    var s2 := Next(s1, SessionLoad(1, id));
    var s3 := Next(s2, SessionCheck(1));
    assert s2.requests == map[1 := SessionSeen(id, s.rows[id])];
    assert s3.requests == map[1 := Renewing(id, s.rows[id], s1.clock, s1.clock + IDLE_WINDOW)];
    assert s3.requests - {1} == map[];
  }

  /** A request every time the window has been consumed to exactly ten minutes. */
  function Steady(id: Id, count: nat): seq<Step>
    decreases count
  {
    if count == 0 then []
    else
      [Tick(RENEW_AFTER)] + ([SessionLoad(1,
        id)] + ([SessionCheck(1)] + ([SessionRenew(1, true)] + Steady(id, count - 1))))
  }

  lemma {:induction false} SteadyRenews(s: State, id: Id, count: nat)
    requires Fresh(s, id) && s.rows[id].sessionExpires + count * RENEW_AFTER <= s.rows[id].createdAt + MAX_LIFETIME
    ensures Renewals(s, Steady(id, count), id) == count && NoOverlap(s, Steady(id, count), id)
    decreases count
  {
    if count > 0 {
      var rest := Steady(id, count - 1);
      var s1 := Next(s, Tick(RENEW_AFTER));
      var s2 := Next(s1, SessionLoad(1, id));
      var s3 := Next(s2, SessionCheck(1));
      RoundSlides(s, id);
      SteadyRenews(Next(s3, SessionRenew(1, true)), id, count - 1);
      CountStep(s3, SessionRenew(1, true), rest, id);
      CountStep(s2, SessionCheck(1), [SessionRenew(1, true)] + rest, id);
      CountStep(s1, SessionLoad(1, id), [SessionCheck(1)] + ([SessionRenew(1, true)] + rest), id);
      CountStep(s, Tick(RENEW_AFTER), [SessionLoad(1, id)] + ([SessionCheck(1)] + ([SessionRenew(1, true)] + rest)),
        id);
    }
  }

  lemma LaunchTakesTwoSteps(clock: int, id: Id, kind: Kind)
    ensures
      var read := Next(Initial(clock), LaunchRead(0, kind, false));
      var launched := Next(read, LaunchInsert(0, id, true));
      && OneInFlight(Initial(clock), id) && OneInFlight(read, id) && Fresh(launched, id)
         && launched.rows[id].createdAt == clock
      && !Slides(Initial(clock), LaunchRead(0, kind, false), id) && !Slides(read, LaunchInsert(0, id, true), id)
  {
    var read := Next(Initial(clock), LaunchRead(0, kind, false));
    assert read.requests == map[0 := Launching(kind, clock)] && read.requests - {0} == map[];
  }

  /** The bound is reached: a request every five minutes renews 93 times. */
  lemma NinetyThreeIsReached(clock: int, id: Id, kind: Kind)
    ensures
      var run := [LaunchRead(0, kind, false)] + ([LaunchInsert(0, id, true)] + Steady(id, 93));
      NoOverlap(Initial(clock), run, id) && Renewals(Initial(clock), run, id) == 93
  {
    LaunchTakesTwoSteps(clock, id, kind);
    var read := Next(Initial(clock), LaunchRead(0, kind, false));
    SteadyRenews(Next(read, LaunchInsert(0, id, true)), id, 93);
    CountStep(read, LaunchInsert(0, id, true), Steady(id, 93), id);
    CountStep(Initial(clock), LaunchRead(0, kind, false), [LaunchInsert(0, id, true)] + Steady(id, 93), id);
  }

  // ----- a session in use stays alive until the cap -----

  /** A request after so much time, uninterrupted. */
  function Visit(id: Id, gap: nat): seq<Step> {
    [Tick(gap), SessionLoad(1, id)] + [SessionCheck(1), SessionRenew(1, true)]
  }

  /** The deadline is still more than a visit away, or is the cap itself. */
  predicate Alive(s: State, id: Id, createdAt: int) {
    && s.requests == map[] && id in s.rows && s.rows[id].createdAt == createdAt
    && s.clock < s.rows[id].sessionExpires <= createdAt + MAX_LIFETIME
    && (s.rows[id].sessionExpires == createdAt + MAX_LIFETIME
       || s.rows[id].sessionExpires - s.clock > IDLE_WINDOW - RENEW_AFTER)
  }

  lemma VisitIsFourSteps(s: State, id: Id, gap: nat)
    ensures Exec(s, Visit(id, gap))
            == Next(Next(Next(Next(s, Tick(gap)), SessionLoad(1, id)), SessionCheck(1)), SessionRenew(1, true))
  {
    ExecConcat(s, [Tick(gap), SessionLoad(1, id)], [SessionCheck(1), SessionRenew(1, true)]);
    ExecTwo(s, Tick(gap), SessionLoad(1, id));
    ExecTwo(Next(Next(s, Tick(gap)), SessionLoad(1, id)), SessionCheck(1), SessionRenew(1, true));
  }

  /** A visit within ten minutes and before the cap is let in, and leaves the session alive for the next one. */
  lemma VisitIsLetIn(s: State, id: Id, createdAt: int, gap: nat)
    requires Alive(s, id, createdAt) && gap <= IDLE_WINDOW - RENEW_AFTER && s.clock + gap < createdAt + MAX_LIFETIME
    ensures
      var s' := Exec(s, Visit(id, gap));
      && Alive(s', id, createdAt) && s'.clock == s.clock + gap
      && s'.authorised == s.authorised + [Authorisation(id, createdAt, s'.clock)]
  {
    VisitIsFourSteps(s, id, gap);
    var loaded := Next(Next(s, Tick(gap)), SessionLoad(1, id));
    assert loaded.requests == map[1 := SessionSeen(id, s.rows[id])];
    var checked := Next(loaded, SessionCheck(1));
    if Renews(s.rows[id], loaded.clock) {
      assert checked.requests == map[1 := Renewing(id, s.rows[id], loaded.clock, Deadline(s.rows[id], loaded.clock))];
    }
    assert loaded.requests - {1} == map[] && checked.requests - {1} == map[];
  }

  function Visits(id: Id, gaps: seq<nat>): seq<Step>
    decreases |gaps|
  {
    if gaps == [] then [] else Visit(id, gaps[0]) + Visits(id, gaps[1..])
  }

  function Total(gaps: seq<nat>): nat
    decreases |gaps|
  {
    if gaps == [] then 0 else gaps[0] + Total(gaps[1..])
  }

  lemma {:induction false} VisitsAreLetIn(s: State, id: Id, createdAt: int, gaps: seq<nat>)
    requires Alive(s, id, createdAt) && s.clock + Total(gaps) < createdAt + MAX_LIFETIME
    requires forall k :: 0 <= k < |gaps| ==> gaps[k] <= IDLE_WINDOW - RENEW_AFTER
    ensures |Exec(s, Visits(id, gaps)).authorised| == |s.authorised| + |gaps|
    decreases |gaps|
  {
    if gaps != [] {
      VisitIsLetIn(s, id, createdAt, gaps[0]);
      ExecConcat(s, Visit(id, gaps[0]), Visits(id, gaps[1..]));
      VisitsAreLetIn(Exec(s, Visit(id, gaps[0])), id, createdAt, gaps[1..]);
    }
  }

  /**
   A tool in use does not lose its session before the cap: from its launch on, requests
   that come at most ten minutes apart are all let in, for eight hours, unless it is stamped.
   */
  lemma SessionInUseLives(clock: int, id: Id, kind: Kind, gaps: seq<nat>)
    requires Total(gaps) < MAX_LIFETIME && forall k :: 0 <= k < |gaps| ==> gaps[k] <= IDLE_WINDOW - RENEW_AFTER
    ensures
      var run := [LaunchRead(0, kind, false), LaunchInsert(0, id, true)] + Visits(id, gaps);
      |Exec(Initial(clock), run).authorised| == |gaps|
  {
    var launch := [LaunchRead(0, kind, false), LaunchInsert(0, id, true)];
    LaunchHappens(clock, id, kind);
    ExecConcat(Initial(clock), launch, Visits(id, gaps));
    VisitsAreLetIn(Exec(Initial(clock), launch), id, clock, gaps);
  }

  // ----- a launch can be used -----

  /** The browser follows the launch link after so much time. */
  function Follow(id: Id, gap: nat): seq<Step> {
    [Tick(gap), LaunchLoad(1, id)] + [LaunchCheck(1), LaunchConsume(1, true)]
  }

  lemma FollowIsFourSteps(s: State, id: Id, gap: nat)
    ensures Exec(s, Follow(id, gap))
            == Next(Next(Next(Next(s, Tick(gap)), LaunchLoad(1, id)), LaunchCheck(1)), LaunchConsume(1, true))
  {
    ExecConcat(s, [Tick(gap), LaunchLoad(1, id)], [LaunchCheck(1), LaunchConsume(1, true)]);
    ExecTwo(s, Tick(gap), LaunchLoad(1, id));
    ExecTwo(Next(Next(s, Tick(gap)), LaunchLoad(1, id)), LaunchCheck(1), LaunchConsume(1, true));
  }

  lemma FollowUses(s: State, id: Id, gap: nat)
    requires s.requests == map[] && id in s.rows && s.rows[id].usedAt.None? && s.clock + gap < s.rows[id].launchExpires
    ensures
      var s' := Exec(s, Follow(id, gap));
      && s'.consumed == s.consumed + [Consumption(id, s.rows[id].createdAt, s.clock + gap)]
      && s'.rows == s.rows[id := s.rows[id].(usedAt := Some(s.clock + gap))] && s'.clock == s.clock + gap
  {
    FollowIsFourSteps(s, id, gap);
    var loaded := Next(Next(s, Tick(gap)), LaunchLoad(1, id));
    assert loaded.requests == map[1 := LaunchSeen(id, s.rows[id])];
    var checked := Next(loaded, LaunchCheck(1));
    assert checked.requests == map[1 := LaunchChecked(id, s.rows[id].createdAt, s.clock + gap)];
  }

  /** A launch followed within sixty seconds starts its session: it is used now, and its deadline stands. */
  lemma LaunchStartsSession(clock: int, id: Id, kind: Kind, gap: nat)
    requires gap < LAUNCH_WINDOW
    ensures
      var s := Exec(Initial(clock), [LaunchRead(0, kind, false), LaunchInsert(0, id, true)] + Follow(id, gap));
      && s.consumed == [Consumption(id, clock, clock + gap)]
      && s.rows == map[id := NewRow(kind, clock).(usedAt := Some(clock + gap))] && s.rows[id].sessionExpires > s.clock
  {
    var launch := [LaunchRead(0, kind, false), LaunchInsert(0, id, true)];
    LaunchHappens(clock, id, kind);
    ExecConcat(Initial(clock), launch, Follow(id, gap));
    FollowUses(State(clock, map[id := NewRow(kind, clock)], {id}, map[], [], []), id, gap);
  }

  // ----- what a stamp ends -----

  /**
   A stamp ends everything of its kind and nothing else: from then on no launch of the kind passes
   its check and no session of the kind is let in, and rows of other kinds stay as they are.
   */
  lemma StampEndsItsKind(s: State, e: Thread, th: Thread, id: Id, gap: nat)
    requires Inv(s) && e in s.requests && s.requests[e].Expiring? && th !in s.requests && id in s.rows
    ensures
      var t := Next(Next(s, ExpireWrite(e, true)), Tick(gap));
      if s.rows[id].kind == s.requests[e].kind
      then
        && Next(Next(t, LaunchLoad(th, id)), LaunchCheck(th)) == t
        && Next(Next(t, SessionLoad(th, id)), SessionCheck(th)) == t
      else id in t.rows && t.rows[id] == s.rows[id]
  {
    var t := Next(Next(s, ExpireWrite(e, true)), Tick(gap));
    if s.rows[id].kind == s.requests[e].kind {
      assert t.requests[th := LaunchSeen(id, t.rows[id])] - {th} == t.requests;
      assert t.requests[th := SessionSeen(id, t.rows[id])] - {th} == t.requests;
    }
  }

  /** A launch of a tool with one catalog ends every earlier session of its kind and starts its own. */
  lemma RotatingLaunchReplaces(s: State, th: Thread, kind: Kind, id: Id)
    requires th !in s.requests && id !in s.ids && id !in s.rows
    ensures
      var s' := Next(Next(Next(s, LaunchRead(th, kind, true)), ExpireWrite(th, true)), LaunchInsert(th, id, true));
      && s'.rows.Keys == s.rows.Keys + {id} && s'.rows[id] == NewRow(kind, s.clock) && s'.requests == s.requests
      && (forall other :: other in s.rows ==>
            if s.rows[other].kind == kind
            then s'.rows[other] == s.rows[other].(launchExpires := s.clock, sessionExpires := s.clock)
            else s'.rows[other] == s.rows[other])
  {
    var waiting := s.requests[th := Launching(kind, s.clock)];
    assert waiting - {th} == s.requests;
  }

  // ----- nobody gets in after a stamp -----

  /** Every request that holds this session's row from before a check holds a deadline no later than this. */
  ghost predicate NoneHeld(s: State, id: Id, at: int) {
    forall th :: th in s.requests && s.requests[th].SessionSeen? && s.requests[th].id == id ==>
      s.requests[th].row.sessionExpires <= at
  }

  /** From this many authorisations on, the session's were judged before `at`. */
  ghost predicate JudgedBefore(s: State, count: nat, id: Id, at: int) {
    && count <= |s.authorised|
    && forall i :: count <= i < |s.authorised| && s.authorised[i].id == id ==> s.authorised[i].at < at
  }

  lemma StepKeepsJudged(s: State, step: Step, count: nat, id: Id, kind: Kind, at: int)
    requires Inv(s) && id in s.ids && at <= s.clock && !Stamps(s, step, kind) && IsOver(s, id, kind, at)
    requires NoneHeld(s, id, at) && JudgedBefore(s, count, id, at)
    ensures NoneHeld(Next(s, step), id, at) && JudgedBefore(Next(s, step), count, id, at)
  {
  }

  lemma {:induction false} ExecKeepsJudged(s: State, run: seq<Step>, count: nat, id: Id, kind: Kind, at: int)
    requires Inv(s) && id in s.ids && at <= s.clock && NeverStamps(s, run, kind)
    requires IsOver(s, id, kind, at) && NoneBeyond(s, id, at) && NoneHeld(s, id, at) && JudgedBefore(s, count, id, at)
    ensures JudgedBefore(Exec(s, run), count, id, at)
    decreases |run|
  {
    if run != [] {
      StepKeepsInv(s, run[0]);
      TimeGoesOn(s, run[0]);
      StepKeepsOver(s, run[0], id, kind, at);
      StepKeepsJudged(s, run[0], count, id, kind, at);
      ExecKeepsJudged(Next(s, run[0]), run[1..], count, id, kind, at);
    }
  }

  /**
   After a stamp, in every run up to the next one of its kind, no request on a stamped session
   is let in by a reading at or after the stamp's own, unless one was already under way: it held a row
   that reaches beyond the stamp, or was about to write such a deadline.
   */
  lemma NobodyIsLetInAfterStamp(s: State, e: Thread, id: Id, run: seq<Step>, i: nat)
    requires Inv(s) && e in s.requests && s.requests[e].Expiring?
    requires id in s.rows && s.rows[id].kind == s.requests[e].kind
    requires NoneBeyond(s, id, s.requests[e].at) && NoneHeld(s, id, s.requests[e].at)
    requires NeverStamps(Next(s, ExpireWrite(e, true)), run, s.requests[e].kind)
    ensures
      var authorised := Exec(Next(s, ExpireWrite(e, true)), run).authorised;
      |s.authorised| <= i < |authorised| && authorised[i].id == id ==> authorised[i].at < s.requests[e].at
  {
    var stamped := Next(s, ExpireWrite(e, true));
    StepKeepsInv(s, ExpireWrite(e, true));
    assert stamped.authorised == s.authorised;
    ExecKeepsJudged(stamped, run, |s.authorised|, id, s.requests[e].kind, s.requests[e].at);
  }
}
