/**
 The guard object: what schedule, stopTimer and Close do to the timers map and
 the WaitGroup when nothing interleaves with them, proved against the same
 functions the transition system steps through.
 */
module SafeguardGuard {
  import opened Wrappers
  import opened SafeguardMachine
  import opened SafeguardInvariants

  /** The timers Close has to stop and account for. */
  ghost function Stoppable(m: Memory): set<TicketId> {
    set t | t in m.tickets && Mapped(m, t) && m.tickets[t].phase == Pending
  }

  /** Close up to Wait: the mutex section and the loop of Done calls. */
  ghost function Drained(m: Memory): Memory {
    m.(closed := true, timers := map[], running := m.running - |Stoppable(m)|,
       tickets := map t | t in m.tickets :: if t in Stoppable(m) then m.tickets[t].(phase := Retired) else m.tickets[t])
  }

  /** stopTimer as a whole. */
  function TimerStopped(m: Memory, id: Id): Memory {
    if id !in m.timers then m
    else
      var unmapped := m.(timers := Without(m.timers, id));
      if m.timers[id] in m.tickets && m.tickets[m.timers[id]].phase == Pending then Retire(unmapped, m.timers[id])
      else unmapped
  }

  lemma SubsetSize<T>(a: set<T>, b: set<T>)
    requires a <= b
    ensures |a| <= |b| && |b - a| == |b| - |a|
  {
  }

  /** The state after stopTimer has taken the entry out of the map. */
  function Unlinked(s: State, th: Thread, id: Id): State
    requires id in s.mem.timers
  {
    s.(confirms := s.confirms[th := Stopping(s.mem.timers[id])], mem := s.mem.(timers := Without(s.mem.timers, id)))
  }

  lemma UnlinkStep(s: State, th: Thread)
    requires th in s.confirms && s.confirms[th].Unlinking? && s.confirms[th].id in s.mem.timers
    ensures Next(s, ConfirmUnlink(th)) == Unlinked(s, th, s.confirms[th].id)
  {
  }

  lemma StopWins(s: State, th: Thread, t: TicketId)
    requires th in s.confirms && s.confirms[th] == Stopping(t) && At(s, t, Pending)
    ensures
      var s' := Next(Next(s, ConfirmStop(th)), ConfirmRelease(th));
      s'.mem == Retire(s.mem, t) && th !in s'.confirms
  {
    var stopped := Next(s, ConfirmStop(th));
    assert stopped.confirms[th] == Releasing(t);
    assert stopped.mem.tickets[t := stopped.mem.tickets[t].(phase := Retired)]
           == s.mem.tickets[t := s.mem.tickets[t].(phase := Retired)];
  }

  lemma StopLoses(s: State, th: Thread, t: TicketId)
    requires th in s.confirms && s.confirms[th] == Stopping(t) && !At(s, t, Pending)
    ensures
      var s' := Next(Next(s, ConfirmStop(th)), ConfirmRelease(th));
      s'.mem == s.mem && th !in s'.confirms
  {
  }

  /** Uninterrupted, the three steps of the transition system are this one call. */
  lemma StopTimerIsThreeSteps(s: State, th: Thread)
    requires th in s.confirms && s.confirms[th].Unlinking?
    ensures
      var s' := Next(Next(Next(s, ConfirmUnlink(th)), ConfirmStop(th)), ConfirmRelease(th));
      s'.mem == TimerStopped(s.mem, s.confirms[th].id) && th !in s'.confirms
  {
    var id := s.confirms[th].id;
    if id in s.mem.timers {
      UnlinkStep(s, th);
      var unlinked := Unlinked(s, th, id);
      if At(s, s.mem.timers[id], Pending) {
        StopWins(unlinked, th, s.mem.timers[id]);
      } else {
        StopLoses(unlinked, th, s.mem.timers[id]);
      }
    }
  }

  /** What the loop of Close has stopped when it has visited these reverts. */
  ghost function StoppableUnder(m: Memory, done: set<Id>): set<TicketId> {
    set t | t in m.tickets && Mapped(m, t) && m.tickets[t].phase == Pending && m.tickets[t].id in done
  }

  ghost function StoppedUnder(m: Memory, done: set<Id>): map<TicketId, Ticket> {
    map t | t in m.tickets ::
        if t in StoppableUnder(m, done) then m.tickets[t].(phase := StopOwed(Closer)) else m.tickets[t]
  }

  /** One more visit stops that revert's timer if it is still counting down. */
  lemma StopOne(m: Memory, done: set<Id>, id: Id)
    requires TimersInv(m) && id in m.timers && id !in done
    ensures
      var t := m.timers[id];
      && t in StoppedUnder(m, done) && StoppedUnder(m, done)[t] == m.tickets[t]
      && (m.tickets[t].phase == Pending ==>
            && StoppedUnder(m, done + {id}) == StoppedUnder(m, done)[t := m.tickets[t].(phase := StopOwed(Closer))]
            && |StoppableUnder(m, done + {id})| == |StoppableUnder(m, done)| + 1)
      && (m.tickets[t].phase != Pending ==>
            && StoppedUnder(m, done + {id}) == StoppedUnder(m, done)
            && |StoppableUnder(m, done + {id})| == |StoppableUnder(m, done)|)
  {
    var t := m.timers[id];
    if m.tickets[t].phase == Pending {
      assert StoppableUnder(m, done + {id}) == StoppableUnder(m, done) + {t};
    } else {
      assert StoppableUnder(m, done + {id}) == StoppableUnder(m, done);
    }
  }

  lemma AllVisited(m: Memory, done: set<Id>)
    requires m.timers.Keys <= done
    ensures StoppableUnder(m, done) == Stoppable(m)
    ensures StoppedUnder(m, done) == CloseTimers(m).tickets
  {
  }

  /** Retiring every timer Close stopped balances the count again. */
  lemma DrainCounts(m: Memory)
    requires CountInv(m)
    ensures |Stoppable(m)| <= m.running
    ensures CountInv(Drained(m)) && TimersInv(Drained(m))
  {
    assert Stoppable(m) <= Live(m);
    SubsetSize(Stoppable(m), Live(m));
    assert Live(Drained(m)) == Live(m) - Stoppable(m);
  }

  class Guard {
    var closed: bool
    var running: int
    var timers: map<Id, TicketId>
    var tickets: map<TicketId, Ticket>

    ghost function Mem(): Memory
      reads this
    {
      Memory(closed, running, timers, tickets)
    }

    ghost predicate Valid()
      reads this
    {
      CountInv(Mem()) && TimersInv(Mem())
    }

    constructor ()
      ensures Valid() && Mem() == Memory(false, 0, map[], map[])
    {
      closed, running, timers, tickets := false, 0, map[], map[];
      new;
      assert Live(Mem()) == {};
    }

    /** time.AfterFunc gives the new timer the identity t. */
    method Schedule(t: TicketId, id: Id, expiresAt: int, now: int)
      requires Valid() && t !in tickets
      modifies this
      ensures Valid()
      ensures Mem() == Place(old(Mem()), t, id, if expiresAt < now then now else expiresAt)
      ensures running == old(running) + (if id in old(timers) || old(closed) then 0 else 1)
    {
      var delay := expiresAt - now;
      if delay < 0 { delay := 0; }
      if id in timers { return; }
      if closed { return; }
      running := running + 1;
      timers := timers[id := t];
      tickets := tickets[t := Ticket(id, now + delay, Pending)];
      assert Live(Mem()) == old(Live(Mem())) + {t};
    }

    /** timer.Stop: true exactly when the body will never run. */
    method Stop(t: TicketId) returns (won: bool)
      requires t in tickets
      modifies this`tickets
      ensures won == (old(tickets)[t].phase == Pending)
      ensures tickets == if won then old(tickets)[t := old(tickets)[t].(phase := StopOwed(Closer))] else old(tickets)
    {
      won := tickets[t].phase == Pending;
      if won { tickets := tickets[t := tickets[t].(phase := StopOwed(Closer))]; }
    }

    method StopTimer(id: Id)
      requires Valid()
      modifies this
      ensures Valid()
      ensures Mem() == TimerStopped(old(Mem()), id)
    {
      var mapped := id in timers;
      if mapped {
        var t := timers[id];
        timers := timers - {id};
        var won := Stop(t);
        if won {
          ghost var m := old(Mem());
          assert t in Live(m);
          assert Live(Retire(m, t)) == Live(m) - {t};
          running := running - 1;
          tickets := tickets[t := tickets[t].(phase := Retired)];
          assert Mem() == TimerStopped(m, id);
          assert Live(Mem()) == Live(Retire(m, t));
        } else {
          assert Live(Mem()) == old(Live(Mem()));
        }
      }
    }

    /** The mutex section of Close: stop every mapped timer, empty the map, count the stopped ones. */
    method StopAll() returns (stopped: nat)
      requires Valid()
      modifies this
      ensures Mem() == CloseTimers(old(Mem()))
      ensures stopped == |Stoppable(old(Mem()))|
    {
      ghost var m := Mem();
      ghost var done: set<Id> := {};
      closed := true;
      stopped := 0;
      while timers != map[]
        invariant closed && running == m.running && done <= m.timers.Keys
        invariant timers == m.timers - done && timers.Keys == m.timers.Keys - done
        invariant tickets == StoppedUnder(m, done) && stopped == |StoppableUnder(m, done)|
        decreases timers.Keys
      {
        assert timers.Keys != {};
        var id :| id in timers.Keys;
        StopOne(m, done, id);
        var won := Stop(timers[id]);
        if won { stopped := stopped + 1; }
        timers := timers - {id};
        done := done + {id};
      }
      assert m.timers.Keys <= done by {
        assert timers.Keys == {};
      }
      AllVisited(m, done);
    }

    /** Close up to its Wait. Every Done finds a positive count. */
    method Close()
      requires Valid() && forall t :: t in tickets ==> tickets[t].phase != StopOwed(Closer)
      modifies this
      ensures Valid()
      ensures Mem() == Drained(old(Mem()))
    {
      ghost var m := Mem();
      DrainCounts(m);
      var stopped := StopAll();
      for i := 0 to stopped
        invariant running == m.running - i && closed && timers == map[] && tickets == CloseTimers(m).tickets
      {
        assert running > 0;
        running := running - 1;
      }
      tickets := map t | t in tickets ::
        if tickets[t].phase == StopOwed(Closer) then tickets[t].(phase := Retired) else tickets[t];
      assert tickets == Drained(m).tickets;
    }
  }
}
