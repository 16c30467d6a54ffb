/**
 Exactly when a revert's executor can be called twice in one process lifetime:
 when Arm has taken the revert on before Start reads the table.
 */
module SafeguardSecondCall {
  import opened Wrappers
  import opened SafeguardMachine
  import opened SafeguardInvariants
  import opened SafeguardCoverage
  import opened SafeguardOnce
  import opened SafeguardTheorems
  import opened SafeguardOutcomes
  import opened SafeguardRows

  // ----- what can still call the executor -----

  /** A timer or a fire that may still come to its call. */
  predicate PreCall(k: Ticket, id: Id) {
    k.id == id && (k.phase.Pending?
      || (k.phase.Firing? && (k.phase.pc == Unlink || k.phase.pc == Load || k.phase.pc.Lookup? || k.phase.pc == Call)))
  }

  /**
   Arm's call for this revert is waiting to schedule it, counting down, on its way to the executor, or has
   called it.
   */
  ghost predicate TakenOn(s: State, id: Id) {
    || Carried(s.scheduling, id)
    || (exists t :: t in s.mem.tickets && PreCall(s.mem.tickets[t], id))
    || (exists e :: e in s.log && IsCall(e, id, s.epoch))
  }

  ghost predicate CalledTwice(log: seq<Execution>, id: Id, epoch: nat) {
    exists i, j :: 0 <= i < j < |log| && IsCall(log[i], id, epoch) && IsCall(log[j], id, epoch)
  }

  // ----- one more call -----

  ghost predicate SameTable(s: State, s': State) {
    s'.rows == s.rows && s'.boot == s.boot && s'.closing == s.closing && s'.epoch == s.epoch
  }

  /** The run ends with one more call, of this revert, and leaves the table alone. */
  ghost predicate Calls(s: State, id: Id, run: seq<Step>) {
    var s' := Exec(s, run);
    && Crash !in run && SameTable(s, s')
    && |s'.log| == |s.log| + 1 && s'.log[..|s.log|] == s.log && IsCall(s'.log[|s.log|], id, s.epoch)
  }

  lemma Ahead(s: State, id: Id, step: Step, run: seq<Step>)
    requires step != Crash && SameTable(s, Next(s, step)) && Next(s, step).log == s.log && Calls(Next(s, step), id, run)
    ensures Calls(s, id, [step] + run)
  {
    assert ([step] + run)[1..] == run;
  }

  lemma FromCall(s: State, t: TicketId) returns (run: seq<Step>)
    requires At(s, t, Firing(Call))
    ensures Calls(s, s.mem.tickets[t].id, run)
  {
    run := [FireCall(t)];
    assert run[1..] == [];
    assert Exec(s, run) == Next(s, FireCall(t));
  }

  lemma FromLookup(s: State, t: TicketId) returns (run: seq<Step>)
    requires LookingUp(s, t)
    ensures Calls(s, s.mem.tickets[t].id, run)
  {
    var id, domain := s.mem.tickets[t].id, s.mem.tickets[t].phase.pc.domain;
    var known := Next(s, Register(domain));
    run := FromCall(Next(known, FireLookup(t)), t);
    Ahead(known, id, FireLookup(t), run);
    run := [FireLookup(t)] + run;
    Ahead(s, id, Register(domain), run);
    run := [Register(domain)] + run;
  }

  lemma FromLoad(s: State, t: TicketId) returns (run: seq<Step>)
    requires At(s, t, Firing(Load)) && IsArmed(s, s.mem.tickets[t].id)
    ensures Calls(s, s.mem.tickets[t].id, run)
  {
    run := FromLookup(Next(s, FireLoad(t, true)), t);
    Ahead(s, s.mem.tickets[t].id, FireLoad(t, true), run);
    run := [FireLoad(t, true)] + run;
  }

  lemma FromUnlink(s: State, t: TicketId) returns (run: seq<Step>)
    requires At(s, t, Firing(Unlink)) && IsArmed(s, s.mem.tickets[t].id)
    ensures Calls(s, s.mem.tickets[t].id, run)
  {
    run := FromLoad(Next(s, FireUnlink(t)), t);
    Ahead(s, s.mem.tickets[t].id, FireUnlink(t), run);
    run := [FireUnlink(t)] + run;
  }

  lemma FromDuePending(s: State, t: TicketId) returns (run: seq<Step>)
    requires At(s, t, Pending) && IsArmed(s, s.mem.tickets[t].id) && s.mem.tickets[t].fireAt <= s.clock
    ensures Calls(s, s.mem.tickets[t].id, run)
  {
    run := FromUnlink(Next(s, Expire(t)), t);
    Ahead(s, s.mem.tickets[t].id, Expire(t), run);
    run := [Expire(t)] + run;
  }

  lemma FromPending(s: State, t: TicketId) returns (run: seq<Step>)
    requires At(s, t, Pending) && IsArmed(s, s.mem.tickets[t].id)
    ensures Calls(s, s.mem.tickets[t].id, run)
  {
    var fireAt := s.mem.tickets[t].fireAt;
    var elapsed: nat := if fireAt > s.clock then fireAt - s.clock else 0;
    var due := Next(s, Tick(elapsed));
    run := FromDuePending(due, t);
    Ahead(s, s.mem.tickets[t].id, Tick(elapsed), run);
    run := [Tick(elapsed)] + run;
  }

  lemma FromTicket(s: State, t: TicketId, id: Id) returns (run: seq<Step>)
    requires t in s.mem.tickets && PreCall(s.mem.tickets[t], id) && IsArmed(s, id)
    ensures Calls(s, id, run)
  {
    match s.mem.tickets[t].phase
    case Pending => run := FromPending(s, t);
    case Firing(Unlink) => run := FromUnlink(s, t);
    case Firing(Load) => run := FromLoad(s, t);
    case Firing(Lookup(_)) => run := FromLookup(s, t);
    case Firing(Call) => run := FromCall(s, t);
  }

  /** schedule makes a timer for the head of the list unless the map has one. */
  lemma HeadIsPlaced(s: State, th: Thread, t: TicketId)
    requires Inv(s) && s.closing == Open && t !in s.mem.tickets
    requires th in s.scheduling && s.scheduling[th].delay.Some? && s.scheduling[th].dues != []
    ensures
      var s' := Next(s, EnterSchedule(th, t));
      var id := s.scheduling[th].dues[0].id;
      && SameTable(s, s') && s'.log == s.log
      && th in s'.scheduling && s'.scheduling[th] == Scheduling(s.scheduling[th].dues[1..], None)
      && (id !in s.mem.timers ==>
           t in s'.mem.tickets && s'.mem.tickets[t].id == id && s'.mem.tickets[t].phase == Pending)
  {
  }

  /** A revert in some call's list comes to its executor: by the timer the map holds already, or by its own. */
  lemma {:induction false} FromDue(s: State, th: Thread, id: Id) returns (run: seq<Step>)
    requires Inv(s) && s.closing == Open && IsArmed(s, id) && th in s.scheduling && Carries(s.scheduling[th], id)
    ensures Calls(s, id, run)
    decreases |s.scheduling[th].dues|, s.scheduling[th].delay.None?
  {
    if id in s.mem.timers {
      run := FromTicket(s, s.mem.timers[id], id);
    } else if s.scheduling[th].delay.None? {
      var s' := Next(s, ReadDelay(th));
      StepKeepsInv(s, ReadDelay(th));
      assert s'.scheduling[th].dues == s.scheduling[th].dues && Carries(s'.scheduling[th], id);
      run := FromDue(s', th, id);
      Ahead(s, id, ReadDelay(th), run);
      run := [ReadDelay(th)] + run;
    } else {
      var t := Unused(s.mem.tickets.Keys);
      var s' := Next(s, EnterSchedule(th, t));
      HeadIsPlaced(s, th, t);
      if s.scheduling[th].dues[0].id == id {
        run := FromTicket(s', t, id);
      } else {
        StepKeepsInv(s, EnterSchedule(th, t));
        TailStillCarries(s.scheduling[th].dues, id);
        run := FromDue(s', th, id);
      }
      Ahead(s, id, EnterSchedule(th, t), run);
      run := [EnterSchedule(th, t)] + run;
    }
  }

  lemma TailStillCarries(dues: seq<Due>, id: Id)
    requires dues != [] && dues[0].id != id && Carries(Scheduling(dues, None), id)
    ensures Carries(Scheduling(dues[1..], None), id)
  {
    var d :| d in dues && d.id == id;
    assert d in dues[1..];
  }

  // ----- and once more -----

  lemma {:induction false} InAnyOrder(ids: set<Id>) returns (list: seq<Id>)
    ensures forall id :: id in ids <==> id in list
    ensures forall i, j :: 0 <= i < j < |list| ==> list[i] != list[j]
    decreases |ids|
  {
    list := [];
    if ids != {} {
      var id :| id in ids;
      var rest := InAnyOrder(ids - {id});
      list := [id] + rest;
    }
  }

  /** There is always an answer Start can read. */
  lemma ArmedRowsCanBeListed(rows: map<Id, Row>) returns (dues: seq<Due>)
    ensures ListsArmedRows(rows, dues)
  {
    var list := InAnyOrder(ArmedIds(rows));
    assert forall i :: 0 <= i < |list| ==> list[i] in list && list[i] in ArmedIds(rows);
    dues := seq(|list|, i requires 0 <= i < |list| => Due(list[i], rows[list[i]].expiresAt));
    forall id | id in rows && rows[id].state == Armed ensures Due(id, rows[id].expiresAt) in dues {
      assert id in ArmedIds(rows);
      var i :| 0 <= i < |list| && list[i] == id;
      assert dues[i] == Due(id, rows[id].expiresAt);
    }
  }

  lemma CallsAgain(s: State, id: Id, run: seq<Step>)
    requires Calls(s, id, run)
    ensures HasCall(Exec(s, run).log, id, s.epoch)
    ensures HasCall(s.log, id, s.epoch) ==> CalledTwice(Exec(s, run).log, id, s.epoch)
  {
    var log := Exec(s, run).log;
    assert IsCall(log[|s.log|], id, s.epoch);
    if HasCall(s.log, id, s.epoch) {
      var i :| 0 <= i < |s.log| && IsCall(s.log[i], id, s.epoch);
      assert log[i] == log[..|s.log|][i];
    }
  }

  /** Start begins, reads the table, and carries every armed revert. */
  lemma StartReads(s: State, id: Id) returns (run: seq<Step>, th: Thread)
    requires s.boot != Reconciled && IsArmed(s, id)
    ensures Crash !in run
    ensures
      var s' := Exec(s, run);
      && s'.rows == s.rows && s'.closing == s.closing && s'.epoch == s.epoch && s'.log == s.log
      && th in s'.scheduling && Carries(s'.scheduling[th], id)
  {
    th := Unused(s.scheduling.Keys);
    var dues := ArmedRowsCanBeListed(s.rows);
    run := [StartBegin, StartSelect(th, dues, true)];
    var reading := Next(s, StartBegin);
    assert run[1..] == [StartSelect(th, dues, true)] && run[1..][1..] == [];
    assert Exec(s, run) == Exec(reading, run[1..]);
    assert Exec(reading, run[1..]) == Next(reading, StartSelect(th, dues, true));
    assert Due(id, s.rows[id].expiresAt) in dues;
  }

  /** The run so far and what follows it. */
  lemma Then(s: State, a: seq<Step>, b: seq<Step>)
    requires Crash !in a && Crash !in b
    ensures Exec(s, a + b) == Exec(Exec(s, a), b) && Crash !in a + b
  {
    ExecConcat(s, a, b);
  }

  /** The first call, unless it has been made. */
  lemma FirstCall(s: State, id: Id) returns (run: seq<Step>)
    requires Inv(s) && s.closing == Open && IsArmed(s, id) && TakenOn(s, id)
    ensures Crash !in run && SameTable(s, Exec(s, run)) && HasCall(Exec(s, run).log, id, s.epoch)
  {
    run := [];
    if e :| e in s.log && IsCall(e, id, s.epoch) {
      var i :| 0 <= i < |s.log| && s.log[i] == e;
    } else if t :| t in s.mem.tickets && PreCall(s.mem.tickets[t], id) {
      run := FromTicket(s, t, id);
      CallsAgain(s, id, run);
    } else {
      var th :| th in s.scheduling && Carries(s.scheduling[th], id);
      run := FromDue(s, th, id);
      CallsAgain(s, id, run);
    }
  }

  /** A revert that was taken on before Start reads the table can be called twice. */
  lemma SecondCallFollows(s: State, id: Id) returns (run: seq<Step>)
    requires Inv(s) && s.closing == Open && s.boot != Reconciled && IsArmed(s, id) && TakenOn(s, id)
    ensures Crash !in run && CalledTwice(Exec(s, run).log, id, s.epoch)
  {
    var first := FirstCall(s, id);
    ExecKeepsInv(s, first);
    var called := Exec(s, first);
    var start, th := StartReads(called, id);
    ExecKeepsInv(called, start);
    var started := Exec(called, start);
    var second := FromDue(started, th, id);
    CallsAgain(started, id, second);
    Then(s, first, start);
    Then(s, first + start, second);
    run := first + start + second;
  }

  // ----- otherwise there is only one -----

  /** At most one place of this list names the revert. */
  predicate ListedOnce(dues: seq<Due>, id: Id) {
    forall i, j :: 0 <= i < |dues| && 0 <= j < |dues| && dues[i].id == id && dues[j].id == id ==> i == j
  }

  ghost predicate NoTicket(tickets: Tickets, id: Id) {
    forall t :: t in tickets ==> !PreCall(tickets[t], id)
  }

  ghost predicate NotListed(scheduling: Schedulers, id: Id) {
    forall th :: th in scheduling ==> !Carries(scheduling[th], id)
  }

  /** One list, one timer or one call, and nothing beside it. */
  ghost predicate OneSource(tickets: Tickets, scheduling: Schedulers, log: seq<Execution>, epoch: nat, id: Id) {
    && (forall t, u :: t in tickets && u in tickets && PreCall(tickets[t], id) && PreCall(tickets[u], id) ==> t == u)
    && (forall th, w ::
        th in scheduling && w in scheduling && Carries(scheduling[th], id) && Carries(scheduling[w], id) ==> th == w)
    && (forall th :: th in scheduling ==> ListedOnce(scheduling[th].dues, id))
    && (NoTicket(tickets, id) || NotListed(scheduling, id))
    && (HasCall(log, id, epoch) ==> NoTicket(tickets, id) && NotListed(scheduling, id))
    && !CalledTwice(log, id, epoch)
  }

  ghost predicate NoSource(tickets: Tickets, scheduling: Schedulers, log: seq<Execution>, epoch: nat, id: Id) {
    NoTicket(tickets, id) && NotListed(scheduling, id) && !HasCall(log, id, epoch)
  }

  /** Before Start reads the table nothing is under way for this revert; after that, one thing at most. */
  ghost predicate Alone(s: State, id: Id) {
    && id in s.rows
    && (if s.boot == Reconciled then OneSource(s.mem.tickets, s.scheduling, s.log, s.epoch, id)
        else NoSource(s.mem.tickets, s.scheduling, s.log, s.epoch, id))
  }

  lemma NoSourceIsOne(tickets: Tickets, scheduling: Schedulers, log: seq<Execution>, epoch: nat, id: Id)
    requires NoSource(tickets, scheduling, log, epoch, id)
    ensures OneSource(tickets, scheduling, log, epoch, id)
  {
    forall th | th in scheduling ensures ListedOnce(scheduling[th].dues, id) {
      assert forall i :: 0 <= i < |scheduling[th].dues| ==> scheduling[th].dues[i] in scheduling[th].dues;
    }
  }

  /** Timers and lists only go on or go away. */
  ghost predicate Shrinks(tickets: Tickets, scheduling: Schedulers, tickets': Tickets, scheduling': Schedulers,
                          id: Id) {
    && (forall t :: t in tickets' && PreCall(tickets'[t], id) ==> t in tickets && PreCall(tickets[t], id))
    && (forall th :: th in scheduling' && Carries(scheduling'[th], id) ==>
         th in scheduling && scheduling'[th].dues == scheduling[th].dues)
  }

  lemma ShrinkingKeepsOne(tickets: Tickets, scheduling: Schedulers, tickets': Tickets, scheduling': Schedulers,
                          log: seq<Execution>, epoch: nat, id: Id)
    requires Shrinks(tickets, scheduling, tickets', scheduling', id)
    ensures OneSource(tickets, scheduling, log, epoch, id) ==> OneSource(tickets', scheduling', log, epoch, id)
    ensures NoSource(tickets, scheduling, log, epoch, id) ==> NoSource(tickets', scheduling', log, epoch, id)
  {
    forall th | th in scheduling'
      ensures Carries(scheduling'[th], id) ==> th in scheduling && Carries(scheduling[th], id)
    {
      }
    if OneSource(tickets, scheduling, log, epoch, id) {
      forall th | th in scheduling' ensures ListedOnce(scheduling'[th].dues, id) {
        if !Carries(scheduling'[th], id) {
          assert forall i :: 0 <= i < |scheduling'[th].dues| ==> scheduling'[th].dues[i] in scheduling'[th].dues;
        }
      }
    }
  }

  /** The head of a list becomes a timer, or is dropped because there is one. */
  lemma HeadKeepsOne(tickets: Tickets, scheduling: Schedulers, th: Thread, t: TicketId, k: Ticket, log: seq<Execution>,
                     epoch: nat, id: Id)
    requires th in scheduling && scheduling[th].dues != [] && t !in tickets && k.id == scheduling[th].dues[0].id
    requires OneSource(tickets, scheduling, log, epoch, id)
    ensures
      var scheduling' := scheduling[th := Scheduling(scheduling[th].dues[1..], None)];
      OneSource(tickets, scheduling', log, epoch, id) && OneSource(tickets[t := k], scheduling', log, epoch, id)
  {
    var dues := scheduling[th].dues;
    var scheduling' := scheduling[th := Scheduling(dues[1..], None)];
    HeadLeaves(dues, id);
    forall w | w in scheduling' ensures Carries(scheduling'[w], id) ==> Carries(scheduling[w], id) { }
    if dues[0].id == id {
      assert dues[0] in dues;
      assert Carries(scheduling[th], id);
      assert NotListed(scheduling', id);
    }
    if NoTicket(tickets, id) { assert k.id != id ==> NoTicket(tickets[t := k], id); }
  }

  lemma HeadLeaves(dues: seq<Due>, id: Id)
    requires dues != [] && ListedOnce(dues, id)
    ensures ListedOnce(dues[1..], id)
    ensures Carries(Scheduling(dues[1..], None), id) ==> Carries(Scheduling(dues, None), id) && dues[0].id != id
  {
  }

  lemma HeadKeepsNone(tickets: Tickets, scheduling: Schedulers, th: Thread, t: TicketId, k: Ticket,
                      log: seq<Execution>, epoch: nat, id: Id)
    requires th in scheduling && scheduling[th].dues != [] && t !in tickets && k.id == scheduling[th].dues[0].id
    requires NoSource(tickets, scheduling, log, epoch, id)
    ensures
      var scheduling' := scheduling[th := Scheduling(scheduling[th].dues[1..], None)];
      NoSource(tickets, scheduling', log, epoch, id) && NoSource(tickets[t := k], scheduling', log, epoch, id)
  {
    assert scheduling[th].dues[0] in scheduling[th].dues;
    var scheduling' := scheduling[th := Scheduling(scheduling[th].dues[1..], None)];
    forall w | w in scheduling' ensures Carries(scheduling'[w], id) ==> Carries(scheduling[w], id) { }
  }

  lemma EnterScheduleKeepsAlone(s: State, th: Thread, t: TicketId, id: Id)
    requires Alone(s, id)
    ensures Alone(Next(s, EnterSchedule(th, t)), id)
  {
    if th in s.scheduling && s.scheduling[th].delay.Some? && s.scheduling[th].dues != [] && t !in s.mem.tickets {
      var k := Ticket(s.scheduling[th].dues[0].id, s.clock + s.scheduling[th].delay.value, Pending);
      if s.boot == Reconciled {
        HeadKeepsOne(s.mem.tickets, s.scheduling, th, t, k, s.log, s.epoch, id);
      } else {
        HeadKeepsNone(s.mem.tickets, s.scheduling, th, t, k, s.log, s.epoch, id);
      }
    }
  }

  lemma StartSelectKeepsAlone(s: State, th: Thread, dues: seq<Due>, ok: bool, id: Id)
    requires Alone(s, id)
    ensures Alone(Next(s, StartSelect(th, dues, ok)), id)
  {
    if s.boot == Reading && th !in s.scheduling {
      NoSourceIsOne(s.mem.tickets, s.scheduling, s.log, s.epoch, id);
    }
  }

  lemma FireCallKeepsAlone(s: State, t: TicketId, id: Id)
    requires Alone(s, id)
    ensures Alone(Next(s, FireCall(t)), id)
  {
    if At(s, t, Firing(Call)) {
      var s' := Next(s, FireCall(t));
      var e := Execution(s.mem.tickets[t].id, s.clock, s.epoch);
      LogGrows(s.log, e, id, s.epoch);
      ShrinkingKeepsOne(s.mem.tickets, s.scheduling, s'.mem.tickets, s'.scheduling, s.log, s.epoch, id);
      if e.id == id {
        assert PreCall(s.mem.tickets[t], id);
        assert NoTicket(s'.mem.tickets, id);
      }
    }
  }

  lemma LogGrows(log: seq<Execution>, e: Execution, id: Id, epoch: nat)
    ensures HasCall(log + [e], id, epoch) <==> HasCall(log, id, epoch) || IsCall(e, id, epoch)
    ensures CalledTwice(log + [e], id, epoch) ==>
              CalledTwice(log, id, epoch) || (HasCall(log, id, epoch) && IsCall(e, id, epoch))
  {
    var log' := log + [e];
    if HasCall(log, id, epoch) {
      var i :| 0 <= i < |log| && IsCall(log[i], id, epoch);
      assert log'[i] == log[i];
    }
    if IsCall(e, id, epoch) { assert log'[|log|] == e; }
    if CalledTwice(log', id, epoch) {
      var i, j :| 0 <= i < j < |log'| && IsCall(log'[i], id, epoch) && IsCall(log'[j], id, epoch);
      assert log'[i] == log[i];
    }
  }

  ghost predicate ShrinksTo(s: State, s': State, id: Id) {
    Shrinks(s.mem.tickets, s.scheduling, s'.mem.tickets, s'.scheduling, id)
  }

  lemma PhaseShrinks(s: State, t: TicketId, phase: Phase, id: Id)
    requires t in s.mem.tickets && (PreCall(Ticket(id, 0, phase), id) ==> PreCall(s.mem.tickets[t].(id := id), id))
    ensures Shrinks(s.mem.tickets, s.scheduling, SetPhase(s.mem, t, phase).tickets, s.scheduling, id)
  {
  }

  lemma ExpireShrinks(s: State, t: TicketId, id: Id)
    ensures ShrinksTo(s, DoExpire(s, t), id)
  {
    if At(s, t, Pending) { PhaseShrinks(s, t, Firing(Unlink), id); }
  }

  lemma FireUnlinkShrinks(s: State, t: TicketId, id: Id)
    ensures ShrinksTo(s, DoFireUnlink(s, t), id)
  {
    if At(s, t, Firing(Unlink)) { PhaseShrinks(s, t, Firing(Load), id); }
  }

  lemma FireLoadShrinks(s: State, t: TicketId, ok: bool, id: Id)
    ensures ShrinksTo(s, DoFireLoad(s, t, ok), id)
  {
    if At(s, t, Firing(Load)) { PhaseShrinks(s, t, DoFireLoad(s, t, ok).mem.tickets[t].phase, id); }
  }

  lemma FireLookupShrinks(s: State, t: TicketId, id: Id)
    ensures ShrinksTo(s, DoFireLookup(s, t), id)
  {
    if LookingUp(s, t) { PhaseShrinks(s, t, DoFireLookup(s, t).mem.tickets[t].phase, id); }
  }

  lemma FireCallShrinks(s: State, t: TicketId, id: Id)
    ensures ShrinksTo(s, DoFireCall(s, t), id)
  {
    if At(s, t, Firing(Call)) { PhaseShrinks(s, t, Firing(Running), id); }
  }

  lemma FireReturnShrinks(s: State, t: TicketId, failed: bool, job: int, id: Id)
    ensures ShrinksTo(s, DoFireReturn(s, t, failed, job), id)
  {
    if At(s, t, Firing(Running)) { PhaseShrinks(s, t, Firing(Finish(if failed then RevertFailed
    else Reverted, job)), id); }
  }

  lemma FireFinishShrinks(s: State, t: TicketId, ok: bool, id: Id)
    ensures ShrinksTo(s, DoFireFinish(s, t, ok), id)
  {
    if Finishing(s, t) { PhaseShrinks(s, t, Firing(Leave), id); }
  }

  lemma FireLeaveShrinks(s: State, t: TicketId, id: Id)
    ensures ShrinksTo(s, DoFireLeave(s, t), id)
  {
    if At(s, t, Firing(Leave)) { PhaseShrinks(s, t, Retired, id); }
  }

  lemma ConfirmStopShrinks(s: State, th: Thread, id: Id)
    ensures ShrinksTo(s, DoConfirmStop(s, th), id)
  {
    if th in s.confirms && s.confirms[th].Stopping? && At(s, s.confirms[th].ticket, Pending) {
      PhaseShrinks(s, s.confirms[th].ticket, StopOwed(Confirmer(th)), id);
    }
  }

  lemma ConfirmReleaseShrinks(s: State, th: Thread, id: Id)
    ensures ShrinksTo(s, DoConfirmRelease(s, th), id)
  {
    if th in s.confirms && s.confirms[th].Releasing? && s.confirms[th].ticket in s.mem.tickets {
      PhaseShrinks(s, s.confirms[th].ticket, Retired, id);
    }
  }

  lemma ArmInsertShrinks(s: State, th: Thread, ok: bool, id: Id)
    requires id in s.rows
    ensures ShrinksTo(s, DoArmInsert(s, th, ok), id)
  {
  }

  lemma ReadDelayShrinks(s: State, th: Thread, id: Id)
    ensures ShrinksTo(s, DoReadDelay(s, th), id)
  {
  }

  lemma CloseShrinks(s: State, t: TicketId, id: Id)
    ensures ShrinksTo(s, DoCloseLock(s), id) && ShrinksTo(s, DoCloseRelease(s, t), id)
  {
  }

  lemma SameIsShrunk(s: State, s': State, id: Id)
    requires s'.mem.tickets == s.mem.tickets && s'.scheduling == s.scheduling
    ensures ShrinksTo(s, s', id)
  {
  }

  lemma FireStartShrinks(s: State, step: Step, id: Id)
    requires ByFireStart(step)
    ensures ShrinksTo(s, Next(s, step), id)
  {
    match step
    case Expire(t) => ExpireShrinks(s, t, id);
    case FireUnlink(t) => FireUnlinkShrinks(s, t, id);
    case FireLoad(t, ok) => FireLoadShrinks(s, t, ok, id);
    case FireLookup(t) => FireLookupShrinks(s, t, id);
  }

  lemma FireEndShrinks(s: State, step: Step, id: Id)
    requires ByFire(step) && !ByFireStart(step)
    ensures ShrinksTo(s, Next(s, step), id)
  {
    match step
    case FireCall(t) => FireCallShrinks(s, t, id);
    case FireReturn(t, failed, job) => FireReturnShrinks(s, t, failed, job, id);
    case FireFinish(t, ok) => FireFinishShrinks(s, t, ok, id);
    case FireLeave(t) => FireLeaveShrinks(s, t, id);
  }

  predicate KeepsTimers(step: Step) {
    || step.Tick? || step.Register? || step.ArmBegin? || step.StartBegin?
    || step.ConfirmLoad? || step.ConfirmUpdate? || step.ConfirmUnlink? || step == CloseCancel || step == CloseReturn
  }

  lemma KeptTimersShrink(s: State, step: Step, id: Id)
    requires KeepsTimers(step)
    ensures ShrinksTo(s, Next(s, step), id)
  {
    assert Next(s, step).scheduling == s.scheduling;
    SameIsShrunk(s, Next(s, step), id);
  }

  /**
   Every other step leaves the lists as they are or ends one, adds none of this revert, and takes no timer back
   before its call.
   */
  lemma OthersShrink(s: State, step: Step, id: Id)
    requires !step.EnterSchedule? && !step.StartSelect? && step != Crash && id in s.rows
    ensures ShrinksTo(s, Next(s, step), id)
  {
    if ByFireStart(step) {
      FireStartShrinks(s, step, id);
    } else if ByFire(step) {
      FireEndShrinks(s, step, id);
    } else if KeepsTimers(step) {
      KeptTimersShrink(s, step, id);
    } else if step.ArmInsert? {
      ArmInsertShrinks(s, step.thread, step.ok, id);
    } else if step.ReadDelay? {
      ReadDelayShrinks(s, step.thread, id);
    } else if step.ConfirmStop? {
      ConfirmStopShrinks(s, step.thread, id);
    } else if step.ConfirmRelease? {
      ConfirmReleaseShrinks(s, step.thread, id);
    } else if step.CloseRelease? {
      CloseShrinks(s, step.ticket, id);
    } else {
      CloseShrinks(s, 0, id);
    }
  }

  lemma BootAndEpoch(s: State, step: Step)
    requires !step.StartSelect? && step != Crash
    ensures (Next(s, step).boot == Reconciled) == (s.boot == Reconciled) && Next(s, step).epoch == s.epoch
  {
    if ByConfirm(step) {
      ConfirmFrame(s, step);
    } else if ByFire(step) {
      FireFrame(s, step);
    } else if !ByArmOrStart(step) {
      CloseFrame(s, step);
    }
  }

  lemma OthersKeepAlone(s: State, step: Step, id: Id)
    requires Alone(s, id) && step != Crash && !step.EnterSchedule? && !step.StartSelect? && !step.FireCall?
    ensures Alone(Next(s, step), id)
  {
    var s' := Next(s, step);
    StepFreezes(s, step);
    OnlyFireCallExecutes(s, step);
    BootAndEpoch(s, step);
    OthersShrink(s, step, id);
    ShrinkingKeepsOne(s.mem.tickets, s.scheduling, s'.mem.tickets, s'.scheduling, s.log, s.epoch, id);
  }

  lemma StepKeepsAlone(s: State, step: Step, id: Id)
    requires Alone(s, id) && step != Crash
    ensures Alone(Next(s, step), id) && Next(s, step).epoch == s.epoch
  {
    if step.EnterSchedule? {
      EnterScheduleKeepsAlone(s, step.thread, step.ticket, id);
    } else if step.StartSelect? {
      StartSelectKeepsAlone(s, step.thread, step.dues, step.ok, id);
    } else if step.FireCall? {
      FireCallKeepsAlone(s, step.ticket, id);
    } else {
      OthersKeepAlone(s, step, id);
      BootAndEpoch(s, step);
    }
  }

  lemma {:induction false} AloneIsNotCalledTwice(s: State, run: seq<Step>, id: Id)
    requires Alone(s, id) && Crash !in run
    ensures !CalledTwice(Exec(s, run).log, id, s.epoch)
    decreases |run|
  {
    if run == [] {
      if s.boot != Reconciled { NoSourceIsOne(s.mem.tickets, s.scheduling, s.log, s.epoch, id); }
    } else {
      StepKeepsAlone(s, run[0], id);
      AloneIsNotCalledTwice(Next(s, run[0]), run[1..], id);
    }
  }

  /**
   While the guard is open and Start has not read the table, an armed revert's
   executor can be called twice in this lifetime exactly when Arm has taken it on:
   it waits in Arm's list, counts down, is on its way to its call, or was called.
   */
  lemma SecondCallIff(window: nat, clock: int, before: seq<Step>, id: Id)
    requires
      var s := Reached(window, clock, before);
      s.closing == Open && s.boot != Reconciled && IsArmed(s, id)
    ensures
      var s := Reached(window, clock, before);
      (exists run :: Crash !in run && CalledTwice(Exec(s, run).log, id, s.epoch)) <==> TakenOn(s, id)
  {
    var s := Reached(window, clock, before);
    ReachedInv(window, clock, before);
    if TakenOn(s, id) {
      var run := SecondCallFollows(s, id);
      assert Crash !in run && CalledTwice(Exec(s, run).log, id, s.epoch);
    } else {
      NotTakenOnIsAlone(s, id);
      forall run | Crash !in run ensures !CalledTwice(Exec(s, run).log, id, s.epoch) {
        AloneIsNotCalledTwice(s, run, id);
      }
    }
  }

  lemma CallTakesOn(s: State, id: Id)
    requires HasCall(s.log, id, s.epoch)
    ensures TakenOn(s, id)
  {
    var i :| 0 <= i < |s.log| && IsCall(s.log[i], id, s.epoch);
    assert s.log[i] in s.log;
  }

  lemma NotTakenOnIsAlone(s: State, id: Id)
    requires s.boot != Reconciled && IsArmed(s, id) && !TakenOn(s, id)
    ensures Alone(s, id)
  {
    assert !HasCall(s.log, id, s.epoch) by {
      if HasCall(s.log, id, s.epoch) { CallTakesOn(s, id); }
    }
  }

  // ----- only Arm takes a revert on before Start -----

  /** Lifetimes in which Start overlapped an Arm are over, or have Start behind them. */
  predicate OverlapsAreOld(s: State) {
    forall e :: e in s.overlapped ==> if s.boot == Reconciled then e <= s.epoch else e < s.epoch
  }

  lemma StepKeepsOverlapsOld(s: State, step: Step)
    requires OverlapsAreOld(s)
    ensures OverlapsAreOld(Next(s, step))
  {
    if !step.StartSelect? && step != Crash {
      OnlyStartOverlaps(s, step);
      BootAndEpoch(s, step);
    }
  }

  lemma {:induction false} ExecKeepsOverlapsOld(s: State, run: seq<Step>)
    requires OverlapsAreOld(s)
    ensures OverlapsAreOld(Exec(s, run))
    decreases |run|
  {
    if run != [] {
      StepKeepsOverlapsOld(s, run[0]);
      ExecKeepsOverlapsOld(Next(s, run[0]), run[1..]);
    }
  }

  /** A revert that is taken on before Start reads the table was armed by this very process. */
  lemma OnlyArmTakesOn(window: nat, clock: int, before: seq<Step>, id: Id)
    requires
      var s := Reached(window, clock, before);
      s.boot != Reconciled && TakenOn(s, id)
    ensures id in Reached(window, clock, before).armedHere
  {
    ReachedInv(window, clock, before);
    ExecKeepsOverlapsOld(Initial(window, clock), before);
    var s := Reached(window, clock, before);
    assert s.epoch !in s.overlapped;
    if e :| e in s.log && IsCall(e, id, s.epoch) {
      var i :| 0 <= i < |s.log| && s.log[i] == e;
      assert CalledTicket(s.mem.tickets, s.log[i].id);
    }
  }

  /** The fire of this revert found no executor: it is about to store that it failed, and has called nobody. */
  ghost predicate GaveUp(s: State, id: Id) {
    && !HasCall(s.log, id, s.epoch)
    && exists t ::
        t in s.mem.tickets && s.mem.tickets[t].id == id && s.mem.tickets[t].phase.Firing?
          && s.mem.tickets[t].phase.pc.Finish?
  }

  /** What this process armed and lost to no SQL error is taken on, or its fire gave up. */
  lemma ArmedIsTakenOn(s: State, id: Id)
    requires Inv(s) && Told(s) && s.closing == Open && IsArmed(s, id) && id in s.armedHere && id !in s.stranded
             && !GaveUp(s, id)
    ensures TakenOn(s, id)
  {
    if Handled(s.mem, id) {
      var t :| t in s.mem.tickets && Handles(s.mem.tickets[t], id);
      if s.mem.tickets[t].phase == Firing(Running) {
        assert Reporting(s.mem.tickets[t].phase);
        CallTakesOn(s, id);
      } else if s.mem.tickets[t].phase.Firing? && s.mem.tickets[t].phase.pc.Finish? {
        assert HasCall(s.log, id, s.epoch);
        CallTakesOn(s, id);
      } else {
        assert PreCall(s.mem.tickets[t], id);
      }
    }
  }

  /** Nothing else is under way for a revert whose fire gave up before Start read the table. */
  lemma GaveUpIsNotTakenOn(s: State, id: Id)
    requires OnceInv(s) && s.epoch !in s.overlapped && GaveUp(s, id)
    ensures !TakenOn(s, id)
  {
    var t :| t in s.mem.tickets && s.mem.tickets[t].id == id && s.mem.tickets[t].phase.Firing?
      && s.mem.tickets[t].phase.pc.Finish?;
    forall e | e in s.log ensures !IsCall(e, id, s.epoch) {
      var i :| 0 <= i < |s.log| && s.log[i] == e;
    }
  }

  /**
   What a caller can tell: before Start reads the table, an armed revert for which no
   SQL call has failed can be called twice exactly when this process armed it and its
   fire has not given up for want of an executor.
   */
  lemma SecondCallIffArmedHere(window: nat, clock: int, before: seq<Step>, id: Id)
    requires
      var s := Reached(window, clock, before);
      s.closing == Open && s.boot != Reconciled && IsArmed(s, id) && id !in s.stranded
    ensures
      var s := Reached(window, clock, before);
      (exists run :: Crash !in run && CalledTwice(Exec(s, run).log, id, s.epoch)) <==>
          id in s.armedHere && !GaveUp(s, id)
  {
    var s := Reached(window, clock, before);
    ReachedInv(window, clock, before);
    SecondCallIff(window, clock, before, id);
    InitialInv(window, clock);
    ExecKeepsTold(Initial(window, clock), before);
    ExecKeepsOverlapsOld(Initial(window, clock), before);
    assert s.epoch !in s.overlapped;
    if TakenOn(s, id) {
      OnlyArmTakesOn(window, clock, before, id);
      if GaveUp(s, id) {
        GaveUpIsNotTakenOn(s, id);
        assert false;
      }
    } else if id in s.armedHere && !GaveUp(s, id) {
      ArmedIsTakenOn(s, id);
      assert false;
    }
  }

  /** Such a run exists for every revert: Arm stores it first, Start reads it second. */
  lemma OverlapMayCallTwice(window: nat, clock: int, id: Id) returns (run: seq<Step>)
    ensures Crash !in run && CalledTwice(Reached(window, clock, run).log, id, 0)
  {
    var s := Initial(window, clock);
    var arm := [ArmBegin(0, id, "d"), ArmInsert(0, true)];
    var armed := Next(Next(s, ArmBegin(0, id, "d")), ArmInsert(0, true));
    assert arm[1..] == [ArmInsert(0, true)] && arm[1..][1..] == [];
    assert Exec(s, arm) == Exec(Next(s, arm[0]), arm[1..]);
    assert Exec(Next(s, arm[0]), arm[1..]) == armed;
    assert armed.scheduling[0].dues[0] in armed.scheduling[0].dues;
    assert Carries(armed.scheduling[0], id);
    ReachedInv(window, clock, arm);
    var rest := SecondCallFollows(armed, id);
    Then(s, arm, rest);
    run := arm + rest;
  }
}
