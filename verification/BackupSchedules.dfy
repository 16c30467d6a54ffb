/**
 Backup plans and the timers installed for them: syncSchedule, reconcileSchedules
 and DeletePlan of internal/modules/backups/plans.go, on rows and timers that are
 updated in place.
 */
module BackupSchedules {
  import opened Wrappers

  type PlanId = nat

  datatype ScheduleState = Pending | Installed | Disabled | Error

  datatype Plan = Plan(name: string, schedule: string, enabled: bool, state: ScheduleState)

  /** What the installed unit files say. */
  datatype Timer = Timer(name: string, cron: string)

  type Rows = map<PlanId, Plan>
  type Timers = map<PlanId, Timer>

  /** One call of the operator: a failing one may leave any timer, or none, for that plan. */
  datatype Outcome = Works | Fails(left: Option<Timer>)

  function PutTimer(timers: Timers, id: PlanId, timer: Option<Timer>): Timers {
    match timer
    case None => timers - {id}
    case Some(t) => timers[id := t]
  }

  /** The timer a row asks for. */
  function Wanted(row: Plan): Option<Timer> {
    if row.enabled then Some(Timer(row.name, row.schedule)) else None
  }

  function Present(timers: Timers, id: PlanId): Option<Timer> {
    if id in timers then Some(timers[id]) else None
  }

  /** InstallSchedule for an enabled row, RemoveSchedule for a disabled one. */
  function Operated(timers: Timers, id: PlanId, row: Plan, outcome: Outcome): Timers {
    PutTimer(timers, id, if outcome.Works? then Wanted(row) else outcome.left)
  }

  function StateAfter(row: Plan, outcome: Outcome): ScheduleState {
    if outcome.Fails? then Error else if row.enabled then Installed else Disabled
  }

  predicate Settled(state: ScheduleState) {
    state == Installed || state == Disabled
  }

  predicate Matches(rows: Rows, timers: Timers, id: PlanId)
    requires id in rows
  {
    Present(timers, id) == Wanted(rows[id])
  }

  /** Every row's timer and recorded state are what the row asks for. */
  ghost predicate Agreement(rows: Rows, timers: Timers) {
    forall id :: id in rows ==> Matches(rows, timers, id) && rows[id].state == StateAfter(rows[id], Works)
  }

  ghost predicate NoOrphans(rows: Rows, timers: Timers) {
    forall id :: id in timers ==> id in rows
  }

  datatype World = World(rows: Rows, timers: Timers)

  /** syncSchedule when nothing interleaves and its own writes go through. */
  function Synced(w: World, id: PlanId, outcome: Outcome): World {
    if id !in w.rows then w
    else
      World(w.rows[id := w.rows[id].(state := StateAfter(w.rows[id], outcome))],
        Operated(w.timers, id, w.rows[id], outcome))
  }

  function Pass(w: World, ids: seq<PlanId>, outcomes: seq<Outcome>): World
    requires |outcomes| == |ids|
    decreases |ids|
  {
    if ids == [] then w else Pass(Synced(w, ids[0], outcomes[0]), ids[1..], outcomes[1..])
  }

  /** The rows a pass selects: all of them, or the ones that say pending or error. */
  ghost predicate Selects(rows: Rows, force: bool, ids: seq<PlanId>) {
    && (forall id :: id in ids <==> id in rows && (force || !Settled(rows[id].state)))
    && (forall i, j :: 0 <= i < j < |ids| ==> ids[i] != ids[j])
  }

  // ----- what a pass does to one plan -----

  lemma {:induction false} PassLeavesOthers(w: World, ids: seq<PlanId>, outcomes: seq<Outcome>, id: PlanId)
    requires |outcomes| == |ids| && id !in ids
    ensures Pass(w, ids, outcomes).rows.Keys == w.rows.Keys
    ensures id in w.rows ==> Pass(w, ids, outcomes).rows[id] == w.rows[id]
    ensures Present(Pass(w, ids, outcomes).timers, id) == Present(w.timers, id)
    decreases |ids|
  {
    if ids != [] {
      assert ids[0] in ids;
      PassLeavesOthers(Synced(w, ids[0], outcomes[0]), ids[1..], outcomes[1..], id);
    }
  }

  /** A selected plan is synced once, with its own outcome. */
  lemma {:induction false} PassSyncsEach(w: World, ids: seq<PlanId>, outcomes: seq<Outcome>, k: nat)
    requires |outcomes| == |ids| && k < |ids| && ids[k] in w.rows
    requires forall i, j :: 0 <= i < j < |ids| ==> ids[i] != ids[j]
    ensures
      var w' := Pass(w, ids, outcomes);
      && ids[k] in w'.rows && w'.rows[ids[k]] == w.rows[ids[k]].(state := StateAfter(w.rows[ids[k]], outcomes[k]))
      && Present(w'.timers, ids[k]) == (if outcomes[k].Works? then Wanted(w.rows[ids[k]]) else outcomes[k].left)
    decreases |ids|
  {
    var next := Synced(w, ids[0], outcomes[0]);
    if k == 0 {
      forall i | 0 <= i < |ids[1..]| ensures ids[1..][i] != ids[0] { }
      PassLeavesOthers(next, ids[1..], outcomes[1..], ids[0]);
    } else {
      assert ids[1..][k - 1] == ids[k] && ids[0] != ids[k];
      PassSyncsEach(next, ids[1..], outcomes[1..], k - 1);
    }
  }

  ghost predicate AllWork(outcomes: seq<Outcome>) {
    forall k :: 0 <= k < |outcomes| ==> outcomes[k].Works?
  }

  /** One forced pass whose calls all succeed reaches full agreement from any rows and any timers. */
  lemma ForcedPassAgrees(w: World, ids: seq<PlanId>, outcomes: seq<Outcome>)
    requires |outcomes| == |ids| && Selects(w.rows, true, ids) && AllWork(outcomes)
    ensures
      var w' := Pass(w, ids, outcomes);
      Agreement(w'.rows, w'.timers) && w'.rows.Keys == w.rows.Keys
    ensures NoOrphans(w.rows, w.timers) ==> NoOrphans(Pass(w, ids, outcomes).rows, Pass(w, ids, outcomes).timers)
  {
    var w' := Pass(w, ids, outcomes);
    PassKeepsKeys(w, ids, outcomes);
    forall id | id in w'.rows
      ensures Matches(w'.rows, w'.timers, id) && w'.rows[id].state == StateAfter(w'.rows[id], Works)
    {
      var k :| 0 <= k < |ids| && ids[k] == id;
      PassSyncsEach(w, ids, outcomes, k);
    }
    if NoOrphans(w.rows, w.timers) {
      forall id | id in w'.timers ensures id in w'.rows {
        if id !in w.rows { PassLeavesOthers(w, ids, outcomes, id); }
      }
    }
  }

  lemma {:induction false} PassKeepsKeys(w: World, ids: seq<PlanId>, outcomes: seq<Outcome>)
    requires |outcomes| == |ids|
    ensures Pass(w, ids, outcomes).rows.Keys == w.rows.Keys
    decreases |ids|
  {
    if ids != [] { PassKeepsKeys(Synced(w, ids[0], outcomes[0]), ids[1..], outcomes[1..]); }
  }

  /** In agreement a pass of either kind changes nothing: the forced pass is a fixpoint. */
  lemma {:induction false} PassIsIdentity(w: World, ids: seq<PlanId>, outcomes: seq<Outcome>)
    requires |outcomes| == |ids| && Agreement(w.rows, w.timers) && AllWork(outcomes)
    ensures Pass(w, ids, outcomes) == w
    decreases |ids|
  {
    if ids != [] {
      var id := ids[0];
      if id in w.rows {
        assert Matches(w.rows, w.timers, id);
        assert w.rows[id := w.rows[id].(state := StateAfter(w.rows[id], Works))] == w.rows;
        assert Operated(w.timers, id, w.rows[id], Works) == w.timers;
      }
      PassIsIdentity(w, ids[1..], outcomes[1..]);
    }
  }

  /** A retry pass agrees exactly when every row it skips was in agreement already. */
  lemma RetryPassAgreesIff(w: World, ids: seq<PlanId>, outcomes: seq<Outcome>)
    requires |outcomes| == |ids| && Selects(w.rows, false, ids) && AllWork(outcomes)
    ensures
      var w' := Pass(w, ids, outcomes);
      Agreement(w'.rows, w'.timers) <==>
        forall id :: id in w.rows && Settled(w.rows[id].state) ==>
            Matches(w.rows, w.timers, id) && w.rows[id].state == StateAfter(w.rows[id], Works)
  {
    var w' := Pass(w, ids, outcomes);
    PassKeepsKeys(w, ids, outcomes);
    forall id | id in w.rows && Settled(w.rows[id].state)
      ensures w'.rows[id] == w.rows[id] && Present(w'.timers, id) == Present(w.timers, id)
    {
      PassLeavesOthers(w, ids, outcomes, id);
    }
    forall id | id in w.rows && !Settled(w.rows[id].state)
      ensures Matches(w'.rows, w'.timers, id) && w'.rows[id].state == StateAfter(w'.rows[id], Works)
    {
      var k :| 0 <= k < |ids| && ids[k] == id;
      PassSyncsEach(w, ids, outcomes, k);
    }
  }

  // ----- the same in place -----

  class Scheduler {
    var rows: Rows
    var timers: Timers

    function W(): World
      reads this
    {
      World(rows, timers)
    }

    constructor ()
      ensures W() == World(map[], map[])
    {
      rows, timers := map[], map[];
    }

    /** found is false for sql.ErrNoRows. */
    method SyncSchedule(id: PlanId, outcome: Outcome) returns (found: bool)
      modifies this
      ensures found == (id in old(rows))
      ensures W() == Synced(old(W()), id, outcome)
    {
      if id !in rows { return false; }
      var plan := rows[id];
      if plan.enabled {
        timers := PutTimer(timers, id, if outcome.Works? then Some(Timer(plan.name, plan.schedule)) else outcome.left);
      } else {
        timers := PutTimer(timers, id, if outcome.Works? then None else outcome.left);
      }
      var state := Installed;
      if !plan.enabled { state := Disabled; }
      if outcome.Fails? { state := Error; }
      rows := rows[id := rows[id].(state := state)];
      return true;
    }

    /** One plan's failure does not stop the pass; `failures` lists the plans that failed. */
    method ReconcileSchedules(ids: seq<PlanId>, outcomes: seq<Outcome>) returns (failures: seq<PlanId>)
      requires |outcomes| == |ids|
      modifies this
      ensures W() == Pass(old(W()), ids, outcomes)
      ensures old(Selects(rows, true, ids)) && AllWork(outcomes) ==> Agreement(rows, timers) && failures == []
    {
      ghost var w := W();
      failures := [];
      for index := 0 to |ids|
        invariant Pass(W(), ids[index..], outcomes[index..]) == Pass(w, ids, outcomes)
        invariant AllWork(outcomes) ==> failures == []
      {
        assert ids[index..][1..] == ids[index + 1..] && outcomes[index..][1..] == outcomes[index + 1..];
        var found := SyncSchedule(ids[index], outcomes[index]);
        if !found { continue; }
        if outcomes[index].Fails? { failures := failures + [ids[index]]; }
      }
      if Selects(w.rows, true, ids) && AllWork(outcomes) { ForcedPassAgrees(w, ids, outcomes); }
    }

    /** A plan goes only after its timer; if it stays without its timer, its state asks for the timer back. */
    method DeletePlan(id: PlanId, hasCopies: bool, removal: Outcome, marked: bool, deleted: bool) returns (ok: bool)
      modifies this
      ensures ok ==> id in old(rows) && rows == old(rows) - {id} && timers == old(timers) - {id}
      ensures !ok && id in old(rows) ==>
                && id in rows && rows == old(rows)[id := old(rows)[id].(state := rows[id].state)]
                && (hasCopies ==> W() == old(W()))
                && (removal.Works? && !hasCopies && marked ==>
                     rows[id].state == Pending && timers == old(timers) - {id})
                && (removal.Fails? && !hasCopies ==> rows[id].state == (if marked then Error else old(rows)[id].state))
      ensures id !in old(rows) ==> !ok && W() == old(W())
      ensures old(NoOrphans(rows, timers)) ==> NoOrphans(rows, timers)
    {
      if id !in rows || hasCopies { return false; }
      if removal.Fails? {
        timers := PutTimer(timers, id, removal.left);
        if marked { rows := rows[id := rows[id].(state := Error)]; }
        return false;
      }
      timers := timers - {id};
      if !marked { return false; }
      rows := rows[id := rows[id].(state := Pending)];
      if !deleted { return false; }
      rows := rows - {id};
      return true;
    }
  }
}
