/**
 SSH changes on any number of sites, interleaved with SFTP operations, failing
 calls, lost replies and crashes.

 The mutex lets one SSH change be in flight. SFTP operations hold no mutex: they
 read the SSH row, apply to the node and record afterwards, in separate steps.
 The two operators' applies do not overlap in time.
 */
module SshProtocol {
  import opened Wrappers
  import opened SshNode
  import opened SshAccess

  type Thread = nat

  /** transact between its commit and its return. */
  datatype Change =
    | Driving(site: SiteId, before: Snapshot, enabled: bool)
    | Undoing(site: SiteId, before: Snapshot)

  /** provision, ProvisionPendingCredentials and disableHTTP between their steps. */
  datatype Sftp = Applying(site: SiteId, enabled: bool) | Recording(site: SiteId, enabled: bool)

  /**
   `diverged` are the sites for which a refused change left a mark: on the node, or on rows that were not put
   back.
   */
  datatype State = State(tables: Tables, nodes: map<SiteId, Node>, change: Option<Change>,
                         sftp: map<Thread, Sftp>, sftpRows: map<SiteId, bool>, diverged: set<SiteId>)

  datatype Step =
    | ChangeSsh(site: SiteId, mutation: Mutation)
    | Drive(failing: set<Call>, lost: bool)
    | Undo(ok: bool)
    | SftpStart(thread: Thread, site: SiteId, enabled: bool)
    | SftpApply(thread: Thread, failing: set<Call>)
    | SftpRecord(thread: Thread, ok: bool)
    | Crash

  function NodeOf(s: State, site: SiteId): Node {
    if site in s.nodes then s.nodes[site] else OFF
  }

  /** Take the mutex, snapshot, mutate and commit. */
  function DoChange(s: State, site: SiteId, m: Mutation): State {
    if s.change.Some? then s
    else
      match Mutate(s.tables, site, m)
      case None => s
      case Some(t) =>
        var intent := IntentOf(t, site, m);
        s.(tables := t,
          change := if intent.drive then Some(Driving(site, SnapshotOf(s.tables, site), intent.enabled)) else None)
  }

  /** The node call; its reply may be lost after the node did the work. */
  function DoDrive(s: State, failing: set<Call>, lost: bool): State {
    if s.change.None? || !s.change.value.Driving? then s
    else
      var Driving(site, before, enabled) := s.change.value;
      var (node, reply) := ApplySsh(NodeOf(s, site), enabled, Installable(s.tables, site), failing);
      var driven := s.(nodes := s.nodes[site := node]);
      if reply == Done && !lost then driven.(change := None, diverged := s.diverged - {site})
      else
        driven.(change := Some(Undoing(site, before)), diverged := if node
          == NodeOf(s, site) then s.diverged else s.diverged + {site})
  }

  function DoUndo(s: State, ok: bool): State {
    if s.change.None? || !s.change.value.Undoing? then s
    else
      var Undoing(site, before) := s.change.value;
      if ok then s.(tables := Restored(s.tables, site, before), change := None)
      else s.(change := None, diverged := s.diverged + {site})
  }

  /** The panel's own check comes first and only for switching SFTP on. */
  function DoSftpStart(s: State, th: Thread, site: SiteId, enabled: bool): State {
    if th in s.sftp || (enabled && site in s.tables.access && s.tables.access[site].enabled) then s
    else s.(sftp := s.sftp[th := Applying(site, enabled)])
  }

  function DoSftpApply(s: State, th: Thread, failing: set<Call>): State {
    if th !in s.sftp || !s.sftp[th].Applying? then s
    else
      var Applying(site, enabled) := s.sftp[th];
      var (node, reply) := ApplySftp(NodeOf(s, site), enabled, failing);
      s.(nodes := s.nodes[site := node], sftp := if reply
        == Done then s.sftp[th := Recording(site, enabled)] else s.sftp - {th})
  }

  function DoSftpRecord(s: State, th: Thread, ok: bool): State {
    if th !in s.sftp || !s.sftp[th].Recording? then s
    else
      s.(sftp := s.sftp - {th},
        sftpRows := if ok then s.sftpRows[s.sftp[th].site := s.sftp[th].enabled] else s.sftpRows)
  }

  /** The process ends; a change in flight is neither driven nor undone. */
  function DoCrash(s: State): State {
    s.(change := None, sftp := map[],
      diverged := if s.change.Some? then s.diverged + {s.change.value.site} else s.diverged)
  }

  function Next(s: State, step: Step): State {
    match step
    case ChangeSsh(site, m) => DoChange(s, site, m)
    case Drive(failing, lost) => DoDrive(s, failing, lost)
    case Undo(ok) => DoUndo(s, ok)
    case SftpStart(th, site, enabled) => DoSftpStart(s, th, site, enabled)
    case SftpApply(th, failing) => DoSftpApply(s, th, failing)
    case SftpRecord(th, ok) => DoSftpRecord(s, th, ok)
    case Crash => DoCrash(s)
  }

  function Exec(s: State, run: seq<Step>): State
    decreases |run|
  {
    if run == [] then s else Exec(Next(s, run[0]), run[1..])
  }

  function Initial(): State {
    State(Tables(map[], map[]), map[], None, map[], map[], {})
  }

  // ----- invariants -----

  ghost predicate NeverBoth(s: State) {
    forall site :: site in s.nodes ==> Exclusive(s.nodes[site])
  }

  predicate RowEnabled(t: Tables, site: SiteId) {
    site in t.access && t.access[site].enabled
  }

  /** The rows and the node say the same about a site; a site that is off has no keys installed. */
  predicate Agrees(t: Tables, node: Node, site: SiteId) {
    Matches(node, RowEnabled(t, site), Installable(t, site))
  }

  /** Between the commit and the answer it is the snapshot the node agrees with. */
  ghost predicate AgreeInv(s: State) {
    forall site :: site !in s.diverged ==>
      if s.change.Some? && s.change.value.site == site
      then Agrees(Restored(s.tables, site, s.change.value.before), NodeOf(s, site), site)
      else Agrees(s.tables, NodeOf(s, site), site)
  }

  /** A change that is driven asks for what its committed row says. */
  ghost predicate ChangeInv(s: State) {
    s.change.Some? ==>
      && BelongsTo(s.tables, s.change.value.site, s.change.value.before)
      && (s.change.value.Driving? ==> s.change.value.enabled == RowEnabled(s.tables, s.change.value.site))
  }

  /** The snapshot holds keys of its site only, and no other site has taken their ids. */
  ghost predicate BelongsTo(t: Tables, site: SiteId, before: Snapshot) {
    && (forall k :: k in before.keys ==> before.keys[k].site == site)
    && (forall k :: k in before.keys && k in t.keys ==> t.keys[k].site == site)
  }

  ghost predicate Inv(s: State) {
    NeverBoth(s) && AgreeInv(s) && ChangeInv(s)
  }

  lemma MutateIsLocal(t: Tables, site: SiteId, m: Mutation, other: SiteId)
    requires Mutate(t, site, m).Some? && other != site
    ensures
      var t' := Mutate(t, site, m).value;
      RowEnabled(t', other) == RowEnabled(t, other) && Installable(t', other) == Installable(t, other)
  {
    var t' := Mutate(t, site, m).value;
    forall k ensures (k in t'.keys && t'.keys[k].site == other) == (k in t.keys && t.keys[k].site == other) { }
    forall k | k in t.keys && t.keys[k].site == other ensures t'.keys[k] == t.keys[k] { }
    forall key ensures key in Installable(t', other) <==> key in Installable(t, other) {
      if key in Installable(t, other) {
        var k :| k in t.keys && t.keys[k].site == other && t.keys[k].key == key;
        assert t'.keys[k].key == key;
      }
    }
  }

  /** The intent of a change that is driven is its row. */
  lemma IntentIsRow(t: Tables, site: SiteId, m: Mutation)
    requires Mutate(t, site, m).Some?
    ensures
      var t' := Mutate(t, site, m).value;
      var intent := IntentOf(t', site, m);
      && (intent.drive ==> intent.enabled == RowEnabled(t', site))
      && (!intent.drive ==> !RowEnabled(t', site) && !RowEnabled(t, site))
  {
  }

  lemma RestoredIsLocal(t: Tables, site: SiteId, before: Snapshot, other: SiteId)
    requires other != site && BelongsTo(t, site, before)
    ensures RowEnabled(Restored(t, site, before), other) == RowEnabled(t, other)
    ensures Installable(Restored(t, site, before), other) == Installable(t, other)
  {
  }

  lemma ChangeKeepsInv(s: State, site: SiteId, m: Mutation)
    requires Inv(s)
    ensures Inv(DoChange(s, site, m))
  {
    if s.change.None? && Mutate(s.tables, site, m).Some? {
      IntentIsRow(s.tables, site, m);
      RestoreUndoesMutate(s.tables, site, m);
      forall other | other != site ensures
        var t' := Mutate(s.tables, site, m).value;
        RowEnabled(t', other) == RowEnabled(s.tables, other) && Installable(t', other) == Installable(s.tables, other)
      {
        MutateIsLocal(s.tables, site, m, other);
      }
    }
  }

  lemma DriveKeepsInv(s: State, failing: set<Call>, lost: bool)
    requires Inv(s)
    ensures Inv(DoDrive(s, failing, lost))
  {
    if s.change.Some? && s.change.value.Driving? {
      var Driving(site, before, enabled) := s.change.value;
      var keys := Installable(s.tables, site);
      OperatorsStayExclusive(NodeOf(s, site), enabled, keys, failing);
      if ApplySsh(NodeOf(s, site), enabled, keys, failing).1 == Done {
        DoneMatches(NodeOf(s, site), enabled, keys, failing);
      }
    }
  }

  lemma UndoKeepsInv(s: State, ok: bool)
    requires Inv(s)
    ensures Inv(DoUndo(s, ok))
  {
    if s.change.Some? && s.change.value.Undoing? {
      var Undoing(site, before) := s.change.value;
      forall other | other != site ensures
        RowEnabled(Restored(s.tables, site, before), other) == RowEnabled(s.tables, other)
        && Installable(Restored(s.tables, site, before), other) == Installable(s.tables, other)
      {
        RestoredIsLocal(s.tables, site, before, other);
      }
    }
  }

  lemma SftpKeepsInv(s: State, th: Thread, failing: set<Call>)
    requires Inv(s)
    ensures Inv(DoSftpApply(s, th, failing))
  {
  }

  lemma StepKeepsInv(s: State, step: Step)
    requires Inv(s)
    ensures Inv(Next(s, step))
  {
    match step
    case ChangeSsh(site, m) => ChangeKeepsInv(s, site, m);
    case Drive(failing, lost) => DriveKeepsInv(s, failing, lost);
    case Undo(ok) => UndoKeepsInv(s, ok);
    case SftpApply(th, failing) => SftpKeepsInv(s, th, failing);
    case _ => assert Next(s, step).tables == s.tables && Next(s, step).nodes == s.nodes;
  }

  lemma {:induction false} ExecKeepsInv(s: State, run: seq<Step>)
    requires Inv(s)
    ensures Inv(Exec(s, run))
    decreases |run|
  {
    if run != [] {
      StepKeepsInv(s, run[0]);
      ExecKeepsInv(Next(s, run[0]), run[1..]);
    }
  }

  /** No account ever has both an SSH login and an SFTP jail, whatever interleaves, fails or crashes. */
  lemma NeverLoginAndJail(run: seq<Step>, site: SiteId)
    ensures Exclusive(NodeOf(Exec(Initial(), run), site))
  {
    ExecKeepsInv(Initial(), run);
  }

  /** With no SSH change in flight the panel's row and key set are the node's, unless a refused change left a mark. */
  lemma PanelMatchesNode(run: seq<Step>, site: SiteId)
    requires
      var s := Exec(Initial(), run);
      site !in s.diverged && (s.change.Some? ==> s.change.value.site != site)
    ensures
      var s := Exec(Initial(), run);
      var node := NodeOf(s, site);
      && node.dropIn == RowEnabled(s.tables, site) && node.shell == node.dropIn
      && node.keys == (if RowEnabled(s.tables, site) then Some(Installable(s.tables, site)) else None)
  {
    ExecKeepsInv(Initial(), run);
  }


  /** The next change the node accepts repairs a diverged site. */
  lemma AcceptedChangeHeals(s: State, failing: set<Call>)
    requires Inv(s) && s.change.Some? && s.change.value.Driving?
    ensures
      var site := s.change.value.site;
      var s' := Next(s, Drive(failing, false));
      s'.change.None? ==> site !in s'.diverged && Agrees(s'.tables, NodeOf(s', site), site)
  {
  }

  // ----- what a refused change leaves -----

  /** The node call is refused, or its reply is lost. */
  predicate Refused(s: State, failing: set<Call>, lost: bool)
    requires s.change.Some? && s.change.value.Driving?
  {
    var Driving(site, _, enabled) := s.change.value;
    lost || ApplySsh(NodeOf(s, site), enabled, Installable(s.tables, site), failing).1 != Done
  }

  /** The node as the call of the change in flight finds it is left exactly as it was. */
  predicate Atomic(s: State, failing: set<Call>)
    requires s.change.Some? && s.change.value.Driving?
  {
    var Driving(site, _, enabled) := s.change.value;
    LeavesAsWas(NodeOf(s, site), enabled, Installable(s.tables, site), failing)
  }

  /**
   After a refused change whose rows were put back, the panel claims what the node
   has exactly when the refused call left the node as it was.
   */
  lemma RefusalAgreesIff(s: State, failing: set<Call>, lost: bool)
    requires Inv(s) && s.change.Some? && s.change.value.Driving?
    requires s.change.value.site !in s.diverged && Refused(s, failing, lost)
    ensures
      var site := s.change.value.site;
      var s' := Next(Next(s, Drive(failing, lost)), Undo(true));
      && s'.change.None? && s'.tables == Restored(s.tables, site, s.change.value.before)
      && (Agrees(s'.tables, NodeOf(s', site), site) <==> Atomic(s, failing))
  {
    var Driving(site, before, enabled) := s.change.value;
    ApplyLeavesIff(NodeOf(s, site), enabled, Installable(s.tables, site), failing);
  }

  /** This step leaves a mark on the site: a refusal that changed the node, a failing restore, or a crash mid-change. */
  predicate Marks(s: State, step: Step, site: SiteId) {
    && s.change.Some? && s.change.value.site == site
    && match step
       case Drive(failing, lost) => s.change.value.Driving? && Refused(s, failing, lost) && !Atomic(s, failing)
       case Undo(ok) => s.change.value.Undoing? && !ok
       case Crash => true
       case _ => false
  }

  /** This step is a change of the site that the node accepts. */
  predicate Heals(s: State, step: Step, site: SiteId) {
    && s.change.Some? && s.change.value.Driving? && s.change.value.site == site
    && step.Drive? && !Refused(s, step.failing, step.lost)
  }

  lemma DivergedIff(s: State, step: Step, site: SiteId)
    ensures site in Next(s, step).diverged <==> Marks(s, step, site) || (site in s.diverged && !Heals(s, step, site))
  {
    if step.Drive? && s.change.Some? && s.change.value.Driving? {
      var Driving(on, _, enabled) := s.change.value;
      ApplyLeavesIff(NodeOf(s, on), enabled, Installable(s.tables, on), step.failing);
    }
  }

  predicate NeverMarks(s: State, run: seq<Step>, site: SiteId)
    decreases |run|
  {
    run == [] || (!Marks(s, run[0], site) && NeverMarks(Next(s, run[0]), run[1..], site))
  }

  lemma {:induction false} NothingDiverges(s: State, run: seq<Step>, site: SiteId)
    requires site !in s.diverged && NeverMarks(s, run, site)
    ensures site !in Exec(s, run).diverged
    decreases |run|
  {
    if run != [] {
      DivergedIff(s, run[0], site);
      NothingDiverges(Next(s, run[0]), run[1..], site);
    }
  }

  /**
   When every refused call on a site leaves its node alone, every restore of its rows
   succeeds and no crash falls into one of its changes, then its row and key set are
   the node's whenever none of its changes is in flight, whatever SFTP does beside it.
   */
  lemma PanelMatchesAtomicNode(run: seq<Step>, site: SiteId)
    requires NeverMarks(Initial(), run, site)
    requires
      var s := Exec(Initial(), run);
      s.change.Some? ==> s.change.value.site != site
    ensures
      var s := Exec(Initial(), run);
      var node := NodeOf(s, site);
      && node.dropIn == RowEnabled(s.tables, site) && node.shell == node.dropIn
      && node.keys == (if RowEnabled(s.tables, site) then Some(Installable(s.tables, site)) else None)
  {
    NothingDiverges(Initial(), run, site);
    PanelMatchesNode(run, site);
  }

  lemma {:induction false} ExecConcat(s: State, a: seq<Step>, b: seq<Step>)
    ensures Exec(s, a + b) == Exec(Exec(s, a), b)
    decreases |a|
  {
    if a == [] {
      assert a + b == b;
    } else {
      assert (a + b)[1..] == a[1..] + b;
      ExecConcat(Next(s, a[0]), a[1..], b);
    }
  }

  lemma ExecTwo(s: State, one: Step, two: Step)
    ensures Exec(s, [one, two]) == Next(Next(s, one), two)
  {
    assert [one, two][1..] == [two] && [two][1..] == [];
    assert Exec(Next(s, one), [two]) == Next(Next(s, one), two);
  }

  const ON_ROW := Access(true, Some(0), 0)
  const ON_NODE := Node(true, Some({}), true, false)

  /** A site with access on and no keys, by its row and on its node. */
  function SwitchedOn(site: SiteId): State {
    State(Tables(map[site := ON_ROW], map[]), map[site := ON_NODE], None, map[], map[], {})
  }

  lemma SwitchingOnHappens(site: SiteId)
    ensures Exec(Initial(), [ChangeSsh(site, SetEnabled(true, 0)), Drive({}, false)]) == SwitchedOn(site)
  {
    var change := ChangeSsh(site, SetEnabled(true, 0));
    ExecTwo(Initial(), change, Drive({}, false));
    var s := Next(Initial(), change);
    assert KeysOf(Initial().tables, site) == map[] && Installable(s.tables, site) == {};
    assert s.tables == Tables(map[site := ON_ROW], map[]);
    assert ApplySsh(OFF, true, {}, {}) == (ON_NODE, Done);
  }

  /** The key change is committed, the reload fails, and the rollback takes the drop-in and the keys away. */
  function CutOff(site: SiteId, key: Key): State {
    State(Tables(map[site := ON_ROW], map[0 := KeyRow(site, 0, key)]), map[site := Node(false, None, true, false)],
          Some(Undoing(site, Snapshot(Some(ON_ROW), map[]))), map[], map[], {site})
  }

  lemma CuttingOffHappens(site: SiteId, key: Key)
    ensures Exec(SwitchedOn(site), [ChangeSsh(site, AddKey(0, 0, key)), Drive({Reload}, false)]) == CutOff(site, key)
  {
    var change := ChangeSsh(site, AddKey(0, 0, key));
    ExecTwo(SwitchedOn(site), change, Drive({Reload}, false));
    var s := Next(SwitchedOn(site), change);
    assert KeysOf(SwitchedOn(site).tables, site) == map[];
    assert s.tables.keys == map[0 := KeyRow(site, 0, key)];
    assert Installable(s.tables, site) == {key} by { assert s.tables.keys[0].key == key; }
    assert s.change == Some(Driving(site, Snapshot(Some(ON_ROW), map[]), true));
  }

  /** A refused key change, put back, after which the panel claims an access the node no longer has. */
  lemma RefusalMayCutAccess(site: SiteId, key: Key) returns (run: seq<Step>)
    ensures
      var s := Exec(Initial(), run);
      s.change.None? && RowEnabled(s.tables, site) && !NodeOf(s, site).dropIn && NodeOf(s, site).keys.None?
    ensures Crash !in run && Undo(false) !in run
  {
    run := [ChangeSsh(site, SetEnabled(true, 0)), Drive({}, false)];
    SwitchingOnHappens(site);
    var refused := [ChangeSsh(site, AddKey(0, 0, key)), Drive({Reload}, false)];
    CuttingOffHappens(site, key);
    ExecConcat(Initial(), run, refused);
    ExecConcat(Initial(), run + refused, [Undo(true)]);
    assert [Undo(true)][1..] == [];
    assert Exec(CutOff(site, key), [Undo(true)]) == Next(CutOff(site, key), Undo(true));
    run := run + refused + [Undo(true)];
  }

  // ----- what an accepted change leaves -----

  /** The keys of the site's rows. */
  ghost function KeysIn(rows: map<KeyId, KeyRow>, site: SiteId): set<Key> {
    set k | k in rows && rows[k].site == site :: rows[k].key
  }

  /** On a site that is on, a removed key's row goes, and the node is left with exactly the remaining rows' keys. */
  lemma RemovedKeyIsGone(s: State, site: SiteId, id: KeyId)
    requires Inv(s) && s.change.None? && site !in s.diverged && RowEnabled(s.tables, site)
    requires id in s.tables.keys && s.tables.keys[id].site == site
    ensures
      var s' := Next(Next(s, ChangeSsh(site, RemoveKey(id))), Drive({}, false));
      && s'.change.None? && s'.tables.access == s.tables.access && s'.tables.keys == s.tables.keys - {id}
      && NodeOf(s', site).dropIn && NodeOf(s', site).keys == Some(KeysIn(s.tables.keys - {id}, site))
  {
    var s1 := Next(s, ChangeSsh(site, RemoveKey(id)));
    assert Agrees(s.tables, NodeOf(s, site), site) && Exclusive(NodeOf(s, site));
    assert Installable(s1.tables, site) == KeysIn(s.tables.keys - {id}, site);
  }

  /**
   A key with a new fingerprint gets the row asked for, and the node of a site that is on then holds it beside
   the others.
   */
  lemma AddedKeyIsInstalled(s: State, site: SiteId, id: KeyId, fingerprint: nat, key: Key)
    requires Inv(s) && s.change.None? && site !in s.diverged && RowEnabled(s.tables, site) && id !in s.tables.keys
    requires forall k :: k in s.tables.keys && s.tables.keys[k].site == site ==>
               s.tables.keys[k].fingerprint != fingerprint
    ensures
      var s' := Next(Next(s, ChangeSsh(site, AddKey(id, fingerprint, key))), Drive({}, false));
      var rows := s.tables.keys[id := KeyRow(site, fingerprint, key)];
      && s'.change.None? && s'.tables.access == s.tables.access && s'.tables.keys == rows
      && NodeOf(s', site).dropIn && NodeOf(s', site).keys == Some(KeysIn(s.tables.keys, site) + {key})
  {
    var s1 := Next(s, ChangeSsh(site, AddKey(id, fingerprint, key)));
    var rows := s.tables.keys[id := KeyRow(site, fingerprint, key)];
    assert Agrees(s.tables, NodeOf(s, site), site) && Exclusive(NodeOf(s, site));
    assert s1.tables.keys == rows;
    AddedKeysAre(s.tables.keys, site, id, KeyRow(site, fingerprint, key));
  }

  lemma AddedKeysAre(rows: map<KeyId, KeyRow>, site: SiteId, id: KeyId, row: KeyRow)
    requires id !in rows && row.site == site
    ensures KeysIn(rows[id := row], site) == KeysIn(rows, site) + {row.key}
  {
    var more := rows[id := row];
    forall key ensures key in KeysIn(more, site) <==> key in KeysIn(rows, site) || key == row.key {
      if key in KeysIn(rows, site) {
        var k :| k in rows && rows[k].site == site && rows[k].key == key;
        assert more[k] == rows[k];
      }
      if key == row.key { assert more[id].key == key; }
    }
  }

  /** Keys of a site that is off are only kept in rows: the node is not called. */
  lemma KeysOfAnOffSiteWait(s: State, site: SiteId, m: Mutation)
    requires s.change.None? && !RowEnabled(s.tables, site) && !m.SetEnabled?
    ensures Next(s, ChangeSsh(site, m)).nodes == s.nodes && Next(s, ChangeSsh(site, m)).change.None?
  {
  }

  /** Switching on installs exactly the site's keys; switching off takes drop-in, keys and shell away. */
  lemma SwitchedAsAsked(s: State, site: SiteId, enabled: bool, now: int)
    requires s.change.None? && (enabled ==> !NodeOf(s, site).jail)
    ensures
      var s' := Next(Next(s, ChangeSsh(site, SetEnabled(enabled, now))), Drive({}, false));
      && s'.change.None? && s'.tables.keys == s.tables.keys && RowEnabled(s'.tables, site) == enabled
      && NodeOf(s', site).dropIn == enabled && NodeOf(s', site).shell == enabled
      && NodeOf(s', site).keys == (if enabled then Some(KeysIn(s.tables.keys, site)) else None)
  {
    var s1 := Next(s, ChangeSsh(site, SetEnabled(enabled, now)));
    assert Installable(s1.tables, site) == KeysIn(s.tables.keys, site);
  }

  /** Switching SFTP on is refused before the node is asked while the site's SSH row is on. */
  lemma SftpIsRefusedBesideSsh(s: State, th: Thread, site: SiteId)
    requires RowEnabled(s.tables, site)
    ensures Next(s, SftpStart(th, site, true)) == s
  {
  }

  /** An SFTP operation that runs through leaves the jail and the recorded row as asked, and the SSH side as it was. */
  lemma SftpLeavesAsAsked(s: State, th: Thread, site: SiteId, enabled: bool)
    requires th !in s.sftp && (enabled ==> !RowEnabled(s.tables, site) && !NodeOf(s, site).dropIn)
    ensures
      var s' := Next(Next(Next(s, SftpStart(th, site, enabled)), SftpApply(th, {})), SftpRecord(th, true));
      && s'.sftpRows == s.sftpRows[site := enabled] && NodeOf(s', site) == NodeOf(s, site).(jail := enabled)
      && s'.tables == s.tables
  {
    var s1 := Next(s, SftpStart(th, site, enabled));
    var s2 := Next(s1, SftpApply(th, {}));
    assert s1.sftp[th] == Applying(site, enabled) && s2.sftp[th] == Recording(site, enabled);
  }

  // ----- since when access is on -----

  /**
   Rows and the snapshot in flight say since when access is on exactly when it is on, and where both are on
   they say the same.
   */
  ghost predicate SinceInv(s: State) {
    && SinceOk(s.tables)
    && (s.change.Some? && s.change.value.before.access.Some? ==>
          var row := s.change.value.before.access.value;
          && SinceRow(row)
          && (row.enabled && RowEnabled(s.tables, s.change.value.site) ==>
               s.tables.access[s.change.value.site].enabledAt == row.enabledAt))
  }

  lemma ChangeKeepsSince(s: State, site: SiteId, m: Mutation)
    requires SinceInv(s)
    ensures SinceInv(DoChange(s, site, m))
  {
    if m.SetEnabled? { EnabledSince(s.tables, site, m.enabled, m.now); }
  }

  lemma StepKeepsSince(s: State, step: Step)
    requires SinceInv(s)
    ensures SinceInv(Next(s, step))
  {
    match step
    case ChangeSsh(site, m) => ChangeKeepsSince(s, site, m);
    case Undo(ok) =>
    case _ => assert Next(s, step).tables == s.tables;
  }

  /** A step that leaves access on leaves its time alone, even when it restores a snapshot. */
  lemma StepKeepsTime(s: State, step: Step, site: SiteId)
    requires SinceInv(s) && RowEnabled(s.tables, site) && RowEnabled(Next(s, step).tables, site)
    ensures Next(s, step).tables.access[site].enabledAt == s.tables.access[site].enabledAt
  {
  }

  lemma {:induction false} ExecKeepsSince(s: State, run: seq<Step>)
    requires SinceInv(s)
    ensures SinceInv(Exec(s, run))
    decreases |run|
  {
    if run != [] {
      StepKeepsSince(s, run[0]);
      ExecKeepsSince(Next(s, run[0]), run[1..]);
    }
  }

  /** In every run a row says since when access is on exactly when it is on. */
  lemma OnSinceInEveryRun(run: seq<Step>, site: SiteId)
    requires site in Exec(Initial(), run).tables.access
    ensures SinceRow(Exec(Initial(), run).tables.access[site])
  {
    ExecKeepsSince(Initial(), run);
  }

  predicate StaysOn(s: State, run: seq<Step>, site: SiteId)
    decreases |run|
  {
    RowEnabled(s.tables, site) && (run == [] || StaysOn(Next(s, run[0]), run[1..], site))
  }

  lemma {:induction false} TimeStays(s: State, run: seq<Step>, site: SiteId)
    requires SinceInv(s) && StaysOn(s, run, site)
    ensures RowEnabled(Exec(s, run).tables, site)
            && Exec(s, run).tables.access[site].enabledAt == s.tables.access[site].enabledAt
    decreases |run|
  {
    if run != [] {
      StepKeepsSince(s, run[0]);
      assert RowEnabled(Next(s, run[0]).tables, site) by { assert StaysOn(Next(s, run[0]), run[1..], site); }
      StepKeepsTime(s, run[0], site);
      TimeStays(Next(s, run[0]), run[1..], site);
    }
  }

  /**
   From any point of any run on, as long as access stays on its time does not move, whatever is changed,
   refused or put back.
   */
  lemma OnTimeStays(before: seq<Step>, run: seq<Step>, site: SiteId)
    requires StaysOn(Exec(Initial(), before), run, site)
    ensures
      var s := Exec(Initial(), before);
      var s' := Exec(s, run);
      site in s.tables.access && site in s'.tables.access
        && s'.tables.access[site].enabledAt == s.tables.access[site].enabledAt
  {
    ExecKeepsSince(Initial(), before);
    TimeStays(Exec(Initial(), before), run, site);
  }
}
