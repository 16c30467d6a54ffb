/**
 The panel's side of SSH access: internal/modules/deploy/ssh.go and support.go.
 Rows are committed first, the node is driven second, and the rows are put back
 when the node refuses. Keys are compared as sets; the order of the
 authorized-keys file is not part of this model.
 */
module SshAccess {
  import opened Wrappers
  import opened SshNode

  type SiteId = nat
  type KeyId = nat

  /** One site_ssh_access row; username and shell follow from the site and from enabled. */
  datatype Access = Access(enabled: bool, enabledAt: Option<int>, updatedAt: int)

  datatype KeyRow = KeyRow(site: SiteId, fingerprint: nat, key: Key)

  datatype Tables = Tables(access: map<SiteId, Access>, keys: map<KeyId, KeyRow>)

  /** sshState: everything the panel holds for one site. */
  datatype Snapshot = Snapshot(access: Option<Access>, keys: map<KeyId, KeyRow>)

  function KeysOf(t: Tables, site: SiteId): map<KeyId, KeyRow> {
    map k | k in t.keys && t.keys[k].site == site :: t.keys[k]
  }

  function Installable(t: Tables, site: SiteId): set<Key> {
    set k | k in t.keys && t.keys[k].site == site :: t.keys[k].key
  }

  function SnapshotOf(t: Tables, site: SiteId): Snapshot {
    Snapshot(if site in t.access then Some(t.access[site]) else None, KeysOf(t, site))
  }

  // ----- the three mutations -----

  datatype Mutation =
    | SetEnabled(enabled: bool, now: int)
    | AddKey(id: KeyId, fingerprint: nat, key: Key)
    | RemoveKey(id: KeyId)

  datatype Intent = Intent(enabled: bool, drive: bool)

  /** enabled_at is kept from the first time access was switched on. */
  function Upserted(previous: Option<Access>, enabled: bool, now: int): Access {
    if !enabled then Access(false, None, now)
    else
      Access(true, if previous.Some?
        && previous.value.enabledAt.Some? then previous.value.enabledAt else Some(now), now)
  }

  /**
   The rows after the transaction, or None when the mutation refuses. Deleting a key that is gone by now
   deletes nothing.
   */
  function Mutate(t: Tables, site: SiteId, m: Mutation): Option<Tables> {
    match m
    case SetEnabled(enabled, now) =>
      Some(t.(access := t.access[site := Upserted(SnapshotOf(t, site).access, enabled, now)]))
    case AddKey(id, fingerprint, key) =>
      if id in t.keys || exists k :: k in t.keys && t.keys[k].site == site && t.keys[k].fingerprint == fingerprint then
        None
      else Some(t.(keys := t.keys[id := KeyRow(site, fingerprint, key)]))
    case RemoveKey(id) =>
      Some(if id in t.keys && t.keys[id].site == site then t.(keys := t.keys - {id}) else t)
  }

  /** What the node must be driven to: key changes on a site that is off have nothing to install. */
  function IntentOf(t: Tables, site: SiteId, m: Mutation): Intent {
    match m
    case SetEnabled(enabled, _) => Intent(enabled, true)
    case _ => if site in t.access then Intent(t.access[site].enabled, t.access[site].enabled) else Intent(false, false)
  }

  // ----- putting the rows back -----

  function WithoutKeysOf(t: Tables, site: SiteId): Tables {
    t.(keys := map k | k in t.keys && t.keys[k].site != site :: t.keys[k])
  }

  /** Replaces the site's keys by the snapshot's, then puts its access row back or takes it away. */
  function Restored(t: Tables, site: SiteId, before: Snapshot): Tables {
    var cleared := WithoutKeysOf(t, site);
    Tables(if before.access.Some? then t.access[site := before.access.value] else t.access - {site},
      cleared.keys + before.keys)
  }

  /** Whatever the mutation was, putting the snapshot back gives every row of every site its old value. */
  lemma RestoreUndoesMutate(t: Tables, site: SiteId, m: Mutation)
    requires Mutate(t, site, m).Some?
    ensures Restored(Mutate(t, site, m).value, site, SnapshotOf(t, site)) == t
  {
    var t' := Mutate(t, site, m).value;
    var back := Restored(t', site, SnapshotOf(t, site));
    forall k ensures k in back.keys <==> k in t.keys { }
    assert back.keys == t.keys;
    assert back.access == t.access;
  }

  /** A row says since when access is on exactly when it is on. */
  predicate SinceRow(row: Access) {
    row.enabled <==> row.enabledAt.Some?
  }

  ghost predicate SinceOk(t: Tables) {
    forall site :: site in t.access ==> SinceRow(t.access[site])
  }

  /** Switching on keeps the first time access was switched on; switching off forgets it; no other site's row moves. */
  lemma EnabledSince(t: Tables, site: SiteId, enabled: bool, now: int)
    requires SinceOk(t)
    ensures
      var t' := Mutate(t, site, SetEnabled(enabled, now)).value;
      && SinceOk(t') && t'.keys == t.keys && t'.access[site].enabled == enabled
      && (enabled && site in t.access && t.access[site].enabled ==>
           t'.access[site].enabledAt == t.access[site].enabledAt)
      && (enabled && (site !in t.access || !t.access[site].enabled) ==> t'.access[site].enabledAt == Some(now))
      && (forall other :: other != site ==>
           (other in t'.access <==> other in t.access) && (other in t.access ==> t'.access[other] == t.access[other]))
  {
  }

  // ----- the same in place, with the node beside it -----

  class Panel {
    var access: map<SiteId, Access>
    var keys: map<KeyId, KeyRow>
    var nodes: map<SiteId, Node>

    function T(): Tables
      reads this
    {
      Tables(access, keys)
    }

    constructor ()
      ensures T() == Tables(map[], map[]) && nodes == map[]
    {
      access, keys, nodes := map[], map[], map[];
    }

    method Upsert(site: SiteId, enabled: bool, now: int)
      modifies this`access
      ensures T() == Mutate(old(T()), site, SetEnabled(enabled, now)).value
    {
      var enabledAt := None;
      if enabled {
        enabledAt := Some(now);
        if site in access && access[site].enabledAt.Some? { enabledAt := access[site].enabledAt; }
      }
      access := access[site := Access(enabled, enabledAt, now)];
    }

    method InsertKey(site: SiteId, id: KeyId, fingerprint: nat, key: Key) returns (ok: bool)
      modifies this`keys
      ensures ok == Mutate(old(T()), site, AddKey(id, fingerprint, key)).Some?
      ensures T() == if ok then Mutate(old(T()), site, AddKey(id, fingerprint, key)).value else old(T())
    {
      if id in keys || exists k :: k in keys && keys[k].site == site && keys[k].fingerprint == fingerprint {
        return false;
      }
      keys := keys[id := KeyRow(site, fingerprint, key)];
      return true;
    }

    method Restore(site: SiteId, before: Snapshot)
      modifies this`access, this`keys
      ensures T() == Restored(old(T()), site, before)
    {
      keys := map k | k in keys && keys[k].site != site :: keys[k];
      keys := keys + before.keys;
      if before.access.None? {
        access := access - {site};
      } else {
        access := access[site := before.access.value];
      }
    }

    method ApplyMutation(site: SiteId, m: Mutation) returns (ok: bool)
      modifies this`access, this`keys
      ensures ok == Mutate(old(T()), site, m).Some?
      ensures T() == if ok then Mutate(old(T()), site, m).value else old(T())
    {
      match m
      case SetEnabled(enabled, now) =>
        Upsert(site, enabled, now);
        ok := true;
      case AddKey(id, fingerprint, key) =>
        ok := InsertKey(site, id, fingerprint, key);
      case RemoveKey(id) =>
        if id in keys && keys[id].site == site { keys := keys - {id}; }
        ok := true;
    }

    /**
     transact, with nothing interleaving: an accepted change leaves the node
     matching the new rows whenever it was driven, a refused one leaves every row as it was.
     */
    method Transact(site: SiteId, m: Mutation, failing: set<Call>) returns (ok: bool)
      requires site in nodes
      modifies this
      ensures ok ==> Mutate(old(T()), site, m) == Some(T())
      ensures ok && IntentOf(T(), site, m).drive ==>
                site in nodes && Matches(nodes[site], IntentOf(T(), site, m).enabled, Installable(T(), site))
      ensures ok && !IntentOf(T(), site, m).drive ==> nodes == old(nodes)
      ensures !ok ==> T() == old(T())
      ensures ok && m.RemoveKey? ==>
                && access == old(access)
                && keys == if m.id in old(keys) && old(keys)[m.id].site == site then old(keys) - {m.id} else old(keys)
      ensures ok && m.AddKey? ==>
                && m.id !in old(keys) && keys == old(keys)[m.id := KeyRow(site, m.fingerprint, m.key)]
                && access == old(access)
      ensures ok && m.SetEnabled? ==>
                && keys == old(keys) && site in access && access[site].enabled == m.enabled
                && access - {site} == old(access) - {site}
      ensures ok && site in access && access[site].enabled ==>
                nodes[site].keys == Some(set k | k in keys && keys[k].site == site :: keys[k].key)
      ensures nodes.Keys == old(nodes).Keys && forall other :: other in nodes && other != site ==>
                nodes[other] == old(nodes)[other]
    {
      ghost var rows := T();
      var before := SnapshotOf(T(), site);
      var mutated := ApplyMutation(site, m);
      if !mutated { return false; }
      var intent := IntentOf(T(), site, m);
      if intent.drive {
        var (node, reply) := ApplySsh(nodes[site], intent.enabled, Installable(T(), site), failing);
        if reply == Done { DoneMatches(nodes[site], intent.enabled, Installable(T(), site), failing); }
        nodes := nodes[site := node];
        if reply != Done {
          Restore(site, before);
          RestoreUndoesMutate(rows, site, m);
          return false;
        }
      }
      return true;
    }
  }
}
