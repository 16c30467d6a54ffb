/**
 The loops of internal/modules/databases/drops.go over rows updated in place.
 What a SELECT returns is a parameter, with the query's meaning as its requires.
 */
module DatabaseStore {
  import opened Wrappers
  import opened DatabaseTables

  class Store {
    var users: map<Id, User>
    var databases: map<Id, Database>
    var grants: map<Id, Grant>

    function T(): Tables
      reads this
    {
      Tables(users, databases, grants)
    }

    constructor ()
      ensures T() == Tables(map[], map[], map[])
    {
      users, databases, grants := map[], map[], map[];
    }

    // ----- one statement each -----

    method SwapUserCredential(u: Id)
      modifies this
      ensures T() == SwapCredential(old(T()), u)
      ensures u in old(users) ==>
                users[u].committed == old(users)[u].pending && users[u].pending == None && users[u].status == Active
    {
      if u in users {
        users := users[u := users[u].(committed := users[u].pending, pending := None, status := Active)];
      }
    }

    method AbandonUserPendingCredential(u: Id)
      modifies this
      ensures T() == AbandonPending(old(T()), u)
      ensures u in old(users) ==>
                users[u].committed == old(users)[u].committed && users[u].pending == None && users[u].status == Active
    {
      if u in users { users := users[u := users[u].(pending := None, status := Active)]; }
    }

    /** failResource for a user. */
    method FailResource(u: Id)
      modifies this
      ensures T() == FailUser(old(T()), u)
      ensures u in users && users[u].status == Active ==> users[u].committed.Some?
    {
      if u in users && users[u].committed.Some? {
        AbandonUserPendingCredential(u);
        return;
      }
      if u in users { users := users[u := users[u].(status := Failed)]; }
    }

    method SetDatabaseOwner(d: Id, owner: Id)
      modifies this`databases
      ensures T() == SetOwner(old(T()), d, owner)
    {
      if d in databases { databases := databases[d := databases[d].(owner := owner)]; }
    }

    // ----- the loops -----

    /** `owned` is what ListDatabasesOwnedBy returns, `counts` what CountOtherGrants returns for each row. */
    method GuardUserRemovable(u: Id, owned: seq<Id>, counts: map<Id, nat>) returns (ok: bool)
      requires forall d :: Owns(T(), u, d) <==> d in owned
      requires forall d :: d in owned ==> d in counts && (counts[d] > 0 <==> exists g :: OtherGrant(T(), d, u, g))
      ensures ok <==> Removable(T(), u)
    {
      for i := 0 to |owned|
        invariant forall k :: 0 <= k < i ==> counts[owned[k]] > 0
      {
        if counts[owned[i]] == 0 {
          assert Owns(T(), u, owned[i]);
          return false;
        }
      }
      forall d | Owns(T(), u, d) ensures exists g :: OtherGrant(T(), d, u, g) {
        var k :| 0 <= k < |owned| && owned[k] == d;
        assert counts[owned[k]] > 0;
      }
      return true;
    }

    /** The loop over the owned databases: one item each, in order, with the heir. */
    method OwnedItems(u: Id, owned: seq<Id>, heirs: map<Id, Id>) returns (r: Option<seq<UserDatabase>>)
      requires forall d :: d in owned ==> Owns(T(), u, d)
      requires forall d :: d in owned && d in heirs ==> Replaces(T(), d, u, heirs[d])
      ensures r.Some? <==>
                forall k :: 0 <= k < |owned| ==>
                    owned[k] in heirs && heirs[owned[k]] in grants && grants[heirs[owned[k]]].user in users
      ensures r.Some? ==> |r.value| == |owned| == |Transfers(r.value)|
      ensures r.Some? ==> forall k :: 0 <= k < |owned| ==>
                r.value[k].database == owned[k] == Transfers(r.value)[k].database
                  && Hands(T(), u, Transfers(r.value)[k])
    {
      var items: seq<UserDatabase> := [];
      for i := 0 to |owned|
        invariant |items| == i == |Transfers(items)|
        invariant forall k :: 0 <= k < i ==>
                    items[k].database == owned[k] == Transfers(items)[k].database && Hands(T(), u, Transfers(items)[k])
        invariant forall k :: 0 <= k < i ==> owned[k] in heirs && grants[heirs[owned[k]]].user in users
      {
        var d := owned[i];
        if d !in heirs { return None; }
        if grants[heirs[d]].user !in users { return None; }
        assert Replaces(T(), d, u, heirs[d]);
        TransfersAppend(items, UserDatabase(d, Some(grants[heirs[d]].user)));
        items := items + [UserDatabase(d, Some(grants[heirs[d]].user))];
      }
      return Some(items);
    }

    /**
     The loop over the user's grants: the databases not seen yet, without an heir; one that is gone is passed
     over.
     */
    method GrantedItems(u: Id, before: seq<UserDatabase>, granted: seq<Id>) returns (items: seq<UserDatabase>)
      requires forall g :: g in granted ==> g in grants && grants[g].user == u
      requires NoRepeats(before) && AllTouched(T(), u, before)
      ensures Transfers(items) == Transfers(before) && NoRepeats(items) && AllTouched(T(), u, items)
      ensures forall d :: Listed(before, d) ==> Listed(items, d)
      ensures forall g :: g in granted && grants[g].database in databases ==> Listed(items, grants[g].database)
    {
      items := before;
      var seen := set k | 0 <= k < |before| :: before[k].database;
      assert forall d :: d in seen <==> Listed(before, d);
      for i := 0 to |granted|
        invariant Transfers(items) == Transfers(before) && NoRepeats(items) && AllTouched(T(), u, items)
        invariant forall d :: d in seen <==> Listed(items, d)
        invariant forall d :: Listed(before, d) ==> Listed(items, d)
        invariant forall k :: 0 <= k < i && grants[granted[k]].database in databases ==>
                    Listed(items, grants[granted[k]].database)
      {
        var d := grants[granted[i]].database;
        if d in seen { continue; }
        if d !in databases { continue; }
        AppendItem(u, items, d, granted[i]);
        items := items + [UserDatabase(d, None)];
        seen := seen + {d};
      }
    }

    lemma AppendItem(u: Id, items: seq<UserDatabase>, d: Id, g: Id)
      requires NoRepeats(items) && AllTouched(T(), u, items) && !Listed(items, d)
      requires g in grants && grants[g].user == u && grants[g].database == d && d in databases
      ensures
        var more := items + [UserDatabase(d, None)];
        && Transfers(more) == Transfers(items) && NoRepeats(more) && AllTouched(T(), u, more)
        && forall e :: Listed(more, e) <==> Listed(items, e) || e == d
    {
      var item := UserDatabase(d, None);
      TransfersAppend(items, item);
      NoRepeatsAppend(items, item);
      AllTouchedAppend(T(), u, items, item);
      forall e ensures Listed(items + [item], e) <==> Listed(items, e) || e == d {
        ListedAppend(items, item, e);
      }
    }

    lemma ListedAreAll(u: Id, granted: seq<Id>, items: seq<UserDatabase>)
      requires forall g :: g in grants && grants[g].user == u ==> g in granted
      requires forall d :: Owns(T(), u, d) ==> Listed(items, d)
      requires forall g :: g in granted && g in grants && grants[g].database in databases ==>
                 Listed(items, grants[g].database)
      ensures forall d :: Touches(T(), u, d) ==> Listed(items, d)
    {
      forall d | Touches(T(), u, d) ensures Listed(items, d) {
        if databases[d].owner == u { assert Owns(T(), u, d); }
      }
    }

    lemma OwnedAreListed(u: Id, owned: seq<Id>, items: seq<UserDatabase>)
      requires forall d :: Owns(T(), u, d) <==> d in owned
      requires forall j, k :: 0 <= j < k < |owned| ==> owned[j] != owned[k]
      requires |items| == |owned| && forall k :: 0 <= k < |owned| ==> items[k].database == owned[k]
      ensures NoRepeats(items) && AllTouched(T(), u, items)
      ensures forall d :: Owns(T(), u, d) ==> Listed(items, d)
    {
      forall k | 0 <= k < |items| ensures Touches(T(), u, items[k].database) {
        assert Owns(T(), u, owned[k]);
      }
      forall d | Owns(T(), u, d) ensures Listed(items, d) {
        var k :| 0 <= k < |owned| && owned[k] == d;
        assert items[k].database == d;
      }
    }

    lemma HandedAreAll(u: Id, owned: seq<Id>, transfers: seq<Transfer>)
      requires forall d :: Owns(T(), u, d) ==> d in owned
      requires forall j, k :: 0 <= j < k < |owned| ==> owned[j] != owned[k]
      requires |transfers| == |owned| && forall k :: 0 <= k < |owned| ==>
                 transfers[k].database == owned[k] && Hands(T(), u, transfers[k])
      ensures PlansFor(T(), u, transfers)
    {
      forall d | Owns(T(), u, d) ensures exists k :: 0 <= k < |transfers| && transfers[k].database == d {
        var k :| 0 <= k < |owned| && owned[k] == d;
        assert transfers[k].database == d;
      }
    }

    /**
     `owned` is what ListDatabasesOwnedBy returns, `heirs` what FindReplacementGrant returns for
     each of them that has another grant, `granted` what ListGrantsForUser returns.
     */
    method UserDatabasesFor(u: Id, owned: seq<Id>, heirs: map<Id, Id>,
                            granted: seq<Id>) returns (r: Option<seq<UserDatabase>>)
      requires forall d :: Owns(T(), u, d) <==> d in owned
      requires forall j, k :: 0 <= j < k < |owned| ==> owned[j] != owned[k]
      requires forall d :: d in owned ==> (d in heirs <==> exists g :: OtherGrant(T(), d, u, g))
      requires forall d :: d in owned && d in heirs ==> Replaces(T(), d, u, heirs[d])
      requires forall g :: g in granted <==> g in grants && grants[g].user == u
      ensures r.Some? ==> PlansFor(T(), u, Transfers(r.value)) && ListsTouched(T(), u, r.value)
      ensures r.Some? <==>
                forall d :: Owns(T(), u, d) ==> d in heirs && heirs[d] in grants && grants[heirs[d]].user in users
    {
      r := OwnedItems(u, owned, heirs);
      if r.None? {
        ghost var k :| 0 <= k < |owned|
          && !(owned[k] in heirs && heirs[owned[k]] in grants && grants[heirs[owned[k]]].user in users);
        assert Owns(T(), u, owned[k]);
        return;
      }
      HandedAreAll(u, owned, Transfers(r.value));
      OwnedAreListed(u, owned, r.value);
      var items := GrantedItems(u, r.value, granted);
      ListedAreAll(u, granted, items);
      r := Some(items);
    }

    /** commitDrop for a user: the items with an heir first, then its grants, then the row. */
    method CommitDrop(u: Id, items: seq<UserDatabase>)
      modifies this
      ensures T() == CommitDropUser(old(T()), u, Transfers(items))
      ensures old(OwnersExist(T()) && PlansFor(T(), u, Transfers(items))) ==> OwnersExist(T())
    {
      ghost var t := T();
      for i := 0 to |items|
        invariant users == t.users && grants == t.grants
        invariant HandOver(T(), Transfers(items[i..])) == HandOver(t, Transfers(items))
      {
        assert items[i..][0] == items[i] && items[i..][1..] == items[i + 1..];
        if items[i].newOwner.None? {
          assert Transfers(items[i..]) == [] + Transfers(items[i + 1..]) == Transfers(items[i + 1..]);
          continue;
        }
        assert Transfers(items[i..])[1..] == Transfers(items[i + 1..]);
        SetDatabaseOwner(items[i].database, items[i].newOwner.value);
      }
      grants := map g | g in grants && grants[g].user != u :: grants[g];
      users := users - {u};
      if OwnersExist(t) && PlansFor(t, u, Transfers(items)) { CommitDropKeepsOwners(t, u, Transfers(items)); }
    }
  }
}
