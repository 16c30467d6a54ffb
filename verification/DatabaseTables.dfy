/**
 The rows behind managed database users (internal/modules/databases/store.go):
 users with a committed and a pending secret, databases with an owner, grants.
 Each function is one SQL statement; Store runs them in place.
 */
module DatabaseTables {
  import opened Wrappers

  type Id = nat
  type Secret = nat

  datatype Status = Applying | Active | Failed | Deleting | PlanReady

  datatype User = User(server: Id, status: Status, committed: Option<Secret>, pending: Option<Secret>)

  datatype Database = Database(server: Id, owner: Id, status: Status)

  datatype Grant = Grant(database: Id, user: Id, status: Status, createdAt: int)

  datatype Tables = Tables(users: map<Id, User>, databases: map<Id, Database>, grants: map<Id, Grant>)

  // ----- statements on users -----

  function SetUser(t: Tables, u: Id, row: User): Tables {
    if u in t.users then t.(users := t.users[u := row]) else t
  }

  function SetPending(t: Tables, u: Id, secret: Secret): Tables {
    if u in t.users then SetUser(t, u, t.users[u].(pending := Some(secret), status := Applying)) else t
  }

  /** SwapUserCredential: the pending secret becomes the committed one. */
  function SwapCredential(t: Tables, u: Id): Tables {
    if u in t.users then SetUser(t, u, t.users[u].(committed := t.users[u].pending, pending := None, status := Active))
    else t
  }

  function AbandonPending(t: Tables, u: Id): Tables {
    if u in t.users then SetUser(t, u, t.users[u].(pending := None, status := Active)) else t
  }

  function SetUserStatus(t: Tables, u: Id, status: Status): Tables {
    if u in t.users then SetUser(t, u, t.users[u].(status := status)) else t
  }

  /** failResource on a user: one that has a working secret falls back to it. */
  function FailUser(t: Tables, u: Id): Tables {
    if u in t.users && t.users[u].committed.Some? then AbandonPending(t, u) else SetUserStatus(t, u, Failed)
  }

  function DeleteUser(t: Tables, u: Id): Tables {
    t.(users := t.users - {u})
  }

  // ----- statements on databases and grants -----

  function SetOwner(t: Tables, d: Id, owner: Id): Tables {
    if d in t.databases then t.(databases := t.databases[d := t.databases[d].(owner := owner)]) else t
  }

  function SetDatabaseStatus(t: Tables, d: Id, status: Status): Tables {
    if d in t.databases then t.(databases := t.databases[d := t.databases[d].(status := status)]) else t
  }

  function DeleteDatabase(t: Tables, d: Id): Tables {
    t.(databases := t.databases - {d})
  }

  function SetGrantStatus(t: Tables, g: Id, status: Status): Tables {
    if g in t.grants then t.(grants := t.grants[g := t.grants[g].(status := status)]) else t
  }

  function DeleteGrant(t: Tables, g: Id): Tables {
    t.(grants := t.grants - {g})
  }

  function DeleteGrantsForUser(t: Tables, u: Id): Tables {
    t.(grants := map g | g in t.grants && t.grants[g].user != u :: t.grants[g])
  }

  function DeleteGrantsForDatabase(t: Tables, d: Id): Tables {
    t.(grants := map g | g in t.grants && t.grants[g].database != d :: t.grants[g])
  }

  // ----- ownership -----

  datatype Transfer = Transfer(database: Id, newOwner: Id)

  /** An item of userDatabasesFor: a database the user owns, with its heir, or one it only holds a grant on. */
  datatype UserDatabase = UserDatabase(database: Id, newOwner: Option<Id>)

  /** The items commitDrop acts on. */
  function Transfers(items: seq<UserDatabase>): seq<Transfer> {
    if items == [] then [] else Handed(items[0]) + Transfers(items[1..])
  }

  function Handed(item: UserDatabase): seq<Transfer> {
    if item.newOwner.Some? then [Transfer(item.database, item.newOwner.value)] else []
  }

  lemma {:induction false} TransfersAppend(items: seq<UserDatabase>, item: UserDatabase)
    ensures Transfers(items + [item]) == Transfers(items) + Handed(item)
    decreases |items|
  {
    if items == [] {
      assert [] + [item] == [item] && [item][1..] == [];
    } else {
      assert (items + [item])[1..] == items[1..] + [item];
      TransfersAppend(items[1..], item);
      assert Handed(items[0]) + (Transfers(items[1..]) + Handed(item))
             == Handed(items[0]) + Transfers(items[1..]) + Handed(item);
    }
  }

  /** The user owns this database or holds a grant on it. */
  ghost predicate Touches(t: Tables, u: Id, d: Id) {
    d in t.databases
      && (t.databases[d].owner == u || exists g :: g in t.grants && t.grants[g].user == u && t.grants[g].database == d)
  }

  ghost predicate Listed(items: seq<UserDatabase>, d: Id) {
    exists k :: 0 <= k < |items| && items[k].database == d
  }

  ghost predicate NoRepeats(items: seq<UserDatabase>) {
    forall j, k :: 0 <= j < k < |items| ==> items[j].database != items[k].database
  }

  ghost predicate AllTouched(t: Tables, u: Id, items: seq<UserDatabase>) {
    forall k :: 0 <= k < |items| ==> Touches(t, u, items[k].database)
  }

  /** Every database the user touches, once. */
  ghost predicate ListsTouched(t: Tables, u: Id, items: seq<UserDatabase>) {
    AllTouched(t, u, items) && (forall d :: Touches(t, u, d) ==> Listed(items, d)) && NoRepeats(items)
  }

  /** One more item lists one more database. */
  lemma ListedAppend(items: seq<UserDatabase>, item: UserDatabase, d: Id)
    ensures Listed(items + [item], d) <==> Listed(items, d) || item.database == d
  {
    var all := items + [item];
    if Listed(items, d) {
      var k :| 0 <= k < |items| && items[k].database == d;
      assert all[k].database == d;
    }
    if item.database == d { assert all[|items|].database == d; }
  }

  lemma NoRepeatsAppend(items: seq<UserDatabase>, item: UserDatabase)
    requires NoRepeats(items) && !Listed(items, item.database)
    ensures NoRepeats(items + [item])
  {
  }

  lemma AllTouchedAppend(t: Tables, u: Id, items: seq<UserDatabase>, item: UserDatabase)
    requires AllTouched(t, u, items) && Touches(t, u, item.database)
    ensures AllTouched(t, u, items + [item])
  {
  }

  predicate Owns(t: Tables, u: Id, d: Id) {
    d in t.databases && t.databases[d].owner == u
  }

  predicate OtherGrant(t: Tables, d: Id, u: Id, g: Id) {
    g in t.grants && t.grants[g].database == d && t.grants[g].user != u
  }

  /** FindReplacementGrant may return any other user's grant that is not younger than another one. */
  ghost predicate Replaces(t: Tables, d: Id, u: Id, g: Id) {
    OtherGrant(t, d, u, g) && forall h :: OtherGrant(t, d, u, h) ==> t.grants[g].createdAt <= t.grants[h].createdAt
  }

  /** guardUserRemovable: nobody's only user goes. */
  ghost predicate Removable(t: Tables, u: Id) {
    forall d :: Owns(t, u, d) ==> exists g :: OtherGrant(t, d, u, g)
  }

  /** Item k of the plan hands its database to the user of a replacement grant. */
  ghost predicate Hands(t: Tables, u: Id, transfer: Transfer) {
    && Owns(t, u, transfer.database)
    && transfer.newOwner in t.users
    && exists g :: Replaces(t, transfer.database, u, g) && t.grants[g].user == transfer.newOwner
  }

  /** The owned part of userDatabasesFor: every owned database once, with its heir. */
  ghost predicate PlansFor(t: Tables, u: Id, transfers: seq<Transfer>) {
    && (forall k :: 0 <= k < |transfers| ==> Hands(t, u, transfers[k]))
    && (forall d :: Owns(t, u, d) ==> exists k :: 0 <= k < |transfers| && transfers[k].database == d)
    && (forall j, k :: 0 <= j < k < |transfers| ==> transfers[j].database != transfers[k].database)
  }

  /** The ownership loop of commitDrop. */
  function HandOver(t: Tables, transfers: seq<Transfer>): Tables
    decreases |transfers|
  {
    if transfers == [] then t else HandOver(SetOwner(t, transfers[0].database, transfers[0].newOwner), transfers[1..])
  }

  /** commitDrop for a user, uninterrupted. */
  function CommitDropUser(t: Tables, u: Id, transfers: seq<Transfer>): Tables {
    DeleteUser(DeleteGrantsForUser(HandOver(t, transfers), u), u)
  }

  ghost predicate OwnersExist(t: Tables) {
    forall d :: d in t.databases ==> t.databases[d].owner in t.users
  }

  lemma {:induction false} HandOverOwners(t: Tables, transfers: seq<Transfer>, d: Id)
    requires d in t.databases
    requires forall j, k :: 0 <= j < k < |transfers| ==> transfers[j].database != transfers[k].database
    ensures HandOver(t, transfers).users == t.users && HandOver(t, transfers).grants == t.grants
    ensures HandOver(t, transfers).databases.Keys == t.databases.Keys
    ensures (forall k :: 0 <= k < |transfers| ==> transfers[k].database != d) ==>
              HandOver(t, transfers).databases[d] == t.databases[d]
    ensures forall k :: 0 <= k < |transfers| && transfers[k].database == d ==>
              HandOver(t, transfers).databases[d] == t.databases[d].(owner := transfers[k].newOwner)
    decreases |transfers|
  {
    if transfers != [] {
      var rest := transfers[1..];
      HandOverOwners(SetOwner(t, transfers[0].database, transfers[0].newOwner), rest, d);
      forall k | 1 <= k < |transfers| ensures transfers[k] == rest[k - 1] { }
    }
  }

  /** Dropping a user by its plan leaves every database owned by an existing user, and takes nothing else away. */
  lemma CommitDropKeepsOwners(t: Tables, u: Id, transfers: seq<Transfer>)
    requires OwnersExist(t) && PlansFor(t, u, transfers)
    ensures OwnersExist(CommitDropUser(t, u, transfers))
    ensures CommitDropUser(t, u, transfers).databases.Keys == t.databases.Keys
    ensures forall d :: d in t.databases && t.databases[d].owner != u ==>
              CommitDropUser(t, u, transfers).databases[d] == t.databases[d]
  {
    var t' := CommitDropUser(t, u, transfers);
    if transfers == [] {
    } else {
      HandOverOwners(t, transfers, transfers[0].database);
    }
    forall d | d in t.databases
      ensures d in t'.databases && t'.databases[d].owner in t'.users
              && (t.databases[d].owner != u ==> t'.databases[d] == t.databases[d])
    {
      HandOverOwners(t, transfers, d);
      if t.databases[d].owner == u {
        assert Owns(t, u, d);
        var k :| 0 <= k < |transfers| && transfers[k].database == d;
        assert Hands(t, u, transfers[k]);
      } else {
        forall k | 0 <= k < |transfers| ensures transfers[k].database != d { assert Hands(t, u, transfers[k]); }
      }
    }
  }
}
