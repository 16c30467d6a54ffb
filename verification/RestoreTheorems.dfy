/** What a restore plan depends on, and what it guarantees. */
module RestoreTheorems {
  import opened Wrappers
  import opened Text
  import opened RestorePlan

  // ----- the sort: a strict weak order whose ties agree on both keys -----

  lemma BeforeIsTotal(a: Selection, b: Selection)
    ensures Before(a, b) || Before(b, a) || SameKeys(a, b)
    ensures !(Before(a, b) && Before(b, a))
  {
    LessIsTotal(a.entry, b.entry);
    LessIsTotal(a.destination, b.destination);
  }

  lemma TailOf(a: seq<Selection>)
    requires a != [] && Sorted(a)
    ensures Sorted(a[1..]) && multiset(a) == multiset{a[0]} + multiset(a[1..])
  {
    assert a == [a[0]] + a[1..];
  }

  /** The heads of two sortings of the same selections agree on both keys. */
  lemma HeadsAgree(a: seq<Selection>, b: seq<Selection>)
    requires Sorted(a) && Sorted(b) && multiset(a) == multiset(b) && a != [] && b != []
    ensures SameKeys(a[0], b[0])
  {
    assert a[0] in multiset(b) && b[0] in multiset(a);
    BeforeIsTotal(a[0], b[0]);
  }

  lemma JudgeIgnoresClear(kind: Kind, known: map<string, CopyEntry>, env: Env, used: Used, s: Selection, t: Selection)
    requires SameKeys(s, t)
    ensures Judge(kind, known, env, used, s) == Judge(kind, known, env, used, t)
    ensures Judge(kind, known, env, used, s).Ok? ==>
              Mark(used, s, Judge(kind, known, env, used, s).value)
                == Mark(used, t, Judge(kind, known, env, used, t).value)
  {
  }

  /** A second selection with the same two keys is always refused as a duplicate entry. */
  lemma RepeatIsRefused(kind: Kind, known: map<string, CopyEntry>, env: Env, used: Used, s: Selection, t: Selection,
                        rest: seq<Selection>)
    requires SameKeys(s, t) && Judge(kind, known, env, used, s).Ok?
    ensures Walk(kind, known, env, Mark(used, s, Judge(kind, known, env, used, s).value), [t] + rest)
            == Refused(DuplicateEntry)
  {
  }

  /**
   When a sorted list begins with s and holds another selection with the same keys, the second element has
   those keys.
   */
  lemma NextHasSameKeys(a: seq<Selection>, t: Selection)
    requires Sorted(a) && a != [] && t in a && t != a[0] && SameKeys(a[0], t)
    ensures |a| > 1 && SameKeys(a[0], a[1])
  {
    var j :| 0 <= j < |a| && a[j] == t;
    BeforeIsTotal(a[0], a[1]);
    BeforeIsTotal(a[1], a[j]);
  }

  lemma HeadTwiceIsRefused(kind: Kind, known: map<string, CopyEntry>, env: Env, used: Used, a: seq<Selection>,
                           t: Selection)
    requires Sorted(a) && a != [] && t in a && t != a[0] && SameKeys(a[0], t)
    ensures Judge(kind, known, env, used, a[0]).Ok? ==> Walk(kind, known, env, used, a) == Refused(DuplicateEntry)
  {
    NextHasSameKeys(a, t);
    if Judge(kind, known, env, used, a[0]).Ok? {
      RepeatIsRefused(kind, known, env, used, a[0], a[1], a[2..]);
      assert a[1..] == [a[1]] + a[2..];
    }
  }

  lemma TailsMatch(a: seq<Selection>, b: seq<Selection>)
    requires Sorted(a) && Sorted(b) && multiset(a) == multiset(b) && a != [] && b != [] && a[0] == b[0]
    ensures Sorted(a[1..]) && Sorted(b[1..]) && multiset(a[1..]) == multiset(b[1..])
  {
    TailOf(a);
    TailOf(b);
    assert multiset(a[1..]) == multiset(a) - multiset{a[0]};
    assert multiset(b[1..]) == multiset(b) - multiset{a[0]};
  }

  /** Sortings that differ in their heads are refused alike. */
  lemma DifferentHeadsAreRefused(kind: Kind, known: map<string, CopyEntry>, env: Env, used: Used, a: seq<Selection>,
                                 b: seq<Selection>)
    requires Sorted(a) && Sorted(b) && multiset(a) == multiset(b) && a != [] && b != [] && a[0] != b[0]
    ensures Walk(kind, known, env, used, a) == Walk(kind, known, env, used, b)
    ensures Walk(kind, known, env, used, a).Refused?
  {
    HeadsAgree(a, b);
    assert b[0] in multiset(a) && a[0] in multiset(b);
    JudgeIgnoresClear(kind, known, env, used, a[0], b[0]);
    HeadTwiceIsRefused(kind, known, env, used, a, b[0]);
    HeadTwiceIsRefused(kind, known, env, used, b, a[0]);
  }

  /** The loop gives the same items or the same refusal for every order an unstable sort may produce. */
  lemma {:induction false} WalkIgnoresOrder(kind: Kind, known: map<string, CopyEntry>, env: Env, used: Used,
                                            a: seq<Selection>, b: seq<Selection>)
    requires Sorted(a) && Sorted(b) && multiset(a) == multiset(b)
    ensures Walk(kind, known, env, used, a) == Walk(kind, known, env, used, b)
    ensures Walk(kind, known, env, used, a).Ok? ==> a == b
    decreases |a|
  {
    assert |a| == |multiset(a)| == |multiset(b)| == |b|;
    if a != [] {
      if a[0] == b[0] {
        TailsMatch(a, b);
        var judged := Judge(kind, known, env, used, a[0]);
        if judged.Ok? {
          WalkIgnoresOrder(kind, known, env, Mark(used, a[0], judged.value), a[1..], b[1..]);
          assert a == [a[0]] + a[1..] && b == [b[0]] + b[1..];
        }
      } else {
        DifferentHeadsAreRefused(kind, known, env, used, a, b);
      }
    }
  }

  /**
   Two requests with the same trimmed selections, in whatever order and however
   the unstable sort breaks ties, give the same plan and digest or the same refusal.
   */
  lemma BuildIgnoresOrder(codec: Codec, env: Env, copy: CopyRow, one: Choices, other: Choices, a: Choices, b: Choices)
    ensures SameSelections(one, other) && Normalises(one, a) && Normalises(other, b) ==>
              BuildSorted(codec, env, copy, a) == BuildSorted(codec, env, copy, b)
  {
    if SameSelections(one, other) && Normalises(one, a) && Normalises(other, b) {
      SortingsAgree(codec, env, copy, a, b);
    }
  }

  lemma SortingsAgree(codec: Codec, env: Env, copy: CopyRow, a: Choices, b: Choices)
    requires Sorted(a.sites) && Sorted(b.sites) && multiset(a.sites) == multiset(b.sites)
    requires Sorted(a.databases) && Sorted(b.databases) && multiset(a.databases) == multiset(b.databases)
    requires a.allowUnverified == b.allowUnverified
    ensures BuildSorted(codec, env, copy, a) == BuildSorted(codec, env, copy, b)
  {
    assert |a.sites| == |multiset(a.sites)| == |multiset(b.sites)| == |b.sites|;
    assert |a.databases| == |multiset(a.databases)| == |multiset(b.databases)| == |b.databases|;
    if Manifest(codec, copy).Ok? { WalkBothIgnoresOrder(Manifest(codec, copy).value, env, a, b); }
  }

  /** Two requests that select the same, up to order and surrounding blanks. */
  ghost predicate SameSelections(one: Choices, other: Choices) {
    && multiset(TrimAll(one.sites)) == multiset(TrimAll(other.sites))
    && multiset(TrimAll(one.databases)) == multiset(TrimAll(other.databases))
    && one.allowUnverified == other.allowUnverified
  }

  lemma WalkBothIgnoresOrder(known: map<string, CopyEntry>, env: Env, a: Choices, b: Choices)
    requires Sorted(a.sites) && Sorted(b.sites) && multiset(a.sites) == multiset(b.sites)
    requires Sorted(a.databases) && Sorted(b.databases) && multiset(a.databases) == multiset(b.databases)
    requires a.allowUnverified == b.allowUnverified
    ensures WalkBoth(known, env, a) == WalkBoth(known, env, b)
    ensures WalkBoth(known, env, a).Ok? ==> a == b
  {
    WalkIgnoresOrder(Site, known, env, Used({}, {}, {}), a.sites, b.sites);
    WalkIgnoresOrder(Database, known, env, Used(Entries(a.sites), {}, {}), a.databases, b.databases);
  }

  /** Rebuilding from a plan's own choices over unchanged state gives that plan again, so the job accepts it. */
  lemma RebuildIsIdentical(codec: Codec, env: Env, copy: CopyRow, requested: Choices, first: Choices, second: Choices)
    requires Normalises(requested, first) && Normalises(first, second)
    ensures BuildSorted(codec, env, copy, first).Ok? ==> BuildSorted(codec, env, copy, first).value.choices == first
    ensures BuildSorted(codec, env, copy, second) == BuildSorted(codec, env, copy, first)
  {
    TrimmedAgain(requested.sites, first.sites);
    TrimmedAgain(requested.databases, first.databases);
    BuildIgnoresOrder(codec, env, copy, requested, first, first, second);
  }

  lemma TrimmedAgain(given: seq<Selection>, sorted: seq<Selection>)
    requires multiset(sorted) == multiset(TrimAll(given))
    ensures TrimAll(sorted) == sorted
  {
    forall i | 0 <= i < |sorted| ensures Trimmed(sorted[i]) == sorted[i] {
      assert sorted[i] in multiset(TrimAll(given));
      var j :| 0 <= j < |given| && TrimAll(given)[j] == sorted[i];
      TrimSpaceIdempotent(given[j].entry);
      TrimSpaceIdempotent(given[j].destination);
    }
  }

  // ----- what the loop accepts, stated without a loop -----

  datatype Context = Context(kind: Kind, known: map<string, CopyEntry>, env: Env)

  const NOTHING_USED := Used({}, {}, {})

  /** The resolvers' answers to references of this kind. */
  function Answers(c: Context): map<string, Target> {
    match c.kind
    case Site => if c.env.hasSites then c.env.sites else map[]
    case Database => c.env.databases
  }

  /** The reference is "engine:id" with the engine of the entry's family. */
  ghost predicate RefersTo(ref: string, family: string) {
    (family == POSTGRES || family == MYSQL) && exists id: string :: id != "" && ref == family + ":" + id
  }

  predicate UsableSite(t: Target) {
    t.SiteTarget? && t.slug != "" && t.rootPath != "" && t.unixUser != ""
  }

  predicate UsableDatabase(t: Target, family: string) {
    && t.DatabaseTarget? && t.name != ""
    && (t.engine == family || (family == MYSQL && t.engine == MARIADB))
  }

  /** The file names of database dumps, by the family that can replay them. */
  predicate IsDumpOf(entry: string, family: string) {
    || (family == POSTGRES && HasPrefix(entry, "db-postgres-") && HasSuffix(entry, ".dump"))
    || (family == MYSQL && (HasPrefix(entry, "db-mysql-") || HasPrefix(entry, "db-mariadb-"))
       && HasSuffix(entry, ".sql"))
  }

  ghost predicate FitsFamily(c: Context, s: Selection, family: string) {
    && IsDumpOf(s.entry, family) && RefersTo(s.destination, family)
    && s.destination in Answers(c) && UsableDatabase(Answers(c)[s.destination], family)
  }

  const HEX := "0123456789abcdefABCDEF"

  predicate IsHexDigest(value: string) {
    |value| == 64 && forall c :: c in value ==> c in HEX
  }

  lemma IsHexDigestIff(value: string)
    ensures ValidSha256(value) <==> IsHexDigest(value)
  {
    forall c: char ensures c in HEX <==> '0' <= c <= '9' || 'a' <= c <= 'f' || 'A' <= c <= 'F' {
      HexDigit(c);
    }
  }

  lemma HexDigit(c: char)
    ensures c in HEX <==> '0' <= c <= '9' || 'a' <= c <= 'f' || 'A' <= c <= 'F'
  {
    var hex := ['0', '1', '2', '3', '4', '5', '6', '7', '8', '9',
                'a', 'b', 'c', 'd', 'e', 'f', 'A', 'B', 'C', 'D', 'E', 'F'];
    assert HEX == hex;
    if c in HEX {
      var i :| 0 <= i < 22 && hex[i] == c;
    }
    if '0' <= c <= '9' { assert c == hex[c as int - '0' as int]; }
    if 'a' <= c <= 'f' { assert c == hex[10 + c as int - 'a' as int]; }
    if 'A' <= c <= 'F' { assert c == hex[16 + c as int - 'A' as int]; }
  }

  /** The selection would be accepted as the only one of its request. */
  ghost predicate Alone(c: Context, s: Selection) {
    && s.entry in c.known && (c.known[s.entry].sha256 == "" || IsHexDigest(c.known[s.entry].sha256))
    && match c.kind
       case Site =>
         && HasPrefix(s.entry, "site-") && HasSuffix(s.entry, ".tar.gz") && s.destination != ""
         && s.destination in Answers(c) && UsableSite(Answers(c)[s.destination])
       case Database => exists family :: FitsFamily(c, s, family)
  }

  /** Where it goes: what the resolver answered for its reference. */
  function Goal(c: Context, s: Selection): Target
    requires s.destination in Answers(c)
  {
    Answers(c)[s.destination]
  }

  ghost predicate Free(c: Context, used: Used, s: Selection) {
    Alone(c, s) && s.entry !in used.entries && s.destination !in used.refs && Identity(Goal(c, s)) !in used.targets
  }

  /** Two selections of one request get in each other's way. */
  ghost predicate Clash(c: Context, s: Selection, t: Selection) {
    s.entry == t.entry || s.destination == t.destination
      || (Alone(c, s) && Alone(c, t) && Identity(Goal(c, s)) == Identity(Goal(c, t)))
  }

  /** Each selection is acceptable by itself and no two clash. */
  ghost predicate Fits(c: Context, used: Used, chosen: seq<Selection>) {
    && (forall i :: 0 <= i < |chosen| ==> Free(c, used, chosen[i]))
    && (forall i, j :: 0 <= i < j < |chosen| ==> !Clash(c, chosen[i], chosen[j]))
  }

  lemma DumpFamily(entry: string, family: string)
    ensures EntryFamily(entry) == Some(family) <==> IsDumpOf(entry, family)
  {
    assert POSTGRES[0] == 'p' && MYSQL[0] == 'm' && MARIADB[0] == 'm';
    if HasPrefix(entry, "db-mysql-") { assert entry[3] == 'm'; }
    if HasPrefix(entry, "db-mariadb-") { assert entry[3] == 'm'; }
    if HasPrefix(entry, "db-postgres-") { assert entry[3] == 'p'; }
  }

  lemma CompatibleRefIff(ref: string, family: string)
    ensures CompatibleRef(ref, family) <==> RefersTo(ref, family)
  {
    if CompatibleRef(ref, family) {
      var id := Cut(ref, ':').value.1;
      assert ref == family + ":" + id;
      assert RefersTo(ref, family);
    }
    if RefersTo(ref, family) {
      var id: string :| id != "" && ref == family + ":" + id;
      NoColon(family);
      CutFirst(family, id, ':');
      assert family + [':'] + id == ref;
      assert Cut(ref, ':') == Some((family, id));
    }
  }

  lemma NoColon(family: string)
    requires family == POSTGRES || family == MYSQL
    ensures ':' !in family
  {
    assert POSTGRES == ['p', 'o', 's', 't', 'g', 'r', 'e', 's'] && MYSQL == ['m', 'y', 's', 'q', 'l'];
  }

  lemma JudgeAloneDatabase(c: Context, s: Selection, family: string)
    requires c.kind == Database && EntryFamily(s.entry) == Some(family)
    ensures Judge(c.kind, c.known, c.env, NOTHING_USED, s).Ok? <==> Alone(c, s)
    ensures Alone(c, s) ==> Judge(c.kind, c.known, c.env, NOTHING_USED, s) == Ok(Goal(c, s))
  {
    if s.entry in c.known { IsHexDigestIff(c.known[s.entry].sha256); }
    forall other ensures IsDumpOf(s.entry, other) <==> other == family {
      DumpFamily(s.entry, other);
    }
    CompatibleRefIff(s.destination, family);
    if Judge(c.kind, c.known, c.env, NOTHING_USED, s).Ok? { assert FitsFamily(c, s, family); }
    if Alone(c, s) {
      var other :| FitsFamily(c, s, other);
      assert other == family;
    }
  }

  lemma JudgeAloneSite(c: Context, s: Selection)
    requires c.kind == Site
    ensures Judge(c.kind, c.known, c.env, NOTHING_USED, s).Ok? <==> Alone(c, s)
    ensures Alone(c, s) ==> Judge(c.kind, c.known, c.env, NOTHING_USED, s) == Ok(Goal(c, s))
  {
    if s.entry in c.known { IsHexDigestIff(c.known[s.entry].sha256); }
    assert Resolve(Site, c.env, s).Ok? <==> s.destination in Answers(c) && UsableSite(Answers(c)[s.destination]);
    assert Precheck(Site, c.known, NOTHING_USED, s).None? <==>
             s.entry in c.known && HasPrefix(s.entry, "site-") && HasSuffix(s.entry, ".tar.gz") && s.destination != "";
  }

  /** One round, with nothing seen before, accepts exactly what is acceptable alone, and gives the resolver's answer. */
  lemma JudgeAlone(c: Context, s: Selection)
    ensures Judge(c.kind, c.known, c.env, NOTHING_USED, s).Ok? <==> Alone(c, s)
    ensures Alone(c, s) ==> Judge(c.kind, c.known, c.env, NOTHING_USED, s) == Ok(Goal(c, s))
  {
    if c.kind == Site {
      JudgeAloneSite(c, s);
    } else if EntryFamily(s.entry).Some? {
      JudgeAloneDatabase(c, s, EntryFamily(s.entry).value);
    } else {
      forall family ensures !IsDumpOf(s.entry, family) {
        DumpFamily(s.entry, family);
      }
      assert !Alone(c, s);
    }
  }

  lemma JudgeMeansFree(c: Context, used: Used, s: Selection)
    ensures Judge(c.kind, c.known, c.env, used, s).Ok? <==> Free(c, used, s)
    ensures Free(c, used, s) ==> Judge(c.kind, c.known, c.env, used, s) == Ok(Goal(c, s))
  {
    JudgeAlone(c, s);
  }

  lemma FitsTail(c: Context, used: Used, chosen: seq<Selection>)
    requires chosen != [] && Fits(c, used, chosen)
    ensures Fits(c, Mark(used, chosen[0], Goal(c, chosen[0])), chosen[1..])
  {
  }

  lemma FitsWhole(c: Context, used: Used, chosen: seq<Selection>)
    requires chosen != [] && Free(c, used, chosen[0]) && Fits(c, Mark(used, chosen[0], Goal(c, chosen[0])), chosen[1..])
    ensures Fits(c, used, chosen)
  {
  }

  /** The item a selection becomes. */
  function ItemOf(c: Context, s: Selection): Item
    requires Alone(c, s)
  {
    Item(s.entry, c.known[s.entry].sha256, Goal(c, s), s.clear)
  }

  ghost predicate ItemsFor(c: Context, chosen: seq<Selection>, items: seq<Item>) {
    |items| == |chosen| && forall i :: 0 <= i < |chosen| ==> Alone(c, chosen[i]) && items[i] == ItemOf(c, chosen[i])
  }

  /**
   The loop succeeds exactly when every selection is acceptable and no two clash, and its items are those
   selections, resolved.
   */
  lemma {:induction false} WalkMeansFits(c: Context, used: Used, chosen: seq<Selection>)
    ensures Walk(c.kind, c.known, c.env, used, chosen).Ok? <==> Fits(c, used, chosen)
    ensures Walk(c.kind, c.known, c.env, used, chosen).Ok? ==>
              ItemsFor(c, chosen, Walk(c.kind, c.known, c.env, used, chosen).value)
    decreases |chosen|
  {
    if chosen != [] {
      JudgeMeansFree(c, used, chosen[0]);
      if Free(c, used, chosen[0]) {
        WalkMeansFits(c, Mark(used, chosen[0], Goal(c, chosen[0])), chosen[1..]);
        if Fits(c, used, chosen) {
          FitsTail(c, used, chosen);
        } else if Fits(c, Mark(used, chosen[0], Goal(c, chosen[0])), chosen[1..]) {
          FitsWhole(c, used, chosen);
        }
      }
    }
  }

  /** Two targets are the same place: one site directory, or one database of one engine at one address. */
  predicate SamePlace(one: Target, other: Target) {
    match one
    case SiteTarget(_, rootPath, _) => other.SiteTarget? && other.rootPath == rootPath
    case DatabaseTarget(engine, name, _, port, socket) =>
      other.DatabaseTarget? && other.engine == engine && other.name == name && other.port == port
        && other.socket == socket
  }

  predicate SameAddress(one: Target, other: Target) {
    && one.DatabaseTarget? && other.DatabaseTarget?
    && one.engine == other.engine && one.socket == other.socket && one.port == other.port
  }

  /** The text that is compared tells places apart, if they are directories or databases at one address. */
  lemma IdentityTells(one: Target, other: Target)
    ensures SamePlace(one, other) ==> Identity(one) == Identity(other)
    ensures one.SiteTarget? && other.SiteTarget? && Identity(one) == Identity(other) ==> SamePlace(one, other)
    ensures SameAddress(one, other) && Identity(one) == Identity(other) ==> SamePlace(one, other)
  {
    if SameAddress(one, other) && Identity(one) == Identity(other) {
      var address := one.engine + ":" + one.socket + ":" + Decimal(one.port) + ":";
      assert Identity(one) == address + one.name && Identity(other) == address + other.name;
      assert one.name == Identity(one)[|address|..];
      assert other.name == Identity(other)[|address|..];
    }
  }

  /** Items that take no archive entry twice and reach no place of their kind twice. */
  ghost predicate Disjoint(sites: seq<Item>, databases: seq<Item>) {
    && (forall i, j :: 0 <= i < j < |sites| ==>
         sites[i].entry != sites[j].entry && !SamePlace(sites[i].target, sites[j].target))
    && (forall i, j :: 0 <= i < j < |databases| ==>
          databases[i].entry != databases[j].entry && !SamePlace(databases[i].target, databases[j].target))
    && (forall i, j :: 0 <= i < |sites| && 0 <= j < |databases| ==> sites[i].entry != databases[j].entry)
  }

  lemma WalkedIsDisjoint(known: map<string, CopyEntry>, env: Env, choices: Choices)
    requires WalkBoth(known, env, choices).Ok?
    ensures
      var (sites, databases) := WalkBoth(known, env, choices).value;
      Disjoint(sites, databases) && |sites| == |choices.sites| && |databases| == |choices.databases|
  {
    var sites, databases := Context(Site, known, env), Context(Database, known, env);
    var used := Used(Entries(choices.sites), {}, {});
    WalkMeansFits(sites, NOTHING_USED, choices.sites);
    WalkMeansFits(databases, used, choices.databases);
    DisjointItems(sites, NOTHING_USED, choices.sites, WalkBoth(known, env, choices).value.0);
    DisjointItems(databases, used, choices.databases, WalkBoth(known, env, choices).value.1);
    forall i | 0 <= i < |choices.sites| ensures choices.sites[i].entry in Entries(choices.sites) { }
  }

  /**
   What an accepted plan guarantees: an uploaded copy whose integrity passed or
   whose risk was confirmed, between 1 and 128 selections, a request that was
   found valid, and items that do not get in each other's way.
   */
  lemma AcceptedPlansAreDisjoint(codec: Codec, env: Env, copy: CopyRow, choices: Choices)
    requires BuildSorted(codec, env, copy, choices).Ok?
    ensures
      var request := BuildSorted(codec, env, copy, choices).value.request;
      && copy.status == "uploaded" && (copy.integrity == "passed" || choices.allowUnverified)
      && 1 <= |request.sites| + |request.databases| <= 128 && codec.valid(request)
      && Disjoint(request.sites, request.databases)
  {
    WalkedIsDisjoint(Manifest(codec, copy).value, env, choices);
  }

  /**
   A dump is only replayed into an engine of its own family, an archive of a site only lands on a
   site, and no checksum is malformed.
   */
  predicate Compatible(kind: Kind, item: Item) {
    && (item.sha256 == "" || IsHexDigest(item.sha256))
    && match kind
       case Site => HasPrefix(item.entry, "site-") && HasSuffix(item.entry, ".tar.gz") && UsableSite(item.target)
       case Database =>
         || (IsDumpOf(item.entry, POSTGRES) && UsableDatabase(item.target, POSTGRES))
         || (IsDumpOf(item.entry, MYSQL) && UsableDatabase(item.target, MYSQL))
  }

  lemma AloneIsCompatible(c: Context, s: Selection)
    requires Alone(c, s)
    ensures Compatible(c.kind, ItemOf(c, s))
  {
  }

  lemma AcceptedItemsAreCompatible(codec: Codec, env: Env, copy: CopyRow, choices: Choices)
    requires BuildSorted(codec, env, copy, choices).Ok?
    ensures
      var request := BuildSorted(codec, env, copy, choices).value.request;
      && (forall i :: 0 <= i < |request.sites| ==> Compatible(Site, request.sites[i]))
      && (forall i :: 0 <= i < |request.databases| ==> Compatible(Database, request.databases[i]))
  {
    var known := Manifest(codec, copy).value;
    var sites := Context(Site, known, env);
    var databases := Context(Database, known, env);
    WalkMeansFits(sites, NOTHING_USED, choices.sites);
    WalkMeansFits(databases, Used(Entries(choices.sites), {}, {}), choices.databases);
    var request := BuildSorted(codec, env, copy, choices).value.request;
    forall i | 0 <= i < |request.sites| ensures Compatible(Site, request.sites[i]) {
      AloneIsCompatible(sites, choices.sites[i]);
    }
    forall i | 0 <= i < |request.databases| ensures Compatible(Database, request.databases[i]) {
      AloneIsCompatible(databases, choices.databases[i]);
    }
  }

  lemma DisjointItems(c: Context, used: Used, chosen: seq<Selection>, items: seq<Item>)
    requires Fits(c, used, chosen) && ItemsFor(c, chosen, items)
    ensures forall i, j :: 0 <= i < j < |items| ==>
              items[i].entry != items[j].entry && !SamePlace(items[i].target, items[j].target)
    ensures forall i :: 0 <= i < |items| ==> items[i].entry == chosen[i].entry && items[i].entry !in used.entries
  {
    forall i, j | 0 <= i < j < |items|
      ensures items[i].entry != items[j].entry && !SamePlace(items[i].target, items[j].target)
    {
      assert !Clash(c, chosen[i], chosen[j]);
      IdentityTells(items[i].target, items[j].target);
    }
  }

  // ----- what an accepted plan says -----

  /** The item is this selection: its entry with the manifest's checksum, and the resolver's answer to its reference. */
  ghost predicate Says(manifest: seq<CopyEntry>, answers: map<string, Target>, s: Selection, item: Item) {
    && item.entry == s.entry && item.clear == s.clear && CopyEntry(s.entry, item.sha256) in manifest
    && s.destination in answers && item.target == answers[s.destination]
  }

  /** The request is what was chosen, from this copy and its account, item by item and in order. */
  ghost predicate SaysWhatWasChosen(codec: Codec, env: Env, copy: CopyRow, choices: Choices, request: Request) {
    && request.planId == copy.planId && request.copyName == copy.copyName
    && copy.accountId in env.accounts && codec.resolve(env.accounts[copy.accountId]) == Some(request.account)
    && codec.decode(copy.entries).Some?
    && |request.sites| == |choices.sites| && |request.databases| == |choices.databases|
    && (forall i :: 0 <= i < |choices.sites| ==>
          env.hasSites && Says(codec.decode(copy.entries).value, env.sites, choices.sites[i], request.sites[i]))
    && (forall i :: 0 <= i < |choices.databases| ==>
          Says(codec.decode(copy.entries).value, env.databases, choices.databases[i], request.databases[i]))
  }

  lemma ItemsSay(c: Context, manifest: seq<CopyEntry>, used: Used, chosen: seq<Selection>)
    requires Index(manifest) == Ok(c.known) && Walk(c.kind, c.known, c.env, used, chosen).Ok?
    ensures
      var items := Walk(c.kind, c.known, c.env, used, chosen).value;
      |items| == |chosen| && forall i :: 0 <= i < |chosen| ==> Says(manifest, Answers(c), chosen[i], items[i])
  {
    WalkMeansFits(c, used, chosen);
    IndexMeansIndexable(manifest);
    var items := Walk(c.kind, c.known, c.env, used, chosen).value;
    forall i | 0 <= i < |chosen| ensures Says(manifest, Answers(c), chosen[i], items[i]) {
      var entry := c.known[chosen[i].entry];
      assert Index(manifest).value[chosen[i].entry] == entry;
      assert entry == CopyEntry(entry.name, entry.sha256);
    }
  }

  /** An accepted plan sends to the operator exactly what was chosen, resolved. */
  lemma PlanSaysWhatWasChosen(codec: Codec, env: Env, copy: CopyRow, choices: Choices)
    requires BuildSorted(codec, env, copy, choices).Ok?
    ensures
      var plan := BuildSorted(codec, env, copy, choices).value;
      plan.choices == choices && SaysWhatWasChosen(codec, env, copy, choices, plan.request)
  {
    var manifest := codec.decode(copy.entries).value;
    var known := Manifest(codec, copy).value;
    ItemsSay(Context(Site, known, env), manifest, NOTHING_USED, choices.sites);
    ItemsSay(Context(Database, known, env), manifest, Used(Entries(choices.sites), {}, {}), choices.databases);
  }

  // ----- the manifest index -----

  /** Every name is usable and no name occurs twice. */
  ghost predicate Indexable(entries: seq<CopyEntry>) {
    && (forall i :: 0 <= i < |entries| ==> !BadName(entries[i].name))
    && (forall i, j :: 0 <= i < j < |entries| ==> entries[i].name != entries[j].name)
  }

  ghost predicate Unseen(entries: seq<CopyEntry>, known: map<string, CopyEntry>) {
    forall i :: 0 <= i < |entries| ==> entries[i].name !in known
  }

  lemma IndexableStep(entries: seq<CopyEntry>, known: map<string, CopyEntry>)
    requires entries != []
    ensures Indexable(entries) && Unseen(entries, known) <==>
              && !BadName(entries[0].name) && entries[0].name !in known
              && Indexable(entries[1..]) && Unseen(entries[1..], known[entries[0].name := entries[0]])
  {
  }

  lemma {:induction false} IndexSucceeds(entries: seq<CopyEntry>, known: map<string, CopyEntry>)
    ensures IndexFrom(entries, known).Ok? <==> Indexable(entries) && Unseen(entries, known)
    decreases |entries|
  {
    if entries != [] {
      IndexableStep(entries, known);
      if !BadName(entries[0].name) && entries[0].name !in known {
        IndexSucceeds(entries[1..], known[entries[0].name := entries[0]]);
      }
    }
  }

  /** What a name is bound to in the index: its manifest entry, or what was there before. */
  lemma {:induction false} IndexBinds(entries: seq<CopyEntry>, known: map<string, CopyEntry>, name: string)
    requires IndexFrom(entries, known).Ok?
    ensures
      var index := IndexFrom(entries, known).value;
      && (name in index ==>
           (name in known && index[name] == known[name]) || (index[name] in entries && index[name].name == name))
      && (name in known ==> name in index && index[name] == known[name])
    decreases |entries|
  {
    if entries != [] { IndexBinds(entries[1..], known[entries[0].name := entries[0]], name); }
  }

  /** Every entry of the manifest is in the index, if there is one. */
  lemma {:induction false} IndexHoldsAll(entries: seq<CopyEntry>, known: map<string, CopyEntry>)
    requires IndexFrom(entries, known).Ok?
    ensures forall name :: name in IndexFrom(entries, known).value <==>
              name in known || exists e :: e in entries && e.name == name
    decreases |entries|
  {
    if entries != [] {
      IndexHoldsAll(entries[1..], known[entries[0].name := entries[0]]);
      assert forall e :: e in entries <==> e == entries[0] || e in entries[1..];
    }
  }

  /**
   A manifest is usable exactly when every name is and none occurs twice; the index then holds exactly its
   entries, under their names.
   */
  lemma IndexMeansIndexable(entries: seq<CopyEntry>)
    ensures Index(entries).Ok? <==> Indexable(entries)
    ensures Index(entries).Ok? ==> forall name :: name in Index(entries).value ==>
              Index(entries).value[name] in entries && Index(entries).value[name].name == name
    ensures Index(entries).Ok? ==> forall e :: e in entries ==> e.name in Index(entries).value
  {
    IndexSucceeds(entries, map[]);
    if Index(entries).Ok? {
      IndexHoldsAll(entries, map[]);
      forall name | name in Index(entries).value
        ensures Index(entries).value[name] in entries && Index(entries).value[name].name == name
      {
        IndexBinds(entries, map[], name);
      }
    }
  }

  // ----- which requests get a plan -----

  /** An uploaded copy in a known state whose risk was confirmed, and between 1 and 128 selections. */
  predicate Admissible(copy: CopyRow, choices: Choices) {
    && 1 <= |choices.sites| + |choices.databases| <= 128
    && copy.status == "uploaded" && copy.integrity in ["passed", "unverified", "failed"]
    && copy.restoreTest in ["not_tested", "passed", "failed"]
    && (copy.integrity == "passed" || choices.allowUnverified)
  }

  /** A usable manifest with which each selection is acceptable and no two clash. */
  ghost predicate Suitable(codec: Codec, env: Env, copy: CopyRow, choices: Choices) {
    && codec.decode(copy.entries).Some? && Index(codec.decode(copy.entries).value).Ok?
    && var known := Index(codec.decode(copy.entries).value).value;
    && Fits(Context(Site, known, env), NOTHING_USED, choices.sites)
    && Fits(Context(Database, known, env), Used(Entries(choices.sites), {}, {}), choices.databases)
  }

  lemma SaidOnce(manifest: seq<CopyEntry>, answers: map<string, Target>, s: Selection, one: Item, other: Item)
    requires Indexable(manifest) && Says(manifest, answers, s, one) && Says(manifest, answers, s, other)
    ensures one == other
  {
    var i :| 0 <= i < |manifest| && manifest[i] == CopyEntry(s.entry, one.sha256);
    var j :| 0 <= j < |manifest| && manifest[j] == CopyEntry(s.entry, other.sha256);
    assert !(i < j) && !(j < i);
  }

  /** What was chosen fixes the request. */
  lemma RequestSaidOnce(codec: Codec, env: Env, copy: CopyRow, choices: Choices, one: Request, other: Request)
    requires SaysWhatWasChosen(codec, env, copy, choices, one) && SaysWhatWasChosen(codec, env, copy, choices, other)
    requires Indexable(codec.decode(copy.entries).value)
    ensures one == other
  {
    var manifest := codec.decode(copy.entries).value;
    forall i | 0 <= i < |choices.sites| ensures one.sites[i] == other.sites[i] {
      SaidOnce(manifest, env.sites, choices.sites[i], one.sites[i], other.sites[i]);
    }
    forall i | 0 <= i < |choices.databases| ensures one.databases[i] == other.databases[i] {
      SaidOnce(manifest, env.databases, choices.databases[i], one.databases[i], other.databases[i]);
    }
    assert one.sites == other.sites && one.databases == other.databases;
  }

  lemma BothLoopsMeanSuitable(codec: Codec, env: Env, copy: CopyRow, choices: Choices)
    ensures Suitable(codec, env, copy, choices) <==>
              Manifest(codec, copy).Ok? && WalkBoth(Manifest(codec, copy).value, env, choices).Ok?
  {
    if Manifest(codec, copy).Ok? {
      var known := Manifest(codec, copy).value;
      WalkMeansFits(Context(Site, known, env), NOTHING_USED, choices.sites);
      WalkMeansFits(Context(Database, known, env), Used(Entries(choices.sites), {}, {}), choices.databases);
    }
  }

  /** Everything the build goes through before the request is checked. */
  predicate LoopsDone(codec: Codec, env: Env, copy: CopyRow, choices: Choices) {
    && Manifest(codec, copy).Ok? && Source(codec, env, copy).Ok?
    && WalkBoth(Manifest(codec, copy).value, env, choices).Ok?
  }

  function LoopsRequest(codec: Codec, env: Env, copy: CopyRow, choices: Choices): Request
    requires LoopsDone(codec, env, copy, choices)
  {
    var items := WalkBoth(Manifest(codec, copy).value, env, choices).value;
    Request(Source(codec, env, copy).value.1, copy.planId, copy.copyName, items.0, items.1)
  }

  lemma LoopsSayWhatWasChosen(codec: Codec, env: Env, copy: CopyRow, choices: Choices)
    requires LoopsDone(codec, env, copy, choices)
    ensures SaysWhatWasChosen(codec, env, copy, choices, LoopsRequest(codec, env, copy, choices))
  {
    var manifest := codec.decode(copy.entries).value;
    var known := Manifest(codec, copy).value;
    ItemsSay(Context(Site, known, env), manifest, NOTHING_USED, choices.sites);
    ItemsSay(Context(Database, known, env), manifest, Used(Entries(choices.sites), {}, {}), choices.databases);
  }

  lemma AdmitIff(copy: CopyRow, choices: Choices)
    ensures Admit(copy, |choices.sites|, |choices.databases|, choices.allowUnverified).None?
            <==> Admissible(copy, choices)
  {
  }

  lemma BuildStages(codec: Codec, env: Env, copy: CopyRow, choices: Choices)
    ensures BuildSorted(codec, env, copy, choices).Ok? <==>
              && Admissible(copy, choices) && LoopsDone(codec, env, copy, choices)
              && codec.valid(LoopsRequest(codec, env, copy, choices))
  {
    AdmitIff(copy, choices);
  }

  lemma RequestIsTheLoops(codec: Codec, env: Env, copy: CopyRow, choices: Choices, request: Request)
    requires LoopsDone(codec, env, copy, choices) && SaysWhatWasChosen(codec, env, copy, choices, request)
    ensures request == LoopsRequest(codec, env, copy, choices)
  {
    LoopsSayWhatWasChosen(codec, env, copy, choices);
    IndexMeansIndexable(codec.decode(copy.entries).value);
    RequestSaidOnce(codec, env, copy, choices, request, LoopsRequest(codec, env, copy, choices));
  }

  /**
   A request gets a plan exactly when the copy and the number of selections are admissible, the manifest is
   usable, each selection is acceptable and no two clash, and the request that says what was chosen is valid.
   */
  lemma BuildAcceptsIff(codec: Codec, env: Env, copy: CopyRow, choices: Choices)
    ensures BuildSorted(codec, env, copy, choices).Ok? <==>
              && Admissible(copy, choices) && Suitable(codec, env, copy, choices)
              && exists request :: SaysWhatWasChosen(codec, env, copy, choices, request) && codec.valid(request)
  {
    BuildStages(codec, env, copy, choices);
    BothLoopsMeanSuitable(codec, env, copy, choices);
    if BuildSorted(codec, env, copy, choices).Ok? {
      LoopsSayWhatWasChosen(codec, env, copy, choices);
    } else if Admissible(copy, choices) && Suitable(codec, env, copy, choices) {
      forall request | SaysWhatWasChosen(codec, env, copy, choices, request) ensures !codec.valid(request) {
        RequestIsTheLoops(codec, env, copy, choices, request);
      }
    }
  }
}
