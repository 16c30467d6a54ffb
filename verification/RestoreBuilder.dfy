/** The loops of buildRestorePlan, proved against the plan they have to produce. */
module RestoreBuilder {
  import opened Wrappers
  import opened Text
  import opened RestorePlan
  import opened RestoreTheorems

  method TrimInPlace(chosen: array<Selection>)
    modifies chosen
    ensures chosen[..] == TrimAll(old(chosen[..]))
  {
    ghost var given := chosen[..];
    for index := 0 to chosen.Length
      invariant chosen[..] == TrimAll(given)[..index] + given[index..]
    {
      SpliceNext(TrimAll(given), given, index);
      chosen[index] := Trimmed(chosen[index]);
    }
  }

  /** A prefix of one sequence before the rest of another grows by one element. */
  lemma SpliceNext<T>(a: seq<T>, b: seq<T>, i: nat)
    requires |a| == |b| && i < |a|
    ensures (a[..i] + b[i..])[i] == b[i]
    ensures (a[..i] + b[i..])[i := a[i]] == a[..i + 1] + b[i + 1..]
  {
  }

  /** One sort that meets the contract of sort.Slice; nothing else is used about it. */
  function Inserted(s: Selection, sorted: seq<Selection>): (r: seq<Selection>)
    ensures multiset(r) == multiset{s} + multiset(sorted)
  {
    if sorted == [] || !Before(sorted[0], s) then [s] + sorted
    else
      assert sorted == [sorted[0]] + sorted[1..];
      [sorted[0]] + Inserted(s, sorted[1..])
  }

  lemma BeforeIsTransitive(a: Selection, b: Selection, c: Selection)
    requires !Before(b, a) && !Before(c, b)
    ensures !Before(c, a)
  {
    BeforeIsTotal(a, b);
    BeforeIsTotal(b, c);
    if Before(c, a) {
      if c.entry == a.entry {
        LessIsTotal(a.entry, b.entry);
        LessIsTotal(a.destination, b.destination);
        LessIsTotal(b.destination, c.destination);
        if Less(a.destination, b.destination) && Less(b.destination, c.destination) {
          LessIsTransitive(a.destination, b.destination, c.destination);
        }
        LessIsTotal(a.destination, c.destination);
      } else {
        LessIsTotal(a.entry, c.entry);
        if Less(a.entry, b.entry) && Less(b.entry, c.entry) { LessIsTransitive(a.entry, b.entry, c.entry); }
      }
    }
  }

  lemma {:induction false} InsertedIsSorted(s: Selection, sorted: seq<Selection>)
    requires Sorted(sorted)
    ensures Sorted(Inserted(s, sorted))
  {
    var r := Inserted(s, sorted);
    if sorted == [] {
    } else if !Before(sorted[0], s) {
      forall j | 0 < j < |r| ensures !Before(r[j], r[0]) {
        if j > 1 { BeforeIsTransitive(s, sorted[0], sorted[j - 1]); }
      }
    } else {
      InsertedIsSorted(s, sorted[1..]);
      BeforeIsTotal(sorted[0], s);
      forall j | 0 < j < |r| ensures !Before(r[j], r[0]) {
        assert r[j] in multiset{s} + multiset(sorted[1..]);
      }
    }
  }

  method SortSelections(given: seq<Selection>) returns (sorted: seq<Selection>)
    ensures SortingOf(given, sorted)
  {
    sorted := [];
    for i := 0 to |given|
      invariant SortingOf(given[..i], sorted)
    {
      SortNext(given, i, sorted);
      sorted := Inserted(given[i], sorted);
    }
    assert given[..|given|] == given;
  }

  lemma SortNext(given: seq<Selection>, i: nat, sorted: seq<Selection>)
    requires i < |given| && SortingOf(given[..i], sorted)
    ensures SortingOf(given[..i + 1], Inserted(given[i], sorted))
  {
    InsertedIsSorted(given[i], sorted);
    assert given[..i + 1] == given[..i] + [given[i]];
  }

  method IndexManifest(entries: seq<CopyEntry>) returns (r: Result<map<string, CopyEntry>>)
    ensures r == Index(entries)
    ensures r.Ok? <==> Indexable(entries)
  {
    IndexMeansIndexable(entries);
    var known: map<string, CopyEntry> := map[];
    for i := 0 to |entries|
      invariant IndexFrom(entries[i..], known) == Index(entries)
    {
      if BadName(entries[i].name) { return Refused(ManifestInvalid); }
      if entries[i].name in known { return Refused(ManifestDuplicate); }
      assert entries[i..][1..] == entries[i + 1..];
      known := known[entries[i].name := entries[i]];
    }
    return Ok(known);
  }

  /** What is left of a walk after its first items were accepted. */
  function After(done: seq<Item>, rest: Result<seq<Item>>): Result<seq<Item>> {
    match rest
    case Refused(problem) => Refused(problem)
    case Ok(items) => Ok(done + items)
  }

  lemma AfterStep(kind: Kind, known: map<string, CopyEntry>, env: Env, used: Used, s: Selection, rest: seq<Selection>,
                  done: seq<Item>)
    requires Judge(kind, known, env, used, s).Ok?
    ensures
      var target := Judge(kind, known, env, used, s).value;
      After(done, Walk(kind, known, env, used, [s] + rest))
      == After(done + [Item(s.entry, known[s.entry].sha256, target, s.clear)],
         Walk(kind, known, env, Mark(used, s, target), rest))
  {
    assert ([s] + rest)[1..] == rest;
    var target := Judge(kind, known, env, used, s).value;
    var walked := Walk(kind, known, env, Mark(used, s, target), rest);
    if walked.Ok? {
      var item := Item(s.entry, known[s.entry].sha256, target, s.clear);
      assert done + ([item] + walked.value) == done + [item] + walked.value;
    }
  }

  lemma WalkFrom(kind: Kind, known: map<string, CopyEntry>, env: Env, used: Used, chosen: seq<Selection>, i: nat,
                 done: seq<Item>)
    requires i < |chosen|
    ensures
      match Judge(kind, known, env, used, chosen[i])
      case Refused(problem) => Walk(kind, known, env, used, chosen[i..]) == Refused(problem)
      case Ok(target) =>
        After(done, Walk(kind, known, env, used, chosen[i..]))
        == After(done + [Item(chosen[i].entry, known[chosen[i].entry].sha256, target, chosen[i].clear)],
                 Walk(kind, known, env, Mark(used, chosen[i], target), chosen[i + 1..]))
    ensures Entries(chosen[..i + 1]) == Entries(chosen[..i]) + {chosen[i].entry}
  {
    assert chosen[i..] == [chosen[i]] + chosen[i + 1..];
    assert chosen[..i + 1] == chosen[..i] + [chosen[i]];
    if Judge(kind, known, env, used, chosen[i]).Ok? {
      AfterStep(kind, known, env, used, chosen[i], chosen[i + 1..], done);
    }
  }

  lemma WalkEnds(kind: Kind, known: map<string, CopyEntry>, env: Env, used: Used, chosen: seq<Selection>,
                 done: seq<Item>)
    ensures chosen[0..] == chosen && chosen[..|chosen|] == chosen && chosen[|chosen|..] == []
            && Entries(chosen[..0]) == {}
    ensures After([], Walk(kind, known, env, used, chosen)) == Walk(kind, known, env, used, chosen)
    ensures After(done, Ok([])) == Ok(done)
  {
    var walked := Walk(kind, known, env, used, chosen);
    if walked.Ok? { assert [] + walked.value == walked.value; }
    assert done + [] == done;
  }

  /** One of the two loops over the selections, with the maps it fills as local variables. */
  method CheckSelections(kind: Kind, known: map<string, CopyEntry>, env: Env, entriesBefore: set<string>,
                         chosen: seq<Selection>)
    returns (r: Result<seq<Item>>, entries: set<string>)
    ensures r == Walk(kind, known, env, Used(entriesBefore, {}, {}), chosen)
    ensures r.Ok? ==> entries == entriesBefore + Entries(chosen)
  {
    var refs, targets := {}, {};
    var items := [];
    entries := entriesBefore;
    ghost var whole := Walk(kind, known, env, Used(entriesBefore, {}, {}), chosen);
    WalkEnds(kind, known, env, Used(entries, refs, targets), chosen, []);
    for i := 0 to |chosen|
      invariant After(items, Walk(kind, known, env, Used(entries, refs, targets), chosen[i..])) == whole
      invariant entries == entriesBefore + Entries(chosen[..i])
    {
      var s := chosen[i];
      var judged := Judge(kind, known, env, Used(entries, refs, targets), s);
      WalkFrom(kind, known, env, Used(entries, refs, targets), chosen, i, items);
      if judged.Refused? { return Refused(judged.problem), entries; }
      entries, refs, targets := entries + {s.entry}, refs + {s.destination}, targets + {Identity(judged.value)};
      items := items + [Item(s.entry, known[s.entry].sha256, judged.value, s.clear)];
    }
    WalkEnds(kind, known, env, Used(entries, refs, targets), chosen, items);
    return Ok(items), entries;
  }

  /** buildRestorePlan after the sort. */
  method Assemble(codec: Codec, env: Env, copy: CopyRow, choices: Choices) returns (r: Result<Plan>)
    ensures r == BuildSorted(codec, env, copy, choices)
  {
    var refused := Admit(copy, |choices.sites|, |choices.databases|, choices.allowUnverified);
    if refused.Some? { return Refused(refused.value); }
    var decoded := codec.decode(copy.entries);
    if decoded.None? { return Refused(CopyInvalid); }
    var known := IndexManifest(decoded.value);
    if known.Refused? { return Refused(known.problem); }
    var source := Source(codec, env, copy);
    if source.Refused? { return Refused(source.problem); }
    var sites, entries := CheckSelections(Site, known.value, env, {}, choices.sites);
    if sites.Refused? { return Refused(sites.problem); }
    assert entries == Entries(choices.sites);
    var databases, _ := CheckSelections(Database, known.value, env, entries, choices.databases);
    if databases.Refused? { return Refused(databases.problem); }
    r := Finish(codec, copy, source.value, choices, (sites.value, databases.value));
  }

  /** buildRestorePlan: it works on private copies of the request's slices. */
  method BuildRestorePlan(codec: Codec, env: Env, copy: CopyRow, requested: Choices) returns (r: Result<Plan>)
    ensures Builds(codec, env, copy, requested, r)
    ensures r.Ok? ==> Normalises(requested, r.value.choices)
    ensures r.Ok? ==> SaysWhatWasChosen(codec, env, copy, r.value.choices, r.value.request)
  {
    var sites := new Selection[|requested.sites|](i requires 0 <= i < |requested.sites| => requested.sites[i]);
    var chosen := requested.databases;
    var databases := new Selection[|chosen|](i requires 0 <= i < |chosen| => chosen[i]);
    assert sites[..] == requested.sites && databases[..] == requested.databases;
    TrimInPlace(sites);
    TrimInPlace(databases);
    var sortedSites := SortSelections(sites[..]);
    var sortedDatabases := SortSelections(databases[..]);
    var choices := Choices(sortedSites, sortedDatabases, requested.allowUnverified);
    assert Normalises(requested, choices);
    r := Assemble(codec, env, copy, choices);
    if r.Ok? { PlanSaysWhatWasChosen(codec, env, copy, choices); }
  }
}
