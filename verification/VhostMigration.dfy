/**
 migrate_nginx_vhost of scripts/nexa-release-helper.py: find the one server block
 that talks to the panel's socket, drop its three proxy locations and the old
 limit directives, and include the managed snippet instead.
 */
module VhostMigration {
  import opened Wrappers
  import opened VhostText

  const PROXY_INCLUDE := "include /etc/nginx/snippets/" + "nexa-panel-proxy.conf;"
  const SOCKET := "/run/nexa-panel/api.sock"
  const COMMENT_LINE :=
    "    # Managed separately so " + "proxy policy updates do not " + "rewrite TLS directives." + "\n"
  const INCLUDE_LINE := "    " + PROXY_INCLUDE + "\n"

  datatype Failure =
    | UnmatchedClosing | UnmatchedBraces | NotOneServer | MalformedLocation | UnmatchedLocation | NotThreeLocations

  datatype Result<T> = Ok(value: T) | Failed(failure: Failure)

  /** Depth change of a stretch of lines. */
  function Sum(lines: seq<string>): int {
    if lines == [] then 0 else Sum(lines[..|lines| - 1]) + Delta(lines[|lines| - 1])
  }

  /** The two compiled patterns of the rewriter. */
  datatype Patterns = Patterns(directive: string -> bool, location: string -> bool)

  const LEGACY := Patterns(IsDirective, IsLocation)

  // ----- finding server blocks -----

  datatype Bounds = Bounds(first: nat, last: nat)

  /** The server line whose block is open after this line. */
  function Begun(lines: seq<string>, index: nat, depth: int, start: Option<nat>): Option<nat>
    requires index < |lines|
  {
    if depth == 0 && IsServer(lines[index]) then Some(index) else start
  }

  function FindFrom(lines: seq<string>, index: nat, depth: int, start: Option<nat>,
                    found: seq<Bounds>): Result<seq<Bounds>>
    requires index <= |lines|
    decreases |lines| - index
  {
    if index == |lines| then (if depth != 0 || start.Some? then Failed(UnmatchedBraces) else Ok(found))
    else
      var begun := Begun(lines, index, depth, start);
      var after := depth + Delta(lines[index]);
      if after < 0 then Failed(UnmatchedClosing)
      else if begun.Some? && after == 0 then
        FindFrom(lines, index + 1, after, None, found + [Bounds(begun.value, index)])
      else FindFrom(lines, index + 1, after, begun, found)
  }

  method FindServers(lines: seq<string>) returns (r: Result<seq<Bounds>>)
    ensures r == FindFrom(lines, 0, 0, None, [])
  {
    var depth := 0;
    var ranges: seq<Bounds> := [];
    var start: Option<nat> := None;
    for index := 0 to |lines|
      invariant FindFrom(lines, index, depth, start, ranges) == FindFrom(lines, 0, 0, None, [])
    {
      var before := depth;
      var delta := BraceDelta(lines[index]);
      if before == 0 && IsServer(lines[index]) { start := Some(index); }
      depth := depth + delta;
      if depth < 0 { return Failed(UnmatchedClosing); }
      if start.Some? && depth == 0 {
        ranges := ranges + [Bounds(start.value, index)];
        start := None;
      }
    }
    if depth != 0 || start.Some? { return Failed(UnmatchedBraces); }
    return Ok(ranges);
  }

  /** A block as the finder reports it: depth 0 before it, above 0 inside it, 0 after it. */
  ghost predicate IsBlock(lines: seq<string>, b: Bounds) {
    Encloses(lines, b) && IsServer(lines[b.first])
  }

  ghost predicate Encloses(lines: seq<string>, b: Bounds) {
    && b.first <= b.last < |lines|
    && Sum(lines[..b.first]) == 0 && Sum(lines[..b.last + 1]) == 0
    && forall k :: b.first < k <= b.last ==> Sum(lines[..k]) > 0
  }

  ghost predicate Balanced(lines: seq<string>) {
    Sum(lines) == 0 && forall k :: 0 <= k <= |lines| ==> Sum(lines[..k]) >= 0
  }

  lemma SumStep(lines: seq<string>, k: nat)
    requires k < |lines|
    ensures Sum(lines[..k + 1]) == Sum(lines[..k]) + Delta(lines[k])
  {
    assert lines[..k + 1][..k] == lines[..k];
  }

  /** What the finder knows before it looks at a line. */
  ghost predicate Searching(lines: seq<string>, index: nat, depth: int, start: Option<nat>, found: seq<Bounds>) {
    && index <= |lines| && depth == Sum(lines[..index])
    && (forall k :: 0 <= k <= index ==> Sum(lines[..k]) >= 0)
    && IsTally(lines, index, found)
    && (if start.Some? then Within(lines, start.value, index) else NoneOpen(lines, index))
  }

  /** Every block that ends before `index`, once, in the order of the ends. */
  ghost predicate IsTally(lines: seq<string>, index: nat, found: seq<Bounds>) {
    && (forall b :: b in found <==> IsBlock(lines, b) && b.last < index)
    && InOrder(found)
  }

  ghost predicate InOrder(found: seq<Bounds>) {
    forall i, j :: 0 <= i < j < |found| ==> found[i].last < found[j].last
  }

  /** No server line that is followed only by depths above 0 so far. */
  ghost predicate NoneOpen(lines: seq<string>, index: nat) {
    forall first: nat :: first < index ==> !Within(lines, first, index)
  }

  /** A server block began at `first` and has not been closed before `index`. */
  ghost predicate Within(lines: seq<string>, first: nat, index: nat) {
    && first < index <= |lines| && IsServer(lines[first]) && Sum(lines[..first]) == 0
    && forall k :: first < k <= index ==> Sum(lines[..k]) > 0
  }

  lemma BlockCloses(lines: seq<string>, first: nat, index: nat)
    requires index < |lines| && Sum(lines[..index + 1]) == 0
    requires Within(lines, first, index) || (first == index && IsServer(lines[index]) && Sum(lines[..index]) == 0)
    ensures IsBlock(lines, Bounds(first, index))
  {
  }

  lemma BlockGoesOn(lines: seq<string>, first: nat, index: nat)
    requires index < |lines| && Sum(lines[..index + 1]) > 0
    requires Within(lines, first, index) || (first == index && IsServer(lines[index]) && Sum(lines[..index]) == 0)
    ensures Within(lines, first, index + 1)
  {
  }

  lemma BlockWasOpen(lines: seq<string>, b: Bounds)
    requires IsBlock(lines, b) && b.first < b.last
    ensures Within(lines, b.first, b.last)
  {
  }

  lemma WasWithin(lines: seq<string>, first: nat, index: nat)
    requires first <= index
    ensures Within(lines, first, index + 1) ==>
              && index < |lines|
              && (first < index ==> Within(lines, first, index))
              && (first == index ==> IsServer(lines[index]) && Sum(lines[..index]) == 0)
  {
  }

  /** With nothing open, a line that opens no block closes none. */
  lemma NothingCloses(lines: seq<string>, index: nat)
    requires index < |lines| && NoneOpen(lines, index) && !(IsServer(lines[index]) && Sum(lines[..index]) == 0)
    ensures NoneOpen(lines, index + 1)
    ensures forall b :: IsBlock(lines, b) ==> b.last != index
  {
    var next := index + 1;
    forall first: nat | first < next ensures !Within(lines, first, next) {
      WasWithin(lines, first, index);
    }
    forall b: Bounds | IsBlock(lines, b) && b.first < b.last ensures Within(lines, b.first, b.last) {
      BlockWasOpen(lines, b);
    }
  }

  /** Two stretches above depth 0 from a line at depth 0 up to the same line are one. */
  lemma OneWithin(lines: seq<string>, first: nat, other: nat, index: nat)
    requires Within(lines, first, index) && Within(lines, other, index)
    ensures first == other
  {
  }

  lemma TallyCloses(lines: seq<string>, first: nat, index: nat, found: seq<Bounds>)
    requires index < |lines| && IsTally(lines, index, found) && Sum(lines[..index + 1]) == 0
    requires Within(lines, first, index) || (first == index && IsServer(lines[index]) && Sum(lines[..index]) == 0)
    ensures IsTally(lines, index + 1, found + [Bounds(first, index)])
    ensures NoneOpen(lines, index + 1)
  {
    BlockCloses(lines, first, index);
    var all := found + [Bounds(first, index)];
    forall b ensures b in all <==> IsBlock(lines, b) && b.last < index + 1 {
      if IsBlock(lines, b) && b.last == index {
        if b.first < index && first < index {
          assert Within(lines, b.first, index);
          OneWithin(lines, first, b.first, index);
        }
      }
    }
  }

  lemma SearchCloses(lines: seq<string>, index: nat, depth: int, start: Option<nat>, found: seq<Bounds>)
    requires Searching(lines, index, depth, start, found) && index < |lines|
    requires Begun(lines, index, depth, start).Some? && depth + Delta(lines[index]) == 0
    ensures Searching(lines, index + 1, 0, None, found + [Bounds(Begun(lines, index, depth, start).value, index)])
  {
    SumStep(lines, index);
    TallyCloses(lines, Begun(lines, index, depth, start).value, index, found);
  }

  lemma SearchGoesOn(lines: seq<string>, index: nat, depth: int, start: Option<nat>, found: seq<Bounds>)
    requires Searching(lines, index, depth, start, found) && index < |lines| && depth + Delta(lines[index]) >= 0
    requires Begun(lines, index, depth, start).Some? ==> depth + Delta(lines[index]) > 0
    ensures Searching(lines, index + 1, depth + Delta(lines[index]), Begun(lines, index, depth, start), found)
  {
    var begun := Begun(lines, index, depth, start);
    SumStep(lines, index);
    if begun.Some? {
      BlockGoesOn(lines, begun.value, index);
    } else {
      NothingCloses(lines, index);
    }
    assert forall b :: IsBlock(lines, b) ==> b.last != index;
  }

  lemma SearchEnds(lines: seq<string>, depth: int, start: Option<nat>, found: seq<Bounds>)
    requires Searching(lines, |lines|, depth, start, found)
    ensures Balanced(lines) <==> depth == 0 && start.None?
  {
    assert lines[..|lines|] == lines;
  }

  lemma BelowZero(lines: seq<string>, index: nat, depth: int)
    requires index < |lines| && depth == Sum(lines[..index]) && depth + Delta(lines[index]) < 0
    ensures !Balanced(lines)
  {
    SumStep(lines, index);
  }

  ghost predicate FindsBlocks(lines: seq<string>, r: Result<seq<Bounds>>) {
    (r.Ok? <==> Balanced(lines)) && (r.Ok? ==> IsTally(lines, |lines|, r.value))
  }

  /** The finder succeeds exactly on balanced text, with every block of it in order and nothing else. */
  lemma {:induction false} FoundAreBlocks(lines: seq<string>, index: nat, depth: int, start: Option<nat>,
                                          found: seq<Bounds>)
    requires Searching(lines, index, depth, start, found)
    ensures FindsBlocks(lines, FindFrom(lines, index, depth, start, found))
    decreases |lines| - index
  {
    if index == |lines| {
      SearchEnds(lines, depth, start, found);
    } else {
      var begun := Begun(lines, index, depth, start);
      var after := depth + Delta(lines[index]);
      if after < 0 {
        BelowZero(lines, index, depth);
      } else if begun.Some? && after == 0 {
        SearchCloses(lines, index, depth, start, found);
        FoundAreBlocks(lines, index + 1, 0, None, found + [Bounds(begun.value, index)]);
      } else {
        SearchGoesOn(lines, index, depth, start, found);
        FoundAreBlocks(lines, index + 1, after, begun, found);
      }
    }
  }

  function Candidates(lines: seq<string>, found: seq<Bounds>): (r: seq<Bounds>)
    ensures forall b :: b in r <==> b in found && InRange(lines, b) && MentionsSocket(lines, b)
  {
    if found == [] then []
    else
      var b := found[0];
      var rest := Candidates(lines, found[1..]);
      if InRange(lines, b) && MentionsSocket(lines, b) then [b] + rest else rest
  }

  predicate MentionsSocket(lines: seq<string>, b: Bounds)
    requires InRange(lines, b)
  {
    Contains(Join(lines[b.first..b.last + 1]), SOCKET)
  }

  lemma InOrderAhead(b: Bounds, rest: seq<Bounds>)
    requires InOrder(rest) && forall c :: c in rest ==> b.last < c.last
    ensures InOrder([b] + rest)
  {
    assert forall k :: 0 <= k < |rest| ==> rest[k] in rest;
  }

  /** Candidates keeps the order, so no candidate comes twice. */
  lemma {:induction false} CandidatesInOrder(lines: seq<string>, found: seq<Bounds>)
    requires InOrder(found)
    ensures InOrder(Candidates(lines, found))
  {
    if found != [] {
      CandidatesInOrder(lines, found[1..]);
      InOrderAhead(found[0], Candidates(lines, found[1..]));
    }
  }

  /** One candidate means exactly one block that mentions the socket. */
  lemma OneCandidateIff(lines: seq<string>, found: seq<Bounds>, b: Bounds)
    requires IsTally(lines, |lines|, found)
    ensures Candidates(lines, found) == [b] <==> OnlyServer(lines, b)
  {
    var r := Candidates(lines, found);
    CandidatesInOrder(lines, found);
    assert forall c :: c in r <==> ServesPanel(lines, c);
    if r == [b] {
      assert b in r;
    }
    if OnlyServer(lines, b) {
      assert b in r;
      forall k | 0 <= k < |r| ensures r[k] == b { assert r[k] in r; }
      assert |r| > 1 ==> r[0].last < r[1].last;
    }
  }

  /** A server block of the page that mentions the panel's socket. */
  ghost predicate ServesPanel(lines: seq<string>, b: Bounds) {
    IsBlock(lines, b) && MentionsSocket(lines, b)
  }

  ghost predicate OnlyServer(lines: seq<string>, b: Bounds) {
    ServesPanel(lines, b) && forall c :: ServesPanel(lines, c) ==> c == b
  }

  // ----- rewriting the block -----

  /** What the rewriter does with the next lines of the block. */
  datatype Segment = Keep(line: string) | Directive(line: string) | Location(lines: seq<string>)

  /** How far the location loop runs: until the depth is back at zero or below, or the block ends. */
  function SkipLocation(block: seq<string>, index: nat, depth: int): (r: (nat, int))
    requires index <= |block|
    ensures index <= r.0 <= |block|
    decreases |block| - index
  {
    if index < |block| && depth > 0 then SkipLocation(block, index + 1, depth + Delta(block[index])) else (index, depth)
  }

  function Segments(p: Patterns, block: seq<string>, index: nat, depth: int): Result<seq<Segment>>
    requires 1 <= index <= |block|
    decreases |block| - index
  {
    if index >= |block| - 1 then Ok([])
    else
      var line := block[index];
      if depth == 1 && p.directive(line) then Ahead(Directive(line), Segments(p, block, index + 1, depth))
      else if depth == 1 && p.location(line) then
        if Delta(line) <= 0 then Failed(MalformedLocation)
        else
          var (end, left) := SkipLocation(block, index + 1, Delta(line));
          if left != 0 then Failed(UnmatchedLocation)
          else Ahead(Location(block[index..end]), Segments(p, block, end, depth))
      else Ahead(Keep(line), Segments(p, block, index + 1, depth + Delta(line)))
  }

  function Ahead(s: Segment, rest: Result<seq<Segment>>): Result<seq<Segment>> {
    match rest
    case Failed(f) => Failed(f)
    case Ok(segments) => Ok([s] + segments)
  }

  function Kept(segments: seq<Segment>): seq<string> {
    if segments == [] then []
    else (if segments[0].Keep? then [segments[0].line] else []) + Kept(segments[1..])
  }

  function CountLocations(segments: seq<Segment>): nat {
    if segments == [] then 0 else (if segments[0].Location? then 1 else 0) + CountLocations(segments[1..])
  }

  /** The lines a rewrite starts from, in order. */
  function Source(segments: seq<Segment>): seq<string> {
    if segments == [] then []
    else (match segments[0]
          case Keep(line) => [line]
          case Directive(line) => [line]
          case Location(lines) => lines) + Source(segments[1..])
  }

  /** The rewritten block, or why there is none. */
  function Rewritten(p: Patterns, block: seq<string>): Result<seq<string>>
    requires block != []
  {
    match Segments(p, block, 1, 1)
    case Failed(f) => Failed(f)
    case Ok(segments) =>
      if CountLocations(segments) != 3 then Failed(NotThreeLocations)
      else Ok([block[0]] + Kept(segments) + [COMMENT_LINE, INCLUDE_LINE, block[|block| - 1]])
  }

  /** What the loop ends with when this much is done and this much is to come. */
  function Finished(result: seq<string>, removed: nat, rest: Result<seq<Segment>>): Result<(seq<string>, nat)> {
    match rest
    case Failed(f) => Failed(f)
    case Ok(segments) => Ok((result + Kept(segments), removed + CountLocations(segments)))
  }

  lemma FinishedAhead(result: seq<string>, removed: nat, s: Segment, rest: Result<seq<Segment>>)
    ensures Finished(result, removed, Ahead(s, rest))
            == Finished(result + (if s.Keep? then [s.line] else []), removed + (if s.Location? then 1 else 0), rest)
  {
    if rest.Ok? {
      assert ([s] + rest.value)[1..] == rest.value;
      var mine := if s.Keep? then [s.line] else [];
      assert result + (mine + Kept(rest.value)) == result + mine + Kept(rest.value);
    }
  }

  method SkipLocationLines(block: seq<string>, from: nat, opening: int) returns (index: nat, depth: int)
    requires from <= |block|
    ensures (index, depth) == SkipLocation(block, from, opening)
    ensures from <= index <= |block|
  {
    index, depth := from, opening;
    while index < |block| && depth > 0
      invariant from <= index <= |block|
      invariant SkipLocation(block, index, depth) == SkipLocation(block, from, opening)
      decreases |block| - index
    {
      var delta := BraceDelta(block[index]);
      depth := depth + delta;
      index := index + 1;
    }
  }

  // One round of the loop of the rewriter, by what it does with the line.

  lemma DirectiveRound(p: Patterns, block: seq<string>, index: nat, depth: int, result: seq<string>, removed: nat)
    requires 1 <= index < |block| - 1 && depth == 1 && p.directive(block[index])
    ensures Finished(result, removed, Segments(p, block, index, depth))
            == Finished(result, removed, Segments(p, block, index + 1, depth))
  {
    FinishedAhead(result, removed, Directive(block[index]), Segments(p, block, index + 1, depth));
    assert result + [] == result;
  }

  lemma LocationRound(p: Patterns, block: seq<string>, index: nat, depth: int, result: seq<string>, removed: nat)
    requires 1 <= index < |block| - 1 && depth == 1 && !p.directive(block[index]) && p.location(block[index])
             && Delta(block[index]) > 0
    requires SkipLocation(block, index + 1, Delta(block[index])).1 == 0
    ensures
      var end := SkipLocation(block, index + 1, Delta(block[index])).0;
      Finished(result, removed, Segments(p, block, index, depth))
        == Finished(result, removed + 1, Segments(p, block, end, depth))
  {
    var end := SkipLocation(block, index + 1, Delta(block[index])).0;
    FinishedAhead(result, removed, Location(block[index..end]), Segments(p, block, end, depth));
    assert result + [] == result;
  }

  lemma KeepRound(p: Patterns, block: seq<string>, index: nat, depth: int, result: seq<string>, removed: nat)
    requires 1 <= index < |block| - 1 && !(depth == 1 && (p.directive(block[index]) || p.location(block[index])))
    ensures Finished(result, removed, Segments(p, block, index, depth))
            == Finished(result + [block[index]], removed, Segments(p, block, index + 1, depth + Delta(block[index])))
  {
    FinishedAhead(result, removed, Keep(block[index]), Segments(p, block, index + 1, depth + Delta(block[index])));
  }

  lemma LastRound(p: Patterns, block: seq<string>, index: nat, depth: int, result: seq<string>, removed: nat)
    requires 1 <= index <= |block| && index >= |block| - 1
    ensures Finished(result, removed, Segments(p, block, index, depth)) == Ok((result, removed))
    ensures Finished([block[0]], 0, Segments(p, block, 1, 1)) == Ok((result, removed)) ==>
              Rewritten(p, block) == if removed != 3 then Failed(NotThreeLocations)
                                  else Ok(result + [COMMENT_LINE, INCLUDE_LINE, block[|block| - 1]])
  {
    assert result + [] == result;
  }

  method RewriteBlock(p: Patterns, block: seq<string>) returns (r: Result<seq<string>>)
    requires block != []
    ensures r == Rewritten(p, block)
  {
    var result := [block[0]];
    var depth := 1;
    var removed := 0;
    var index := 1;
    ghost var whole := Finished([block[0]], 0, Segments(p, block, 1, 1));
    while index < |block| - 1
      invariant 1 <= index <= |block|
      invariant Finished(result, removed, Segments(p, block, index, depth)) == whole
      decreases |block| - index
    {
      var line := block[index];
      if depth == 1 && p.directive(line) {
        DirectiveRound(p, block, index, depth, result, removed);
        index := index + 1;
        continue;
      }
      if depth == 1 && p.location(line) {
        var opening := BraceDelta(line);
        if opening <= 0 { return Failed(MalformedLocation); }
        var end, left := SkipLocationLines(block, index + 1, opening);
        if left != 0 { return Failed(UnmatchedLocation); }
        LocationRound(p, block, index, depth, result, removed);
        index := end;
        removed := removed + 1;
        continue;
      }
      var delta := BraceDelta(line);
      KeepRound(p, block, index, depth, result, removed);
      result := result + [line];
      depth := depth + delta;
      index := index + 1;
    }
    LastRound(p, block, index, depth, result, removed);
    if removed != 3 { return Failed(NotThreeLocations); }
    ghost var kept := result;
    result := result + [COMMENT_LINE];
    result := result + [INCLUDE_LINE];
    result := result + [block[|block| - 1]];
    assert result == kept + [COMMENT_LINE, INCLUDE_LINE, block[|block| - 1]];
    return Ok(result);
  }

  // ----- the whole file -----

  predicate InRange(lines: seq<string>, b: Bounds) {
    b.first <= b.last < |lines|
  }

  /** The only server block that mentions the panel's socket. */
  function Chosen(lines: seq<string>): (r: Result<Bounds>)
    ensures r.Ok? ==> InRange(lines, r.value)
  {
    match FindFrom(lines, 0, 0, None, [])
    case Failed(f) => Failed(f)
    case Ok(found) =>
      var candidates := Candidates(lines, found);
      if |candidates| != 1 || !InRange(lines, candidates[0]) then Failed(NotOneServer) else Ok(candidates[0])
  }

  function Replaced(lines: seq<string>, b: Bounds, block: seq<string>): seq<string>
    requires InRange(lines, b)
  {
    lines[..b.first] + block + lines[b.last + 1..]
  }

  function MigratedLines(lines: seq<string>): Result<seq<string>> {
    MigratedAt(LEGACY, lines, Chosen(lines))
  }

  function MigratedAt(p: Patterns, lines: seq<string>, chosen: Result<Bounds>): Result<seq<string>>
    requires chosen.Ok? ==> InRange(lines, chosen.value)
  {
    match chosen
    case Failed(f) => Failed(f)
    case Ok(b) =>
      match Rewritten(p, lines[b.first..b.last + 1])
      case Failed(f) => Failed(f)
      case Ok(block) => Ok(Replaced(lines, b, block))
  }

  /** The text that is written, or the error. A page that already has the include is written back as it is. */
  function Migrated(page: string): Result<string> {
    if Contains(page, PROXY_INCLUDE) then Ok(page)
    else
      match MigratedLines(SplitLines(page))
      case Failed(f) => Failed(f)
      case Ok(lines) => Ok(Join(lines))
  }

  lemma ServersAreBlocks(lines: seq<string>)
    ensures FindFrom(lines, 0, 0, None, []).Ok? <==> Balanced(lines)
    ensures FindFrom(lines, 0, 0, None, []).Ok? ==> IsTally(lines, |lines|, FindFrom(lines, 0, 0, None, []).value)
  {
    assert lines[..0] == [];
    FoundAreBlocks(lines, 0, 0, None, []);
  }

  /** A block is chosen exactly when the page is balanced and it is the page's only block that mentions the socket. */
  lemma ChosenIff(lines: seq<string>, b: Bounds)
    ensures Chosen(lines) == Ok(b) <==> Balanced(lines) && OnlyServer(lines, b)
  {
    ServersAreBlocks(lines);
    if Balanced(lines) {
      OneCandidateIff(lines, FindFrom(lines, 0, 0, None, []).value, b);
      CandidateIsInRange(lines, FindFrom(lines, 0, 0, None, []).value);
    }
  }

  lemma ChosenIsBlock(lines: seq<string>)
    requires Chosen(lines).Ok?
    ensures Balanced(lines) && OnlyServer(lines, Chosen(lines).value)
  {
    ChosenIff(lines, Chosen(lines).value);
  }

  lemma CandidateIsInRange(lines: seq<string>, found: seq<Bounds>)
    ensures forall b :: b in Candidates(lines, found) ==> InRange(lines, b)
  {
  }

  method Choose(lines: seq<string>) returns (r: Result<Bounds>)
    ensures r == Chosen(lines)
  {
    var ranges := FindServers(lines);
    if ranges.Failed? { return Failed(ranges.failure); }
    CandidateIsInRange(lines, ranges.value);
    var candidates := Candidates(lines, ranges.value);
    if |candidates| != 1 { return Failed(NotOneServer); }
    return Ok(candidates[0]);
  }

  method MigrateAt(p: Patterns, lines: seq<string>, chosen: Result<Bounds>) returns (r: Result<seq<string>>)
    requires chosen.Ok? ==> InRange(lines, chosen.value)
    ensures r == MigratedAt(p, lines, chosen)
  {
    if chosen.Failed? { return Failed(chosen.failure); }
    var b := chosen.value;
    var block := RewriteBlock(p, lines[b.first..b.last + 1]);
    if block.Failed? { return Failed(block.failure); }
    return Ok(Replaced(lines, b, block.value));
  }

  method MigrateLines(lines: seq<string>) returns (r: Result<seq<string>>)
    ensures r == MigratedLines(lines)
  {
    var bounds := Choose(lines);
    r := MigrateAt(LEGACY, lines, bounds);
  }

  method Migrate(page: string) returns (r: Result<string>)
    ensures r == Migrated(page)
  {
    if Contains(page, PROXY_INCLUDE) { return Ok(page); }
    var migrated := MigrateLines(SplitLines(page));
    if migrated.Failed? { return Failed(migrated.failure); }
    return Ok(Join(migrated.value));
  }
}
