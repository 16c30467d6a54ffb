/** What a migrated vhost keeps of the old one. */
module VhostTheorems {
  import opened Wrappers
  import opened VhostText
  import opened VhostMigration

  // ----- sums of depth changes -----

  lemma {:induction false} SumConcat(a: seq<string>, b: seq<string>)
    ensures Sum(a + b) == Sum(a) + Sum(b)
    decreases |b|
  {
    if b == [] {
      assert a + b == a;
    } else {
      assert (a + b)[..|a + b| - 1] == a + b[..|b| - 1];
      SumConcat(a, b[..|b| - 1]);
    }
  }

  lemma SumBetween(lines: seq<string>, i: nat, j: nat)
    requires i <= j <= |lines|
    ensures Sum(lines[i..j]) == Sum(lines[..j]) - Sum(lines[..i])
  {
    assert lines[..j] == lines[..i] + lines[i..j];
    SumConcat(lines[..i], lines[i..j]);
  }

  lemma SumOne(line: string)
    ensures Sum([line]) == Delta(line)
  {
  }

  /** The depth stays at or above `floor` after each of these lines when it starts at `depth`. */
  ghost predicate Above(floor: int, depth: int, lines: seq<string>) {
    forall k :: 0 <= k <= |lines| ==> depth + Sum(lines[..k]) >= floor
  }

  lemma AboveConcat(floor: int, depth: int, a: seq<string>, b: seq<string>)
    requires Above(floor, depth, a) && Above(floor, depth + Sum(a), b)
    ensures Above(floor, depth, a + b)
  {
    forall k | 0 <= k <= |a + b| ensures depth + Sum((a + b)[..k]) >= floor {
      if k <= |a| {
        assert (a + b)[..k] == a[..k];
      } else {
        assert (a + b)[..k] == a + b[..k - |a|];
        SumConcat(a, b[..k - |a|]);
      }
    }
  }

  lemma AboveOne(floor: int, depth: int, line: string)
    requires depth >= floor && depth + Delta(line) >= floor
    ensures Above(floor, depth, [line])
  {
  }

  lemma AboveSlice(lines: seq<string>, i: nat, j: nat, floor: int)
    requires i <= j <= |lines| && forall k :: i <= k <= j ==> Sum(lines[..k]) >= floor
    ensures Above(floor, Sum(lines[..i]), lines[i..j])
  {
    forall k | 0 <= k <= j - i ensures Sum(lines[..i]) + Sum(lines[i..j][..k]) >= floor {
      assert lines[i..j][..k] == lines[i..i + k];
      SumBetween(lines, i, i + k);
    }
  }

  // ----- the inserted lines -----

  lemma {:induction false} NoBraces(line: string)
    requires '{' !in line && '}' !in line
    ensures Delta(line) == 0
    decreases |line|
  {
    if line != [] {
      assert line[|line| - 1] in line;
      NoBraces(line[..|line| - 1]);
    }
  }

  /** Printable ASCII below the braces: no brace and nothing that ends a line. */
  predicate Plain(s: string) {
    forall i :: 0 <= i < |s| ==> ' ' <= s[i] <= 'z'
  }

  lemma PlainConcat(a: string, b: string)
    requires Plain(a) && Plain(b)
    ensures Plain(a + b)
  {
  }

  lemma PlainLine(s: string)
    requires Plain(s)
    ensures Delta(s + "\n") == 0 && Terminated(s + "\n")
  {
    forall c | c in s + "\n" ensures c != '{' && c != '}' { }
    NoBraces(s + "\n");
  }

  lemma CommentLine()
    ensures Delta(COMMENT_LINE) == 0 && Terminated(COMMENT_LINE)
  {
    PlainConcat("    # Managed separately so ", "proxy policy updates do not ");
    PlainConcat("    # Managed separately so " + "proxy policy updates do not ", "rewrite TLS directives.");
    PlainLine("    # Managed separately so " + "proxy policy updates do not " + "rewrite TLS directives.");
  }

  lemma IncludeLine()
    ensures Delta(INCLUDE_LINE) == 0 && Terminated(INCLUDE_LINE)
  {
    PlainConcat("include /etc/nginx/snippets/", "nexa-panel-proxy.conf;");
    PlainConcat("    ", PROXY_INCLUDE);
    PlainLine("    " + PROXY_INCLUDE);
  }

  // ----- the segments -----

  predicate GoodSegment(p: Patterns, s: Segment) {
    match s
    case Keep(_) => true
    case Directive(line) => p.directive(line)
    case Location(lines) => lines != [] && p.location(lines[0]) && Delta(lines[0]) > 0 && Sum(lines) == 0
  }

  ghost predicate GoodSegments(p: Patterns, segments: seq<Segment>) {
    forall s :: s in segments ==> GoodSegment(p, s)
  }

  lemma {:induction false} SkipSums(block: seq<string>, index: nat, depth: int)
    requires index <= |block|
    ensures
      var (end, left) := SkipLocation(block, index, depth);
      left == depth + Sum(block[index..end])
    decreases |block| - index
  {
    if index < |block| && depth > 0 {
      SkipSums(block, index + 1, depth + Delta(block[index]));
      var end := SkipLocation(block, index, depth).0;
      assert block[index..end] == [block[index]] + block[index + 1..end];
      SumConcat([block[index]], block[index + 1..end]);
      SumOne(block[index]);
    } else {
      assert block[index..index] == [];
    }
  }

  lemma LocationIsZero(p: Patterns, block: seq<string>, index: nat)
    requires index < |block| && p.location(block[index]) && Delta(block[index]) > 0
    requires SkipLocation(block, index + 1, Delta(block[index])).1 == 0
    ensures GoodSegment(p, Location(block[index..SkipLocation(block, index + 1, Delta(block[index])).0]))
  {
    var end := SkipLocation(block, index + 1, Delta(block[index])).0;
    SkipSums(block, index + 1, Delta(block[index]));
    assert block[index..end] == [block[index]] + block[index + 1..end];
    SumConcat([block[index]], block[index + 1..end]);
    SumOne(block[index]);
  }

  lemma SourceAhead(s: Segment, rest: seq<Segment>, block: seq<string>, index: nat, next: nat, end: nat)
    requires index <= next <= end <= |block| && Source(rest) == block[next..end]
    requires
      match s
      case Keep(line) => next == index + 1 && line == block[index]
      case Directive(line) => next == index + 1 && line == block[index]
      case Location(lines) => lines == block[index..next]
    ensures Source([s] + rest) == block[index..end]
  {
  }

  /** How the rewriter takes a line of the block. */
  datatype Taken = AsDirective | AsLocation | AsKept

  predicate Takes(p: Patterns, block: seq<string>, index: nat, depth: int, taken: Taken)
    requires index < |block|
  {
    match taken
    case AsDirective => depth == 1 && p.directive(block[index])
    case AsLocation => depth == 1 && !p.directive(block[index]) && p.location(block[index])
    case AsKept => !(depth == 1 && (p.directive(block[index]) || p.location(block[index])))
  }

  lemma DirectiveSegment(p: Patterns, block: seq<string>, index: nat, depth: int)
    requires 1 <= index < |block| - 1 && Segments(p, block, index, depth).Ok?
             && Takes(p, block, index, depth, AsDirective)
    ensures Segments(p, block, index + 1, depth).Ok?
    ensures Segments(p, block, index, depth).value
            == [Directive(block[index])] + Segments(p, block, index + 1, depth).value
    ensures GoodSegment(p, Directive(block[index]))
  {
  }

  lemma LocationSegment(p: Patterns, block: seq<string>, index: nat, depth: int)
    requires 1 <= index < |block| - 1 && Segments(p, block, index, depth).Ok?
             && Takes(p, block, index, depth, AsLocation)
    ensures
      var (end, left) := SkipLocation(block, index + 1, Delta(block[index]));
      && left == 0 && index < end <= |block| && Segments(p, block, end, depth).Ok?
      && Segments(p, block, index, depth).value == [Location(block[index..end])] + Segments(p, block, end, depth).value
      && GoodSegment(p, Location(block[index..end]))
  {
    LocationIsZero(p, block, index);
  }

  lemma KeptSegment(p: Patterns, block: seq<string>, index: nat, depth: int)
    requires 1 <= index < |block| - 1 && Segments(p, block, index, depth).Ok? && Takes(p, block, index, depth, AsKept)
    ensures Segments(p, block, index + 1, depth + Delta(block[index])).Ok?
    ensures Segments(p, block, index, depth).value
            == [Keep(block[index])] + Segments(p, block, index + 1, depth + Delta(block[index])).value
  {
  }

  ghost predicate Covers(p: Patterns, block: seq<string>, index: nat, segments: seq<Segment>) {
    && index <= |block|
    && GoodSegments(p, segments)
    && ((index < |block| && Source(segments) == block[index..|block| - 1]) || Source(segments) == block[index..|block|])
  }

  /** The segments are the block's lines in order, up to its last line or through it. */
  lemma {:induction false} SegmentsCover(p: Patterns, block: seq<string>, index: nat, depth: int)
    requires 1 <= index <= |block| && Segments(p, block, index, depth).Ok?
    ensures Covers(p, block, index, Segments(p, block, index, depth).value)
    decreases |block| - index
  {
    if index < |block| - 1 {
      if Takes(p, block, index, depth, AsDirective) {
        DirectiveSegment(p, block, index, depth);
        SegmentsCover(p, block, index + 1, depth);
        CoversAhead(p, block, index, Directive(block[index]), index + 1, Segments(p, block, index + 1, depth).value);
      } else if Takes(p, block, index, depth, AsLocation) {
        LocationSegment(p, block, index, depth);
        var end := SkipLocation(block, index + 1, Delta(block[index])).0;
        SegmentsCover(p, block, end, depth);
        CoversAhead(p, block, index, Location(block[index..end]), end, Segments(p, block, end, depth).value);
      } else {
        KeptSegment(p, block, index, depth);
        SegmentsCover(p, block, index + 1, depth + Delta(block[index]));
        CoversAhead(p, block, index, Keep(block[index]), index + 1,
          Segments(p, block, index + 1, depth + Delta(block[index])).value);
      }
    } else if index < |block| {
      assert block[index..|block| - 1] == [];
    } else {
      assert block[index..|block|] == [];
    }
  }

  lemma CoversAhead(p: Patterns, block: seq<string>, index: nat, s: Segment, next: nat, rest: seq<Segment>)
    requires index < next && Covers(p, block, next, rest) && GoodSegment(p, s)
    requires
      match s
      case Keep(line) => next == index + 1 && line == block[index]
      case Directive(line) => next == index + 1 && line == block[index]
      case Location(lines) => lines == block[index..next]
    ensures Covers(p, block, index, [s] + rest)
  {
  }

  lemma {:induction false} KeptIsSource(segments: seq<Segment>)
    ensures forall line :: line in Kept(segments) ==> line in Source(segments)
  {
    if segments != [] { KeptIsSource(segments[1..]); }
  }

  /** The block of a legacy vhost cut into segments, three of them locations. */
  ghost predicate CutInto(p: Patterns, block: seq<string>, segments: seq<Segment>) {
    block != [] && Segments(p, block, 1, 1) == Ok(segments) && Covers(p, block, 1, segments)
      && CountLocations(segments) == 3
  }

  function NewBlock(block: seq<string>, segments: seq<Segment>): seq<string>
    requires block != []
  {
    [block[0]] + Kept(segments) + [COMMENT_LINE, INCLUDE_LINE, block[|block| - 1]]
  }

  function BlockAt(lines: seq<string>, b: Bounds): (block: seq<string>)
    requires InRange(lines, b)
    ensures block != []
  {
    lines[b.first..b.last + 1]
  }

  lemma RewrittenShape(p: Patterns, block: seq<string>)
    requires block != [] && Rewritten(p, block).Ok?
    ensures Segments(p, block, 1, 1).Ok? && CutInto(p, block, Segments(p, block, 1, 1).value)
    ensures Rewritten(p, block).value == NewBlock(block, Segments(p, block, 1, 1).value)
  {
    SegmentsCover(p, block, 1, 1);
  }

  lemma ShapeAt(p: Patterns, lines: seq<string>, b: Bounds)
    requires InRange(lines, b) && MigratedAt(p, lines, Ok(b)).Ok?
    ensures Segments(p, BlockAt(lines, b), 1, 1).Ok?
            && CutInto(p, BlockAt(lines, b), Segments(p, BlockAt(lines, b), 1, 1).value)
    ensures MigratedAt(p, lines, Ok(b)).value
            == Replaced(lines, b, NewBlock(BlockAt(lines, b), Segments(p, BlockAt(lines, b), 1, 1).value))
  {
    RewrittenShape(p, BlockAt(lines, b));
  }

  lemma LinesShape(lines: seq<string>, b: Bounds)
    requires MigratedLines(lines).Ok? && Chosen(lines) == Ok(b)
    ensures Balanced(lines) && OnlyServer(lines, b)
    ensures CutInto(LEGACY, BlockAt(lines, b), CutOf(lines, b))
    ensures MigratedLines(lines).value == Replaced(lines, b, NewBlock(BlockAt(lines, b), CutOf(lines, b)))
  {
    ChosenIsBlock(lines);
    ShapeAt(LEGACY, lines, b);
  }

  /** The block the rewriter works on. */
  function PanelBlock(lines: seq<string>): (b: Bounds) {
    match Chosen(lines)
    case Ok(b) => b
    case Failed(_) => Bounds(0, 0)
  }

  /** What the rewriter does with that block. */
  function CutOf(lines: seq<string>, b: Bounds): seq<Segment> {
    if !InRange(lines, b) then []
    else
      match Segments(LEGACY, BlockAt(lines, b), 1, 1)
      case Ok(segments) => segments
      case Failed(_) => []
  }

  /**
   What every successful migration is: the lines before and after the page's only
   server block that mentions the socket, and between them that block with only matched
   directives and exactly three zero-sum locations taken out and two lines put in.
   */
  lemma MigrationShape(page: string)
    ensures Migrates(page) ==> Shaped(page, SplitLines(page), PanelBlock(SplitLines(page)))
  {
    if Migrates(page) {
      var lines := SplitLines(page);
      LinesShape(lines, PanelBlock(lines));
    }
  }

  ghost predicate Shaped(page: string, lines: seq<string>, b: Bounds) {
    && Balanced(lines) && OnlyServer(lines, b)
    && CutInto(LEGACY, BlockAt(lines, b), CutOf(lines, b))
    && Migrated(page) == Ok(Join(Replaced(lines, b, NewBlock(BlockAt(lines, b), CutOf(lines, b)))))
  }

  /** The page is rewritten, not refused and not already migrated. */
  predicate Migrates(page: string) {
    !Contains(page, PROXY_INCLUDE) && Migrated(page).Ok?
  }

  /** A second run changes nothing. */
  lemma SecondRunIsIdentity(page: string)
    ensures Migrated(page).Ok? ==> Migrated(Migrated(page).value) == Ok(Migrated(page).value)
  {
    if Migrates(page) {
      var lines := SplitLines(page);
      var b := PanelBlock(lines);
      MigrationShape(page);
      NewBlockIncludes(lines, b, CutOf(lines, b));
    }
  }

  lemma NewBlockIncludes(lines: seq<string>, b: Bounds, segments: seq<Segment>)
    requires InRange(lines, b)
    ensures Contains(Join(Replaced(lines, b, NewBlock(BlockAt(lines, b), segments))), PROXY_INCLUDE)
  {
    var block := BlockAt(lines, b);
    var before := lines[..b.first] + [block[0]] + Kept(segments) + [COMMENT_LINE];
    var after := [block[|block| - 1]] + lines[b.last + 1..];
    assert Replaced(lines, b, NewBlock(block, segments)) == before + ([INCLUDE_LINE] + after);
    LineIsThere(before, "    ", PROXY_INCLUDE, "\n", after);
  }

  lemma LineIsThere(before: seq<string>, left: string, part: string, right: string, after: seq<string>)
    ensures Contains(Join(before + ([left + part + right] + after)), part)
  {
    var line := left + part + right;
    JoinConcat(before, [line] + after);
    assert ([line] + after)[1..] == after;
    ContainsInside(Join(before) + left, part, right + Join(after));
    assert Join(before) + (line + Join(after)) == Join(before) + left + part + (right + Join(after));
  }

  // ----- nothing of the old policy is kept -----

  /** No line that is kept at depth 1 is one of the patterns. */
  ghost predicate Clean(p: Patterns, depth: int, kept: seq<string>) {
    forall k :: 0 <= k < |kept| && depth + Sum(kept[..k]) == 1 ==> !p.directive(kept[k]) && !p.location(kept[k])
  }

  lemma CleanAhead(p: Patterns, depth: int, line: string, rest: seq<string>)
    requires Clean(p, depth + Delta(line), rest) && (depth == 1 ==> !p.directive(line) && !p.location(line))
    ensures Clean(p, depth, [line] + rest)
  {
    var kept := [line] + rest;
    forall k | 0 <= k < |kept| && depth + Sum(kept[..k]) == 1 ensures !p.directive(kept[k]) && !p.location(kept[k]) {
      if k > 0 {
        assert kept[..k] == [line] + rest[..k - 1];
        SumConcat([line], rest[..k - 1]);
        SumOne(line);
      }
    }
  }

  lemma {:induction false} KeptIsClean(p: Patterns, block: seq<string>, index: nat, depth: int)
    requires 1 <= index <= |block| && Segments(p, block, index, depth).Ok?
    ensures Clean(p, depth, Kept(Segments(p, block, index, depth).value))
    decreases |block| - index
  {
    if index < |block| - 1 {
      if Takes(p, block, index, depth, AsDirective) {
        DirectiveSegment(p, block, index, depth);
        KeptIsClean(p, block, index + 1, depth);
        KeptAfter(Directive(block[index]), Segments(p, block, index + 1, depth).value);
      } else if Takes(p, block, index, depth, AsLocation) {
        LocationSegment(p, block, index, depth);
        var end := SkipLocation(block, index + 1, Delta(block[index])).0;
        KeptIsClean(p, block, end, depth);
        KeptAfter(Location(block[index..end]), Segments(p, block, end, depth).value);
      } else {
        KeptSegment(p, block, index, depth);
        var after := depth + Delta(block[index]);
        KeptIsClean(p, block, index + 1, after);
        KeptAfter(Keep(block[index]), Segments(p, block, index + 1, after).value);
        CleanAhead(p, depth, block[index], Kept(Segments(p, block, index + 1, after).value));
      }
    }
  }

  lemma KeptAfter(s: Segment, rest: seq<Segment>)
    ensures Kept([s] + rest) == (if s.Keep? then [s.line] else []) + Kept(rest)
    ensures !s.Keep? ==> Kept([s] + rest) == Kept(rest)
  {
    assert ([s] + rest)[1..] == rest;
    assert [] + Kept(rest) == Kept(rest);
  }

  /** What a migration keeps of the rewritten block has no old directive and no old location left at depth 1. */
  lemma MigrationIsClean(page: string)
    ensures
      var lines := SplitLines(page);
      Migrates(page) ==> Clean(LEGACY, 1, Kept(CutOf(lines, PanelBlock(lines))))
  {
    if Migrates(page) {
      var lines := SplitLines(page);
      MigrationShape(page);
      KeptIsClean(LEGACY, BlockAt(lines, PanelBlock(lines)), 1, 1);
    }
  }

  // ----- balance -----

  ghost predicate ZeroDirectives(segments: seq<Segment>) {
    forall s :: s in segments && s.Directive? ==> Delta(s.line) == 0
  }

  /** The first line opens the block, the last one closes it, and the directives taken out open and close nothing. */
  ghost predicate Tidy(block: seq<string>, segments: seq<Segment>)
    requires block != []
  {
    Delta(block[0]) == 1 && Delta(block[|block| - 1]) == -1 && ZeroDirectives(segments)
  }

  /** Depth 1 or more after every line but the last, 1 before the last, 0 after it. */
  ghost predicate Nested(block: seq<string>) {
    && |block| >= 2 && Sum(block[..1]) == 1 && Sum(block[..|block| - 1]) == 1 && Sum(block) == 0
    && forall k :: 1 <= k < |block| ==> Sum(block[..k]) >= 1
  }

  lemma SumInside(lines: seq<string>, b: Bounds, k: nat)
    requires Encloses(lines, b) && k <= |BlockAt(lines, b)|
    ensures Sum(BlockAt(lines, b)[..k]) == Sum(lines[..b.first + k])
  {
    assert BlockAt(lines, b)[..k] == lines[b.first..b.first + k];
    SumBetween(lines, b.first, b.first + k);
  }

  lemma TidyIsNested(lines: seq<string>, b: Bounds, segments: seq<Segment>)
    requires Encloses(lines, b) && Tidy(BlockAt(lines, b), segments)
    ensures Nested(BlockAt(lines, b))
  {
    var block := BlockAt(lines, b);
    forall k | 0 <= k <= |block| ensures Sum(block[..k]) == Sum(lines[..b.first + k]) {
      SumInside(lines, b, k);
    }
    assert block[..|block|] == block;
    assert block[..1] == [block[0]];
    SumOne(block[0]);
    SumStep(block, |block| - 1);
    assert |block| >= 2;
  }

  /** In a nested block a location ends before the block's last line. */
  lemma {:induction false} SkipStops(block: seq<string>, index: nat, depth: int)
    requires Nested(block) && index < |block| && depth == Sum(block[..index]) - 1
    ensures SkipLocation(block, index, depth).0 < |block|
    decreases |block| - index
  {
    if depth > 0 {
      SumStep(block, index);
      SkipStops(block, index + 1, depth + Delta(block[index]));
    }
  }

  /** What is kept from here on starts at this depth, stays at 1 or more and ends at 1. */
  ghost predicate Settles(block: seq<string>, index: nat, segments: seq<Segment>) {
    && 1 <= index < |block|
    && Source(segments) == block[index..|block| - 1]
    && Sum(block[..index]) + Sum(Kept(segments)) == 1
    && Above(1, Sum(block[..index]), Kept(segments))
  }

  lemma SettlesKeep(block: seq<string>, index: nat, rest: seq<Segment>)
    requires Nested(block) && 1 <= index && Settles(block, index + 1, rest)
    ensures Settles(block, index, [Keep(block[index])] + rest)
  {
    var line := block[index];
    assert ([Keep(line)] + rest)[1..] == rest;
    SourceAhead(Keep(line), rest, block, index, index + 1, |block| - 1);
    SumStep(block, index);
    SumConcat([line], Kept(rest));
    SumOne(line);
    AboveOne(1, Sum(block[..index]), line);
    AboveConcat(1, Sum(block[..index]), [line], Kept(rest));
  }

  /** Taking out a stretch of depth change zero leaves the rest where it was. */
  lemma SettlesSkip(block: seq<string>, index: nat, s: Segment, next: nat, rest: seq<Segment>)
    requires Nested(block) && 1 <= index < next && Settles(block, next, rest)
    requires Sum(block[index..next]) == 0
    requires (s.Directive? && next == index + 1 && s.line == block[index])
             || (s.Location? && s.lines == block[index..next])
    ensures Settles(block, index, [s] + rest)
  {
    assert ([s] + rest)[1..] == rest;
    assert [] + Kept(rest) == Kept(rest);
    SourceAhead(s, rest, block, index, next, |block| - 1);
    SumBetween(block, index, next);
  }

  /** What the rewriter makes of the block from here on. */
  function Onward(p: Patterns, block: seq<string>, index: nat): Result<seq<Segment>>
    requires 1 <= index <= |block|
  {
    Segments(p, block, index, Sum(block[..index]))
  }

  ghost predicate TidyFrom(p: Patterns, block: seq<string>, index: nat)
    requires 1 <= index <= |block|
  {
    Onward(p, block, index).Ok? && ZeroDirectives(Onward(p, block, index).value)
  }

  lemma ZeroRest(s: Segment, rest: seq<Segment>)
    requires ZeroDirectives([s] + rest)
    ensures ZeroDirectives(rest) && (s.Directive? ==> Delta(s.line) == 0)
  {
    assert s in [s] + rest;
    assert forall r :: r in rest ==> r in [s] + rest;
  }

  lemma DirectiveAhead(p: Patterns, block: seq<string>, index: nat)
    requires 1 <= index < |block| - 1 && TidyFrom(p, block, index)
             && Takes(p, block, index, Sum(block[..index]), AsDirective)
    ensures TidyFrom(p, block, index + 1) && Sum(block[index..index + 1]) == 0
    ensures Onward(p, block, index).value == [Directive(block[index])] + Onward(p, block, index + 1).value
  {
    var depth := Sum(block[..index]);
    DirectiveSegment(p, block, index, depth);
    ZeroRest(Directive(block[index]), Segments(p, block, index + 1, depth).value);
    SumStep(block, index);
    assert block[index..index + 1] == [block[index]];
    SumOne(block[index]);
  }

  lemma LocationAhead(p: Patterns, block: seq<string>, index: nat) returns (end: nat)
    requires Nested(block) && 1 <= index < |block| - 1 && TidyFrom(p, block, index)
             && Takes(p, block, index, Sum(block[..index]), AsLocation)
    ensures index < end < |block| && TidyFrom(p, block, end) && Sum(block[index..end]) == 0
    ensures Onward(p, block, index).value == [Location(block[index..end])] + Onward(p, block, end).value
  {
    var depth := Sum(block[..index]);
    LocationSegment(p, block, index, depth);
    end := SkipLocation(block, index + 1, Delta(block[index])).0;
    ZeroRest(Location(block[index..end]), Segments(p, block, end, depth).value);
    SumStep(block, index);
    SkipStops(block, index + 1, Delta(block[index]));
    SumBetween(block, index, end);
  }

  lemma KeptAhead(p: Patterns, block: seq<string>, index: nat)
    requires 1 <= index < |block| - 1 && TidyFrom(p, block, index)
             && Takes(p, block, index, Sum(block[..index]), AsKept)
    ensures TidyFrom(p, block, index + 1)
    ensures Onward(p, block, index).value == [Keep(block[index])] + Onward(p, block, index + 1).value
  {
    var depth := Sum(block[..index]);
    KeptSegment(p, block, index, depth);
    SumStep(block, index);
    ZeroRest(Keep(block[index]), Segments(p, block, index + 1, depth + Delta(block[index])).value);
  }

  lemma {:induction false} TidySettles(p: Patterns, block: seq<string>, index: nat)
    requires Nested(block) && 1 <= index < |block| && TidyFrom(p, block, index)
    ensures Settles(block, index, Onward(p, block, index).value)
    decreases |block| - index
  {
    var depth := Sum(block[..index]);
    if index == |block| - 1 {
      assert block[index..index] == [];
    } else if Takes(p, block, index, depth, AsDirective) {
      DirectiveAhead(p, block, index);
      TidySettles(p, block, index + 1);
      SettlesSkip(block, index, Directive(block[index]), index + 1, Onward(p, block, index + 1).value);
    } else if Takes(p, block, index, depth, AsLocation) {
      var end := LocationAhead(p, block, index);
      TidySettles(p, block, end);
      SettlesSkip(block, index, Location(block[index..end]), end, Onward(p, block, end).value);
    } else {
      KeptAhead(p, block, index);
      TidySettles(p, block, index + 1);
      SettlesKeep(block, index, Onward(p, block, index + 1).value);
    }
  }

  /** The new block is balanced, never below depth 0, and includes the snippet at depth 1. */
  lemma NewBlockIsBalanced(block: seq<string>, segments: seq<Segment>)
    requires Nested(block) && Tidy(block, segments) && Settles(block, 1, segments)
    ensures Sum(NewBlock(block, segments)) == 0 && Above(0, 0, NewBlock(block, segments))
    ensures Sum([block[0]] + Kept(segments) + [COMMENT_LINE]) == 1
  {
    var first, kept, last := block[0], Kept(segments), block[|block| - 1];
    CommentLine();
    IncludeLine();
    assert block[..1] == [first];
    SumOne(first);
    AboveOne(0, 0, first);
    SumConcat([first], kept);
    assert Above(0, 1, kept);
    AboveConcat(0, 0, [first], kept);
    TailIsBalanced(COMMENT_LINE, INCLUDE_LINE, last);
    SumConcat([first] + kept, [COMMENT_LINE, INCLUDE_LINE, last]);
    AboveConcat(0, 0, [first] + kept, [COMMENT_LINE, INCLUDE_LINE, last]);
    SumConcat([first] + kept, [COMMENT_LINE]);
    SumOne(COMMENT_LINE);
  }

  lemma TailIsBalanced(comment: string, snippet: string, last: string)
    requires Delta(comment) == 0 && Delta(snippet) == 0 && Delta(last) == -1
    ensures Sum([comment, snippet, last]) == -1 && Above(0, 1, [comment, snippet, last])
  {
    AboveOne(0, 1, comment);
    AboveOne(0, 1, snippet);
    AboveOne(0, 1, last);
    SumOne(comment);
    SumOne(snippet);
    SumOne(last);
    SumConcat([comment], [snippet]);
    AboveConcat(0, 1, [comment], [snippet]);
    SumConcat([comment] + [snippet], [last]);
    AboveConcat(0, 1, [comment] + [snippet], [last]);
    assert [comment] + [snippet] + [last] == [comment, snippet, last];
  }

  lemma PartsAreBalanced(before: seq<string>, block: seq<string>, after: seq<string>)
    requires Sum(before) == 0 && Sum(block) == 0 && Sum(after) == 0
    requires Above(0, 0, before) && Above(0, 0, block) && Above(0, 0, after)
    ensures Balanced(before + block + after)
  {
    SumConcat(before, block);
    AboveConcat(0, 0, before, block);
    SumConcat(before + block, after);
    AboveConcat(0, 0, before + block, after);
    var all := before + block + after;
    forall k | 0 <= k <= |all| ensures Sum(all[..k]) >= 0 { assert 0 + Sum(all[..k]) >= 0; }
  }

  lemma OutsideIsBalanced(lines: seq<string>, first: nat, next: nat)
    requires Balanced(lines) && first <= next <= |lines| && Sum(lines[..first]) == 0 && Sum(lines[..next]) == 0
    ensures Above(0, 0, lines[..first]) && Sum(lines[next..]) == 0 && Above(0, 0, lines[next..])
  {
    assert lines[0..first] == lines[..first] && lines[next..|lines|] == lines[next..] && lines[..0] == []
           && lines[..|lines|] == lines;
    AboveSlice(lines, 0, first, 0);
    AboveSlice(lines, next, |lines|, 0);
    SumBetween(lines, next, |lines|);
  }

  ghost predicate AllTerminated(lines: seq<string>) {
    forall k :: 0 <= k < |lines| ==> Terminated(lines[k])
  }

  lemma LinesConcat(head: seq<string>, tail: seq<string>)
    requires AllTerminated(head) && AreLines(tail)
    ensures AreLines(head + tail)
  {
  }

  lemma TerminatedConcat(a: seq<string>, b: seq<string>)
    requires AllTerminated(a) && AllTerminated(b)
    ensures AllTerminated(a + b)
  {
  }

  lemma LinesSlice(lines: seq<string>, i: nat, j: nat)
    requires AreLines(lines) && i <= j <= |lines|
    ensures j < |lines| ==> AllTerminated(lines[i..j])
    ensures j == |lines| ==> AreLines(lines[i..j])
  {
  }

  /** Every line of the migrated file is a line of the written text. */
  lemma ReplacedAreLines(lines: seq<string>, b: Bounds, segments: seq<Segment>)
    requires AreLines(lines) && InRange(lines, b) && b.first < b.last
    requires Source(segments) == BlockAt(lines, b)[1..|BlockAt(lines, b)| - 1]
    ensures AreLines(Replaced(lines, b, NewBlock(BlockAt(lines, b), segments)))
  {
    CommentLine();
    IncludeLine();
    KeptTerminated(lines, b, segments);
    PiecesAreLines(lines, b, Kept(segments), COMMENT_LINE, INCLUDE_LINE);
    SamePieces(lines, b, Kept(segments), COMMENT_LINE, INCLUDE_LINE);
  }

  lemma PiecesAreLines(lines: seq<string>, b: Bounds, kept: seq<string>, comment: string, snippet: string)
    requires AreLines(lines) && InRange(lines, b) && b.first < b.last
    requires AllTerminated(kept) && Terminated(comment) && Terminated(snippet)
    ensures AreLines(lines[0..b.first + 1] + kept + [comment, snippet] + lines[b.last..|lines|])
  {
    LinesSlice(lines, 0, b.first + 1);
    LinesSlice(lines, b.last, |lines|);
    TerminatedConcat(lines[0..b.first + 1], kept);
    TerminatedConcat(lines[0..b.first + 1] + kept, [comment, snippet]);
    LinesConcat(lines[0..b.first + 1] + kept + [comment, snippet], lines[b.last..|lines|]);
  }

  lemma SamePieces(lines: seq<string>, b: Bounds, kept: seq<string>, comment: string, snippet: string)
    requires InRange(lines, b)
    ensures lines[..b.first] + ([BlockAt(lines, b)[0]] + kept + [comment, snippet,
            BlockAt(lines, b)[|BlockAt(lines, b)| - 1]]) + lines[b.last + 1..]
            == lines[0..b.first + 1] + kept + [comment, snippet] + lines[b.last..|lines|]
  {
  }

  lemma KeptTerminated(lines: seq<string>, b: Bounds, segments: seq<Segment>)
    requires AreLines(lines) && InRange(lines, b) && b.first < b.last
    requires Source(segments) == BlockAt(lines, b)[1..|BlockAt(lines, b)| - 1]
    ensures AllTerminated(Kept(segments))
  {
    KeptIsSource(segments);
    forall k | 0 <= k < |Kept(segments)| ensures Terminated(Kept(segments)[k]) {
      var line := Kept(segments)[k];
      assert line in Kept(segments);
      var j :| 0 <= j < |Source(segments)| && Source(segments)[j] == line;
      assert lines[b.first + 1 + j] == line;
    }
  }

  /** What tidiness gives for the block alone. */
  lemma TidyBlock(p: Patterns, lines: seq<string>, b: Bounds, segments: seq<Segment>)
    requires InRange(lines, b) && Nested(BlockAt(lines, b)) && CutInto(p, BlockAt(lines, b), segments)
             && Tidy(BlockAt(lines, b), segments)
    ensures Source(segments) == BlockAt(lines, b)[1..|BlockAt(lines, b)| - 1]
    ensures Sum(NewBlock(BlockAt(lines, b), segments)) == 0 && Above(0, 0, NewBlock(BlockAt(lines, b), segments))
    ensures Sum([BlockAt(lines, b)[0]] + Kept(segments) + [COMMENT_LINE]) == 1
  {
    TidySettles(p, BlockAt(lines, b), 1);
    NewBlockIsBalanced(BlockAt(lines, b), segments);
  }

  /** A block that is balanced by itself can stand where a block stood. */
  lemma ReplacedIsBalanced(lines: seq<string>, b: Bounds, block: seq<string>)
    requires Balanced(lines) && InRange(lines, b) && Sum(lines[..b.first]) == 0 && Sum(lines[..b.last + 1]) == 0
    requires Sum(block) == 0 && Above(0, 0, block)
    ensures Balanced(lines[..b.first] + block + lines[b.last + 1..])
  {
    OutsideIsBalanced(lines, b.first, b.last + 1);
    PartsAreBalanced(lines[..b.first], block, lines[b.last + 1..]);
  }

  /**
   When the block's first and last lines open and close it and the directives
   taken out have no braces, no location swallows the closing line, and the new
   lines are balanced and never below depth 0, with the include at depth 1.
   */
  lemma TidyLinesAreBalanced(p: Patterns, lines: seq<string>, b: Bounds, segments: seq<Segment>)
    requires InRange(lines, b) && Balanced(lines) && Nested(BlockAt(lines, b))
    requires Sum(lines[..b.first]) == 0 && Sum(lines[..b.last + 1]) == 0
    requires CutInto(p, BlockAt(lines, b), segments) && Tidy(BlockAt(lines, b), segments)
    ensures Source(segments) == BlockAt(lines, b)[1..|BlockAt(lines, b)| - 1]
    ensures Balanced(lines[..b.first] + NewBlock(BlockAt(lines, b), segments) + lines[b.last + 1..])
    ensures Sum(lines[..b.first] + ([BlockAt(lines, b)[0]] + Kept(segments) + [COMMENT_LINE])) == 1
  {
    TidyBlock(p, lines, b, segments);
    ReplacedIsBalanced(lines, b, NewBlock(BlockAt(lines, b), segments));
    SumConcat(lines[..b.first], [BlockAt(lines, b)[0]] + Kept(segments) + [COMMENT_LINE]);
  }

  /** The new lines are the lines of the text that joins them. */
  lemma ReadBack(lines: seq<string>, b: Bounds, segments: seq<Segment>)
    requires AreLines(lines) && InRange(lines, b) && b.first < b.last
    requires Source(segments) == BlockAt(lines, b)[1..|BlockAt(lines, b)| - 1]
    ensures SplitLines(Join(Replaced(lines, b, NewBlock(BlockAt(lines, b), segments))))
            == Replaced(lines, b, NewBlock(BlockAt(lines, b), segments))
  {
    ReplacedAreLines(lines, b, segments);
    SplitJoin(Replaced(lines, b, NewBlock(BlockAt(lines, b), segments)));
  }

  /** The snippet is included on this line, at depth 1. */
  ghost predicate IncludesAt(lines: seq<string>, index: nat) {
    index < |lines| && lines[index] == INCLUDE_LINE && Sum(lines[..index]) == 1
  }

  /** Where the rewriter puts the include. */
  function IncludeIndex(b: Bounds, segments: seq<Segment>): nat {
    b.first + 2 + |Kept(segments)|
  }

  lemma IncludeStands(lines: seq<string>, b: Bounds, segments: seq<Segment>)
    requires InRange(lines, b)
    requires Sum(lines[..b.first] + ([BlockAt(lines, b)[0]] + Kept(segments) + [COMMENT_LINE])) == 1
    ensures
      var written := Replaced(lines, b, NewBlock(BlockAt(lines, b), segments));
      var i := IncludeIndex(b, segments);
      IncludesAt(written, i) && i + 1 < |written| && written[i + 1] == lines[b.last]
  {
    var block := BlockAt(lines, b);
    var head := lines[..b.first] + ([block[0]] + Kept(segments) + [COMMENT_LINE]);
    var written := Replaced(lines, b, NewBlock(block, segments));
    assert written == head + [INCLUDE_LINE, block[|block| - 1]] + lines[b.last + 1..];
    assert written[..IncludeIndex(b, segments)] == head;
  }

  lemma TidyBlockFits(p: Patterns, lines: seq<string>, b: Bounds, segments: seq<Segment>)
    requires Encloses(lines, b) && Balanced(lines)
    requires CutInto(p, BlockAt(lines, b), segments) && Tidy(BlockAt(lines, b), segments)
    ensures Balanced(Replaced(lines, b, NewBlock(BlockAt(lines, b), segments)))
    ensures b.first < b.last && Source(segments) == BlockAt(lines, b)[1..|BlockAt(lines, b)| - 1]
    ensures Sum(lines[..b.first] + ([BlockAt(lines, b)[0]] + Kept(segments) + [COMMENT_LINE])) == 1
  {
    TidyIsNested(lines, b, segments);
    TidyLinesAreBalanced(p, lines, b, segments);
  }

  lemma SourceBetween(lines: seq<string>, b: Bounds)
    requires InRange(lines, b) && b.first < b.last
    ensures BlockAt(lines, b)[1..|BlockAt(lines, b)| - 1] == lines[b.first + 1..b.last]
  {
    assert |BlockAt(lines, b)| == b.last + 1 - b.first;
    SliceOfSlice(lines, b.first, b.last + 1, 1, b.last - b.first);
  }

  lemma SliceOfSlice(lines: seq<string>, i: nat, j: nat, p: nat, q: nat)
    requires i <= j <= |lines| && p <= q <= j - i
    ensures lines[i..j][p..q] == lines[i + p..i + q]
  {
    var inner, slice := lines[i..j][p..q], lines[i + p..i + q];
    forall k | 0 <= k < q - p ensures inner[k] == slice[k] {
      assert inner[k] == lines[i..j][p + k];
    }
    assert |inner| == |slice| && inner == slice;
  }

  lemma TidyBlockStands(lines: seq<string>, b: Bounds, segments: seq<Segment>)
    requires Encloses(lines, b) && Balanced(lines)
    requires CutInto(LEGACY, BlockAt(lines, b), segments) && Tidy(BlockAt(lines, b), segments)
    ensures Stands(lines, b, segments, Replaced(lines, b, NewBlock(BlockAt(lines, b), segments)))
    ensures b.first < b.last && Source(segments) == BlockAt(lines, b)[1..|BlockAt(lines, b)| - 1]
  {
    TidyBlockFits(LEGACY, lines, b, segments);
    SourceBetween(lines, b);
    IncludeStands(lines, b, segments);
  }

  /**
   These lines are balanced and never below depth 0; what was kept and removed is the
   block without its first and last line, so no location took the closing line; and
   the include is at depth 1, just before that line.
   */
  ghost predicate Stands(lines: seq<string>, b: Bounds, segments: seq<Segment>, written: seq<string>) {
    && Balanced(written)
    && b.first < b.last < |lines| && Source(segments) == lines[b.first + 1..b.last]
    && var i := IncludeIndex(b, segments);
    IncludesAt(written, i) && i + 1 < |written| && written[i + 1] == lines[b.last]
  }

  /**
   The chosen block is opened and closed by its own first and last line, and the directives taken out have no
   braces.
   */
  ghost predicate TidyPage(page: string) {
    var lines := SplitLines(page);
    var b := PanelBlock(lines);
    InRange(lines, b) && Tidy(BlockAt(lines, b), CutOf(lines, b))
  }

  /** Of a page whose panel block is tidy, the text that was written, read back as lines, stands. */
  lemma TidyMigrationIsBalanced(page: string)
    ensures Migrates(page) && TidyPage(page) ==>
              var lines := SplitLines(page);
              var b := PanelBlock(lines);
              Stands(lines, b, CutOf(lines, b), SplitLines(Migrated(page).value))
  {
    if Migrates(page) && TidyPage(page) {
      var lines := SplitLines(page);
      var b := PanelBlock(lines);
      MigrationShape(page);
      TidyBlockStands(lines, b, CutOf(lines, b));
      SplitGivesLines(page);
      ReadBack(lines, b, CutOf(lines, b));
    }
  }
}
