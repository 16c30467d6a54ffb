/** The text handling that scripts/nexa-release-helper.py leans on: lines, braces and the three patterns. */
module VhostText {
  import Text

  // ----- str.splitlines(keepends=True) and "".join -----

  /** What ends a line. read_text has already turned every \r\n and \r into \n, so \r is treated like the others. */
  predicate IsBoundary(c: char) {
    c in "\n\r\U{0B}\U{0C}\U{1C}\U{1D}\U{1E}\U{85}\U{2028}\U{2029}"
  }

  function LineLength(s: string): (n: nat)
    requires s != []
    ensures 1 <= n <= |s|
  {
    if IsBoundary(s[0]) || |s| == 1 then 1 else 1 + LineLength(s[1..])
  }

  function SplitLines(s: string): seq<string>
    decreases |s|
  {
    if s == [] then [] else [s[..LineLength(s)]] + SplitLines(s[LineLength(s)..])
  }

  function Join(lines: seq<string>): string {
    if lines == [] then [] else lines[0] + Join(lines[1..])
  }

  lemma {:induction false} JoinSplit(s: string)
    ensures Join(SplitLines(s)) == s
    decreases |s|
  {
    if s != [] { JoinSplit(s[LineLength(s)..]); }
  }

  lemma {:induction false} JoinConcat(a: seq<string>, b: seq<string>)
    ensures Join(a + b) == Join(a) + Join(b)
  {
    if a == [] {
      assert a + b == b;
    } else {
      assert (a + b)[1..] == a[1..] + b;
      JoinConcat(a[1..], b);
    }
  }

  /** A line as splitlines gives it: one boundary, at its end, or none. */
  predicate Terminated(line: string) {
    line != [] && IsBoundary(line[|line| - 1]) && forall i :: 0 <= i < |line| - 1 ==> !IsBoundary(line[i])
  }

  predicate IsLine(line: string) {
    line != [] && forall i :: 0 <= i < |line| - 1 ==> !IsBoundary(line[i])
  }

  ghost predicate AreLines(lines: seq<string>) {
    && (forall k :: 0 <= k < |lines| ==> IsLine(lines[k]))
    && (forall k :: 0 <= k < |lines| - 1 ==> Terminated(lines[k]))
  }

  lemma {:induction false} FirstLineIsLine(s: string)
    requires s != []
    ensures IsLine(s[..LineLength(s)])
    ensures LineLength(s) < |s| ==> Terminated(s[..LineLength(s)])
    decreases |s|
  {
    if !IsBoundary(s[0]) && |s| != 1 {
      FirstLineIsLine(s[1..]);
      var n := LineLength(s[1..]);
      assert s[..n + 1] == [s[0]] + s[1..][..n];
    }
  }

  lemma {:induction false} SplitGivesLines(s: string)
    ensures AreLines(SplitLines(s))
    decreases |s|
  {
    if s != [] {
      FirstLineIsLine(s);
      SplitGivesLines(s[LineLength(s)..]);
    }
  }

  lemma {:induction false} LineLengthOf(line: string, rest: string)
    requires Terminated(line) || (IsLine(line) && rest == [])
    ensures LineLength(line + rest) == |line|
    decreases |line|
  {
    if |line| > 1 {
      assert (line + rest)[1..] == line[1..] + rest;
      LineLengthOf(line[1..], rest);
    }
  }

  /** Joining lines and splitting the text again gives the same lines. */
  lemma {:induction false} SplitJoin(lines: seq<string>)
    requires AreLines(lines)
    ensures SplitLines(Join(lines)) == lines
    decreases |lines|
  {
    if lines != [] {
      var rest := Join(lines[1..]);
      if |lines| == 1 { assert Join(lines[1..]) == []; }
      LineLengthOf(lines[0], rest);
      SplitJoin(lines[1..]);
    }
  }

  predicate Contains(text: string, part: string)
  {
    part <= text || (text != [] && Contains(text[1..], part))
  }

  lemma {:induction false} ContainsInside(before: string, part: string, after: string)
    ensures Contains(before + part + after, part)
    decreases |before|
  {
    var text := before + part + after;
    if before == [] {
      assert text[..|part|] == part;
    } else {
      assert text[1..] == before[1..] + part + after;
      ContainsInside(before[1..], part, after);
    }
  }

  // ----- braces -----

  /** Where a character stands in its line. */
  datatype Place = Structure | Quoted(quote: char) | Escaped(quote: char) | Comment

  /** How a character moves on: a backslash escapes only inside quotes, a comment runs to the end. */
  function Step(p: Place, c: char): Place {
    match p
    case Comment => Comment
    case Escaped(q) => Quoted(q)
    case Quoted(q) => if c == '\\' then Escaped(q) else if c == q then Structure else p
    case Structure => if c == '\'' || c == '"' then Quoted(c) else if c == '#' then Comment else Structure
  }

  function PlaceAfter(line: string): Place {
    if line == [] then Structure else Step(PlaceAfter(line[..|line| - 1]), line[|line| - 1])
  }

  /** The depth change of one line: its structural opening braces minus its structural closing ones. */
  function Delta(line: string): int {
    if line == [] then 0
    else
      var before := line[..|line| - 1];
      Delta(before) + (if PlaceAfter(before) != Structure then 0 else if line[|line| - 1]
        == '{' then 1 else if line[|line| - 1] == '}' then -1 else 0)
  }

  lemma {:induction false} CommentEnds(line: string, k: nat)
    requires k <= |line| && PlaceAfter(line[..k]) == Comment
    ensures Delta(line) == Delta(line[..k])
    decreases |line|
  {
    if k < |line| {
      assert line[..|line| - 1][..k] == line[..k];
      CommentStays(line[..|line| - 1], k);
      CommentEnds(line[..|line| - 1], k);
    } else {
      assert line[..k] == line;
    }
  }

  lemma {:induction false} CommentStays(line: string, k: nat)
    requires k <= |line| && PlaceAfter(line[..k]) == Comment
    ensures PlaceAfter(line) == Comment
    decreases |line|
  {
    if k < |line| {
      assert line[..|line| - 1][..k] == line[..k];
      CommentStays(line[..|line| - 1], k);
    } else {
      assert line[..k] == line;
    }
  }

  /** brace_delta: an empty `quote` is None here. */
  method BraceDelta(line: string) returns (delta: int)
    ensures delta == Delta(line)
  {
    delta := 0;
    var quoted, quote, escaped := false, ' ', false;
    for i := 0 to |line|
      invariant delta == Delta(line[..i])
      invariant PlaceAfter(line[..i])
                == (if escaped then Escaped(quote) else if quoted then Quoted(quote) else Structure)
      invariant escaped ==> quoted
    {
      var character := line[i];
      assert line[..i + 1][..i] == line[..i] && line[..i + 1][i] == character;
      if escaped { escaped := false; continue; }
      if quoted && character == '\\' { escaped := true; continue; }
      if quoted && character == quote { quoted := false; continue; }
      if quoted { continue; }
      if character == '\'' || character == '"' {
        quoted, quote := true, character;
      } else if character == '#' {
        CommentEnds(line, i + 1);
        return;
      } else if character == '{' {
        delta := delta + 1;
      } else if character == '}' {
        delta := delta - 1;
      }
    }
    assert line[..|line|] == line;
  }

  // ----- patterns -----

  /** \s on text: unicode white space and the four separators. */
  predicate IsPatternSpace(c: char) {
    Text.IsSpace(c) || '\U{1C}' <= c <= '\U{1F}'
  }

  function SkipSpace(s: string): string {
    if s != [] && IsPatternSpace(s[0]) then SkipSpace(s[1..]) else s
  }

  /** \s*\{ at the beginning of s. */
  predicate OpensBlock(s: string) {
    var rest := SkipSpace(s);
    rest != [] && rest[0] == '{'
  }

  predicate StartsWith(s: string, word: string) {
    word <= s
  }

  /** ^\s*server\s*\{ */
  predicate IsServer(line: string) {
    var s := SkipSpace(line);
    StartsWith(s, "server") && OpensBlock(s[6..])
  }

  /** (?:/metrics|/api/v1/auth/|/)\s*\{ */
  predicate IsProxyPath(s: string) {
    || (StartsWith(s, "/metrics") && OpensBlock(s[8..]))
    || (StartsWith(s, "/api/v1/auth/") && OpensBlock(s[13..]))
    || (StartsWith(s, "/") && OpensBlock(s[1..]))
  }

  /** ^\s*location\s+(?:=\s+)? and one of the three paths. */
  predicate IsLocation(line: string) {
    var s := SkipSpace(line);
    && StartsWith(s, "location") && |s| > 8 && IsPatternSpace(s[8])
    && var t := SkipSpace(s[8..]);
       if t != [] && t[0] == '=' then |t| > 1 && IsPatternSpace(t[1]) && IsProxyPath(SkipSpace(t[1..]))
       else IsProxyPath(t)
  }

  /** ^\s*(?:limit_req_status|client_max_body_size|client_body_timeout)\s+ */
  predicate IsDirective(line: string) {
    var s := SkipSpace(line);
    || (StartsWith(s, "limit_req_status") && |s| > 16 && IsPatternSpace(s[16]))
    || (StartsWith(s, "client_max_body_size") && |s| > 20 && IsPatternSpace(s[20]))
    || (StartsWith(s, "client_body_timeout") && |s| > 19 && IsPatternSpace(s[19]))
  }
}
