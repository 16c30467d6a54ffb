/** What the lexer and the four patterns of the migration mean, stated on the text itself. */
module VhostPatterns {
  import opened VhostText

  // ----- the patterns -----

  predicate Spaces(s: string) {
    forall i :: 0 <= i < |s| ==> IsPatternSpace(s[i])
  }

  lemma {:induction false} SkipSpaceSplits(s: string) returns (spaces: string)
    ensures Spaces(spaces) && s == spaces + SkipSpace(s)
    ensures SkipSpace(s) == [] || !IsPatternSpace(SkipSpace(s)[0])
    decreases |s|
  {
    spaces := [];
    if s != [] && IsPatternSpace(s[0]) {
      var rest := SkipSpaceSplits(s[1..]);
      spaces := [s[0]] + rest;
    }
  }

  lemma {:induction false} SkipSpaceSkips(spaces: string, s: string)
    requires Spaces(spaces) && (s == [] || !IsPatternSpace(s[0]))
    ensures SkipSpace(spaces + s) == s
    decreases |spaces|
  {
    if spaces == [] {
      assert spaces + s == s;
    } else {
      assert (spaces + s)[1..] == spaces[1..] + s;
      SkipSpaceSkips(spaces[1..], s);
    }
  }

  predicate Opens(s: string, spaces: string, rest: string) {
    Spaces(spaces) && s == spaces + "{" + rest
  }

  lemma OpeningSplits(s: string) returns (spaces: string, rest: string)
    requires OpensBlock(s)
    ensures Opens(s, spaces, rest)
  {
    spaces := SkipSpaceSplits(s);
    var brace := SkipSpace(s);
    rest := brace[1..];
    assert brace == "{" + rest;
    assert spaces + brace == spaces + "{" + rest;
  }

  lemma OpeningOpens(s: string, spaces: string, rest: string)
    requires Opens(s, spaces, rest)
    ensures OpensBlock(s)
  {
    var brace := "{" + rest;
    assert s == spaces + brace;
    SkipSpaceSkips(spaces, brace);
  }

  lemma OpensIff(s: string)
    ensures OpensBlock(s) <==> exists spaces, rest :: Opens(s, spaces, rest)
  {
    if OpensBlock(s) { var spaces, rest := OpeningSplits(s); }
    if spaces, rest :| Opens(s, spaces, rest) { OpeningOpens(s, spaces, rest); }
  }

  /** A line that begins, after blanks, with a word. */
  predicate Begins(line: string, spaces: string, word: string, rest: string) {
    Spaces(spaces) && line == spaces + word + rest
  }

  lemma BeginsIff(line: string, word: string)
    requires word != [] && !IsPatternSpace(word[0])
    ensures StartsWith(SkipSpace(line), word) <==> exists spaces, rest :: Begins(line, spaces, word, rest)
    ensures forall spaces, rest :: Begins(line, spaces, word, rest) ==> SkipSpace(line) == word + rest
  {
    if StartsWith(SkipSpace(line), word) {
      var spaces := SkipSpaceSplits(line);
      var rest := SkipSpace(line)[|word|..];
      assert SkipSpace(line) == word + rest;
      assert line == spaces + word + rest;
      assert Begins(line, spaces, word, rest);
    }
    forall spaces, rest | Begins(line, spaces, word, rest) ensures SkipSpace(line) == word + rest {
      assert line == spaces + (word + rest);
      SkipSpaceSkips(spaces, word + rest);
    }
  }

  ghost predicate ServerLine(line: string) {
    exists spaces, rest :: Begins(line, spaces, "server", rest) && exists blanks, tail :: Opens(rest, blanks, tail)
  }

  /** A server line is blanks, the word, blanks, an opening brace, and anything. */
  lemma IsServerIff(line: string)
    ensures IsServer(line) <==> ServerLine(line)
  {
    assert "server"[0] == 's';
    BeginsIff(line, "server");
    var s := SkipSpace(line);
    if IsServer(line) {
      OpensIff(s[6..]);
      var spaces, rest :| Begins(line, spaces, "server", rest);
      assert s == "server" + rest && rest == s[6..];
    }
    if ServerLine(line) {
      var spaces, rest :| Begins(line, spaces, "server", rest) && exists blanks, tail :: Opens(rest, blanks, tail);
      assert s == "server" + rest && rest == s[6..];
      OpensIff(rest);
    }
  }

  const LIMIT_STATUS := "limit_req_status"
  const MAX_BODY := "client_max_body_size"
  const BODY_TIMEOUT := "client_body_timeout"

  /** The word, then at least one blank. */
  predicate WordThenBlank(s: string, word: string) {
    StartsWith(s, word) && |s| > |word| && IsPatternSpace(s[|word|])
  }

  ghost predicate DirectiveLine(line: string, word: string) {
    exists spaces, rest :: Begins(line, spaces, word, rest) && rest != [] && IsPatternSpace(rest[0])
  }

  lemma DirectiveLineIff(line: string, word: string)
    requires word != [] && !IsPatternSpace(word[0])
    ensures WordThenBlank(SkipSpace(line), word) <==> DirectiveLine(line, word)
  {
    BeginsIff(line, word);
    var s := SkipSpace(line);
    if WordThenBlank(s, word) {
      var spaces, rest :| Begins(line, spaces, word, rest);
      assert s == word + rest && rest[0] == s[|word|];
    }
    if DirectiveLine(line, word) {
      var spaces, rest :| Begins(line, spaces, word, rest) && rest != [] && IsPatternSpace(rest[0]);
      assert s == word + rest && s[|word|] == rest[0];
    }
  }

  /** Exactly the three directives are matched, each followed by a blank. */
  lemma IsDirectiveIff(line: string)
    ensures IsDirective(line) <==>
              DirectiveLine(line, LIMIT_STATUS) || DirectiveLine(line, MAX_BODY) || DirectiveLine(line, BODY_TIMEOUT)
  {
    assert LIMIT_STATUS[0] == 'l' && MAX_BODY[0] == 'c' && BODY_TIMEOUT[0] == 'c';
    assert |LIMIT_STATUS| == 16 && |MAX_BODY| == 20 && |BODY_TIMEOUT| == 19;
    DirectiveLineIff(line, LIMIT_STATUS);
    DirectiveLineIff(line, MAX_BODY);
    DirectiveLineIff(line, BODY_TIMEOUT);
  }

  const METRICS := "/metrics"
  const AUTH := "/api/v1/auth/"
  const ROOT := "/"

  /** One of the three paths, blanks, an opening brace. */
  predicate PathOpens(s: string, path: string, blanks: string, rest: string) {
    (path == METRICS || path == AUTH || path == ROOT) && Spaces(blanks) && s == path + blanks + "{" + rest
  }

  lemma PathIff(s: string, path: string)
    ensures StartsWith(s, path) && OpensBlock(s[|path|..]) <==>
              exists blanks, rest :: Spaces(blanks) && s == path + blanks + "{" + rest
  {
    if StartsWith(s, path) && OpensBlock(s[|path|..]) {
      OpensIff(s[|path|..]);
      var blanks, rest :| Opens(s[|path|..], blanks, rest);
      assert s == path + s[|path|..];
      assert s == path + blanks + "{" + rest;
    }
    if blanks, rest :| Spaces(blanks) && s == path + blanks + "{" + rest {
      assert s[|path|..] == blanks + "{" + rest;
      assert Opens(s[|path|..], blanks, rest);
      OpensIff(s[|path|..]);
    }
  }

  /** Exactly the three paths are matched. */
  lemma IsProxyPathIff(s: string)
    ensures IsProxyPath(s) <==> exists path, blanks, rest :: PathOpens(s, path, blanks, rest)
  {
    assert |METRICS| == 8 && |AUTH| == 13 && |ROOT| == 1;
    PathIff(s, METRICS);
    PathIff(s, AUTH);
    PathIff(s, ROOT);
    if StartsWith(s, METRICS) && OpensBlock(s[8..]) {
      var blanks, rest :| Spaces(blanks) && s == METRICS + blanks + "{" + rest;
      assert PathOpens(s, METRICS, blanks, rest);
    } else if StartsWith(s, AUTH) && OpensBlock(s[13..]) {
      var blanks, rest :| Spaces(blanks) && s == AUTH + blanks + "{" + rest;
      assert PathOpens(s, AUTH, blanks, rest);
    } else if StartsWith(s, ROOT) && OpensBlock(s[1..]) {
      var blanks, rest :| Spaces(blanks) && s == ROOT + blanks + "{" + rest;
      assert PathOpens(s, ROOT, blanks, rest);
    }
  }

  /** The modifier in front of a path: nothing, or an equals sign and at least one blank. */
  predicate Modifier(modifier: string) {
    modifier == "" || (|modifier| > 1 && modifier[0] == '=' && Spaces(modifier[1..]))
  }

  ghost predicate LocationLine(line: string) {
    exists spaces, rest :: Begins(line, spaces, "location", rest) && LocationRest(rest)
  }

  /** After the word: at least one blank, perhaps the modifier, one of the paths, blanks, an opening brace. */
  ghost predicate LocationRest(rest: string) {
    exists blanks, modifier, s :: ModifiedPath(rest, blanks, modifier, s)
  }

  predicate ModifiedPath(rest: string, blanks: string, modifier: string, s: string) {
    blanks != [] && Spaces(blanks) && Modifier(modifier) && IsProxyPath(s) && rest == blanks + modifier + s
  }

  /** What IsLocation checks after the word and its first blank. */
  predicate PathFollows(t: string) {
    if t != [] && t[0] == '=' then |t| > 1 && IsPatternSpace(t[1]) && IsProxyPath(SkipSpace(t[1..])) else IsProxyPath(t)
  }

  lemma PathBeginsWithSlash(s: string)
    requires IsProxyPath(s)
    ensures s != [] && s[0] == '/'
  {
    assert METRICS[0] == '/' && AUTH[0] == '/';
  }

  lemma FollowingPath(t: string) returns (modifier: string, s: string)
    requires PathFollows(t)
    ensures Modifier(modifier) && IsProxyPath(s) && t == modifier + s
  {
    if t != [] && t[0] == '=' {
      var tail := t[1..];
      var blanks := SkipSpaceSplits(tail);
      modifier, s := ['='] + blanks, SkipSpace(tail);
      assert t == ['='] + tail == modifier + s;
      assert modifier[1..] == blanks;
      assert blanks == [] ==> tail == s;
    } else {
      modifier, s := "", t;
      assert t == "" + t;
    }
  }

  lemma PathIsFollowing(modifier: string, s: string)
    requires Modifier(modifier) && IsProxyPath(s)
    ensures PathFollows(modifier + s)
  {
    var t := modifier + s;
    PathBeginsWithSlash(s);
    if modifier != "" {
      assert t[1..] == modifier[1..] + s;
      SkipSpaceSkips(modifier[1..], s);
      assert t[1] == modifier[1..][0];
    } else {
      assert t == s;
    }
  }

  lemma RestSkips(rest: string, blanks: string, t: string)
    requires blanks != [] && Spaces(blanks) && t != [] && !IsPatternSpace(t[0]) && rest == blanks + t
    ensures rest != [] && IsPatternSpace(rest[0]) && SkipSpace(rest) == t
  {
    SkipSpaceSkips(blanks, t);
    assert rest[0] == blanks[0];
  }

  lemma FollowingBegins(modifier: string, s: string)
    requires Modifier(modifier) && s != [] && s[0] == '/'
    ensures (modifier + s) != [] && !IsPatternSpace((modifier + s)[0])
  {
    if modifier == "" {
      assert (modifier + s)[0] == s[0];
    } else {
      assert (modifier + s)[0] == modifier[0];
    }
  }

  lemma JoinedTwice(a: string, b: string, c: string)
    ensures a + b + c == a + (b + c)
  {
  }

  lemma RestIsFollowed(rest: string, blanks: string, modifier: string, s: string)
    requires ModifiedPath(rest, blanks, modifier, s)
    ensures rest != [] && IsPatternSpace(rest[0]) && PathFollows(SkipSpace(rest))
  {
    PathBeginsWithSlash(s);
    FollowingBegins(modifier, s);
    JoinedTwice(blanks, modifier, s);
    RestSkips(rest, blanks, modifier + s);
    PathIsFollowing(modifier, s);
  }

  lemma FollowedIsRest(rest: string)
    requires rest != [] && IsPatternSpace(rest[0]) && PathFollows(SkipSpace(rest))
    ensures LocationRest(rest)
  {
    var blanks := SkipSpaceSplits(rest);
    var modifier, s := FollowingPath(SkipSpace(rest));
    assert rest == blanks + modifier + s;
    assert blanks == [] ==> rest == SkipSpace(rest);
    assert ModifiedPath(rest, blanks, modifier, s);
  }

  lemma LocationRestIff(rest: string)
    ensures LocationRest(rest) <==> rest != [] && IsPatternSpace(rest[0]) && PathFollows(SkipSpace(rest))
  {
    if blanks, modifier, s :| ModifiedPath(rest, blanks, modifier, s) { RestIsFollowed(rest, blanks, modifier, s); }
    if rest != [] && IsPatternSpace(rest[0]) && PathFollows(SkipSpace(rest)) { FollowedIsRest(rest); }
  }

  /** A location line is blanks, the word, blanks, perhaps "=" and blanks, one of the three paths, blanks, a brace. */
  lemma IsLocationIff(line: string)
    ensures IsLocation(line) <==> LocationLine(line)
  {
    assert "location"[0] == 'l';
    BeginsIff(line, "location");
    var s := SkipSpace(line);
    if IsLocation(line) {
      var spaces, rest :| Begins(line, spaces, "location", rest);
      assert s == "location" + rest && rest == s[8..];
      LocationRestIff(rest);
    }
    if LocationLine(line) {
      var spaces, rest :| Begins(line, spaces, "location", rest) && LocationRest(rest);
      assert s == "location" + rest && rest == s[8..];
      LocationRestIff(rest);
    }
  }

  // ----- the lexer -----

  function PlaceFrom(p: Place, s: string): Place {
    if s == [] then p else Step(PlaceFrom(p, s[..|s| - 1]), s[|s| - 1])
  }

  lemma {:induction false} PlaceGoesOn(a: string, b: string)
    ensures PlaceAfter(a + b) == PlaceFrom(PlaceAfter(a), b)
    decreases |b|
  {
    if b == [] {
      assert a + b == a;
    } else {
      assert (a + b)[..|a + b| - 1] == a + b[..|b| - 1];
      PlaceGoesOn(a, b[..|b| - 1]);
    }
  }

  lemma {:induction false} PlaceFirst(p: Place, c: char, s: string)
    ensures PlaceFrom(p, [c] + s) == PlaceFrom(Step(p, c), s)
    decreases |s|
  {
    var all := [c] + s;
    if s == [] {
      assert all[..|all| - 1] == [];
    } else {
      assert all[..|all| - 1] == [c] + s[..|s| - 1];
      PlaceFirst(p, c, s[..|s| - 1]);
    }
  }

  /** Braces in a text that stands in the open, with no quote and no comment, all count. */
  function Balance(s: string): int {
    if s == [] then 0
    else Balance(s[..|s| - 1]) + (if s[|s| - 1] == '{' then 1 else if s[|s| - 1] == '}' then -1 else 0)
  }

  predicate Bare(s: string) {
    forall i :: 0 <= i < |s| ==> s[i] != '\'' && s[i] != '"' && s[i] != '#'
  }

  lemma {:induction false} BareCounts(a: string, s: string)
    requires PlaceAfter(a) == Structure && Bare(s)
    ensures PlaceAfter(a + s) == Structure && Delta(a + s) == Delta(a) + Balance(s)
    decreases |s|
  {
    if s == [] {
      assert a + s == a;
    } else {
      assert (a + s)[..|a + s| - 1] == a + s[..|s| - 1];
      BareCounts(a, s[..|s| - 1]);
    }
  }

  /**
   The inside of a quotation: an escaped character counts as itself, and the closing quote does not occur
   unescaped.
   */
  predicate Inside(quote: char, s: string)
    decreases |s|
  {
    || s == []
    || (s[0] == '\\' && |s| >= 2 && Inside(quote, s[2..]))
    || (s[0] != '\\' && s[0] != quote && Inside(quote, s[1..]))
  }

  lemma {:induction false} InsideStays(quote: char, s: string)
    requires Inside(quote, s)
    ensures PlaceFrom(Quoted(quote), s) == Quoted(quote)
    decreases |s|
  {
    if s == [] {
    } else if s[0] == '\\' {
      assert s == [s[0]] + ([s[1]] + s[2..]);
      PlaceFirst(Quoted(quote), s[0], [s[1]] + s[2..]);
      PlaceFirst(Escaped(quote), s[1], s[2..]);
      InsideStays(quote, s[2..]);
    } else {
      assert s == [s[0]] + s[1..];
      PlaceFirst(Quoted(quote), s[0], s[1..]);
      InsideStays(quote, s[1..]);
    }
  }

  predicate Hidden(p: Place) {
    p != Structure
  }

  /** Nothing counts while every character before it leaves the lexer in a quotation or a comment. */
  lemma {:induction false} HiddenCountsNothing(a: string, s: string)
    requires forall k :: 0 <= k < |s| ==> Hidden(PlaceAfter(a + s[..k]))
    ensures Delta(a + s) == Delta(a)
    decreases |s|
  {
    if s == [] {
      assert a + s == a;
    } else {
      var front := s[..|s| - 1];
      assert (a + s)[..|a + s| - 1] == a + front;
      forall k | 0 <= k < |front| ensures Hidden(PlaceAfter(a + front[..k])) {
        assert front[..k] == s[..k];
      }
      HiddenCountsNothing(a, front);
    }
  }

  lemma {:induction false} InsideIsHidden(quote: char, s: string, k: nat)
    requires Inside(quote, s) && k <= |s|
    ensures Hidden(PlaceFrom(Quoted(quote), s[..k]))
    decreases |s|
  {
    if k == 0 {
    } else if s[0] == '\\' {
      if k == 1 {
        assert s[..1] == [s[0]] + [];
        PlaceFirst(Quoted(quote), s[0], []);
      } else {
        assert s[..k] == [s[0]] + ([s[1]] + s[2..][..k - 2]);
        PlaceFirst(Quoted(quote), s[0], [s[1]] + s[2..][..k - 2]);
        PlaceFirst(Escaped(quote), s[1], s[2..][..k - 2]);
        InsideIsHidden(quote, s[2..], k - 2);
      }
    } else {
      assert s[..k] == [s[0]] + s[1..][..k - 1];
      PlaceFirst(Quoted(quote), s[0], s[1..][..k - 1]);
      InsideIsHidden(quote, s[1..], k - 1);
    }
  }

  predicate IsQuote(c: char) {
    c == '\'' || c == '"'
  }

  lemma OneMore(a: string, c: char)
    ensures PlaceAfter(a + [c]) == Step(PlaceAfter(a), c)
    ensures Delta(a + [c])
            == Delta(a) + (if PlaceAfter(a) != Structure then 0 else if c == '{' then 1 else if c == '}' then -1 else 0)
  {
    assert (a + [c])[..|a|] == a;
  }

  lemma InsideCountsNothing(a: string, quote: char, s: string)
    requires PlaceAfter(a) == Quoted(quote) && Inside(quote, s)
    ensures Delta(a + s) == Delta(a) && PlaceAfter(a + s) == Quoted(quote)
  {
    forall k | 0 <= k < |s| ensures Hidden(PlaceAfter(a + s[..k])) {
      PlaceGoesOn(a, s[..k]);
      InsideIsHidden(quote, s, k);
    }
    HiddenCountsNothing(a, s);
    PlaceGoesOn(a, s);
    InsideStays(quote, s);
  }

  /** A quotation in either kind of quotes, escapes included, counts no brace and leaves the lexer in the open again. */
  lemma QuotationCountsNothing(a: string, quote: char, s: string)
    requires PlaceAfter(a) == Structure && IsQuote(quote) && Inside(quote, s)
    ensures Delta(a + [quote] + s + [quote]) == Delta(a) && PlaceAfter(a + [quote] + s + [quote]) == Structure
  {
    OneMore(a, quote);
    InsideCountsNothing(a + [quote], quote, s);
    OneMore(a + [quote] + s, quote);
  }

  /** From a comment sign in the open to the end of the line nothing counts. */
  lemma CommentCountsNothing(a: string, s: string)
    requires PlaceAfter(a) == Structure
    ensures Delta(a + ("#" + s)) == Delta(a)
  {
    var all, head := a + ("#" + s), a + "#";
    assert head[..|head| - 1] == a && all[..|head|] == head;
    assert PlaceAfter(head) == Comment && Delta(head) == Delta(a);
    CommentEnds(all, |head|);
  }
}
