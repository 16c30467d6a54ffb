/** The few string operations of the Go standard library that the modelled code leans on. */
module Text {
  import opened Wrappers

  /** unicode.IsSpace. */
  predicate IsSpace(c: char) {
    || '\t' <= c <= '\r' || c == ' ' || c == '\U{85}' || c == '\U{A0}' || c == '\U{1680}'
       || '\U{2000}' <= c <= '\U{200A}'
    || c == '\U{2028}' || c == '\U{2029}' || c == '\U{202F}' || c == '\U{205F}' || c == '\U{3000}'
  }

  function TrimLeft(s: string): (t: string)
    ensures t == [] || !IsSpace(t[0])
    ensures |t| <= |s|
  {
    if s == [] || !IsSpace(s[0]) then s else TrimLeft(s[1..])
  }

  function TrimRight(s: string): (t: string)
    ensures t <= s
    ensures t == [] || !IsSpace(t[|t| - 1])
  {
    if s == [] || !IsSpace(s[|s| - 1]) then s else TrimRight(s[..|s| - 1])
  }

  /** strings.TrimSpace. */
  function TrimSpace(s: string): (t: string)
    ensures t == [] || (!IsSpace(t[0]) && !IsSpace(t[|t| - 1]))
  {
    TrimRight(TrimLeft(s))
  }

  predicate Blank(s: string) {
    forall i :: 0 <= i < |s| ==> IsSpace(s[i])
  }

  lemma {:induction false} TrimLeftSplits(s: string) returns (left: string)
    ensures Blank(left) && s == left + TrimLeft(s)
    decreases |s|
  {
    left := [];
    if s != [] && IsSpace(s[0]) {
      var rest := TrimLeftSplits(s[1..]);
      left := [s[0]] + rest;
    }
  }

  lemma {:induction false} TrimRightSplits(s: string) returns (right: string)
    ensures Blank(right) && s == TrimRight(s) + right
    decreases |s|
  {
    right := [];
    if s != [] && IsSpace(s[|s| - 1]) {
      var rest := TrimRightSplits(s[..|s| - 1]);
      right := rest + [s[|s| - 1]];
    }
  }

  /** Trimming takes away blanks on both sides and nothing else. */
  lemma TrimSpaceSplits(s: string) returns (left: string, right: string)
    ensures Blank(left) && Blank(right) && s == left + TrimSpace(s) + right
  {
    left := TrimLeftSplits(s);
    right := TrimRightSplits(TrimLeft(s));
  }

  /** A text without a blank at either end is left alone. */
  lemma TrimSpaceKeeps(s: string)
    requires s == [] || (!IsSpace(s[0]) && !IsSpace(s[|s| - 1]))
    ensures TrimSpace(s) == s
  {
  }

  lemma TrimSpaceIdempotent(s: string)
    ensures TrimSpace(TrimSpace(s)) == TrimSpace(s)
  {
  }

  predicate HasPrefix(s: string, prefix: string) {
    prefix <= s
  }

  predicate HasSuffix(s: string, suffix: string) {
    |suffix| <= |s| && s[|s| - |suffix|..] == suffix
  }

  /** Go's < on strings: bytewise on UTF-8, which is the order of the code points. */
  predicate Less(a: string, b: string) {
    b != [] && (a == [] || a[0] < b[0] || (a[0] == b[0] && Less(a[1..], b[1..])))
  }

  /** The first difference decides; a proper prefix comes first. */
  lemma {:induction false} LessIff(a: string, b: string)
    ensures Less(a, b) <==> (a < b || exists i :: FirstDifference(a, b, i) && a[i] < b[i])
    decreases |a|
  {
    if a != [] && b != [] && a[0] == b[0] {
      LessIff(a[1..], b[1..]);
      assert a == [a[0]] + a[1..] && b == [b[0]] + b[1..];
      if i :| FirstDifference(a[1..], b[1..], i) && a[1..][i] < b[1..][i] { assert FirstDifference(a, b, i + 1); }
      if i :| FirstDifference(a, b, i) && a[i] < b[i] {
        assert a[0] == a[..i][0] || i == 0;
        assert FirstDifference(a[1..], b[1..], i - 1);
      }
    } else if a != [] && b != [] {
      assert FirstDifference(a, b, 0);
    }
  }

  predicate FirstDifference(a: string, b: string, i: int) {
    0 <= i < |a| && i < |b| && a[..i] == b[..i] && a[i] != b[i]
  }

  lemma {:induction false} LessIsTotal(a: string, b: string)
    ensures Less(a, b) || Less(b, a) || a == b
    ensures !(Less(a, b) && Less(b, a))
    ensures !Less(a, a)
    decreases |a|
  {
    if a != [] {
      LessIsTotal(a[1..], a[1..]);
      if b != [] && a[0] == b[0] {
        LessIsTotal(a[1..], b[1..]);
        assert a == [a[0]] + a[1..] && b == [b[0]] + b[1..];
      }
    }
  }

  lemma {:induction false} LessIsTransitive(a: string, b: string, c: string)
    requires Less(a, b) && Less(b, c)
    ensures Less(a, c)
    decreases |a|
  {
    if a != [] && a[0] == b[0] && b[0] == c[0] { LessIsTransitive(a[1..], b[1..], c[1..]); }
  }

  /** strings.Cut: the text before and after the first separator, or None. */
  function Cut(s: string, separator: char): (r: Option<(string, string)>)
    ensures r.None? <==> separator !in s
    ensures r.Some? ==> separator !in r.value.0 && s == r.value.0 + [separator] + r.value.1
  {
    if s == [] then None
    else if s[0] == separator then Some(([], s[1..]))
    else
      match Cut(s[1..], separator)
      case None => None
      case Some((before, after)) => Some(([s[0]] + before, after))
  }

  /** The text before the first separator is what stands before it. */
  lemma {:induction false} CutFirst(before: string, after: string, separator: char)
    requires separator !in before
    ensures Cut(before + [separator] + after, separator) == Some((before, after))
    decreases |before|
  {
    var whole := before + [separator] + after;
    if before == [] {
      assert whole[1..] == after;
    } else {
      assert whole[1..] == before[1..] + [separator] + after;
      CutFirst(before[1..], after, separator);
      assert before[0] in before && [before[0]] + before[1..] == before;
    }
  }

  const DIGITS := "0123456789"

  /** strconv.Itoa for numbers of either sign. */
  function Decimal(n: int): (s: string)
    ensures s != []
    decreases if n < 0 then 1 - n else n
  {
    if n < 0 then "-" + Decimal(-n)
    else if n < 10 then [DIGITS[n]]
    else Decimal(n / 10) + [DIGITS[n % 10]]
  }
}
