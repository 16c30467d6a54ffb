/**
 shellQuote of cmd/nexa/publishing.go against a reader that follows sections
 2.2.1 (backslash), 2.2.2 (single quotes) and 2.3 (where a token ends) of the
 POSIX Shell Command Language. Double quotes and expansions are not modelled:
 to this reader their characters are unquoted characters of a word.
 */
module ShellQuote {

  // ----- the Go side -----

  /** strings.ReplaceAll for a one-character pattern. */
  function ReplaceAll(s: string, from: char, to: string): string {
    if s == [] then [] else (if s[0] == from then to else [s[0]]) + ReplaceAll(s[1..], from, to)
  }

  function Quote(value: string): string {
    "'" + ReplaceAll(value, '\'', "'\\''") + "'"
  }

  // ----- the shell side -----

  /** A character of a word, and whether some quoting makes it literal. */
  datatype Read = Read(c: char, quoted: bool)

  datatype Token =
    | Word(chars: seq<Read>, rest: string)
    | NoWord(rest: string)
    | Unterminated
    | NotText       // a shell reads text; NUL is not text

  const NUL := '\U{0000}'

  /** An unquoted blank, newline or operator character ends a word. */
  predicate EndsWord(c: char) {
    c in " \t\n|&;<>()"
  }

  function Prepend(chars: seq<Read>, t: Token): Token {
    if t.Word? then Word(chars + t.chars, t.rest) else t
  }

  /** Outside quotes; `begun` says that a word has begun, which quoting nothing does too. */
  function ReadWord(input: string, begun: bool): Token
    decreases |input|
  {
    if input == [] || EndsWord(input[0]) then (if begun then Word([], input) else NoWord(input))
    else if input[0] == NUL then NotText
    else if input[0] == '\'' then ReadQuoted(input[1..])
    else if input[0] == '\\' then
      if |input| == 1 then Unterminated
      else if input[1] == NUL then NotText
      else if input[1] == '\n' then ReadWord(input[2..], begun)
      else Prepend([Read(input[1], true)], ReadWord(input[2..], true))
    else Prepend([Read(input[0], false)], ReadWord(input[1..], true))
  }

  /** Inside single quotes every character stands for itself up to the next quote. */
  function ReadQuoted(input: string): Token
    decreases |input|
  {
    if input == [] then Unterminated
    else if input[0] == NUL then NotText
    else if input[0] == '\'' then ReadWord(input[1..], true)
    else Prepend([Read(input[0], true)], ReadQuoted(input[1..]))
  }

  function AllQuoted(value: string): seq<Read> {
    seq(|value|, i requires 0 <= i < |value| => Read(value[i], true))
  }

  predicate IsText(value: string) {
    NUL !in value
  }

  // ----- reading what was quoted -----

  lemma PrependTwice(c: char, value: string, t: Token)
    ensures Prepend([Read(c, true)], Prepend(AllQuoted(value), t)) == Prepend(AllQuoted([c] + value), t)
  {
  }

  /** A quote inside the value leaves the quotes, adds one quoted quote and enters them again. */
  lemma ReadEscape(rest: string)
    ensures ReadQuoted("'\\''" + rest) == Prepend([Read('\'', true)], ReadQuoted(rest))
  {
    var input := "'\\''" + rest;
    var left := input[1..];
    var inside := "'" + rest;
    assert left[0] == '\\' && left[1] == '\'' && left[2..] == inside;
    assert inside[1..] == rest;
    assert ReadWord(inside, true) == ReadQuoted(rest);
    assert ReadWord(left, true) == Prepend([Read('\'', true)], ReadWord(inside, true));
  }

  lemma {:induction false} ReadBody(value: string, tail: string)
    requires IsText(value)
    ensures ReadQuoted(ReplaceAll(value, '\'', "'\\''") + "'" + tail) == Prepend(AllQuoted(value), ReadWord(tail, true))
    decreases |value|
  {
    var rest := ReplaceAll(value, '\'', "'\\''") + "'" + tail;
    if value == [] {
      assert rest == "'" + tail && rest[1..] == tail;
      var t := ReadWord(tail, true);
      if t.Word? { assert [] + t.chars == t.chars; }
    } else {
      var c := value[0];
      var next := ReplaceAll(value[1..], '\'', "'\\''") + "'" + tail;
      assert value == [c] + value[1..];
      ReadBody(value[1..], tail);
      if c == '\'' {
        assert rest == "'\\''" + next;
        ReadEscape(next);
      } else {
        assert rest == [c] + next && rest[1..] == next;
        assert c in value;
      }
      PrependTwice(c, value[1..], ReadWord(tail, true));
    }
  }

  /**
   In front of any further input: the quoted value is read as itself, all of it quoted, and the word goes on
   with that input.
   */
  lemma QuotedIsRead(value: string, tail: string, begun: bool)
    requires IsText(value)
    ensures ReadWord(Quote(value) + tail, begun) == Prepend(AllQuoted(value), ReadWord(tail, true))
  {
    var input := Quote(value) + tail;
    assert input[1..] == ReplaceAll(value, '\'', "'\\''") + "'" + tail;
    ReadBody(value, tail);
  }

  lemma {:induction false} NulIsRefused(value: string, tail: string)
    requires !IsText(value)
    ensures ReadQuoted(ReplaceAll(value, '\'', "'\\''") + "'" + tail) == NotText
    decreases |value|
  {
    var rest := ReplaceAll(value, '\'', "'\\''") + "'" + tail;
    var c := value[0];
    var next := ReplaceAll(value[1..], '\'', "'\\''") + "'" + tail;
    if c == NUL {
      assert rest[0] == NUL;
    } else {
      assert value == [c] + value[1..];
      NulIsRefused(value[1..], tail);
      if c == '\'' {
        assert rest == "'\\''" + next;
        ReadEscape(next);
      } else {
        assert rest == [c] + next && rest[1..] == next;
      }
    }
  }

  /**
   A quoted value that ends the input, or stands before a character that ends a
   word, is exactly one word: the value, with no unquoted character, for every
   text value and no other.
   */
  lemma QuotedIsOneWord(value: string, tail: string)
    requires tail == [] || EndsWord(tail[0])
    ensures ReadWord(Quote(value) + tail, false) == Word(AllQuoted(value), tail) <==> IsText(value)
  {
    if IsText(value) {
      QuotedIsRead(value, tail, false);
    } else {
      var input := Quote(value) + tail;
      assert input[1..] == ReplaceAll(value, '\'', "'\\''") + "'" + tail;
      NulIsRefused(value, tail);
    }
  }

  /** Different values never quote to the same text. */
  lemma QuoteIsInjective(one: string, other: string)
    requires IsText(one) && IsText(other) && Quote(one) == Quote(other)
    ensures one == other
  {
    QuotedIsRead(one, [], false);
    QuotedIsRead(other, [], false);
    assert Quote(one) + [] == Quote(one) && Quote(other) + [] == Quote(other);
    assert AllQuoted(one) + [] == AllQuoted(one) && AllQuoted(other) + [] == AllQuoted(other);
    assert AllQuoted(one) == AllQuoted(other);
    assert |one| == |other|;
    forall i | 0 <= i < |one| ensures one[i] == other[i] { assert AllQuoted(one)[i] == AllQuoted(other)[i]; }
  }
}
