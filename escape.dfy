/** The escaper of db/search.go (`escapeQuery`): makes a search term safe to
    embed between double quotes in the generated SQL text. */
module Escaping {
  import opened Text

  /** The Ctrl-Z (SUB, 0x1A) character, written as `\Z`. */
  const Sub: char := 26 as char

  /** Characters escaped by a preceding backslash and kept as they are.
      The apostrophe is deliberately not among them. */
  predicate KeptEscaped(c: char) {
    c == '\n' || c == '\r' || c == '\\' || c == '"'
  }

  /** The text one source character turns into. */
  function EscapeChar(c: char): (r: string)
    ensures KeptEscaped(c) ==> r == ['\\', c]
    ensures c == Sub ==> r == ['\\', 'Z']
    ensures !KeptEscaped(c) && c != Sub ==> r == [c]
  {
    if KeptEscaped(c) then ['\\', c]
    else if c == Sub then ['\\', 'Z']
    else [c]
  }

  /** The specification of `escapeQuery`: character by character, in order. */
  function Escaped(s: string): string {
    if s == [] then [] else Escaped(s[..|s| - 1]) + EscapeChar(s[|s| - 1])
  }

  /** Escaping distributes over concatenation. */
  lemma {:induction false} EscapedConcat(a: string, b: string)
    ensures Escaped(a + b) == Escaped(a) + Escaped(b)
    decreases |b|
  {
    if b == [] {
      assert a + b == a;
    } else {
      var b' := b[..|b| - 1];
      assert (a + b)[..|a + b| - 1] == a + b';
      EscapedConcat(a, b');
    }
  }

  lemma EscapedCons(c: char, s: string)
    ensures Escaped([c] + s) == EscapeChar(c) + Escaped(s)
  {
    EscapedConcat([c], s);
    assert Escaped([c]) == Escaped([]) + EscapeChar(c);
  }

  /** Escaping at most doubles the length and never shortens. */
  lemma {:induction false} EscapedLength(s: string)
    ensures |s| <= |Escaped(s)| <= 2 * |s|
  {
    if s != [] {
      EscapedLength(s[..|s| - 1]);
    }
  }

  /** Reading back an escaped literal: a backslash takes the next character
      literally, except that `\Z` stands for Ctrl-Z. `None` for a dangling
      backslash. */
  function Unescape(s: string): Option<string> {
    if s == [] then Some([])
    else if s[0] == '\\' then
      if |s| < 2 then None
      else
        var c := if s[1] == 'Z' then Sub else s[1];
        match Unescape(s[2..])
        case Some(rest) => Some([c] + rest)
        case None => None
    else
      match Unescape(s[1..])
      case Some(rest) => Some([s[0]] + rest)
      case None => None
  }

  /** Round trip: unescaping the escaped term gives back the term. */
  lemma {:induction false} UnescapeEscaped(s: string)
    ensures Unescape(Escaped(s)) == Some(s)
  {
    if s != [] {
      UnescapeEscaped(s[1..]);
      EscapedCons(s[0], s[1..]);
      assert [s[0]] + s[1..] == s;
      var e := EscapeChar(s[0]) + Escaped(s[1..]);
      if KeptEscaped(s[0]) || s[0] == Sub {
        assert e[2..] == Escaped(s[1..]);
      } else {
        assert e[1..] == Escaped(s[1..]);
      }
    }
  }

  /** An escaped term holds no double quote that was not in the term. */
  lemma {:induction false} EscapedQuoteFree(s: string)
    requires '"' !in s
    ensures '"' !in Escaped(s)
  {
    if s != [] {
      EscapedQuoteFree(s[..|s| - 1]);
    }
  }

  /** `escapeQuery` itself: a byte loop that writes into a buffer of twice the
      input length through a moving index `j`. */
  method EscapeQuery(aSource: string) returns (r: string)
    ensures r == Escaped(aSource)
  {
    var sLen := |aSource|;
    if sLen == 0 {
      return "";
    }
    var result := new char[2 * sLen];
    var j := 0;
    var i := 0;
    while i < sLen
      invariant 0 <= i <= sLen
      invariant j == |Escaped(aSource[..i])| && j <= 2 * i
      invariant result[..j] == Escaped(aSource[..i])
    {
      var character := aSource[i];
      var escape := false;
      if KeptEscaped(character) {
        escape := true;
      } else if character == Sub {
        escape := true;
        character := 'Z';
      }
      assert aSource[..i + 1][..i] == aSource[..i];
      if escape {
        result[j] := '\\';
        result[j + 1] := character;
        j := j + 2;
      } else {
        result[j] := character;
        j := j + 1;
      }
      i := i + 1;
    }
    assert aSource[..sLen] == aSource;
    r := result[..j];
  }
}
