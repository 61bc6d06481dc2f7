/** String helpers standing in for the parts of Go's `strings`, `strconv`
    and `regexp` packages that the search compiler and the query options
    rely on. Strings are sequences of Unicode code points, the decoding of
    a valid UTF-8 Go string. The byte-level code of the core changes only
    ASCII bytes, which never occur inside the encoding of another code
    point, so it acts on code points alike. */
module Text {

  datatype Option<T> = None | Some(value: T)

  /** `\w` of Go's RE2 syntax: `[0-9A-Za-z_]`. */
  predicate IsWordChar(c: char) {
    ('a' <= c <= 'z') || ('A' <= c <= 'Z') || ('0' <= c <= '9') || c == '_'
  }

  /** `\s` of Go's RE2 syntax: `[\t\n\f\r ]` (no vertical tab). */
  predicate IsRegexSpace(c: char) {
    c == '\t' || c == '\n' || c == 12 as char || c == '\r' || c == ' '
  }

  /** `unicode.IsSpace`, the test `strings.TrimSpace` applies. */
  predicate IsSpace(c: char) {
    c == '\t' || c == '\n' || c == 11 as char || c == 12 as char || c == '\r' || c == ' '
    || c == 0x85 as char || c == 0xA0 as char || c == 0x1680 as char
    || (0x2000 as char <= c <= 0x200A as char)
    || c == 0x2028 as char || c == 0x2029 as char || c == 0x202F as char
    || c == 0x205F as char || c == 0x3000 as char
  }

  predicate IsDigit(c: char) { '0' <= c <= '9' }

  /** Index just past the run of word characters that starts at `i`. */
  function WordEnd(s: string, i: nat): (e: nat)
    requires i <= |s|
    ensures i <= e <= |s|
    ensures forall j {:trigger IsWordChar(s[j])} :: i <= j < e ==> IsWordChar(s[j])
    ensures e == |s| || !IsWordChar(s[e])
    decreases |s| - i
  {
    if i < |s| && IsWordChar(s[i]) then WordEnd(s, i + 1) else i
  }

  /** Index just past the run of `\s` characters that starts at `i`. */
  function SpaceEnd(s: string, i: nat): (e: nat)
    requires i <= |s|
    ensures i <= e <= |s|
    ensures forall j {:trigger IsRegexSpace(s[j])} :: i <= j < e ==> IsRegexSpace(s[j])
    ensures e == |s| || !IsRegexSpace(s[e])
    decreases |s| - i
  {
    if i < |s| && IsRegexSpace(s[i]) then SpaceEnd(s, i + 1) else i
  }

  /** Index of the first '"' at or after `i`, or `|s|` when there is none. */
  function QuoteFrom(s: string, i: nat): (e: nat)
    requires i <= |s|
    ensures i <= e <= |s|
    ensures forall j :: i <= j < e ==> s[j] != '"'
    ensures e < |s| ==> s[e] == '"'
    decreases |s| - i
  {
    if i < |s| && s[i] != '"' then QuoteFrom(s, i + 1) else i
  }

  // ---------------------------------------------------------------------
  // Trimming (`strings.TrimSpace`)

  function TrimLeft(s: string): (r: string)
    ensures |r| <= |s| && r == s[|s| - |r|..]
    ensures forall j :: 0 <= j < |s| - |r| ==> IsSpace(s[j])
    ensures r != [] ==> !IsSpace(r[0])
  {
    if s != [] && IsSpace(s[0]) then TrimLeft(s[1..]) else s
  }

  function TrimRight(s: string): (r: string)
    ensures |r| <= |s| && r == s[..|r|]
    ensures forall j :: |r| <= j < |s| ==> IsSpace(s[j])
    ensures r != [] ==> !IsSpace(r[|r| - 1])
  {
    if s != [] && IsSpace(s[|s| - 1]) then TrimRight(s[..|s| - 1]) else s
  }

  /** `strings.TrimSpace`: the result is a slice of `s` that neither starts
      nor ends with white space, and everything cut off is white space. */
  function TrimSpace(s: string): (r: string)
    ensures |r| + LeadingSpace(s) <= |s|
    ensures r == s[LeadingSpace(s)..LeadingSpace(s) + |r|]
    ensures forall j :: 0 <= j < LeadingSpace(s) ==> IsSpace(s[j])
    ensures forall j :: LeadingSpace(s) + |r| <= j < |s| ==> IsSpace(s[j])
    ensures r != [] ==> !IsSpace(r[0]) && !IsSpace(r[|r| - 1])
  {
    TrimRight(TrimLeft(s))
  }

  /** Number of white-space characters `strings.TrimSpace` cuts off the front. */
  function LeadingSpace(s: string): (n: nat)
    ensures n <= |s|
  {
    |s| - |TrimLeft(s)|
  }

  lemma {:induction false} TrimLeftNoSpace(s: string)
    requires s == [] || !IsSpace(s[0])
    ensures TrimLeft(s) == s
  {
  }

  lemma {:induction false} TrimRightNoSpace(s: string)
    requires s == [] || !IsSpace(s[|s| - 1])
    ensures TrimRight(s) == s
  {
  }

  /** Trimming twice is trimming once. */
  lemma TrimSpaceIdempotent(s: string)
    ensures TrimSpace(TrimSpace(s)) == TrimSpace(s)
  {
    var t := TrimSpace(s);
    TrimLeftNoSpace(t);
    TrimRightNoSpace(t);
  }

  // ---------------------------------------------------------------------
  // ASCII case mapping (`strings.ToLower` / `strings.ToUpper` on ASCII)

  function LowerChar(c: char): char {
    if 'A' <= c <= 'Z' then (c as int + 32) as char else c
  }

  function UpperChar(c: char): char {
    if 'a' <= c <= 'z' then (c as int - 32) as char else c
  }

  function ToLower(s: string): (r: string)
    ensures |r| == |s|
    ensures forall j :: 0 <= j < |s| ==> r[j] == LowerChar(s[j])
  {
    if s == [] then [] else [LowerChar(s[0])] + ToLower(s[1..])
  }

  function ToUpper(s: string): (r: string)
    ensures |r| == |s|
    ensures forall j :: 0 <= j < |s| ==> r[j] == UpperChar(s[j])
  {
    if s == [] then [] else [UpperChar(s[0])] + ToUpper(s[1..])
  }

  // ---------------------------------------------------------------------
  // Slices of concatenations

  /** A concatenation starts with its first part and ends with its last. */
  lemma Framed(h: string, m: string, z: string)
    ensures var r := h + m + z;
      |r| == |h| + |m| + |z| && r[..|h|] == h && r[|h|..|h| + |m|] == m && r[|r| - |z|..] == z
  {
  }

  /** A prefix of `a` is a prefix of `a + b`. */
  lemma PrefixOfConcat(a: string, b: string, h: string)
    requires |h| <= |a| && a[..|h|] == h
    ensures (a + b)[..|h|] == h
  {
    assert (a + b)[..|h|] == a[..|h|];
  }

  /** A concatenation ends with the last character of its non-empty second
      part. */
  lemma LastOfConcat(a: string, b: string)
    requires b != []
    ensures (a + b)[|a + b| - 1] == b[|b| - 1]
  {
  }

  // ---------------------------------------------------------------------
  // Searching and replacing (`strings.Index`, `strings.Replace(.., 1)`)

  predicate OccursAt(s: string, t: string, k: int) {
    0 <= k && k + |t| <= |s| && s[k..k + |t|] == t
  }

  function IndexFrom(s: string, t: string, k: nat): (r: int)
    ensures r == -1 || (k <= r && OccursAt(s, t, r))
    ensures r == -1 ==> forall j :: k <= j ==> !OccursAt(s, t, j)
    ensures r != -1 ==> forall j :: k <= j < r ==> !OccursAt(s, t, j)
    decreases |s| - k
  {
    if k + |t| > |s| then -1
    else if s[k..k + |t|] == t then k
    else IndexFrom(s, t, k + 1)
  }

  /** `strings.Index`: the first position at which `t` occurs in `s`, or -1. */
  function IndexOf(s: string, t: string): (r: int)
    ensures -1 <= r <= |s| - |t| || r == -1
    ensures r == -1 <==> forall j :: !OccursAt(s, t, j)
    ensures r >= 0 ==> OccursAt(s, t, r) && forall j :: 0 <= j < r ==> !OccursAt(s, t, j)
  {
    IndexFrom(s, t, 0)
  }

  /** `strings.Replace(s, old, new, 1)`: only the first occurrence of `old`
      is replaced; without an occurrence `s` is returned unchanged. */
  function ReplaceFirst(s: string, pat: string, rep: string): (r: string)
    ensures IndexOf(s, pat) == -1 ==> r == s
    ensures IndexOf(s, pat) >= 0 ==>
      var k := IndexOf(s, pat);
      |r| == |s| - |pat| + |rep| && r[..k] == s[..k] && OccursAt(r, rep, k)
      && r[k + |rep|..] == s[k + |pat|..]
  {
    var k := IndexOf(s, pat);
    if k < 0 then s else s[..k] + rep + s[k + |pat|..]
  }

  /** After a replacement the rep text occurs, so `strings.Index` finds it
      no later than where it was put. */
  lemma ReplacedTextFound(s: string, pat: string, rep: string)
    requires IndexOf(s, pat) >= 0
    ensures 0 <= IndexOf(ReplaceFirst(s, pat, rep), rep) <= IndexOf(s, pat)
  {
    var k := IndexOf(s, pat);
    assert OccursAt(ReplaceFirst(s, pat, rep), rep, k);
  }

  /** Where the pattern occurs at `k0`, the first replacement cuts the text
      at its first occurrence, which is no later than `k0`. */
  lemma ReplaceFirstSplit(s: string, pat: string, rep: string, k0: nat)
    requires OccursAt(s, pat, k0)
    ensures var k := IndexOf(s, pat);
      0 <= k <= k0 && ReplaceFirst(s, pat, rep) == s[..k] + rep + s[k + |pat|..]
  {
  }

  // ---------------------------------------------------------------------
  // Decimal numbers (`%d`, `strconv.Atoi`)

  function DigitChar(d: nat): char
    requires d < 10
  {
    ('0' as int + d) as char
  }

  function DigitValue(c: char): nat
    requires IsDigit(c)
  {
    c as int - '0' as int
  }

  /** Decimal digits of `n`, most significant first, without leading zeros. */
  function Decimal(n: nat): (r: string)
    ensures r != [] && forall j :: 0 <= j < |r| ==> IsDigit(r[j])
    ensures |r| > 1 ==> r[0] != '0'
  {
    if n < 10 then [DigitChar(n)] else Decimal(n / 10) + [DigitChar(n % 10)]
  }

  /** `%d` of a signed value. */
  function SignedDecimal(i: int): (r: string)
    ensures r != []
  {
    if i < 0 then "-" + Decimal(-i) else Decimal(i)
  }

  /** Value of a string of decimal digits. */
  function DigitsValue(s: string): nat
    requires forall j :: 0 <= j < |s| ==> IsDigit(s[j])
  {
    if s == [] then 0 else 10 * DigitsValue(s[..|s| - 1]) + DigitValue(s[|s| - 1])
  }

  lemma {:induction false} DecimalValue(n: nat)
    ensures DigitsValue(Decimal(n)) == n
  {
    if n >= 10 {
      DecimalValue(n / 10);
      var d := Decimal(n);
      assert d[..|d| - 1] == Decimal(n / 10);
    }
  }

  /** Index just past the run of decimal digits that starts at `i`. */
  function DigitEnd(s: string, i: nat): (e: nat)
    requires i <= |s|
    ensures i <= e <= |s|
    ensures forall j :: i <= j < e ==> IsDigit(s[j])
    ensures e == |s| || !IsDigit(s[e])
    decreases |s| - i
  {
    if i < |s| && IsDigit(s[i]) then DigitEnd(s, i + 1) else i
  }

  const MinInt64: int := -0x8000_0000_0000_0000
  const MaxInt64: int := 0x7FFF_FFFF_FFFF_FFFF

  /** `strconv.Atoi` on a 64-bit platform: an optional sign followed by one
      or more decimal digits and nothing else, within the range of `int`. */
  function Atoi(s: string): (r: Option<int>)
    ensures r.Some? ==> MinInt64 <= r.value <= MaxInt64
    ensures r.Some? ==> s != []
    ensures s != [] && (forall j :: 0 <= j < |s| ==> IsDigit(s[j])) && DigitsValue(s) <= MaxInt64
      ==> r == Some(DigitsValue(s))
  {
    var neg := s != [] && s[0] == '-';
    var start := if s != [] && (s[0] == '-' || s[0] == '+') then 1 else 0;
    var digits := s[start..];
    if digits == [] || exists j :: 0 <= j < |digits| && !IsDigit(digits[j]) then None
    else
      var m: int := DigitsValue(digits);
      var v := if neg then -m else m;
      if v < MinInt64 || v > MaxInt64 then None else Some(v)
  }

  lemma AtoiDecimal(n: nat)
    requires n <= MaxInt64
    ensures Atoi(Decimal(n)) == Some(n)
  {
    DecimalValue(n);
  }

  // ---------------------------------------------------------------------
  // Joining (`strings.Join`)

  function Join(parts: seq<string>, sep: string): (r: string)
    ensures parts == [] ==> r == []
    ensures |parts| == 1 ==> r == parts[0]
  {
    if parts == [] then []
    else if |parts| == 1 then parts[0]
    else Join(parts[..|parts| - 1], sep) + sep + parts[|parts| - 1]
  }
}
