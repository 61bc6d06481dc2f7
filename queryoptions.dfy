/** The pagination, sort and filter state of kaliber's document list
    (`TQueryOptions`): its in-place update rules, its `|`-delimited text
    form and the HTML option lists derived from it. */
module QueryOpts {
  import opened Text

  // ---------------------------------------------------------------------
  // Field types and constants

  const Two64: int := 0x1_0000_0000_0000_0000

  /** Go's `uint8`. */
  type Uint8 = x: int | 0 <= x < 256
  /** Go's `uint` on a 64-bit platform. */
  type Uint = x: int | 0 <= x < 0x1_0000_0000_0000_0000
  /** The document ID; its Go type `TID` is taken to be a signed 64-bit integer. */
  type Int64 = x: int | -0x8000_0000_0000_0000 <= x <= 0x7FFF_FFFF_FFFF_FFFF

  const German: Uint8 := 0
  const English: Uint8 := 1
  const List: Uint8 := 0
  const Grid: Uint8 := 1
  const Light: Uint8 := 0
  const Dark: Uint8 := 1

  /** The sort keys in the order of their `TSortType` values
      (acquisition = 0, …, title = 9). */
  const SortNames: seq<string> :=
    ["acquisition", "authors", "language", "publisher", "rating",
     "series", "size", "tags", "time", "title"]

  /** The allowed numbers of documents per page. */
  const LimitList: seq<Uint> := [9, 24, 48, 99, 249]

  /** The value of a `TQueryOptions` record. */
  datatype Options = Options(
    id: Int64,
    descending: bool,
    entity: string,
    guiLang: Uint8,
    layout: Uint8,
    limitLength: Uint,
    limitStart: Uint,
    matching: string,
    queryCount: Uint,
    sortBy: Uint8,
    theme: Uint8,
    virtLib: string)

  // ---------------------------------------------------------------------
  // Paging

  /** One page back: `limitStart` drops by `limitLength`, stopping at 0. */
  function DecLimited(q: Options): Options {
    if 0 < q.limitStart then
      if q.limitStart <= q.limitLength then q.(limitStart := 0)
      else q.(limitStart := q.limitStart - q.limitLength)
    else q
  }

  /** One page forward: `limitStart` grows by `limitLength`, wrapping
      around like Go's `uint`. */
  function IncLimited(q: Options): Options {
    q.(limitStart := (q.limitStart + q.limitLength) % Two64)
  }

  /** Going back a page is a subtraction clamped at zero, and no other
      field changes. */
  lemma DecLimitedClamps(q: Options)
    ensures var r := DecLimited(q);
      r == q.(limitStart := r.limitStart)
      && r.limitStart == (if q.limitStart <= q.limitLength then 0 else q.limitStart - q.limitLength)
      && r.limitStart <= q.limitStart
      && (q.limitStart == 0 ==> r == q)
  {
  }

  /** Forward then back returns to the same page unless the forward step
      wrapped around. */
  lemma IncThenDec(q: Options)
    requires q.limitStart + q.limitLength < Two64
    ensures IncLimited(q).limitStart == q.limitStart + q.limitLength
    ensures DecLimited(IncLimited(q)) == q
  {
  }

  /** `NewQueryOptions`' page size: the smallest allowed size that holds
      `n` documents, the largest one when none does, 24 when `n` is not
      positive. */
  function SnapLimit(n: int): Uint {
    if n <= 0 then 24
    else if n <= 9 then 9
    else if n <= 24 then 24
    else if n <= 48 then 48
    else if n <= 99 then 99
    else 249
  }

  lemma SnapLimitChoice(n: int)
    ensures SnapLimit(n) in LimitList
    ensures 0 < n <= 249 ==> n <= SnapLimit(n)
    ensures 0 < n ==> forall i :: 0 <= i < |LimitList| && n <= LimitList[i] ==> SnapLimit(n) <= LimitList[i]
    ensures 249 < n ==> SnapLimit(n) == LimitList[|LimitList| - 1]
    ensures n <= 0 ==> SnapLimit(n) == 24
  {
  }

  /** The options `NewQueryOptions(n)` starts with. */
  function Initial(n: int): Options {
    Options(0, true, "", German, List, SnapLimit(n), 0, "", 0, 0, Light, "")
  }

  // ---------------------------------------------------------------------
  // The text form: `|%d|%t|%q|%d|%d|%d|%d|%q|%d|%d|%d|%q|`

  /** A conversion of the pattern, by the Go type it reads into. */
  datatype Verb =
    | Signed  // %d into the 64-bit ID
    | Flag    // %t
    | Quoted  // %q
    | Small   // %d into a uint8
    | Wide    // %d into a uint

  datatype Token = Num(n: int) | Bool(b: bool) | Str(s: string)

  const Pattern: seq<Verb> :=
    [Signed, Flag, Quoted, Small, Small, Wide, Wide, Quoted, Wide, Small, Small, Quoted]

  /** `t` is a value the variable behind `v` can hold. */
  predicate Fits(t: Token, v: Verb) {
    match v
    case Signed => t.Num? && MinInt64 <= t.n <= MaxInt64
    case Flag => t.Bool?
    case Quoted => t.Str?
    case Small => t.Num? && 0 <= t.n < 256
    case Wide => t.Num? && 0 <= t.n < Two64
  }

  /** The twelve fields in pattern order. */
  function FieldTokens(q: Options): (r: seq<Token>)
    ensures |r| == |Pattern|
    ensures forall i :: 0 <= i < |r| ==> Fits(r[i], Pattern[i])
  {
    [Num(q.id), Bool(q.descending), Str(q.entity), Num(q.guiLang), Num(q.layout),
     Num(q.limitLength), Num(q.limitStart), Str(q.matching), Num(q.queryCount),
     Num(q.sortBy), Num(q.theme), Str(q.virtLib)]
  }

  /** `%q` escapes: the quote, the backslash and the three common control
      characters get a backslash escape; every other character stands for
      itself. */
  function EscapeChar(c: char): string {
    if c == '"' then "\\\""
    else if c == '\\' then "\\\\"
    else if c == '\n' then "\\n"
    else if c == '\t' then "\\t"
    else if c == '\r' then "\\r"
    else [c]
  }

  function Escape(s: string): string {
    if s == [] then [] else EscapeChar(s[0]) + Escape(s[1..])
  }

  function Quote(s: string): string {
    "\"" + Escape(s) + "\""
  }

  /** The character a backslash escape stands for. */
  function Unescaped(c: char): Option<char> {
    if c == '"' then Some('"')
    else if c == '\\' then Some('\\')
    else if c == 'n' then Some('\n')
    else if c == 't' then Some('\t')
    else if c == 'r' then Some('\r')
    else None
  }

  /** The text of a `%q` conversion and the text formatted after it. */
  function Format(t: Token): string {
    match t
    case Num(n) => SignedDecimal(n)
    case Bool(b) => if b then "true" else "false"
    case Str(s) => Quote(s)
  }

  /** `fmt.Sprintf` of the pattern: a `|` before every value and one
      after the last. */
  function Render(ts: seq<Token>): (r: string)
    ensures r != [] && r[0] == '|'
  {
    if ts == [] then "|" else "|" + Format(ts[0]) + Render(ts[1..])
  }

  /** Index past the spaces `Sscanf` skips before a value; a newline is
      not skipped (it ends the scan). */
  function BlankEnd(s: string, i: nat): (e: nat)
    requires i <= |s|
    ensures i <= e <= |s|
    decreases |s| - i
  {
    if i < |s| && IsSpace(s[i]) && s[i] != '\n' then BlankEnd(s, i + 1) else i
  }

  /** Index of the first '`' at or after `i`, or `|s|`. */
  function BackquoteFrom(s: string, i: nat): (e: nat)
    requires i <= |s|
    ensures i <= e <= |s|
    ensures e < |s| ==> s[e] == '`'
    decreases |s| - i
  {
    if i < |s| && s[i] != '`' then BackquoteFrom(s, i + 1) else i
  }

  /** `%d` into an unsigned variable below `bound`: the longest run of
      digits, no sign. */
  function ScanUnsigned(u: string, bound: nat): (r: Option<(Token, string)>)
    ensures r.Some? ==> r.value.0.Num? && 0 <= r.value.0.n < bound
  {
    var e := DigitEnd(u, 0);
    if e == 0 then None
    else
      var m := DigitsValue(u[..e]);
      if bound <= m then None else Some((Num(m), u[e..]))
  }

  /** `%d` into a signed variable: an optional sign and the longest run of
      digits, which must fit in 64 bits. */
  function ScanSigned(u: string): (r: Option<(Token, string)>)
    ensures r.Some? ==> Fits(r.value.0, Signed)
  {
    if u != [] && u[0] == '-' then
      match ScanUnsigned(u[1..], MaxInt64 + 2)
      case None => None
      case Some((t, rest)) => Some((Num(-t.n), rest))
    else ScanUnsigned(if u != [] && u[0] == '+' then u[1..] else u, MaxInt64 + 1)
  }

  /** `%t`: `0`, `1`, or a word starting with t/f that, once its second
      letter matches, must spell out true/false (any case); any other
      character reads as false. */
  function ScanBool(u: string): (r: Option<(Token, string)>)
    requires u != []
    ensures r.Some? ==> r.value.0.Bool?
  {
    var c := u[0];
    if c == '0' then Some((Bool(false), u[1..]))
    else if c == '1' then Some((Bool(true), u[1..]))
    else if c == 't' || c == 'T' then
      if 1 < |u| && (u[1] == 'r' || u[1] == 'R') then
        if 3 < |u| && (u[2] == 'u' || u[2] == 'U') && (u[3] == 'e' || u[3] == 'E')
        then Some((Bool(true), u[4..]))
        else None
      else Some((Bool(true), u[1..]))
    else if c == 'f' || c == 'F' then
      if 1 < |u| && (u[1] == 'a' || u[1] == 'A') then
        if 4 < |u| && (u[2] == 'l' || u[2] == 'L') && (u[3] == 's' || u[3] == 'S')
          && (u[4] == 'e' || u[4] == 'E')
        then Some((Bool(false), u[5..]))
        else None
      else Some((Bool(false), u[1..]))
    else Some((Bool(false), u[1..]))
  }

  /** The body of a double-quoted string up to its closing quote, escapes
      undone, and the text after it. */
  function ReadQuoted(s: string): Option<(string, string)>
    decreases |s|
  {
    if s == [] || s[0] == '\n' then None
    else if s[0] == '"' then Some(([], s[1..]))
    else if s[0] == '\\' then
      if |s| < 2 || Unescaped(s[1]).None? then None
      else match ReadQuoted(s[2..])
        case None => None
        case Some((t, rest)) => Some(([Unescaped(s[1]).value] + t, rest))
    else match ReadQuoted(s[1..])
      case None => None
      case Some((t, rest)) => Some(([s[0]] + t, rest))
  }

  /** `%q` reading: a double-quoted or a back-quoted string. */
  function ScanQuoted(u: string): Option<(string, string)> {
    if u == [] then None
    else if u[0] == '"' then ReadQuoted(u[1..])
    else if u[0] == '`' then
      var e := BackquoteFrom(u, 1);
      if e == |u| then None else Some((u[1..e], u[e + 1..]))
    else None
  }

  /** One conversion after the leading spaces; the token and the rest of
      the input. */
  function ScanVerb(s: string, v: Verb): (r: Option<(Token, string)>)
  {
    var u := s[BlankEnd(s, 0)..];
    if u == [] || u[0] == '\n' then None
    else match v
      case Signed => ScanSigned(u)
      case Flag => ScanBool(u)
      case Quoted => (match ScanQuoted(u)
                      case None => None
                      case Some((t, rest)) => Some((Str(t), rest)))
      case Small => ScanUnsigned(u, 256)
      case Wide => ScanUnsigned(u, Two64)
  }

  /** `fmt.Sscanf` of the pattern: the values read before the first
      mismatch, in order. */
  function ScanFrom(s: string, verbs: seq<Verb>): (r: seq<Token>)
    ensures |r| <= |verbs|
    decreases |verbs|
  {
    if verbs == [] || s == [] || s[0] != '|' then []
    else match ScanVerb(s[1..], verbs[0])
      case None => []
      case Some((t, rest)) => [t] + ScanFrom(rest, verbs[1..])
  }

  /** The value `Sscanf` stores through the `i`-th pointer: the token read,
      or what the variable held when the scan stopped earlier. */
  function SignedAt(ts: seq<Token>, i: nat, old_: Int64): Int64 {
    if i < |ts| && ts[i].Num? && MinInt64 <= ts[i].n <= MaxInt64 then ts[i].n else old_
  }

  function FlagAt(ts: seq<Token>, i: nat, old_: bool): bool {
    if i < |ts| && ts[i].Bool? then ts[i].b else old_
  }

  function TextAt(ts: seq<Token>, i: nat, old_: string): string {
    if i < |ts| && ts[i].Str? then ts[i].s else old_
  }

  function SmallAt(ts: seq<Token>, i: nat, old_: Uint8): Uint8 {
    if i < |ts| && ts[i].Num? && 0 <= ts[i].n < 256 then ts[i].n else old_
  }

  function WideAt(ts: seq<Token>, i: nat, old_: Uint): Uint {
    if i < |ts| && ts[i].Num? && 0 <= ts[i].n < Two64 then ts[i].n else old_
  }

  /** The fields `Sscanf` stores through its pointers: every value read
      before the scan stopped. */
  function Stored(q: Options, ts: seq<Token>): Options {
    Options(
      SignedAt(ts, 0, q.id), FlagAt(ts, 1, q.descending), TextAt(ts, 2, q.entity),
      SmallAt(ts, 3, q.guiLang), SmallAt(ts, 4, q.layout),
      WideAt(ts, 5, q.limitLength), WideAt(ts, 6, q.limitStart),
      q.matching, WideAt(ts, 8, q.queryCount),
      SmallAt(ts, 9, q.sortBy), SmallAt(ts, 10, q.theme), q.virtLib)
  }

  /** The filter strings after `Scan`: trimmed, a `-` library meaning none. */
  function Filtered(q: Options, m: string, v: string): Options {
    q.(matching := TrimSpace(m), virtLib := if v == "-" then "" else TrimSpace(v))
  }

  /** `Scan`'s effect on `q`; the two filter strings are scanned into
      locals that start out empty. */
  function Scanned(q: Options, s: string): Options {
    var ts := ScanFrom(s, Pattern);
    Filtered(Stored(q, ts), TextAt(ts, 7, ""), TextAt(ts, 11, ""))
  }

  /** The text form of `q`. */
  function Formatted(q: Options): string {
    Render(FieldTokens(q))
  }

  lemma {:induction false} DigitRun(d: string, rest: string, i: nat)
    requires i <= |d| && forall j :: 0 <= j < |d| ==> IsDigit(d[j])
    requires rest == [] || !IsDigit(rest[0])
    ensures DigitEnd(d + rest, i) == |d|
    decreases |d| - i
  {
    if i < |d| {
      DigitRun(d, rest, i + 1);
    }
  }

  /** One escaped character reads back to itself. */
  lemma ReadQuotedChar(c: char, t: string)
    ensures ReadQuoted(EscapeChar(c) + t) == match ReadQuoted(t)
      case None => None
      case Some((x, rest)) => Some(([c] + x, rest))
  {
    var w := EscapeChar(c) + t;
    if |EscapeChar(c)| == 2 {
      assert w[0] == '\\' && Unescaped(w[1]) == Some(c);
      assert w[2..] == t;
    } else {
      assert w[0] == c && w[1..] == t;
    }
  }

  /** Escaped text reads back to itself, stopping at the closing quote. */
  lemma {:induction false} ReadQuotedEscape(s: string, rest: string)
    ensures ReadQuoted(Escape(s) + "\"" + rest) == Some((s, rest))
  {
    if s == [] {
      assert Escape(s) + "\"" + rest == "\"" + rest;
    } else {
      ReadQuotedEscape(s[1..], rest);
      assert Escape(s) + "\"" + rest == EscapeChar(s[0]) + (Escape(s[1..]) + "\"" + rest);
      ReadQuotedChar(s[0], Escape(s[1..]) + "\"" + rest);
      assert [s[0]] + s[1..] == s;
    }
  }

  lemma ScanUnsignedFormat(n: nat, bound: nat, rest: string)
    requires n < bound && rest != [] && rest[0] == '|'
    ensures ScanUnsigned(Decimal(n) + rest, bound) == Some((Num(n), rest))
  {
    var s := Decimal(n) + rest;
    DecimalValue(n);
    DigitRun(Decimal(n), rest, 0);
    assert s[..|Decimal(n)|] == Decimal(n);
    assert s[|Decimal(n)|..] == rest;
  }

  lemma ScanNegativeFormat(n: int, rest: string)
    requires MinInt64 <= n < 0 && rest != [] && rest[0] == '|'
    ensures ScanSigned(SignedDecimal(n) + rest) == Some((Num(n), rest))
  {
    var s := SignedDecimal(n) + rest;
    assert s == "-" + (Decimal(-n) + rest);
    assert s[0] == '-' && s[1..] == Decimal(-n) + rest;
    ScanUnsignedFormat(-n, MaxInt64 + 2, rest);
    ScanMinus(s, -n, rest);
  }

  /** A minus sign negates the magnitude read after it. */
  lemma ScanMinus(u: string, k: int, rest: string)
    requires u != [] && u[0] == '-'
    requires ScanUnsigned(u[1..], MaxInt64 + 2) == Some((Num(k), rest))
    ensures ScanSigned(u) == Some((Num(-k), rest))
  {
  }

  lemma ScanSignedFormat(n: int, rest: string)
    requires MinInt64 <= n <= MaxInt64 && rest != [] && rest[0] == '|'
    ensures ScanSigned(SignedDecimal(n) + rest) == Some((Num(n), rest))
  {
    if n < 0 {
      ScanNegativeFormat(n, rest);
    } else {
      var s := Decimal(n) + rest;
      assert s[0] == Decimal(n)[0] && IsDigit(s[0]);
      ScanUnsignedFormat(n, MaxInt64 + 1, rest);
    }
  }

  /** A formatted number followed by the next `|` scans back to itself. */
  lemma ScanNumFormat(n: int, v: Verb, rest: string)
    requires Fits(Num(n), v) && rest != [] && rest[0] == '|'
    ensures ScanVerb(SignedDecimal(n) + rest, v) == Some((Num(n), rest))
  {
    var s := SignedDecimal(n) + rest;
    assert s[0] == SignedDecimal(n)[0];
    assert BlankEnd(s, 0) == 0;
    assert s[0..] == s;
    if v == Signed {
      ScanSignedFormat(n, rest);
    } else {
      ScanUnsignedFormat(n, if v == Small then 256 else Two64, rest);
    }
  }

  /** A formatted boolean followed by the next `|` scans back to itself. */
  lemma ScanBoolFormat(b: bool, rest: string)
    ensures ScanVerb(Format(Bool(b)) + rest, Flag) == Some((Bool(b), rest))
  {
    var s := Format(Bool(b)) + rest;
    assert BlankEnd(s, 0) == 0;
    assert s[0..] == s;
    if b {
      assert s[4..] == rest;
    } else {
      assert s[5..] == rest;
    }
  }

  /** A quoted string followed by the next `|` scans back to itself. */
  lemma ScanStrFormat(x: string, rest: string)
    ensures ScanVerb(Quote(x) + rest, Quoted) == Some((Str(x), rest))
  {
    var s := Quote(x) + rest;
    assert BlankEnd(s, 0) == 0;
    assert s[0..] == s;
    assert s[1..] == Escape(x) + "\"" + rest;
    ReadQuotedEscape(x, rest);
  }

  /** A formatted value followed by the next `|` scans back to itself. */
  lemma ScanVerbFormat(t: Token, v: Verb, rest: string)
    requires Fits(t, v) && rest != [] && rest[0] == '|'
    ensures ScanVerb(Format(t) + rest, v) == Some((t, rest))
  {
    match t
    case Num(n) => ScanNumFormat(n, v, rest);
    case Bool(b) => ScanBoolFormat(b, rest);
    case Str(x) => ScanStrFormat(x, rest);
  }

  lemma {:induction false} DigitEndShift(s: string, k: nat)
    requires 0 < k <= |s|
    ensures DigitEnd(s, k) == k + DigitEnd(s[k..], 0)
  {
    DigitEndFrom(s, k, k);
  }

  lemma {:induction false} DigitEndFrom(s: string, k: nat, i: nat)
    requires k <= i <= |s|
    ensures DigitEnd(s, i) == k + DigitEnd(s[k..], i - k)
    decreases |s| - i
  {
    if i < |s| {
      DigitEndFrom(s, k, i + 1);
    }
  }

  /** Scanning a rendering reads its first value, then scans the rest. */
  lemma ScanRenderStep(ts: seq<Token>, verbs: seq<Verb>)
    requires ts != [] && verbs != [] && Fits(ts[0], verbs[0])
    ensures ScanFrom(Render(ts), verbs) == [ts[0]] + ScanFrom(Render(ts[1..]), verbs[1..])
  {
    var head, tail := Format(ts[0]), Render(ts[1..]);
    assert Render(ts) == "|" + head + tail;
    AfterBar(head, tail);
    ScanVerbFormat(ts[0], verbs[0], tail);
  }

  lemma AfterBar(head: string, tail: string)
    ensures ("|" + head + tail)[1..] == head + tail
  {
  }

  /** Scanning the rendering of values that fit their conversions reads
      every value back. */
  lemma {:induction false} ScanRender(ts: seq<Token>, verbs: seq<Verb>)
    requires |ts| == |verbs| && forall i :: 0 <= i < |ts| ==> Fits(ts[i], verbs[i])
    ensures ScanFrom(Render(ts), verbs) == ts
  {
    if ts != [] {
      ScanRenderStep(ts, verbs);
      assert forall i :: 0 <= i < |ts| - 1 ==> ts[1..][i] == ts[i + 1] && verbs[1..][i] == verbs[i + 1];
      ScanRender(ts[1..], verbs[1..]);
      assert [ts[0]] + ts[1..] == ts;
    }
  }

  /** The text form scans back to all twelve fields. */
  lemma ScanString(q: Options)
    ensures ScanFrom(Formatted(q), Pattern) == FieldTokens(q)
  {
    ScanRender(FieldTokens(q), Pattern);
  }

  /** Storing the twelve fields of `q` overwrites every field but the two
      filter strings. */
  lemma StoredFields(q0: Options, q: Options)
    ensures Stored(q0, FieldTokens(q)) == q.(matching := q0.matching, virtLib := q0.virtLib)
  {
  }

  /** The two filter strings sit at positions 7 and 11 of the text form. */
  lemma FilterTokens(q: Options)
    ensures TextAt(FieldTokens(q), 7, "") == q.matching
    ensures TextAt(FieldTokens(q), 11, "") == q.virtLib
  {
  }

  /** Round trip: `Scan(String(q))` restores `q` whatever the receiver held
      before, when the filter strings are trimmed and the library is not
      `-`. */
  lemma ScanFormatted(q0: Options, q: Options)
    requires TrimSpace(q.matching) == q.matching && TrimSpace(q.virtLib) == q.virtLib
    requires q.virtLib != "-"
    ensures Scanned(q0, Formatted(q)) == q
  {
    ScanString(q);
    StoredFields(q0, q);
    FilterTokens(q);
  }

  /** After `Scan` the filter strings are trimmed, whatever the input. */
  lemma ScanTrims(q: Options, s: string)
    ensures TrimSpace(Scanned(q, s).matching) == Scanned(q, s).matching
    ensures TrimSpace(Scanned(q, s).virtLib) == Scanned(q, s).virtLib
  {
    var ts := ScanFrom(s, Pattern);
    TrimSpaceIdempotent(TextAt(ts, 7, ""));
    TrimSpaceIdempotent(TextAt(ts, 11, ""));
  }

  // ---------------------------------------------------------------------
  // Update from a submitted form

  /** `Request.FormValue`: the submitted value, empty when absent. */
  function FormValue(form: map<string, string>, key: string): string {
    if key in form then form[key] else ""
  }

  /** Position of the first `name` in `names`, `|names|` when absent. */
  function NameIndex(names: seq<string>, name: string): (i: nat)
    ensures i <= |names|
    ensures i < |names| ==> names[i] == name
    ensures forall j :: 0 <= j < i ==> names[j] != name
  {
    if names == [] then 0
    else if names[0] == name then 0
    else NameIndex(names[1..], name) + 1
  }

  /** The sort order a form value names; an unknown name means
      acquisition. */
  function SortKey(name: string): Uint8 {
    var i := NameIndex(SortNames, name);
    if i < |SortNames| then i else 0
  }

  /** The ten names are distinct, so each names its own position: they
      differ in their length or their first two letters. */
  lemma SortNamesDistinct()
    ensures forall i, j :: 0 <= j < i < |SortNames| ==> SortNames[j] != SortNames[i]
  {
    forall i, j | 0 <= j < i < |SortNames|
      ensures SortNames[j] != SortNames[i]
    {
      var a, b := SortNames[j], SortNames[i];
      assert |a| != |b| || a[0] != b[0] || a[1] != b[1];
    }
  }

  /** Each of the ten names selects its own position. */
  lemma SortKeyNames()
    ensures forall i :: 0 <= i < |SortNames| ==> SortKey(SortNames[i]) == i
  {
    SortNamesDistinct();
  }

  /** The `switch` over the submitted sort name. */
  function SortCase(name: string): Uint8 {
    if name == "authors" then 1
    else if name == "language" then 2
    else if name == "publisher" then 3
    else if name == "rating" then 4
    else if name == "series" then 5
    else if name == "size" then 6
    else if name == "tags" then 7
    else if name == "time" then 8
    else if name == "title" then 9
    else 0
  }

  /** Each of the ten names takes its own branch of the `switch`. */
  lemma SortCaseNames()
    ensures forall i :: 0 <= i < |SortNames| ==> SortCase(SortNames[i]) == i
  {
    forall i | 0 <= i < |SortNames|
      ensures SortCase(SortNames[i]) == i
    {
      SortNamesDistinct();
    }
  }

  /** The `switch` agrees with the position in the list of sort names. */
  lemma SortCaseIsKey(name: string)
    ensures SortCase(name) == SortKey(name)
  {
    var i := NameIndex(SortNames, name);
    if i < |SortNames| {
      SortCaseNames();
      assert SortCase(SortNames[i]) == i;
    } else {
      assert SortNames[1] != name && SortNames[2] != name && SortNames[3] != name;
      assert SortNames[4] != name && SortNames[5] != name && SortNames[6] != name;
      assert SortNames[7] != name && SortNames[8] != name && SortNames[9] != name;
    }
  }

  /** An absent sort key selects acquisition. */
  lemma SortKeyEmpty()
    ensures SortKey("") == 0
  {
    assert forall j :: 0 <= j < |SortNames| ==> SortNames[j] != [];
  }

  function LanguageStep(q: Options, form: map<string, string>): (r: Options)
    ensures r == q.(guiLang := r.guiLang)
  {
    q.(guiLang := if FormValue(form, "guilang") == "en" then English else German)
  }

  function LayoutStep(q: Options, form: map<string, string>): (r: Options)
    ensures r == q.(layout := r.layout)
  {
    q.(layout := if FormValue(form, "layout") == "grid" then Grid else List)
  }

  /** A numeric page size converted to `uint` (wrapping around); when it
      differs, one page back with the old size before storing it. */
  function LimitStep(q: Options, form: map<string, string>): (r: Options)
    ensures r == q.(limitLength := r.limitLength, limitStart := r.limitStart)
    ensures r.limitStart <= q.limitStart
  {
    match Atoi(FormValue(form, "limitlength"))
    case None => q
    case Some(ll) =>
      var length: Uint := ll % Two64;
      if length == q.limitLength then q else DecLimited(q).(limitLength := length)
  }

  function MatchingStep(q: Options, form: map<string, string>): (r: Options)
    ensures r == q.(entity := r.entity, id := r.id, matching := r.matching, limitStart := r.limitStart, virtLib := r.virtLib)
  {
    var m := FormValue(form, "matching");
    if m == "" then q.(entity := "", id := 0, matching := "")
    else if m == q.matching then q
    else q.(id := 0, matching := m, limitStart := 0, virtLib := "")
  }

  function OrderStep(q: Options, form: map<string, string>): (r: Options)
    ensures r == q.(descending := r.descending, limitStart := r.limitStart)
  {
    var o := FormValue(form, "order");
    if o == "" then q.(descending := false)
    else if (o == "descending") == q.descending then q
    else q.(descending := o == "descending", limitStart := 0)
  }

  function SortStep(q: Options, form: map<string, string>): (r: Options)
    ensures r == q.(sortBy := r.sortBy, limitStart := r.limitStart)
  {
    var f := FormValue(form, "sortby");
    if f == "" then q.(sortBy := 0)
    else if SortKey(f) == q.sortBy then q
    else q.(limitStart := 0, sortBy := SortKey(f))
  }

  function ThemeStep(q: Options, form: map<string, string>): (r: Options)
    ensures r == q.(theme := r.theme)
  {
    q.(theme := if FormValue(form, "theme") == "dark" then Dark else Light)
  }

  /** A new library selection (`-` for none) starts from the first page of
      an unfiltered list and takes the library's query from the list of
      virtual libraries (`libs`, absent when it cannot be read) when the
      library is in it. */
  function VirtLibStep(q: Options, form: map<string, string>, libs: Option<map<string, string>>): (r: Options)
    ensures r == q.(virtLib := r.virtLib, matching := r.matching, entity := r.entity, id := r.id, limitStart := r.limitStart)
  {
    var vl := FormValue(form, "virtlib");
    if vl == "" then q.(virtLib := "")
    else if vl == q.virtLib then q
    else q.(virtLib := if vl == "-" then "" else vl,
            matching := if libs.Some? && vl in libs.value then libs.value[vl] else q.matching,
            entity := "", id := 0, limitStart := 0)
  }

  /** `Update`: the eight form rules, in order. */
  function Updated(q: Options, form: map<string, string>, libs: Option<map<string, string>>): Options {
    var q1 := LayoutStep(LanguageStep(q, form), form);
    var q2 := OrderStep(MatchingStep(LimitStep(q1, form), form), form);
    VirtLibStep(ThemeStep(SortStep(q2, form), form), form, libs)
  }

  /** Language, layout and theme are chosen outright by the exact strings
      "en", "grid" and "dark"; anything else, absence included, means
      German, list and light. */
  lemma UpdateLooks(q: Options, form: map<string, string>, libs: Option<map<string, string>>)
    ensures var r := Updated(q, form, libs);
      && r.guiLang == (if FormValue(form, "guilang") == "en" then English else German)
      && r.layout == (if FormValue(form, "layout") == "grid" then Grid else List)
      && r.theme == (if FormValue(form, "theme") == "dark" then Dark else Light)
  {
  }

  /** The order is chosen outright too: descending only for the exact
      string "descending". */
  lemma UpdateOrder(q: Options, form: map<string, string>, libs: Option<map<string, string>>)
    ensures Updated(q, form, libs).descending <==> FormValue(form, "order") == "descending"
  {
  }

  /** So is the sort key, an absent or unknown one meaning acquisition. */
  lemma UpdateSortBy(q: Options, form: map<string, string>, libs: Option<map<string, string>>)
    ensures Updated(q, form, libs).sortBy == SortKey(FormValue(form, "sortby"))
  {
    SortKeyEmpty();
  }

  /** A numeric page size is stored (as a `uint`); any other is ignored. */
  lemma UpdatePageSize(q: Options, form: map<string, string>, libs: Option<map<string, string>>)
    ensures Updated(q, form, libs).limitLength == match Atoi(FormValue(form, "limitlength"))
      case None => q.limitLength
      case Some(ll) => ll % Two64
  {
  }

  /** A changed non-empty matching, order, sort key or library sends the
      list back to its first page. */
  lemma UpdatePageReset(q: Options, form: map<string, string>, libs: Option<map<string, string>>)
    requires var m, o, f, vl := FormValue(form, "matching"), FormValue(form, "order"),
                                FormValue(form, "sortby"), FormValue(form, "virtlib");
      || (m != "" && m != q.matching)
      || (o != "" && (o == "descending") != q.descending)
      || (f != "" && SortKey(f) != q.sortBy)
      || (vl != "" && vl != q.virtLib)
    ensures Updated(q, form, libs).limitStart == 0
  {
  }

  /** Otherwise the page start only moves when the page size changes: one
      page back, measured with the old size. */
  lemma UpdatePageKept(q: Options, form: map<string, string>, libs: Option<map<string, string>>)
    requires var m, o, f, vl := FormValue(form, "matching"), FormValue(form, "order"),
                                FormValue(form, "sortby"), FormValue(form, "virtlib");
      && (m == "" || m == q.matching)
      && (o == "" || (o == "descending") == q.descending)
      && (f == "" || SortKey(f) == q.sortBy)
      && (vl == "" || vl == q.virtLib)
    ensures Updated(q, form, libs).limitStart == match Atoi(FormValue(form, "limitlength"))
      case None => q.limitStart
      case Some(ll) => if ll % Two64 == q.limitLength then q.limitStart else DecLimited(q).limitStart
  {
  }

  /** The filter after `Update`: the library rule fires for a non-empty
      library other than the current one (which a changed matching has
      just cleared); then `matching` comes from the library list when the
      library is in it, and otherwise is the submitted matching. An absent
      matching clears the entity and the ID, an absent library clears the
      library. */
  lemma UpdateFilter(q: Options, form: map<string, string>, libs: Option<map<string, string>>)
    ensures var m, vl := FormValue(form, "matching"), FormValue(form, "virtlib");
      var changed := m != "" && m != q.matching;
      var fires := vl != "" && (vl != q.virtLib || changed);
      var r := Updated(q, form, libs);
      && r.matching == (if fires && libs.Some? && vl in libs.value then libs.value[vl] else m)
      && r.virtLib == (if vl == "" then "" else if fires && vl == "-" then "" else vl)
      && r.entity == (if m == "" || fires then "" else q.entity)
      && r.id == (if m == "" || changed || fires then 0 else q.id)
  {
  }

  // ---------------------------------------------------------------------
  // HTML option lists

  /** The attribute text marking the selected option (`qoSelectedLookup`). */
  function SelectedMark(selected: bool): string {
    if selected then " SELECTED" else ""
  }

  /** The opening tag of an HTML option, marked SELECTED or not. */
  function OptionTag(value: string, selected: bool): string {
    "<option" + SelectedMark(selected) + " value=\"" + value + "\">"
  }

  /** The option text carries the SELECTED mark right after `<option`. */
  predicate Marked(tag: string) {
    16 <= |tag| && tag[7..16] == " SELECTED"
  }

  lemma OptionTagMarked(value: string, selected: bool)
    ensures 16 <= |OptionTag(value, selected)|
    ensures Marked(OptionTag(value, selected)) <==> selected
  {
    var t := OptionTag(value, selected);
    if !selected {
      assert t[8] == 'v';
    }
  }

  /** The two spellings of an option tag. */
  lemma TagText(value: string)
    ensures OptionTag(value, true) == "<option SELECTED value=\"" + value + "\">"
    ensures OptionTag(value, false) == "<option value=\"" + value + "\">"
  {
  }

  /** A two-way choice whose second value is selected when `second` holds
      and whose first value is selected otherwise. */
  function Choice(first: string, second: string, isSecond: bool): map<string, string> {
    map[first := OptionTag(first, !isSecond), second := OptionTag(second, isSecond)]
  }

  /** Exactly one of the two options carries SELECTED. */
  lemma ChoiceMarksOne(first: string, second: string, isSecond: bool)
    requires first != second
    ensures var m := Choice(first, second, isSecond);
      m.Keys == {first, second}
      && (Marked(m[second]) <==> isSecond)
      && (Marked(m[first]) <==> !isSecond)
  {
    OptionTagMarked(first, !isSecond);
    OptionTagMarked(second, isSecond);
  }

  function LanguageOptions(q: Options): map<string, string> {
    Choice("de", "en", q.guiLang == English)
  }

  function LayoutOptions(q: Options): map<string, string> {
    Choice("grid", "list", q.layout == List)
  }

  function OrderOptions(q: Options): map<string, string> {
    Choice("ascending", "descending", q.descending)
  }

  /** Light or dark marked by the theme; no options for any other theme. */
  function ThemeOptions(q: Options): map<string, string> {
    if q.theme == Light || q.theme == Dark then Choice("light", "dark", q.theme == Dark) else map[]
  }

  /** Language, layout and order offer two options each, exactly one of
      them marked: English, list and descending mark the second. */
  lemma TwoWayMarksOne(q: Options)
    ensures var m := LanguageOptions(q);
      m.Keys == {"de", "en"} && (Marked(m["en"]) <==> q.guiLang == English) && (Marked(m["de"]) <==> q.guiLang != English)
    ensures var m := LayoutOptions(q);
      m.Keys == {"grid", "list"} && (Marked(m["list"]) <==> q.layout == List) && (Marked(m["grid"]) <==> q.layout != List)
    ensures var m := OrderOptions(q);
      m.Keys == {"ascending", "descending"} && (Marked(m["descending"]) <==> q.descending) && (Marked(m["ascending"]) <==> !q.descending)
  {
    ChoiceMarksOne("de", "en", q.guiLang == English);
    ChoiceMarksOne("grid", "list", q.layout == List);
    ChoiceMarksOne("ascending", "descending", q.descending);
  }

  /** A light or dark theme offers both themes with exactly the current one
      marked; any other theme offers nothing. */
  lemma ThemeMarksOne(q: Options)
    ensures var m := ThemeOptions(q);
      (q.theme == Light || q.theme == Dark ==>
        m.Keys == {"light", "dark"} && (Marked(m["dark"]) <==> q.theme == Dark) && (Marked(m["light"]) <==> q.theme == Light))
      && (q.theme != Light && q.theme != Dark ==> m == map[])
  {
    ChoiceMarksOne("light", "dark", q.theme == Dark);
  }

  /** One option per sort key, marked when it is the current one. */
  function SortByOptions(q: Options): map<string, string> {
    SortPrefix(q.sortBy, |SortNames|)
  }

  /** The options for the given names, each marked when its sort key is
      the current one. */
  function SortOptionsFor(names: seq<string>, sortBy: int): map<string, string> {
    map k | k in names :: OptionTag(k, SortKey(k) == sortBy)
  }

  /** The options for the first `n` sort names. */
  function SortPrefix(sortBy: int, n: nat): map<string, string>
    requires n <= |SortNames|
  {
    SortOptionsFor(SortNames[..n], sortBy)
  }

  lemma SortOptionsForSnoc(names: seq<string>, name: string, sortBy: int)
    ensures SortOptionsFor(names + [name], sortBy)
         == SortOptionsFor(names, sortBy)[name := OptionTag(name, SortKey(name) == sortBy)]
  {
    var a := SortOptionsFor(names + [name], sortBy);
    var b := SortOptionsFor(names, sortBy)[name := OptionTag(name, SortKey(name) == sortBy)];
    assert forall k :: k in names + [name] <==> k in names || k == name;
    assert a.Keys == b.Keys;
  }

  /** Adding the option for name `n` to the options for the names before
      it gives the options for one name more. */
  lemma SortPrefixStep(sortBy: int, n: nat, m: map<string, string>)
    requires n < |SortNames|
    requires m == SortPrefix(sortBy, n)
    ensures m[SortNames[n] := OptionTag(SortNames[n], n == sortBy)] == SortPrefix(sortBy, n + 1)
  {
    var names := SortNames;
    assert names[..n + 1] == names[..n] + [names[n]];
    SortOptionsForSnoc(names[..n], names[n], sortBy);
    SortKeyNames();
  }

  /** With a sort key in range exactly its option carries SELECTED; with
      one out of range none does. */
  lemma SortByMarksOne(q: Options)
    ensures var m := SortByOptions(q);
      && (forall i :: 0 <= i < |SortNames| ==> SortNames[i] in m && (Marked(m[SortNames[i]]) <==> i == q.sortBy))
      && (forall k :: k in m ==> k in SortNames)
      && (q.sortBy < |SortNames| ==> forall k :: k in m && Marked(m[k]) ==> k == SortNames[q.sortBy])
      && (|SortNames| <= q.sortBy ==> forall k :: k in m ==> !Marked(m[k]))
  {
    SortKeyNames();
    assert SortNames[..|SortNames|] == SortNames;
    var m := SortByOptions(q);
    forall k | k in m
      ensures Marked(m[k]) <==> SortKey(k) == q.sortBy
    {
      OptionTagMarked(k, SortKey(k) == q.sortBy);
    }
  }

  /** One entry of the page-size list. */
  function LimitOption(limit: nat, selected: bool): string {
    OptionTag(Decimal(limit), selected) + Decimal(limit) + "</option>"
  }

  function LimitParts(q: Options): (r: seq<string>)
    ensures |r| == |LimitList|
  {
    seq(|LimitList|, i requires 0 <= i < |LimitList| => LimitOption(LimitList[i], LimitList[i] == q.limitLength))
  }

  /** The page-size options, separated by a backslash and an `n` (the
      two characters, not a line break). */
  function LimitOptions(q: Options): string {
    Join(LimitParts(q), "\\n")
  }

  /** Text after a complete option tag leaves its mark alone. */
  lemma MarkedPrefix(t: string, rest: string)
    requires 16 <= |t|
    ensures Marked(t + rest) <==> Marked(t)
  {
    assert (t + rest)[7..16] == t[7..16];
  }

  /** An entry of the page-size list is marked exactly when it is
      selected. */
  lemma LimitOptionMarked(limit: nat, selected: bool)
    ensures Marked(LimitOption(limit, selected)) <==> selected
  {
    OptionTagMarked(Decimal(limit), selected);
    MarkedPrefix(OptionTag(Decimal(limit), selected), Decimal(limit) + "</option>");
    assert LimitOption(limit, selected) == OptionTag(Decimal(limit), selected) + (Decimal(limit) + "</option>");
  }

  /** Only the entry equal to the page size is marked; it is marked when
      the page size is one of the allowed sizes. */
  lemma LimitMarksOne(q: Options)
    ensures forall i :: 0 <= i < |LimitList| ==> (Marked(LimitParts(q)[i]) <==> LimitList[i] == q.limitLength)
    ensures forall i, j :: 0 <= i < j < |LimitList| ==> !(Marked(LimitParts(q)[i]) && Marked(LimitParts(q)[j]))
    ensures q.limitLength in LimitList <==> exists i :: 0 <= i < |LimitList| && Marked(LimitParts(q)[i])
  {
    forall i | 0 <= i < |LimitList|
      ensures Marked(LimitParts(q)[i]) <==> LimitList[i] == q.limitLength
    {
      LimitOptionMarked(LimitList[i], LimitList[i] == q.limitLength);
    }
  }

  // ---------------------------------------------------------------------
  // The object

  class QueryOptions {
    var id: Int64
    var descending: bool
    var entity: string
    var guiLang: Uint8
    var layout: Uint8
    var limitLength: Uint
    var limitStart: Uint
    var matching: string
    var queryCount: Uint
    var sortBy: Uint8
    var theme: Uint8
    var virtLib: string

    function Value(): Options
      reads this
    {
      Options(id, descending, entity, guiLang, layout, limitLength, limitStart,
              matching, queryCount, sortBy, theme, virtLib)
    }

    /** A `TQueryOptions` composite literal. */
    constructor (q: Options)
      ensures Value() == q
    {
      id, descending, entity, guiLang := q.id, q.descending, q.entity, q.guiLang;
      layout, limitLength, limitStart := q.layout, q.limitLength, q.limitStart;
      matching, queryCount, sortBy := q.matching, q.queryCount, q.sortBy;
      theme, virtLib := q.theme, q.virtLib;
    }

    method Clone() returns (r: QueryOptions)
      ensures fresh(r) && r.Value() == Value()
    {
      r := new QueryOptions(Value());
    }

    method DecLimit()
      modifies this
      ensures Value() == DecLimited(old(Value()))
    {
      if 0 < limitStart {
        if limitStart <= limitLength {
          limitStart := 0;
        } else {
          limitStart := limitStart - limitLength;
        }
      }
    }

    method IncLimit()
      modifies this
      ensures Value() == IncLimited(old(Value()))
    {
      limitStart := (limitStart + limitLength) % Two64;
    }

    /** The `|`-delimited text form; it scans back to every field. */
    function String(): (r: string)
      reads this
      ensures ScanFrom(r, Pattern) == FieldTokens(Value())
    {
      ScanRender(FieldTokens(Value()), Pattern);
      Formatted(Value())
    }

    method Scan(aString: string)
      modifies this
      ensures Value() == Scanned(old(Value()), aString)
    {
      var ts := ScanFrom(aString, Pattern);
      StoreFields(ts);
      SetFilters(TextAt(ts, 7, ""), TextAt(ts, 11, ""));
    }

    /** The stores `Sscanf` makes through the field pointers. */
    method StoreFields(ts: seq<Token>)
      modifies this
      ensures Value() == Stored(old(Value()), ts)
    {
      Assign(Stored(Value(), ts));
    }

    /** Overwrites every field with those of `q`. */
    method Assign(q: Options)
      modifies this
      ensures Value() == q
    {
      id, descending, entity, guiLang := q.id, q.descending, q.entity, q.guiLang;
      layout, limitLength, limitStart := q.layout, q.limitLength, q.limitStart;
      matching, queryCount, sortBy := q.matching, q.queryCount, q.sortBy;
      theme, virtLib := q.theme, q.virtLib;
    }

    method SetFilters(m: string, v: string)
      modifies this
      ensures Value() == Filtered(old(Value()), m, v)
    {
      matching := TrimSpace(m);
      if v == "-" {
        virtLib := "";
      } else {
        virtLib := TrimSpace(v);
      }
    }

    /** `Update`: the form rules applied in order; `libs` is the list of
        virtual libraries, absent when it cannot be read. */
    method Update(form: map<string, string>, libs: Option<map<string, string>>)
      modifies this
      ensures Value() == Updated(old(Value()), form, libs)
    {
      ApplyLanguage(form);
      ApplyLayout(form);
      ApplyLimit(form);
      ApplyMatching(form);
      ApplyOrder(form);
      ApplySortBy(form);
      ApplyTheme(form);
      ApplyVirtLib(form, libs);
    }

    method ApplyLanguage(form: map<string, string>)
      modifies this
      ensures Value() == LanguageStep(old(Value()), form)
    {
      var lang := FormValue(form, "guilang");
      if 0 < |lang| {
        var l := German;
        if lang == "en" {
          l := English;
        }
        guiLang := l;
      } else {
        guiLang := German;
      }
    }

    method ApplyLayout(form: map<string, string>)
      modifies this
      ensures Value() == LayoutStep(old(Value()), form)
    {
      var lt := FormValue(form, "layout");
      if 0 < |lt| {
        var l := List;
        if lt == "grid" {
          l := Grid;
        }
        layout := l;
      } else {
        layout := List;
      }
    }

    method ApplyLimit(form: map<string, string>)
      modifies this
      ensures Value() == LimitStep(old(Value()), form)
    {
      var fll := FormValue(form, "limitlength");
      if 0 < |fll| {
        var ll := Atoi(fll);
        if ll.Some? {
          var limLen: Uint := ll.value % Two64;
          if limLen != limitLength {
            DecLimit();
            limitLength := limLen;
          }
        }
      }
    }

    method ApplyMatching(form: map<string, string>)
      modifies this
      ensures Value() == MatchingStep(old(Value()), form)
    {
      var m := FormValue(form, "matching");
      if 0 < |m| {
        if m != matching {
          id, matching, limitStart, virtLib := 0, m, 0, "";
        }
      } else {
        entity, id, matching := "", 0, "";
      }
    }

    method ApplyOrder(form: map<string, string>)
      modifies this
      ensures Value() == OrderStep(old(Value()), form)
    {
      var fob := FormValue(form, "order");
      if 0 < |fob| {
        var desc := fob == "descending";
        if desc != descending {
          descending, limitStart := desc, 0;
        }
      } else {
        descending := false;
      }
    }

    method ApplySortBy(form: map<string, string>)
      modifies this
      ensures Value() == SortStep(old(Value()), form)
    {
      var fsb := FormValue(form, "sortby");
      if 0 < |fsb| {
        var sb := SortCase(fsb);
        SortCaseIsKey(fsb);
        if sb != sortBy {
          limitStart, sortBy := 0, sb;
        }
      } else {
        sortBy := 0;
      }
    }

    method ApplyTheme(form: map<string, string>)
      modifies this
      ensures Value() == ThemeStep(old(Value()), form)
    {
      var theme' := FormValue(form, "theme");
      if 0 < |theme'| {
        var t := Light;
        if theme' == "dark" {
          t := Dark;
        }
        theme := t;
      } else {
        theme := Light;
      }
    }

    method ApplyVirtLib(form: map<string, string>, libs: Option<map<string, string>>)
      modifies this
      ensures Value() == VirtLibStep(old(Value()), form, libs)
    {
      var vl := FormValue(form, "virtlib");
      if 0 < |vl| {
        if vl != virtLib {
          if vl == "-" {
            virtLib := "";
          } else {
            virtLib := vl;
          }
          // `vl` is not empty here, so only the lookup is ever taken.
          if libs.Some? && vl in libs.value {
            matching := libs.value[vl];
          }
          entity, id, limitStart := "", 0, 0;
        }
      } else {
        virtLib := "";
      }
    }

    method SelectLanguageOptions() returns (result: map<string, string>)
      ensures result == LanguageOptions(Value())
    {
      TagText("de");
      assert "<option SELECTED value=\"" + "de" + "\">" == "<option SELECTED value=\"de\">";
      assert "<option value=\"" + "de" + "\">" == "<option value=\"de\">";
      TagText("en");
      assert "<option SELECTED value=\"" + "en" + "\">" == "<option SELECTED value=\"en\">";
      assert "<option value=\"" + "en" + "\">" == "<option value=\"en\">";
      result := map[];
      if guiLang == English {
        result := result["de" := "<option value=\"de\">"];
        result := result["en" := "<option SELECTED value=\"en\">"];
      } else {
        result := result["de" := "<option SELECTED value=\"de\">"];
        result := result["en" := "<option value=\"en\">"];
      }
    }

    method SelectLayoutOptions() returns (result: map<string, string>)
      ensures result == LayoutOptions(Value())
    {
      TagText("list");
      assert "<option SELECTED value=\"" + "list" + "\">" == "<option SELECTED value=\"list\">";
      assert "<option value=\"" + "list" + "\">" == "<option value=\"list\">";
      TagText("grid");
      assert "<option SELECTED value=\"" + "grid" + "\">" == "<option SELECTED value=\"grid\">";
      assert "<option value=\"" + "grid" + "\">" == "<option value=\"grid\">";
      result := map[];
      if layout == List {
        result := result["list" := "<option SELECTED value=\"list\">"];
        result := result["grid" := "<option value=\"grid\">"];
      } else {
        result := result["list" := "<option value=\"list\">"];
        result := result["grid" := "<option SELECTED value=\"grid\">"];
      }
    }

    method SelectLimitOptions() returns (r: string)
      ensures r == LimitOptions(Value())
    {
      var sList := new string[|LimitList|];
      for idx := 0 to |LimitList|
        invariant forall j :: 0 <= j < idx ==> sList[j] == LimitParts(Value())[j]
      {
        var limit := LimitList[idx];
        sList[idx] := "<option" + SelectedMark(limit == limitLength) + " value=\"" + Decimal(limit) + "\">"
          + Decimal(limit) + "</option>";
      }
      assert sList[..] == LimitParts(Value());
      r := Join(sList[..], "\\n");
    }

    method SelectOrderOptions() returns (result: map<string, string>)
      ensures result == OrderOptions(Value())
    {
      TagText("ascending");
      assert "<option SELECTED value=\"" + "ascending" + "\">" == "<option SELECTED value=\"ascending\">";
      assert "<option value=\"" + "ascending" + "\">" == "<option value=\"ascending\">";
      TagText("descending");
      assert "<option SELECTED value=\"" + "descending" + "\">" == "<option SELECTED value=\"descending\">";
      assert "<option value=\"" + "descending" + "\">" == "<option value=\"descending\">";
      result := map[];
      if descending {
        result := result["ascending" := "<option value=\"ascending\">"];
        result := result["descending" := "<option SELECTED value=\"descending\">"];
      } else {
        result := result["ascending" := "<option SELECTED value=\"ascending\">"];
        result := result["descending" := "<option value=\"descending\">"];
      }
    }

    method SelectSortByOptions() returns (result: map<string, string>)
      ensures result == SortByOptions(Value())
    {
      result := map[];
      assert result == SortPrefix(sortBy, 0);
      SortPrefixStep(sortBy, 0, result);
      result := SelectSortByPrim(result, 0, SortNames[0]);  // "acquisition"
      SortPrefixStep(sortBy, 1, result);
      result := SelectSortByPrim(result, 1, SortNames[1]);  // "authors"
      SortPrefixStep(sortBy, 2, result);
      result := SelectSortByPrim(result, 2, SortNames[2]);  // "language"
      SortPrefixStep(sortBy, 3, result);
      result := SelectSortByPrim(result, 3, SortNames[3]);  // "publisher"
      SortPrefixStep(sortBy, 4, result);
      result := SelectSortByPrim(result, 4, SortNames[4]);  // "rating"
      SortPrefixStep(sortBy, 5, result);
      result := SelectSortByPrim(result, 5, SortNames[5]);  // "series"
      SortPrefixStep(sortBy, 6, result);
      result := SelectSortByPrim(result, 6, SortNames[6]);  // "size"
      SortPrefixStep(sortBy, 7, result);
      result := SelectSortByPrim(result, 7, SortNames[7]);  // "tags"
      SortPrefixStep(sortBy, 8, result);
      result := SelectSortByPrim(result, 8, SortNames[8]);  // "time"
      SortPrefixStep(sortBy, 9, result);
      result := SelectSortByPrim(result, 9, SortNames[9]);  // "title"
    }

    /** Adds the option for the sort key `aIndex` (order `aSort`), marked
        when it is the current one. */
    method SelectSortByPrim(aMap: map<string, string>, aSort: Uint8, aIndex: string)
      returns (r: map<string, string>)
      ensures r == aMap[aIndex := OptionTag(aIndex, aSort == sortBy)]
    {
      TagText(aIndex);
      if aSort == sortBy {
        r := aMap[aIndex := "<option SELECTED value=\"" + aIndex + "\">"];
      } else {
        r := aMap[aIndex := "<option value=\"" + aIndex + "\">"];
      }
    }

    method SelectThemeOptions() returns (result: map<string, string>)
      ensures result == ThemeOptions(Value())
    {
      TagText("light");
      assert "<option SELECTED value=\"" + "light" + "\">" == "<option SELECTED value=\"light\">";
      assert "<option value=\"" + "light" + "\">" == "<option value=\"light\">";
      TagText("dark");
      assert "<option SELECTED value=\"" + "dark" + "\">" == "<option SELECTED value=\"dark\">";
      assert "<option value=\"" + "dark" + "\">" == "<option value=\"dark\">";
      result := map[];
      if theme == Light {
        result := result["light" := "<option SELECTED value=\"light\">"];
        result := result["dark" := "<option value=\"dark\">"];
      } else if theme == Dark {
        result := result["light" := "<option value=\"light\">"];
        result := result["dark" := "<option SELECTED value=\"dark\">"];
      }
    }
  }

  method NewQueryOptions(aDocsPerPage: int) returns (r: QueryOptions)
    ensures fresh(r) && r.Value() == Initial(aDocsPerPage)
  {
    var length: Uint;
    if 0 < aDocsPerPage {
      var limit: Uint := 0;
      var i := 0;
      while i < |LimitList|
        invariant 0 <= i <= |LimitList|
        invariant forall j :: 0 <= j < i ==> LimitList[j] < aDocsPerPage
        invariant i == 0 || limit == LimitList[i - 1]
      {
        limit := LimitList[i];
        if limit >= aDocsPerPage {
          break;
        }
        i := i + 1;
      }
      length := limit;
    } else {
      length := 24;
    }
    r := new QueryOptions(Options(0, true, "", German, List, length, 0, "", 0, 0, Light, ""));
  }
}
