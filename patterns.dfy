/** The two fixed regular expressions of db/search.go, as leftmost-first
    recognisers over ASCII text:

      the structured term   (?i)((!?)(#?\w+):)"([=~]?)([^"]*)"(\s*(AND|OR))?
      the free-text rest    \s*(!?)\s*([\w ]+)

    A match is described by the positions that delimit its captures. Each
    recogniser is related to a declarative description of the text the
    pattern accepts (`IsExprMatch`, `IsRemMatch`) and to the order in which
    a backtracking engine tries the alternatives: it returns the first
    match in that order, at the leftmost position where there is one, which
    is what `FindStringSubmatch` and `MatchString` report. */
module Patterns {
  import opened Text

  // -----------------------------------------------------------------------
  // Helpers shared by both patterns

  /** The leftmost position in `[k, n]` where `at` holds, the order in
      which an unanchored search tries the positions where a match may
      start. */
  function Leftmost(at: nat -> bool, k: nat, n: nat): (r: Option<nat>)
    requires k <= n
    ensures r.Some? ==> k <= r.value <= n && at(r.value)
    ensures r.Some? ==> forall j :: k <= j < r.value ==> !at(j)
    ensures r.None? ==> forall j :: k <= j <= n ==> !at(j)
    decreases n - k
  {
    if at(k) then Some(k) else if k == n then None else Leftmost(at, k + 1, n)
  }

  /** `[=~]` */
  predicate IsMatcherChar(c: char) { c == '=' || c == '~' }

  /** `[\w ]` */
  predicate IsWordOrSpace(c: char) { IsWordChar(c) || c == ' ' }

  /** `AND` and `OR` compared ignoring ASCII case, as `(?i)` compares them. */
  predicate IsAnd(t: string) {
    |t| == 3 && UpperChar(t[0]) == 'A' && UpperChar(t[1]) == 'N' && UpperChar(t[2]) == 'D'
  }

  predicate IsOr(t: string) {
    |t| == 2 && UpperChar(t[0]) == 'O' && UpperChar(t[1]) == 'R'
  }

  /** The connector alternatives `AND|OR`. */
  predicate IsConnector(t: string) {
    IsAnd(t) || IsOr(t)
  }

  /** Upper-casing a connector gives `AND` or `OR`. */
  lemma ConnectorUpper(t: string)
    requires IsConnector(t)
    ensures IsAnd(t) ==> ToUpper(t) == "AND"
    ensures IsOr(t) ==> ToUpper(t) == "OR"
  {
  }

  /** Index just past the run of `[\w ]` characters that starts at `i`. */
  function WordSpaceEnd(s: string, i: nat): (e: nat)
    requires i <= |s|
    ensures i <= e <= |s|
    ensures forall j :: i <= j < e ==> IsWordOrSpace(s[j])
    ensures e == |s| || !IsWordOrSpace(s[e])
    decreases |s| - i
  {
    if i < |s| && IsWordOrSpace(s[i]) then WordSpaceEnd(s, i + 1) else i
  }

  /** A run of word characters ended by a non-word character is the one
      `WordEnd` finds. */
  lemma {:induction false} WordEndAt(s: string, i: nat, e: nat)
    requires i <= e < |s| && !IsWordChar(s[e])
    requires forall j :: i <= j < e ==> IsWordChar(s[j])
    ensures WordEnd(s, i) == e
    decreases e - i
  {
    if i < e {
      WordEndAt(s, i + 1, e);
    }
  }

  /** The first double quote at or after `i`. */
  lemma {:induction false} QuoteFromAt(s: string, i: nat, q: nat)
    requires i <= q < |s| && s[q] == '"'
    requires forall j :: i <= j < q ==> s[j] != '"'
    ensures QuoteFrom(s, i) == q
    decreases q - i
  {
    if i < q {
      QuoteFromAt(s, i + 1, q);
    }
  }

  /** A run of white space ended by anything else is the one `SpaceEnd`
      finds. */
  lemma {:induction false} SpaceEndAt(s: string, i: nat, e: nat)
    requires i <= e <= |s| && (e == |s| || !IsRegexSpace(s[e]))
    requires forall j :: i <= j < e ==> IsRegexSpace(s[j])
    ensures SpaceEnd(s, i) == e
    decreases e - i
  {
    if i < e {
      SpaceEndAt(s, i + 1, e);
    }
  }

  /** A run of `[\w ]` characters ended by anything else is the one
      `WordSpaceEnd` finds. */
  lemma {:induction false} WordSpaceEndAt(s: string, i: nat, e: nat)
    requires i <= e <= |s| && (e == |s| || !IsWordOrSpace(s[e]))
    requires forall j :: i <= j < e ==> IsWordOrSpace(s[j])
    ensures WordSpaceEnd(s, i) == e
    decreases e - i
  {
    if i < e {
      WordSpaceEndAt(s, i + 1, e);
    }
  }

  // -----------------------------------------------------------------------
  // The structured term

  /** A match of the structured-term pattern, by the positions of its
      parts: the optional `!` is `[start, bangEnd)`, the field name (with
      its optional `#`) `[bangEnd, entityEnd)`, then `:"`, the optional
      matcher `[entityEnd + 2, termStart)`, the term `[termStart,
      termEnd)`, the closing quote at `termEnd`, white space up to
      `connStart` and the connector `[connStart, end)`. Without a
      connector, `connStart == end == termEnd + 1`. */
  datatype ExprMatch = ExprMatch(start: nat, bangEnd: nat, entityEnd: nat, termStart: nat,
    termEnd: nat, connStart: nat, end: nat)

  /** The positions are ordered and lie inside `s`. */
  predicate Inside(s: string, m: ExprMatch) {
    m.start <= m.bangEnd <= m.entityEnd && m.entityEnd + 2 <= m.termStart <= m.termEnd
    && m.termEnd < m.connStart <= m.end <= |s|
  }

  /** `#?\w+` spans `[b, e)`. */
  predicate EntityShape(s: string, b: nat, e: nat)
    requires b <= e <= |s|
  {
    var w := if b < e && s[b] == '#' then b + 1 else b;
    w < e && forall j :: w <= j < e ==> IsWordChar(s[j])
  }

  /** The text `s[m.start..m.end]` is accepted by the pattern, with its
      parts where `m` puts them. */
  predicate IsExprMatch(s: string, m: ExprMatch) {
    Inside(s, m)
    && (m.bangEnd == m.start || (m.bangEnd == m.start + 1 && s[m.start] == '!'))
    && EntityShape(s, m.bangEnd, m.entityEnd)
    && s[m.entityEnd] == ':' && s[m.entityEnd + 1] == '"'
    && (m.termStart == m.entityEnd + 2
        || (m.termStart == m.entityEnd + 3 && IsMatcherChar(s[m.entityEnd + 2])))
    && (forall j :: m.termStart <= j < m.termEnd ==> s[j] != '"')
    && s[m.termEnd] == '"'
    && (forall j :: m.termEnd < j < m.connStart ==> IsRegexSpace(s[j]))
    && ((m.connStart == m.end == m.termEnd + 1) || IsConnector(s[m.connStart..m.end]))
  }

  /** The order in which a backtracking engine tries two matches at the
      same start: taking the optional matcher comes first, then taking the
      optional connector group. (The other parts admit one choice only.) */
  predicate ExprTriedBefore(m: ExprMatch, m': ExprMatch) {
    m.termStart > m'.termStart || (m.termStart == m'.termStart && m.end > m'.end)
  }

  /** The captures `FindStringSubmatch` reports (matches[0], [2], [3], [4],
      [5] and [7]). */
  function Whole(s: string, m: ExprMatch): string requires Inside(s, m) { s[m.start..m.end] }
  function Bang(s: string, m: ExprMatch): string requires Inside(s, m) { s[m.start..m.bangEnd] }
  function Entity(s: string, m: ExprMatch): string requires Inside(s, m) { s[m.bangEnd..m.entityEnd] }
  function Matcher(s: string, m: ExprMatch): string requires Inside(s, m) { s[m.entityEnd + 2..m.termStart] }
  function Term(s: string, m: ExprMatch): string requires Inside(s, m) { s[m.termStart..m.termEnd] }
  function Conn(s: string, m: ExprMatch): string requires Inside(s, m) { s[m.connStart..m.end] }

  /** Length of the connector at `c`: `AND` is tried before `OR`. */
  function ConnLength(s: string, c: nat): (n: nat)
    requires c <= |s|
    ensures n == 0 || n == 2 || n == 3
    ensures n > 0 ==> c + n <= |s| && IsConnector(s[c..c + n])
  {
    if c + 3 <= |s| && IsAnd(s[c..c + 3]) then 3
    else if c + 2 <= |s| && IsOr(s[c..c + 2]) then 2
    else 0
  }

  /** The end of an optional character `c` at `i` (the `!` of a negation,
      the `#` of a custom column): it is taken when present, since the
      forced prefix `!?#?\w+` cannot match without it. */
  function OptionalEnd(s: string, i: nat, c: char): (b: nat)
    requires i <= |s|
    ensures i <= b <= |s|
  {
    if i < |s| && s[i] == c then i + 1 else i
  }

  /** The pattern anchored at `i`, each optional part taken when present. */
  function ExprAt(s: string, i: nat): (r: Option<ExprMatch>)
    requires i <= |s|
    ensures r.Some? ==> r.value.start == i && Inside(s, r.value)
  {
    var b := OptionalEnd(s, i, '!');
    var w := OptionalEnd(s, b, '#');
    var e := WordEnd(s, w);
    if e == w || e + 1 >= |s| || s[e] != ':' || s[e + 1] != '"' then None
    else ExprTail(s, i, b, e)
  }

  /** The rest of the pattern once `!?#?\w+:"` has matched `[i, e + 2)`:
      the matcher is taken when present and the term runs to the next
      quote. */
  function ExprTail(s: string, i: nat, b: nat, e: nat): (r: Option<ExprMatch>)
    requires i <= b <= e && e + 2 <= |s|
    ensures r.Some? ==> r.value.start == i && r.value.bangEnd == b && r.value.entityEnd == e
    ensures r.Some? ==> Inside(s, r.value)
  {
    var t := if e + 2 < |s| && IsMatcherChar(s[e + 2]) then e + 3 else e + 2;
    var q := QuoteFrom(s, t);
    if q == |s| then None else Some(ExprClose(s, i, b, e, t, q))
  }

  /** The optional connector group after the closing quote at `q`, taken
      when present. */
  function ExprClose(s: string, i: nat, b: nat, e: nat, t: nat, q: nat): (m: ExprMatch)
    requires q < |s|
    ensures m.start == i && m.bangEnd == b && m.entityEnd == e && m.termStart == t && m.termEnd == q
    ensures q < m.connStart <= m.end <= |s|
  {
    var c := SpaceEnd(s, q + 1);
    var n := ConnLength(s, c);
    if n == 0 then ExprMatch(i, b, e, t, q, q + 1, q + 1)
    else ExprMatch(i, b, e, t, q, c, c + n)
  }

  /** What `ExprAt` returns is a match of the pattern at `i`. */
  lemma ExprAtSound(s: string, i: nat)
    requires i <= |s| && ExprAt(s, i).Some?
    ensures ExprAt(s, i).value.start == i && IsExprMatch(s, ExprAt(s, i).value)
  {
  }

  /** Every match at `i` has the forced prefix `ExprAt` takes. */
  lemma ExprHeadForced(s: string, m': ExprMatch)
    requires IsExprMatch(s, m')
    ensures m'.bangEnd == OptionalEnd(s, m'.start, '!')
    ensures m'.entityEnd == WordEnd(s, OptionalEnd(s, m'.bangEnd, '#'))
  {
    var i := m'.start;
    assert m'.bangEnd == OptionalEnd(s, i, '!') by {
      if m'.bangEnd == i && i < |s| && s[i] == '!' {
        assert false;
      }
    }
    WordEndAt(s, OptionalEnd(s, m'.bangEnd, '#'), m'.entityEnd);
  }

  /** Once the forced prefix is there, `ExprAt` continues with `ExprTail`. */
  lemma ExprAtViaTail(s: string, i: nat, b: nat, e: nat)
    requires i <= |s| && b == OptionalEnd(s, i, '!') && e == WordEnd(s, OptionalEnd(s, b, '#'))
    requires OptionalEnd(s, b, '#') < e && e + 1 < |s| && s[e] == ':' && s[e + 1] == '"'
    ensures ExprAt(s, i) == ExprTail(s, i, b, e)
  {
  }

  /** `ExprClose` takes the connector whenever a match with the same term
      has one. */
  lemma ExprCloseFirst(s: string, m': ExprMatch)
    requires IsExprMatch(s, m')
    ensures var m := ExprClose(s, m'.start, m'.bangEnd, m'.entityEnd, m'.termStart, m'.termEnd);
      m == m' || m.end > m'.end
  {
    if m'.end != m'.termEnd + 1 {
      ConnectorAfterSpace(s, m'.termEnd + 1, m'.connStart, m'.end);
      ConnectorLength(s, m'.connStart, m'.end);
    }
  }

  /** `ExprTail` completes every match whose prefix it is given, with the
      one a backtracking engine tries first. */
  lemma ExprTailFirst(s: string, m': ExprMatch)
    requires IsExprMatch(s, m')
    ensures ExprTail(s, m'.start, m'.bangEnd, m'.entityEnd).Some?
    ensures var m := ExprTail(s, m'.start, m'.bangEnd, m'.entityEnd).value;
      m == m' || ExprTriedBefore(m, m')
  {
    var e := m'.entityEnd;
    var t := if e + 2 < |s| && IsMatcherChar(s[e + 2]) then e + 3 else e + 2;
    assert m'.termStart <= t <= m'.termEnd by {
      if t == e + 3 {
        assert s[e + 2] != '"';
      }
    }
    QuoteFromAt(s, t, m'.termEnd);
    ExprTailAt(s, m'.start, m'.bangEnd, e, t, m'.termEnd);
    if t == m'.termStart {
      ExprCloseFirst(s, m');
    }
  }

  /** Where the matcher ends at `t` and the term at the quote `q`, `ExprTail`
      closes the match there. */
  lemma ExprTailAt(s: string, i: nat, b: nat, e: nat, t: nat, q: nat)
    requires i <= b <= e && e + 2 <= |s| && q < |s|
    requires t == if e + 2 < |s| && IsMatcherChar(s[e + 2]) then e + 3 else e + 2
    requires QuoteFrom(s, t) == q
    ensures ExprTail(s, i, b, e) == Some(ExprClose(s, i, b, e, t, q))
  {
  }

  /** Every match of the pattern at `i` is found by `ExprAt`, which returns
      the one a backtracking engine tries first. */
  lemma ExprAtFirst(s: string, i: nat, m': ExprMatch)
    requires i <= |s| && IsExprMatch(s, m') && m'.start == i
    ensures ExprAt(s, i).Some?
    ensures ExprAt(s, i).value == m' || ExprTriedBefore(ExprAt(s, i).value, m')
  {
    ExprHeadForced(s, m');
    ExprAtViaTail(s, i, m'.bangEnd, m'.entityEnd);
    ExprTailFirst(s, m');
  }

  /** A connector after the white space begins where the white space ends. */
  lemma ConnectorAfterSpace(s: string, a: nat, c: nat, z: nat)
    requires a <= c <= z <= |s|
    requires forall j :: a <= j < c ==> IsRegexSpace(s[j])
    requires IsConnector(s[c..z])
    ensures SpaceEnd(s, a) == c
  {
    assert s[c..z][0] == s[c];
    assert !IsRegexSpace(s[c]);
    SpaceEndAt(s, a, c);
  }

  /** The connector at `c` is the one `ConnLength` measures. */
  lemma ConnectorLength(s: string, c: nat, z: nat)
    requires c <= z <= |s| && IsConnector(s[c..z])
    ensures ConnLength(s, c) == z - c
  {
    var t := s[c..z];
    assert t[0] == s[c];
    if IsAnd(t) {
      assert s[c..c + 3] == t;
    } else {
      assert UpperChar(s[c]) == 'O';
      assert s[c..c + 2] == t;
    }
  }

  /** `FindStringSubmatch` from position `k` on: the match at the leftmost
      start at or after `k`. */
  function FindExprFrom(s: string, k: nat): (r: Option<ExprMatch>)
    requires k <= |s|
    ensures r.Some? ==> k <= r.value.start <= |s| && ExprAt(s, r.value.start) == r
    ensures r.Some? ==> forall j :: k <= j < r.value.start ==> ExprAt(s, j).None?
    ensures r.None? ==> forall j :: k <= j <= |s| ==> ExprAt(s, j).None?
  {
    var at := (j: nat) => j <= |s| && ExprAt(s, j).Some?;
    assert forall j: nat :: j <= |s| ==> (at(j) <==> ExprAt(s, j).Some?);
    match Leftmost(at, k, |s|)
    case Some(i) => ExprAt(s, i)
    case None => None
  }

  /** `FindStringSubmatch` (and, through `Some?`, `MatchString`). */
  function FindExpr(s: string): (r: Option<ExprMatch>)
    ensures r.Some? ==> Inside(s, r.value)
  {
    FindExprFrom(s, 0)
  }

  /** `FindExpr` returns a match of the pattern; none starts further left;
      it is the first tried at its start; and there is no match at all
      when it returns `None`. */
  lemma FindExprLeftmost(s: string)
    ensures FindExpr(s).Some? ==> IsExprMatch(s, FindExpr(s).value)
    ensures FindExpr(s).Some? ==> forall m' :: IsExprMatch(s, m') ==>
      FindExpr(s).value.start < m'.start
      || (FindExpr(s).value.start == m'.start
          && (FindExpr(s).value == m' || ExprTriedBefore(FindExpr(s).value, m')))
    ensures FindExpr(s).None? <==> forall m' :: !IsExprMatch(s, m')
  {
    if FindExpr(s).Some? {
      ExprAtSound(s, FindExpr(s).value.start);
    }
    forall m' | IsExprMatch(s, m')
      ensures FindExpr(s).Some? && FindExpr(s).value.start <= m'.start
      ensures FindExpr(s).value.start == m'.start ==>
        FindExpr(s).value == m' || ExprTriedBefore(FindExpr(s).value, m')
    {
      FindExprNoLater(s, m');
    }
  }

  /** `FindExpr` finds a match that starts no later than any match, and
      the first tried when they start together. */
  lemma FindExprNoLater(s: string, m': ExprMatch)
    requires IsExprMatch(s, m')
    ensures FindExpr(s).Some? && FindExpr(s).value.start <= m'.start
    ensures FindExpr(s).value.start == m'.start ==>
      FindExpr(s).value == m' || ExprTriedBefore(FindExpr(s).value, m')
  {
    ExprAtFirst(s, m'.start, m');
  }

  /** `(AND|OR)` has no word boundary: in `a:"x" ORDER` the connector is the
      `OR` of `ORDER`. */
  lemma ConnectorNeedsNoWordBoundary()
    ensures var s := "a:\"x\" ORDER";
      ExprAt(s, 0) == Some(ExprMatch(0, 0, 1, 3, 4, 6, 8))
  {
    var s := "a:\"x\" ORDER";
    assert WordEnd(s, 0) == 1;
    assert QuoteFrom(s, 3) == 4;
    assert SpaceEnd(s, 5) == 6;
    assert !IsAnd(s[6..9]);
    assert IsOr(s[6..8]);
  }

  // -----------------------------------------------------------------------
  // The free-text remainder

  /** A match of the remainder pattern, by the positions of its parts:
      white space `[start, bangStart)`, the optional `!`
      `[bangStart, bangEnd)`, white space up to `wordsStart` and the words
      `[wordsStart, end)`. */
  datatype RemMatch = RemMatch(start: nat, bangStart: nat, bangEnd: nat, wordsStart: nat, end: nat)

  /** The text `s[m.start..m.end]` is accepted by the pattern, with its
      parts where `m` puts them. */
  predicate IsRemMatch(s: string, m: RemMatch) {
    m.start <= m.bangStart <= m.bangEnd <= m.wordsStart < m.end <= |s|
    && (forall j :: m.start <= j < m.bangStart ==> IsRegexSpace(s[j]))
    && (m.bangEnd == m.bangStart || (m.bangEnd == m.bangStart + 1 && s[m.bangStart] == '!'))
    && (forall j :: m.bangEnd <= j < m.wordsStart ==> IsRegexSpace(s[j]))
    && (forall j :: m.wordsStart <= j < m.end ==> IsWordOrSpace(s[j]))
  }

  /** The order in which a backtracking engine tries two matches at the
      same start: the greedy `\s*`, `!?`, `\s*` and `[\w ]+` each try their
      longest choice first. */
  predicate RemTriedBefore(m: RemMatch, m': RemMatch) {
    m.bangStart > m'.bangStart
    || (m.bangStart == m'.bangStart
        && (m.bangEnd > m'.bangEnd
            || (m.bangEnd == m'.bangEnd
                && (m.wordsStart > m'.wordsStart
                    || (m.wordsStart == m'.wordsStart && m.end > m'.end)))))
  }

  /** The parts of `m` lie in order within `s`. */
  predicate RemInside(s: string, m: RemMatch) {
    m.start <= m.bangStart <= m.bangEnd <= m.wordsStart < m.end <= |s|
  }

  function RemWhole(s: string, m: RemMatch): string
    requires m.start <= m.end <= |s|
  {
    s[m.start..m.end]
  }

  function RemBang(s: string, m: RemMatch): string
    requires m.bangStart <= m.bangEnd <= |s|
  {
    s[m.bangStart..m.bangEnd]
  }

  function RemWords(s: string, m: RemMatch): string
    requires m.wordsStart <= m.end <= |s|
  {
    s[m.wordsStart..m.end]
  }

  /** The second `\s*` ending at `k`, backing off towards `j`, followed by
      `[\w ]+`: the start and end of the words. */
  function TryWords(s: string, j: nat, k: nat): Option<(nat, nat)>
    requires j <= k <= |s|
    decreases k
  {
    if k < |s| && IsWordOrSpace(s[k]) then Some((k, WordSpaceEnd(s, k)))
    else if k == j then None
    else TryWords(s, j, k - 1)
  }

  /** `!?` at `a` (taken first), then the rest: the end of the `!`, and
      the start and end of the words. */
  function TryBang(s: string, a: nat): Option<(nat, nat, nat)>
    requires a <= |s|
  {
    var withBang := if a < |s| && s[a] == '!' then TryWords(s, a + 1, SpaceEnd(s, a + 1)) else None;
    if withBang.Some? then Some((a + 1, withBang.value.0, withBang.value.1))
    else match TryWords(s, a, SpaceEnd(s, a))
      case Some((ws, e)) => Some((a, ws, e))
      case None => None
  }

  /** The first `\s*` from `i` ending at `k`, backing off towards `i`. */
  function TryLead(s: string, i: nat, k: nat): (r: Option<RemMatch>)
    requires i <= k <= |s|
    ensures r.Some? ==> r.value.start == i
    decreases k
  {
    match TryBang(s, k)
    case Some((be, ws, e)) => Some(RemMatch(i, k, be, ws, e))
    case None => if k == i then None else TryLead(s, i, k - 1)
  }

  /** The remainder pattern anchored at `i`. */
  function RemAt(s: string, i: nat): Option<RemMatch>
    requires i <= |s|
  {
    TryLead(s, i, SpaceEnd(s, i))
  }

  lemma {:induction false} TryWordsSound(s: string, j: nat, k: nat)
    requires j <= |s| && j <= k <= SpaceEnd(s, j)
    ensures TryWords(s, j, k).Some? ==>
      var (ws, e) := TryWords(s, j, k).value;
      j <= ws <= k && ws < e <= |s|
      && (forall x :: j <= x < ws ==> IsRegexSpace(s[x]))
      && (forall x :: ws <= x < e ==> IsWordOrSpace(s[x]))
    decreases k
  {
    if !(k < |s| && IsWordOrSpace(s[k])) && k != j {
      TryWordsSound(s, j, k - 1);
    }
  }

  /** `TryWords` finds the words whenever some choice of the second `\s*`
      no longer than `k` is followed by words, and its choice is tried no
      later. */
  lemma {:induction false} TryWordsFirst(s: string, j: nat, k: nat, ws: nat, e: nat)
    requires j <= ws <= k <= |s| && ws < e <= |s|
    requires forall x :: ws <= x < e ==> IsWordOrSpace(s[x])
    ensures TryWords(s, j, k).Some?
    ensures var (ws', e') := TryWords(s, j, k).value; ws' > ws || (ws' == ws && e' >= e)
    decreases k
  {
    if k < |s| && IsWordOrSpace(s[k]) {
      if k == ws {
        assert WordSpaceEnd(s, k) >= e by {
          WordSpaceBound(s, k, e);
        }
      }
    } else {
      TryWordsFirst(s, j, k - 1, ws, e);
    }
  }

  /** A run of `[\w ]` from `i` ends no earlier than any all-`[\w ]` stretch
      that starts at `i`. */
  lemma {:induction false} WordSpaceBound(s: string, i: nat, e: nat)
    requires i <= e <= |s|
    requires forall x :: i <= x < e ==> IsWordOrSpace(s[x])
    ensures WordSpaceEnd(s, i) >= e
    decreases e - i
  {
    if i < e {
      WordSpaceBound(s, i + 1, e);
    }
  }

  /** A run of white space from `i` ends no earlier than any all-space
      stretch that starts at `i`. */
  lemma {:induction false} SpaceBound(s: string, i: nat, e: nat)
    requires i <= e <= |s|
    requires forall x :: i <= x < e ==> IsRegexSpace(s[x])
    ensures SpaceEnd(s, i) >= e
    decreases e - i
  {
    if i < e {
      SpaceBound(s, i + 1, e);
    }
  }

  lemma TryBangSound(s: string, a: nat)
    requires a <= |s| && TryBang(s, a).Some?
    ensures var (be, ws, e) := TryBang(s, a).value;
      IsRemMatch(s, RemMatch(a, a, be, ws, e))
  {
    if a < |s| && s[a] == '!' && TryWords(s, a + 1, SpaceEnd(s, a + 1)).Some? {
      TryWordsSound(s, a + 1, SpaceEnd(s, a + 1));
    } else {
      TryWordsSound(s, a, SpaceEnd(s, a));
    }
  }

  /** `TryBang` succeeds whenever some match has its `!?` at `a`, and its
      choice is tried no later. */
  lemma TryBangFirst(s: string, m': RemMatch)
    requires IsRemMatch(s, m')
    ensures TryBang(s, m'.bangStart).Some?
    ensures var (be, ws, e) := TryBang(s, m'.bangStart).value;
      be > m'.bangEnd || (be == m'.bangEnd && (ws > m'.wordsStart || (ws == m'.wordsStart && e >= m'.end)))
  {
    var a := m'.bangStart;
    SpaceBound(s, m'.bangEnd, m'.wordsStart);
    if m'.bangEnd == a + 1 {
      TryWordsFirst(s, a + 1, SpaceEnd(s, a + 1), m'.wordsStart, m'.end);
    } else {
      assert s[a] != '!' by {
        if a < m'.wordsStart {
          assert IsRegexSpace(s[a]);
        } else {
          assert IsWordOrSpace(s[a]);
        }
      }
      TryWordsFirst(s, a, SpaceEnd(s, a), m'.wordsStart, m'.end);
    }
  }

  lemma {:induction false} TryLeadSound(s: string, i: nat, k: nat)
    requires i <= |s| && i <= k <= SpaceEnd(s, i)
    ensures TryLead(s, i, k).Some? ==>
      TryLead(s, i, k).value.start == i && IsRemMatch(s, TryLead(s, i, k).value)
    decreases k
  {
    if TryBang(s, k).Some? {
      TryBangSound(s, k);
    } else if k != i {
      TryLeadSound(s, i, k - 1);
    }
  }

  lemma {:induction false} TryLeadFirst(s: string, i: nat, k: nat, m': RemMatch)
    requires i <= k <= |s| && IsRemMatch(s, m') && m'.start == i && m'.bangStart <= k
    ensures TryLead(s, i, k).Some?
    ensures TryLead(s, i, k).value == m' || RemTriedBefore(TryLead(s, i, k).value, m')
    decreases k
  {
    if m'.bangStart == k {
      TryBangFirst(s, m');
    } else if TryBang(s, k).None? {
      TryLeadFirst(s, i, k - 1, m');
    }
  }

  /** What `RemAt` returns is a match of the pattern at `i`. */
  lemma RemAtSound(s: string, i: nat)
    requires i <= |s| && RemAt(s, i).Some?
    ensures RemAt(s, i).value.start == i && IsRemMatch(s, RemAt(s, i).value)
  {
    TryLeadSound(s, i, SpaceEnd(s, i));
  }

  /** Every match of the pattern at `i` is found by `RemAt`, which returns
      the one a backtracking engine tries first. */
  lemma RemAtFirst(s: string, i: nat, m': RemMatch)
    requires i <= |s| && IsRemMatch(s, m') && m'.start == i
    ensures RemAt(s, i).Some?
    ensures RemAt(s, i).value == m' || RemTriedBefore(RemAt(s, i).value, m')
  {
    SpaceBound(s, i, m'.bangStart);
    TryLeadFirst(s, i, SpaceEnd(s, i), m');
  }

  /** `FindStringSubmatch` of the remainder pattern from position `k` on. */
  function FindRemFrom(s: string, k: nat): (r: Option<RemMatch>)
    requires k <= |s|
    ensures r.Some? ==> k <= r.value.start <= |s| && RemAt(s, r.value.start) == r
    ensures r.Some? ==> forall j :: k <= j < r.value.start ==> RemAt(s, j).None?
    ensures r.None? ==> forall j :: k <= j <= |s| ==> RemAt(s, j).None?
  {
    var at := (j: nat) => j <= |s| && RemAt(s, j).Some?;
    assert forall j: nat :: j <= |s| ==> (at(j) <==> RemAt(s, j).Some?);
    match Leftmost(at, k, |s|)
    case Some(i) => RemAt(s, i)
    case None => None
  }

  function FindRem(s: string): (r: Option<RemMatch>)
    ensures r.Some? ==> RemInside(s, r.value)
  {
    var r := FindRemFrom(s, 0);
    if r.Some? then RemAtSound(s, r.value.start); r else r
  }

  /** `FindRem` returns a match of the pattern; none starts further left;
      it is the first tried at its start; and there is no match at all
      when it returns `None`. */
  lemma FindRemLeftmost(s: string)
    ensures FindRem(s).Some? ==> IsRemMatch(s, FindRem(s).value)
    ensures FindRem(s).Some? ==> forall m' :: IsRemMatch(s, m') ==>
      FindRem(s).value.start < m'.start
      || (FindRem(s).value.start == m'.start
          && (FindRem(s).value == m' || RemTriedBefore(FindRem(s).value, m')))
    ensures FindRem(s).None? <==> forall m' :: !IsRemMatch(s, m')
  {
    if FindRem(s).Some? {
      RemAtSound(s, FindRem(s).value.start);
    }
    forall m' | IsRemMatch(s, m')
      ensures FindRem(s).Some?
      ensures FindRem(s).value.start <= m'.start
      ensures FindRem(s).value.start == m'.start ==>
        FindRem(s).value == m' || RemTriedBefore(FindRem(s).value, m')
    {
      RemAtFirst(s, m'.start, m');
    }
  }
}
