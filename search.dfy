/** The search compiler of db/search.go (`TSearch`): it rewrites the user's
    search text into the body of an SQL `WHERE` clause. Structured terms
    `field:"=value"` are compiled one at a time, leftmost first, in the
    working text; whatever free text follows the last one is matched
    against every built-in field. */
module Search {
  import opened Text
  import opened Escaping
  import opened SqlBuild
  import opened Patterns

  // -----------------------------------------------------------------------
  // One structured term

  /** `soReplacementLookup`: what stands in for a term whose field does not
      resolve, keyed by the connector of the term before it. */
  const ReplacementLookup: map<string, string> := map["AND" := "(1=1)", "OR" := "(1=0)", "" := ""]

  /** A Go map lookup: a missing key reads as the empty string. */
  function Placeholder(op: string): string {
    if op in ReplacementLookup then ReplacementLookup[op] else ""
  }

  /** After `AND` the placeholder is the always-true `(1=1)`, after `OR` the
      always-false `(1=0)`, and after no connector (the first term) it is
      empty, as it is for any other key. */
  lemma PlaceholderTable(op: string)
    ensures op == "AND" ==> Placeholder(op) == "(1=1)"
    ensures op == "OR" ==> Placeholder(op) == "(1=0)"
    ensures op != "AND" && op != "OR" ==> Placeholder(op) == ""
  {
  }

  /** The expression the loop of `p1` builds from a match. */
  function TermExpr(w: string, m: ExprMatch): Expr
    requires Inside(w, m)
  {
    var matcher := Matcher(w, m);
    Expr(ToLower(Entity(w, m)), if matcher == "" then "=" else matcher, Bang(w, m) == "!",
      ToUpper(Conn(w, m)), Term(w, m))
  }

  /** The expression of a match is normalised: the field name is non-empty
      and lower-case, the matcher defaults to exact `=` and is otherwise
      `~`, negation is the leading `!`, the connector is upper-cased to
      one of the keys of the placeholder table (empty when the match has
      none), and the term holds no double quote. */
  lemma TermExprNormalised(w: string, m: ExprMatch)
    requires IsExprMatch(w, m)
    ensures var e := TermExpr(w, m);
      e.entity != [] && (forall j :: 0 <= j < |e.entity| ==> !('A' <= e.entity[j] <= 'Z'))
      && (e.matcher == "=" || e.matcher == "~")
      && (e.not <==> m.bangEnd == m.start + 1)
      && e.op in ReplacementLookup
      && (e.op == "" <==> m.end == m.termEnd + 1)
      && '"' !in e.term
  {
    var e := TermExpr(w, m);
    var matcher := Matcher(w, m);
    if m.termStart == m.entityEnd + 3 {
      assert matcher == [w[m.entityEnd + 2]];
    } else {
      assert matcher == [];
    }
    assert e.not <==> m.bangEnd == m.start + 1 by {
      if m.bangEnd == m.start + 1 {
        assert Bang(w, m) == [w[m.start]];
      }
    }
    if m.end != m.termEnd + 1 {
      ConnectorUpper(Conn(w, m));
    }
    assert '"' !in e.term by {
      forall j | 0 <= j < |e.term| ensures e.term[j] != '"' {
        assert e.term[j] == w[m.termStart + j];
      }
    }
  }

  /** How one term is compiled: `buildSQL` against the given metadata. The
      rewriting loop is stated for any such compiler, so that its
      properties do not depend on the SQL templates. */
  function SqlOf(meta: Meta): Expr -> string {
    e => BuildSql(e, meta)
  }

  /** How the free text is compiled: `allSQL`, the chain over every
      built-in field. Like `SqlOf`, it is passed to the remainder step as a
      parameter. */
  function AllOf(): (string, bool) -> string {
    (words: string, not: bool) => AllFieldsChain(words, not)
  }

  /** The text that replaces a match: the compiled term, or the placeholder
      chosen by the previous connector when compiling gives nothing. */
  function Replacement(e: Expr, prevOp: string, sql: Expr -> string): string {
    if sql(e) == "" then Placeholder(prevOp) else sql(e)
  }

  /** With `buildSQL`, the replacement is the compiled group of the table
      the field resolves to, and the placeholder exactly when the field does
      not resolve. */
  lemma ReplacementCases(e: Expr, prevOp: string, meta: Meta)
    ensures Resolve(e.entity, meta).None? ==> Replacement(e, prevOp, SqlOf(meta)) == Placeholder(prevOp)
    ensures Resolve(e.entity, meta).Some? ==>
      Replacement(e, prevOp, SqlOf(meta))
        == Compile(Resolve(e.entity, meta).value, e.matcher, e.not, e.term, e.op)
      && Replacement(e, prevOp, SqlOf(meta)) != ""
  {
    BuildSqlEmpty(e, meta);
  }

  // -----------------------------------------------------------------------
  // The rewriting loop of `p1`

  /** The variables of the loop: the working text `w`, the cursor `p` just
      past the last replacement, and the connector `op` of the last term.
      (`p` is an `int` in the source; it is never negative.) */
  datatype State = State(w: string, p: nat, op: string)

  /** One pass of the loop over the match `m`: the matched text is replaced
      at its first occurrence, the cursor is moved past the first occurrence
      of the replacement, and the term's connector is remembered. */
  function Step(st: State, m: ExprMatch, sql: Expr -> string): (r: State)
    requires Inside(st.w, m)
  {
    var e := TermExpr(st.w, m);
    var s := Replacement(e, st.op, sql);
    MatchOccurs(st.w, m);
    var w' := ReplaceFirst(st.w, Whole(st.w, m), s);
    ReplacedTextFound(st.w, Whole(st.w, m), s);
    State(w', IndexOf(w', s) + |s|, e.op)
  }

  /** The matched text occurs in the working text, no later than where it
      was matched. */
  lemma MatchOccurs(w: string, m: ExprMatch)
    requires Inside(w, m)
    ensures 0 <= IndexOf(w, Whole(w, m)) <= m.start
  {
    assert OccursAt(w, Whole(w, m), m.start);
  }

  /** Each match is replaced exactly once, at the first occurrence of its
      text, which may lie before the match itself; the rest of the text is
      kept on both sides. */
  lemma StepReplacesFirstOccurrence(st: State, m: ExprMatch, sql: Expr -> string)
    requires Inside(st.w, m)
    ensures var k, t, s := IndexOf(st.w, Whole(st.w, m)), Whole(st.w, m),
        Replacement(TermExpr(st.w, m), st.op, sql);
      0 <= k <= m.start && Step(st, m, sql).w == st.w[..k] + s + st.w[k + |t|..]
  {
    MatchOccurs(st.w, m);
    var k, t, s := IndexOf(st.w, Whole(st.w, m)), Whole(st.w, m),
      Replacement(TermExpr(st.w, m), st.op, sql);
    var w' := Step(st, m, sql).w;
    assert w'[k..k + |s|] == s;
    assert w' == w'[..k] + w'[k..k + |s|] + w'[k + |s|..];
  }

  /** The cursor lands just past the first occurrence of the replacement,
      which is no later than where it was put; an empty replacement (an
      unresolved first term, or an unresolved term after one without a
      connector) sends the cursor back to the start. */
  lemma StepCursor(st: State, m: ExprMatch, sql: Expr -> string)
    requires Inside(st.w, m)
    ensures var s, r := Replacement(TermExpr(st.w, m), st.op, sql), Step(st, m, sql);
      |s| <= r.p <= IndexOf(st.w, Whole(st.w, m)) + |s| && r.p <= |r.w|
      && (s == "" ==> r.p == 0)
  {
    var s := Replacement(TermExpr(st.w, m), st.op, sql);
    MatchOccurs(st.w, m);
    ReplacedTextFound(st.w, Whole(st.w, m), s);
    if s == "" {
      assert OccursAt(Step(st, m, sql).w, s, 0);
    }
  }

  /** A loop that moves its state to the successor `next` gives, at most
      `fuel` times, and stops early when there is none. */
  function Iterate<S>(st: S, fuel: nat, next: S -> Option<S>): S
    decreases fuel
  {
    if fuel == 0 then st
    else match next(st)
      case None => st
      case Some(st') => Iterate(st', fuel - 1, next)
  }

  /** One turn of the loop: with fuel left and a successor, the loop goes
      on from the successor with one unit of fuel fewer. */
  lemma IterateTurn<S>(st: S, st': S, fuel: nat, fuel': nat, next: S -> Option<S>)
    requires fuel == fuel' + 1 && next(st) == Some(st')
    ensures Iterate(st', fuel', next) == Iterate(st, fuel, next)
  {
  }

  /** A loop that has stopped on its own stays stopped: more fuel changes
      nothing. */
  lemma {:induction false} IterateSettles<S>(st: S, f: nat, f': nat, next: S -> Option<S>)
    requires f <= f' && next(Iterate(st, f, next)).None?
    ensures Iterate(st, f', next) == Iterate(st, f, next)
    decreases f
  {
    if f > 0 && next(st).Some? {
      IterateSettles(next(st).value, f - 1, f' - 1, next);
    }
  }

  /** A loop stopped by its fuel takes one more step with one more unit. */
  lemma {:induction false} IterateUnsettled<S>(st: S, f: nat, next: S -> Option<S>)
    requires next(Iterate(st, f, next)).Some?
    ensures Iterate(st, f + 1, next) == next(Iterate(st, f, next)).value
    decreases f
  {
    if f > 0 && next(st).Some? {
      IterateUnsettled(next(st).value, f - 1, next);
    }
  }

  /** One pass of the loop of `p1`: the step on the first match, or none
      when the structured pattern no longer matches. */
  function Next(st: State, sql: Expr -> string): Option<State> {
    match FindExpr(st.w)
    case None => None
    case Some(m) => Some(Step(st, m, sql))
  }

  /** `Next` as the successor function of the loop. */
  function Pass(sql: Expr -> string): State -> Option<State> {
    st => Next(st, sql)
  }

  /** The loop of `p1`, on at most `fuel` matches: it stops when the
      structured pattern no longer matches the working text. */
  function Rewrite(st: State, fuel: nat, sql: Expr -> string): State {
    Iterate(st, fuel, Pass(sql))
  }

  /** On a match, the pass of the loop is the step on the first match. */
  lemma NextSteps(st: State, st': State, sql: Expr -> string)
    requires FindExpr(st.w).Some? && st' == Step(st, FindExpr(st.w).value, sql)
    ensures Next(st, sql) == Some(st')
  {
  }

  /** One turn of the loop: while fuel remains and there is a next state,
      the loop continues from it with one turn fewer. */
  lemma RewriteTurn(st: State, st': State, fuel: nat, fuel': nat, sql: Expr -> string)
    requires fuel == fuel' + 1 && Next(st, sql) == Some(st')
    ensures Rewrite(st', fuel', sql) == Rewrite(st, fuel, sql)
  {
    assert Pass(sql)(st) == Some(st');
    IterateTurn(st, st', fuel, fuel', Pass(sql));
  }

  /** Without fuel, or without a next state, the loop leaves the state as
      it is. */
  lemma RewriteStops(st: State, fuel: nat, sql: Expr -> string)
    requires fuel == 0 || FindExpr(st.w).None?
    ensures Rewrite(st, fuel, sql) == st
  {
  }

  /** Once the pattern no longer matches, more fuel changes nothing: a
      result that leaves no structured term is the one the unbounded loop
      of `p1` stops at. */
  lemma RewriteSettles(st: State, f: nat, f': nat, sql: Expr -> string)
    requires f <= f' && FindExpr(Rewrite(st, f, sql).w).None?
    ensures Rewrite(st, f', sql) == Rewrite(st, f, sql)
  {
    IterateSettles(st, f, f', Pass(sql));
  }

  /** Short of fuel, the loop has taken exactly `fuel` turns and the
      pattern still matches, so the result is not yet the one of `p1`:
      one more unit of fuel takes one more step. */
  lemma RewriteUnsettled(st: State, f: nat, sql: Expr -> string)
    requires FindExpr(Rewrite(st, f, sql).w).Some?
    ensures Rewrite(st, f + 1, sql) == Step(Rewrite(st, f, sql), FindExpr(Rewrite(st, f, sql).w).value, sql)
  {
    IterateUnsettled(st, f, Pass(sql));
  }

  // -----------------------------------------------------------------------
  // The free text after the last structured term

  /** What follows the loop in `p1`: when text remains after the cursor and
      the remainder pattern matches it, the first occurrence of the matched
      text (anywhere in the working text) is replaced by the all-fields
      chain of the captured words, negated by the captured `!`, and
      prefixed with `OR ` when the last structured term had no connector. */
  function Finish(st: State, all: (string, bool) -> string): string {
    if st.p < |st.w| then
      var rest := st.w[st.p..];
      match FindRem(rest)
      case None => st.w
      case Some(r) =>
        var chain := all(RemWords(rest, r), RemBang(rest, r) == "!");
        ReplaceFirst(st.w, RemWhole(rest, r), if st.op == "" then "OR " + chain else chain)
    else st.w
  }

  /** When text remains after the cursor and the remainder pattern matches
      it, the first occurrence of the matched text, which may lie before the
      cursor, is replaced by the all-fields chain of the captured words,
      negated exactly when `!` was captured, and preceded by `OR ` exactly
      when the last structured term had no connector. */
  lemma FinishRemainder(st: State, all: (string, bool) -> string)
    requires st.p < |st.w| && FindRem(st.w[st.p..]).Some?
    ensures var rest := st.w[st.p..];
      var r := FindRem(rest).value;
      var chain := all(RemWords(rest, r), RemBang(rest, r) == "!");
      var s := if st.op == "" then "OR " + chain else chain;
      var k := IndexOf(st.w, RemWhole(rest, r));
      0 <= k <= st.p + r.start
      && Finish(st, all) == st.w[..k] + s + st.w[k + |RemWhole(rest, r)|..]
  {
    var rest := st.w[st.p..];
    var r := FindRem(rest).value;
    var chain := all(RemWords(rest, r), RemBang(rest, r) == "!");
    var s := if st.op == "" then "OR " + chain else chain;
    FinishReplaces(st, all, rest, r, s);
    RemOccurs(st.w, st.p, r);
    ReplaceFirstSplit(st.w, RemWhole(rest, r), s, st.p + r.start);
  }

  /** `Finish` on a remainder match replaces its text by the chain. */
  lemma FinishReplaces(st: State, all: (string, bool) -> string, rest: string, r: RemMatch, s: string)
    requires st.p < |st.w| && rest == st.w[st.p..] && FindRem(rest) == Some(r)
    requires s == var chain := all(RemWords(rest, r), RemBang(rest, r) == "!");
      if st.op == "" then "OR " + chain else chain
    ensures Finish(st, all) == ReplaceFirst(st.w, RemWhole(rest, r), s)
  {
  }

  /** The text the remainder pattern matched after the cursor occurs in
      the working text where it was matched. */
  lemma RemOccurs(w: string, p: nat, r: RemMatch)
    requires p <= |w| && RemInside(w[p..], r)
    ensures OccursAt(w, RemWhole(w[p..], r), p + r.start)
  {
    assert w[p + r.start..p + r.end] == w[p..][r.start..r.end];
  }

  /** Without text after the cursor, or when the remainder pattern does not
      match it, the working text is the result. */
  lemma FinishNothingLeft(st: State, all: (string, bool) -> string)
    requires st.p >= |st.w| || FindRem(st.w[st.p..]).None?
    ensures Finish(st, all) == st.w
  {
  }

  /** The whole of `p1`: the loop from the trimmed text, then the remainder. */
  function Compiled(raw: string, fuel: nat, meta: Meta): string {
    Finish(Rewrite(State(TrimSpace(raw), 0, ""), fuel, SqlOf(meta)), AllOf())
  }

  /** The loop of `p1` has stopped within `fuel` turns: the structured
      pattern no longer matches the working text it leaves. */
  predicate Settled(raw: string, fuel: nat, meta: Meta) {
    FindExpr(Rewrite(State(TrimSpace(raw), 0, ""), fuel, SqlOf(meta)).w).None?
  }

  /** A settled result is the text `p1` produces: any larger fuel settles
      too and compiles to the same text. */
  lemma CompiledSettles(raw: string, f: nat, f': nat, meta: Meta)
    requires f <= f' && Settled(raw, f, meta)
    ensures Settled(raw, f', meta) && Compiled(raw, f', meta) == Compiled(raw, f, meta)
  {
    RewriteSettles(State(TrimSpace(raw), 0, ""), f, f', SqlOf(meta));
  }

  /** `buildSQL` on a term, with the placeholder of the previous connector
      standing in for an empty result. */
  method CompileTerm(exp: Expr, op: string, meta: Meta) returns (s: string)
    ensures s == Replacement(exp, op, SqlOf(meta))
  {
    s := BuildSql(exp, meta);
    if |s| == 0 {
      s := Placeholder(op);
    }
  }

  /** The body of the loop of `p1` on the match `m`: the term is compiled,
      an empty result gives way to the placeholder of the previous
      connector, the first occurrence of the matched text is replaced, the
      cursor moves past the first occurrence of the replacement, and the
      term's connector is kept. */
  method Turn(w: string, p: nat, op: string, m: ExprMatch, meta: Meta) returns (w': string, p': nat, op': string)
    requires Inside(w, m)
    ensures State(w', p', op') == Step(State(w, p, op), m, SqlOf(meta))
  {
    var exp := TermExpr(w, m);
    var s := CompileTerm(exp, op, meta);
    MatchOccurs(w, m);
    ReplacedTextFound(w, Whole(w, m), s);
    w' := ReplaceFirst(w, Whole(w, m), s);
    p' := IndexOf(w', s) + |s|;
    op' := exp.op;
    assert Step(State(w, p, op), m, SqlOf(meta)).w == w';
  }

  /** The loop of `p1` from the trimmed text `w0`, on at most `fuel`
      matches: the working text, cursor and last connector it leaves, and
      whether the loop stopped because the pattern no longer matches. */
  method RewriteTerms(w0: string, fuel: nat, meta: Meta) returns (w: string, p: nat, op: string, done: bool)
    ensures State(w, p, op) == Rewrite(State(w0, 0, ""), fuel, SqlOf(meta))
    ensures done <==> FindExpr(w).None?
  {
    w, p, op := w0, 0, "";
    var left := fuel;
    var found := FindExpr(w);
    ghost var target := Rewrite(State(w, p, op), fuel, SqlOf(meta));
    while 0 < left && found.Some?
      invariant found == FindExpr(w)
      invariant Rewrite(State(w, p, op), left, SqlOf(meta)) == target
      decreases left
    {
      ghost var before, turns := State(w, p, op), left;
      w, p, op := Turn(w, p, op, found.value, meta);
      left := left - 1;
      NextSteps(before, State(w, p, op), SqlOf(meta));
      RewriteTurn(before, State(w, p, op), turns, left, SqlOf(meta));
      found := FindExpr(w);
    }
    RewriteStops(State(w, p, op), left, SqlOf(meta));
    done := found.None?;
  }

  /** The tail of `p1`: the free text after the cursor, through `allSQL`. */
  method RewriteRemainder(w: string, p: nat, op: string, meta: Meta) returns (w': string)
    ensures w' == Finish(State(w, p, op), AllOf())
  {
    w' := w;
    if p < |w| {
      var rest := w[p..];
      var rm := FindRem(rest);
      if rm.Some? {
        var exp := new Expression("", "", RemBang(rest, rm.value) == "!", "", RemWords(rest, rm.value));
        var chain := exp.AllSQL(meta);
        var s;
        if |op| == 0 {
          s := "OR " + chain;
        } else {
          s := chain;
        }
        w' := ReplaceFirst(w, RemWhole(rest, rm.value), s);
      }
    }
  }

  /** The body of `p1` on the raw text: the loop over the trimmed text,
      then the free text after it; `done` tells whether the loop finished
      within `fuel` turns, and so whether `w` is the text of `p1`. */
  method CompileText(raw: string, fuel: nat, meta: Meta) returns (w: string, done: bool)
    ensures w == Compiled(raw, fuel, meta)
    ensures done <==> Settled(raw, fuel, meta)
  {
    var p, op;
    w, p, op, done := RewriteTerms(TrimSpace(raw), fuel, meta);
    w := RewriteRemainder(w, p, op, meta);
  }

  // -----------------------------------------------------------------------
  // `Parse` and `Clause` on the fields of `TSearch`

  /** The fields of `TSearch`. */
  datatype SearchState = SearchState(raw: string, where: string, next: string)

  /** `Parse`: blank text gives an empty `WHERE` body; text in which the
      structured pattern matches goes through `p1`; any other text is
      matched against every built-in field, and only then is `next` kept. */
  function ParseState(st: SearchState, fuel: nat, meta: Meta): SearchState {
    var t := TrimSpace(st.raw);
    if t == [] then SearchState("", "", "")
    else if FindExpr(t).Some? then SearchState("", Compiled(t, fuel, meta), "")
    else SearchState("", AllFieldsChain(t, false), st.next)
  }

  /** `Clause`'s text for a `WHERE` body. */
  function ClauseText(where: string): string {
    if where == [] then "" else " WHERE " + where
  }

  /** `Clause`: parse only while raw text is pending, then the clause. */
  function ClauseState(st: SearchState, fuel: nat, meta: Meta): (SearchState, string) {
    var st' := if st.raw != [] then ParseState(st, fuel, meta) else st;
    (st', ClauseText(st'.where))
  }

  /** `Parse` needs no more fuel: the text is blank, free text, or its
      loop has settled. */
  predicate ParseSettled(st: SearchState, fuel: nat, meta: Meta) {
    var t := TrimSpace(st.raw);
    t == [] || FindExpr(t).None? || Settled(t, fuel, meta)
  }

  /** A settled parse is the one of `Parse`: more fuel changes nothing. */
  lemma ParseSettles(st: SearchState, f: nat, f': nat, meta: Meta)
    requires f <= f' && ParseSettled(st, f, meta)
    ensures ParseSettled(st, f', meta) && ParseState(st, f', meta) == ParseState(st, f, meta)
  {
    var t := TrimSpace(st.raw);
    if t != [] && FindExpr(t).Some? {
      CompiledSettles(t, f, f', meta);
    }
  }

  /** `Clause` needs no more fuel when nothing is pending or the parse has
      settled, and then more fuel changes neither the state nor the clause. */
  lemma ClauseSettles(st: SearchState, f: nat, f': nat, meta: Meta)
    requires f <= f' && (st.raw == [] || ParseSettled(st, f, meta))
    ensures ClauseState(st, f', meta) == ClauseState(st, f, meta)
  {
    if st.raw != [] {
      ParseSettles(st, f, f', meta);
    }
  }

  /** Every parse leaves no raw text behind. */
  lemma ParseClearsRaw(st: SearchState, fuel: nat, meta: Meta)
    ensures ParseState(st, fuel, meta).raw == ""
  {
  }

  /** Text made of white space only leaves the `WHERE` body empty. */
  lemma ParseBlank(st: SearchState, fuel: nat, meta: Meta)
    requires forall j :: 0 <= j < |st.raw| ==> IsSpace(st.raw[j])
    ensures ParseState(st, fuel, meta) == SearchState("", "", "")
  {
  }

  /** Text in which the structured pattern matches nowhere becomes the
      all-fields chain of the trimmed text, not negated and with no leading
      connector; `next` is kept. */
  lemma ParseFreeText(st: SearchState, fuel: nat, meta: Meta)
    requires TrimSpace(st.raw) != [] && forall m :: !IsExprMatch(TrimSpace(st.raw), m)
    ensures ParseState(st, fuel, meta)
      == SearchState("", AllFieldsChain(TrimSpace(st.raw), false), st.next)
  {
    FindExprLeftmost(TrimSpace(st.raw));
  }

  /** Text in which the structured pattern matches somewhere is compiled by
      `p1`, and `next` is cleared. */
  lemma ParseStructured(st: SearchState, fuel: nat, meta: Meta, m: ExprMatch)
    requires IsExprMatch(TrimSpace(st.raw), m)
    ensures ParseState(st, fuel, meta)
      == SearchState("", Compiled(TrimSpace(st.raw), fuel, meta), "")
  {
    FindExprLeftmost(TrimSpace(st.raw));
  }

  /** The `WHERE` body can be read back from the clause: the clause is empty
      exactly when the body is, and otherwise the body follows ` WHERE `. */
  lemma ClauseRecoversWhere(where: string)
    ensures ClauseText(where) == "" <==> where == ""
    ensures where != "" ==> ClauseText(where)[..7] == " WHERE " && ClauseText(where)[7..] == where
  {
  }

  /** `Clause` parses at most once: asked again, it changes nothing and
      returns the same clause. */
  lemma ClauseOnce(st: SearchState, fuel: nat, meta: Meta)
    ensures var (st1, r1) := ClauseState(st, fuel, meta);
      ClauseState(st1, fuel, meta) == (st1, r1)
  {
    if st.raw != [] {
      ParseClearsRaw(st, fuel, meta);
    }
  }

  // -----------------------------------------------------------------------
  // `TSearch`

  /** `TSearch`: the raw search text, the compiled `WHERE` body, and a
      `next` field that parsing clears. */
  class Search {
    var raw: string
    var where: string
    var next: string

    /** `NewSearch`. */
    constructor (aSearchTerm: string)
      ensures raw == aSearchTerm && where == "" && next == ""
    {
      raw, where, next := aSearchTerm, "", "";
    }

    /** `Where`. */
    function Where(): string
      reads this
    {
      where
    }

    /** The fields as a value. */
    function Value(): SearchState
      reads this
    {
      SearchState(raw, where, next)
    }

    /** The last statement of `p1`: `next` and `raw` are cleared and the
        compiled text becomes the `WHERE` body. */
    method Store(w: string)
      modifies this
      ensures where == w && |raw| == 0 && |next| == 0
    {
      next, raw, where := "", "", w;
    }

    /** `p1`: rewrites the structured terms of the trimmed raw text, at most
        `fuel` of them, then the free text that follows the last one; the
        result becomes the `WHERE` body and `raw` and `next` are cleared.
        `done` tells whether the loop finished within `fuel` turns. */
    method P1(meta: Meta, fuel: nat) returns (done: bool)
      modifies this
      ensures where == Compiled(old(raw), fuel, meta) && |raw| == 0 && |next| == 0
      ensures done <==> Settled(old(raw), fuel, meta)
    {
      var w;
      w, done := CompileText(raw, fuel, meta);
      Store(w);
    }

    /** `Parse`; `done` tells whether `p1`, if it ran, finished within
        `fuel` turns. */
    method Parse(meta: Meta, fuel: nat) returns (done: bool)
      modifies this
      ensures Value() == ParseState(old(Value()), fuel, meta)
      ensures done <==> ParseSettled(old(Value()), fuel, meta)
    {
      ghost var st := Value();
      raw := TrimSpace(raw);
      ghost var t := raw;
      done := true;
      if |raw| == 0 {
        next, where := "", "";
        assert ParseState(st, fuel, meta) == Value();
        return;
      }
      if FindExpr(raw).Some? {
        done := P1(meta, fuel);
        assert ParseState(st, fuel, meta) == SearchState("", Compiled(t, fuel, meta), "");
        return;
      }
      var exp := new Expression("", "", false, "", raw);
      var w := exp.AllSQL(meta);
      where, raw := w, "";
      assert ParseState(st, fuel, meta) == SearchState("", AllFieldsChain(t, false), st.next);
    }

    /** `Clause`: parses while raw text is pending, then returns the
        clause; `done` tells whether the parse, if any, finished within
        `fuel` turns. */
    method Clause(meta: Meta, fuel: nat) returns (rWhere: string, done: bool)
      modifies this
      ensures (Value(), rWhere) == ClauseState(old(Value()), fuel, meta)
      ensures done <==> old(raw) == [] || ParseSettled(old(Value()), fuel, meta)
    {
      done := true;
      if 0 < |raw| {
        done := Parse(meta, fuel);
      }
      if 0 < |where| {
        rWhere := " WHERE " + where;
      } else {
        rWhere := "";
      }
    }
  }
}
