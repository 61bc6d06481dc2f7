/** The field resolver and expression compiler of db/search.go
    (`tExpression.buildSQL`, `tExpression.allSQL`). */
module SqlBuild {
  import opened Text
  import opened Escaping

  /** A value returned by the external field-metadata lookup
      (`MetaFieldValue`): the lookup yields an arbitrary Go value, of which
      only booleans and strings matter here. */
  datatype MetaValue = MetaBool(flag: bool) | MetaText(text: string) | MetaOther

  /** The field metadata, keyed by (field key, property name); a missing key
      is a lookup that fails with an error. */
  type Meta = map<(string, string), MetaValue>

  /** One atomic search clause (`tExpression`) as a value. */
  datatype Expr = Expr(entity: string, matcher: string, not: bool, op: string, term: string)

  /** The table a field resolves to: one of the built-in link tables, the
      title column of `books`, or a user-defined (custom) column table. */
  datatype Table = Authors | Comment | Format | Languages | Publisher | Series | Tags | Title
    | Custom(name: string)

  /** The opening of a sub-select over a table `table` (alias `a`) that
      holds the compared column `column` directly. */
  function SelectHead(table: string, a: string, column: string): string {
    "(b.id IN (SELECT " + a + ".book FROM " + table + " " + a + " WHERE (" + a + "." + column
  }

  /** The opening of a sub-select over the link table `link` (alias `a`),
      joined on its column `key` with the value table `table` (alias `v`),
      comparing the value column `column`. */
  function JoinHead(link: string, a: string, table: string, v: string, key: string, column: string)
    : string
  {
    "(b.id IN (SELECT " + a + ".book FROM " + link + " " + a + " JOIN " + table + " " + v
      + " ON(" + a + "." + key + " = " + v + ".id) WHERE (" + v + "." + column
  }

  /** The SQL text that opens the group of `t`, up to the compared column. */
  function Head(t: Table): string {
    match t
    case Authors => JoinHead("books_authors_link", "ba", "authors", "a", "author", "name")
    case Comment => SelectHead("comments", "c", "text")
    case Format => SelectHead("data", "d", "format")
    case Languages => JoinHead("books_languages_link", "bl", "languages", "l", "lang_code", "lang_code")
    case Publisher => JoinHead("books_publishers_link", "bp", "publishers", "p", "publisher", "name")
    case Series => JoinHead("books_series_link", "bs", "series", "s", "series", "name")
    case Tags => JoinHead("books_tags_link", "bt", "tags", "t", "tag", "name")
    case Title => "(b.title"
    case Custom(table) => JoinHead("books_" + table + "_link", "lct", table, "ct", "value", "value")
  }

  /** Number of brackets the group must close: the title compares a column
      of `books` directly, every other table is reached by a sub-select. */
  function Brackets(t: Table): nat {
    if t == Title then 1 else 2
  }

  /** The entity names with a fixed template, singular synonyms included. */
  const BuiltinNames: set<string> := {"authors", "author", "comment", "format", "languages",
    "language", "publisher", "series", "tags", "tag", "title"}

  /** The cases of the `buildSQL` switch that name a built-in table. */
  function BuiltinTable(entity: string): Option<Table> {
    if entity == "authors" || entity == "author" then Some(Authors)
    else if entity == "comment" then Some(Comment)
    else if entity == "format" then Some(Format)
    else if entity == "languages" || entity == "language" then Some(Languages)
    else if entity == "publisher" then Some(Publisher)
    else if entity == "series" then Some(Series)
    else if entity == "tags" || entity == "tag" then Some(Tags)
    else if entity == "title" then Some(Title)
    else None
  }

  /** The switch names exactly the built-in entities, never a custom table,
      and only `title` selects the title column. */
  lemma BuiltinTableNames(entity: string)
    ensures BuiltinTable(entity).Some? <==> entity in BuiltinNames
    ensures BuiltinTable(entity).Some? ==> !BuiltinTable(entity).value.Custom?
    ensures BuiltinTable(entity) == Some(Title) <==> entity == "title"
  {
  }

  /** The metadata key of a custom field: lower-cased, with a leading `#`. */
  function FieldKey(entity: string): (key: string)
    requires entity != ""
    ensures key != [] && key[0] == '#'
    ensures |key| == |entity| || |key| == |entity| + 1
    ensures entity[0] == '#' ==> key == ToLower(entity)
    ensures entity[0] != '#' ==> key == "#" + ToLower(entity)
  {
    var field := ToLower(entity);
    if '#' != entity[0] then "#" + field else field
  }

  /** The lookup of `property` succeeded and gave the boolean `true`. */
  predicate FlagSet(meta: Meta, key: string, property: string) {
    (key, property) in meta && meta[(key, property)] == MetaBool(true)
  }

  /** A custom field is searchable when it is marked both custom and a
      category and has a string-valued table. */
  predicate SearchableCustom(meta: Meta, key: string) {
    FlagSet(meta, key, "is_custom") && FlagSet(meta, key, "is_category")
    && (key, "table") in meta && meta[(key, "table")].MetaText?
  }

  /** The switch of `buildSQL` over the entity name. */
  function Resolve(entity: string, meta: Meta): Option<Table> {
    match BuiltinTable(entity)
    case Some(t) => Some(t)
    case None =>
      if entity == "" then None
      else
        var field := FieldKey(entity);
        if !FlagSet(meta, field, "is_custom") then None
        else if !FlagSet(meta, field, "is_category") then None
        else if (field, "table") !in meta then None
        else match meta[(field, "table")]
          case MetaText(table) => Some(Custom(table))
          case _ => None
  }

  /** A built-in name picks its table without consulting the metadata; the
      empty name resolves to nothing; any other name is a custom field,
      searchable exactly when `SearchableCustom` holds of its key, and then
      its table is the one the metadata names. */
  lemma ResolveCases(entity: string, meta: Meta)
    ensures entity == "" ==> Resolve(entity, meta).None?
    ensures entity in BuiltinNames ==> Resolve(entity, meta) == BuiltinTable(entity)
    ensures entity != "" && entity !in BuiltinNames ==>
      (Resolve(entity, meta).Some? <==> SearchableCustom(meta, FieldKey(entity)))
    ensures entity != "" && entity !in BuiltinNames && Resolve(entity, meta).Some? ==>
      Resolve(entity, meta) == Some(Custom(meta[(FieldKey(entity), "table")].text))
  {
    BuiltinTableNames(entity);
  }

  /** The text between the quotes: the term itself for an exact match,
      wrapped in `%` wildcards otherwise. */
  function Pattern(matcher: string, text: string): string {
    if matcher == "=" then text else "%" + text + "%"
  }

  /** The comparison of the column with the (already escaped) term, built
      piece by piece as `buildSQL` appends it. */
  function Comparison(matcher: string, not: bool, escaped: string): string {
    if "=" == matcher then
      (if not then " != \"" else " = \"") + escaped + "\")"
    else
      (if not then " NOT" else "") + " LIKE \"%" + escaped + "%\")"
  }

  /** The four comparisons: `=` compares exactly (`!=` when negated), any
      other matcher looks for a substring (`NOT LIKE` when negated). */
  lemma ComparisonCases(matcher: string, not: bool, escaped: string)
    ensures matcher == "=" && !not ==> Comparison(matcher, not, escaped) == " = \"" + escaped + "\")"
    ensures matcher == "=" && not ==> Comparison(matcher, not, escaped) == " != \"" + escaped + "\")"
    ensures matcher != "=" && !not ==>
      Comparison(matcher, not, escaped) == " LIKE \"%" + escaped + "%\")"
    ensures matcher != "=" && not ==>
      Comparison(matcher, not, escaped) == " NOT LIKE \"%" + escaped + "%\")"
  {
    if matcher != "=" && not {
      assert " NOT" + " LIKE \"%" == " NOT LIKE \"%";
    }
  }

  /** Between the opening and the closing of the comparison stands the
      escaped term, wrapped in `%` wildcards unless the match is exact; the
      comparison ends with the closing quote and bracket. */
  lemma ComparisonQuotes(matcher: string, not: bool, escaped: string)
    ensures var c, p := Comparison(matcher, not, escaped), Pattern(matcher, escaped);
      |c| > |p| + 2 && c[|c| - |p| - 2..] == p + "\")"
  {
    var p := Pattern(matcher, escaped);
    if "=" == matcher {
      Framed(if not then " != \"" else " = \"", p, "\")");
    } else {
      var o := (if not then " NOT" else "") + " LIKE \"";
      LikeSplits(o, if not then " NOT" else "", escaped);
      Framed(o, p, "\")");
    }
  }

  /** The substring comparison, regrouped around its `%` pattern. */
  lemma LikeSplits(o: string, neg: string, escaped: string)
    requires o == neg + " LIKE \""
    ensures neg + " LIKE \"%" + escaped + "%\")" == o + ("%" + escaped + "%") + "\")"
  {
    assert " LIKE \"%" == " LIKE \"" + "%";
    assert "%\")" == "%" + "\")";
  }

  /** The brackets left open by the template of `t`. */
  function Closing(t: Table): string {
    if 1 < Brackets(t) then "))" else ""
  }

  /** The group of an expression whose entity resolved to `t`. */
  function Compile(t: Table, matcher: string, not: bool, term: string, op: string): string {
    var closed := Head(t) + Comparison(matcher, not, Escaped(term)) + Closing(t);
    if 0 < |op| then closed + op else closed
  }

  /** `buildSQL`. */
  function BuildSql(e: Expr, meta: Meta): string {
    match Resolve(e.entity, meta)
    case None => ""
    case Some(t) => Compile(t, e.matcher, e.not, e.term, e.op)
  }

  /** A group is the template of its table, the comparison against the
      term escaped once, the brackets the template leaves open (two for a
      sub-select, none for the title), and the connector appended verbatim
      without a space: it ends with the connector, and with a closing
      bracket when there is none. */
  lemma CompileShape(t: Table, matcher: string, not: bool, term: string, op: string)
    ensures var r, h, m := Compile(t, matcher, not, term, op), Head(t),
        Comparison(matcher, not, Escaped(term)) + Closing(t);
      r == h + m + op && |r| > |h| + |op|
      && r[..|h|] == h && r[|h|..|h| + |m|] == m && r[|r| - |op|..] == op
      && (op == "" ==> r[|r| - 1] == ')')
  {
    var m := Comparison(matcher, not, Escaped(term)) + Closing(t);
    CompileParts(t, matcher, not, term, op);
    ClosedEnds(t, matcher, not, Escaped(term));
    Framed(Head(t), m, op);
  }

  /** The connector is appended only when it is non-empty, which is the
      same as appending it always. */
  lemma CompileParts(t: Table, matcher: string, not: bool, term: string, op: string)
    ensures Compile(t, matcher, not, term, op)
      == Head(t) + (Comparison(matcher, not, Escaped(term)) + Closing(t)) + op
  {
  }

  /** The comparison with its closing brackets ends with a bracket. */
  lemma ClosedEnds(t: Table, matcher: string, not: bool, escaped: string)
    ensures var m := Comparison(matcher, not, escaped) + Closing(t);
      |m| > 0 && m[|m| - 1] == ')'
  {
    ComparisonQuotes(matcher, not, escaped);
  }

  /** `buildSQL` returns the empty string exactly when the entity does not
      resolve. */
  lemma BuildSqlEmpty(e: Expr, meta: Meta)
    ensures BuildSql(e, meta) == "" <==> Resolve(e.entity, meta).None?
  {
    if Resolve(e.entity, meta).Some? {
      CompileShape(Resolve(e.entity, meta).value, e.matcher, e.not, e.term, e.op);
    }
  }

  /** The quoted literal carries the term escaped exactly once: reading it
      back as a literal recovers the term (with its wildcards). */
  lemma LiteralRecoversTerm(matcher: string, term: string)
    ensures Unescape(Pattern(matcher, Escaped(term))) == Some(Pattern(matcher, term))
  {
    if matcher == "=" {
      UnescapeEscaped(term);
    } else {
      EscapedConcat("%" + term, "%");
      EscapedConcat("%", term);
      assert Escaped("%") == "%" by {
        assert "%"[..0] == [];
      }
      assert Escaped(Pattern(matcher, term)) == Pattern(matcher, Escaped(term));
      UnescapeEscaped(Pattern(matcher, term));
    }
  }

  /** The compiled text depends on the entity only through its table. */
  lemma SameTableSameSql(e1: Expr, e2: Expr, meta: Meta)
    requires e1.(entity := e2.entity) == e2
    requires Resolve(e1.entity, meta) == Resolve(e2.entity, meta)
    ensures BuildSql(e1, meta) == BuildSql(e2, meta)
  {
  }

  /** author/authors, language/languages and tag/tags are synonyms. */
  lemma Synonyms(e: Expr, meta: Meta)
    ensures BuildSql(e.(entity := "author"), meta) == BuildSql(e.(entity := "authors"), meta)
    ensures BuildSql(e.(entity := "language"), meta) == BuildSql(e.(entity := "languages"), meta)
    ensures BuildSql(e.(entity := "tag"), meta) == BuildSql(e.(entity := "tags"), meta)
  {
    assert BuiltinTable("author") == BuiltinTable("authors") == Some(Authors);
    assert BuiltinTable("language") == BuiltinTable("languages") == Some(Languages);
    assert BuiltinTable("tag") == BuiltinTable("tags") == Some(Tags);
    SameTableSameSql(e.(entity := "author"), e.(entity := "authors"), meta);
    SameTableSameSql(e.(entity := "language"), e.(entity := "languages"), meta);
    SameTableSameSql(e.(entity := "tag"), e.(entity := "tags"), meta);
  }

  /** Built-in fields never consult the metadata and always compile. */
  lemma BuiltinIgnoresMeta(e: Expr, meta1: Meta, meta2: Meta)
    requires e.entity in BuiltinNames
    ensures BuildSql(e, meta1) == BuildSql(e, meta2) != ""
  {
    ResolveCases(e.entity, meta1);
    ResolveCases(e.entity, meta2);
    BuiltinTableNames(e.entity);
    BuildSqlEmpty(e, meta1);
  }

  // -----------------------------------------------------------------------
  // `allSQL`: the implicit search across all bibliographic fields

  /** Number of fields `allSQL` searches. */
  const FieldCount := 8

  /** The fields `allSQL` searches, in order. */
  function FieldName(i: nat): string
    requires i < FieldCount
  {
    match i
    case 0 => "authors"
    case 1 => "comment"
    case 2 => "format"
    case 3 => "language"
    case 4 => "publisher"
    case 5 => "series"
    case 6 => "tags"
    case _ => "title"
  }

  /** The table of field number `i`. */
  function FieldTable(i: nat): Table
    requires i < FieldCount
  {
    match i
    case 0 => Authors
    case 1 => Comment
    case 2 => Format
    case 3 => Languages
    case 4 => Publisher
    case 5 => Series
    case 6 => Tags
    case _ => Title
  }

  /** The connector after field number `i`: `OR` after every field but the
      title, which is last. */
  function Connector(i: nat): string {
    if i < FieldCount - 1 then "OR" else ""
  }

  /** The expression `allSQL` compiles for field number `i`: substring match
      with the caller's negation and term. */
  function Group(i: nat, term: string, not: bool): Expr
    requires i < FieldCount
  {
    Expr(FieldName(i), "~", not, Connector(i), term)
  }

  /** The group of field number `i`, as its table determines it. */
  function GroupSql(i: nat, term: string, not: bool): string
    requires i < FieldCount
  {
    Compile(FieldTable(i), "~", not, term, Connector(i))
  }

  /** Each field `allSQL` names resolves to its built-in table whatever the
      metadata. */
  lemma FieldResolves(i: nat, meta: Meta)
    requires i < FieldCount
    ensures Resolve(FieldName(i), meta) == Some(FieldTable(i))
  {
  }

  /** Hence the group compiled for field `i` is `GroupSql(i, ..)`. */
  lemma GroupCompiles(i: nat, term: string, not: bool, meta: Meta)
    requires i < FieldCount
    ensures BuildSql(Group(i, term, not), meta) == GroupSql(i, term, not)
  {
    FieldResolves(i, meta);
  }

  /** The specification of `allSQL`: the eight groups written one after the
      other, in field order. It takes no metadata: the implicit search never
      depends on it. */
  function AllFieldsChain(term: string, not: bool): string {
    GroupSql(0, term, not) + GroupSql(1, term, not) + GroupSql(2, term, not)
    + GroupSql(3, term, not) + GroupSql(4, term, not) + GroupSql(5, term, not)
    + GroupSql(6, term, not) + GroupSql(7, term, not)
  }

  /** Eight texts written one after the other are at least as long as the
      first. */
  lemma EightNoShorter(p0: string, p1: string, p2: string, p3: string, p4: string,
    p5: string, p6: string, p7: string)
    ensures |p0| <= |p0 + p1 + p2 + p3 + p4 + p5 + p6 + p7|
  {
  }

  /** Eight texts written one after the other start as the first does. */
  lemma EightStartLikeFirst(p0: string, p1: string, p2: string, p3: string, p4: string,
    p5: string, p6: string, p7: string, h: string)
    requires |h| <= |p0| && p0[..|h|] == h
    ensures (p0 + p1 + p2 + p3 + p4 + p5 + p6 + p7)[..|h|] == h
  {
    PrefixOfConcat(p0, p1, h);
    PrefixOfConcat(p0 + p1, p2, h);
    PrefixOfConcat(p0 + p1 + p2, p3, h);
    PrefixOfConcat(p0 + p1 + p2 + p3, p4, h);
    PrefixOfConcat(p0 + p1 + p2 + p3 + p4, p5, h);
    PrefixOfConcat(p0 + p1 + p2 + p3 + p4 + p5, p6, h);
    PrefixOfConcat(p0 + p1 + p2 + p3 + p4 + p5 + p6, p7, h);
  }

  /** The first group opens with the authors template. */
  lemma AuthorsGroupStarts(term: string, not: bool)
    ensures var g, h := GroupSql(0, term, not), Head(Authors); |g| > |h| && g[..|h|] == h
  {
    CompileShape(Authors, "~", not, term, "OR");
  }

  /** The title group, which is last, closes its bracket and has no
      connector. */
  lemma TitleGroupEnds(term: string, not: bool)
    ensures var g := GroupSql(7, term, not); |g| > 0 && g[|g| - 1] == ')'
  {
    CompileShape(Title, "~", not, term, "");
  }

  /** The chain is longer than the authors template. */
  lemma AllFieldsChainLonger(term: string, not: bool)
    ensures |Head(Authors)| < |AllFieldsChain(term, not)|
  {
    AuthorsGroupStarts(term, not);
    EightNoShorter(GroupSql(0, term, not), GroupSql(1, term, not), GroupSql(2, term, not),
      GroupSql(3, term, not), GroupSql(4, term, not), GroupSql(5, term, not),
      GroupSql(6, term, not), GroupSql(7, term, not));
  }

  /** The chain opens with the authors template. */
  lemma AllFieldsChainOpens(term: string, not: bool)
    ensures AllFieldsChain(term, not)[..|Head(Authors)|] == Head(Authors)
  {
    AuthorsGroupStarts(term, not);
    EightStartLikeFirst(GroupSql(0, term, not), GroupSql(1, term, not), GroupSql(2, term, not),
      GroupSql(3, term, not), GroupSql(4, term, not), GroupSql(5, term, not),
      GroupSql(6, term, not), GroupSql(7, term, not), Head(Authors));
  }

  /** The chain closes with the bracket of the title group. */
  lemma AllFieldsChainCloses(term: string, not: bool)
    ensures var c := AllFieldsChain(term, not); c[|c| - 1] == ')'
  {
    TitleGroupEnds(term, not);
    LastOfConcat(GroupSql(0, term, not) + GroupSql(1, term, not) + GroupSql(2, term, not)
      + GroupSql(3, term, not) + GroupSql(4, term, not) + GroupSql(5, term, not)
      + GroupSql(6, term, not), GroupSql(7, term, not));
  }

  /** The chain starts with the authors group and ends with the title
      group, which has no connector: there is no dangling `OR`. */
  lemma AllFieldsChainEnds(term: string, not: bool)
    ensures var c, h := AllFieldsChain(term, not), Head(Authors);
      |c| > |h| && c[..|h|] == h && c[|c| - 1] == ')'
  {
    AllFieldsChainLonger(term, not);
    AllFieldsChainOpens(term, not);
    AllFieldsChainCloses(term, not);
  }

  /** Every group but the title's ends with `OR`. */
  lemma GroupsJoinedByOr(i: nat, term: string, not: bool)
    requires i < FieldCount - 1
    ensures var r := GroupSql(i, term, not);
      |r| > 2 && r[|r| - 2..] == "OR"
  {
    CompileShape(FieldTable(i), "~", not, term, "OR");
  }

  /** A `tExpression` object: `allSQL` updates its fields in place between
      successive compilations. */
  class Expression {
    var entity: string
    var matcher: string
    var not: bool
    var op: string
    var term: string

    function Value(): Expr
      reads this
    {
      Expr(entity, matcher, not, op, term)
    }

    constructor (entity: string, matcher: string, not: bool, op: string, term: string)
      ensures Value() == Expr(entity, matcher, not, op, term)
    {
      this.entity := entity;
      this.matcher := matcher;
      this.not := not;
      this.op := op;
      this.term := term;
    }

    /** `allSQL`: compiles the term against every built-in field in turn,
        leaving the expression set to the last (title) group. */
    method AllSQL(meta: Meta) returns (rWhere: string)
      modifies this
      ensures rWhere == AllFieldsChain(old(term), old(not))
      ensures Value() == Group(7, old(term), old(not))
    {
      ghost var t, n := term, not;
      matcher, op := "~", "OR";

      entity := "authors";
      assert Value() == Group(0, t, n);
      GroupCompiles(0, t, n, meta);
      rWhere := BuildSql(Value(), meta);

      entity := "comment";
      assert Value() == Group(1, t, n);
      GroupCompiles(1, t, n, meta);
      rWhere := rWhere + BuildSql(Value(), meta);

      entity := "format";
      assert Value() == Group(2, t, n);
      GroupCompiles(2, t, n, meta);
      rWhere := rWhere + BuildSql(Value(), meta);

      entity := "language";
      assert Value() == Group(3, t, n);
      GroupCompiles(3, t, n, meta);
      rWhere := rWhere + BuildSql(Value(), meta);

      entity := "publisher";
      assert Value() == Group(4, t, n);
      GroupCompiles(4, t, n, meta);
      rWhere := rWhere + BuildSql(Value(), meta);

      entity := "series";
      assert Value() == Group(5, t, n);
      GroupCompiles(5, t, n, meta);
      rWhere := rWhere + BuildSql(Value(), meta);

      entity := "tags";
      assert Value() == Group(6, t, n);
      GroupCompiles(6, t, n, meta);
      rWhere := rWhere + BuildSql(Value(), meta);

      entity, op := "title", "";
      assert Value() == Group(7, t, n);
      GroupCompiles(7, t, n, meta);
      rWhere := rWhere + BuildSql(Value(), meta);

    }
  }
}
