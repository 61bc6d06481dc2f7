# kaliber search compiler and query options, modelled in Dafny

This project models two parts of kaliber's `db` package, a web front end to
a Calibre library.

1. **The search compiler** (`db/search.go`). It turns the text a user types
   into the search box into the body of an SQL `WHERE` clause. It covers:
   - `escapeQuery`, the byte escaper, as a loop over an array;
   - `tExpression.buildSQL`, the entity switch, the metadata lookup for
     custom columns and the comparison choice;
   - `tExpression.allSQL`, the eight-field `OR` chain;
   - `TSearch.p1`, `Parse`, `Clause`, `Where` and `NewSearch`. These use a
     rewrite loop that finds the structured pattern
     `(?i)((!?)(#?\w+):)"([=~]?)([^"]*)"(\s*(AND|OR))?`, replaces the first
     occurrence of each match by its SQL, and then compiles the free text
     left after the cursor.
2. **The query options** (`db/queryoptions.go`). `TQueryOptions` is the
   paging, sort and filter state of the document list. It covers:
   - `clone`, `DecLimit`, `IncLimit` and `Update`, which changes the state
     in place from a submitted form;
   - the `|`-delimited text form written by `String` and read back by
     `Scan`;
   - the HTML option lists `Select*Options`;
   - `NewQueryOptions`.

Files:

| file | module | contents |
|---|---|---|
| `text.dfy` | `Text` | Go string helpers used by the core: `strings.TrimSpace`, `ToLower`/`ToUpper`, `Index`, `Replace(…, 1)`, `Join`, `strconv.Atoi`, decimal digits |
| `escape.dfy` | `Escaping` | `escapeQuery` and its specification, its inverse and its length bounds |
| `sqlbuild.dfy` | `SqlBuild` | `buildSQL` over a metadata map, the `allSQL` chain, `tExpression` as a class |
| `patterns.dfy` | `Patterns` | the two regular expressions, as leftmost-match recognisers proved sound, complete and first-choice |
| `search.dfy` | `Search` | the rewrite loop of `p1`, `Parse`, `Clause`, `TSearch` as a class |
| `queryoptions.dfy` | `QueryOpts` | `TQueryOptions` as a class over an `Options` value, with `Scan`/`String`, `Update` and the option lists |

The model follows the code in these places:
- `Clause` puts a space before `WHERE`.
- When a term compiles to the empty placeholder, `strings.Index(w, "")` is
  0, so the cursor of `p1` goes back to the start of the text.
- The remainder pattern is unanchored. Its replacement hits the first
  occurrence of the matched text anywhere in the working text.
- `(AND|OR)` needs no word boundary. In `a:"x" ORDER` the connector is the
  `OR` of `ORDER` (`Patterns.ConnectorNeedsNoWordBoundary`).
- A new page size in `Update` does not reset `LimitStart`. It only moves
  one page back with the old size.
- `uint(ll)` of a negative page size wraps around modulo 2^64.

## Model

| member | source | states |
|---|---|---|
| `Escaping.EscapeChar` | db/search.go:38-58 | `\n`, `\r`, `\\` and `"` become a backslash and the same byte; Ctrl-Z becomes `\Z`; every other byte, the apostrophe included, is copied unchanged |
| `Escaping.EscapeQuery` | db/search.go:25-62 | the loop over the buffer of twice the input length returns the character-by-character escaping of the input, so the empty input gives the empty output |
| `Escaping.EscapedConcat` | db/search.go:36-59 | escaping distributes over concatenation, so characters are escaped in order |
| `Escaping.EscapedCons` | db/search.go:36-59 | the escaping of a character followed by text is the escaped character followed by the escaped text |
| `Escaping.EscapedLength` | db/search.go:35 | the output is between n and 2n characters long, so it fits the buffer |
| `Escaping.UnescapeEscaped` | db/search.go:25-62 | backslash-unescaping, with `\Z` read as Ctrl-Z, recovers the input |
| `Escaping.EscapedQuoteFree` | db/search.go:39 | an input without a double quote gives an output without one |
| `SqlBuild.BuiltinTableNames` | db/search.go:113-136 | the switch resolves exactly the built-in entity names, never to a custom table, and only `title` selects the title column |
| `SqlBuild.FieldKey` | db/search.go:142-145 | the metadata key is the lower-cased entity with a leading `#`, added only when the entity lacks one |
| `SqlBuild.ResolveCases` | db/search.go:138-160 | the empty entity does not resolve; a built-in one resolves to its template; any other resolves exactly when its key has `is_custom` and `is_category` both `true`, and then to its string `table` |
| `SqlBuild.ComparisonCases` | db/search.go:163-176 | matcher `=` gives ` = "t")` or, negated, ` != "t")`; any other matcher gives ` LIKE "%t%")` or ` NOT LIKE "%t%")` |
| `SqlBuild.ComparisonQuotes` | db/search.go:170-175 | the comparison ends with its quoted pattern, the closing quote and the bracket |
| `SqlBuild.LikeSplits` | db/search.go:172-175 | the substring comparison is the negation, ` LIKE "`, the `%`-framed term and `")` |
| `SqlBuild.CompileShape` | db/search.go:111-185 | the compiled text is the entity's template, then the comparison with its closing brackets, then the connector verbatim; it ends with the connector, and with `)` when there is none |
| `SqlBuild.CompileParts` | db/search.go:180-182 | appending the connector only when non-empty is the same as always appending it |
| `SqlBuild.ClosedEnds` | db/search.go:177-179 | the comparison with its closing brackets ends with `)` for both bracket counts |
| `SqlBuild.BuildSqlEmpty` | db/search.go:138-160 | `buildSQL` returns `""` exactly when the entity does not resolve |
| `SqlBuild.LiteralRecoversTerm` | db/search.go:163 | the quoted literal holds the term escaped exactly once: unescaping gives back the pattern of the raw term |
| `SqlBuild.SameTableSameSql` | db/search.go:113-160 | the compiled text depends on the entity only through the table it resolves to |
| `SqlBuild.Synonyms` | db/search.go:113-136 | author/authors, language/languages and tag/tags compile to the same text |
| `SqlBuild.BuiltinIgnoresMeta` | db/search.go:113-136 | a built-in entity never consults the metadata and always compiles to a non-empty text |
| `SqlBuild.FieldResolves` | db/search.go:89-103 | every field `allSQL` names resolves to its built-in table whatever the metadata |
| `SqlBuild.GroupCompiles` | db/search.go:87-104 | the expression `allSQL` builds for field i (matcher `~`, the caller's negation and term, `OR` except after `title`) compiles to that field's group |
| `SqlBuild.AllFieldsChainLonger` | db/search.go:86-107 | the chain is longer than the authors template |
| `SqlBuild.AllFieldsChainOpens` | db/search.go:89-90 | the chain opens with the authors group |
| `SqlBuild.AllFieldsChainCloses` | db/search.go:103-104 | the chain closes with the bracket of the title group |
| `SqlBuild.AllFieldsChainEnds` | db/search.go:86-107 | the chain starts with the authors template and ends with `)`, with no dangling connector |
| `SqlBuild.AuthorsGroupStarts` | db/search.go:89-90 | the first group opens with the authors template |
| `SqlBuild.TitleGroupEnds` | db/search.go:103-104 | the title group, which is last, ends with `)` and has no connector |
| `SqlBuild.GroupsJoinedByOr` | db/search.go:87-102 | each of the first seven groups ends with `OR` |
| `SqlBuild.Expression.constructor` | db/search.go:67-82 | a `tExpression` holding the given fields |
| `SqlBuild.Expression.AllSQL` | db/search.go:86-107 | the returned text is the chain of the eight groups in the order authors, comment, format, language, publisher, series, tags, title; afterwards the expression holds the title group's fields |
| `Patterns.ConnectorUpper` | db/search.go:241 | upper-casing a connector gives `AND` or `OR` |
| `Patterns.ExprAt` | db/search.go:221-222 | the structured pattern anchored at a position, each optional part taken when present; a result lies within the text |
| `Patterns.ExprAtSound` | db/search.go:221-222 | what `ExprAt` returns is a match of the pattern |
| `Patterns.ExprAtFirst` | db/search.go:221-222 | every match at a position is found, and the one returned is the one a backtracking engine tries first |
| `Patterns.Leftmost` | db/search.go:233 | the leftmost position in a range where a test holds, and none exactly when it holds nowhere in the range |
| `Patterns.FindExprFrom` | db/search.go:233 | the search from a position returns the match at the leftmost start at or after it, and none exactly when nothing matches from there |
| `Patterns.FindExpr` | db/search.go:233 | `FindStringSubmatch` and `MatchString` of the structured pattern; a result lies within the text |
| `Patterns.FindExprLeftmost` | db/search.go:233 | a result is a match that starts no later than any match; there is none exactly when the pattern matches nowhere |
| `Patterns.FindExprNoLater` | db/search.go:233 | the match found starts no later than any match, and is tried first among those starting with it |
| `Patterns.ConnectorNeedsNoWordBoundary` | db/search.go:222 | in `a:"x" ORDER` the match takes the `OR` of `ORDER` as its connector |
| `Patterns.RemAtSound` | db/search.go:225-226 | what the anchored remainder recogniser returns is a match of `\s*(!?)\s*([\w ]+)` |
| `Patterns.RemAtFirst` | db/search.go:225-226 | every remainder match at a position is found, and the one returned is the one a backtracking engine tries first |
| `Patterns.FindRemFrom` | db/search.go:253 | the remainder search returns the match at the leftmost start, and none exactly when nothing matches |
| `Patterns.FindRemLeftmost` | db/search.go:253 | a result is a match that starts no later than any match; there is none exactly when the pattern matches nowhere |
| `Search.PlaceholderTable` | db/search.go:214-218 | `AND` gives `(1=1)`, `OR` gives `(1=0)`, and any other connector gives `""` |
| `Search.TermExprNormalised` | db/search.go:234-243 | the entity is lower-cased, a missing matcher becomes `=`, the negation is the `!` capture, and the connector is upper-case `AND`, `OR` or empty |
| `Search.ReplacementCases` | db/search.go:244-247 | an unresolved term is replaced by the placeholder of the previous connector, a resolved one by its SQL |
| `Search.StepReplacesFirstOccurrence` | db/search.go:248 | each match is replaced once, at the first occurrence of its text, which is no later than where it matched |
| `Search.StepCursor` | db/search.go:249 | the cursor moves to the end of the first occurrence of the replacement, and to 0 when the replacement is empty |
| `Search.RewriteTurn` | db/search.go:233-251 | one turn of the loop steps from the current match and continues with one turn fewer |
| `Search.IterateSettles` | db/search.go:233 | once a bounded loop has stopped by itself, more turns give the same state |
| `Search.IterateUnsettled` | db/search.go:233 | while a bounded loop can go on, one more turn is one more step |
| `Search.RewriteSettles` | db/search.go:233 | once the text has no structured term left, more fuel gives the same state: the result is that of the unbounded Go loop |
| `Search.RewriteUnsettled` | db/search.go:233-250 | while a structured term is left, one more unit of fuel performs one more step |
| `Search.CompiledSettles` | db/search.go:231-266 | once the rewrite has settled, more fuel compiles the raw text to the same SQL |
| `Search.ParseSettles` | db/search.go:273-288 | once the rewrite of the trimmed input has settled, or there is nothing to rewrite, more fuel gives the same parse |
| `Search.ClauseSettles` | db/search.go:190-199 | once the parse has settled, or there is no raw text, more fuel gives the same clause and state |
| `Search.FinishRemainder` | db/search.go:252-266 | text after the cursor matched by the remainder pattern is replaced, at its first occurrence, by the chain of the captured words with the `!` capture as negation, prefixed by `OR ` exactly when the last connector was empty |
| `Search.FinishNothingLeft` | db/search.go:252-254 | without text after the cursor, or without a remainder match, the text is left as it is |
| `Search.CompileTerm` | db/search.go:244-247 | `buildSQL` with the placeholder standing in for an empty result |
| `Search.Turn` | db/search.go:234-250 | one loop body performs one rewrite step |
| `Search.RewriteTerms` | db/search.go:232-251 | the loop leaves the text, cursor and connector of the rewrite from the trimmed text; `done` holds exactly when no structured term is left, that is when the result is the Go loop's |
| `Search.RewriteRemainder` | db/search.go:252-266 | the tail of `p1` finishes the text as `Finish` says |
| `Search.CompileText` | db/search.go:231-266 | the body of `p1` on the raw text is the rewrite followed by the remainder; `done` holds exactly when the rewrite has settled |
| `Search.ParseClearsRaw` | db/search.go:267-285 | every parse leaves no raw text behind |
| `Search.ParseBlank` | db/search.go:274-277 | white-space-only input leaves `where` and `next` empty |
| `Search.ParseFreeText` | db/search.go:284-285 | input without a structured term sets `where` to the chain of the trimmed input, with no leading connector |
| `Search.ParseStructured` | db/search.go:279-281 | input with a structured term is compiled by `p1`, and `next` is cleared |
| `Search.ClauseRecoversWhere` | db/search.go:194-196 | the clause is `""` exactly when `where` is empty, and otherwise ` WHERE ` followed by `where` |
| `Search.ClauseOnce` | db/search.go:190-199 | asked a second time, `Clause` changes nothing and returns the same clause |
| `Search.Search.constructor` | db/search.go:305-307 | `NewSearch` holds the text as raw input, with `where` and `next` empty |
| `Search.Search.Store` | db/search.go:267 | `next` and `raw` are cleared and the text becomes `where` |
| `Search.Search.P1` | db/search.go:231-270 | `where` becomes the compiled raw text, and `raw` and `next` are cleared; `done` holds exactly when the rewrite has settled |
| `Search.Search.Parse` | db/search.go:273-288 | the new state is the parse of the old one; `done` holds exactly when that parse has settled |
| `Search.Search.Clause` | db/search.go:190-199 | the new state and the returned clause are those of `ClauseState`; `done` holds exactly when there was no raw text or its parse has settled |
| `Text.TrimSpace` | db/search.go:232 | the result is a slice of the input without white space at either end; everything cut off is white space |
| `Text.TrimSpaceIdempotent` | db/queryoptions.go:144-148 | trimming twice is trimming once |
| `Text.ToLower` | db/search.go:238 | the entity is lower-cased character by character |
| `Text.ToUpper` | db/search.go:241 | the connector is upper-cased character by character |
| `Text.IndexOf` | db/search.go:249 | the first position of an occurrence, or -1 exactly when there is none |
| `Text.ReplaceFirst` | db/search.go:248 | only the first occurrence is replaced; without one the text is unchanged |
| `Text.ReplacedTextFound` | db/search.go:248-249 | after the replacement the new text is found no later than the replaced one |
| `Text.Atoi` | db/queryoptions.go:307 | a result lies in the 64-bit range and comes from non-empty text; a string of digits within range reads as its value |
| `Text.AtoiDecimal` | db/queryoptions.go:307 | the decimal form of a number reads back as that number |
| `Text.Join` | db/queryoptions.go:206 | no parts give the empty text and one part gives itself |
| `QueryOpts.DecLimitedClamps` | db/queryoptions.go:116-126 | `LimitStart` drops by `LimitLength` and becomes 0 when not above it, never underflowing; nothing changes when it is 0; no other field changes |
| `QueryOpts.IncThenDec` | db/queryoptions.go:116-133 | without overflow `IncLimit` adds `LimitLength`, and `DecLimit` after it restores the original options |
| `QueryOpts.SnapLimitChoice` | db/queryoptions.go:417-428 | the page size is in `qoLimitList`; for a positive count it is the smallest listed size that holds it, or 249; otherwise 24 |
| `QueryOpts.QueryOptions.constructor` | db/queryoptions.go:60-73 | a `TQueryOptions` holding the given field values |
| `QueryOpts.QueryOptions.Clone` | db/queryoptions.go:96-113 | a fresh object with the same field values |
| `QueryOpts.QueryOptions.DecLimit` | db/queryoptions.go:116-126 | the new state is `DecLimited` of the old one |
| `QueryOpts.QueryOptions.IncLimit` | db/queryoptions.go:129-133 | the new state is `IncLimited` of the old one, wrapping around like `uint` |
| `QueryOpts.NewQueryOptions` | db/queryoptions.go:411-431 | a fresh object with `Descending` set, page size `SnapLimit(n)` and every other field zero |
| `QueryOpts.FieldTokens` | db/queryoptions.go:78-90 | the twelve fields in pattern order, each a value its conversion can hold |
| `QueryOpts.ScanFrom` | db/queryoptions.go:140-143 | `Sscanf` reads at most one value per conversion, in order, stopping at the first failure |
| `QueryOpts.ScanBool` | db/queryoptions.go:78 | `%t` yields a boolean |
| `QueryOpts.ScanBoolFormat` | db/queryoptions.go:78 | `%t` reads back the word `true` or `false` that it wrote |
| `QueryOpts.ScanUnsigned` | db/queryoptions.go:78 | `%d` into an unsigned field reads a value below the field's bound |
| `QueryOpts.ScanNumFormat` | db/queryoptions.go:78 | `%d` reads back any value of the field's type from its decimal form |
| `QueryOpts.ScanSigned` | db/queryoptions.go:78 | `%d` into the ID reads a signed 64-bit value |
| `QueryOpts.ReadQuotedEscape` | db/queryoptions.go:78 | the escaped form of a string, closed by a quote, reads back as the string |
| `QueryOpts.ScanStrFormat` | db/queryoptions.go:78 | `%q` reads back the string it quoted |
| `QueryOpts.ScanVerbFormat` | db/queryoptions.go:78 | each conversion reads back the value it wrote |
| `QueryOpts.ScanRender` | db/queryoptions.go:78 | a rendered sequence of values reads back as the same values |
| `QueryOpts.ScanString` | db/queryoptions.go:273-278 | the text form scans back to all twelve fields |
| `QueryOpts.StoredFields` | db/queryoptions.go:140-143 | storing the scanned values overwrites every field except the two filter strings |
| `QueryOpts.FilterTokens` | db/queryoptions.go:142-143 | the text form carries `Matching` and `VirtLib` in its eighth and twelfth slots |
| `QueryOpts.ScanFormatted` | db/queryoptions.go:138-152 | `Scan(String(q))` restores q whatever the receiver held, when q's filter strings are trimmed and its library is not `-` |
| `QueryOpts.ScanTrims` | db/queryoptions.go:144-149 | after `Scan` both filter strings are trimmed, whatever the input |
| `QueryOpts.QueryOptions.String` | db/queryoptions.go:273-278 | the text form scans back to the twelve field values |
| `QueryOpts.QueryOptions.Scan` | db/queryoptions.go:138-152 | the new state is `Scanned(old state, text)`: stored values, `Matching` trimmed, a `-` library cleared and any other trimmed |
| `QueryOpts.QueryOptions.StoreFields` | db/queryoptions.go:140-143 | the stores `Sscanf` makes through the field pointers |
| `QueryOpts.QueryOptions.SetFilters` | db/queryoptions.go:144-149 | `Matching` is the trimmed string; `VirtLib` is cleared for `-` and trimmed otherwise |
| `QueryOpts.NameIndex` | db/queryoptions.go:335-354 | the position of the first equal name, or the length when there is none |
| `QueryOpts.SortKeyNames` | db/queryoptions.go:25-34 | each of the ten sort names selects its own position |
| `QueryOpts.SortCaseIsKey` | db/queryoptions.go:334-354 | the `switch` over the submitted name agrees with the position in the list of sort names, 0 for an unknown name |
| `QueryOpts.SortKeyEmpty` | db/queryoptions.go:358-359 | an absent sort key selects acquisition |
| `QueryOpts.LanguageStep` | db/queryoptions.go:286-294 | only `GuiLang` changes |
| `QueryOpts.LayoutStep` | db/queryoptions.go:296-304 | only `Layout` changes |
| `QueryOpts.LimitStep` | db/queryoptions.go:306-314 | only the page fields change, and `LimitStart` never grows |
| `QueryOpts.MatchingStep` | db/queryoptions.go:316-322 | only `Entity`, `ID`, `Matching`, `LimitStart` and `VirtLib` change |
| `QueryOpts.OrderStep` | db/queryoptions.go:324-331 | only `Descending` and `LimitStart` change |
| `QueryOpts.SortStep` | db/queryoptions.go:333-360 | only `SortBy` and `LimitStart` change |
| `QueryOpts.ThemeStep` | db/queryoptions.go:362-370 | only `Theme` changes |
| `QueryOpts.VirtLibStep` | db/queryoptions.go:372-401 | only `VirtLib`, `Matching`, `Entity`, `ID` and `LimitStart` change |
| `QueryOpts.UpdateLooks` | db/queryoptions.go:286-370 | `GuiLang`, `Layout` and `Theme` become English, grid and dark only for exactly `en`, `grid` and `dark`, and German, list and light otherwise |
| `QueryOpts.UpdateOrder` | db/queryoptions.go:324-331 | `Descending` holds exactly when the form says `descending`, so an absent order means ascending |
| `QueryOpts.UpdateSortBy` | db/queryoptions.go:333-360 | `SortBy` is the position of the submitted name, acquisition for an absent or unknown name |
| `QueryOpts.UpdatePageSize` | db/queryoptions.go:306-314 | a numeric page size is stored as `uint` (wrapping around); a missing or non-numeric one is ignored |
| `QueryOpts.UpdatePageReset` | db/queryoptions.go:316-357 | a changed matching text, order, sort key or library sets `LimitStart` to 0 |
| `QueryOpts.UpdatePageKept` | db/queryoptions.go:306-314 | with none of those changes `LimitStart` is kept, or moved one page back with the old size when the page size changed |
| `QueryOpts.UpdateFilter` | db/queryoptions.go:316-401 | closed forms of `Matching`, `VirtLib`, `Entity` and `ID`: an absent matching clears them; a new library sets `VirtLib` (`-` meaning none), takes its query only when it is listed, and clears `Entity` and `ID`; an equal library leaves `Matching` alone; an absent one clears `VirtLib` |
| `QueryOpts.QueryOptions.Update` | db/queryoptions.go:284-404 | the new state is `Updated(old state, form, libraries)` |
| `QueryOpts.QueryOptions.ApplyLanguage` | db/queryoptions.go:286-294 | the `guilang` block performs `LanguageStep` |
| `QueryOpts.QueryOptions.ApplyLayout` | db/queryoptions.go:296-304 | the `layout` block performs `LayoutStep` |
| `QueryOpts.QueryOptions.ApplyLimit` | db/queryoptions.go:306-314 | the `limitlength` block performs `LimitStep` |
| `QueryOpts.QueryOptions.ApplyMatching` | db/queryoptions.go:316-322 | the `matching` block performs `MatchingStep` |
| `QueryOpts.QueryOptions.ApplyOrder` | db/queryoptions.go:324-331 | the `order` block performs `OrderStep` |
| `QueryOpts.QueryOptions.ApplySortBy` | db/queryoptions.go:333-360 | the `sortby` block performs `SortStep` |
| `QueryOpts.QueryOptions.ApplyTheme` | db/queryoptions.go:362-370 | the `theme` block performs `ThemeStep` |
| `QueryOpts.QueryOptions.ApplyVirtLib` | db/queryoptions.go:372-401 | the `virtlib` block performs `VirtLibStep` |
| `QueryOpts.OptionTagMarked` | db/queryoptions.go:159-164 | an option tag carries `SELECTED` exactly when it is selected |
| `QueryOpts.ChoiceMarksOne` | db/queryoptions.go:156-222 | of two distinct options exactly one carries `SELECTED` |
| `QueryOpts.TwoWayMarksOne` | db/queryoptions.go:154-222 | the language, layout and order lists have two options each, and exactly the current one is marked |
| `QueryOpts.ThemeMarksOne` | db/queryoptions.go:252-264 | a light or dark theme marks exactly itself; any other theme gives an empty map |
| `QueryOpts.SortByMarksOne` | db/queryoptions.go:226-248 | the ten sort names each have an option; exactly the current one is marked when `SortBy` ≤ 9, none otherwise |
| `QueryOpts.SortPrefixStep` | db/queryoptions.go:242-248 | adding the option for the next sort name extends the list by that name |
| `QueryOpts.LimitOptionMarked` | db/queryoptions.go:203 | a page-size entry is marked exactly when it is selected |
| `QueryOpts.LimitMarksOne` | db/queryoptions.go:189-207 | only the entry equal to `LimitLength` is marked, at most one is, and one is exactly when `LimitLength` is listed |
| `QueryOpts.QueryOptions.SelectLanguageOptions` | db/queryoptions.go:154-170 | the map is `LanguageOptions` of the state |
| `QueryOpts.QueryOptions.SelectLayoutOptions` | db/queryoptions.go:172-185 | the map is `LayoutOptions` of the state |
| `QueryOpts.QueryOptions.SelectLimitOptions` | db/queryoptions.go:198-207 | the text is `LimitOptions` of the state: one entry per allowed size, joined by a backslash and `n` |
| `QueryOpts.QueryOptions.SelectOrderOptions` | db/queryoptions.go:209-222 | the map is `OrderOptions` of the state |
| `QueryOpts.QueryOptions.SelectSortByOptions` | db/queryoptions.go:224-240 | the map is `SortByOptions` of the state |
| `QueryOpts.QueryOptions.SelectSortByPrim` | db/queryoptions.go:242-248 | the map gains the option for the given name, marked when its key is the current one |
| `QueryOpts.QueryOptions.SelectThemeOptions` | db/queryoptions.go:250-264 | the map is `ThemeOptions` of the state |

## Left out

- I/O and concurrency: none are in the modelled core. The HTTP request is a
  form map in which a missing key reads as `""`.
- `MetaFieldValue` is not part of this model. It is a map parameter from
  (field, property) to a value that may be a boolean, a string or missing,
  and an error reads as missing.
- `VirtualLibraryList` is not part of this model. It is a parameter that is
  either absent (an error) or a map from library name to query.
- `TID` is not part of this model. The ID is taken as a signed 64-bit
  integer.
- `Search.Search.Where` returns `where` and has no contract beyond that.
  `TSearch.String` (db/search.go:291-295), a diagnostic text, is not
  modelled.
- `SelectVirtLibOptions` and `VirtLibOptions` are not modelled.
- `Search.RewriteTerms`, `Search.CompileText`, `Search.Search.P1`,
  `Search.Search.Parse` and `Search.Search.Clause`: the loop of `p1` runs
  on a fuel bound. With too little fuel the model stops early where Go
  would go on. Each returns `done`, which holds exactly when the rewrite
  has settled; then more fuel gives the same result (`Search.RewriteSettles`
  and the lemmas after it), which is the result of the Go loop. Whether the
  Go loop always ends is not modelled.
- Text is a sequence of Unicode code points, the decoding of a valid
  UTF-8 Go string; invalid UTF-8 is not modelled. Go's `strings.TrimSpace`
  decodes a lone byte 0x85 or 0xA0 as U+FFFD and keeps it, where the model
  would see U+0085 or U+00A0 and trim it. `strings.TrimSpace` uses Unicode
  white space up to U+3000; `\w` and case folding are ASCII only. The
  buffer of `escapeQuery` is counted in code points rather than bytes.
- The two regular expressions are modelled by hand-written recognisers, not
  by a general regex engine.
- `QueryOpts.ReadQuotedEscape`: `%q` is modelled as escaping only `"`,
  `\`, newline, tab and carriage return. Go's `strconv.Quote` also writes
  `\a`, `\b`, `\f` and `\v`, `\x` for the other bytes below 0x20 and
  for 0x7F, and `\u` or `\U` for non-printable code points; reading back
  also accepts octal escapes, which Go never writes here. None of these is
  modelled.
- `QueryOpts.ScanFrom`: `Sscanf` is modelled for this one pattern only.
  Conversions are read in order until the first failure, each skipping
  blanks before it. `%d` reads decimal digits only, without `0x`/`0b`
  prefixes or `_` separators. The count and error results are discarded
  by `Scan` and are not modelled.
- The branch at db/queryoptions.go:385-394 is not modelled. It clears
  `Matching` when it equals the old library's query. It cannot run,
  because `vl` is non-empty there.
- The SQL meaning of the generated text is not modelled; only its shape is.
- Go maps passed by pointer (`selectSortByPrim`) become map values that
  are returned.
