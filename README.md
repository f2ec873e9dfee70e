# Database actions for a reason-and-act agent, in Dafny

The system gives an LLM-driven agent five "actions" meant for reading the SQLite
database of a chat application: `tables` lists the tables the agent may see,
`schema` and `columns` describe one of them, `help` looks up hand-written
descriptions of tables and columns in a static catalog (`DATA_HELP`), and
`sql_query` runs a query behind a guard and returns at most five rows. Every
failure the actions check for is returned to the agent as text instead of
being raised; the faults they do not catch are listed under "Left out".

This project models those actions as total Dafny functions and proves what
they promise. The database is not modelled: it is a value `Actions.Db` holding
what the engine reports (the table names in order, each table's column names
and CREATE statement, each column's values ranked by frequency, and the outcome
of each query: rows or an `OperationalError` message).

Files, one module each:

- `wrappers.dfy` (`Wrappers`): `Option`, for Python's `None`-or-value.
- `strings.dfy` (`Strings`): substring test, prefix and suffix tests, ASCII `lower`, `join`, and the `repr` of a list of names.
- `whitespace.dfy` (`Whitespace`): the substitution `re.sub('\s+', ' ', text)` and its properties.
- `seqs.dfy` (`Seqs`): the filtering list comprehension and its properties.
- `catalog.dfy` (`Catalog`): `DATA_HELP`, `IGNORED_TABLES` and `IGNORED_COLUMNS`, with every description.
- `actions.dfy` (`Actions`): the database value, the five actions, `clean_truncate`, and the lemmas about them.

In `DATA_HELP` each table maps the key `None` to the description of the whole
table and each described column name to that column's description. Every
table in the catalog has the `None` key. The model gives each table a
`Catalog.TableHelp` value whose whole-table description is a field of its
own, so that property holds by construction. Column lookups go through the
table's `columns` map. `Actions.HelpWith` takes the catalog as a parameter and
is proved for every catalog; `Actions.Help` applies it to `DATA_HELP`.

Every action except `tables`, which cannot fail, returns `Reply<T>`:
`Failure(message)` is the error text the action returns, and
`Success(value)` is its normal result. In the Python code
both outcomes of `schema` and `help` are plain strings. The tag makes visible
which branch produced the text. It does not change the text.

## Model

| member | source | states |
|---|---|---|
| `Strings.Contains` | actions.py:156 | `p in s` holds exactly when `p` occurs at some index of `s` |
| `Strings.Lower` | actions.py:209 | lower-casing keeps the length and folds each character on its own |
| `Strings.JoinUpToTwo` | actions.py:204 | `", ".join` of zero, one or two values is "", the value, or the two values with ", " between |
| `Strings.QuotedItems` | actions.py:166 | the inside of a list's `repr` is empty exactly for the empty list and otherwise starts with a quote |
| `Strings.ListRepr` | actions.py:166 | the `repr` of a list is bracketed |
| `Strings.QuotedItemsInjective` | actions.py:166 | different lists of plain names give different quoted, comma-joined items |
| `Strings.ListReprInjective` | actions.py:166 | the `repr` of a list of plain names determines the list |
| `Whitespace.SkipSpaces` | actions.py:167 | removing a leading whitespace run leaves an empty text or one that starts with a non-whitespace character |
| `Whitespace.SkipSpacesDropsLeadingRun` | actions.py:167 | what is removed is a prefix made only of whitespace |
| `Whitespace.Collapse` | actions.py:167 | the substitution is empty exactly on empty text and keeps whether the text starts with whitespace |
| `Whitespace.CollapseIsCollapsed` | actions.py:167 | after the substitution the only whitespace is ' ' and no two whitespace characters are adjacent |
| `Whitespace.CollapseKeepsText` | actions.py:167 | the substitution keeps every non-whitespace character, in order |
| `Whitespace.CollapseFixesCollapsed` | actions.py:167 | text that is already collapsed is unchanged |
| `Whitespace.CollapseIdempotent` | actions.py:167 | applying the substitution twice equals applying it once |
| `Whitespace.CollapseBlank` | actions.py:167 | a nonempty run made only of whitespace becomes exactly one space |
| `Whitespace.CollapseSplit` | actions.py:167 | the text on either side of a non-whitespace character is collapsed independently |
| `Seqs.Filter` | actions.py:151-160 | the comprehension never returns more elements than it is given |
| `Seqs.FilterMembers` | actions.py:151-160 | the comprehension keeps exactly the elements that pass, each as often as in the input |
| `Seqs.FilterConcat` | actions.py:151-153 | filtering keeps the input's order: a concatenation is filtered part by part |
| `Seqs.FilterSingle` | actions.py:155-159 | one element is kept exactly when it passes |
| `Seqs.FilterKeepsAll` | actions.py:174-178 | filtering with a test every element passes returns the input |
| `Catalog.DataHelpTables` | actions.py:41-121 | `DATA_HELP` describes exactly the seven tables auth, chat, document, file, model, prompt and user; the `Catalog` constants hold every table and column description verbatim |
| `Actions.VisibleTables` | actions.py:150-160 | a name is listed exactly when the engine reports it, it has no "_fts" in it, it is not in `IGNORED_TABLES` and it does not end with "_history"; each listed name appears as often as the engine reports it |
| `Actions.VisibleTablesConcat` | actions.py:151-153 | the listing keeps the engine's order |
| `Actions.VisibleTablesSingle` | actions.py:155-159 | a single reported name is listed exactly when it passes the three tests |
| `Actions.Tables` | actions.py:150-160 | the `tables` action lists exactly the reported names that pass the three tests, each as often as the engine reports it |
| `Actions.IgnoredTablesHidden` | actions.py:123-132 | no table of `IGNORED_TABLES` is ever listed, whatever the engine reports |
| `Actions.CatalogTablesVisible` | actions.py:41-121 | every table the catalog describes passes the three tests, so `tables` lists it whenever the engine reports it |
| `Actions.InvalidTable` | actions.py:166 | the invalid-table error (also at actions.py:173) starts with "Error: ", is "Error: Invalid table. Valid tables are: " followed by the listing, and the listing is the whole rest of the text |
| `Actions.InvalidTableNamesListing` | actions.py:166 | the invalid-table error lists the visible tables exactly: different listings of plain names give different errors |
| `Actions.Schema` | actions.py:163-167 | the invalid-table error is returned exactly when the table is not listed by `tables`; otherwise the result is the collapsed CREATE statement, which has only single spaces as whitespace and the statement's non-whitespace characters in order |
| `Actions.SchemaIsStable` | actions.py:167 | a successful schema text is a fixed point of the substitution |
| `Actions.VisibleColumns` | actions.py:174-178 | a column is shown exactly when the engine reports it and it is not in `IGNORED_COLUMNS`, as often as the engine reports it |
| `Actions.VisibleColumnsAreAll` | actions.py:133 | `IGNORED_COLUMNS` is empty, so the shown columns are the engine's columns unchanged |
| `Actions.Columns` | actions.py:170-178 | the invalid-table error is returned exactly when the table is not listed by `tables`; otherwise the result is the engine's column list, in order |
| `Actions.ColumnArgument` | actions.py:185-187 | a column is named exactly when there are exactly two arguments, and it is the second one |
| `Actions.UnknownTable` | actions.py:188-190 | the unknown-table error starts with "Error: The table " and the table's name, and ends with " doesn't exist. Valid tables: " and the listing |
| `Actions.UnknownColumn` | actions.py:191-197 | the unknown-column error starts with "Error: The column " and the column (or "None"), then names the table in " isn't in the <table> table.", and ends with " table. Valid columns: " and the listing |
| `Actions.TopValues` | actions.py:203-204 | the reported values are the first `min(2, n)` values of the engine's ranking, in order |
| `Actions.ColumnHelp` | actions.py:205 | the column help starts with the catalog description and " the top two values are: ", and ends with the joined values |
| `Actions.HelpWith` | actions.py:181-205 | no arguments give the usage error; a table outside the catalog gives an error listing `tables`; one argument or three and more give the table description verbatim; with two arguments, a column outside the catalog entry gives an error listing the engine's columns, and a column inside it gives its description followed by " the top two values are: " and the joined values |
| `Actions.Help` | actions.py:181-205 | over `DATA_HELP`: no arguments give the usage error; a table the catalog lacks gives the unknown-table error listing `tables`; a described table with other than two arguments gives its description; every error starts with "Error: ", and every success names a described table |
| `Actions.HelpIgnoresExtraArguments` | actions.py:184-187 | three or more arguments answer exactly like the first argument alone |
| `Actions.HelpColumnShape` | actions.py:203-205 | the column help ends with at most two values, joined by ", " |
| `Actions.CopyRow` | actions.py:144 | copying a row key by key gives the same row |
| `Actions.CleanTruncate` | actions.py:142-146 | truncation returns `min(n, len(results))` rows, row i being input row i; `n` defaults to 3 |
| `Actions.SqlQuery` | actions.py:208-215 | a query whose lower-cased text starts with "select *" gets the select-star error whatever the database; an `OperationalError` becomes "Your query has an error: " plus its message; otherwise the result is the first `min(5, rows)` rows in the engine's order, never more than five |
| `Actions.SelectsStar` | actions.py:209 | the guard fires exactly when the query has at least eight characters and each of the first eight lower-cases to the matching character of "select *" |
| `Actions.SelectStarErrorIffGuard` | actions.py:209-214 | the select-star error is returned exactly when the guard fires, since an engine error reads differently |
| `Actions.SelectsStarOnPrefix` | actions.py:209 | the guard depends only on the first eight characters of the query |
| `Actions.SelectsStarIgnoresCase` | actions.py:209 | two queries that differ only in letter case are both rejected or both passed |
| `Actions.SelectsStarExamples` | actions.py:209 | "SELECT * FROM user" is rejected; a leading space, two spaces before the star, or a named column are not |

## Left out

- `load_db` (actions.py:136-139) checks that the database file exists and opens it. This is I/O, so the model starts from an opened database value.
- The engine's work is not modelled: `table_names()`, `.schema`, `.columns`, `analyze_column` and `db.query` are fields of `Actions.Db`. SQL semantics, the engine's ordering of rows and values, and its error texts are therefore inputs.
- `analyze_column(column, common_limit=2)` is modelled as the engine's full frequency ranking cut to its first two entries. The cut happens inside the engine in the code.
- `Actions.SqlQuery`: exceptions other than `sqlite3.OperationalError` propagate out of the action and are not modelled. The same holds for faults in `help`, which has no `try`. One is `analyze_column` on a catalog column that the real table lacks. A more common one is a column whose values are all distinct, or a table with no rows: `sqlite_utils` then gives `None` for `most_common`, so the loop at actions.py:204 raises `TypeError`. An example is `help(db, "chat", "id")`. The model's database fields are total, so these calls always give a value, and the model answers with the column help.
- `Strings.Lower`: it folds only ASCII letters, and Python's `str.lower` also folds other letters. A few of those change the string's length. For the guard this makes no difference. The only other characters whose lower case contains an ASCII character are U+0130, which becomes "i" and a combining dot, and U+212A, which becomes "k". Neither "i" nor "k" occurs in "select *". So `Actions.SelectsStar` decides exactly as `query.lower().startswith("select *")` does on every query.
- `Whitespace.IsSpace`: it covers the six ASCII whitespace characters. Python's `\s` on text also matches other Unicode whitespace, such as the information separators 0x1C-0x1F and no-break space.
- `Strings.ListRepr`: it writes each name between single quotes. This agrees with Python's `repr` on every name without `'` or `\` whose characters Python prints as themselves. Names with `'` or `\`, or with characters that `repr` escapes, are not modelled. `Strings.PlainName` is the printable-ASCII part of that set, and the injectivity lemmas are stated for such names.
- `Actions.SqlQuery`: the guard rejects only queries that start with "select *". A statement that writes, such as `DELETE FROM chat` or `DROP TABLE chat`, still goes to the engine, and the connection that `load_db` opens is writable. It then changes the database that later calls of `tables`, `schema`, `columns` and `help` read. `Db` is a fixed value, so the model does not capture this.
- `Actions.CleanTruncate`: `n` is a `nat`. Python's `results[:n]` with a negative `n` drops rows from the end, and that case is not modelled. The only call passes 5 (actions.py:215).
- Values are modelled as already-rendered strings, so `str(value)` of integers, `None` and other values is not modelled.
- Rows are maps. The key order of a Python `dict` is not kept.
- The `ACTIONS` usage text (actions.py:13-18) is documentation and is not modelled. There is no dispatcher from action names to actions in this file.
- In the code `schema` and `help` return a plain string in both outcomes. The model tags the outcome with `Reply`; the text is the same.
- The action description says `help` takes one required and one optional argument. The code reads a column only when there are exactly two arguments, and the model follows the code (`Actions.HelpIgnoresExtraArguments`).
- Calling an action twice on an unchanged database gives the same result. In the model this holds by construction, since every action is a function, so no lemma states it.
