/** The five actions, meant for reading, that an agent calls against the
    chat application's SQLite database: `tables`, `schema`, `columns`,
    `help` and `sql_query`, with the `clean_truncate` helper. The database
    itself is a value of type `Db`: what the engine reports, not how it
    computes it. Every action except `tables`, which cannot fail, returns a
    `Reply`, whose `Failure` case is the error text the action returns in
    place of a result. */
module Actions {
  import opened Wrappers
  import opened Strings
  import opened Whitespace
  import opened Seqs
  import opened Catalog

  /** A stored value, already rendered the way `f"{value}"` renders it. */
  type Value = string

  /** One result row: column name to value. */
  type Row = map<string, Value>

  /** What running a query gives: its rows, or the engine's `OperationalError`. */
  datatype QueryOutcome = Rows(rows: seq<Row>) | OperationalError(message: string)

  /** The opened database, as far as the actions can observe it. */
  datatype Db = Db(
    /** `db.table_names()`, in the engine's order. */
    tableNames: seq<string>,
    /** The names of `db[t].columns`, in the engine's order. */
    columnsOf: string -> seq<string>,
    /** `db[t].schema`, the table's CREATE statement. */
    schemaOf: string -> string,
    /** The distinct values of column `c` of table `t` with their counts,
        most frequent first, as `analyze_column` ranks them. */
    valueCounts: (string, string) -> seq<(Value, nat)>,
    /** `list(db.query(q))`, or the `OperationalError` it raises. */
    query: string -> QueryOutcome)

  /** An action's answer: the error text it returns, or its result. */
  datatype Reply<+T> = Failure(message: string) | Success(value: T)

  function Min(a: int, b: int): int {
    if a < b then a else b
  }

  // ---------------------------------------------------------------- tables

  /** Marker of the shadow tables that full-text search creates. */
  const FtsMarker := "_fts"

  /** Suffix of the tables that keep row history. */
  const HistorySuffix := "_history"

  /** The test `tables` applies to each name the engine reports. */
  predicate Visible(name: string) {
    !Contains(name, FtsMarker) && name !in IgnoredTables && !EndsWith(name, HistorySuffix)
  }

  /** The names `tables` keeps out of `names`: each visible name, as often
      as it occurs, in the order given. */
  function VisibleTables(names: seq<string>): (r: seq<string>)
    ensures forall x :: x in r <==>
      && x in names
      && (forall i :: !OccursAt(x, "_fts", i))
      && x !in IgnoredTables
      && !EndsWith(x, "_history")
    ensures forall x :: Visible(x) ==> multiset(r)[x] == multiset(names)[x]
  {
    FilterMembers(names, Visible);
    Filter(names, Visible)
  }

  /** The listing preserves the engine's order: the visible names of a
      concatenation are those of each part, one after the other. */
  lemma VisibleTablesConcat(a: seq<string>, b: seq<string>)
    ensures VisibleTables(a + b) == VisibleTables(a) + VisibleTables(b)
  {
    FilterConcat(a, b, Visible);
  }

  /** A single name is listed exactly when it is visible. */
  lemma VisibleTablesSingle(name: string)
    ensures VisibleTables([name]) == if Visible(name) then [name] else []
  {
    FilterSingle(name, Visible);
  }

  /** The `tables` action: the engine's table names that pass the three
      tests, each as often as the engine reports it, in the engine's order. */
  function Tables(db: Db): (r: seq<string>)
    ensures forall x :: x in r <==> x in db.tableNames && Visible(x)
    ensures forall x :: Visible(x) ==> multiset(r)[x] == multiset(db.tableNames)[x]
  {
    VisibleTables(db.tableNames)
  }

  /** No table of `IGNORED_TABLES` is ever listed, whatever the engine reports. */
  lemma IgnoredTablesHidden(db: Db)
    ensures forall x :: x in IgnoredTables ==> x !in Tables(db)
  {
  }

  /** Every table the help catalog describes (`Catalog.DataHelpTables`)
      passes the tests of `tables`, so `tables` lists it whenever the engine
      reports it. */
  lemma CatalogTablesVisible(db: Db)
    ensures forall t :: t in CatalogTables ==> Visible(t)
    ensures forall t :: t in CatalogTables && t in db.tableNames ==> t in Tables(db)
  {
    forall t | t in CatalogTables ensures Visible(t) {
      NoUnderscoreVisible(t);
    }
  }

  /** A name without '_' that is not ignored passes the tests of `tables`. */
  lemma NoUnderscoreVisible(name: string)
    requires forall i :: 0 <= i < |name| ==> name[i] != '_'
    requires name !in IgnoredTables
    ensures Visible(name)
  {
    forall i ensures !OccursAt(name, FtsMarker, i) {
      if 0 <= i && i + 4 <= |name| {
        assert name[i..i + 4][0] == name[i];
      }
    }
    if |name| >= 8 {
      assert name[|name| - 8..][0] == name[|name| - 8];
    }
  }

  // ---------------------------------------------------------------- schema and columns

  /** How every error of `schema`, `columns` and `help` begins, and the
      select-star error of `sql_query`. */
  const ErrorTag := "Error: "

  const InvalidTablePrefix := ErrorTag + "Invalid table. Valid tables are: "

  /** The error that `schema` and `columns` return for a table not listed by
      `tables`: a fixed text followed by the listing, which fills the rest. */
  function InvalidTable(names: seq<string>): (r: string)
    ensures StartsWith(r, ErrorTag)
    ensures |r| > |InvalidTablePrefix| && r[..|InvalidTablePrefix|] == InvalidTablePrefix
    ensures r[|InvalidTablePrefix|..] == ListRepr(names)
  {
    InvalidTablePrefix + ListRepr(names)
  }

  /** The invalid-table error lists the visible tables exactly: two listings
      of plain names give the same error only when they are the same list. */
  lemma InvalidTableNamesListing(xs: seq<string>, ys: seq<string>)
    requires forall x :: x in xs ==> PlainName(x)
    requires forall y :: y in ys ==> PlainName(y)
    requires InvalidTable(xs) == InvalidTable(ys)
    ensures xs == ys
  {
    ListReprInjective(xs, ys);
  }

  /** The `schema` action: the table's CREATE statement with each run of
      whitespace reduced to one space, or the invalid-table error. */
  function Schema(db: Db, tableName: string): (r: Reply<string>)
    ensures r.Failure? <==> tableName !in Tables(db)
    ensures r.Failure? ==> r.message == InvalidTable(Tables(db))
    ensures r.Success? ==> r.value == Collapse(db.schemaOf(tableName))
    ensures r.Success? ==> Collapsed(r.value)
    ensures r.Success? ==> NonSpace(r.value) == NonSpace(db.schemaOf(tableName))
  {
    var names := Tables(db);
    if tableName !in names then
      Failure(InvalidTable(names))
    else
      var text := db.schemaOf(tableName);
      CollapseIsCollapsed(text);
      CollapseKeepsText(text);
      Success(Collapse(text))
  }

  /** The schema text is already normalised: collapsing it again changes nothing. */
  lemma SchemaIsStable(db: Db, tableName: string)
    requires Schema(db, tableName).Success?
    ensures Collapse(Schema(db, tableName).value) == Schema(db, tableName).value
  {
    CollapseIdempotent(db.schemaOf(tableName));
  }

  /** The test applied to each column name. */
  predicate ShownColumn(name: string) {
    name !in IgnoredColumns
  }

  /** The engine's column names of a table minus the ignored ones, in order. */
  function VisibleColumns(db: Db, tableName: string): (r: seq<string>)
    ensures forall c :: c in r <==> c in db.columnsOf(tableName) && c !in IgnoredColumns
    ensures forall c :: c !in IgnoredColumns ==> multiset(r)[c] == multiset(db.columnsOf(tableName))[c]
  {
    FilterMembers(db.columnsOf(tableName), ShownColumn);
    Filter(db.columnsOf(tableName), ShownColumn)
  }

  /** No column is ignored at present, so the visible columns are all of them. */
  lemma VisibleColumnsAreAll(db: Db, tableName: string)
    ensures VisibleColumns(db, tableName) == db.columnsOf(tableName)
  {
    FilterKeepsAll(db.columnsOf(tableName), ShownColumn);
  }

  /** The `columns` action: the table's column names, or the invalid-table error. */
  function Columns(db: Db, tableName: string): (r: Reply<seq<string>>)
    ensures r.Failure? <==> tableName !in Tables(db)
    ensures r.Failure? ==> r.message == InvalidTable(Tables(db))
    ensures r.Success? ==> r.value == db.columnsOf(tableName)
  {
    var names := Tables(db);
    if tableName !in names then
      Failure(InvalidTable(names))
    else
      VisibleColumnsAreAll(db, tableName);
      Success(VisibleColumns(db, tableName))
  }

  // ---------------------------------------------------------------- help

  const NoArgumentError := ErrorTag + "The help action requires at least one argument"

  /** How many of the most common values the column help reports. */
  const CommonLimit := 2

  /** `f"{x}"` of an optional name: `None` prints as "None". */
  function OptionText(o: Option<string>): string {
    match o
    case None => "None"
    case Some(s) => s
  }

  /** The error for a table the catalog does not describe: it names the
      table right after "Error: The table " and ends with the listing. */
  function UnknownTable(tableName: string, names: seq<string>): (r: string)
    ensures StartsWith(r, ErrorTag)
    ensures StartsWith(r, ErrorTag + "The table " + tableName)
    ensures EndsWith(r, " doesn't exist. Valid tables: " + ListRepr(names))
  {
    ErrorTag + "The table " + tableName + " doesn't exist. Valid tables: " + ListRepr(names)
  }

  /** The error for a column the catalog does not describe: it names the
      column right after "Error: The column ", then the table, and ends with
      the listing. */
  function UnknownColumn(column: Option<string>, tableName: string, columns: seq<string>): (r: string)
    ensures StartsWith(r, ErrorTag)
    ensures StartsWith(r, ErrorTag + "The column " + OptionText(column))
    ensures OccursAt(r, " isn't in the " + tableName + " table.", |ErrorTag + "The column " + OptionText(column)|)
    ensures EndsWith(r, " table. Valid columns: " + ListRepr(columns))
  {
    var head := ErrorTag + "The column " + OptionText(column);
    var middle := " isn't in the " + tableName + " table.";
    var tail := " Valid columns: " + ListRepr(columns);
    assert head + " isn't in the " + tableName + " table. Valid columns: " + ListRepr(columns) == head + middle + tail;
    head + middle + tail
  }

  /** The column argument: only a call with exactly two arguments names one. */
  function ColumnArgument(args: seq<string>): (column: Option<string>)
    ensures column.Some? <==> |args| == 2
    ensures column.Some? ==> column.value == args[1]
  {
    if |args| == 2 then Some(args[1]) else None
  }

  /** `analyze_column(column, common_limit=2).most_common`, values only: the
      most frequent values of the column, at most two, most frequent first. */
  function TopValues(db: Db, tableName: string, column: string): (r: seq<Value>)
    ensures |r| == Min(CommonLimit, |db.valueCounts(tableName, column)|)
    ensures forall i :: 0 <= i < |r| ==> r[i] == db.valueCounts(tableName, column)[i].0
  {
    var counts := db.valueCounts(tableName, column);
    seq(Min(CommonLimit, |counts|), i requires 0 <= i < Min(CommonLimit, |counts|) => counts[i].0)
  }

  /** The column help: its description verbatim, then its common values. */
  function ColumnHelp(description: string, values: seq<Value>): (r: string)
    ensures StartsWith(r, description + " the top two values are: ")
    ensures EndsWith(r, Join(", ", values))
  {
    description + " the top two values are: " + Join(", ", values)
  }

  /** The `help` action, called with the argument list `args`, looking its
      descriptions up in `catalog`. */
  function HelpWith(catalog: HelpCatalog, db: Db, args: seq<string>): (r: Reply<string>)
    ensures |args| == 0 ==> r == Failure(NoArgumentError)
    ensures |args| > 0 && args[0] !in catalog ==> r == Failure(UnknownTable(args[0], Tables(db)))
    ensures |args| > 0 && args[0] in catalog && |args| != 2 ==> r == Success(catalog[args[0]].table)
    ensures |args| == 2 && args[0] in catalog && args[1] !in catalog[args[0]].columns ==>
      r == Failure(UnknownColumn(Some(args[1]), args[0], VisibleColumns(db, args[0])))
    ensures |args| == 2 && args[0] in catalog && args[1] in catalog[args[0]].columns ==>
      r == Success(ColumnHelp(catalog[args[0]].columns[args[1]], TopValues(db, args[0], args[1])))
  {
    if |args| == 0 then
      Failure(NoArgumentError)
    else
      var tableName := args[0];
      var column := ColumnArgument(args);
      if tableName !in catalog then
        Failure(UnknownTable(tableName, Tables(db)))
      else if !catalog[tableName].Has(column) then
        Failure(UnknownColumn(column, tableName, VisibleColumns(db, tableName)))
      else
        var helpText := catalog[tableName].Get(column);
        if column.None? then
          Success(helpText)
        else
          Success(ColumnHelp(helpText, TopValues(db, tableName, column.value)))
  }

  /** The `help` action over the application's catalog `DATA_HELP`. Its
      every error starts with "Error: ", and a success needs a described table. */
  function Help(db: Db, args: seq<string>): (r: Reply<string>)
    ensures |args| == 0 ==> r == Failure(NoArgumentError)
    ensures |args| > 0 && args[0] !in DataHelp ==> r == Failure(UnknownTable(args[0], Tables(db)))
    ensures |args| > 0 && args[0] in DataHelp && |args| != 2 ==> r == Success(DataHelp[args[0]].table)
    ensures r.Failure? ==> StartsWith(r.message, ErrorTag)
    ensures r.Success? ==> |args| > 0 && args[0] in DataHelp
  {
    HelpWith(DataHelp, db, args)
  }

  /** Only the table is looked at when the call does not have exactly two
      arguments: three or more arguments act like the first alone. */
  lemma HelpIgnoresExtraArguments(catalog: HelpCatalog, db: Db, args: seq<string>)
    requires |args| >= 3
    ensures HelpWith(catalog, db, args) == HelpWith(catalog, db, [args[0]])
  {
  }

  /** A described column gets its description, then "the top two values
      are: " and at most two values joined by ", ". */
  lemma HelpColumnShape(catalog: HelpCatalog, db: Db, tableName: string, column: string)
    requires tableName in catalog && column in catalog[tableName].columns
    ensures var vs := TopValues(db, tableName, column);
      var prefix := catalog[tableName].columns[column] + " the top two values are: ";
      && |vs| <= 2
      && (|vs| == 0 ==> HelpWith(catalog, db, [tableName, column]) == Success(prefix))
      && (|vs| == 1 ==> HelpWith(catalog, db, [tableName, column]) == Success(prefix + vs[0]))
      && (|vs| == 2 ==> HelpWith(catalog, db, [tableName, column]) == Success(prefix + vs[0] + ", " + vs[1]))
  {
    var vs := TopValues(db, tableName, column);
    var prefix := catalog[tableName].columns[column] + " the top two values are: ";
    JoinUpToTwo(", ", vs);
    assert HelpWith(catalog, db, [tableName, column]) == Success(prefix + Join(", ", vs));
    if |vs| == 0 {
      assert prefix + Join(", ", vs) == prefix;
    } else if |vs| == 2 {
      assert prefix + Join(", ", vs) == prefix + vs[0] + ", " + vs[1];
    }
  }

  // ---------------------------------------------------------------- sql_query

  const SelectStarError := ErrorTag + "Select some specific columns, not *"

  const QueryErrorPrefix := "Your query has an error: "

  /** How many rows `sql_query` returns at most. */
  const RowLimit := 5

  /** The guard of `sql_query`: the lower-cased query starts with "select *",
      that is, its first eight characters fold to those of "select *". */
  predicate SelectsStar(query: string): (r: bool)
    ensures r <==> |query| >= 8 && forall i :: 0 <= i < 8 ==> LowerChar(query[i]) == "select *"[i]
  {
    StartsWith(Lower(query), "select *")
  }

  /** A row copied key by key, as `{k: v for k, v in r.items()}` does. */
  function CopyRow(row: Row): (r: Row)
    ensures r == row
  {
    map k | k in row :: row[k]
  }

  /** `clean_truncate(results, n)`: the first `n` rows, each copied unchanged. */
  function CleanTruncate(results: seq<Row>, n: nat := 3): (r: seq<Row>)
    ensures |r| == Min(n, |results|)
    ensures forall i :: 0 <= i < |r| ==> r[i] == results[i]
  {
    seq(Min(n, |results|), i requires 0 <= i < Min(n, |results|) => CopyRow(results[i]))
  }

  /** The `sql_query` action. */
  function SqlQuery(db: Db, query: string): (r: Reply<seq<Row>>)
    ensures SelectsStar(query) ==> r == Failure(SelectStarError)
    ensures !SelectsStar(query) && db.query(query).OperationalError? ==>
      r == Failure(QueryErrorPrefix + db.query(query).message)
    ensures !SelectsStar(query) && db.query(query).Rows? ==>
      && r.Success?
      && |r.value| == Min(RowLimit, |db.query(query).rows|)
      && r.value == db.query(query).rows[..|r.value|]
    ensures r.Success? ==> |r.value| <= RowLimit
  {
    if SelectsStar(query) then
      Failure(SelectStarError)
    else
      match db.query(query)
      case OperationalError(message) => Failure(QueryErrorPrefix + message)
      case Rows(rows) =>
        var kept := CleanTruncate(rows, RowLimit);
        assert kept == rows[..|kept|];
        Success(kept)
  }

  /** The select-star error comes from the guard alone: an engine error
      always reads differently. */
  lemma SelectStarErrorIffGuard(db: Db, query: string)
    ensures SqlQuery(db, query) == Failure(SelectStarError) <==> SelectsStar(query)
  {
    if !SelectsStar(query) && db.query(query).OperationalError? {
      assert (QueryErrorPrefix + db.query(query).message)[0] != SelectStarError[0];
    }
  }

  /** The guard reads only the first eight characters, ignoring their case. */
  lemma SelectsStarOnPrefix(query: string)
    ensures SelectsStar(query) <==> |query| >= 8 && Lower(query[..8]) == "select *"
  {
    if |query| >= 8 {
      assert Lower(query)[..8] == Lower(query[..8]);
    }
  }

  /** Two queries that agree up to letter case are both rejected or both not. */
  lemma SelectsStarIgnoresCase(q1: string, q2: string)
    requires |q1| == |q2|
    requires forall i :: 0 <= i < |q1| ==> LowerChar(q1[i]) == LowerChar(q2[i])
    ensures SelectsStar(q1) <==> SelectsStar(q2)
  {
    assert Lower(q1) == Lower(q2);
  }

  /** The guard is an exact prefix test: upper case is caught, but a leading
      space or a second space before the star lets the query through. */
  lemma SelectsStarExamples()
    ensures SelectsStar("SELECT * FROM user")
    ensures !SelectsStar(" select * from user")
    ensures !SelectsStar("select  * from user")
    ensures !SelectsStar("select id from user")
  {
    assert Lower("SELECT * FROM user")[..8] == "select *";
    assert Lower(" select * from user")[0] == ' ';
    assert Lower("select  * from user")[7] == ' ';
    assert Lower("select id from user")[7] == 'i';
  }
}
