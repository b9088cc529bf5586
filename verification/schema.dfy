/**
 * The schema introspection tool: it reads the catalog of the SQLite
 * database and renders every user table, its columns and its foreign keys
 * as text for a language model.
 *
 * The engine is not modelled. What it answers to the catalog queries is a
 * `Catalog` value: the table list, which names count as internal tables, and
 * the rows of `PRAGMA table_info` and `PRAGMA foreign_key_list` per table,
 * each of which may fail.
 */
module SchemaIntrospection {
  import opened Wrappers
  import opened Text

  /** A row of `PRAGMA table_info`: its fields 1 (name), 2 (type), 3 (notnull) and 5 (pk). */
  datatype Column = Column(name: string, declType: string, notNull: int, pk: int)

  /**
   * A row of `PRAGMA foreign_key_list`: its fields 2 (referenced table),
   * 3 (local column) and 4 (referenced column, NULL when the constraint
   * names no column).
   */
  datatype ForeignKey = ForeignKey(refTable: string, fromColumn: string, toColumn: Option<string>)

  /** A user table as the catalog describes it. */
  datatype Table = Table(name: string, columns: seq<Column>, foreignKeys: seq<ForeignKey>)

  /** The engine's answers to the catalog queries the tool issues. */
  datatype Catalog = Catalog(
    /** `SELECT name FROM sqlite_master WHERE type='table'`, in catalog order */
    tableNames: Result<seq<string>>,
    /** the `name LIKE 'sqlite_%'` test that excludes internal tables */
    isSystemTable: string -> bool,
    tableInfo: string -> Result<seq<Column>>,
    foreignKeyList: string -> Result<seq<ForeignKey>>)

  /**
   * The text returned when the database has no user table. This constant and
   * the next are written as two literals so that the verifier can read their
   * first characters, which tell them apart; it does not look inside one
   * long literal.
   */
  const NoTablesMessage := "No " + "user-defined tables found in the database."

  /** What precedes the error message when reading the catalog raises. */
  const FailurePrefix := "Schema " + "introspection failed: "

  /** The table names the query keeps: those that are not internal, in catalog order. */
  function WithoutSystemTables(names: seq<string>, isSystemTable: string -> bool): (r: seq<string>)
    ensures forall n :: n in r <==> n in names && !isSystemTable(n)
    ensures |r| <= |names|
  {
    if names == [] then []
    else if isSystemTable(names[0]) then WithoutSystemTables(names[1..], isSystemTable)
    else [names[0]] + WithoutSystemTables(names[1..], isSystemTable)
  }

  /**
   * The filter keeps catalog order: the names kept from a concatenation are
   * those kept from each side, in turn.
   */
  lemma {:induction false} WithoutSystemTablesConcat(a: seq<string>, b: seq<string>, isSystemTable: string -> bool)
    ensures WithoutSystemTables(a + b, isSystemTable) ==
      WithoutSystemTables(a, isSystemTable) + WithoutSystemTables(b, isSystemTable)
    decreases |a|
  {
    if a == [] {
      assert a + b == b;
    } else {
      assert (a + b)[0] == a[0] && (a + b)[1..] == a[1..] + b;
      WithoutSystemTablesConcat(a[1..], b, isSystemTable);
    }
  }

  /** The fixed pieces of the column and foreign-key lines. */
  const Bullet := "- "
  const PrimaryKeyWords := "PRIMARY KEY"
  const NotNullWords := "NOT NULL"
  const PrimaryKeyMarker := " " + PrimaryKeyWords
  const NotNullMarker := " " + NotNullWords
  const ForeignKeyBullet := "- FOREIGN KEY: `"
  const Arrow := "` \U{2192} `"

  /** Python's `str()` of a value that may be `None`. */
  function ToText(v: Option<string>): string
  {
    match v
    case None => "None"
    case Some(s) => s
  }

  /** The markers a column line carries: primary key first, then not-null. */
  function Markers(c: Column): string
  {
    (if c.pk != 0 then PrimaryKeyMarker else "") + (if c.notNull != 0 then NotNullMarker else "")
  }

  /** The constraint words joined by single spaces, empty ones dropped. */
  function Constraints(c: Column): (r: string)
    ensures r == "" <==> c.pk == 0 && c.notNull == 0
    ensures r != "" ==> r[|r| - 1] !in Whitespace && " " + r == Markers(c)
  {
    var isPk := if c.pk != 0 then PrimaryKeyWords else "";
    var isNotNull := if c.notNull != 0 then NotNullWords else "";
    NonEmptyPair(isPk, isNotNull);
    assert PrimaryKeyWords[10] == 'Y' && NotNullWords[7] == 'L';
    if c.pk != 0 && c.notNull != 0 then
      JoinSmall(" ", isPk, isNotNull);
      Join(" ", NonEmpty([isPk, isNotNull]))
    else
      JoinSmall(" ", isPk + isNotNull, "");
      Join(" ", NonEmpty([isPk, isNotNull]))
  }

  /** `Strip` of a column line removes only the blank left when there is no constraint. */
  lemma StripColumnLine(head: string, constraints: string)
    requires head != [] && head[0] == '-' && head[|head| - 1] == ')'
    requires constraints == [] || constraints[|constraints| - 1] !in Whitespace
    ensures Strip(head + " " + constraints) == if constraints == [] then head else head + " " + constraints
  {
    var s := head + " " + constraints;
    if constraints == [] {
      assert s[..|s| - 1] == head;
      StripCharsUnique(s, Whitespace, 0, |s| - 1);
    } else {
      assert s[..|s|] == s;
      StripCharsUnique(s, Whitespace, 0, |s|);
    }
  }

  /**
   * The line for one column: name and declared type, then ` PRIMARY KEY`
   * exactly when pk is non-zero and ` NOT NULL` exactly when notnull is
   * non-zero, with no trailing blank.
   */
  function ColumnLine(c: Column): string
  {
    Bullet + c.name + " (" + c.declType + ")" + Markers(c)
  }

  /**
   * The column line as the tool formats it: the constraint words after a
   * blank, and the whole line stripped of surrounding whitespace. It is the
   * line `ColumnLine` describes.
   */
  function FormatColumnLine(c: Column): (r: string)
    ensures r == ColumnLine(c)
  {
    var head := Bullet + c.name + " (" + c.declType + ")";
    var constraints := Constraints(c);
    StripColumnLine(head, constraints);
    Strip(head + " " + constraints)
  }

  /** The referenced column as the foreign-key line ends: a dot, the column, a backquote. */
  function ReferencedColumn(fk: ForeignKey): string
  {
    "." + ToText(fk.toColumn) + "`"
  }

  /**
   * The line for one foreign key: the bullet, the local column, the arrow,
   * the referenced table and then the referenced column, which ends the line.
   */
  function ForeignKeyLine(fk: ForeignKey): (r: string)
    ensures |r| == |ForeignKeyBullet| + |fk.fromColumn| + |Arrow| + |fk.refTable| + |ReferencedColumn(fk)|
    ensures OccursAt(r, ForeignKeyBullet, 0)
    ensures OccursAt(r, fk.fromColumn, |ForeignKeyBullet|)
    ensures OccursAt(r, Arrow, |ForeignKeyBullet| + |fk.fromColumn|)
    ensures OccursAt(r, fk.refTable, |ForeignKeyBullet| + |fk.fromColumn| + |Arrow|)
    ensures OccursAt(r, ReferencedColumn(fk), |ForeignKeyBullet| + |fk.fromColumn| + |Arrow| + |fk.refTable|)
  {
    var target := ReferencedColumn(fk);
    OccursInFive(ForeignKeyBullet, fk.fromColumn, Arrow, fk.refTable, target);
    ForeignKeyBullet + fk.fromColumn + Arrow + fk.refTable + target
  }

  /** The column lines of a table, in `PRAGMA table_info` order. */
  function ColumnLines(columns: seq<Column>): (r: seq<string>)
    ensures |r| == |columns| && forall k :: 0 <= k < |r| ==> r[k] == ColumnLine(columns[k])
  {
    seq(|columns|, k requires 0 <= k < |columns| => ColumnLine(columns[k]))
  }

  /** The foreign-key lines of a table, in `PRAGMA foreign_key_list` order. */
  function ForeignKeyLines(fks: seq<ForeignKey>): (r: seq<string>)
    ensures |r| == |fks| && forall k :: 0 <= k < |r| ==> r[k] == ForeignKeyLine(fks[k])
  {
    seq(|fks|, k requires 0 <= k < |fks| => ForeignKeyLine(fks[k]))
  }

  function Header(name: string): string
  {
    "Table `" + name + "`:\n"
  }

  /** The section of one table: its header, then its lines, one per line. */
  function Section(t: Table): string
  {
    Header(t.name) + Join("\n", ColumnLines(t.columns) + ForeignKeyLines(t.foreignKeys))
  }

  /**
   * Every column line comes before every foreign-key line: the section is the
   * header, the column lines, and then the foreign-key lines.
   */
  lemma SectionLayout(t: Table)
    ensures Section(t) ==
      Header(t.name) + Join("\n", ColumnLines(t.columns)) +
      (if t.columns != [] && t.foreignKeys != [] then "\n" else "") +
      Join("\n", ForeignKeyLines(t.foreignKeys))
  {
    JoinConcatAfter(Header(t.name), "\n", ColumnLines(t.columns), ForeignKeyLines(t.foreignKeys));
  }

  /** The sections of the tables, in catalog order. */
  function Sections(tables: seq<Table>): (r: seq<string>)
    ensures |r| == |tables| && forall k :: 0 <= k < |r| ==> r[k] == Section(tables[k])
  {
    seq(|tables|, k requires 0 <= k < |tables| => Section(tables[k]))
  }

  /**
   * The schema text: the sections joined by blank lines, or the sentinel when
   * there is no table. It is never empty, and it is the sentinel only for no
   * table.
   */
  function RenderSchema(tables: seq<Table>): (r: string)
    ensures r != ""
    ensures r == NoTablesMessage <==> tables == []
  {
    if tables == [] then NoTablesMessage
    else
      var r := Join("\n\n", Sections(tables));
      JoinAt("\n\n", Sections(tables), 0);
      assert r[..7] == "Table `";
      assert r[1] == 'a' && NoTablesMessage[1] == 'o';
      r
  }

  /** One section per table, in catalog order, separated by blank lines. */
  lemma RenderSchemaSection(tables: seq<Table>, i: int)
    requires 0 <= i < |tables|
    ensures RenderSchema(tables) ==
      Join("\n\n", Sections(tables[..i])) + (if i > 0 then "\n\n" else "") + Section(tables[i]) +
      (if i + 1 < |tables| then "\n\n" else "") + Join("\n\n", Sections(tables[i + 1..]))
  {
    var all := Sections(tables);
    JoinAt("\n\n", all, i);
    assert all[..i] == Sections(tables[..i]);
    assert all[i + 1..] == Sections(tables[i + 1..]);
  }

  /** Reading one table: `PRAGMA table_info` first, then `PRAGMA foreign_key_list`. */
  function ReadTable(catalog: Catalog, name: string): (r: Result<Table>)
    ensures r.Success? <==> catalog.tableInfo(name).Success? && catalog.foreignKeyList(name).Success?
    ensures r.Success? ==> r.value == Table(name, catalog.tableInfo(name).value, catalog.foreignKeyList(name).value)
    ensures r.Failure? ==>
      r.error == if catalog.tableInfo(name).Failure? then catalog.tableInfo(name).error
                 else catalog.foreignKeyList(name).error
  {
    match catalog.tableInfo(name)
    case Failure(e) => Failure(e)
    case Success(columns) =>
      match catalog.foreignKeyList(name)
      case Failure(e) => Failure(e)
      case Success(fks) => Success(Table(name, columns, fks))
  }

  /**
   * Reading the tables in order: it succeeds exactly when every read does,
   * giving one table per name in the same order, and otherwise fails with
   * the error of the first read that fails.
   */
  function ReadTables(catalog: Catalog, names: seq<string>): (r: Result<seq<Table>>)
    ensures r.Success? <==> forall k :: 0 <= k < |names| ==> ReadTable(catalog, names[k]).Success?
    ensures r.Success? ==>
      |r.value| == |names| && forall k :: 0 <= k < |names| ==> ReadTable(catalog, names[k]) == Success(r.value[k])
    ensures r.Failure? ==>
      exists k :: 0 <= k < |names| && ReadTable(catalog, names[k]) == Failure(r.error) &&
        forall m :: 0 <= m < k ==> ReadTable(catalog, names[m]).Success?
    decreases |names|
  {
    if names == [] then Success([])
    else
      var init, last := names[..|names| - 1], names[|names| - 1];
      assert forall k :: 0 <= k < |init| ==> init[k] == names[k];
      match ReadTables(catalog, init)
      case Failure(e) => Failure(e)
      case Success(done) =>
        match ReadTable(catalog, last)
        case Failure(e) =>
          assert ReadTable(catalog, names[|names| - 1]) == Failure(e);
          Failure(e)
        case Success(t) => Success(done + [t])
  }

  /**
   * `introspect_schema`: the rendered schema of the user tables, the
   * sentinel when there is none, and the failure text when a catalog read
   * raises.
   */
  function IntrospectSchema(catalog: Catalog): (r: string)
    ensures r != ""
    ensures r == NoTablesMessage <==>
      catalog.tableNames.Success? && WithoutSystemTables(catalog.tableNames.value, catalog.isSystemTable) == []
  {
    assert NoTablesMessage[0] == 'N' && FailurePrefix[0] == 'S';
    match catalog.tableNames
    case Failure(e) =>
      assert (FailurePrefix + e)[0] == 'S';
      FailurePrefix + e
    case Success(all) =>
      var names := WithoutSystemTables(all, catalog.isSystemTable);
      if names == [] then NoTablesMessage
      else
        match ReadTables(catalog, names)
        case Failure(e) =>
          assert (FailurePrefix + e)[0] == 'S';
          FailurePrefix + e
        case Success(tables) => RenderSchema(tables)
  }

  /**
   * What `introspect_schema` returns, told by the reads of the listed user
   * tables: the failure text when listing the tables raises, the failure
   * text of the first table whose read raises, and, when every read
   * succeeds, the sections of the tables as read, one per listed name in
   * catalog order, separated by blank lines.
   */
  lemma IntrospectSchemaCases(catalog: Catalog)
    ensures catalog.tableNames.Failure? ==> IntrospectSchema(catalog) == FailurePrefix + catalog.tableNames.error
    ensures catalog.tableNames.Success? ==>
      var names := WithoutSystemTables(catalog.tableNames.value, catalog.isSystemTable);
      forall k ::
        0 <= k < |names| && ReadTable(catalog, names[k]).Failure? &&
        (forall m :: 0 <= m < k ==> ReadTable(catalog, names[m]).Success?) ==>
        IntrospectSchema(catalog) == FailurePrefix + ReadTable(catalog, names[k]).error
    ensures catalog.tableNames.Success? ==>
      var names := WithoutSystemTables(catalog.tableNames.value, catalog.isSystemTable);
      names != [] && (forall k :: 0 <= k < |names| ==> ReadTable(catalog, names[k]).Success?) ==>
        IntrospectSchema(catalog) == Join("\n\n", seq(|names|, k requires 0 <= k < |names| && ReadTable(catalog, names[k]).Success? =>
          Section(ReadTable(catalog, names[k]).value)))
  {
    match catalog.tableNames
    case Failure(_) =>
    case Success(all) =>
      var names := WithoutSystemTables(all, catalog.isSystemTable);
      forall k | 0 <= k < |names| && ReadTable(catalog, names[k]).Failure? &&
        (forall m :: 0 <= m < k ==> ReadTable(catalog, names[m]).Success?)
        ensures IntrospectSchema(catalog) == FailurePrefix + ReadTable(catalog, names[k]).error
      {
        IntrospectSchemaReadFails(catalog, names, k);
      }
      if names != [] && forall k :: 0 <= k < |names| ==> ReadTable(catalog, names[k]).Success? {
        IntrospectSchemaReadsSucceed(catalog, names);
      }
  }

  /** The first table whose read raises decides the failure text. */
  lemma IntrospectSchemaReadFails(catalog: Catalog, names: seq<string>, k: int)
    requires catalog.tableNames.Success?
    requires names == WithoutSystemTables(catalog.tableNames.value, catalog.isSystemTable)
    requires 0 <= k < |names| && ReadTable(catalog, names[k]).Failure?
    requires forall m :: 0 <= m < k ==> ReadTable(catalog, names[m]).Success?
    ensures IntrospectSchema(catalog) == FailurePrefix + ReadTable(catalog, names[k]).error
  {
    assert forall m :: 0 <= m < k ==> names[..k][m] == names[m];
    ReadTablesStopsAt(catalog, names, k);
  }

  /** When every read succeeds, the text is the sections of the tables as read. */
  lemma IntrospectSchemaReadsSucceed(catalog: Catalog, names: seq<string>)
    requires catalog.tableNames.Success?
    requires names == WithoutSystemTables(catalog.tableNames.value, catalog.isSystemTable)
    requires names != [] && forall k :: 0 <= k < |names| ==> ReadTable(catalog, names[k]).Success?
    ensures IntrospectSchema(catalog) == Join("\n\n", seq(|names|, k requires 0 <= k < |names| && ReadTable(catalog, names[k]).Success? =>
      Section(ReadTable(catalog, names[k]).value)))
  {
    var tables := ReadTables(catalog, names).value;
    assert Sections(tables) == seq(|names|, k requires 0 <= k < |names| && ReadTable(catalog, names[k]).Success? =>
      Section(ReadTable(catalog, names[k]).value));
  }

  /**
   * When the reads before position `i` succeed and the read of table `i`
   * fails, reading all the tables fails with that read's error.
   */
  lemma ReadTablesStopsAt(catalog: Catalog, names: seq<string>, i: int)
    requires 0 <= i < |names|
    requires ReadTables(catalog, names[..i]).Success?
    requires ReadTable(catalog, names[i]).Failure?
    ensures ReadTables(catalog, names) == Failure(ReadTable(catalog, names[i]).error)
  {
    var before := ReadTables(catalog, names[..i]);
    forall m | 0 <= m < i
      ensures ReadTable(catalog, names[m]).Success?
    {
      assert names[..i][m] == names[m];
    }
  }

  /** The inner loop over the rows of `PRAGMA table_info`. */
  method CollectColumnLines(columns: seq<Column>) returns (colLines: seq<string>)
    ensures colLines == ColumnLines(columns)
  {
    colLines := [];
    for j := 0 to |columns|
      invariant colLines == ColumnLines(columns[..j])
    {
      colLines := colLines + [FormatColumnLine(columns[j])];
    }
    assert columns[..|columns|] == columns;
  }

  /** The inner loop over the rows of `PRAGMA foreign_key_list`. */
  method CollectForeignKeyLines(fks: seq<ForeignKey>) returns (fkLines: seq<string>)
    ensures fkLines == ForeignKeyLines(fks)
  {
    fkLines := [];
    for j := 0 to |fks|
      invariant fkLines == ForeignKeyLines(fks[..j])
    {
      fkLines := fkLines + [ForeignKeyLine(fks[j])];
    }
    assert fks[..|fks|] == fks;
  }

  /**
   * The body of the loop over the tables, for one table: its columns, its
   * foreign keys, and its section, or the error of the read that fails.
   */
  method RenderTableSection(catalog: Catalog, tableName: string) returns (section: Result<string>)
    ensures ReadTable(catalog, tableName).Failure? ==> section == Failure(ReadTable(catalog, tableName).error)
    ensures ReadTable(catalog, tableName).Success? ==> section == Success(Section(ReadTable(catalog, tableName).value))
  {
    var columns := catalog.tableInfo(tableName);
    if columns.Failure? {
      return Failure(columns.error);
    }
    var colLines := CollectColumnLines(columns.value);
    var fks := catalog.foreignKeyList(tableName);
    if fks.Failure? {
      return Failure(fks.error);
    }
    var fkLines := CollectForeignKeyLines(fks.value);
    return Success(Header(tableName) + Join("\n", colLines + fkLines));
  }

  /** One more successful read extends the tables read so far by that table. */
  lemma ReadTablesExtend(catalog: Catalog, names: seq<string>, i: int, read: seq<Table>)
    requires 0 <= i < |names|
    requires ReadTables(catalog, names[..i]) == Success(read)
    requires ReadTable(catalog, names[i]).Success?
    ensures ReadTables(catalog, names[..i + 1]) == Success(read + [ReadTable(catalog, names[i]).value])
  {
    assert names[..i + 1][..i] == names[..i] && names[..i + 1][i] == names[i];
  }

  /** The sections of one more table are the sections so far and its own. */
  lemma SectionsAppend(read: seq<Table>, t: Table)
    ensures Sections(read + [t]) == Sections(read) + [Section(t)]
  {
  }

  /** When every user table reads, the tool returns the rendering of the tables read. */
  lemma IntrospectSchemaRendered(catalog: Catalog, read: seq<Table>)
    requires catalog.tableNames.Success?
    requires WithoutSystemTables(catalog.tableNames.value, catalog.isSystemTable) != []
    requires ReadTables(catalog, WithoutSystemTables(catalog.tableNames.value, catalog.isSystemTable)) == Success(read)
    ensures IntrospectSchema(catalog) == Join("\n\n", Sections(read))
  {
  }

  /**
   * The tool as written: the table query, the early return for no table,
   * and the loop over the tables that collects their sections; a failing
   * read ends it with the failure text.
   */
  method IntrospectSchemaLoop(catalog: Catalog) returns (text: string)
    ensures text == IntrospectSchema(catalog)
  {
    if catalog.tableNames.Failure? {
      return FailurePrefix + catalog.tableNames.error;
    }
    var tables := WithoutSystemTables(catalog.tableNames.value, catalog.isSystemTable);
    if tables == [] {
      return NoTablesMessage;
    }
    var fullSchema: seq<string> := [];
    ghost var read: seq<Table> := [];
    for i := 0 to |tables|
      invariant ReadTables(catalog, tables[..i]) == Success(read)
      invariant fullSchema == Sections(read)
    {
      var schemaSection := RenderTableSection(catalog, tables[i]);
      if schemaSection.Failure? {
        ReadTablesStopsAt(catalog, tables, i);
        return FailurePrefix + schemaSection.error;
      }
      ghost var t := ReadTable(catalog, tables[i]).value;
      ReadTablesExtend(catalog, tables, i, read);
      SectionsAppend(read, t);
      fullSchema := fullSchema + [schemaSection.value];
      read := read + [t];
    }
    assert tables[..|tables|] == tables;
    IntrospectSchemaRendered(catalog, read);
    return Join("\n\n", fullSchema);
  }
}
