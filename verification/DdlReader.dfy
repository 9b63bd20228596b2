/** The line-driven reader of CREATE TABLE and CREATE INDEX statements. What the text functions read out of a
    line is data here; the reader is the loop that updates the tables and the open table. */
module DdlReader {
  import opened SequenceDsl

  datatype ForeignKey = ForeignKey(column: string, refTable: string, refColumn: string)

  datatype Index = Index(name: string, columns: seq<string>, isUnique: bool)

  datatype Table = Table(
    columns: map<string, string>,
    columnOrder: seq<string>,
    foreignKeys: seq<ForeignKey>,
    indexes: seq<Index>,
    primaryKey: seq<string>)

  type Tables = map<string, Table>

  const NEW_TABLE := Table(map[], [], [], [], [])

  /** A trimmed line, in the order the reader tries the forms. */
  datatype Line =
    | CreateIndex(table: string, index: Option<Index>)
    | CreateTable(name: Option<string>)
    | Closing
    | Constraint(foreignKey: Option<ForeignKey>)
    | Primary(key: seq<string>)
    | Unique(columns: seq<string>)
    | Skipped
    | Column(column: string, goType: string, isPrimary: bool, isUnique: bool, reference: Option<ForeignKey>)

  /** The tables read so far and the table whose definition is open, "" when there is none. */
  datatype Reader = Reader(tables: Tables, current: string)

  function UniqueName(columns: seq<string>): string {
    "unique_" + Joined(columns)
  }

  function Joined(columns: seq<string>): string {
    if columns == [] then "" else if |columns| == 1 then columns[0] else columns[0] + "_" + Joined(columns[1..])
  }

  function WithIndex(tables: Tables, table: string, index: Index): Tables {
    if table in tables && index.columns != [] then tables[table := tables[table].(indexes := tables[table].indexes + [index])] else tables
  }

  function WithColumn(t: Table, c: Line): Table
    requires c.Column?
  {
    t.(columns := t.columns[c.column := c.goType],
       columnOrder := t.columnOrder + [c.column],
       primaryKey := if c.isPrimary then t.primaryKey + [c.column] else t.primaryKey,
       indexes := if c.isUnique then t.indexes + [Index(c.column + "_unique", [c.column], true)] else t.indexes,
       foreignKeys := if c.reference.Some? then t.foreignKeys + [c.reference.value] else t.foreignKeys)
  }

  /** What a line inside an open table does to the table. */
  function Inside(t: Table, line: Line): Table {
    match line
    case Constraint(Some(fk)) => t.(foreignKeys := t.foreignKeys + [fk])
    case Primary(key) => t.(primaryKey := key)
    case Unique(columns) =>
      if columns == [] then t else t.(indexes := t.indexes + [Index(UniqueName(columns), columns, true)])
    case Column(_, _, _, _, _) => WithColumn(t, line)
    case _ => t
  }

  /** One line. A CREATE TABLE line without a name leaves the open table as it is. */
  function Step(r: Reader, line: Line): Reader {
    match line
    case CreateIndex(table, index) => if index.None? then r else r.(tables := WithIndex(r.tables, table, index.value))
    case CreateTable(name) => if name.None? then r else Reader(r.tables[name.value := NEW_TABLE], name.value)
    case _ =>
      if r.current == "" then r
      else if line.Closing? then r.(current := "")
      else if r.current in r.tables then r.(tables := r.tables[r.current := Inside(r.tables[r.current], line)])
      else r
  }

  function ReadFrom(r: Reader, lines: seq<Line>): Reader {
    if lines == [] then r else Step(ReadFrom(r, lines[..|lines| - 1]), lines[|lines| - 1])
  }

  /** Every file starts with no table open. */
  function Read(tables: Tables, lines: seq<Line>): Tables {
    ReadFrom(Reader(tables, ""), lines).tables
  }

  method AddColumn(tables: Tables, current: string, c: Line) returns (tables': Tables)
    requires c.Column?
    ensures tables' == if current in tables then tables[current := WithColumn(tables[current], c)] else tables
  {
    tables' := tables;
    if current in tables {
      var t := tables[current];
      t := t.(columns := t.columns[c.column := c.goType], columnOrder := t.columnOrder + [c.column]);
      if c.isPrimary {
        t := t.(primaryKey := t.primaryKey + [c.column]);
      }
      if c.isUnique {
        t := t.(indexes := t.indexes + [Index(c.column + "_unique", [c.column], true)]);
      }
      if c.reference.Some? {
        t := t.(foreignKeys := t.foreignKeys + [c.reference.value]);
      }
      tables' := tables[current := t];
    }
  }

  method AddDetail(tables: Tables, current: string, line: Line) returns (tables': Tables)
    requires line.Constraint? || line.Primary? || line.Unique?
    ensures tables' == if current in tables then tables[current := Inside(tables[current], line)] else tables
  {
    tables' := tables;
    if current in tables {
      var t := tables[current];
      if line.Constraint? {
        if line.foreignKey.Some? {
          t := t.(foreignKeys := t.foreignKeys + [line.foreignKey.value]);
        }
      } else if line.Primary? {
        t := t.(primaryKey := line.key);
      } else if |line.columns| > 0 {
        t := t.(indexes := t.indexes + [Index(UniqueName(line.columns), line.columns, true)]);
      }
      tables' := tables[current := t];
    }
  }

  /** parseDDLTables. */
  method ParseDDLTables(tables: Tables, lines: seq<Line>) returns (result: Tables)
    ensures result == Read(tables, lines)
  {
    result := tables;
    var current := "";
    for i := 0 to |lines|
      invariant Reader(result, current) == ReadFrom(Reader(tables, ""), lines[..i])
    {
      assert lines[..i + 1][..i] == lines[..i];
      var line := lines[i];
      if line.CreateIndex? {
        if line.index.Some? {
          result := WithIndex(result, line.table, line.index.value);
        }
        continue;
      }
      if line.CreateTable? {
        if line.name.Some? {
          current := line.name.value;
          result := result[current := NEW_TABLE];
        }
        continue;
      }
      if current == "" {
        continue;
      }
      if line.Closing? {
        current := "";
      } else if line.Column? {
        result := AddColumn(result, current, line);
      } else if !line.Skipped? {
        result := AddDetail(result, current, line);
      } else {
        assert current in result ==> result == result[current := result[current]];
      }
    }
    assert lines[..|lines|] == lines;
  }

  // ----- invariants -----

  /** The column order names exactly the keys of the column map. */
  ghost predicate OrderNamesColumns(t: Table) {
    forall c :: c in t.columns <==> c in t.columnOrder
  }

  ghost predicate Consistent(r: Reader) {
    && (forall name :: name in r.tables ==> OrderNamesColumns(r.tables[name]))
    && (r.current == "" || r.current in r.tables)
  }

  lemma ColumnKeepsOrder(t: Table, c: Line)
    requires OrderNamesColumns(t) && c.Column?
    ensures OrderNamesColumns(WithColumn(t, c))
  {
  }

  lemma StepKeepsConsistent(r: Reader, line: Line)
    requires Consistent(r)
    ensures Consistent(Step(r, line))
  {
    if line.Column? && r.current in r.tables {
      ColumnKeepsOrder(r.tables[r.current], line);
    }
  }

  /** After any number of lines every table's column order names exactly its columns, and the open table is
      none or one of the tables. */
  lemma {:induction false} ReadingIsConsistent(tables: Tables, lines: seq<Line>)
    requires forall name :: name in tables ==> OrderNamesColumns(tables[name])
    ensures Consistent(ReadFrom(Reader(tables, ""), lines))
  {
    if lines != [] {
      ReadingIsConsistent(tables, lines[..|lines| - 1]);
      StepKeepsConsistent(ReadFrom(Reader(tables, ""), lines[..|lines| - 1]), lines[|lines| - 1]);
    }
  }

  predicate Names(line: Line, table: string) {
    (line.CreateTable? && line.name == Some(table)) || (line.CreateIndex? && line.table == table)
  }

  /** A table that no line names is neither opened nor changed. */
  lemma {:induction false} UnnamedUnchanged(tables: Tables, lines: seq<Line>, table: string)
    requires table != "" && forall k :: 0 <= k < |lines| ==> !Names(lines[k], table)
    ensures var after := ReadFrom(Reader(tables, ""), lines);
            && after.current != table
            && (table in after.tables <==> table in tables)
            && (table in tables ==> after.tables[table] == tables[table])
  {
    if lines != [] {
      UnnamedUnchanged(tables, lines[..|lines| - 1], table);
    }
  }

  lemma {:induction false} ReadInTwoParts(r: Reader, a: seq<Line>, b: seq<Line>)
    ensures ReadFrom(r, a + b) == ReadFrom(ReadFrom(r, a), b)
  {
    if b == [] {
      assert a + b == a;
    } else {
      assert (a + b)[..|a + b| - 1] == a + b[..|b| - 1];
      ReadInTwoParts(r, a, b[..|b| - 1]);
    }
  }

  /** A schema may be split over files wherever no definition is open. */
  lemma SplitOverFiles(tables: Tables, a: seq<Line>, b: seq<Line>)
    requires ReadFrom(Reader(tables, ""), a).current == ""
    ensures Read(tables, a + b) == Read(Read(tables, a), b)
  {
    ReadInTwoParts(Reader(tables, ""), a, b);
  }

  /** A definition starts afresh: whatever the tables were and whatever was open, the lines of a complete
      definition give the table that they give on an empty schema, and leave every other table alone. */
  lemma DefinitionStartsAfresh(r: Reader, name: string, body: seq<Line>)
    requires name != "" && forall k :: 0 <= k < |body| ==> !body[k].CreateTable? && !body[k].CreateIndex? && !body[k].Closing?
    ensures var lines := [CreateTable(Some(name))] + body + [Closing];
            && ReadFrom(r, lines) == Reader(r.tables[name := FoldInside(NEW_TABLE, body)], "")
  {
    var begun := Reader(r.tables[name := NEW_TABLE], name);
    ReadInTwoParts(r, [CreateTable(Some(name))] + body, [Closing]);
    ReadInTwoParts(r, [CreateTable(Some(name))], body);
    assert [CreateTable(Some(name))][..0] == [] && [Closing][..0] == [];
    assert ReadFrom(r, [CreateTable(Some(name))]) == begun;
    BodyIsFold(begun, NEW_TABLE, body);
    assert r.tables[name := NEW_TABLE][name := FoldInside(NEW_TABLE, body)] == r.tables[name := FoldInside(NEW_TABLE, body)];
  }

  function FoldInside(t: Table, body: seq<Line>): Table {
    if body == [] then t else Inside(FoldInside(t, body[..|body| - 1]), body[|body| - 1])
  }

  lemma {:induction false} BodyIsFold(r: Reader, t: Table, body: seq<Line>)
    requires r.current != "" && r.current in r.tables && r.tables[r.current] == t
    requires forall k :: 0 <= k < |body| ==> !body[k].CreateTable? && !body[k].CreateIndex? && !body[k].Closing?
    ensures ReadFrom(r, body) == r.(tables := r.tables[r.current := FoldInside(t, body)])
  {
    if body == [] {
      assert r.tables[r.current := t] == r.tables;
    } else {
      BodyIsFold(r, t, body[..|body| - 1]);
      assert !body[|body| - 1].CreateTable?;
    }
  }
}
