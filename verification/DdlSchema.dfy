/** What a table definition says: the table that its lines give, part by part. */
module DdlSchema {
  import opened Text
  import opened SequenceDsl
  import opened LineText
  import opened DdlReader
  import opened DdlText

  // ----- the lines of a definition -----

  /** The columns, in the order of their lines. */
  function ColumnsOf(body: seq<Line>): seq<string> {
    if body == [] then []
    else
      var last := body[|body| - 1];
      ColumnsOf(body[..|body| - 1]) + (if last.Column? then [last.column] else [])
  }

  /** Line `k` is the last one for this column. */
  predicate LastFor(body: seq<Line>, k: nat, c: string) {
    && k < |body| && body[k].Column? && body[k].column == c
    && forall j :: k < j < |body| ==> !(body[j].Column? && body[j].column == c)
  }

  predicate Refers(line: Line, fk: ForeignKey) {
    line == Constraint(Some(fk)) || (line.Column? && line.reference == Some(fk))
  }

  predicate Indexes(line: Line, index: Index) {
    || (line.Unique? && line.columns != [] && index == Index("unique_" + Joined(line.columns), line.columns, true))
    || (line.Column? && line.isUnique && index == Index(line.column + "_unique", [line.column], true))
  }

  predicate NoKeyAfter(body: seq<Line>, k: int) {
    forall j :: k < j < |body| && 0 <= j ==> !body[j].Primary?
  }

  /** Line `k` puts the column into the key: as a key line, or marked as a key itself. */
  predicate Keys(line: Line, c: string) {
    (line.Primary? && c in line.key) || (line.Column? && line.isPrimary && line.column == c)
  }

  /** The last key line names the key anew; marked columns after it add to it. */
  predicate InKey(body: seq<Line>, c: string) {
    exists k :: 0 <= k < |body| && Keys(body[k], c) && NoKeyAfter(body, k)
  }

  // ----- the table they give -----

  function TableOf(body: seq<Line>): Table {
    FoldInside(NEW_TABLE, body)
  }

  lemma {:induction false} OrderGiven(body: seq<Line>)
    ensures TableOf(body).columnOrder == ColumnsOf(body)
  {
    if body != [] { OrderGiven(body[..|body| - 1]); }
  }

  lemma LastForFront(body: seq<Line>, k: nat, c: string)
    requires body != [] && !(body[|body| - 1].Column? && body[|body| - 1].column == c)
    ensures LastFor(body, k, c) <==> LastFor(body[..|body| - 1], k, c)
  {
    var front := body[..|body| - 1];
    assert forall j :: 0 <= j < |front| ==> front[j] == body[j];
  }

  lemma LastIsLast(body: seq<Line>, k: nat, c: string)
    requires body != [] && body[|body| - 1].Column? && body[|body| - 1].column == c
    ensures LastFor(body, k, c) <==> k == |body| - 1
  {
  }

  /** A column is in the table when it has a line, with the type of its last one. */
  lemma {:induction false} ColumnGiven(body: seq<Line>, c: string)
    ensures c in TableOf(body).columns <==> exists k: nat :: LastFor(body, k, c)
    ensures forall k: nat :: LastFor(body, k, c) ==> c in TableOf(body).columns && TableOf(body).columns[c] == body[k].goType
  {
    if body != [] {
      var front, last := body[..|body| - 1], body[|body| - 1];
      ColumnGiven(front, c);
      if last.Column? && last.column == c {
        forall k: nat { LastIsLast(body, k, c); }
        assert LastFor(body, |body| - 1, c);
      } else {
        forall k: nat { LastForFront(body, k, c); }
        ColumnKept(TableOf(front), last, c);
        if k: nat :| LastFor(front, k, c) {
          LastForFront(body, k, c);
          assert LastFor(body, k, c);
        }
        forall k: nat | LastFor(front, k, c) ensures body[k] == front[k] { }
      }
    }
  }

  lemma ColumnKept(t: Table, line: Line, c: string)
    requires !(line.Column? && line.column == c)
    ensures c in Inside(t, line).columns <==> c in t.columns
    ensures c in t.columns ==> Inside(t, line).columns[c] == t.columns[c]
  {
  }

  lemma {:induction false} ReferenceGiven(body: seq<Line>, fk: ForeignKey)
    ensures fk in TableOf(body).foreignKeys <==> exists k :: 0 <= k < |body| && Refers(body[k], fk)
  {
    if body != [] {
      var front, n := body[..|body| - 1], |body| - 1;
      ReferenceGiven(front, fk);
      ReferenceAdded(TableOf(front), body[n], fk);
      if k :| 0 <= k < |front| && Refers(front[k], fk) { assert Refers(body[k], fk); }
      if k :| 0 <= k < |body| && Refers(body[k], fk) { assert k < n ==> Refers(front[k], fk); }
    }
  }

  lemma ReferenceAdded(t: Table, line: Line, fk: ForeignKey)
    ensures fk in Inside(t, line).foreignKeys <==> fk in t.foreignKeys || Refers(line, fk)
  {
  }

  lemma {:induction false} IndexGiven(body: seq<Line>, index: Index)
    ensures index in TableOf(body).indexes <==> exists k :: 0 <= k < |body| && Indexes(body[k], index)
  {
    if body != [] {
      var front, n := body[..|body| - 1], |body| - 1;
      IndexGiven(front, index);
      IndexAdded(TableOf(front), body[n], index);
      if k :| 0 <= k < |front| && Indexes(front[k], index) { assert Indexes(body[k], index); }
      if k :| 0 <= k < |body| && Indexes(body[k], index) { assert k < n ==> Indexes(front[k], index); }
    }
  }

  lemma IndexAdded(t: Table, line: Line, index: Index)
    ensures index in Inside(t, line).indexes <==> index in t.indexes || Indexes(line, index)
  {
  }

  lemma {:induction false} KeyGiven(body: seq<Line>, c: string)
    ensures c in TableOf(body).primaryKey <==> InKey(body, c)
  {
    if body != [] {
      var front, last := body[..|body| - 1], body[|body| - 1];
      KeyGiven(front, c);
      if last.Primary? {
        KeyAnew(body, c);
      } else {
        KeyGrows(body, c);
      }
    }
  }

  lemma KeyAnew(body: seq<Line>, c: string)
    requires body != [] && body[|body| - 1].Primary?
    ensures InKey(body, c) <==> c in body[|body| - 1].key
  {
    var n := |body| - 1;
    assert NoKeyAfter(body, n) && (Keys(body[n], c) <==> c in body[n].key);
  }

  lemma KeyGrows(body: seq<Line>, c: string)
    requires body != [] && !body[|body| - 1].Primary?
    ensures InKey(body, c) <==> InKey(body[..|body| - 1], c) || Keys(body[|body| - 1], c)
  {
    var front, n := body[..|body| - 1], |body| - 1;
    if k :| 0 <= k < |front| && Keys(front[k], c) && NoKeyAfter(front, k) {
      KeyAfterFront(body, k);
      assert Keys(body[k], c);
    }
    if k :| 0 <= k < |body| && Keys(body[k], c) && NoKeyAfter(body, k) {
      if k < n {
        KeyAfterFront(body, k);
        assert Keys(front[k], c);
      }
    }
    if Keys(body[n], c) {
      assert NoKeyAfter(body, n);
    }
  }

  lemma KeyAfterFront(body: seq<Line>, k: nat)
    requires body != [] && !body[|body| - 1].Primary?
    ensures NoKeyAfter(body[..|body| - 1], k) <==> NoKeyAfter(body, k)
  {
    var front := body[..|body| - 1];
    if NoKeyAfter(front, k) {
      forall j | k < j < |body| ensures !body[j].Primary? {
        if j < |front| { assert front[j] == body[j]; }
      }
    }
  }

  /** A complete definition, whatever was read before: its table has exactly the columns of its lines, in their order
      and each with the type of its last line; the references and the unique indexes its lines state; and the primary
      key of its last key line with the columns marked after it. */
  lemma DefinitionGives(r: Reader, name: string, body: seq<Line>, c: string, fk: ForeignKey, index: Index)
    requires name != "" && forall k :: 0 <= k < |body| ==> !body[k].CreateTable? && !body[k].CreateIndex? && !body[k].Closing?
    ensures
      var after := ReadFrom(r, [CreateTable(Some(name))] + body + [Closing]);
      && after.current == "" && name in after.tables
      && var t := after.tables[name];
      && t.columnOrder == ColumnsOf(body)
      && (c in t.columns <==> exists k: nat :: LastFor(body, k, c))
      && (forall k: nat :: LastFor(body, k, c) ==> c in t.columns && t.columns[c] == body[k].goType)
      && (fk in t.foreignKeys <==> exists k :: 0 <= k < |body| && Refers(body[k], fk))
      && (index in t.indexes <==> exists k :: 0 <= k < |body| && Indexes(body[k], index))
      && (c in t.primaryKey <==> InKey(body, c))
  {
    DefinitionStartsAfresh(r, name, body);
    OrderGiven(body);
    ColumnGiven(body, c);
    ReferenceGiven(body, fk);
    IndexGiven(body, index);
    KeyGiven(body, c);
  }

  /** An index statement adds its index to the table it names, when that table was read and a column is named. */
  lemma IndexStatement(r: Reader, table: string, index: Index)
    ensures
      var after := Step(r, CreateIndex(table, Some(index)));
      && after.current == r.current && after.tables.Keys == r.tables.Keys
      && (forall t :: t in r.tables && (t != table || index.columns == []) ==> after.tables[t] == r.tables[t])
      && (table in r.tables && index.columns != [] ==>
            after.tables[table] == r.tables[table].(indexes := r.tables[table].indexes + [index]))
  {
  }

  // ----- the text of a column -----

  lemma {:induction false} FindExact(s: string, sub: string)
    ensures Find(s, sub) >= 0 <==> Occurs(sub, s)
  {
    if sub <= s {
      assert s[0..] == s;
    } else if s != "" {
      FindExact(s[1..], sub);
      if i :| 0 <= i <= |s[1..]| && sub <= s[1..][i..] {
        assert s[i + 1..] == s[1..][i..];
      }
      if i :| 0 <= i <= |s| && sub <= s[i..] {
        assert i > 0 && s[1..][i - 1..] == s[i..];
      }
    }
  }

  /** A line that starts like a column. */
  predicate IsPlain(line: string) {
    && line != "" && line[0] != ')'
    && !HasPrefix(Upper(line), "CREATE ") && !HasPrefix(Upper(line), "CONSTRAINT") && !HasPrefix(Upper(line), "FOREIGN")
    && !HasPrefix(Upper(line), "PRIMARY") && !HasPrefix(Upper(line), "UNIQUE") && !HasPrefix(Upper(line), "CHECK")
  }

  lemma NoCreate(upper: string)
    requires !HasPrefix(upper, "CREATE ")
    ensures !HasPrefix(upper, "CREATE INDEX") && !HasPrefix(upper, "CREATE UNIQUE INDEX") && !HasPrefix(upper, "CREATE TABLE")
  {
  }

  /** A column line: its first word is the column, its second the type; it is a primary key when the line says PRIMARY
      KEY, and unique when it says UNIQUE and nothing of PRIMARY. */
  lemma ColumnReads(name: string, typ: string, rest: string, d: Details)
    requires NoSpace(name) && name != "" && NoSpace(typ) && typ != "" && Trimmed(rest) && rest != ""
    requires IsPlain(name + (" " + (typ + (" " + rest))))
    ensures
      var line := name + (" " + (typ + (" " + rest)));
      LineOf(line, d) ==
        Column(name, d.goType(TrimSuffix(Upper(typ), ',')), Occurs("PRIMARY KEY", Upper(line)),
               Occurs("UNIQUE", Upper(line)) && !Occurs("PRIMARY", Upper(line)), d.inline(name, [name, typ] + Fields(rest)))
  {
    var line := name + (" " + (typ + (" " + rest)));
    TwoWords(name, typ, rest);
    TwoWordsTrimmed(name, typ, rest);
    NoCreate(Upper(line));
    FindExact(Upper(line), "PRIMARY KEY");
    FindExact(Upper(line), "UNIQUE");
    FindExact(Upper(line), "PRIMARY");
    PlainIsColumn(line, d);
  }

  lemma PlainIsColumn(line: string, d: Details)
    requires Trim(line) == line && IsPlain(line)
    ensures LineOf(line, d) == ColumnLine(line, d)
  {
    NoCreate(Upper(line));
  }

  // ----- the text of an index -----

  lemma TrimTrailing(table: string)
    requires NoSpace(table) && table != ""
    ensures Trim(table + " ") == table
  {
    var s := table + " ";
    assert s[0] == table[0] && TrimLeft(s) == s;
    assert s[..|s| - 1] == table && TrimRight(table) == table;
  }

  /** `table (cols);` */
  function ClauseText(table: string, cols: string): string {
    table + " " + (['('] + (cols + ");"))
  }

  lemma ClauseCut(table: string, cols: string)
    requires NoSpace(table) && table != "" && '(' !in table
    ensures
      var clause := ClauseText(table, cols);
      && Trim(clause) == clause && '(' in clause && BeforeFirst(clause, '(') == table + " " && AfterFirst(clause, '(') == cols + ");"
  {
    var clause := ClauseText(table, cols);
    assert clause == (table + " ") + ['('] + (cols + ");");
    CutConcat(table + " ", '(', cols + ");");
    assert clause[|table| + 1] == '(';
    TrimmedJoin(table, " (" + cols, ");");
    assert clause == table + (" (" + cols) + ");";
    TrimTrimmed(clause);
  }

  lemma ColumnsCut(cols: string)
    requires Trimmed(cols) && cols != "" && cols[|cols| - 1] != ')'
    ensures TrimEnd(Trim(cols + ");")) == cols
  {
    var s := cols + ");";
    assert s[0] == cols[0] && s[|s| - 1] == ';';
    TrimTrimmed(s);
    assert s[|s| - 2..] == ");" && s[..|s| - 2] == cols;
  }

  lemma AfterOn(before: string, clause: string)
    ensures var line := before + (" ON " + clause); |line| == |before| + 4 + |clause| && line[|before| + 4..] == clause
  {
  }

  lemma ClauseIn(line: string, on: nat)
    requires on + 4 <= |line| && Find(Upper(line), " ON ") == on
    ensures OnClause(line) == Clause(line[on + 4..])
  {
  }

  lemma ClauseAt(before: string, clause: string)
    requires Trim(clause) == clause && '(' in clause
    requires Find(Upper(before + (" ON " + clause)), " ON ") == |before|
    ensures OnClause(before + (" ON " + clause)) == Some(clause)
  {
    AfterOn(before, clause);
    ClauseIn(before + (" ON " + clause), |before|);
  }

  /** The name of an index is the word after the first INDEX. */
  lemma {:induction false} IndexName(words: seq<string>, i: nat)
    requires i + 1 < |words| && Upper(words[i]) == "INDEX" && forall j :: 0 <= j < i ==> Upper(words[j]) != "INDEX"
    ensures IndexToken(words) == words[i + 1]
  {
    if i > 0 {
      IndexName(words[1..], i - 1);
    }
  }

  /** An index line: the word after INDEX, the table after ON, the columns in the parentheses, and unique when the line
      says UNIQUE. `before` is what stands in front of the first ON. */
  lemma IndexReads(before: string, table: string, cols: string, d: Details)
    requires NoSpace(table) && table != "" && '(' !in table && Trimmed(cols) && cols != "" && cols[|cols| - 1] != ')'
    requires before != "" && !IsSpace(before[0])
    requires Find(Upper(before + (" ON " + ClauseText(table, cols))), " ON ") == |before|
    requires
      var upper := Upper(before + (" ON " + ClauseText(table, cols)));
      HasPrefix(upper, "CREATE INDEX") || HasPrefix(upper, "CREATE UNIQUE INDEX")
    ensures
      var line := before + (" ON " + ClauseText(table, cols));
      LineOf(line, d) ==
        CreateIndex(table, Some(Index(IndexToken(Fields(before)), NonEmpty(Split(cols, ',')), Occurs("UNIQUE", Upper(line)))))
  {
    var clause := ClauseText(table, cols);
    var line := before + (" ON " + clause);
    ClauseCut(table, cols);
    ColumnsCut(cols);
    TrimTrailing(table);
    ClauseAt(before, clause);
    FindExact(Upper(line), "UNIQUE");
    assert line[..|before|] == before;
    LineTrimmed(before, clause);
    IndexLineOf(line, before, table, cols, clause);
  }

  lemma LineTrimmed(before: string, clause: string)
    requires before != "" && !IsSpace(before[0]) && clause != "" && !IsSpace(clause[|clause| - 1])
    ensures Trim(before + (" ON " + clause)) == before + (" ON " + clause)
  {
    var line := before + (" ON " + clause);
    assert line[0] == before[0] && line[|line| - 1] == clause[|clause| - 1];
    TrimTrimmed(line);
  }

  lemma IndexLineOf(line: string, before: string, table: string, cols: string, clause: string)
    requires OnClause(line) == Some(clause) && Find(Upper(line), " ON ") == |before| <= |line| && line[..|before|] == before
    requires Trim(BeforeFirst(clause, '(')) == table && TrimEnd(Trim(AfterFirst(clause, '('))) == cols
    ensures IndexLine(line) ==
      CreateIndex(table, Some(Index(IndexToken(Fields(before)), NonEmpty(Split(cols, ',')), Find(Upper(line), "UNIQUE") >= 0)))
  {
  }

  // ----- lists of names -----

  /** Names with a comma and a blank between them. */
  function Listed(names: seq<string>): string {
    if names == [] then "" else if |names| == 1 then names[0] else names[0] + ([','] + (" " + Listed(names[1..])))
  }

  predicate IsName(s: string) {
    s != "" && Trimmed(s) && ',' !in s && ')' !in s
  }

  lemma NameBack(pre: string, name: string)
    requires IsName(name) && (pre == "" || pre == " ")
    ensures Trim(pre + name) == name && ',' !in pre + name
  {
    if pre == " " { TrimSpaced(name); } else {
      assert pre + name == name;
      TrimTrimmed(name);
    }
  }

  lemma SplitAtComma(a: string, b: string)
    requires ',' !in a
    ensures Split(a + ([','] + b), ',') == [a] + Split(b, ',')
  {
    assert a + ([','] + b) == a + [','] + b;
    CutConcat(a, ',', b);
    assert (a + ([','] + b))[|a|] == ',';
  }

  lemma NonEmptyFirst(part: string, parts: seq<string>)
    requires Trim(part) != ""
    ensures NonEmpty([part] + parts) == [Trim(part)] + NonEmpty(parts)
  {
    assert ([part] + parts)[1..] == parts;
  }

  lemma OnlyName(part: string)
    requires ',' !in part && Trim(part) != ""
    ensures NonEmpty(Split(part, ',')) == [Trim(part)]
  {
    assert Split(part, ',') == [part] + [];
    NonEmptyFirst(part, []);
    assert NonEmpty([]) == [];
  }

  lemma NameAndMore(part: string, more: string, names: seq<string>)
    requires ',' !in part && Trim(part) != "" && NonEmpty(Split(more, ',')) == names
    ensures NonEmpty(Split(part + ([','] + more), ',')) == [Trim(part)] + names
  {
    SplitAtComma(part, more);
    NonEmptyFirst(part, Split(more, ','));
  }

  lemma ListedStep(pre: string, names: seq<string>)
    requires |names| > 1
    ensures pre + Listed(names) == (pre + names[0]) + ([','] + (" " + Listed(names[1..])))
  {
  }

  lemma {:induction false} NamesBackFrom(pre: string, names: seq<string>)
    requires names != [] && (forall i :: 0 <= i < |names| ==> IsName(names[i])) && (pre == "" || pre == " ")
    ensures NonEmpty(Split(pre + Listed(names), ',')) == names
    decreases |names|
  {
    var first, rest := names[0], names[1..];
    assert names == [first] + rest;
    NameBack(pre, first);
    if rest == [] {
      OnlyName(pre + first);
    } else {
      NamesBackFrom(" ", rest);
      ListedStep(pre, names);
      NameAndMore(pre + first, " " + Listed(rest), rest);
    }
  }

  /** A written list of names is read back. */
  lemma NamesBack(names: seq<string>)
    requires names != [] && forall i :: 0 <= i < |names| ==> IsName(names[i])
    ensures NonEmpty(Split(Listed(names), ',')) == names
  {
    NamesBackFrom("", names);
    assert "" + Listed(names) == Listed(names);
  }

  lemma InParentheses(before: string, tail: string)
    requires '(' !in before
    ensures '(' in before + (['('] + tail) && AfterFirst(before + (['('] + tail), '(') == tail
  {
    var line := before + (['('] + tail);
    assert line == before + ['('] + tail && line[|before|] == '(';
    CutConcat(before, '(', tail);
  }

  lemma ClosedIsTrimmed(cols: string, comma: bool)
    requires Trimmed(cols) && cols != ""
    ensures Trim(cols + (if comma then ")," else ")")) == cols + (if comma then ")," else ")")
  {
    var tail := cols + (if comma then ")," else ")");
    assert tail[0] == cols[0];
    TrimTrimmed(tail);
  }

  /** The columns of a key or unique line are the names in its parentheses, with or without a comma at its end. */
  lemma ParenthesesRead(before: string, cols: string, comma: bool)
    requires '(' !in before && Trimmed(cols) && cols != "" && cols[|cols| - 1] != ')'
    ensures ParenColumns(before + (['('] + (cols + (if comma then ")," else ")")))) == NonEmpty(Split(cols, ','))
  {
    InParentheses(before, cols + (if comma then ")," else ")"));
    ClosedIsTrimmed(cols, comma);
    CloseCut(cols, comma);
  }

  lemma CloseCut(cols: string, comma: bool)
    requires cols != "" && cols[|cols| - 1] != ')'
    ensures TrimEnd(TrimSuffix(cols + (if comma then ")," else ")"), ',')) == cols
  {
    var s := cols + ")";
    assert s[|s| - 1] == ')' && s[..|s| - 1] == cols;
    if comma {
      assert (cols + "),")[..|cols| + 1] == s;
    }
    assert |s| >= 2 && s[|s| - 2..][0] == cols[|cols| - 1];
  }

  /** The name of a unique line's index joins its columns by underscores. */
  lemma JoinedExact(a: string, rest: seq<string>)
    ensures Joined([]) == "" && Joined([a]) == a && (rest != [] ==> Joined([a] + rest) == a + "_" + Joined(rest))
  {
    assert ([a] + rest)[1..] == rest;
  }
}
