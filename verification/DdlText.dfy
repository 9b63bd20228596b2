/** From the text of a DDL file to the lines the reader works on. Column types and foreign keys are read out of
    a line by functions given as parameters; upper case is that of ASCII. */
module DdlText {
  import opened Text
  import opened SequenceDsl
  import opened LineText
  import opened DdlReader

  function UpperChar(c: char): char {
    if 'a' <= c <= 'z' then (c as int - 32) as char else c
  }

  function Upper(s: string): string {
    if s == "" then "" else [UpperChar(s[0])] + Upper(s[1..])
  }

  lemma {:induction false} UpperLength(s: string)
    ensures |Upper(s)| == |s|
  {
    if s != "" { UpperLength(s[1..]); }
  }

  /** strings.Index: position of the first occurrence, or -1. */
  function Find(s: string, sub: string): (i: int)
    ensures -1 <= i && (i >= 0 ==> i + |sub| <= |s|)
  {
    if sub <= s then 0
    else if s == "" then -1
    else
      var r := Find(s[1..], sub);
      if r < 0 then -1 else r + 1
  }

  predicate IsParen(c: char) {
    c == '(' || c == ' '
  }

  /** strings.Trim(s, "( "). */
  function TrimParens(s: string): string {
    if s != "" && IsParen(s[0]) then TrimParens(s[1..])
    else if s != "" && IsParen(s[|s| - 1]) then TrimParens(s[..|s| - 1])
    else s
  }

  /** The word after the first TABLE that has one. */
  function TableToken(parts: seq<string>): Option<string> {
    if |parts| < 2 then None
    else if Upper(parts[0]) == "TABLE" then Some(TrimParens(parts[1]))
    else TableToken(parts[1..])
  }

  function IndexToken(parts: seq<string>): string {
    if |parts| < 2 then "" else if Upper(parts[0]) == "INDEX" then parts[1] else IndexToken(parts[1..])
  }

  function TrimEnd(s: string): string {
    TrimSuffix(if |s| >= 2 && s[|s| - 2..] == ");" then s[..|s| - 2] else s, ')')
  }

  /** Names between commas, blanks removed. */
  function NonEmpty(parts: seq<string>): seq<string> {
    if parts == [] then []
    else (if Trim(parts[0]) == "" then [] else [Trim(parts[0])]) + NonEmpty(parts[1..])
  }

  /** extractParenColumns */
  function ParenColumns(line: string): seq<string> {
    if '(' !in line then [] else NonEmpty(Split(TrimEnd(TrimSuffix(Trim(AfterFirst(line, '(')), ',')), ','))
  }

  /** The text after " ON ", if it has a parenthesis. */
  function OnClause(line: string): Option<string> {
    UpperLength(line);
    var on := Find(Upper(line), " ON ");
    if on < 0 then None else Clause(line[on + 4..])
  }

  function Clause(rest: string): Option<string> {
    if '(' in Trim(rest) then Some(Trim(rest)) else None
  }

  function IndexLine(line: string): Line {
    match OnClause(line)
    case None => CreateIndex("", None)
    case Some(clause) =>
      UpperLength(line);
      CreateIndex(Trim(BeforeFirst(clause, '(')),
                  Some(Index(IndexToken(Fields(line[..Find(Upper(line), " ON ")])),
                             NonEmpty(Split(TrimEnd(Trim(AfterFirst(clause, '('))), ',')),
                             Find(Upper(line), "UNIQUE") >= 0)))
  }

  /** What the reader looks up in a line: parseConstraintFK, pgTypeToGo and parseInlineFK. */
  datatype Details = Details(
    constraint: string -> Option<ForeignKey>, goType: string -> string, inline: (string, seq<string>) -> Option<ForeignKey>)

  function ColumnLine(line: string, d: Details): Line {
    var parts, upper := Fields(line), Upper(line);
    if |parts| < 2 then Skipped
    else
      Column(parts[0], d.goType(TrimSuffix(Upper(parts[1]), ',')), Find(upper, "PRIMARY KEY") >= 0,
             Find(upper, "UNIQUE") >= 0 && Find(upper, "PRIMARY") < 0, d.inline(parts[0], parts))
  }

  /** The form of a line, in the order the reader tries them. */
  function LineOf(raw: string, d: Details): Line {
    var line := Trim(raw);
    var upper := Upper(line);
    if HasPrefix(upper, "CREATE INDEX") || HasPrefix(upper, "CREATE UNIQUE INDEX") then IndexLine(line)
    else if HasPrefix(upper, "CREATE TABLE") then CreateTable(TableToken(Fields(line)))
    else if HasPrefix(line, ")") then Closing
    else if HasPrefix(upper, "CONSTRAINT") || HasPrefix(upper, "FOREIGN") then Constraint(d.constraint(line))
    else if HasPrefix(upper, "PRIMARY") then Primary(ParenColumns(line))
    else if HasPrefix(upper, "UNIQUE") then Unique(ParenColumns(line))
    else if HasPrefix(upper, "CHECK") || line == "" then Skipped
    else ColumnLine(line, d)
  }

  function LinesOf(raws: seq<string>, d: Details): seq<Line> {
    if raws == [] then [] else [LineOf(raws[0], d)] + LinesOf(raws[1..], d)
  }

  /** The tables after reading a whole file. */
  function ReadText(tables: Tables, content: string, d: Details): Tables {
    Read(tables, LinesOf(Split(content, '\n'), d))
  }

  // ----- texts inside texts -----

  predicate Occurs(t: string, s: string) {
    exists i :: 0 <= i <= |s| && t <= s[i..]
  }

  lemma OccursWithin(t: string, s: string, pre: string, post: string)
    requires Occurs(t, s)
    ensures Occurs(t, pre + s + post)
  {
    var i :| 0 <= i <= |s| && t <= s[i..];
    var all := pre + s + post;
    assert all[|pre| + i..] == s[i..] + post;
  }

  lemma SuffixOccurs(t: string, s: string, i: nat)
    requires i <= |s| && Occurs(t, s[i..])
    ensures Occurs(t, s)
  {
    OccursWithin(t, s[i..], s[..i], "");
    assert s[..i] + s[i..] + "" == s;
  }

  lemma PrefixOccurs(t: string, s: string, j: nat)
    requires j <= |s| && Occurs(t, s[..j])
    ensures Occurs(t, s)
  {
    OccursWithin(t, s[..j], "", s[j..]);
    assert "" + s[..j] + s[j..] == s;
  }

  lemma {:induction false} TrimLeftOccurs(t: string, s: string)
    requires Occurs(t, TrimLeft(s))
    ensures Occurs(t, s)
  {
    if s != "" && IsSpace(s[0]) {
      TrimLeftOccurs(t, s[1..]);
      SuffixOccurs(t, s, 1);
    }
  }

  lemma {:induction false} TrimRightOccurs(t: string, s: string)
    requires Occurs(t, TrimRight(s))
    ensures Occurs(t, s)
  {
    if s != "" && IsSpace(s[|s| - 1]) {
      TrimRightOccurs(t, s[..|s| - 1]);
      PrefixOccurs(t, s, |s| - 1);
    }
  }

  lemma TrimOccurs(t: string, s: string)
    requires Occurs(t, Trim(s))
    ensures Occurs(t, s)
  {
    TrimRightOccurs(t, TrimLeft(s));
    TrimLeftOccurs(t, s);
  }

  lemma {:induction false} ParensOccur(t: string, s: string)
    requires Occurs(t, TrimParens(s))
    ensures Occurs(t, s)
    decreases |s|
  {
    if s != "" && IsParen(s[0]) {
      ParensOccur(t, s[1..]);
      SuffixOccurs(t, s, 1);
    } else if s != "" && IsParen(s[|s| - 1]) {
      ParensOccur(t, s[..|s| - 1]);
      PrefixOccurs(t, s, |s| - 1);
    }
  }

  lemma BeforeOccurs(t: string, s: string, c: char)
    ensures Occurs(t, BeforeFirst(s, c)) ==> Occurs(t, s)
    ensures Occurs(t, AfterFirst(s, c)) ==> Occurs(t, s)
  {
    CutText(s, c);
    var before, mid, after := BeforeFirst(s, c), if c in s then [c] else "", AfterFirst(s, c);
    assert s == "" + before + (mid + after) == before + mid + after + "";
    if Occurs(t, before) { OccursWithin(t, before, "", mid + after); }
    if Occurs(t, after) { OccursWithin(t, after, before + mid, ""); }
  }

  lemma {:induction false} CutText(s: string, c: char)
    ensures s == BeforeFirst(s, c) + ((if c in s then [c] else "") + AfterFirst(s, c))
  {
    if s != "" {
      CutText(s[1..], c);
      assert s == [s[0]] + s[1..];
    }
  }

  lemma {:induction false} WordText(s: string)
    ensures s == Word(s) + AfterWord(s)
  {
    if s != "" && !IsSpace(s[0]) {
      WordText(s[1..]);
      assert s == [s[0]] + s[1..];
    }
  }

  lemma {:induction false} FieldOccurs(t: string, s: string, k: nat)
    requires k < |Fields(s)| && Occurs(t, Fields(s)[k])
    ensures Occurs(t, s)
    decreases |s|
  {
    var u := TrimLeft(s);
    TrimLeftShorter(s);
    WordShorter(u);
    WordText(u);
    assert u == "" + Word(u) + AfterWord(u) == Word(u) + AfterWord(u) + "";
    if k == 0 {
      OccursWithin(t, Word(u), "", AfterWord(u));
    } else {
      FieldOccurs(t, AfterWord(u), k - 1);
      OccursWithin(t, AfterWord(u), Word(u), "");
    }
    TrimLeftOccurs(t, s);
  }

  lemma {:induction false} PartOccurs(t: string, s: string, c: char, k: nat)
    requires k < |Split(s, c)| && Occurs(t, Split(s, c)[k])
    ensures Occurs(t, s)
    decreases |s|
  {
    if c in s {
      CutShorter(s, c);
      if k > 0 { PartOccurs(t, AfterFirst(s, c), c, k - 1); }
      BeforeOccurs(t, s, c);
    }
  }

  // ----- a table the text does not mention -----

  lemma {:induction false} TokenIsField(parts: seq<string>)
    requires TableToken(parts).Some?
    ensures exists k :: 0 <= k < |parts| && TableToken(parts).value == TrimParens(parts[k])
  {
    if Upper(parts[0]) != "TABLE" {
      TokenIsField(parts[1..]);
      var k :| 0 <= k < |parts[1..]| && TableToken(parts[1..]).value == TrimParens(parts[1..][k]);
      assert parts[k + 1] == parts[1..][k];
    }
  }

  lemma TokenOccurs(line: string, table: string)
    requires TableToken(Fields(line)) == Some(table)
    ensures Occurs(table, line)
  {
    TokenIsField(Fields(line));
    var k :| 0 <= k < |Fields(line)| && table == TrimParens(Fields(line)[k]);
    assert table <= TrimParens(Fields(line)[k])[0..];
    ParensOccur(table, Fields(line)[k]);
    FieldOccurs(table, line, k);
  }

  lemma TableInClause(table: string, clause: string)
    requires table == Trim(BeforeFirst(clause, '('))
    ensures Occurs(table, clause)
  {
    assert table <= Trim(BeforeFirst(clause, '('))[0..];
    TrimOccurs(table, BeforeFirst(clause, '('));
    BeforeOccurs(table, clause, '(');
  }

  lemma ClauseOccurs(table: string, rest: string)
    requires Clause(rest).Some? && Occurs(table, Clause(rest).value)
    ensures Occurs(table, rest)
  {
    TrimOccurs(table, rest);
  }

  lemma ClauseOfLine(line: string) returns (at: nat)
    requires OnClause(line).Some?
    ensures at <= |line| && OnClause(line) == Clause(line[at..])
  {
    UpperLength(line);
    at := Find(Upper(line), " ON ") + 4;
  }

  lemma IndexedOccurs(line: string, table: string)
    requires IndexLine(line) == CreateIndex(table, IndexLine(line).index) && table != ""
    ensures Occurs(table, line)
  {
    var at := ClauseOfLine(line);
    TableInClause(table, OnClause(line).value);
    ClauseOccurs(table, line[at..]);
    SuffixOccurs(table, line, at);
  }

  /** The table a line names stands in its text. */
  lemma NamedOccurs(raw: string, d: Details, table: string)
    requires Names(LineOf(raw, d), table) && table != ""
    ensures Occurs(table, raw)
  {
    var line := Trim(raw);
    if HasPrefix(Upper(line), "CREATE INDEX") || HasPrefix(Upper(line), "CREATE UNIQUE INDEX") {
      IndexedOccurs(line, table);
    } else {
      TokenOccurs(line, table);
    }
    TrimOccurs(table, raw);
  }

  lemma {:induction false} LineAt(raws: seq<string>, d: Details, k: nat)
    requires k < |raws|
    ensures |LinesOf(raws, d)| == |raws| && LinesOf(raws, d)[k] == LineOf(raws[k], d)
  {
    if k > 0 {
      LineAt(raws[1..], d, k - 1);
    } else if |raws| > 1 {
      LineAt(raws[1..], d, 0);
    }
  }

  lemma {:induction false} LineCount(raws: seq<string>, d: Details)
    ensures |LinesOf(raws, d)| == |raws|
  {
    if raws != [] { LineCount(raws[1..], d); }
  }

  /** Reading a file changes no table whose name does not occur in its text, and creates none. */
  lemma UnmentionedUnchanged(tables: Tables, content: string, d: Details, table: string)
    requires table != "" && !Occurs(table, content)
    ensures
      var after := ReadText(tables, content, d);
      && (table in after <==> table in tables)
      && (table in tables ==> after[table] == tables[table])
  {
    var raws := Split(content, '\n');
    var lines := LinesOf(raws, d);
    LineCount(raws, d);
    forall k | 0 <= k < |lines| ensures !Names(lines[k], table) {
      LineAt(raws, d, k);
      if Names(lines[k], table) {
        NamedOccurs(raws[k], d, table);
        PartOccurs(table, content, '\n', k);
      }
    }
    UnnamedUnchanged(tables, lines, table);
  }

  // ----- the table a definition opens -----

  lemma FieldsFirst(w: string, rest: string)
    requires NoSpace(w) && w != ""
    ensures Fields(w + (" " + rest)) == [w] + Fields(" " + rest)
  {
    var s := w + (" " + rest);
    assert s[0] == w[0] && TrimLeft(s) == s;
    WordOf(w, " " + rest);
  }

  lemma FieldsSpaced(s: string)
    ensures Fields(" " + s) == Fields(s)
  {
    assert (" " + s)[1..] == s;
    assert TrimLeft(" " + s) == TrimLeft(s);
  }

  function Definition(rest: string): string {
    "CREATE" + (" " + ("TABLE" + (" " + rest)))
  }

  lemma InTheMiddle(a: string, m: string, b: string, n: string, c: string)
    ensures a + (m + (b + (n + c))) == a + (m + b + n) + c
  {
    assert m + (b + (n + c)) == m + b + n + c;
  }

  lemma TwoWordsTrimmed(a: string, b: string, rest: string)
    requires NoSpace(a) && a != "" && Trimmed(rest) && rest != ""
    ensures var line := a + (" " + (b + (" " + rest))); Trim(line) == line
  {
    InTheMiddle(a, " ", b, " ", rest);
    TrimmedJoin(a, " " + b + " ", rest);
    TrimTrimmed(a + (" " + b + " ") + rest);
  }

  lemma TwoWords(a: string, b: string, rest: string)
    requires NoSpace(a) && a != "" && NoSpace(b) && b != ""
    ensures Fields(a + (" " + (b + (" " + rest)))) == [a, b] + Fields(rest)
  {
    FieldsFirst(a, b + (" " + rest));
    FieldsSpaced(b + (" " + rest));
    FieldsFirst(b, rest);
    FieldsSpaced(rest);
    assert [a] + ([b] + Fields(rest)) == [a, b] + Fields(rest);
  }

  lemma UpperDefinition(rest: string)
    ensures Upper(Definition(rest)) == "CREATE" + (" " + ("TABLE" + Upper(" " + rest)))
  {
    UpperPrefix("CREATE", " " + ("TABLE" + (" " + rest)));
    UpperPrefix(" ", "TABLE" + (" " + rest));
    UpperPrefix("TABLE", " " + rest);
    UpperWords();
  }

  lemma UpperWords()
    ensures Upper("CREATE") == "CREATE" && Upper(" ") == " " && Upper("TABLE") == "TABLE"
  {
  }

  lemma {:induction false} UpperPrefix(a: string, b: string)
    ensures Upper(a + b) == Upper(a) + Upper(b)
  {
    if a == "" {
      assert a + b == b;
    } else {
      assert (a + b)[1..] == a[1..] + b;
      UpperPrefix(a[1..], b);
    }
  }

  /** The word after CREATE TABLE is the table that is opened. */
  lemma DefinitionOpens(name: string, rest: string, d: Details)
    requires NoSpace(name) && name != "" && !IsParen(name[0]) && !IsParen(name[|name| - 1])
    requires Trimmed(rest) && rest != ""
    ensures LineOf(Definition(name + (" " + rest)), d) == CreateTable(Some(name))
  {
    TrimmedJoin(name, " ", rest);
    assert name + " " + rest == name + (" " + rest);
    TwoWords("CREATE", "TABLE", name + (" " + rest));
    TwoWordsTrimmed("CREATE", "TABLE", name + (" " + rest));
    FieldsFirst(name, rest);
    TableAfter(name, Fields(" " + rest));
    UpperDefinition(name + (" " + rest));
    CreateTableForm(Definition(name + (" " + rest)), Upper(" " + (name + (" " + rest))), d);
  }

  lemma CreateTableForm(line: string, more: string, d: Details)
    requires Trim(line) == line && Upper(line) == "CREATE" + (" " + ("TABLE" + more))
    ensures LineOf(line, d) == CreateTable(TableToken(Fields(line)))
  {
    CreateTableText(Upper(line), more);
  }

  lemma CreateTableText(upper: string, more: string)
    requires upper == "CREATE" + (" " + ("TABLE" + more))
    ensures HasPrefix(upper, "CREATE TABLE") && !HasPrefix(upper, "CREATE INDEX") && !HasPrefix(upper, "CREATE UNIQUE INDEX")
  {
    assert upper == "CREATE TABLE" + more;
    assert upper[7] == 'T';
  }

  lemma TableAfter(name: string, more: seq<string>)
    requires name != "" && !IsParen(name[0]) && !IsParen(name[|name| - 1])
    ensures TableToken(["CREATE", "TABLE"] + ([name] + more)) == Some(name)
  {
    var parts := ["CREATE", "TABLE"] + ([name] + more);
    assert Upper("CREATE") == "CREATE" && Upper("TABLE") == "TABLE";
    assert parts[1..][0] == "TABLE" && parts[1..][1] == name;
    assert TrimParens(name) == name;
  }

  /** Also after IF NOT EXISTS: the table that is opened is called IF. */
  lemma IfNotExistsOpensIf(rest: string, d: Details)
    requires Trimmed(rest) && rest != ""
    ensures LineOf(Definition("IF" + (" " + ("NOT EXISTS " + rest))), d) == CreateTable(Some("IF"))
  {
    TrimmedJoin("NOT", " EXISTS ", rest);
    assert "NOT" + " EXISTS " + rest == "NOT EXISTS " + rest;
    DefinitionOpens("IF", "NOT EXISTS " + rest, d);
  }
}
