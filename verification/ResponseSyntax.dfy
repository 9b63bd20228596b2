/** The two ways to write a response, and the order of written entries. */
module ResponseSyntax {
  import opened Text
  import opened LineText
  import opened SequenceDsl
  import opened LineParser
  import opened LineGrammar

  // ----- order of entries -----

  predicate DistinctKeys(entries: seq<Entry>) {
    forall i, j :: 0 <= i < j < |entries| ==> entries[i].key != entries[j].key
  }

  lemma {:induction false} EntryOf(m: map<string, string>, entries: seq<Entry>, e: Entry)
    requires DistinctKeys(entries)
    requires e in entries || (e.key in m && m[e.key] == e.val && forall i :: 0 <= i < |entries| ==> entries[i].key != e.key)
    ensures e.key in EntriesFrom(m, entries) && EntriesFrom(m, entries)[e.key] == e.val
    decreases |entries|
  {
    if entries != [] {
      var m' := m[entries[0].key := entries[0].val];
      EntryOf(m', entries[1..], e);
    }
  }

  lemma {:induction false} KeyOf(m: map<string, string>, entries: seq<Entry>, key: string)
    requires key in EntriesFrom(m, entries)
    ensures key in m || exists i :: 0 <= i < |entries| && entries[i].key == key
    decreases |entries|
  {
    if entries != [] {
      var m' := m[entries[0].key := entries[0].val];
      KeyOf(m', entries[1..], key);
      if key !in m' {
        var i :| 0 <= i < |entries[1..]| && entries[1..][i].key == key;
        assert entries[i + 1].key == key;
      }
    }
  }

  lemma SubmapOfPermutation(a: seq<Entry>, b: seq<Entry>, key: string)
    requires DistinctKeys(a) && DistinctKeys(b) && multiset(a) == multiset(b) && key in MapOf(a)
    ensures key in MapOf(b) && MapOf(b)[key] == MapOf(a)[key]
  {
    KeyOf(map[], a, key);
    var i :| 0 <= i < |a| && a[i].key == key;
    var e := a[i];
    assert e in multiset(a);
    assert e in b;
    EntryOf(map[], a, e);
    EntryOf(map[], b, e);
  }

  /** Entries may be written in any order. */
  lemma OrderDoesNotMatter(a: seq<Entry>, b: seq<Entry>)
    requires DistinctKeys(a) && DistinctKeys(b) && multiset(a) == multiset(b)
    ensures MapOf(a) == MapOf(b)
  {
    forall key | key in MapOf(a) ensures key in MapOf(b) && MapOf(b)[key] == MapOf(a)[key] {
      SubmapOfPermutation(a, b, key);
    }
    forall key | key in MapOf(b) ensures key in MapOf(a) {
      SubmapOfPermutation(b, a, key);
    }
  }

  // ----- blocks -----

  /** A field on a line of its own: indentation, the pair, and perhaps a comma. */
  datatype BlockLine = BlockLine(indent: string, field: Entry, comma: bool)

  predicate IsIndent(s: string) {
    forall i :: 0 <= i < |s| ==> IsSpace(s[i])
  }

  predicate CleanLines(lines: seq<BlockLine>) {
    forall i :: 0 <= i < |lines| ==> CleanEntry(lines[i].field) && IsIndent(lines[i].indent)
  }

  function FieldText(l: BlockLine): string {
    Pair(l.field) + (if l.comma then "," else "")
  }

  function CommentsOf(lines: seq<BlockLine>): seq<string> {
    if lines == [] then [] else ["//" + (lines[0].indent + FieldText(lines[0]))] + CommentsOf(lines[1..])
  }

  function FieldsOf(lines: seq<BlockLine>): seq<Entry> {
    if lines == [] then [] else [lines[0].field] + FieldsOf(lines[1..])
  }

  function TextsOf(lines: seq<BlockLine>): seq<string> {
    if lines == [] then [] else [FieldText(lines[0])] + TextsOf(lines[1..])
  }

  lemma FieldTextIsPart(l: BlockLine)
    requires CleanEntry(l.field)
    ensures IsPart(FieldText(l)) && FieldText(l) != "}"
  {
    PairIsPart(l.field);
    if !l.comma {
      assert Pair(l.field) + "" == Pair(l.field);
    }
    assert FieldText(l)[|l.field.key|] == ':';
  }

  lemma {:induction false} TrimIndent(indent: string, t: string)
    requires IsIndent(indent) && IsPart(t)
    ensures TrimLeft(indent + t) == t
  {
    if indent == "" {
      assert indent + t == t;
    } else {
      assert (indent + t)[1..] == indent[1..] + t;
      TrimIndent(indent[1..], t);
    }
  }

  lemma CommentLine(indent: string, t: string)
    requires IsIndent(indent) && IsPart(t)
    ensures LineOf("//" + (indent + t)) == t
  {
    assert ("//" + (indent + t))[2..] == indent + t;
    TrimIndent(indent, t);
    TrimTrimmed(t);
  }

  lemma FeedStep(scan: Scan, next: Scan, comment: string, rest: seq<string>)
    requires Feed(scan, comment) == Some(next)
    ensures FeedAll(scan, [comment] + rest) == FeedAll(next, rest)
  {
    assert ([comment] + rest)[1..] == rest;
  }

  lemma FieldFeeds(items: seq<Line>, suppress: bool, kept: seq<string>, l: BlockLine)
    requires CleanEntry(l.field) && IsIndent(l.indent)
    ensures Feed(Scan(items, Some(Block(suppress, kept))), "//" + (l.indent + FieldText(l)))
         == Some(Scan(items, Some(Block(suppress, kept + [FieldText(l)]))))
  {
    FieldTextIsPart(l);
    CommentLine(l.indent, FieldText(l));
  }

  lemma Associate<T>(first: seq<T>, middle: seq<T>, last: seq<T>)
    ensures (first + middle) + last == first + (middle + last) && first + [] == first && [] + last == last
  {
  }

  lemma {:induction false} FeedBlock(items: seq<Line>, suppress: bool, kept: seq<string>, lines: seq<BlockLine>, rest: seq<string>)
    requires CleanLines(lines)
    ensures FeedAll(Scan(items, Some(Block(suppress, kept))), CommentsOf(lines) + rest)
         == FeedAll(Scan(items, Some(Block(suppress, kept + TextsOf(lines)))), rest)
    decreases |lines|
  {
    if lines == [] {
      Associate(kept, [], rest);
    } else {
      var l := lines[0];
      var comment, text, more := "//" + (l.indent + FieldText(l)), FieldText(l), CommentsOf(lines[1..]);
      FieldFeeds(items, suppress, kept, l);
      FeedStep(Scan(items, Some(Block(suppress, kept))), Scan(items, Some(Block(suppress, kept + [text]))), comment, more + rest);
      FeedBlock(items, suppress, kept + [text], lines[1..], rest);
      Associate([comment], more, rest);
      Associate(kept, [text], TextsOf(lines[1..]));
    }
  }

  lemma BlockField(m: map<string, string>, l: BlockLine)
    requires CleanEntry(l.field)
    ensures AddField(m, FieldText(l)) == m[l.field.key := l.field.val]
  {
    PairIsPart(l.field);
    FieldTextIsPart(l);
    TrimTrimmed(FieldText(l));
    if l.comma {
      assert FieldText(l)[..|FieldText(l)| - 1] == Pair(l.field);
    } else {
      assert FieldText(l) == Pair(l.field);
    }
    PairBack(m, l.field);
  }

  lemma {:induction false} BlockFields(m: map<string, string>, lines: seq<BlockLine>)
    requires CleanLines(lines)
    ensures AddFields(m, TextsOf(lines)) == EntriesFrom(m, FieldsOf(lines))
    decreases |lines|
  {
    if lines != [] {
      var l := lines[0];
      var m' := m[l.field.key := l.field.val];
      BlockField(m, l);
      FirstField(m, m', FieldText(l), TextsOf(lines[1..]));
      BlockFields(m', lines[1..]);
      assert FieldsOf(lines)[1..] == FieldsOf(lines[1..]);
    }
  }

  lemma {:induction false} FieldsAreClean(lines: seq<BlockLine>)
    requires CleanLines(lines)
    ensures CleanEntries(FieldsOf(lines))
    decreases |lines|
  {
    if lines != [] {
      FieldsAreClean(lines[1..]);
    }
  }

  function Opening(suppress: bool): string {
    "//" + (" " + Tagged("@response", suppress, "{"))
  }

  function SingleLine(fields: seq<Entry>, suppress: bool): string {
    "//" + (" " + Render(Respond(fields), suppress))
  }

  lemma TaggedResponse(suppress: bool, text: string)
    requires IsPart(text)
    ensures var line := Tagged("@response", suppress, text);
            IsPart(line) && HasPrefix(line, "@") && (HasPrefix(line, "@response!") <==> suppress)
  {
    var line := Tagged("@response", suppress, text);
    assert line == "@response" + (if suppress then "! " else " ") + text;
    TrimmedJoin("@response", if suppress then "! " else " ", text);
    assert line[0] == '@' && line[9] == if suppress then '!' else ' ';
  }

  lemma OpeningOpens(items: seq<Line>, suppress: bool)
    ensures Feed(Scan(items, None), Opening(suppress)) == Some(Scan(items, Some(Block(suppress, []))))
  {
    TaggedResponse(suppress, "{");
    CommentLine(" ", Tagged("@response", suppress, "{"));
    ResponseLine("{", suppress);
  }

  lemma ClosingCloses(items: seq<Line>, b: Block)
    ensures Feed(Scan(items, Some(b)), "// }") == Some(Scan(items + [CloseBlock(b)], None))
  {
    assert "// }" == "//" + (" " + "}");
    CommentLine(" ", "}");
  }

  lemma FeedsItem(items: seq<Line>, comment: string, line: string, item: Line)
    requires LineOf(comment) == line && HasPrefix(line, "@") && ParseLine(line) == item && item.Parsed?
    ensures Feed(Scan(items, None), comment) == Some(Scan(items + [item], None))
  {
  }

  lemma RespondIsPart(fields: seq<Entry>)
    ensures IsPart(TextOf(Respond(fields)))
  {
    BracedResponse(" " + Body(fields) + " ", false);
  }

  lemma ResponseFeeds(items: seq<Line>, suppress: bool, text: string, item: Line)
    requires IsPart(text) && ParseLine(Tagged("@response", suppress, text)) == item && item.Parsed?
    ensures Feed(Scan(items, None), "//" + (" " + Tagged("@response", suppress, text))) == Some(Scan(items + [item], None))
  {
    var line := Tagged("@response", suppress, text);
    TaggedResponse(suppress, text);
    CommentLine(" ", line);
    FeedsItem(items, "//" + (" " + line), line, item);
  }

  lemma SingleCloses(items: seq<Line>, fields: seq<Entry>, suppress: bool)
    requires CleanEntries(fields)
    ensures Feed(Scan(items, None), SingleLine(fields, suppress)) == Some(Scan(items + [SequenceOf(Respond(fields), suppress)], None))
  {
    RespondIsPart(fields);
    RespondLine(fields, suppress);
    SingleForm(fields, suppress);
    PlainParsed(fields, suppress);
    ResponseFeeds(items, suppress, TextOf(Respond(fields)), SequenceOf(Respond(fields), suppress));
  }

  lemma PlainParsed(fields: seq<Entry>, suppress: bool)
    ensures SequenceOf(Respond(fields), suppress).Parsed?
  {
  }

  lemma SingleForm(fields: seq<Entry>, suppress: bool)
    ensures SingleLine(fields, suppress) == "//" + (" " + Tagged("@response", suppress, TextOf(Respond(fields))))
  {
  }

  lemma BlockIsSequence(lines: seq<BlockLine>, suppress: bool)
    requires CleanLines(lines)
    ensures CloseBlock(Block(suppress, TextsOf(lines))) == SequenceOf(Respond(FieldsOf(lines)), suppress)
  {
    BlockFields(map[], lines);
  }

  /** The two syntaxes agree: a block with one field per line, indented in any way and with or without commas,
      gives the same sequence as the single line listing the same fields, wherever they stand. */
  lemma SyntaxesAgree(items: seq<Line>, lines: seq<BlockLine>, suppress: bool, rest: seq<string>)
    requires CleanLines(lines)
    ensures FeedAll(Scan(items, None), [Opening(suppress)] + (CommentsOf(lines) + (["// }"] + rest)))
         == FeedAll(Scan(items, None), [SingleLine(FieldsOf(lines), suppress)] + rest)
         == FeedAll(Scan(items + [SequenceOf(Respond(FieldsOf(lines)), suppress)], None), rest)
  {
    var block := Block(suppress, TextsOf(lines));
    OpeningOpens(items, suppress);
    FeedStep(Scan(items, None), Scan(items, Some(Block(suppress, []))), Opening(suppress), CommentsOf(lines) + (["// }"] + rest));
    FeedBlock(items, suppress, [], lines, ["// }"] + rest);
    assert [] + TextsOf(lines) == TextsOf(lines);
    ClosingCloses(items, block);
    BlockIsSequence(lines, suppress);
    FeedStep(Scan(items, Some(block)), Scan(items + [CloseBlock(block)], None), "// }", rest);
    FieldsAreClean(lines);
    SingleCloses(items, FieldsOf(lines), suppress);
    FeedStep(Scan(items, None), Scan(items + [SequenceOf(Respond(FieldsOf(lines)), suppress)], None), SingleLine(FieldsOf(lines), suppress), rest);
  }
}
