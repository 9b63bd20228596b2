/** Whole comments: every list of written statements is read back in order, and one bad input fails them all. */
module CommentSyntax {
  import opened Text
  import opened LineText
  import opened SequenceDsl
  import opened LineParser
  import opened LineGrammar
  import opened ResponseSyntax

  // ----- statements in comments -----

  /** A piece of a comment: a statement on a line of its own, a response block, or a line of other text. */
  datatype Piece =
    | Written(st: Statement, suppress: bool)
    | InBlock(lines: seq<BlockLine>, suppress: bool)
    | Remark(comment: string)

  function CommentsOfPiece(p: Piece): seq<string> {
    match p
    case Written(st, suppress) => ["//" + (" " + Render(st, suppress))]
    case InBlock(lines, suppress) => [Opening(suppress)] + (CommentsOf(lines) + ["// }"])
    case Remark(comment) => [comment]
  }

  /** The statement a piece stands for, if any. */
  function Meant(p: Piece): seq<Line> {
    match p
    case Written(st, suppress) => [SequenceOf(st, suppress)]
    case InBlock(lines, suppress) => [SequenceOf(Respond(FieldsOf(lines)), suppress)]
    case Remark(_) => []
  }

  predicate CleanPiece(p: Piece) {
    match p
    case Written(st, _) => WellFormed(st)
    case InBlock(lines, _) => CleanLines(lines)
    case Remark(comment) => !HasPrefix(LineOf(comment), "@")
  }

  predicate CleanPieces(pieces: seq<Piece>) {
    forall i :: 0 <= i < |pieces| ==> CleanPiece(pieces[i])
  }

  function AllComments(pieces: seq<Piece>): seq<string> {
    if pieces == [] then [] else CommentsOfPiece(pieces[0]) + AllComments(pieces[1..])
  }

  function AllMeant(pieces: seq<Piece>): seq<Line> {
    if pieces == [] then [] else Meant(pieces[0]) + AllMeant(pieces[1..])
  }

  lemma TextIsPart(st: Statement)
    requires WellFormed(st)
    ensures IsPart(TextOf(st))
  {
    if st.Respond? {
      RespondIsPart(st.fields);
    } else if !st.RespondWith? {
      StatementBack(st);
    }
  }

  lemma TagIsPart(st: Statement)
    ensures var tag := if IsResponse(st) then "@response" else KeywordText(TagOf(st)); IsPart(tag) && tag[0] == '@'
  {
    if !IsResponse(st) { KeywordBack(TagOf(st)); }
  }

  lemma TaggedIsPart(tag: string, suppress: bool, text: string)
    requires IsPart(tag) && tag[0] == '@' && IsPart(text)
    ensures IsPart(Tagged(tag, suppress, text)) && HasPrefix(Tagged(tag, suppress, text), "@")
  {
    var bang := if suppress then "!" else "";
    TrimmedJoin(tag, bang + " ", text);
    assert Tagged(tag, suppress, text) == tag + (bang + " ") + text;
  }

  lemma RenderedIsPart(st: Statement, suppress: bool)
    requires WellFormed(st)
    ensures IsPart(Render(st, suppress)) && HasPrefix(Render(st, suppress), "@")
  {
    TextIsPart(st);
    TagIsPart(st);
    TaggedIsPart(if IsResponse(st) then "@response" else KeywordText(TagOf(st)), suppress, TextOf(st));
  }

  lemma FeedsLine(items: seq<Line>, comment: string, line: string, item: Line)
    requires LineOf(comment) == line && HasPrefix(line, "@") && ParseLine(line) == item && (item.Parsed? || item.Trigger?)
    ensures Feed(Scan(items, None), comment) == Some(Scan(items + [item], None))
  {
  }

  lemma IsItem(st: Statement, suppress: bool)
    ensures SequenceOf(st, suppress).Parsed? || SequenceOf(st, suppress).Trigger?
  {
  }

  lemma WrittenFeeds(items: seq<Line>, st: Statement, suppress: bool)
    requires WellFormed(st)
    ensures Feed(Scan(items, None), "//" + (" " + Render(st, suppress))) == Some(Scan(items + [SequenceOf(st, suppress)], None))
  {
    RenderedIsPart(st, suppress);
    CommentLine(" ", Render(st, suppress));
    ParserInvertsGrammar(st, suppress);
    IsItem(st, suppress);
    FeedsLine(items, "//" + (" " + Render(st, suppress)), Render(st, suppress), SequenceOf(st, suppress));
  }

  lemma PieceFeeds(items: seq<Line>, p: Piece, rest: seq<string>)
    requires CleanPiece(p)
    ensures FeedAll(Scan(items, None), CommentsOfPiece(p) + rest) == FeedAll(Scan(items + Meant(p), None), rest)
  {
    match p
    case Written(st, suppress) =>
      WrittenFeeds(items, st, suppress);
      FeedStep(Scan(items, None), Scan(items + [SequenceOf(st, suppress)], None), "//" + (" " + Render(st, suppress)), rest);
    case InBlock(lines, suppress) =>
      SyntaxesAgree(items, lines, suppress, rest);
      ThreeGroups([Opening(suppress)], CommentsOf(lines), ["// }"], rest);
    case Remark(comment) =>
      FeedStep(Scan(items, None), Scan(items, None), comment, rest);
      assert items + [] == items;
  }

  lemma ThreeGroups(a: seq<string>, b: seq<string>, c: seq<string>, d: seq<string>)
    ensures a + (b + c) + d == a + (b + (c + d))
  {
  }

  lemma {:induction false} PiecesFeed(items: seq<Line>, pieces: seq<Piece>, rest: seq<string>)
    requires CleanPieces(pieces)
    ensures FeedAll(Scan(items, None), AllComments(pieces) + rest) == FeedAll(Scan(items + AllMeant(pieces), None), rest)
    decreases |pieces|
  {
    if pieces == [] {
      Associate(items, [], []);
      Associate([], [], rest);
    } else {
      var p, more := pieces[0], pieces[1..];
      PieceFeeds(items, p, AllComments(more) + rest);
      PiecesFeed(items + Meant(p), more, rest);
      Associate(CommentsOfPiece(p), AllComments(more), rest);
      Associate(items, Meant(p), AllMeant(more));
    }
  }

  /** Comments that write any list of statements, with responses in either syntax and other text anywhere between
      them, are read as exactly those statements, in order. */
  lemma CommentsBack(pieces: seq<Piece>)
    requires CleanPieces(pieces)
    ensures ItemsOf(AllComments(pieces)) == Some(AllMeant(pieces))
  {
    PiecesFeed([], pieces, []);
    assert AllComments(pieces) + [] == AllComments(pieces) && [] + AllMeant(pieces) == AllMeant(pieces);
  }

  /** A response block that is never closed is dropped; everything before it stays. */
  lemma OpenBlockDropped(pieces: seq<Piece>, lines: seq<BlockLine>, suppress: bool)
    requires CleanPieces(pieces) && CleanLines(lines)
    ensures ItemsOf(AllComments(pieces) + ([Opening(suppress)] + CommentsOf(lines))) == Some(AllMeant(pieces))
  {
    var items := [] + AllMeant(pieces);
    Associate(CommentsOf(lines), [], []);
    PiecesFeed([], pieces, [Opening(suppress)] + CommentsOf(lines));
    OpeningOpens(items, suppress);
    FeedStep(Scan(items, None), Scan(items, Some(Block(suppress, []))), Opening(suppress), CommentsOf(lines) + []);
    FeedBlock(items, suppress, [], lines, []);
    Associate([], [], AllMeant(pieces));
  }

  // ----- what is skipped -----

  lemma {:induction false} FieldsConcat(m: map<string, string>, a: seq<string>, b: seq<string>)
    ensures AddFields(m, a + b) == AddFields(AddFields(m, a), b)
    decreases |a|
  {
    if a == [] {
      Associate([], [], b);
    } else {
      Associate([a[0]], a[1..], b);
      assert a == [a[0]] + a[1..];
      FirstField(m, AddField(m, a[0]), a[0], a[1..] + b);
      FieldsConcat(AddField(m, a[0]), a[1..], b);
    }
  }

  /** A line of a response without a colon says nothing. */
  lemma FieldSkipped(m: map<string, string>, before: seq<string>, line: string, after: seq<string>)
    requires ':' !in TrimSuffix(Trim(line), ',')
    ensures AddFields(m, before + ([line] + after)) == AddFields(m, before + after)
  {
    FieldsConcat(m, before, [line] + after);
    FieldsConcat(m, before, after);
    FirstField(AddFields(m, before), AddFields(m, before), line, after);
  }

  lemma {:induction false} BlankSkipped(m: map<string, string>, before: seq<string>, blank: string, after: seq<string>)
    requires Trim(blank) == ""
    ensures AddInputs(m, before + ([blank] + after)) == AddInputs(m, before + after)
    decreases |before|
  {
    if before == [] {
      Associate([], [], [blank] + after);
      Associate([], [], after);
      FirstInput(m, m, blank, after);
    } else {
      Associate([before[0]], before[1..], [blank] + after);
      Associate([before[0]], before[1..], after);
      assert before == [before[0]] + before[1..];
      match AddInput(m, before[0])
      case None => BothFail(m, before[0], before[1..] + ([blank] + after), before[1..] + after);
      case Some(m') =>
        FirstInput(m, m', before[0], before[1..] + ([blank] + after));
        FirstInput(m, m', before[0], before[1..] + after);
        BlankSkipped(m', before[1..], blank, after);
    }
  }

  lemma BothFail(m: map<string, string>, part: string, a: seq<string>, b: seq<string>)
    requires AddInput(m, part) == None
    ensures AddInputs(m, [part] + a) == None && AddInputs(m, [part] + b) == None
  {
  }

  // ----- a bad input -----

  /** The text between braces holds a part that is neither blank nor a pair. */
  predicate LacksColon(body: string) {
    Trimmed(body) && '}' !in body && exists k :: 0 <= k < |Split(body, ',')| && BadPart(Split(body, ',')[k])
  }

  predicate BadPart(part: string) {
    Trim(part) != "" && ':' !in Trim(part)
  }

  lemma {:induction false} BadPartFails(m: map<string, string>, parts: seq<string>, k: nat)
    requires k < |parts| && BadPart(parts[k])
    ensures AddInputs(m, parts) == None
    decreases |parts|
  {
    match AddInput(m, parts[0])
    case None =>
    case Some(m') => BadPartFails(m', parts[1..], k - 1);
  }

  function InBraces(body: string): string {
    ['{'] + (body + ['}'])
  }

  lemma BadBraces(body: string)
    requires LacksColon(body)
    ensures InputsOf(InBraces(body)) == None && IsPart(InBraces(body)) && InBraces(body)[0] == '{'
  {
    var k :| 0 <= k < |Split(body, ',')| && BadPart(Split(body, ',')[k]);
    InputBodyOf(body);
    if body == "" { NoSplit(body); }
    BadPartFails(map[], Split(body, ','), k);
    TrimmedJoin("{", body, "}");
    assert InBraces(body) == "{" + body + "}";
  }

  lemma BadExtraction(body: string, t: string)
    requires LacksColon(body) && Trimmed(t)
    ensures IsPart(InBraces(body) + Follow(t)) && ExtractInputs(InBraces(body) + Follow(t)) == BadInputs
  {
    BadBraces(body);
    FollowIsPart(InBraces(body), t);
    CutBraces(InBraces(body) + Follow(t), body, Follow(t));
    assert "{" + body + "}" == InBraces(body);
  }

  predicate TakesInputs(st: Statement) {
    st.Fetch? || st.Change? || st.Transition? || st.Permission? || st.CallFunc? || st.Announce?
  }

  function CallWith(model: string, braced: string, status: int): string {
    model + (['('] + (braced + ([')'] + Follow(StatusText(status)))))
  }

  /** A statement with this text in place of its inputs. */
  function TextWith(st: Statement, braced: string): string
    requires TakesInputs(st)
  {
    match st
    case Fetch(_, result, package, model, _) => Assigned(result, CallWith(Qualified(package, model), braced, 0))
    case Change(_, package, model, _) => CallWith(Qualified(package, model), braced, 0)
    case Transition(diagram, _, transition, message, status) =>
      diagram + ([' '] + (braced + Follow(Quote(transition) + Follow(NoteText(message, status)))))
    case Permission(action, resource, _, message, status) =>
      Quote(action) + Follow(Quote(resource) + Follow(braced + Follow(NoteText(message, status))))
    case CallFunc(bound, func, _, status) =>
      if bound.None? then CallWith(func, braced, status) else Assigned(bound.value, CallWith(func, braced, status))
    case Announce(topic, _, options) =>
      Quote(topic) + Follow(braced + Follow(if options == [] then "" else Braced(options)))
  }

  /** With its own inputs it is the text of the statement. */
  lemma TextWithOwn(st: Statement)
    requires TakesInputs(st)
    ensures TextOf(st) == TextWith(st, Braced(if st.Announce? then st.payload else st.inputs))
  {
  }

  lemma BadCall(model: string, body: string, status: int)
    requires CleanModel(model) && LacksColon(body) && CleanStatus(status)
    ensures
      var call := CallWith(model, InBraces(body), status);
      IsPart(call) && ParseCallText(call) == CallText(model, None, StatusText(status))
  {
    StatusBack(status);
    BadBraces(body);
    CallTextBack(model, InBraces(body), StatusText(status));
    TrimTrimmed(InBraces(body));
    FollowBack(StatusText(status));
  }

  lemma BadFetch(kind: Kind, result: Result, model: string, body: string)
    requires CleanResult(result) && CleanModel(model) && LacksColon(body)
    ensures
      var text := Assigned(result, CallWith(model, InBraces(body), 0));
      IsPart(text) && ParseCrud(kind, text, true) == Malformed
  {
    var call := CallWith(model, InBraces(body), 0);
    BadCall(model, body, 0);
    ResultBack(result);
    AssignedBack(result, call);
    TrimTrimmed(Assigned(result, call));
  }

  lemma BadChange(kind: Kind, model: string, body: string)
    requires CleanModel(model) && LacksColon(body)
    ensures
      var text := CallWith(model, InBraces(body), 0);
      IsPart(text) && ParseCrud(kind, text, false) == Malformed
  {
    BadCall(model, body, 0);
    TrimTrimmed(CallWith(model, InBraces(body), 0));
  }

  lemma BadTransition(diagram: string, transition: string, message: string, status: int, body: string)
    requires IsPart(diagram) && ' ' !in diagram && '"' !in transition && '"' !in message && CleanStatus(status) && LacksColon(body)
    ensures
      var text := diagram + ([' '] + (InBraces(body) + Follow(Quote(transition) + Follow(NoteText(message, status)))));
      IsPart(text) && ParseState(text) == Malformed
  {
    var quoted := Quote(transition) + Follow(NoteText(message, status));
    var rest := InBraces(body) + Follow(quoted);
    NoteFollows(message, status);
    QuotedBack(transition, NoteText(message, status));
    BadExtraction(body, quoted);
    TrimTrimmed(rest);
    DiagramCut(diagram, rest);
  }

  lemma BadPermission(action: string, resource: string, message: string, status: int, body: string)
    requires '"' !in action && '"' !in resource && '"' !in message && CleanStatus(status) && LacksColon(body)
    ensures
      var text := Quote(action) + Follow(Quote(resource) + Follow(InBraces(body) + Follow(NoteText(message, status))));
      IsPart(text) && ParseAuth(text) == Malformed
  {
    var third := InBraces(body) + Follow(NoteText(message, status));
    var second := Quote(resource) + Follow(third);
    NoteFollows(message, status);
    BadExtraction(body, NoteText(message, status));
    QuotedBack(resource, third);
    QuotedBack(action, second);
    TrimTrimmed(Quote(action) + Follow(second));
    TrimTrimmed(second);
    TrimTrimmed(third);
  }

  lemma BadCallFunc(bound: Option<Result>, func: string, status: int, body: string)
    requires (bound.Some? ==> CleanResult(bound.value)) && CleanModel(func) && CleanStatus(status) && LacksColon(body)
    ensures
      var call := CallWith(func, InBraces(body), status);
      var text := if bound.None? then call else Assigned(bound.value, call);
      IsPart(text) && ParseCall(text) == Malformed
  {
    var call := CallWith(func, InBraces(body), status);
    BadCall(func, body, status);
    TrimTrimmed(call);
    if bound.None? {
      Cut(func, '(', InBraces(body) + ([')'] + Follow(StatusText(status))));
    } else {
      BoundCall(bound.value, call);
    }
  }

  lemma BadAnnounce(topic: string, options: seq<Entry>, body: string)
    requires '"' !in topic && CleanEntries(options) && LacksColon(body)
    ensures
      var text := Quote(topic) + Follow(InBraces(body) + Follow(if options == [] then "" else Braced(options)));
      IsPart(text) && ParsePublish(text) == Malformed
  {
    var third := if options == [] then "" else Braced(options);
    var second := InBraces(body) + Follow(third);
    BracedIsPart(options);
    BadExtraction(body, third);
    QuotedBack(topic, second);
    TrimTrimmed(Quote(topic) + Follow(second));
    TrimTrimmed(second);
  }

  predicate IsBad(st: Statement, text: string) {
    IsPart(text) && ParseStatement(TagOf(st), text) == Malformed
  }

  lemma BadFetchStatement(st: Statement, body: string)
    requires WellFormed(st) && st.Fetch? && LacksColon(body)
    ensures IsBad(st, TextWith(st, InBraces(body)))
  {
    BadFetch(if st.post then Post else Get, st.result, Qualified(st.package, st.model), body);
  }

  lemma BadChangeStatement(st: Statement, body: string)
    requires WellFormed(st) && st.Change? && LacksColon(body)
    ensures IsBad(st, TextWith(st, InBraces(body)))
  {
    BadChange(if st.delete then Delete else Put, Qualified(st.package, st.model), body);
  }

  lemma BadTransitionStatement(st: Statement, body: string)
    requires WellFormed(st) && st.Transition? && LacksColon(body)
    ensures IsBad(st, TextWith(st, InBraces(body)))
  {
    StateDispatch(StateTag, TextWith(st, InBraces(body)));
    BadTransition(st.diagram, st.transition, st.message, st.status, body);
  }

  lemma BadPermissionStatement(st: Statement, body: string)
    requires WellFormed(st) && st.Permission? && LacksColon(body)
    ensures IsBad(st, TextWith(st, InBraces(body)))
  {
    AuthDispatch(AuthTag, TextWith(st, InBraces(body)));
    BadPermission(st.action, st.resource, st.message, st.status, body);
  }

  lemma BadCallStatement(st: Statement, body: string)
    requires WellFormed(st) && st.CallFunc? && LacksColon(body)
    ensures IsBad(st, TextWith(st, InBraces(body)))
  {
    CallDispatch(CallTag, TextWith(st, InBraces(body)));
    BadCallFunc(st.bound, st.func, st.status, body);
  }

  lemma BadAnnounceStatement(st: Statement, body: string)
    requires WellFormed(st) && st.Announce? && LacksColon(body)
    ensures IsBad(st, TextWith(st, InBraces(body)))
  {
    PublishDispatch(PublishTag, TextWith(st, InBraces(body)));
    BadAnnounce(st.topic, st.options, body);
  }

  lemma BadStatement(st: Statement, body: string)
    requires WellFormed(st) && TakesInputs(st) && LacksColon(body)
    ensures IsBad(st, TextWith(st, InBraces(body)))
  {
    match st
    case Fetch(_, _, _, _, _) => BadFetchStatement(st, body);
    case Change(_, _, _, _) => BadChangeStatement(st, body);
    case Transition(_, _, _, _, _) => BadTransitionStatement(st, body);
    case Permission(_, _, _, _, _) => BadPermissionStatement(st, body);
    case CallFunc(_, _, _, _) => BadCallStatement(st, body);
    case Announce(_, _, _) => BadAnnounceStatement(st, body);
  }

  function BadComment(st: Statement, suppress: bool, body: string): string
    requires TakesInputs(st)
  {
    "//" + (" " + Tagged(KeywordText(TagOf(st)), suppress, TextWith(st, InBraces(body))))
  }

  lemma FeedsNothing(items: seq<Line>, comment: string, line: string)
    requires LineOf(comment) == line && HasPrefix(line, "@") && ParseLine(line) == Malformed
    ensures Feed(Scan(items, None), comment) == None
  {
  }

  lemma BadLine(st: Statement, suppress: bool, text: string)
    requires TakesInputs(st) && IsBad(st, text)
    ensures
      var line := Tagged(KeywordText(TagOf(st)), suppress, text);
      IsPart(line) && HasPrefix(line, "@") && ParseLine(line) == Malformed
  {
    TagIsPart(st);
    TaggedIsPart(KeywordText(TagOf(st)), suppress, text);
    StatementLine(TagOf(st), text, Malformed, suppress);
  }

  lemma BadCommentFails(items: seq<Line>, st: Statement, suppress: bool, body: string)
    requires WellFormed(st) && TakesInputs(st) && LacksColon(body)
    ensures Feed(Scan(items, None), BadComment(st, suppress, body)) == None
  {
    var text := TextWith(st, InBraces(body));
    var line := Tagged(KeywordText(TagOf(st)), suppress, text);
    BadStatement(st, body);
    BadLine(st, suppress, text);
    CommentLine(" ", line);
    FeedsNothing(items, BadComment(st, suppress, body), line);
  }

  /** A statement whose inputs hold a part without a colon makes the whole comment fail, whatever statements stand
      before it and whatever comes after. */
  lemma MissingColonFails(before: seq<Piece>, st: Statement, suppress: bool, body: string, after: seq<string>)
    requires CleanPieces(before) && WellFormed(st) && TakesInputs(st) && LacksColon(body)
    ensures ItemsOf(AllComments(before) + ([BadComment(st, suppress, body)] + after)) == None
  {
    PiecesFeed([], before, [BadComment(st, suppress, body)] + after);
    BadCommentFails([] + AllMeant(before), st, suppress, body);
    assert ([BadComment(st, suppress, body)] + after)[0] == BadComment(st, suppress, body);
  }
}
