/** The documented line syntax, as a printer, and the proof that the parser inverts it. */
module LineGrammar {
  import opened Text
  import opened LineText
  import opened SequenceDsl
  import opened Decimal
  import opened LineParser

  /** One "key: value" of a statement, in the order written. */
  datatype Entry = Entry(key: string, val: string)

  /** A statement as a user writes it. */
  datatype Statement =
    | Fetch(post: bool, result: Result, package: string, model: string, inputs: seq<Entry>)
    | Change(delete: bool, package: string, model: string, inputs: seq<Entry>)
    | Guard(present: bool, target: string, message: string, status: int)
    | Transition(diagram: string, inputs: seq<Entry>, transition: string, message: string, status: int)
    | Permission(action: string, resource: string, inputs: seq<Entry>, message: string, status: int)
    | CallFunc(bound: Option<Result>, func: string, inputs: seq<Entry>, status: int)
    | Announce(topic: string, payload: seq<Entry>, options: seq<Entry>)
    | Respond(fields: seq<Entry>)
    | RespondWith(target: string)
    | Subscribe(topic: string)

  // ----- printing -----

  function Pair(e: Entry): string {
    e.key + ([':'] + (" " + e.val))
  }

  function Body(entries: seq<Entry>): string {
    if entries == [] then ""
    else if |entries| == 1 then Pair(entries[0])
    else Pair(entries[0]) + ([','] + (" " + Body(entries[1..])))
  }

  function Braced(entries: seq<Entry>): string {
    ['{'] + (Body(entries) + ['}'])
  }

  function Quote(m: string): string {
    ['"'] + (m + ['"'])
  }

  /** A further part, after a space, when there is one. */
  function Follow(t: string): string {
    if t == "" then "" else " " + t
  }

  function StatusText(status: int): string {
    if status == 0 then "" else FormatInt(status)
  }

  function QuotedStatus(m: string, status: int): string {
    Quote(m) + Follow(StatusText(status))
  }

  /** The message and the status of a failure, where there are any. */
  function NoteText(m: string, status: int): string {
    if m == "" && status == 0 then "" else QuotedStatus(m, status)
  }

  function TypeText(r: Result): string {
    if r.wrapper == "" then r.typ else r.wrapper + (['['] + (r.typ + [']']))
  }

  function ResultText(r: Result): string {
    TypeText(r) + " " + r.name
  }

  function Qualified(package: string, model: string): string {
    if package == "" then model else package + (['.'] + model)
  }

  function CallExpr(model: string, inputs: seq<Entry>, status: int): string {
    model + (['('] + (Braced(inputs) + ([')'] + Follow(StatusText(status)))))
  }

  function Assigned(r: Result, call: string): string {
    ResultText(r) + " " + (['='] + (" " + call))
  }

  function KeywordText(k: Keyword): string {
    match k
    case GetTag => "@get"
    case PostTag => "@post"
    case PutTag => "@put"
    case DeleteTag => "@delete"
    case EmptyTag => "@empty"
    case ExistsTag => "@exists"
    case StateTag => "@state"
    case AuthTag => "@auth"
    case PublishTag => "@publish"
    case SubscribeTag => "@subscribe"
    case CallTag => "@call"
    case NoTag => ""
  }

  predicate IsResponse(st: Statement) {
    st.Respond? || st.RespondWith?
  }

  /** Responses have a line form of their own and no tag in the switch. */
  function TagOf(st: Statement): Keyword {
    match st
    case Fetch(post, _, _, _, _) => if post then PostTag else GetTag
    case Change(delete, _, _, _) => if delete then DeleteTag else PutTag
    case Guard(present, _, _, _) => if present then ExistsTag else EmptyTag
    case Transition(_, _, _, _, _) => StateTag
    case Permission(_, _, _, _, _) => AuthTag
    case CallFunc(_, _, _, _) => CallTag
    case Announce(_, _, _) => PublishTag
    case Respond(_) => NoTag
    case RespondWith(_) => NoTag
    case Subscribe(_) => SubscribeTag
  }

  function TextOf(st: Statement): string {
    match st
    case Fetch(_, result, package, model, inputs) => Assigned(result, CallExpr(Qualified(package, model), inputs, 0))
    case Change(_, package, model, inputs) => CallExpr(Qualified(package, model), inputs, 0)
    case Guard(_, target, message, status) => target + Follow(NoteText(message, status))
    case Transition(diagram, inputs, transition, message, status) =>
      diagram + ([' '] + (Braced(inputs) + Follow(Quote(transition) + Follow(NoteText(message, status)))))
    case Permission(action, resource, inputs, message, status) =>
      Quote(action) + Follow(Quote(resource) + Follow(Braced(inputs) + Follow(NoteText(message, status))))
    case CallFunc(bound, func, inputs, status) =>
      if bound.None? then CallExpr(func, inputs, status) else Assigned(bound.value, CallExpr(func, inputs, status))
    case Announce(topic, payload, options) =>
      Quote(topic) + Follow(Braced(payload) + Follow(if options == [] then "" else Braced(options)))
    case Respond(fields) => ['{'] + (" " + Body(fields) + " " + ['}'])
    case RespondWith(target) => target
    case Subscribe(topic) => Quote(topic)
  }

  /** The line of a statement; an exclamation mark after the tag asks for no warnings. */
  function Render(st: Statement, suppress: bool): string {
    Tagged(if IsResponse(st) then "@response" else KeywordText(TagOf(st)), suppress, TextOf(st))
  }

  function Tagged(tag: string, suppress: bool, text: string): string {
    tag + (if suppress then "!" else "") + ([' '] + text)
  }

  // ----- meaning -----

  function EntriesFrom(m: map<string, string>, entries: seq<Entry>): map<string, string>
    decreases |entries|
  {
    if entries == [] then m else EntriesFrom(m[entries[0].key := entries[0].val], entries[1..])
  }

  function MapOf(entries: seq<Entry>): map<string, string> {
    EntriesFrom(map[], entries)
  }

  function PlainSequence(st: Statement): Line {
    match st
    case Fetch(post, result, package, model, inputs) =>
      Parsed(Blank.(kind := if post then Post else Get, result := Some(result), package := package, model := model,
             inputs := MapOf(inputs)))
    case Change(delete, package, model, inputs) =>
      Parsed(Blank.(kind := if delete then Delete else Put, package := package, model := model, inputs := MapOf(inputs)))
    case Guard(present, target, message, status) =>
      Parsed(Blank.(kind := if present then Exists else Empty, target := target, message := message, errStatus := status))
    case Transition(diagram, inputs, transition, message, status) =>
      Parsed(Blank.(kind := State, diagramID := diagram, inputs := MapOf(inputs), transition := transition, message := message,
             errStatus := status))
    case Permission(action, resource, inputs, message, status) =>
      Parsed(Blank.(kind := Auth, action := action, resource := resource, inputs := MapOf(inputs), message := message,
             errStatus := status))
    case CallFunc(bound, func, inputs, status) =>
      Parsed(Blank.(kind := Call, result := bound, model := func, inputs := MapOf(inputs), errStatus := status))
    case Announce(topic, payload, options) =>
      Parsed(Blank.(kind := Publish, topic := topic, inputs := MapOf(payload), options := MapOf(options)))
    case Respond(fields) => Parsed(Blank.(kind := Response, fields := MapOf(fields)))
    case RespondWith(target) => Parsed(Blank.(kind := Response, target := target))
    case Subscribe(topic) => Trigger(topic)
  }

  /** What the line of a statement stands for. */
  function SequenceOf(st: Statement, suppress: bool): Line {
    if suppress then Suppressing(PlainSequence(st)) else PlainSequence(st)
  }

  // ----- which parts a line can carry -----

  /** A part that stands between delimiters: not empty, no white space at its ends. */
  predicate IsPart(s: string) {
    s != "" && Trimmed(s)
  }

  predicate CleanEntry(e: Entry) {
    && IsPart(e.key) && ':' !in e.key && ',' !in e.key && '}' !in e.key
    && IsPart(e.val) && ',' !in e.val && '}' !in e.val
  }

  predicate CleanEntries(entries: seq<Entry>) {
    forall i :: 0 <= i < |entries| ==> CleanEntry(entries[i])
  }

  predicate CleanStatus(status: int) {
    status == 0 || 100 <= status <= 599
  }

  predicate IsWord(s: string) {
    s != "" && NoSpace(s) && '=' !in s && '(' !in s
  }

  predicate CleanResult(r: Result) {
    && IsWord(r.name) && IsWord(r.typ)
    && (if r.wrapper == "" then !IsWrapped(r.typ) else IsWord(r.wrapper) && '[' !in r.wrapper)
  }

  predicate CleanModel(model: string) {
    IsPart(model) && '(' !in model && '=' !in model
  }

  predicate CleanPackage(package: string, model: string) {
    if package == "" then !HasPackage(model) else IsPart(package) && '.' !in package && 'a' <= package[0] <= 'z' && '.' in model
  }

  predicate WellFormed(st: Statement) {
    match st
    case Fetch(_, result, package, model, inputs) =>
      CleanResult(result) && CleanModel(Qualified(package, model)) && CleanPackage(package, model) && CleanEntries(inputs)
    case Change(_, package, model, inputs) =>
      CleanModel(Qualified(package, model)) && CleanPackage(package, model) && CleanEntries(inputs)
    case Guard(_, target, message, status) => IsPart(target) && '"' !in target && '"' !in message && CleanStatus(status)
    case Transition(diagram, inputs, transition, message, status) =>
      IsPart(diagram) && ' ' !in diagram && CleanEntries(inputs) && '"' !in transition && '"' !in message && CleanStatus(status)
    case Permission(action, resource, inputs, message, status) =>
      '"' !in action && '"' !in resource && CleanEntries(inputs) && '"' !in message && CleanStatus(status)
    case CallFunc(bound, func, inputs, status) =>
      (bound.Some? ==> CleanResult(bound.value)) && CleanModel(func) && CleanEntries(inputs) && CleanStatus(status)
    case Announce(topic, payload, options) => '"' !in topic && CleanEntries(payload) && CleanEntries(options)
    case Respond(fields) => CleanEntries(fields)
    case RespondWith(target) => IsPart(target) && target[0] != '{'
    case Subscribe(topic) => '"' !in topic
  }

  // ----- pairs and braces -----

  lemma Cut(a: string, c: char, b: string)
    requires c !in a
    ensures BeforeFirst(a + ([c] + b), c) == a && AfterFirst(a + ([c] + b), c) == b
  {
    assert a + ([c] + b) == a + [c] + b;
    CutConcat(a, c, b);
  }

  lemma PairIsPart(e: Entry)
    requires CleanEntry(e)
    ensures IsPart(Pair(e)) && ':' in Pair(e) && ',' !in Pair(e) && '}' !in Pair(e)
  {
    TrimmedJoin(e.key, ": ", e.val);
    assert Pair(e) == e.key + ": " + e.val;
    assert Pair(e)[|e.key|] == ':';
  }

  lemma PairBack(m: map<string, string>, e: Entry)
    requires CleanEntry(e)
    ensures WithPair(m, Pair(e)) == m[e.key := e.val]
  {
    Cut(e.key, ':', " " + e.val);
    TrimTrimmed(e.key);
    TrimSpaced(e.val);
  }

  predicate Padding(s: string) {
    s == "" || s == " "
  }

  lemma TrimLeftPadded(pre: string, t: string)
    requires Padding(pre) && t != "" && !IsSpace(t[0])
    ensures TrimLeft(pre + t) == t
  {
    assert TrimLeft(t) == t;
    if pre == " " {
      assert (pre + t)[1..] == t;
    } else {
      assert pre + t == t;
    }
  }

  lemma TrimRightPadded(s: string, post: string)
    requires Padding(post) && s != "" && !IsSpace(s[|s| - 1])
    ensures TrimRight(s + post) == s
  {
    assert TrimRight(s) == s;
    if post == " " {
      assert (s + post)[..|s + post| - 1] == s;
    } else {
      assert s + post == s;
    }
  }

  lemma TrimPadded(pre: string, s: string, post: string)
    requires Padding(pre) && Padding(post) && IsPart(s)
    ensures Trim(pre + s + post) == s
  {
    assert pre + s + post == pre + (s + post);
    assert (s + post)[0] == s[0];
    TrimLeftPadded(pre, s + post);
    TrimRightPadded(s, post);
  }

  lemma InputBack(m: map<string, string>, e: Entry, pre: string)
    requires CleanEntry(e) && Padding(pre)
    ensures AddInput(m, pre + Pair(e)) == Some(m[e.key := e.val])
  {
    PairIsPart(e);
    TrimPadded(pre, Pair(e), "");
    assert pre + Pair(e) + "" == pre + Pair(e);
    PairBack(m, e);
  }

  lemma BodyStep(entries: seq<Entry>, pre: string)
    requires |entries| > 1
    ensures pre + Body(entries) == (pre + Pair(entries[0])) + ([','] + (" " + Body(entries[1..])))
  {
  }

  lemma JoinedIsPart(a: string, b: string)
    requires IsPart(a) && IsPart(b) && '}' !in a && '}' !in b
    ensures IsPart(a + ([','] + (" " + b))) && '}' !in a + ([','] + (" " + b))
  {
    TrimmedJoin(a, ", ", b);
    assert a + ([','] + (" " + b)) == a + ", " + b;
  }

  lemma {:induction false} BodyIsPart(entries: seq<Entry>)
    requires CleanEntries(entries)
    ensures '}' !in Body(entries) && Trimmed(Body(entries))
    ensures entries != [] ==> Body(entries) != ""
  {
    if entries != [] {
      PairIsPart(entries[0]);
      if |entries| > 1 {
        BodyIsPart(entries[1..]);
        JoinedIsPart(Pair(entries[0]), Body(entries[1..]));
      }
    }
  }

  lemma SplitFirst(a: string, b: string)
    requires ',' !in a
    ensures Split(a + ([','] + b), ',') == [a] + Split(b, ',')
  {
    Cut(a, ',', b);
    assert (a + ([','] + b))[|a|] == ',';
  }

  lemma FirstInput(m: map<string, string>, m': map<string, string>, part: string, parts: seq<string>)
    requires AddInput(m, part) == Some(m')
    ensures AddInputs(m, [part] + parts) == AddInputs(m', parts)
  {
    assert ([part] + parts)[1..] == parts;
  }

  lemma NoSplit(part: string)
    requires ',' !in part
    ensures Split(part, ',') == [part] + []
  {
  }

  lemma {:induction false} InputsBack(m: map<string, string>, entries: seq<Entry>, pre: string)
    requires CleanEntries(entries) && entries != [] && Padding(pre)
    ensures AddInputs(m, Split(pre + Body(entries), ',')) == Some(EntriesFrom(m, entries))
    decreases |entries|
  {
    var e, rest := entries[0], entries[1..];
    var part, m' := pre + Pair(e), m[e.key := e.val];
    PairIsPart(e);
    InputBack(m, e, pre);
    if rest == [] {
      NoSplit(part);
      FirstInput(m, m', part, []);
    } else {
      var tail := " " + Body(rest);
      BodyStep(entries, pre);
      SplitFirst(part, tail);
      FirstInput(m, m', part, Split(tail, ','));
      InputsBack(m', rest, " ");
    }
  }

  lemma InputBodyOf(body: string)
    requires Trimmed(body)
    ensures InputBody(['{'] + (body + ['}'])) == body
  {
    var s := ['{'] + (body + ['}']);
    assert s == ['{'] + body + ['}'];
    TrimmedJoin(['{'], body, ['}']);
    TrimTrimmed(s);
    assert "{" <= s && s[1..] == body + ['}'];
    assert (body + ['}'])[..|body|] == body;
    TrimTrimmed(body);
  }

  lemma BracedBack(entries: seq<Entry>)
    requires CleanEntries(entries)
    ensures InputsOf(Braced(entries)) == Some(MapOf(entries))
  {
    BodyIsPart(entries);
    InputBodyOf(Body(entries));
    if entries != [] {
      InputsBack(map[], entries, "");
      assert "" + Body(entries) == Body(entries);
    }
  }

  // ----- parts in a row -----

  lemma FollowIsPart(a: string, t: string)
    requires IsPart(a) && Trimmed(t)
    ensures IsPart(a + Follow(t)) && (a + Follow(t))[0] == a[0]
  {
    if t == "" {
      assert a + "" == a;
    } else {
      TrimmedJoin(a, " ", t);
      assert a + (" " + t) == a + " " + t;
    }
  }

  lemma FollowBack(t: string)
    requires Trimmed(t)
    ensures Trim(Follow(t)) == t
  {
    if t != "" {
      TrimSpaced(t);
    }
  }

  lemma QuoteIsPart(m: string)
    ensures IsPart(Quote(m)) && Quote(m)[0] == '"'
  {
    TrimmedJoin("\"", m, "\"");
    assert Quote(m) == "\"" + m + "\"";
  }

  lemma QuotedParts(s: string, m: string, rest: string)
    requires s == ['"'] + (m + (['"'] + rest)) && '"' !in m && Trim(s) == s
    ensures ExtractQuoted(s) == (m, Trim(rest))
  {
    assert s[1..] == m + (['"'] + rest);
    assert s[1..][|m|] == '"';
    Cut(m, '"', rest);
  }

  lemma QuotedBack(m: string, t: string)
    requires '"' !in m && Trimmed(t)
    ensures IsPart(Quote(m) + Follow(t))
    ensures ExtractQuoted(Quote(m) + Follow(t)) == (m, t)
  {
    var s := Quote(m) + Follow(t);
    QuoteIsPart(m);
    FollowIsPart(Quote(m), t);
    TrimTrimmed(s);
    QuotedText(m, Follow(t));
    QuotedParts(s, m, Follow(t));
    FollowBack(t);
  }

  lemma QuotedText(m: string, rest: string)
    ensures Quote(m) + rest == ['"'] + (m + (['"'] + rest))
  {
  }

  lemma BracedIsPart(entries: seq<Entry>)
    requires CleanEntries(entries)
    ensures IsPart(Braced(entries)) && Braced(entries)[0] == '{'
  {
    TrimmedJoin("{", Body(entries), "}");
    assert Braced(entries) == "{" + Body(entries) + "}";
  }

  lemma BracedFollow(entries: seq<Entry>, t: string)
    requires CleanEntries(entries) && Trimmed(t)
    ensures IsPart(Braced(entries) + Follow(t)) && (Braced(entries) + Follow(t))[0] == '{'
  {
    BracedIsPart(entries);
    FollowIsPart(Braced(entries), t);
  }

  lemma ExtractBack(s: string, body: string, rest: string, inputs: map<string, string>)
    requires s == ['{'] + (body + ['}']) + rest && '}' !in body && InputsOf(['{'] + (body + ['}'])) == Some(inputs)
    ensures ExtractInputs(s) == Extracted(inputs, Trim(rest))
  {
    CutBraces(s, body, rest);
    assert "{" + body + "}" == ['{'] + (body + ['}']);
  }

  lemma BracedThen(entries: seq<Entry>, t: string)
    requires CleanEntries(entries) && Trimmed(t)
    ensures IsPart(Braced(entries) + Follow(t)) && (Braced(entries) + Follow(t))[0] == '{'
    ensures ExtractInputs(Braced(entries) + Follow(t)) == Extracted(MapOf(entries), t)
  {
    BracedFollow(entries, t);
    BodyIsPart(entries);
    BracedBack(entries);
    FollowBack(t);
    ExtractBack(Braced(entries) + Follow(t), Body(entries), Follow(t), MapOf(entries));
  }

  lemma CutBraces(s: string, body: string, rest: string)
    requires s == ['{'] + (body + ['}']) + rest && '}' !in body
    ensures '{' in s && '}' in s && BeforeFirst(s, '{') == "" && BeforeFirst(AfterFirst(s, '{'), '}') == body
    ensures AfterFirst(s, '}') == rest
  {
    assert s == "" + (['{'] + (body + (['}'] + rest)));
    assert s == (['{'] + body) + (['}'] + rest);
    assert s[0] == '{' && s[|body| + 1] == '}';
    Cut("", '{', body + (['}'] + rest));
    Cut(body, '}', rest);
    Cut(['{'] + body, '}', rest);
  }

  lemma StatusBack(status: int)
    requires CleanStatus(status)
    ensures Status(StatusText(status)) == status && Trimmed(StatusText(status)) && ')' !in StatusText(status)
  {
    if status != 0 {
      ParseFormat(status, 64);
      DigitsMeaning(status);
    }
  }

  /** A status outside 100 to 599 does not count. */
  lemma StatusRange(n: int)
    requires IsInt64(n)
    ensures Status(FormatInt(n)) == if 100 <= n <= 599 then n else 0
  {
    ParseFormat(n, 64);
  }

  lemma StatusFollows(m: string, status: int)
    requires '"' !in m && CleanStatus(status)
    ensures IsPart(QuotedStatus(m, status)) && QuotedStatus(m, status)[0] == '"'
    ensures ExtractQuoted(QuotedStatus(m, status)) == (m, StatusText(status))
    ensures Status(Trim(StatusText(status))) == status
  {
    StatusBack(status);
    QuotedBack(m, StatusText(status));
    TrimTrimmed(StatusText(status));
  }

  lemma NoteFollows(m: string, status: int)
    requires '"' !in m && CleanStatus(status)
    ensures Trimmed(NoteText(m, status)) && ExtractQuoted(NoteText(m, status)) == (m, StatusText(status))
    ensures Status(Trim(StatusText(status))) == status
  {
    StatusFollows(m, status);
  }

  // ----- calls and results -----

  lemma CallBack(model: string, inputs: seq<Entry>, status: int)
    requires CleanModel(model) && CleanEntries(inputs) && CleanStatus(status)
    ensures IsPart(CallExpr(model, inputs, status))
    ensures ParseCallText(CallExpr(model, inputs, status)) == CallText(model, Some(MapOf(inputs)), StatusText(status))
  {
    var braced, rem := Braced(inputs), StatusText(status);
    StatusBack(status);
    BracedIsPart(inputs);
    BracedBack(inputs);
    CallTextBack(model, braced, rem);
    TrimTrimmed(braced);
    FollowBack(rem);
  }

  lemma CallTextBack(model: string, inner: string, rem: string)
    requires IsPart(model) && '(' !in model && IsPart(inner) && Trimmed(rem) && ')' !in rem
    ensures var expr := model + (['('] + (inner + ([')'] + Follow(rem))));
            var after := AfterFirst(expr, '(');
            && IsPart(expr) && Trim(expr) == expr && '(' in expr && BeforeFirst(expr, '(') == model && ')' in after
            && BeforeLast(after, ')') == inner && AfterLast(after, ')') == Follow(rem)
  {
    var after := inner + ([')'] + Follow(rem));
    var expr := model + (['('] + after);
    Cut(model, '(', after);
    assert expr[|model|] == '(' && after[|inner|] == ')';
    assert after == inner + [')'] + Follow(rem);
    CutLastConcat(inner, ')', Follow(rem));
    CallIsPart(model, inner, rem);
    TrimTrimmed(expr);
  }

  lemma Regroup(a: string, b: string, c: string, d: string, e: string)
    ensures a + (b + (c + (d + e))) == a + (b + c) + (d + e)
  {
    assert b + (c + (d + e)) == (b + c) + (d + e);
  }

  lemma CallIsPart(model: string, inner: string, rem: string)
    requires IsPart(model) && Trimmed(rem)
    ensures IsPart(model + (['('] + (inner + ([')'] + Follow(rem)))))
  {
    FollowIsPart([')'], rem);
    TrimmedJoin(model, ['('] + inner, [')'] + Follow(rem));
    Regroup(model, ['('], inner, [')'], Follow(rem));
  }

  lemma TypeTextIsWord(r: Result)
    requires CleanResult(r)
    ensures IsWord(TypeText(r))
  {
  }

  lemma WrappedBack(wrapper: string, typ: string)
    requires IsWord(wrapper) && '[' !in wrapper
    ensures var text := wrapper + (['['] + (typ + [']']));
            IsWrapped(text) && BeforeFirst(text, '[') == wrapper && TrimSuffix(AfterFirst(text, '['), ']') == typ
  {
    var text := wrapper + (['['] + (typ + [']']));
    Cut(wrapper, '[', typ + [']']);
    assert text[|wrapper|] == '[' && text[0] == wrapper[0] && text[|text| - 1] == ']';
    assert (typ + [']'])[..|typ|] == typ;
  }

  lemma ResultBack(r: Result)
    requires CleanResult(r)
    ensures IsPart(ResultText(r)) && '=' !in ResultText(r) && '(' !in ResultText(r)
    ensures ParseResult(ResultText(r)) == Some(r)
  {
    TypeTextIsWord(r);
    TrimmedJoin(TypeText(r), " ", r.name);
    TrimTrimmed(ResultText(r));
    TwoFields(TypeText(r), r.name);
    if r.wrapper != "" {
      WrappedBack(r.wrapper, r.typ);
    }
  }

  lemma AssignedBack(r: Result, call: string)
    requires CleanResult(r) && IsPart(call)
    ensures var text := Assigned(r, call);
            && IsPart(text) && '=' in text && text[0] != '='
            && Trim(BeforeFirst(text, '=')) == ResultText(r) && Trim(AfterFirst(text, '=')) == call
  {
    var lhs := ResultText(r);
    ResultBack(r);
    AssignmentBack(lhs, call);
  }

  lemma AssignmentBack(lhs: string, call: string)
    requires IsPart(lhs) && '=' !in lhs && IsPart(call)
    ensures var text := lhs + " " + (['='] + (" " + call));
            && IsPart(text) && '=' in text && text[0] != '='
            && Trim(BeforeFirst(text, '=')) == lhs && Trim(AfterFirst(text, '=')) == call
  {
    var text := lhs + " " + (['='] + (" " + call));
    Cut(lhs + " ", '=', " " + call);
    assert text[|lhs| + 1] == '=' && text[0] == lhs[0];
    TrimPadded("", lhs, " ");
    assert "" + lhs + " " == lhs + " ";
    TrimSpaced(call);
    TrimmedJoin(lhs, " = ", call);
    assert text == lhs + " = " + call;
  }

  lemma QualifiedBack(package: string, model: string)
    requires CleanPackage(package, model)
    ensures PackageOf(Qualified(package, model)) == package && ModelOf(Qualified(package, model)) == model
  {
    if package != "" {
      Cut(package, '.', model);
      assert (package + (['.'] + model))[|package|] == '.';
    }
  }

  // ----- statement by statement -----

  lemma FetchBack(kind: Kind, result: Result, package: string, model: string, inputs: seq<Entry>)
    requires CleanResult(result) && CleanModel(Qualified(package, model)) && CleanPackage(package, model) && CleanEntries(inputs)
    ensures IsPart(Assigned(result, CallExpr(Qualified(package, model), inputs, 0)))
    ensures ParseCrud(kind, Assigned(result, CallExpr(Qualified(package, model), inputs, 0)), true)
         == Parsed(Blank.(kind := kind, result := Some(result), package := package, model := model, inputs := MapOf(inputs)))
  {
    var call := CallExpr(Qualified(package, model), inputs, 0);
    CallBack(Qualified(package, model), inputs, 0);
    ResultBack(result);
    AssignedBack(result, call);
    TrimTrimmed(Assigned(result, call));
    QualifiedBack(package, model);
  }

  lemma ChangeBack(kind: Kind, package: string, model: string, inputs: seq<Entry>)
    requires CleanModel(Qualified(package, model)) && CleanPackage(package, model) && CleanEntries(inputs)
    ensures IsPart(CallExpr(Qualified(package, model), inputs, 0))
    ensures ParseCrud(kind, CallExpr(Qualified(package, model), inputs, 0), false)
         == Parsed(Blank.(kind := kind, package := package, model := model, inputs := MapOf(inputs)))
  {
    CallBack(Qualified(package, model), inputs, 0);
    TrimTrimmed(CallExpr(Qualified(package, model), inputs, 0));
    QualifiedBack(package, model);
  }

  lemma GuardCut(target: string, body: string)
    requires IsPart(target) && '"' !in target && IsPart(['"'] + body)
    ensures var text := target + " " + (['"'] + body);
            && IsPart(text) && Trim(text) == text && '"' in text
            && Trim(BeforeFirst(text, '"')) == target && AfterFirst(text, '"') == body
  {
    var text := target + " " + (['"'] + body);
    TrimmedJoin(target, " ", ['"'] + body);
    TrimTrimmed(text);
    assert text[|target| + 1] == '"';
    Cut(target + " ", '"', body);
    TrimPadded("", target, " ");
    assert "" + target + " " == target + " ";
  }

  lemma GuardOf(kind: Kind, text: string, target: string, body: string, message: string, remainder: string)
    requires Trim(text) == text && '"' in text && Trim(BeforeFirst(text, '"')) == target && AfterFirst(text, '"') == body
    requires ExtractQuoted("\"" + body) == (message, remainder)
    ensures ParseGuard(kind, text)
         == Parsed(Blank.(kind := kind, target := target, message := message, errStatus := Status(Trim(remainder))))
  {
  }

  lemma GuardBack(kind: Kind, target: string, message: string, status: int)
    requires IsPart(target) && '"' !in target && '"' !in message && CleanStatus(status)
    ensures IsPart(target + Follow(NoteText(message, status)))
    ensures ParseGuard(kind, target + Follow(NoteText(message, status)))
         == Parsed(Blank.(kind := kind, target := target, message := message, errStatus := status))
  {
    if message == "" && status == 0 {
      NothingFollows(target, message, status);
      BareGuardBack(kind, target, message, status);
    } else {
      NoteFollowsTarget(target, message, status);
      QuotedGuardBack(kind, target, message, status);
    }
  }

  lemma NothingFollows(target: string, message: string, status: int)
    requires message == "" && status == 0
    ensures target + Follow(NoteText(message, status)) == target
  {
  }

  lemma NoteFollowsTarget(target: string, message: string, status: int)
    requires message != "" || status != 0
    ensures target + Follow(NoteText(message, status)) == target + " " + QuotedStatus(message, status)
  {
    assert target + (" " + QuotedStatus(message, status)) == target + " " + QuotedStatus(message, status);
  }

  /** Without a message the whole text is the target. */
  lemma BareGuardBack(kind: Kind, target: string, message: string, status: int)
    requires IsPart(target) && '"' !in target && message == "" && status == 0
    ensures ParseGuard(kind, target) == Parsed(Blank.(kind := kind, target := target, message := message, errStatus := status))
  {
    TrimTrimmed(target);
  }

  lemma QuotedGuardBack(kind: Kind, target: string, message: string, status: int)
    requires IsPart(target) && '"' !in target && '"' !in message && CleanStatus(status)
    ensures IsPart(target + " " + QuotedStatus(message, status))
    ensures ParseGuard(kind, target + " " + QuotedStatus(message, status))
         == Parsed(Blank.(kind := kind, target := target, message := message, errStatus := status))
  {
    StatusFollows(message, status);
    var quoted := QuotedStatus(message, status);
    var body := QuotedBody(quoted);
    GuardCut(target, body);
    GuardOf(kind, target + " " + quoted, target, body, message, StatusText(status));
  }

  lemma QuotedBody(quoted: string) returns (body: string)
    requires quoted != "" && quoted[0] == '"'
    ensures quoted == ['"'] + body && quoted == "\"" + body
  {
    body := quoted[1..];
  }

  lemma TransitionBack(diagram: string, inputs: seq<Entry>, transition: string, message: string, status: int)
    requires IsPart(diagram) && ' ' !in diagram && CleanEntries(inputs) && '"' !in transition && '"' !in message && CleanStatus(status)
    ensures IsPart(diagram + ([' '] + (Braced(inputs) + Follow(Quote(transition) + Follow(NoteText(message, status))))))
    ensures ParseState(diagram + ([' '] + (Braced(inputs) + Follow(Quote(transition) + Follow(NoteText(message, status))))))
         == Parsed(Blank.(kind := State, diagramID := diagram, inputs := MapOf(inputs), transition := transition,
                   message := message, errStatus := status))
  {
    var last := NoteText(message, status);
    var quoted := Quote(transition) + Follow(last);
    var rest := Braced(inputs) + Follow(quoted);
    NoteFollows(message, status);
    QuotedBack(transition, last);
    BracedThen(inputs, quoted);
    TrimTrimmed(rest);
    TrimTrimmed(quoted);
    DiagramCut(diagram, rest);
  }

  lemma DiagramCut(diagram: string, rest: string)
    requires IsPart(diagram) && ' ' !in diagram && IsPart(rest)
    ensures var text := diagram + ([' '] + rest);
            IsPart(text) && Trim(text) == text && ' ' in text && BeforeFirst(text, ' ') == diagram && AfterFirst(text, ' ') == rest
  {
    var text := diagram + ([' '] + rest);
    Cut(diagram, ' ', rest);
    assert text[|diagram|] == ' ';
    assert text == diagram + " " + rest;
    TrimmedJoin(diagram, " ", rest);
    TrimTrimmed(text);
  }

  lemma PermissionBack(action: string, resource: string, inputs: seq<Entry>, message: string, status: int)
    requires '"' !in action && '"' !in resource && CleanEntries(inputs) && '"' !in message && CleanStatus(status)
    ensures IsPart(Quote(action) + Follow(Quote(resource) + Follow(Braced(inputs) + Follow(NoteText(message, status)))))
    ensures ParseAuth(Quote(action) + Follow(Quote(resource) + Follow(Braced(inputs) + Follow(NoteText(message, status)))))
         == Parsed(Blank.(kind := Auth, action := action, resource := resource, inputs := MapOf(inputs), message := message,
                   errStatus := status))
  {
    var fourth := NoteText(message, status);
    var third := Braced(inputs) + Follow(fourth);
    var second := Quote(resource) + Follow(third);
    var text := Quote(action) + Follow(second);
    NoteFollows(message, status);
    BracedThen(inputs, fourth);
    QuotedBack(resource, third);
    QuotedBack(action, second);
    TrimTrimmed(text);
    TrimTrimmed(second);
    TrimTrimmed(third);
    TrimTrimmed(fourth);
  }

  lemma CallFuncBack(bound: Option<Result>, func: string, inputs: seq<Entry>, status: int)
    requires (bound.Some? ==> CleanResult(bound.value)) && CleanModel(func) && CleanEntries(inputs) && CleanStatus(status)
    ensures var call := CallExpr(func, inputs, status);
            IsPart(if bound.None? then call else Assigned(bound.value, call)) &&
            ParseCall(if bound.None? then call else Assigned(bound.value, call))
            == Parsed(Blank.(kind := Call, result := bound, model := func, inputs := MapOf(inputs), errStatus := status))
  {
    var call := CallExpr(func, inputs, status);
    CallBack(func, inputs, status);
    StatusBack(status);
    TrimTrimmed(call);
    if bound.None? {
      Cut(func, '(', Braced(inputs) + ([')'] + Follow(StatusText(status))));
    } else {
      BoundCall(bound.value, call);
    }
  }

  lemma BoundCall(r: Result, call: string)
    requires CleanResult(r) && IsPart(call)
    ensures var text := Assigned(r, call);
            && IsPart(text) && Trim(text) == text && text[0] != '=' && '=' in BeforeFirst(text, '(')
            && ParseResult(Trim(BeforeFirst(text, '='))) == Some(r) && Trim(AfterFirst(text, '=')) == call
  {
    var text := Assigned(r, call);
    ResultBack(r);
    AssignedBack(r, call);
    TrimTrimmed(text);
    SignBeforeParenthesis(ResultText(r) + " ", " " + call);
  }

  lemma SignBeforeParenthesis(a: string, b: string)
    requires '(' !in a
    ensures '=' in BeforeFirst(a + (['='] + b), '(')
  {
    var s := a + (['='] + b);
    CutAtIndex(s, '(');
    assert s[|a|] == '=';
    if '(' in s {
      var i := IndexOf(s, '(');
      assert forall j :: 0 <= j < |a| ==> s[j] == a[j];
      assert i > |a|;
      assert s[..i][|a|] == '=';
    }
  }

  lemma AnnounceBack(topic: string, payload: seq<Entry>, options: seq<Entry>)
    requires '"' !in topic && CleanEntries(payload) && CleanEntries(options)
    ensures IsPart(Quote(topic) + Follow(Braced(payload) + Follow(if options == [] then "" else Braced(options))))
    ensures ParsePublish(Quote(topic) + Follow(Braced(payload) + Follow(if options == [] then "" else Braced(options))))
         == Parsed(Blank.(kind := Publish, topic := topic, inputs := MapOf(payload), options := MapOf(options)))
  {
    var third := if options == [] then "" else Braced(options);
    var second := Braced(payload) + Follow(third);
    var text := Quote(topic) + Follow(second);
    BracedIsPart(options);
    BracedThen(payload, third);
    QuotedBack(topic, second);
    TrimTrimmed(text);
    TrimTrimmed(second);
    TrimTrimmed(third);
    if options != [] {
      BracedThen(options, "");
      assert third + "" == third;
    }
  }

  lemma SubscribeBack(topic: string)
    requires '"' !in topic
    ensures IsPart(Quote(topic)) && ExtractQuoted(Trim(Quote(topic))).0 == topic
  {
    QuotedBack(topic, "");
    assert Quote(topic) + "" == Quote(topic);
    TrimTrimmed(Quote(topic));
  }

  // ----- response lines -----

  lemma FieldBack(m: map<string, string>, e: Entry, pre: string, post: string)
    requires CleanEntry(e) && Padding(pre) && Padding(post)
    ensures AddField(m, pre + Pair(e) + post) == m[e.key := e.val]
  {
    PairIsPart(e);
    TrimPadded(pre, Pair(e), post);
    PairBack(m, e);
  }

  lemma FirstField(m: map<string, string>, m': map<string, string>, line: string, lines: seq<string>)
    requires AddField(m, line) == m'
    ensures AddFields(m, [line] + lines) == AddFields(m', lines)
  {
    assert ([line] + lines)[1..] == lines;
  }

  lemma Inward(a: string, b: string, c: string, d: string)
    ensures a + (b + c) + d == a + b + (c + d)
  {
  }

  lemma ResponseBodyStep(entries: seq<Entry>, post: string)
    requires |entries| > 1
    ensures " " + Body(entries) + post == (" " + Pair(entries[0]) + "") + ([','] + (" " + Body(entries[1..]) + post))
  {
    var pair, rest := Pair(entries[0]), " " + Body(entries[1..]);
    Inward(" ", pair, [','] + rest, post);
    Inward("", [','], rest, post);
    assert "" + ([','] + rest) == [','] + rest && "" + [','] == [','];
    assert " " + pair + "" == " " + pair;
  }

  lemma {:induction false} FieldsBack(m: map<string, string>, entries: seq<Entry>, post: string)
    requires CleanEntries(entries) && entries != [] && Padding(post)
    ensures AddFields(m, Split(" " + Body(entries) + post, ',')) == EntriesFrom(m, entries)
    decreases |entries|
  {
    var e, rest := entries[0], entries[1..];
    var m' := m[e.key := e.val];
    PairIsPart(e);
    if rest == [] {
      var part := " " + Pair(e) + post;
      FieldBack(m, e, " ", post);
      NoSplit(part);
      FirstField(m, m', part, []);
    } else {
      var part, tail := " " + Pair(e) + "", " " + Body(rest) + post;
      FieldBack(m, e, " ", "");
      ResponseBodyStep(entries, post);
      SplitFirst(part, tail);
      FirstField(m, m', part, Split(tail, ','));
      FieldsBack(m', rest, post);
    }
  }

  lemma NoFieldsBack()
    ensures AddFields(map[], Split(" " + Body([]) + " ", ',')) == map[]
  {
    var part := "  ";
    assert " " + Body([]) + " " == part;
    assert part[1..] == " " && " "[1..] == "";
    assert TrimLeft(part) == TrimLeft(" ") == "";
    NoSplit(part);
    FirstField(map[], map[], part, []);
  }

  lemma BracedResponse(inner: string, suppress: bool)
    ensures var text := ['{'] + (inner + ['}']);
            && IsPart(text)
            && ParseResponse(text, suppress)
               == Parsed(Blank.(kind := Response, fields := AddFields(map[], Split(inner, ',')), suppressWarn := suppress))
  {
    var text := ['{'] + (inner + ['}']);
    TrimmedJoin(['{'], inner, ['}']);
    assert text == ['{'] + inner + ['}'];
    assert text[1..|text| - 1] == inner;
    assert text[0] == '{' && text[|text| - 1] == '}' && |text| > 1;
  }

  lemma RespondFields(fields: seq<Entry>)
    requires CleanEntries(fields)
    ensures AddFields(map[], Split(" " + Body(fields) + " ", ',')) == MapOf(fields)
  {
    if fields == [] {
      NoFieldsBack();
    } else {
      FieldsBack(map[], fields, " ");
    }
  }

  lemma ResponseLine(text: string, suppress: bool)
    requires IsPart(text)
    ensures ParseLine(Tagged("@response", suppress, text)) == ParseResponse(text, suppress)
  {
    var tag := if suppress then "@response!" else "@response";
    var line := "@response" + (if suppress then "!" else "") + ([' '] + text);
    assert line == tag + (" " + text);
    assert line[9] == if suppress then '!' else ' ';
    assert HasPrefix(line, "@response") && ResponseTag(line) == tag;
    assert line[|tag|..] == " " + text;
    TrimSpaced(text);
  }

  // ----- the theorem -----

  lemma KeywordBack(k: Keyword)
    requires k != NoTag
    ensures var tag := KeywordText(k);
            KeywordOf(tag) == k && |tag| > 1 && tag[0] == '@' && tag[1] != 'r' && ' ' !in tag && '!' !in tag
  {
    match k
    case GetTag =>
    case PostTag =>
    case PutTag =>
    case DeleteTag =>
    case EmptyTag =>
    case ExistsTag =>
    case StateTag =>
    case AuthTag =>
    case PublishTag =>
    case SubscribeTag =>
    case CallTag =>
  }

  lemma TaggedBack(tag: string, k: Keyword, suppress: bool, text: string)
    requires KeywordOf(tag) == k && |tag| > 1 && tag[0] == '@' && tag[1] != 'r' && ' ' !in tag && '!' !in tag && IsPart(text)
    ensures ParseLine(Tagged(tag, suppress, text))
         == if suppress then Suppressing(ParseStatement(k, text)) else ParseStatement(k, text)
  {
    var word := tag + (if suppress then "!" else "");
    var line := word + ([' '] + text);
    assert line[1] == tag[1];
    assert !HasPrefix(line, "@response");
    Cut(word, ' ', text);
    assert line[|word|] == ' ';
    if suppress {
      BangCut(tag);
    } else {
      assert word == tag;
    }
  }

  lemma KeywordLine(k: Keyword, suppress: bool, text: string)
    requires k != NoTag && IsPart(text)
    ensures ParseLine(Tagged(KeywordText(k), suppress, text))
         == if suppress then Suppressing(ParseStatement(k, text)) else ParseStatement(k, text)
  {
    KeywordBack(k);
    TaggedBack(KeywordText(k), k, suppress, text);
  }

  lemma BangCut(tag: string)
    requires tag != "" && tag[0] != '!' && '!' !in tag
    ensures HasBang(tag + "!") && BeforeFirst(tag + "!", '!') + AfterFirst(tag + "!", '!') == tag
  {
    assert tag + "!" == tag + (['!'] + "");
    assert (tag + "!")[|tag|] == '!';
    Cut(tag, '!', "");
    assert tag + "" == tag;
  }

  lemma EmptyDispatch(k: Keyword, text: string)
    requires k.EmptyTag?
    ensures ParseStatement(k, text) == ParseGuard(Empty, text)
  {
  }

  lemma ExistsDispatch(k: Keyword, text: string)
    requires k.ExistsTag?
    ensures ParseStatement(k, text) == ParseGuard(Exists, text)
  {
  }

  lemma StateDispatch(k: Keyword, text: string)
    requires k.StateTag?
    ensures ParseStatement(k, text) == ParseState(text)
  {
  }

  lemma AuthDispatch(k: Keyword, text: string)
    requires k.AuthTag?
    ensures ParseStatement(k, text) == ParseAuth(text)
  {
  }

  lemma PublishDispatch(k: Keyword, text: string)
    requires k.PublishTag?
    ensures ParseStatement(k, text) == ParsePublish(text)
  {
  }

  lemma CallDispatch(k: Keyword, text: string)
    requires k.CallTag?
    ensures ParseStatement(k, text) == ParseCall(text)
  {
  }

  lemma GuardStatement(st: Statement)
    requires st.Guard? && WellFormed(st)
    ensures IsPart(TextOf(st)) && ParseStatement(if st.present then ExistsTag else EmptyTag, TextOf(st)) == PlainSequence(st)
  {
    EmptyDispatch(EmptyTag, TextOf(st));
    ExistsDispatch(ExistsTag, TextOf(st));
    GuardBack(if st.present then Exists else Empty, st.target, st.message, st.status);
  }

  lemma FetchStatement(st: Statement)
    requires st.Fetch? && WellFormed(st)
    ensures IsPart(TextOf(st)) && ParseStatement(if st.post then PostTag else GetTag, TextOf(st)) == PlainSequence(st)
  {
    FetchBack(if st.post then Post else Get, st.result, st.package, st.model, st.inputs);
  }

  lemma ChangeStatement(st: Statement)
    requires st.Change? && WellFormed(st)
    ensures IsPart(TextOf(st)) && ParseStatement(if st.delete then DeleteTag else PutTag, TextOf(st)) == PlainSequence(st)
  {
    ChangeBack(if st.delete then Delete else Put, st.package, st.model, st.inputs);
  }

  lemma TransitionStatement(st: Statement)
    requires st.Transition? && WellFormed(st)
    ensures IsPart(TextOf(st)) && ParseStatement(StateTag, TextOf(st)) == PlainSequence(st)
  {
    StateDispatch(StateTag, TextOf(st));
    TransitionBack(st.diagram, st.inputs, st.transition, st.message, st.status);
  }

  lemma PermissionStatement(st: Statement)
    requires st.Permission? && WellFormed(st)
    ensures IsPart(TextOf(st)) && ParseStatement(AuthTag, TextOf(st)) == PlainSequence(st)
  {
    AuthDispatch(AuthTag, TextOf(st));
    PermissionBack(st.action, st.resource, st.inputs, st.message, st.status);
  }

  lemma CallStatement(st: Statement)
    requires st.CallFunc? && WellFormed(st)
    ensures IsPart(TextOf(st)) && ParseStatement(CallTag, TextOf(st)) == PlainSequence(st)
  {
    CallDispatch(CallTag, TextOf(st));
    CallFuncBack(st.bound, st.func, st.inputs, st.status);
  }

  lemma AnnounceStatement(st: Statement)
    requires st.Announce? && WellFormed(st)
    ensures IsPart(TextOf(st)) && ParseStatement(PublishTag, TextOf(st)) == PlainSequence(st)
  {
    PublishDispatch(PublishTag, TextOf(st));
    AnnounceBack(st.topic, st.payload, st.options);
  }

  lemma SubscribeStatement(st: Statement)
    requires st.Subscribe? && WellFormed(st)
    ensures IsPart(TextOf(st)) && ParseStatement(SubscribeTag, TextOf(st)) == PlainSequence(st)
  {
    SubscribeBack(st.topic);
  }

  lemma StatementBack(st: Statement)
    requires WellFormed(st) && !IsResponse(st)
    ensures IsPart(TextOf(st)) && ParseStatement(TagOf(st), TextOf(st)) == PlainSequence(st)
  {
    match st
    case Fetch(_, _, _, _, _) => FetchStatement(st);
    case Change(_, _, _, _) => ChangeStatement(st);
    case Guard(_, _, _, _) => GuardStatement(st);
    case Transition(_, _, _, _, _) => TransitionStatement(st);
    case Permission(_, _, _, _, _) => PermissionStatement(st);
    case CallFunc(_, _, _, _) => CallStatement(st);
    case Announce(_, _, _) => AnnounceStatement(st);
    case Subscribe(_) => SubscribeStatement(st);
  }

  lemma RespondParsed(fields: seq<Entry>, suppress: bool)
    requires CleanEntries(fields)
    ensures IsPart(TextOf(Respond(fields))) && ParseResponse(TextOf(Respond(fields)), suppress) == SequenceOf(Respond(fields), suppress)
  {
    BracedResponse(" " + Body(fields) + " ", suppress);
    RespondFields(fields);
  }

  lemma RespondLine(fields: seq<Entry>, suppress: bool)
    requires CleanEntries(fields)
    ensures ParseLine(Tagged("@response", suppress, TextOf(Respond(fields)))) == SequenceOf(Respond(fields), suppress)
  {
    RespondParsed(fields, suppress);
    ResponseLine(TextOf(Respond(fields)), suppress);
  }

  lemma RespondWithLine(target: string, suppress: bool)
    requires IsPart(target) && target[0] != '{'
    ensures ParseLine(Tagged("@response", suppress, target)) == SequenceOf(RespondWith(target), suppress)
  {
    ResponseLine(target, suppress);
    TargetResponse(target, suppress);
  }

  lemma TargetResponse(target: string, suppress: bool)
    requires IsPart(target) && target[0] != '{'
    ensures ParseResponse(target, suppress) == SequenceOf(RespondWith(target), suppress)
  {
    assert target != "{";
  }

  lemma StatementLine(k: Keyword, text: string, plain: Line, suppress: bool)
    requires k != NoTag && IsPart(text) && ParseStatement(k, text) == plain
    ensures ParseLine(Tagged(KeywordText(k), suppress, text)) == if suppress then Suppressing(plain) else plain
  {
    KeywordLine(k, suppress, text);
  }

  /** The parser inverts the documented grammar: every statement whose parts avoid the delimiters, written as
      one line, parses to exactly its sequence. */
  lemma ParserInvertsGrammar(st: Statement, suppress: bool)
    requires WellFormed(st)
    ensures ParseLine(Render(st, suppress)) == SequenceOf(st, suppress)
  {
    if st.Respond? {
      RespondLine(st.fields, suppress);
    } else if st.RespondWith? {
      RespondWithLine(st.target, suppress);
    } else {
      StatementBack(st);
      StatementLine(TagOf(st), TextOf(st), PlainSequence(st), suppress);
    }
  }
}
