/** The line parser of service comments: one comment line to one sequence. */
module LineParser {
  import opened Text
  import opened LineText
  import opened SequenceDsl
  import opened Decimal

  /** What one line gives: a sequence, the queue trigger, the start of a response block, nothing, an error, or
      an index out of range. */
  datatype Line =
    | Parsed(sequence: Sequence)
    | Trigger(topic: string)
    | OpensBlock
    | Ignored
    | Malformed
    | OutOfRange

  // ----- key and value pairs -----

  function PairKey(pair: string): string {
    Trim(BeforeFirst(pair, ':'))
  }

  function PairValue(pair: string): string {
    Trim(AfterFirst(pair, ':'))
  }

  function WithPair(m: map<string, string>, pair: string): map<string, string> {
    if PairKey(pair) != "" && PairValue(pair) != "" then m[PairKey(pair) := PairValue(pair)] else m
  }

  /** An input pair; an empty one is skipped, one without a colon is an error. */
  function AddInput(m: map<string, string>, part: string): Option<map<string, string>> {
    var pair := Trim(part);
    if pair == "" then Some(m) else if ':' !in pair then None else Some(WithPair(m, pair))
  }

  function AddInputs(m: map<string, string>, parts: seq<string>): Option<map<string, string>>
    decreases |parts|
  {
    if parts == [] then Some(m)
    else
      match AddInput(m, parts[0])
      case None => None
      case Some(m') => AddInputs(m', parts[1..])
  }

  /** The text between the braces. */
  function InputBody(s: string): string {
    Trim(TrimSuffix(TrimPrefix(Trim(s), "{"), '}'))
  }

  function InputsOf(s: string): Option<map<string, string>> {
    if InputBody(s) == "" then Some(map[]) else AddInputs(map[], Split(InputBody(s), ','))
  }

  method ParseInputs(s: string) returns (inputs: Option<map<string, string>>)
    ensures inputs == InputsOf(s)
  {
    var body := Trim(s);
    body := TrimPrefix(body, "{");
    body := TrimSuffix(body, '}');
    body := Trim(body);
    if body == "" {
      return Some(map[]);
    }
    var result := map[];
    var rest := Split(body, ',');
    while rest != []
      invariant AddInputs(map[], Split(body, ',')) == AddInputs(result, rest)
      decreases |rest|
    {
      var pair := Trim(rest[0]);
      ghost var before := result;
      if pair != "" {
        if ':' !in pair {
          return None;
        }
        var key := Trim(BeforeFirst(pair, ':'));
        var val := Trim(AfterFirst(pair, ':'));
        if key != "" && val != "" {
          result := result[key := val];
        }
      }
      assert AddInput(before, rest[0]) == Some(result);
      rest := rest[1..];
    }
    return Some(result);
  }

  /** A response field; whatever has no colon is skipped. */
  function AddField(m: map<string, string>, line: string): map<string, string> {
    var field := TrimSuffix(Trim(line), ',');
    if ':' !in field then m else WithPair(m, field)
  }

  function AddFields(m: map<string, string>, lines: seq<string>): map<string, string>
    decreases |lines|
  {
    if lines == [] then m else AddFields(AddField(m, lines[0]), lines[1..])
  }

  method ParseResponseFields(lines: seq<string>) returns (fields: map<string, string>)
    ensures fields == AddFields(map[], lines)
  {
    fields := map[];
    var rest := lines;
    while rest != []
      invariant AddFields(map[], lines) == AddFields(fields, rest)
      decreases |rest|
    {
      var line := Trim(rest[0]);
      line := TrimSuffix(line, ',');
      if ':' in line {
        var key := Trim(BeforeFirst(line, ':'));
        var val := Trim(AfterFirst(line, ':'));
        if key != "" && val != "" {
          fields := fields[key := val];
        }
      }
      rest := rest[1..];
    }
  }

  // ----- parts of a line -----

  /** A quoted text at the front and what follows it; without one, the text itself follows. */
  function ExtractQuoted(s: string): (string, string) {
    var t := Trim(s);
    if t == "" || t[0] != '"' || '"' !in t[1..] then ("", t)
    else (BeforeFirst(t[1..], '"'), Trim(AfterFirst(t[1..], '"')))
  }

  datatype Extraction = Extracted(inputs: map<string, string>, rest: string) | BadInputs | BadRange

  /** The first opening to the first closing brace. A closing brace further in front than just before the
      opening one makes the range invalid. */
  function ExtractInputs(s: string): Extraction {
    if '{' !in s || '}' !in s then Extracted(map[], s)
    else
      var head, rest := BeforeFirst(s, '{'), Trim(AfterFirst(s, '}'));
      if '}' !in head then
        match InputsOf("{" + BeforeFirst(AfterFirst(s, '{'), '}') + "}")
        case None => BadInputs
        case Some(inputs) => Extracted(inputs, rest)
      else if head == BeforeFirst(s, '}') + "}" then Extracted(map[], rest)
      else BadRange
  }

  /** A trailing status counts only from 100 to 599. */
  function Status(remainder: string): int {
    var n := ParseInt(remainder, 64);
    if n.Some? && 100 <= n.value <= 599 then n.value else 0
  }

  datatype CallText = CallText(model: string, inputs: Option<map<string, string>>, remainder: string)

  /** "pkg.Func({...}) remainder", up to the last closing parenthesis. */
  function ParseCallText(text: string): CallText {
    var expr := Trim(text);
    var after := AfterFirst(expr, '(');
    if '(' !in expr then CallText(expr, Some(map[]), "")
    else if ')' !in after then CallText(BeforeFirst(expr, '('), Some(map[]), "")
    else
      var inner := Trim(BeforeLast(after, ')'));
      CallText(BeforeFirst(expr, '('), if inner == "" then Some(map[]) else InputsOf(inner), Trim(AfterLast(after, ')')))
  }

  /** "Page[Gig]": a name, then brackets to the end. */
  predicate IsWrapped(typ: string) {
    '[' in typ && typ[0] != '[' && typ[|typ| - 1] == ']'
  }

  function ParseResult(lhs: string): Option<Result> {
    var parts := Fields(Trim(lhs));
    if |parts| != 2 then None
    else if IsWrapped(parts[0]) then
      Some(Result(TrimSuffix(AfterFirst(parts[0], '['), ']'), parts[1], BeforeFirst(parts[0], '[')))
    else Some(Result(parts[0], parts[1], ""))
  }

  /** Three dotted parts, the first in lower case, start with a package. */
  predicate HasPackage(model: string) {
    '.' in model && '.' in AfterFirst(model, '.') && BeforeFirst(model, '.') != "" && 'a' <= model[0] <= 'z'
  }

  function PackageOf(model: string): string {
    if HasPackage(model) then BeforeFirst(model, '.') else ""
  }

  function ModelOf(model: string): string {
    if HasPackage(model) then AfterFirst(model, '.') else model
  }

  // ----- statements -----

  function ParseCrud(kind: Kind, text: string, hasResult: bool): Line {
    var rest := Trim(text);
    if !hasResult then CrudOf(kind, None, ParseCallText(rest))
    else if '=' !in rest then Ignored
    else
      match ParseResult(Trim(BeforeFirst(rest, '=')))
      case None => Ignored
      case Some(r) => CrudOf(kind, Some(r), ParseCallText(Trim(AfterFirst(rest, '='))))
  }

  function CrudOf(kind: Kind, result: Option<Result>, call: CallText): Line {
    if call.inputs.None? then Malformed
    else
      Parsed(Blank.(kind := kind, result := result, package := PackageOf(call.model), model := ModelOf(call.model),
             inputs := call.inputs.value))
  }

  function ParseGuard(kind: Kind, text: string): Line {
    var rest := Trim(text);
    if '"' !in rest then Parsed(Blank.(kind := kind, target := Trim(rest)))
    else
      var (message, remainder) := ExtractQuoted("\"" + AfterFirst(rest, '"'));
      Parsed(Blank.(kind := kind, target := Trim(BeforeFirst(rest, '"')), message := message, errStatus := Status(Trim(remainder))))
  }

  function ParseState(text: string): Line {
    var rest := Trim(text);
    if ' ' !in rest then Ignored
    else
      match ExtractInputs(Trim(AfterFirst(rest, ' ')))
      case BadInputs => Malformed
      case BadRange => OutOfRange
      case Extracted(inputs, quoted) =>
        var (transition, second) := ExtractQuoted(Trim(quoted));
        var (message, remainder) := ExtractQuoted(second);
        Parsed(Blank.(kind := State, diagramID := BeforeFirst(rest, ' '), inputs := inputs, transition := transition,
               message := message, errStatus := Status(Trim(remainder))))
  }

  function ParseAuth(text: string): Line {
    var (action, second) := ExtractQuoted(Trim(text));
    var (resource, third) := ExtractQuoted(Trim(second));
    AuthOf(action, resource, ExtractInputs(Trim(third)))
  }

  function AuthOf(action: string, resource: string, extraction: Extraction): Line {
    match extraction
    case BadInputs => Malformed
    case BadRange => OutOfRange
    case Extracted(inputs, quoted) =>
      var (message, remainder) := ExtractQuoted(Trim(quoted));
      Parsed(Blank.(kind := Auth, action := action, resource := resource, inputs := inputs, message := message,
             errStatus := Status(Trim(remainder))))
  }

  function CallOf(result: Option<Result>, call: CallText): Line {
    if call.inputs.None? then Malformed
    else
      Parsed(Blank.(kind := Call, result := result, model := call.model, inputs := call.inputs.value,
             errStatus := Status(call.remainder)))
  }

  /** With an equals sign before the parenthesis there is a result. */
  function ParseCall(text: string): Line {
    var rest := Trim(text);
    if rest != "" && rest[0] != '=' && '=' in BeforeFirst(rest, '(') then
      match ParseResult(Trim(BeforeFirst(rest, '=')))
      case None => Ignored
      case Some(r) => CallOf(Some(r), ParseCallText(Trim(AfterFirst(rest, '='))))
    else CallOf(None, ParseCallText(rest))
  }

  function ParsePublish(text: string): Line {
    var (topic, second) := ExtractQuoted(Trim(text));
    match ExtractInputs(Trim(second))
    case BadInputs => Malformed
    case BadRange => OutOfRange
    case Extracted(payload, quoted) =>
      var rest := Trim(quoted);
      if !HasPrefix(rest, "{") then Parsed(Blank.(kind := Publish, topic := topic, inputs := payload))
      else
        match ExtractInputs(rest)
        case BadInputs => Malformed
        case BadRange => OutOfRange
        case Extracted(options, _) => Parsed(Blank.(kind := Publish, topic := topic, inputs := payload, options := options))
  }

  /** The tags of the switch. */
  datatype Keyword =
    | GetTag | PostTag | PutTag | DeleteTag | EmptyTag | ExistsTag | StateTag | AuthTag | PublishTag | SubscribeTag | CallTag
    | NoTag

  function KeywordOf(tag: string): Keyword {
    if tag == "@get" then GetTag
    else if tag == "@post" then PostTag
    else if tag == "@put" then PutTag
    else if tag == "@delete" then DeleteTag
    else if tag == "@empty" then EmptyTag
    else if tag == "@exists" then ExistsTag
    else if tag == "@state" then StateTag
    else if tag == "@auth" then AuthTag
    else if tag == "@publish" then PublishTag
    else if tag == "@subscribe" then SubscribeTag
    else if tag == "@call" then CallTag
    else NoTag
  }

  /** The switch on the tag that the first space ends. */
  function ParseStatement(tag: Keyword, text: string): Line {
    match tag
    case GetTag => ParseCrud(Get, text, true)
    case PostTag => ParseCrud(Post, text, true)
    case PutTag => ParseCrud(Put, text, false)
    case DeleteTag => ParseCrud(Delete, text, false)
    case EmptyTag => ParseGuard(Empty, text)
    case ExistsTag => ParseGuard(Exists, text)
    case StateTag => ParseState(text)
    case AuthTag => ParseAuth(text)
    case PublishTag => ParsePublish(text)
    case SubscribeTag => Trigger(ExtractQuoted(Trim(text)).0)
    case CallTag => ParseCall(text)
    case NoTag => Ignored
  }

  function Suppressing(line: Line): Line {
    if line.Parsed? then Parsed(line.sequence.(suppressWarn := true)) else line
  }

  /** An exclamation mark inside the first word, but not at its front. */
  predicate HasBang(tag: string) {
    '!' in tag && tag[0] != '!'
  }

  function TaggedLine(line: string): Line {
    var tag := BeforeFirst(line, ' ');
    if ' ' !in line then Ignored
    else if HasBang(tag) then Suppressing(ParseStatement(KeywordOf(BeforeFirst(tag, '!') + AfterFirst(tag, '!')), AfterFirst(line, ' ')))
    else ParseStatement(KeywordOf(tag), AfterFirst(line, ' '))
  }

  function ResponseTag(line: string): string {
    if HasPrefix(line, "@response!") then "@response!" else "@response"
  }

  function ParseResponse(text: string, suppress: bool): Line
    requires text != ""
  {
    if text == "{" then OpensBlock
    else if text[0] == '{' && text[|text| - 1] == '}' then
      Parsed(Blank.(kind := Response, fields := AddFields(map[], Split(text[1..|text| - 1], ',')), suppressWarn := suppress))
    else Parsed(Blank.(kind := Response, target := text, suppressWarn := suppress))
  }

  /** parseLine. */
  function ParseLine(line: string): Line {
    if HasPrefix(line, "@response") && Trim(TrimPrefix(line, ResponseTag(line))) != "" then
      ParseResponse(Trim(TrimPrefix(line, ResponseTag(line))), HasPrefix(line, "@response!"))
    else TaggedLine(line)
  }

  // ----- comments -----

  datatype Block = Block(suppress: bool, lines: seq<string>)

  /** What a run over comment lines has collected; inside a response block its lines are kept back. */
  datatype Scan = Scan(items: seq<Line>, block: Option<Block>)

  function LineOf(comment: string): string {
    Trim(TrimPrefix(comment, "//"))
  }

  function CloseBlock(b: Block): Line {
    Parsed(Blank.(kind := Response, fields := AddFields(map[], b.lines), suppressWarn := b.suppress))
  }

  /** One comment; None stops the run with an error. */
  function Feed(scan: Scan, comment: string): Option<Scan> {
    var line := LineOf(comment);
    if scan.block.Some? then
      if line == "}" then Some(Scan(scan.items + [CloseBlock(scan.block.value)], None))
      else Some(scan.(block := Some(scan.block.value.(lines := scan.block.value.lines + [line]))))
    else if !HasPrefix(line, "@") then Some(scan)
    else
      match ParseLine(line)
      case OpensBlock => Some(scan.(block := Some(Block(HasPrefix(line, "@response!"), []))))
      case Malformed => None
      case OutOfRange => None
      case Ignored => Some(scan)
      case item => Some(scan.(items := scan.items + [item]))
  }

  function FeedAll(scan: Scan, comments: seq<string>): Option<Scan>
    decreases |comments|
  {
    if comments == [] then Some(scan)
    else
      match Feed(scan, comments[0])
      case None => None
      case Some(next) => FeedAll(next, comments[1..])
  }

  function ItemsOf(comments: seq<string>): Option<seq<Line>> {
    match FeedAll(Scan([], None), comments)
    case None => None
    case Some(scan) => Some(scan.items)
  }

  /** parseComments: one pass with a flag for being inside a response block. */
  method ParseComments(comments: seq<string>) returns (items: Option<seq<Line>>)
    ensures items == ItemsOf(comments)
  {
    var found: seq<Line> := [];
    var inResponse, suppress, lines := false, false, [];
    var rest := comments;
    while rest != []
      invariant FeedAll(Scan([], None), comments)
             == FeedAll(Scan(found, if inResponse then Some(Block(suppress, lines)) else None), rest)
      decreases |rest|
    {
      var line := Trim(TrimPrefix(rest[0], "//"));
      rest := rest[1..];
      if inResponse {
        if line == "}" {
          inResponse := false;
          var fields := ParseResponseFields(lines);
          found := found + [Parsed(Blank.(kind := Response, fields := fields, suppressWarn := suppress))];
          lines := [];
          continue;
        }
        lines := lines + [line];
        continue;
      }
      if !HasPrefix(line, "@") {
        continue;
      }
      match ParseLine(line)
      case OpensBlock =>
        inResponse, suppress, lines := true, HasPrefix(line, "@response!"), [];
      case Malformed =>
        return None;
      case OutOfRange =>
        return None;
      case Ignored =>
      case item =>
        found := found + [item];
    }
    return Some(found);
  }
}
