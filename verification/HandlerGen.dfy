/** The generator: from a service function to the body of a Go handler. */
module HandlerGen {
  import opened Text
  import opened SequenceDsl
  import opened GoBody
  import opened CallOrder

  // ----- inputs of the generator -----

  datatype GoType = GoString | GoInt64 | GoInt | GoFloat64 | GoBool | GoTime

  datatype Param = Param(name: string, goType: GoType)

  /** What the generator looks up in the symbol table. `present` is false when there is none. */
  datatype Symbols = Symbols(
    present: bool, pathParams: seq<Param>, paramOrder: map<string, seq<string>>, callStatus: map<string, int>)

  /** One service function to generate. `raw` lists its request parameters outside the path;
      `camel` stands for strcase.ToGoCamel. */
  datatype Job = Job(subscribe: bool, seqs: seq<Sequence>, symbols: Symbols, raw: seq<Param>, camel: string -> string)

  predicate UsesCurrentUser(s: Sequence) {
    || s.kind == Auth
    || (exists i :: 0 <= i < |s.args| && s.args[i].source == "currentUser")
    || (exists k :: k in s.inputs && HasPrefix(s.inputs[k], "currentUser."))
  }

  predicate NeedsCurrentUser(seqs: seq<Sequence>) {
    exists i :: 0 <= i < |seqs| && UsesCurrentUser(seqs[i])
  }

  predicate NeedsQueryOpts(seqs: seq<Sequence>) {
    exists i :: 0 <= i < |seqs| && HasQuery(seqs[i].inputs)
  }

  /** Request fields a sequence refers to. */
  function RequestFieldsOf(s: Sequence): set<string> {
    (set i | 0 <= i < |s.args| && s.args[i].source == "request" :: s.args[i].field)
    + (set k | k in s.inputs && HasPrefix(s.inputs[k], "request.") :: s.inputs[k][8..])
  }

  function RequestFields(seqs: seq<Sequence>): set<string> {
    if seqs == [] then {} else RequestFields(seqs[..|seqs| - 1]) + RequestFieldsOf(seqs[|seqs| - 1])
  }

  function ParamNames(params: seq<Param>): set<string> {
    set i | 0 <= i < |params| :: params[i].name
  }

  lemma ParamNamesAppend(params: seq<Param>, p: Param)
    ensures ParamNames(params + [p]) == ParamNames(params) + {p.name}
  {
    var all := params + [p];
    assert all[|params|] == p;
    forall x | x in ParamNames(params) ensures x in ParamNames(all) {
      var j :| 0 <= j < |params| && params[j].name == x;
      assert all[j].name == x;
    }
  }

  predicate DistinctNames(params: seq<Param>) {
    forall i, j :: 0 <= i < j < |params| ==> params[i].name != params[j].name
  }

  /** A sequence takes this request field, in an argument or as `request.X` in an input. */
  predicate TakesField(s: Sequence, f: string) {
    || (exists a :: a in s.args && a.source == "request" && a.field == f)
    || (exists k :: k in s.inputs && s.inputs[k] == "request." + f)
  }

  lemma TakesMeans(s: Sequence, f: string)
    ensures f in RequestFieldsOf(s) <==> TakesField(s, f)
  {
    if a :| a in s.args && a.source == "request" && a.field == f {
      var i :| 0 <= i < |s.args| && s.args[i] == a;
      assert s.args[i].field in RequestFieldsOf(s);
    }
    forall k | k in s.inputs ensures s.inputs[k] == "request." + f <==> HasPrefix(s.inputs[k], "request.") && s.inputs[k][8..] == f {
      PrefixForm(s.inputs[k], f);
    }
  }

  lemma PrefixForm(val: string, f: string)
    ensures val == "request." + f <==> HasPrefix(val, "request.") && val[8..] == f
  {
    if HasPrefix(val, "request.") { assert val == "request." + val[8..]; }
  }

  lemma {:induction false} FieldsMean(seqs: seq<Sequence>, f: string)
    ensures f in RequestFields(seqs) <==> exists i :: 0 <= i < |seqs| && TakesField(seqs[i], f)
  {
    if seqs != [] {
      var before := seqs[..|seqs| - 1];
      FieldsMean(before, f);
      TakesMeans(seqs[|seqs| - 1], f);
      if i :| 0 <= i < |before| && TakesField(before[i], f) {
        assert seqs[i] == before[i];
      }
      if i :| 0 <= i < |seqs| && TakesField(seqs[i], f) {
        assert i < |before| ==> before[i] == seqs[i];
      }
    }
  }

  /** collectRequestParams lists every request field the sequences use and the path does not supply,
      once each, in some order. `typeOf` is the lookup of the field's column type. */
  method CollectRequestParams(seqs: seq<Sequence>, path: set<string>, typeOf: string -> GoType) returns (raw: seq<Param>)
    ensures ParamNames(raw) == RequestFields(seqs) - path
    ensures forall f :: f in ParamNames(raw) <==> f !in path && exists i :: 0 <= i < |seqs| && TakesField(seqs[i], f)
    ensures DistinctNames(raw)
    ensures forall i :: 0 <= i < |raw| ==> raw[i].goType == typeOf(raw[i].name)
  {
    forall f { FieldsMean(seqs, f); }
    raw := [];
    var seen: set<string> := {};
    for i := 0 to |seqs|
      invariant seen == ParamNames(raw) == RequestFields(seqs[..i]) - path
      invariant DistinctNames(raw)
      invariant forall j :: 0 <= j < |raw| ==> raw[j].goType == typeOf(raw[j].name)
    {
      assert seqs[..i + 1][..i] == seqs[..i];
      var fields := RequestFieldsOf(seqs[i]);
      var rest := fields;
      while rest != {}
        invariant rest <= fields
        invariant seen == ParamNames(raw) == (RequestFields(seqs[..i]) + (fields - rest)) - path
        invariant DistinctNames(raw)
        invariant forall j :: 0 <= j < |raw| ==> raw[j].goType == typeOf(raw[j].name)
        decreases rest
      {
        var f :| f in rest;
        rest := rest - {f};
        if f !in seen && f !in path {
          ParamNamesAppend(raw, Param.Param(f, typeOf(f)));
          assert forall j :: 0 <= j < |raw| ==> raw[j].name in ParamNames(raw);
          raw := raw + [Param.Param(f, typeOf(f))];
          seen := seen + {f};
        }
      }
    }
    assert seqs[..|seqs|] == seqs;
  }

  // ----- preamble -----

  const BAD_REQUEST := ErrorJson(400, Fixed("bad request"), false)

  predicate UsesJsonBody(job: Job) {
    || (job.symbols.present && |job.raw| >= 2)
    || (|job.raw| >= 1 && exists i :: 0 <= i < |job.seqs| && job.seqs[i].kind in {Post, Put})
  }

  /** A path parameter that is not a string: its text is converted first. */
  predicate Converts(p: Param) {
    p.goType in {GoInt64, GoFloat64}
  }

  function PathParamCode(p: Param, camel: string -> string): seq<Stmt> {
    if Converts(p) then
      [Init(camel(p.name) + "Str", ParamText(p.name)),
       Let([camel(p.name), "err"], true, ConvertOp(p.name, camel(p.name) + "Str")),
       CheckErr(BAD_REQUEST)]
    else [Init(camel(p.name), ParamValue(p.name))]
  }

  predicate ConvertsText(t: GoType) {
    t in {GoInt64, GoFloat64, GoBool, GoTime}
  }

  function QueryParamCode(p: Param, camel: string -> string): seq<Stmt> {
    if ConvertsText(p.goType) then
      [Let([camel(p.name), "err"], true, ConvertOp(p.name, "c")), CheckErr(BAD_REQUEST)]
    else [Init(camel(p.name), ParamValue(p.name))]
  }

  function PathCode(params: seq<Param>, camel: string -> string): seq<Stmt> {
    if params == [] then [] else PathParamCode(params[0], camel) + PathCode(params[1..], camel)
  }

  function QueryCode(params: seq<Param>, camel: string -> string): seq<Stmt> {
    if params == [] then [] else QueryParamCode(params[0], camel) + QueryCode(params[1..], camel)
  }

  function BodyFieldCode(params: seq<Param>, camel: string -> string): seq<Stmt> {
    if params == [] then []
    else [Init(camel(params[0].name), BodyField(params[0].name))] + BodyFieldCode(params[1..], camel)
  }

  function RequestCode(job: Job): seq<Stmt> {
    if UsesJsonBody(job) then
      [VarDecl("req"), IfCall(true, BindBodyOp, BAD_REQUEST)] + BodyFieldCode(job.raw, job.camel)
    else QueryCode(job.raw, job.camel)
  }

  /** hasConversionErr: whether the generator takes err to be declared by the request parameters.
      For a JSON body it looks at time.Time fields only, and those declare nothing. */
  predicate HasConversionErr(job: Job) {
    if UsesJsonBody(job) then exists i :: 0 <= i < |job.raw| && job.raw[i].goType == GoTime
    else exists i :: 0 <= i < |job.raw| && job.raw[i].goType != GoString
  }

  function BeginCode(subscribe: bool): seq<Stmt> {
    [Let(["tx", "err"], true, BeginOp),
     CheckErr(if subscribe then ReturnError(Fixed("transaction failed"), true)
              else ErrorJson(500, Fixed("transaction failed"), false)),
     DeferRollback]
  }

  function CommitExit(subscribe: bool): Exit {
    if subscribe then ReturnError(Fixed("commit failed"), true) else ErrorJson(500, Fixed("commit failed"), false)
  }

  function CommitCode(subscribe: bool): seq<Stmt> {
    [IfCall(false, CommitOp, CommitExit(subscribe))]
  }

  function UserCode(job: Job): seq<Stmt> {
    if NeedsCurrentUser(job.seqs) then [Init("currentUser", UserSource)] else []
  }

  function OptsCode(job: Job): seq<Stmt> {
    if NeedsQueryOpts(job.seqs) then [Init("opts", QuerySource)] else []
  }

  function InputCodeBefore(job: Job): seq<Stmt> {
    if job.subscribe then []
    else PathCode(job.symbols.pathParams, job.camel) + UserCode(job) + RequestCode(job) + OptsCode(job)
  }

  // ----- one sequence -----

  function InputCode(val: string, camel: string -> string): Code {
    if val == "query" then "opts"
    else if HasPrefix(val, "request.") then camel(val[8..])
    else val
  }

  function InputFields(inputs: map<string, string>, camel: string -> string): map<string, Code> {
    map k | k in inputs :: InputCode(inputs[k], camel)
  }

  const USER_ID := "currentUser." + "ID"
  const USER_ROLE := "currentUser." + "Role"

  /** The two fields the @auth template writes itself override inputs of the same name. */
  function AuthFields(inputs: map<string, string>, camel: string -> string): map<string, Code> {
    InputFields(inputs, camel)["UserID" := USER_ID]["Role" := USER_ROLE]
  }

  function ZeroCheck(typ: string): Check {
    if typ in {"int", "int32", "int64", "float64"} then EqZero
    else if typ == "bool" then EqFalse
    else if typ == "string" then EqEmpty
    else EqNil
  }

  function ExistsCheck(typ: string): Check {
    if typ in {"int", "int32", "int64", "float64"} then GtZero
    else if typ == "bool" then EqTrue
    else if typ == "string" then NeEmpty
    else NeNil
  }

  /** Declared type of each result variable; the last declaration in the function wins. */
  function ResultTypes(seqs: seq<Sequence>): map<string, string> {
    if seqs == [] then map[]
    else
      var before := ResultTypes(seqs[..|seqs| - 1]);
      var last := seqs[|seqs| - 1];
      if last.result.Some? then before[last.result.value.name := last.result.value.typ] else before
  }

  datatype Ctx = Ctx(
    subscribe: bool, useTx: bool, used: set<string>, types: map<string, string>, symbols: Symbols,
    camel: string -> string)

  function CtxOf(job: Job): Ctx {
    Ctx(job.subscribe, HasWrite(job.seqs), UsedVars(job.seqs), ResultTypes(job.seqs), job.symbols, job.camel)
  }

  function TypeOf(ctx: Ctx, name: string): string {
    if name in ctx.types then ctx.types[name] else ""
  }

  function NoteOf(s: Sequence): Note {
    if s.message != "" then Message(s.message)
    else DefaultMessage(s.kind, if s.target != "" then s.target else ModelName(s.model))
  }

  function DefaultStatus(kind: Kind): int {
    match kind
    case Empty => 404
    case Exists => 409
    case State => 409
    case Auth => 403
    case _ => 500
  }

  function StatusOf(s: Sequence, symbols: Symbols): int {
    match s.kind
    case Get => 500
    case Post => 500
    case Put => 500
    case Delete => 500
    case Publish => 500
    case Call =>
      if s.errStatus != 0 then s.errStatus
      else if s.model in symbols.callStatus && symbols.callStatus[s.model] != 0 then symbols.callStatus[s.model]
      else 500
    case _ => if s.errStatus != 0 then s.errStatus else DefaultStatus(s.kind)
  }

  /** How a sequence leaves the handler when it fails. */
  function ExitOf(s: Sequence, ctx: Ctx): Exit {
    if s.kind == State then
      (if ctx.subscribe then ReturnError(ErrOnly, true) else ErrorJson(StatusOf(s, ctx.symbols), ErrOnly, true))
    else if ctx.subscribe then ReturnError(NoteOf(s), !(s.kind in {Empty, Exists}))
    else ErrorJson(StatusOf(s, ctx.symbols), NoteOf(s), false)
  }

  /** A list query: its model method also returns the total count. */
  predicate HasTotal(s: Sequence) {
    HasQuery(s.inputs) && s.result.Some? && HasPrefix(s.result.value.typ, "[]") && s.result.value.wrapper == ""
  }

  function ResultName(s: Sequence): string {
    if s.result.Some? then s.result.value.name else ""
  }

  datatype TemplateData = TemplateData(firstErr: bool, hasTotal: bool, reAssign: bool, unused: bool)

  /** Sequences whose template binds err, at function level or only inside an `if`. */
  predicate TouchesErr(s: Sequence) {
    s.kind in {Get, Post, Put, Delete, Auth, Call, Publish}
  }

  predicate ReturnsResult(s: Sequence) {
    s.kind in {Get, Post} || (s.kind == Call && s.result.Some?)
  }

  function DataOf(s: Sequence, ctx: Ctx, errDeclared: bool, declared: set<string>, funcHasTotal: bool): TemplateData {
    var unused := s.result.Some? && s.result.value.name !in ctx.used;
    TemplateData(
      TouchesErr(s) && (ReturnsResult(s) || !errDeclared),
      if s.kind == Response && !ctx.subscribe then funcHasTotal else HasTotal(s),
      s.result.Some? && (s.result.value.name in declared || (unused && errDeclared)),
      unused)
  }

  /** Parameter names of a model method, empty when the symbol table does not know it. */
  function OrderOf(s: Sequence, symbols: Symbols): seq<string> {
    if s.model in symbols.paramOrder then symbols.paramOrder[s.model] else []
  }

  function ArgCodes(keys: seq<string>, inputs: map<string, string>, camel: string -> string): seq<Code> {
    if keys == [] then [] else [InputCode(ValueAt(inputs, keys[0]), camel)] + ArgCodes(keys[1..], inputs, camel)
  }

  ghost function ModelOpOf(s: Sequence, ctx: Ctx): GoBody.Call {
    ModelOp(ModelName(s.model), MethodName(s.model), ctx.useTx, IsWrite(s),
            ArgCodes(CallKeys(s.inputs, OrderOf(s, ctx.symbols)), s.inputs, ctx.camel))
  }

  function LeftSide(s: Sequence, d: TemplateData): seq<string> {
    [if d.unused then "_" else ResultName(s)] + (if d.hasTotal && s.kind == Get then ["total"] else []) + ["err"]
  }

  /** The outside call in the code of a sequence that makes one. */
  ghost function CallOf(s: Sequence, ctx: Ctx): GoBody.Call
    requires s.kind !in {Empty, Exists, Response}
  {
    match s.kind
    case State => TransitionOp(s.diagramID, s.transition, InputFields(s.inputs, ctx.camel))
    case Auth => AuthOp(s.action, s.resource, AuthFields(s.inputs, ctx.camel))
    case Call => FuncOp(ModelName(s.model), MethodName(s.model), InputFields(s.inputs, ctx.camel))
    case Publish => PublishOp(s.topic, InputFields(s.inputs, ctx.camel), s.options)
    case _ => ModelOpOf(s, ctx)
  }

  /** A guard's test of its target. */
  function GuardCheck(s: Sequence, ctx: Ctx): Check {
    var typ := TypeOf(ctx, RootVar(s.target));
    if s.kind == Empty then ZeroCheck(typ) else ExistsCheck(typ)
  }

  function PayloadOf(s: Sequence, withTotal: bool): Payload {
    if s.target != "" then Direct(s.target) else Fields(s.fields, withTotal)
  }

  /** The templates: the statements of one sequence. */
  ghost function Emit(s: Sequence, ctx: Ctx, d: TemplateData): seq<Stmt> {
    var exit := ExitOf(s, ctx);
    if s.kind == Response then [Respond(PayloadOf(s, d.hasTotal))]
    else if s.kind in {Empty, Exists} then [IfHolds(s.target, GuardCheck(s, ctx), exit)]
    else if ReturnsResult(s) then [Let(LeftSide(s, d), !d.reAssign, CallOf(s, ctx)), CheckErr(exit)]
    else if s.kind in {Put, Delete, Publish} then [Let(["err"], d.firstErr, CallOf(s, ctx)), CheckErr(exit)]
    else [IfCall(s.kind == State || d.firstErr, CallOf(s, ctx), exit)]
  }

  // ----- the whole body -----

  predicate CommitsBefore(s: Sequence, ctx: Ctx, committed: bool) {
    ctx.useTx && !ctx.subscribe && s.kind == Response && !committed
  }

  function Closing(ctx: Ctx, committed: bool): seq<Stmt> {
    (if ctx.useTx && !committed then CommitCode(ctx.subscribe) else []) + (if ctx.subscribe then [ReturnNil] else [])
  }

  function DeclaredAfter(s: Sequence, declared: set<string>): set<string> {
    if s.result.Some? then declared + {s.result.value.name} else declared
  }

  /** Code of the remaining sequences, given what the generator tracks about the earlier ones. */
  ghost function CodeFrom(seqs: seq<Sequence>, ctx: Ctx, errDeclared: bool, declared: set<string>,
                          funcHasTotal: bool, committed: bool): seq<Stmt>
  {
    if seqs == [] then Closing(ctx, committed)
    else
      var s := seqs[0];
      var total := funcHasTotal || HasTotal(s);
      StepCode(s, ctx, errDeclared, declared, total, committed)
      + CodeFrom(seqs[1..], ctx, errDeclared || TouchesErr(s), DeclaredAfter(s, declared), total,
                 committed || CommitsBefore(s, ctx, committed))
  }

  ghost function StepCode(s: Sequence, ctx: Ctx, errDeclared: bool, declared: set<string>,
                          funcHasTotal: bool, committed: bool): seq<Stmt>
  {
    (if CommitsBefore(s, ctx, committed) then CommitCode(ctx.subscribe) else [])
    + Emit(s, ctx, DataOf(s, ctx, errDeclared, declared, funcHasTotal))
  }

  /** errDeclared before the first sequence. */
  predicate ErrDeclaredAtStart(job: Job) {
    HasWrite(job.seqs) || (!job.subscribe && HasConversionErr(job))
  }

  ghost function HandlerBody(job: Job): seq<Stmt> {
    InputCodeBefore(job)
    + (if HasWrite(job.seqs) then BeginCode(job.subscribe) else [])
    + CodeFrom(job.seqs, CtxOf(job), ErrDeclaredAtStart(job), {}, false, false)
  }

  /** Sequences for which the templates produce Go text that parses. */
  predicate Renders(s: Sequence, subscribe: bool) {
    && (s.kind in {Get, Post} ==> s.result.Some?)
    && (s.kind in {Get, Post, Put, Delete, Call} ==> ModelName(s.model) != "" && MethodName(s.model) != "")
    && !(subscribe && s.kind == Response)
  }

  // ----- the generator's own loops -----

  /** The pointers and maps buildTemplateData writes through. */
  class Tracker {
    var errDeclared: bool
    var declaredVars: set<string>

    constructor (errDeclared: bool)
      ensures this.errDeclared == errDeclared && declaredVars == {}
    {
      this.errDeclared := errDeclared;
      declaredVars := {};
    }

    /** buildTemplateData, with the adjustment for unused results both generators make. */
    method BuildTemplateData(s: Sequence, ctx: Ctx, funcHasTotal: bool) returns (d: TemplateData)
      modifies this
      ensures d == DataOf(s, ctx, old(errDeclared), old(declaredVars), funcHasTotal)
      ensures errDeclared == (old(errDeclared) || TouchesErr(s))
      ensures declaredVars == DeclaredAfter(s, old(declaredVars))
    {
      var hasTotal := HasTotal(s);
      var reAssign := false;
      if s.result.Some? {
        if s.result.value.name in declaredVars {
          reAssign := true;
        }
        declaredVars := declaredVars + {s.result.value.name};
      }
      var wasDeclared := errDeclared;
      var firstErr := false;
      match s.kind {
        case Get =>
          firstErr := true;
          errDeclared := true;
        case Post =>
          firstErr := true;
          errDeclared := true;
        case Call =>
          if s.result.Some? || !errDeclared {
            firstErr := true;
          }
          errDeclared := true;
        case Auth =>
          firstErr := !errDeclared;
          errDeclared := true;
        case Put =>
          firstErr := !errDeclared;
          errDeclared := true;
        case Delete =>
          firstErr := !errDeclared;
          errDeclared := true;
        case Publish =>
          firstErr := !errDeclared;
          errDeclared := true;
        case _ =>
      }
      if s.kind == Response && !ctx.subscribe {
        hasTotal := funcHasTotal;
      }
      var unused := false;
      if s.result.Some? && s.result.value.name !in ctx.used {
        unused := true;
        if wasDeclared {
          reAssign := true;
        }
      }
      d := TemplateData(firstErr, hasTotal, reAssign, unused);
    }
  }

  /** A sequence uses this variable: it is the root of its target, of an input that is no literal and no request,
      user or query value, or of a field that is no literal. */
  predicate Uses(s: Sequence, x: string) {
    || (s.target != "" && RootVar(s.target) == x)
    || (exists k :: k in s.inputs && RootVar(s.inputs[k]) == x && s.inputs[k] != "query" && !HasPrefix(s.inputs[k], "\"")
          && !HasPrefix(s.inputs[k], "request.") && !HasPrefix(s.inputs[k], "currentUser."))
    || (exists k :: k in s.fields && RootVar(s.fields[k]) == x && !HasPrefix(s.fields[k], "\""))
  }

  lemma UsesMeans(s: Sequence, x: string)
    ensures x in UsedBy(s) <==> Uses(s, x)
  {
  }

  lemma {:induction false} UsedMean(seqs: seq<Sequence>, x: string)
    ensures x in UsedVars(seqs) <==> exists i :: 0 <= i < |seqs| && Uses(seqs[i], x)
  {
    if seqs != [] {
      var rest := seqs[1..];
      UsedMean(rest, x);
      UsesMeans(seqs[0], x);
      if i :| 0 <= i < |rest| && Uses(rest[i], x) {
        assert seqs[i + 1] == rest[i];
      }
      if i :| 0 <= i < |seqs| && Uses(seqs[i], x) {
        assert i > 0 ==> rest[i - 1] == seqs[i];
      }
    }
  }

  /** collectUsedVars: exactly the variables that some sequence uses. */
  method CollectUsedVars(seqs: seq<Sequence>) returns (used: set<string>)
    ensures used == UsedVars(seqs)
    ensures forall x :: x in used <==> exists i :: 0 <= i < |seqs| && Uses(seqs[i], x)
  {
    forall x { UsedMean(seqs, x); }
    used := {};
    var i := |seqs|;
    while i > 0
      invariant 0 <= i <= |seqs|
      invariant used == UsedVars(seqs[i..])
    {
      i := i - 1;
      assert seqs[i..][1..] == seqs[i + 1..];
      used := UsedBy(seqs[i]) + used;
    }
  }

  method CollectResultTypes(seqs: seq<Sequence>) returns (types: map<string, string>)
    ensures types == ResultTypes(seqs)
  {
    types := map[];
    for i := 0 to |seqs|
      invariant types == ResultTypes(seqs[..i])
    {
      assert seqs[..i + 1][..i] == seqs[..i];
      if seqs[i].result.Some? {
        types := types[seqs[i].result.value.name := seqs[i].result.value.typ];
      }
    }
    assert seqs[..|seqs|] == seqs;
  }

  method RenderModelOp(s: Sequence, ctx: Ctx) returns (op: GoBody.Call)
    ensures op == ModelOpOf(s, ctx)
  {
    var keys := BuildCallKeys(s.inputs, OrderOf(s, ctx.symbols));
    op := ModelOp(ModelName(s.model), MethodName(s.model), ctx.useTx, IsWrite(s), ArgCodes(keys, s.inputs, ctx.camel));
  }

  /** Executing the template of a sequence. */
  method Render(s: Sequence, ctx: Ctx, d: TemplateData) returns (code: seq<Stmt>)
    ensures code == Emit(s, ctx, d)
  {
    var exit := ExitOf(s, ctx);
    match s.kind
    case Get =>
      var op := RenderModelOp(s, ctx);
      code := [Let(LeftSide(s, d), !d.reAssign, op), CheckErr(exit)];
    case Post =>
      var op := RenderModelOp(s, ctx);
      code := [Let(LeftSide(s, d), !d.reAssign, op), CheckErr(exit)];
    case Put =>
      var op := RenderModelOp(s, ctx);
      code := [Let(["err"], d.firstErr, op), CheckErr(exit)];
    case Delete =>
      var op := RenderModelOp(s, ctx);
      code := [Let(["err"], d.firstErr, op), CheckErr(exit)];
    case Empty =>
      code := [IfHolds(s.target, ZeroCheck(TypeOf(ctx, RootVar(s.target))), exit)];
    case Exists =>
      code := [IfHolds(s.target, ExistsCheck(TypeOf(ctx, RootVar(s.target))), exit)];
    case State =>
      code := [IfCall(true, TransitionOp(s.diagramID, s.transition, InputFields(s.inputs, ctx.camel)), exit)];
    case Auth =>
      code := [IfCall(d.firstErr, AuthOp(s.action, s.resource, AuthFields(s.inputs, ctx.camel)), exit)];
    case Call =>
      var call := FuncOp(ModelName(s.model), MethodName(s.model), InputFields(s.inputs, ctx.camel));
      code := if s.result.Some? then [Let(LeftSide(s, d), !d.reAssign, call), CheckErr(exit)]
              else [IfCall(d.firstErr, call, exit)];
    case Publish =>
      code := [Let(["err"], d.firstErr, PublishOp(s.topic, InputFields(s.inputs, ctx.camel), s.options)), CheckErr(exit)];
    case Response =>
      code := [Respond(if s.target != "" then Direct(s.target) else Fields(s.fields, d.hasTotal))];
  }

  /** One turn of the generating loop: what is written so far plus the code still to come is the whole. */
  lemma CodeFromStep(whole: seq<Stmt>, buf: seq<Stmt>, seqs: seq<Sequence>, i: nat, ctx: Ctx, errDeclared: bool,
                     declared: set<string>, funcHasTotal: bool, committed: bool)
    requires i < |seqs|
    requires whole == buf + CodeFrom(seqs[i..], ctx, errDeclared, declared, funcHasTotal, committed)
    ensures
      var s := seqs[i];
      var total := funcHasTotal || HasTotal(s);
      whole == buf + StepCode(s, ctx, errDeclared, declared, total, committed)
               + CodeFrom(seqs[i + 1..], ctx, errDeclared || TouchesErr(s), DeclaredAfter(s, declared), total,
                          committed || CommitsBefore(s, ctx, committed))
  {
    var s := seqs[i];
    var total := funcHasTotal || HasTotal(s);
    assert seqs[i..][0] == s && seqs[i..][1..] == seqs[i + 1..];
    Associate(buf, StepCode(s, ctx, errDeclared, declared, total, committed),
              CodeFrom(seqs[i + 1..], ctx, errDeclared || TouchesErr(s), DeclaredAfter(s, declared), total,
                       committed || CommitsBefore(s, ctx, committed)));
  }

  lemma Associate(a: seq<Stmt>, b: seq<Stmt>, c: seq<Stmt>)
    ensures a + (b + c) == a + b + c
  {
  }

  predicate AllRender(seqs: seq<Sequence>, subscribe: bool) {
    forall i :: 0 <= i < |seqs| ==> Renders(seqs[i], subscribe)
  }

  /** One turn of either generating loop, after funcHasTotal is updated. */
  method AppendSequence(buf: seq<Stmt>, s: Sequence, ctx: Ctx, tracker: Tracker, funcHasTotal: bool, committed: bool)
    returns (buf': seq<Stmt>, committed': bool)
    modifies tracker
    ensures buf' == buf + StepCode(s, ctx, old(tracker.errDeclared), old(tracker.declaredVars), funcHasTotal, committed)
    ensures committed' == (committed || CommitsBefore(s, ctx, committed))
    ensures tracker.errDeclared == (old(tracker.errDeclared) || TouchesErr(s))
    ensures tracker.declaredVars == DeclaredAfter(s, old(tracker.declaredVars))
  {
    var commit: seq<Stmt> := [];
    committed' := committed;
    if ctx.useTx && !ctx.subscribe && s.kind == Response && !committed {
      commit := CommitCode(ctx.subscribe);
      committed' := true;
    }
    var d := tracker.BuildTemplateData(s, ctx, funcHasTotal);
    var code := Render(s, ctx, d);
    buf' := buf + (commit + code);
  }

  /** Both generators' loop over the sequences, with the closing commit. */
  method AppendSequences(start: seq<Stmt>, seqs: seq<Sequence>, ctx: Ctx, errDeclared: bool) returns (body: Option<seq<Stmt>>)
    ensures body ==
      if AllRender(seqs, ctx.subscribe) then Some(start + CodeFrom(seqs, ctx, errDeclared, {}, false, false)) else None
  {
    var buf := start;
    var tracker := new Tracker(errDeclared);
    var funcHasTotal := false;
    var committed := false;
    ghost var whole := start + CodeFrom(seqs, ctx, errDeclared, {}, false, false);
    assert seqs[0..] == seqs;
    for i := 0 to |seqs|
      invariant fresh(tracker)
      invariant forall j :: 0 <= j < i ==> Renders(seqs[j], ctx.subscribe)
      invariant whole == buf + CodeFrom(seqs[i..], ctx, tracker.errDeclared, tracker.declaredVars, funcHasTotal, committed)
    {
      if !Renders(seqs[i], ctx.subscribe) {
        return None;
      }
      CodeFromStep(whole, buf, seqs, i, ctx, tracker.errDeclared, tracker.declaredVars, funcHasTotal, committed);
      funcHasTotal := funcHasTotal || HasTotal(seqs[i]);
      buf, committed := AppendSequence(buf, seqs[i], ctx, tracker, funcHasTotal, committed);
    }
    assert seqs[|seqs|..] == [];
    return Some(buf + Closing(ctx, committed));
  }

  /** No Go text comes of the sequence: a result or half of a model call is missing, or a subscriber responds. */
  predicate CannotRender(s: Sequence, subscribe: bool) {
    || ((s.kind == Get || s.kind == Post) && s.result == None)
    || ((s.kind == Get || s.kind == Post || s.kind == Put || s.kind == Delete || s.kind == Call)
        && (RootVar(s.model) == "" || AfterFirst(s.model, '.') == ""))
    || (s.kind == Response && subscribe)
  }

  lemma RendersMeans(seqs: seq<Sequence>, subscribe: bool)
    ensures AllRender(seqs, subscribe) <==> forall i :: 0 <= i < |seqs| ==> !CannotRender(seqs[i], subscribe)
  {
    forall i | 0 <= i < |seqs| ensures Renders(seqs[i], subscribe) <==> !CannotRender(seqs[i], subscribe) {
    }
  }

  /** generateHTTPFunc: None when a template cannot be executed or its text does not parse. */
  method GenerateHTTPFunc(job: Job) returns (body: Option<seq<Stmt>>)
    requires !job.subscribe
    ensures body == if AllRender(job.seqs, false) then Some(HandlerBody(job)) else None
    ensures body.Some? <==> forall i :: 0 <= i < |job.seqs| ==> !CannotRender(job.seqs[i], false)
  {
    RendersMeans(job.seqs, false);
    var useTx := HasWrite(job.seqs);
    var types := CollectResultTypes(job.seqs);
    var used := CollectUsedVars(job.seqs);
    var ctx := Ctx(false, useTx, used, types, job.symbols, job.camel);
    var start := InputCodeBefore(job) + (if useTx then BeginCode(false) else []);
    body := AppendSequences(start, job.seqs, ctx, useTx || HasConversionErr(job));
  }

  /** generateSubscribeFunc: like the HTTP generator, but @response has no template here. */
  method GenerateSubscribeFunc(job: Job) returns (body: Option<seq<Stmt>>)
    requires job.subscribe
    ensures body == if AllRender(job.seqs, true) then Some(HandlerBody(job)) else None
    ensures body.Some? <==> forall i :: 0 <= i < |job.seqs| ==> !CannotRender(job.seqs[i], true)
  {
    RendersMeans(job.seqs, true);
    var types := CollectResultTypes(job.seqs);
    var useTx := HasWrite(job.seqs);
    var used := CollectUsedVars(job.seqs);
    var ctx := Ctx(true, useTx, used, types, job.symbols, job.camel);
    var start := if useTx then BeginCode(true) else [];
    body := AppendSequences(start, job.seqs, ctx, useTx);
    assert HandlerBody(job) == start + CodeFrom(job.seqs, ctx, useTx, {}, false, false);
  }
}
