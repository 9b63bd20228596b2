/** The Go function bodies the generator emits: their statements, Go's scoping
    rules for them, and what they do when they run. */
module GoBody {
  import opened Text
  import opened SequenceDsl

  // ----- values and expressions -----

  datatype Value = Nil | Num(n: real) | Bool(b: bool) | Str(s: string) | Obj(members: map<string, Value>)

  /** `path` is empty or a dotted suffix such as ".Owner.Email". */
  function Select(v: Value, path: string): Value
    decreases |path|
  {
    if path == "" then v
    else
      var name := RootVar(path[1..]);
      Select(if v.Obj? && name in v.members then v.members[name] else Nil, path[1 + |name|..])
  }

  /** An expression is its Go text: a quoted literal, or a variable with a member path. */
  type Code = string

  type Env = map<string, Value>

  function Reads(code: Code): set<string> {
    if IsLiteral(code) then {} else {RootVar(code)}
  }

  function Eval(code: Code, env: Env): Value {
    if IsLiteral(code) then Str(code)
    else
      var root := RootVar(code);
      Select(if root in env then env[root] else Nil, code[|root|..])
  }

  function ReadsOf(fields: map<string, Code>): set<string> {
    set k, x | k in fields && x in Reads(fields[k]) :: x
  }

  function ReadsOfArgs(args: seq<Code>): set<string> {
    if args == [] then {} else Reads(args[0]) + ReadsOfArgs(args[1..])
  }

  function EvalFields(fields: map<string, Code>, env: Env): map<string, Value> {
    map k | k in fields :: Eval(fields[k], env)
  }

  function EvalArgs(args: seq<Code>, env: Env): seq<Value> {
    if args == [] then [] else [Eval(args[0], env)] + EvalArgs(args[1..], env)
  }

  datatype Check = EqZero | GtZero | EqFalse | EqTrue | EqEmpty | NeEmpty | EqNil | NeNil

  predicate Holds(check: Check, v: Value) {
    match check
    case EqZero => v == Num(0.0)
    case GtZero => v.Num? && v.n > 0.0
    case EqFalse => v == Bool(false)
    case EqTrue => v == Bool(true)
    case EqEmpty => v == Str("")
    case NeEmpty => v.Str? && v.s != ""
    case EqNil => v == Nil
    case NeNil => v != Nil
  }

  // ----- statements -----

  datatype Call =
    | ModelOp(model: string, operation: string, inTx: bool, writes: bool, args: seq<Code>)
    | FuncOp(pkg: string, fn: string, fields: map<string, Code>)
    | TransitionOp(diagram: string, transition: string, fields: map<string, Code>)
    | AuthOp(action: string, resource: string, fields: map<string, Code>)
    | PublishOp(topic: string, fields: map<string, Code>, options: map<string, string>)
    | BeginOp
    | CommitOp
    | ConvertOp(param: string, operand: string)  // strconv / time.Parse of a parameter's text
    | BindBodyOp                                 // c.ShouldBindJSON(&req)

  /** The text of an error reply; the generated texts themselves are not modelled. */
  datatype Note = Message(text: string) | DefaultMessage(kind: Kind, subject: string) | ErrOnly | Fixed(what: string)

  /** `wrapsErr`: the text of err is part of the reply. */
  datatype Exit = ErrorJson(status: int, note: Note, wrapsErr: bool) | ReturnError(note: Note, wrapsErr: bool)

  datatype Source = ParamText(name: string) | ParamValue(name: string) | BodyField(name: string) | UserSource | QuerySource

  datatype Payload = Fields(fields: map<string, Code>, withTotal: bool) | Direct(code: Code)

  datatype Stmt =
    | Let(names: seq<string>, define: bool, call: Call)  // x, err := call      or  x, err = call
    | CheckErr(exit: Exit)                               // if err != nil { exit }
    | IfCall(define: bool, call: Call, exit: Exit)       // if _, err := call; err != nil { exit }
    | IfHolds(code: Code, check: Check, exit: Exit)      // if code check { exit }
    | VarDecl(name: string)                              // var req struct { ... }
    | Init(name: string, source: Source)                 // name := source
    | DeferRollback                                      // defer tx.Rollback()
    | Respond(payload: Payload)                          // c.JSON(status, payload), no return
    | ReturnNil                                          // return nil

  // ----- Go's scoping rules -----

  function CallReads(call: Call): set<string> {
    match call
    case ModelOp(_, _, inTx, _, args) =>
      ReadsOfArgs(args) + (if inTx then {"h", "tx"} else {"h"})
    case FuncOp(_, _, fields) => ReadsOf(fields)
    case TransitionOp(_, _, fields) => ReadsOf(fields)
    case AuthOp(_, _, fields) => ReadsOf(fields)
    case PublishOp(_, fields, _) => ReadsOf(fields)
    case BeginOp => {"h"}
    case CommitOp => {"tx"}
    case ConvertOp(_, operand) => {operand}
    case BindBodyOp => {"c", "req"}
  }

  function SourceReads(source: Source): set<string> {
    match source
    case BodyField(_) => {"req"}
    case _ => {"c"}
  }

  function PayloadReads(payload: Payload): set<string> {
    match payload
    case Fields(fields, withTotal) => ReadsOf(fields) + (if withTotal then {"total"} else {})
    case Direct(code) => Reads(code)
  }

  function Names(names: seq<string>): set<string> {
    (set i | 0 <= i < |names| :: names[i]) - {"_"}
  }

  /** The variables a statement reads. `if _, err := call; err != nil` reads an err of its own. */
  function ReadBy(s: Stmt): set<string> {
    match s
    case Let(_, _, call) => CallReads(call)
    case CheckErr(_) => {"err"}
    case IfCall(define, call, _) => CallReads(call) + (if define then {} else {"err"})
    case IfHolds(code, _, _) => Reads(code)
    case VarDecl(_) => {}
    case Init(_, source) => SourceReads(source)
    case DeferRollback => {"tx"}
    case Respond(payload) => PayloadReads(payload)
    case ReturnNil => {}
  }

  /** The function-level scope after a statement, or None when Go rejects it: a name read or
      assigned without being declared, or a `:=` that declares nothing new. */
  function Declare(s: Stmt, scope: set<string>): Option<set<string>> {
    if !(ReadBy(s) <= scope) then None
    else
      match s
      case Let(names, define, call) =>
        if define then (if Names(names) <= scope then None else Some(scope + Names(names)))
        else (if Names(names) <= scope then Some(scope) else None)
      case VarDecl(name) => if name in scope then None else Some(scope + {name})
      case Init(name, _) => if name in scope then None else Some(scope + {name})
      case _ => Some(scope)
  }

  function DeclareAll(body: seq<Stmt>, scope: set<string>): Option<set<string>> {
    if body == [] then Some(scope)
    else
      match Declare(body[0], scope)
      case None => None
      case Some(scope') => DeclareAll(body[1..], scope')
  }

  /** Go accepts every read, every `=` and every `:=`. */
  predicate Scoped(body: seq<Stmt>, scope: set<string>) {
    DeclareAll(body, scope).Some?
  }

  function ReadsIn(body: seq<Stmt>): set<string> {
    if body == [] then {} else ReadBy(body[0]) + ReadsIn(body[1..])
  }

  /** Go accepts the body of a function with these parameters: its scoping, and every variable it
      declares is read somewhere ("declared and not used" otherwise). */
  predicate Compiles(body: seq<Stmt>, params: set<string>) {
    match DeclareAll(body, params)
    case None => false
    case Some(scope) => scope - params <= ReadsIn(body)
  }

  lemma {:induction false} ReadsInConcat(a: seq<Stmt>, b: seq<Stmt>)
    ensures ReadsIn(a + b) == ReadsIn(a) + ReadsIn(b)
  {
    if a == [] {
      assert a + b == b;
    } else {
      assert (a + b)[1..] == a[1..] + b;
      ReadsInConcat(a[1..], b);
    }
  }

  lemma {:induction false} DeclareAllConcat(a: seq<Stmt>, b: seq<Stmt>, scope: set<string>)
    ensures DeclareAll(a + b, scope) ==
            (match DeclareAll(a, scope) case None => None case Some(mid) => DeclareAll(b, mid))
  {
    if a == [] {
      assert a + b == b;
    } else {
      assert (a + b)[1..] == a[1..] + b;
      match Declare(a[0], scope)
      case None =>
      case Some(mid) => DeclareAllConcat(a[1..], b, mid);
    }
  }

  lemma DeclareOne(s: Stmt, scope: set<string>)
    ensures DeclareAll([s], scope) == Declare(s, scope)
  {
    match Declare(s, scope)
    case None =>
    case Some(scope') => assert DeclareAll([s][1..], scope') == Some(scope');
  }

  lemma DeclareTwo(s: Stmt, t: Stmt, scope: set<string>)
    ensures DeclareAll([s, t], scope) == (match Declare(s, scope) case None => None case Some(mid) => Declare(t, mid))
  {
    assert [s, t] == [s] + [t];
    DeclareAllConcat([s], [t], scope);
    DeclareOne(s, scope);
    match Declare(s, scope)
    case None =>
    case Some(mid) => DeclareOne(t, mid);
  }

  lemma Chain(a: seq<Stmt>, b: seq<Stmt>, scope: set<string>, mid: set<string>)
    requires DeclareAll(a, scope) == Some(mid)
    ensures DeclareAll(a + b, scope) == DeclareAll(b, mid)
  {
    DeclareAllConcat(a, b, scope);
  }

  // ----- running a body -----

  datatype Effect =
    | ModelCall(model: string, operation: string, writes: bool, args: seq<Value>)
    | FuncCall(pkg: string, fn: string, request: map<string, Value>)
    | TransitionCheck(diagram: string, transition: string, input: map<string, Value>)
    | AuthCheck(action: string, resource: string, request: map<string, Value>)
    | PublishMessage(topic: string, payload: map<string, Value>, options: map<string, string>)
    | BeginTx
    | CommitTx

  datatype Outcome = Ok(value: Value, total: Value) | Err(text: string)

  datatype Reply =
    | Failure(exit: Exit, err: string)
    | Success(fields: map<string, Value>, total: Option<Value>)
    | SuccessDirect(value: Value)
    | ReturnedNil

  datatype Event = Did(effect: Effect, ok: bool) | RolledBack | Replied(reply: Reply)

  /** What the outside world answers to a call, given everything that happened before. */
  type Oracle = (seq<Event>, Effect) -> Outcome

  /** The incoming request or message. `value` and `valid` say what a path or query parameter decodes to and
      whether its conversion succeeds, `field` and `bodyValid` the same of the JSON body. */
  datatype Incoming = Incoming(
    text: string -> Value, value: string -> Value, valid: string -> bool, field: string -> Value, bodyValid: bool,
    user: Value, opts: Value, message: Value)

  datatype Tx = NoTx | Open(pending: seq<Effect>) | Closed

  /** `stored`: the writes the model state holds; `deferred`: tx.Rollback runs on return. */
  datatype Machine = Machine(env: Env, trace: seq<Event>, tx: Tx, deferred: bool, stored: seq<Effect>, returned: bool)

  const TX_DONE := "sql: transaction has already been committed or rolled back"

  function EffectOf(call: Call, env: Env): Effect
    requires !call.ConvertOp? && !call.BindBodyOp?
  {
    match call
    case ModelOp(model, operation, _, writes, args) =>
      ModelCall(model, operation, writes, EvalArgs(args, env))
    case FuncOp(pkg, fn, fields) => FuncCall(pkg, fn, EvalFields(fields, env))
    case TransitionOp(diagram, transition, fields) => TransitionCheck(diagram, transition, EvalFields(fields, env))
    case AuthOp(action, resource, fields) => AuthCheck(action, resource, EvalFields(fields, env))
    case PublishOp(topic, fields, options) => PublishMessage(topic, EvalFields(fields, env), options)
    case BeginOp => BeginTx
    case CommitOp => CommitTx
  }

  function OutcomeOf(call: Call, m: Machine, incoming: Incoming, oracle: Oracle): Outcome {
    match call
    case ConvertOp(param, _) => if incoming.valid(param) then Ok(incoming.value(param), Nil) else Err("conversion")
    case BindBodyOp => if incoming.bodyValid then Ok(Nil, Nil) else Err("body")
    case ModelOp(_, _, inTx, _, _) =>
      if inTx && !m.tx.Open? then Err(TX_DONE) else oracle(m.trace, EffectOf(call, m.env))
    case CommitOp => if !m.tx.Open? then Err(TX_DONE) else oracle(m.trace, CommitTx)
    case _ => oracle(m.trace, EffectOf(call, m.env))
  }

  function Perform(call: Call, ok: bool, m: Machine): Machine {
    if call.ConvertOp? || call.BindBodyOp? then m
    else
      var effect := EffectOf(call, m.env);
      var m' := m.(trace := m.trace + [Did(effect, ok)]);
      match call
      case BeginOp => if ok then m'.(tx := Open([])) else m'
      case CommitOp =>
        if m.tx.Open? then m'.(tx := Closed, stored := if ok then m.stored + m.tx.pending else m.stored) else m'
      case ModelOp(_, _, inTx, writes, _) =>
        if !ok || !writes then m'
        else if inTx && m.tx.Open? then m'.(tx := Open(m.tx.pending + [effect]))
        else m'.(stored := m.stored + [effect])
      case _ => m'
  }

  function Put(env: Env, name: string, v: Value): Env {
    if name == "_" then env else env[name := v]
  }

  function ErrValue(outcome: Outcome): Value {
    if outcome.Ok? then Nil else Str(outcome.text)
  }

  /** Left-hand sides are [err], [x, err] or [x, total, err]. */
  function BindNames(names: seq<string>, outcome: Outcome, env: Env): Env {
    var value := if outcome.Ok? then outcome.value else Nil;
    var total := if outcome.Ok? then outcome.total else Nil;
    var env1 := if |names| >= 2 then Put(env, names[0], value) else env;
    var env2 := if |names| >= 3 then Put(env1, names[1], total) else env1;
    Put(env2, "err", ErrValue(outcome))
  }

  /** Deferred rollback: it discards the pending writes of a transaction that is still open. */
  function Unwind(m: Machine): Machine {
    if m.deferred && m.tx.Open? then m.(trace := m.trace + [RolledBack], tx := Closed) else m
  }

  function ReplyAnd(m: Machine, reply: Reply): Machine {
    m.(trace := m.trace + [Replied(reply)])
  }

  function ExitReply(exit: Exit, err: string): Reply {
    Failure(exit, if exit.wrapsErr then err else "")
  }

  function Leave(m: Machine, exit: Exit, err: string): Machine {
    Unwind(ReplyAnd(m, ExitReply(exit, err))).(returned := true)
  }

  function SourceValue(source: Source, incoming: Incoming): Value {
    match source
    case ParamText(name) => incoming.text(name)
    case ParamValue(name) => incoming.value(name)
    case BodyField(name) => incoming.field(name)
    case UserSource => incoming.user
    case QuerySource => incoming.opts
  }

  function PayloadReply(payload: Payload, env: Env): Reply {
    match payload
    case Fields(fields, withTotal) =>
      Success(EvalFields(fields, env), if withTotal then Some(Eval("total", env)) else None)
    case Direct(code) => SuccessDirect(Eval(code, env))
  }

  function Exec(s: Stmt, m: Machine, incoming: Incoming, oracle: Oracle): Machine {
    match s
    case Let(names, _, call) =>
      var outcome := OutcomeOf(call, m, incoming, oracle);
      var m' := Perform(call, outcome.Ok?, m);
      m'.(env := BindNames(names, outcome, m'.env))
    case CheckErr(exit) =>
      var err := if "err" in m.env then m.env["err"] else Nil;
      if err != Nil then Leave(m, exit, if err.Str? then err.s else "") else m
    case IfCall(define, call, exit) =>
      var outcome := OutcomeOf(call, m, incoming, oracle);
      var m' := Perform(call, outcome.Ok?, m);
      var m'' := if define then m' else m'.(env := Put(m'.env, "err", ErrValue(outcome)));
      if outcome.Err? then Leave(m'', exit, outcome.text) else m''
    case IfHolds(code, check, exit) =>
      if Holds(check, Eval(code, m.env)) then Leave(m, exit, "") else m
    case VarDecl(name) => m.(env := Put(m.env, name, Nil))
    case Init(name, source) => m.(env := Put(m.env, name, SourceValue(source, incoming)))
    case DeferRollback => m.(deferred := true)
    case Respond(payload) => ReplyAnd(m, PayloadReply(payload, m.env))
    case ReturnNil => Unwind(ReplyAnd(m, ReturnedNil)).(returned := true)
  }

  function ExecAll(body: seq<Stmt>, m: Machine, incoming: Incoming, oracle: Oracle): Machine {
    if body == [] || m.returned then m
    else ExecAll(body[1..], Exec(body[0], m, incoming, oracle), incoming, oracle)
  }

  const START := Machine(map[], [], NoTx, false, [], false)

  /** A whole call of the handler: the body, then the deferred rollback if control falls off the end. */
  function Run(body: seq<Stmt>, m: Machine, incoming: Incoming, oracle: Oracle): Machine {
    var m' := ExecAll(body, m, incoming, oracle);
    if m'.returned then m' else Unwind(m').(returned := true)
  }

  lemma {:induction false} ExecAllConcat(a: seq<Stmt>, b: seq<Stmt>, m: Machine, incoming: Incoming, oracle: Oracle)
    ensures ExecAll(a + b, m, incoming, oracle) == ExecAll(b, ExecAll(a, m, incoming, oracle), incoming, oracle)
  {
    if a == [] {
      assert a + b == b;
    } else if m.returned {
    } else {
      assert (a + b)[1..] == a[1..] + b;
      ExecAllConcat(a[1..], b, Exec(a[0], m, incoming, oracle), incoming, oracle);
    }
  }
}
