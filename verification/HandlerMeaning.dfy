/** What a service function means, read directly from its sequences: no Go variables, no err, no generated
    statements, and none of the generator's own decisions but the order of call arguments. */
module HandlerMeaning {
  import opened Text
  import opened SequenceDsl
  import opened GoBody
  import opened CallOrder
  import opened HandlerGen

  /** Without writes everything runs directly; with writes inside one transaction, until it is done. */
  datatype Phase = Direct | InTx | Done

  /** `pending`: writes made in the open transaction. `total`: count of the latest @get that queries a list. */
  datatype World = World(
    vars: map<string, Value>, total: Value, trace: seq<Event>, phase: Phase, pending: seq<Effect>, stored: seq<Effect>)

  datatype Walk = Going(w: World) | Ended(trace: seq<Event>, stored: seq<Effect>)

  // ----- what the sequences ask for -----

  predicate Saves(s: Sequence) {
    s.kind == Post || s.kind == Put || s.kind == Delete
  }

  predicate SavesAny(seqs: seq<Sequence>) {
    exists i :: 0 <= i < |seqs| && Saves(seqs[i])
  }

  /** A list query: it passes the query on and its result is a plain list. */
  predicate AsksForList(s: Sequence) {
    && (exists k :: k in s.inputs && s.inputs[k] == "query")
    && s.result.Some? && HasPrefix(s.result.value.typ, "[]") && s.result.value.wrapper == ""
  }

  /** The type of a variable: that of its last declaration in the function. */
  function DeclaredType(seqs: seq<Sequence>, x: string): string {
    if seqs == [] then ""
    else
      var last := seqs[|seqs| - 1];
      if last.result.Some? && last.result.value.name == x then last.result.value.typ else DeclaredType(seqs[..|seqs| - 1], x)
  }

  /** The message of a failing sequence, or a default one that names its target or model. */
  function Complaint(s: Sequence): Note {
    if s.message == "" then DefaultMessage(s.kind, if s.target == "" then ModelName(s.model) else s.target) else Message(s.message)
  }

  /** A transaction that cannot be opened or committed. */
  function TxFailure(subscribe: bool, what: string, err: string): Reply {
    if subscribe then Failure(ReturnError(Fixed(what), true), err) else Failure(ErrorJson(500, Fixed(what), false), "")
  }

  const REJECTION := Failure(ErrorJson(400, Fixed("bad request"), false), "")

  /** The value a root name stands for. */
  function RootValue(root: string, incoming: Incoming, vars: map<string, Value>): Value {
    if root == "currentUser" then incoming.user
    else if root == "message" then incoming.message
    else if root in vars then vars[root]
    else Nil
  }

  /** The value of `source.Field`, `query`, or a literal. */
  function Denote(val: string, incoming: Incoming, vars: map<string, Value>): Value {
    if IsLiteral(val) then Str(val)
    else if val == "query" then incoming.opts
    else if HasPrefix(val, "request.") then incoming.value(val[8..])
    else Select(RootValue(RootVar(val), incoming, vars), val[|RootVar(val)|..])
  }

  function DenoteAll(vals: map<string, string>, incoming: Incoming, vars: map<string, Value>): map<string, Value> {
    map k | k in vals :: Denote(vals[k], incoming, vars)
  }

  function DenoteArgs(keys: seq<string>, inputs: map<string, string>, incoming: Incoming, vars: map<string, Value>): seq<Value> {
    if keys == [] then [] else [Denote(ValueAt(inputs, keys[0]), incoming, vars)] + DenoteArgs(keys[1..], inputs, incoming, vars)
  }

  ghost function ArgValues(s: Sequence, symbols: Symbols, incoming: Incoming, vars: map<string, Value>): seq<Value> {
    var order := if s.model in symbols.paramOrder then symbols.paramOrder[s.model] else [];
    DenoteArgs(CallKeys(s.inputs, order), s.inputs, incoming, vars)
  }

  /** The one outside call of a sequence that makes one. */
  ghost function EffectFor(s: Sequence, symbols: Symbols, incoming: Incoming, vars: map<string, Value>): Effect
    requires s.kind !in {Empty, Exists, Response}
  {
    var named := DenoteAll(s.inputs, incoming, vars);
    match s.kind
    case State => TransitionCheck(s.diagramID, s.transition, named)
    case Auth => AuthCheck(s.action, s.resource,
                           named["UserID" := Select(incoming.user, "." + "ID")]["Role" := Select(incoming.user, "." + "Role")])
    case Call => FuncCall(ModelName(s.model), MethodName(s.model), named)
    case Publish => PublishMessage(s.topic, named, s.options)
    case _ => ModelCall(ModelName(s.model), MethodName(s.model), Saves(s), ArgValues(s, symbols, incoming, vars))
  }

  /** Failing: the reply of that sequence; an open transaction is rolled back. */
  function Fail(w: World, reply: Reply): Walk {
    Ended(w.trace + [Replied(reply)] + (if w.phase == InTx then [RolledBack] else []), w.stored)
  }

  /** The documented status of a failing sequence: its own, or 404 for @empty, 409 for @exists and @state,
      403 for @auth, what the called function declares for @call; 500 for everything else. */
  function FailStatus(s: Sequence, symbols: Symbols): int {
    if s.kind in {Empty, Exists, State, Auth, Call} && s.errStatus != 0 then s.errStatus
    else
      match s.kind
      case Empty => 404
      case Exists => 409
      case State => 409
      case Auth => 403
      case Call => if s.model in symbols.callStatus && symbols.callStatus[s.model] != 0 then symbols.callStatus[s.model] else 500
      case _ => 500
  }

  function FailureOf(s: Sequence, job: Job, err: string): Reply {
    var exit :=
      if job.subscribe then
        (if s.kind == State then ReturnError(ErrOnly, true) else ReturnError(Complaint(s), s.kind !in {Empty, Exists}))
      else if s.kind == State then ErrorJson(FailStatus(s, job.symbols), ErrOnly, true)
      else ErrorJson(FailStatus(s, job.symbols), Complaint(s), false);
    Failure(exit, if exit.wrapsErr then err else "")
  }

  const NUMERIC := {"int", "int32", "int64", "float64"}

  /** Go's zero value of a type; anything but a number, a bool or a string is a pointer or an interface. */
  function ZeroOf(typ: string): Value {
    if typ in NUMERIC then Num(0.0) else if typ == "bool" then Bool(false) else if typ == "string" then Str("") else Nil
  }

  /** @empty fails on the zero value of the declared type. */
  predicate IsZero(typ: string, v: Value) {
    v == ZeroOf(typ)
  }

  /** @exists fails on a positive number, true, a text, or a value that is there. */
  predicate IsPresent(typ: string, v: Value) {
    if typ in NUMERIC then v.Num? && v.n > 0.0
    else if typ == "bool" then v == Bool(true)
    else if typ == "string" then v.Str? && v.s != ""
    else v != Nil
  }

  /** A call: a model call on a finished transaction fails; anything else is up to the outside world. */
  function Answer(effect: Effect, w: World, oracle: Oracle): Outcome {
    if effect.ModelCall? && w.phase == Done then Err(TX_DONE) else oracle(w.trace, effect)
  }

  ghost function CallStep(s: Sequence, job: Job, w: World, incoming: Incoming, oracle: Oracle): Walk
    requires s.kind !in {Empty, Exists, Response}
  {
    var effect := EffectFor(s, job.symbols, incoming, w.vars);
    var outcome := Answer(effect, w, oracle);
    var after := w.(trace := w.trace + [Did(effect, outcome.Ok?)]);
    if outcome.Err? then Fail(after, FailureOf(s, job, outcome.text))
    else
      Going(after.(
        pending := if Saves(s) then w.pending + [effect] else w.pending,
        vars := if s.result.Some? then w.vars[s.result.value.name := outcome.value] else w.vars,
        total := if s.kind == Get && AsksForList(s) then outcome.total else w.total))
  }

  function Commit(w: World, subscribe: bool, oracle: Oracle): Walk
    requires w.phase == InTx
  {
    var outcome := oracle(w.trace, CommitTx);
    var after := w.(trace := w.trace + [Did(CommitTx, outcome.Ok?)], phase := Done, pending := []);
    if outcome.Err? then Fail(after, TxFailure(subscribe, "commit failed", outcome.text))
    else Going(after.(stored := w.stored + w.pending))
  }

  /** The reply of @response: its fields, with `total` when a list query came before. */
  function Answered(s: Sequence, w: World, incoming: Incoming, withTotal: bool): World {
    var reply :=
      if s.target != "" then SuccessDirect(Denote(s.target, incoming, w.vars))
      else Success(DenoteAll(s.fields, incoming, w.vars), if withTotal then Some(w.total) else None);
    w.(trace := w.trace + [Replied(reply)])
  }

  /** One sequence: succeed and go on, or fail and stop. The first @response commits. */
  ghost function Step(s: Sequence, job: Job, w: World, incoming: Incoming, oracle: Oracle, withTotal: bool): Walk {
    match s.kind
    case Empty =>
      if IsZero(DeclaredType(job.seqs, RootVar(s.target)), Denote(s.target, incoming, w.vars))
      then Fail(w, FailureOf(s, job, "")) else Going(w)
    case Exists =>
      if IsPresent(DeclaredType(job.seqs, RootVar(s.target)), Denote(s.target, incoming, w.vars))
      then Fail(w, FailureOf(s, job, "")) else Going(w)
    case Response =>
      (match (if w.phase == InTx then Commit(w, job.subscribe, oracle) else Going(w))
       case Going(w') => Going(Answered(s, w', incoming, withTotal))
       case ended => ended)
    case _ => CallStep(s, job, w, incoming, oracle)
  }

  /** After the last sequence: commit what is still open; a subscriber returns nil. */
  function Finish(w: World, job: Job, oracle: Oracle): Walk {
    match (if w.phase == InTx then Commit(w, job.subscribe, oracle) else Going(w))
    case Going(w') => Ended(w'.trace + (if job.subscribe then [Replied(ReturnedNil)] else []), w'.stored)
    case ended => ended
  }

  ghost function WalkFrom(seqs: seq<Sequence>, job: Job, w: World, incoming: Incoming, oracle: Oracle, hasTotal: bool): Walk {
    if seqs == [] then Finish(w, job, oracle)
    else
      var total := hasTotal || AsksForList(seqs[0]);
      match Step(seqs[0], job, w, incoming, oracle, total)
      case Going(w') => WalkFrom(seqs[1..], job, w', incoming, oracle, total)
      case ended => ended
  }

  predicate PathsDecode(params: seq<Param>, incoming: Incoming) {
    forall i :: 0 <= i < |params| && (params[i].goType == GoInt64 || params[i].goType == GoFloat64) ==> incoming.valid(params[i].name)
  }

  predicate TextsDecode(params: seq<Param>, incoming: Incoming) {
    forall i :: 0 <= i < |params| && params[i].goType != GoString && params[i].goType != GoInt ==> incoming.valid(params[i].name)
  }

  /** Request fields come in a JSON body when something is posted or put, or when there are several of them in a
      project with symbols; otherwise in the query string. */
  predicate ReadsBody(job: Job) {
    if |job.raw| == 0 then false
    else if |job.raw| >= 2 && job.symbols.present then true
    else exists i :: 0 <= i < |job.seqs| && (job.seqs[i].kind == Post || job.seqs[i].kind == Put)
  }

  /** The request as the sequences see it: fields that come in a body have the values of the body. */
  function Received(job: Job, incoming: Incoming): Incoming {
    incoming.(value := (name: string) =>
      if ReadsBody(job) && name in ParamNames(job.raw) then incoming.field(name) else incoming.value(name))
  }

  /** A JSON body decodes as a whole, query parameters one by one. */
  predicate RequestDecodes(job: Job, incoming: Incoming) {
    if ReadsBody(job) then incoming.bodyValid else TextsDecode(job.raw, incoming)
  }

  /** Every parameter that needs converting converts, and a JSON body decodes. */
  predicate Decodes(job: Job, incoming: Incoming) {
    job.subscribe || (PathsDecode(job.symbols.pathParams, incoming) && RequestDecodes(job, incoming))
  }

  /** The whole function: decode the request, open the transaction if anything is written, walk the sequences. */
  ghost function Meaning(job: Job, incoming: Incoming, oracle: Oracle): Walk {
    var w := World(map[], Nil, [], Phase.Direct, [], []);
    if !Decodes(job, incoming) then Fail(w, REJECTION)
    else if !SavesAny(job.seqs) then WalkFrom(job.seqs, job, w, Received(job, incoming), oracle, false)
    else
      var outcome := oracle([], BeginTx);
      var begun := w.(trace := [Did(BeginTx, outcome.Ok?)]);
      if outcome.Err? then Fail(begun, TxFailure(job.subscribe, "transaction failed", outcome.text))
      else WalkFrom(job.seqs, job, begun.(phase := InTx), Received(job, incoming), oracle, false)
  }
}
