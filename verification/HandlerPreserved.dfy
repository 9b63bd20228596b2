/** Meaning preservation: running the generated body is walking the sequences. */
module HandlerPreserved {
  import opened Text
  import opened SequenceDsl
  import opened GoBody
  import opened CallOrder
  import opened HandlerGen
  import opened VariableFlow
  import opened SourceRules
  import opened HandlerMeaning

  /** The generator's map of result types gives the declared type. */
  lemma {:induction false} SameType(seqs: seq<Sequence>, x: string)
    ensures (if x in ResultTypes(seqs) then ResultTypes(seqs)[x] else "") == DeclaredType(seqs, x)
  {
    if seqs != [] { SameType(seqs[..|seqs| - 1], x); }
  }

  // ----- relating Go's variables to the values the sequences name -----

  predicate Holding(env: Env, name: string, v: Value) {
    name in env && env[name] == v
  }

  predicate InputsAgree(job: Job, env: Env, incoming: Incoming) {
    if job.subscribe then Holding(env, "message", incoming.message)
    else
      && (NeedsCurrentUser(job.seqs) ==> Holding(env, "currentUser", incoming.user))
      && (NeedsQueryOpts(job.seqs) ==> Holding(env, "opts", incoming.opts))
      && (forall p :: p in ParamNames(job.symbols.pathParams) + ParamNames(job.raw) ==> Holding(env, job.camel(p), incoming.value(p)))
  }

  predicate VarsAgree(env: Env, vars: map<string, Value>, names: set<string>) {
    forall x :: x in names ==> x in vars && Holding(env, x, vars[x])
  }

  /** Named results so far. */
  function NamedBefore(job: Job, i: nat): set<string>
    requires i <= |job.seqs|
  {
    Bound(job.seqs[..i]) * UsedVars(job.seqs)
  }

  /** The value of a variable, nil before it is bound. */
  function Known(env: Env, name: string): Value {
    if name in env then env[name] else Nil
  }

  predicate Agrees(job: Job, i: nat, env: Env, incoming: Incoming, w: World)
    requires i <= |job.seqs|
  {
    && InputsAgree(job, env, incoming)
    && VarsAgree(env, w.vars, NamedBefore(job, i))
    && (Counted(job.seqs) ==> Known(env, "total") == w.total)
  }

  lemma EvalRoot(code: Code, env: Env, v: Value)
    requires !IsLiteral(code) && Holding(env, RootVar(code), v)
    ensures Eval(code, env) == Select(v, code[|RootVar(code)|..])
  {
  }

  /** A name the flow check accepted holds what it stands for. */
  lemma RootHolds(job: Job, i: nat, x: string, env: Env, incoming: Incoming, w: World)
    requires FlowAccepted(job.seqs, job.subscribe) && NoReservedResult(job.seqs) && CurrentUserFetched(job)
    requires i < |job.seqs| && Agrees(job, i, env, incoming, w)
    requires x in Refs(job.seqs[i]) && x in UsedBy(job.seqs[i])
    requires x == "currentUser" ==> ShowsCurrentUser(job.seqs[i])
    ensures Holding(env, x, RootValue(x, incoming, w.vars))
  {
    AcceptedSequence(job.seqs, job.subscribe, i);
    UsedVarsContains(job.seqs, i);
    BoundPrefix(job.seqs, i);
    if x == "currentUser" {
      assert !job.subscribe && NeedsCurrentUser(job.seqs);
    } else if x == "message" {
      assert job.subscribe;
    } else {
      assert x in NamedBefore(job, i);
    }
  }

  lemma EvalVariable(job: Job, i: nat, k: string, env: Env, incoming: Incoming, w: World)
    requires FlowAccepted(job.seqs, job.subscribe) && NoReservedResult(job.seqs) && CurrentUserFetched(job)
    requires i < |job.seqs| && Agrees(job, i, env, incoming, w) && k in job.seqs[i].inputs
    requires DocumentedValue(job.seqs[i].inputs[k]) && !IsSourceValue(job.seqs[i].inputs[k]) && RootVar(job.seqs[i].inputs[k]) != ""
    ensures Eval(job.seqs[i].inputs[k], env) == Denote(job.seqs[i].inputs[k], incoming, w.vars)
  {
    var s, val := job.seqs[i], job.seqs[i].inputs[k];
    AcceptedSequence(job.seqs, job.subscribe, i);
    VariableInputRefs(s, val);
    var x := RootVar(val);
    assert x in InputRefs(s, s.inputs[k]);
    assert x in Refs(s);
    assert x in UsedBy(s);
    RootHolds(job, i, x, env, incoming, w);
    EvalRoot(val, env, RootValue(x, incoming, w.vars));
  }

  lemma EvalUser(job: Job, i: nat, k: string, env: Env, incoming: Incoming, w: World)
    requires CurrentUserFetched(job) && i < |job.seqs| && Agrees(job, i, env, incoming, w)
    requires k in job.seqs[i].inputs && HasPrefix(job.seqs[i].inputs[k], "currentUser.")
    ensures Eval(job.seqs[i].inputs[k], env) == Denote(job.seqs[i].inputs[k], incoming, w.vars)
  {
    var val := job.seqs[i].inputs[k];
    assert UsesCurrentUser(job.seqs[i]);
    assert NeedsCurrentUser(job.seqs) && !job.subscribe;
    RootOfPath("currentUser", val[12..]);
    assert val == "currentUser" + "." + val[12..];
    EvalRoot(val, env, incoming.user);
  }

  lemma EvalRequest(job: Job, i: nat, k: string, env: Env, incoming: Incoming, w: World)
    requires !job.subscribe && RequestListed(job) && i < |job.seqs| && Agrees(job, i, env, incoming, w)
    requires forall p :: p in ParamNames(job.symbols.pathParams) + ParamNames(job.raw) ==> Plain(job.camel(p))
    requires k in job.seqs[i].inputs && HasPrefix(job.seqs[i].inputs[k], "request.")
    ensures Eval(job.camel(job.seqs[i].inputs[k][8..]), env) == incoming.value(job.seqs[i].inputs[k][8..])
  {
    var field := job.seqs[i].inputs[k][8..];
    RequestFieldsContain(job.seqs, i);
    assert field in RequestFieldsOf(job.seqs[i]);
    var code := job.camel(field);
    PlainText(code);
    EvalRoot(code, env, incoming.value(field));
    assert code[|code|..] == "";
  }

  lemma EvalQuery(job: Job, i: nat, k: string, env: Env, incoming: Incoming, w: World)
    requires i < |job.seqs| && Agrees(job, i, env, incoming, w)
    requires job.subscribe ==> NoHttpSources(job.seqs[i])
    requires k in job.seqs[i].inputs && job.seqs[i].inputs[k] == "query"
    ensures Eval("opts", env) == incoming.opts
  {
    assert HasQuery(job.seqs[i].inputs);
    assert NeedsQueryOpts(job.seqs);
    BeforeNone("opts", '.');
    assert "opts"[4..] == "";
    EvalRoot("opts", env, incoming.opts);
  }

  /** The Go text of an input evaluates to what the input denotes. */
  lemma EvalInput(job: Job, i: nat, k: string, env: Env, incoming: Incoming, w: World)
    requires SoundSource(job)
    requires i < |job.seqs| && Agrees(job, i, env, incoming, w) && k in job.seqs[i].inputs
    ensures Eval(InputCode(job.seqs[i].inputs[k], job.camel), env) == Denote(job.seqs[i].inputs[k], incoming, w.vars)
  {
    var val := job.seqs[i].inputs[k];
    assert DocumentedValues(job.seqs[i]);
    if val == "query" {
      EvalQuery(job, i, k, env, incoming, w);
    } else if HasPrefix(val, "request.") {
      EvalRequest(job, i, k, env, incoming, w);
    } else if IsLiteral(val) {
    } else if HasPrefix(val, "currentUser.") {
      EvalUser(job, i, k, env, incoming, w);
    } else {
      EvalVariable(job, i, k, env, incoming, w);
    }
  }

  /** Every input of a sequence evaluates to what it denotes. */
  predicate InputsEval(s: Sequence, camel: string -> string, env: Env, incoming: Incoming, vars: map<string, Value>) {
    forall k :: k in s.inputs ==> Eval(InputCode(s.inputs[k], camel), env) == Denote(s.inputs[k], incoming, vars)
  }

  lemma AllInputsEval(job: Job, i: nat, env: Env, incoming: Incoming, w: World)
    requires SoundSource(job) && i < |job.seqs| && Agrees(job, i, env, incoming, w)
    ensures InputsEval(job.seqs[i], job.camel, env, incoming, w.vars)
  {
    forall k | k in job.seqs[i].inputs
      ensures Eval(InputCode(job.seqs[i].inputs[k], job.camel), env) == Denote(job.seqs[i].inputs[k], incoming, w.vars)
    {
      EvalInput(job, i, k, env, incoming, w);
    }
  }

  lemma EvalUpdate(fields: map<string, Code>, k: string, code: Code, env: Env)
    ensures EvalFields(fields[k := code], env) == EvalFields(fields, env)[k := Eval(code, env)]
  {
  }

  lemma EvalUserField(env: Env, field: string, user: Value)
    requires Holding(env, "currentUser", user)
    ensures Eval("currentUser." + field, env) == Select(user, "." + field)
  {
    var name := "currentUser";
    var code := "currentUser." + field;
    assert code == name + "." + field;
    RootOfPath(name, field);
    EvalRoot(code, env, user);
    assert code[|name|..] == "." + field;
  }

  lemma EvalAll(s: Sequence, camel: string -> string, env: Env, incoming: Incoming, vars: map<string, Value>)
    requires InputsEval(s, camel, env, incoming, vars)
    ensures EvalFields(InputFields(s.inputs, camel), env) == DenoteAll(s.inputs, incoming, vars)
  {
  }

  lemma EvalAuthFields(s: Sequence, camel: string -> string, env: Env, incoming: Incoming, vars: map<string, Value>)
    requires InputsEval(s, camel, env, incoming, vars) && Holding(env, "currentUser", incoming.user)
    ensures EvalFields(AuthFields(s.inputs, camel), env) ==
      DenoteAll(s.inputs, incoming, vars)["UserID" := Select(incoming.user, "." + "ID")]["Role" := Select(incoming.user, "." + "Role")]
  {
    var fields := InputFields(s.inputs, camel);
    EvalAll(s, camel, env, incoming, vars);
    EvalUserField(env, "ID", incoming.user);
    EvalUserField(env, "Role", incoming.user);
    EvalUpdate(fields, "UserID", USER_ID, env);
    EvalUpdate(fields["UserID" := USER_ID], "Role", USER_ROLE, env);
  }

  lemma {:induction false} ArgsDenote(s: Sequence, keys: seq<string>, camel: string -> string, env: Env, incoming: Incoming,
                                      vars: map<string, Value>)
    requires InputsEval(s, camel, env, incoming, vars) && forall k :: k in keys ==> k in s.inputs
    ensures EvalArgs(ArgCodes(keys, s.inputs, camel), env) == DenoteArgs(keys, s.inputs, incoming, vars)
  {
    if keys != [] {
      assert keys[0] in keys;
      ArgsDenote(s, keys[1..], camel, env, incoming, vars);
      assert ArgCodes(keys, s.inputs, camel)[1..] == ArgCodes(keys[1..], s.inputs, camel);
    }
  }

  lemma RootOfRequest(val: string)
    requires HasPrefix(val, "request.")
    ensures RootVar(val) == "request"
  {
    RootOfPath("request", val[8..]);
    assert val == "request" + "." + val[8..];
  }

  lemma RootNotHttp(val: string)
    requires RootVar(val) != "request" && RootVar(val) != "query"
    ensures val != "query" && !HasPrefix(val, "request.")
  {
    if HasPrefix(val, "request.") { RootOfRequest(val); }
    BeforeNone("query", '.');
  }

  /** Fields and targets cannot name request or query: nothing declares them. */
  lemma NotHttpSource(job: Job, i: nat, x: string)
    requires FlowAccepted(job.seqs, job.subscribe) && NoReservedResult(job.seqs) && i < |job.seqs|
    requires x in Refs(job.seqs[i])
    ensures x != "request" && x != "query"
  {
    AcceptedSequence(job.seqs, job.subscribe, i);
    BoundPrefix(job.seqs, i);
    assert x in DeclaredBefore(job.seqs, i, job.subscribe);
    if x in Bound(job.seqs[..i]) {
      assert x in Bound(job.seqs);
    }
  }

  lemma EvalVisible(job: Job, i: nat, val: string, env: Env, incoming: Incoming, w: World)
    requires FlowAccepted(job.seqs, job.subscribe) && NoReservedResult(job.seqs) && CurrentUserFetched(job)
    requires i < |job.seqs| && Agrees(job, i, env, incoming, w)
    requires !IsLiteral(val) && RootVar(val) in Refs(job.seqs[i]) && RootVar(val) in UsedBy(job.seqs[i])
    requires RootVar(val) == "currentUser" ==> ShowsCurrentUser(job.seqs[i])
    ensures Eval(val, env) == Denote(val, incoming, w.vars)
  {
    NotHttpSource(job, i, RootVar(val));
    RootNotHttp(val);
    RootHolds(job, i, RootVar(val), env, incoming, w);
    EvalRoot(val, env, RootValue(RootVar(val), incoming, w.vars));
  }

  predicate FieldsEval(s: Sequence, env: Env, incoming: Incoming, vars: map<string, Value>) {
    && (forall k :: k in s.fields ==> Eval(s.fields[k], env) == Denote(s.fields[k], incoming, vars))
    && (s.target != "" ==> Eval(s.target, env) == Denote(s.target, incoming, vars))
  }

  lemma FieldRefsOf(s: Sequence, k: string)
    requires k in s.fields && !IsLiteral(s.fields[k]) && RootVar(s.fields[k]) != ""
    ensures RootVar(s.fields[k]) in Refs(s) && RootVar(s.fields[k]) in UsedBy(s)
  {
    assert RootVar(s.fields[k]) in FieldRefs(s.fields[k]);
  }

  lemma FieldEval(job: Job, i: nat, k: string, env: Env, incoming: Incoming, w: World)
    requires FlowAccepted(job.seqs, job.subscribe) && NoReservedResult(job.seqs) && CurrentUserFetched(job)
    requires i < |job.seqs| && Agrees(job, i, env, incoming, w)
    requires k in job.seqs[i].fields && (IsLiteral(job.seqs[i].fields[k]) || RootVar(job.seqs[i].fields[k]) != "")
    ensures Eval(job.seqs[i].fields[k], env) == Denote(job.seqs[i].fields[k], incoming, w.vars)
  {
    var s := job.seqs[i];
    if !IsLiteral(s.fields[k]) {
      FieldRefsOf(s, k);
      assert RootVar(s.fields[k]) == "currentUser" ==> ShowsCurrentUser(s);
      EvalVisible(job, i, s.fields[k], env, incoming, w);
    }
  }

  lemma TargetEval(job: Job, i: nat, env: Env, incoming: Incoming, w: World)
    requires FlowAccepted(job.seqs, job.subscribe) && NoReservedResult(job.seqs) && CurrentUserFetched(job)
    requires i < |job.seqs| && Agrees(job, i, env, incoming, w) && job.seqs[i].target != ""
    ensures Eval(job.seqs[i].target, env) == Denote(job.seqs[i].target, incoming, w.vars)
  {
    if !IsLiteral(job.seqs[i].target) {
      EvalVisible(job, i, job.seqs[i].target, env, incoming, w);
    }
  }

  lemma AllFieldsEval(job: Job, i: nat, env: Env, incoming: Incoming, w: World)
    requires SoundSource(job) && i < |job.seqs| && Agrees(job, i, env, incoming, w)
    ensures FieldsEval(job.seqs[i], env, incoming, w.vars)
  {
    var s := job.seqs[i];
    assert DocumentedValues(s);
    forall k | k in s.fields ensures Eval(s.fields[k], env) == Denote(s.fields[k], incoming, w.vars) {
      FieldEval(job, i, k, env, incoming, w);
    }
    if s.target != "" {
      TargetEval(job, i, env, incoming, w);
    }
  }

  lemma SameModelEffect(s: Sequence, ctx: Ctx, env: Env, incoming: Incoming, vars: map<string, Value>)
    requires s.kind in {Get, Post, Put, Delete}
    requires InputsEval(s, ctx.camel, env, incoming, vars)
    ensures EffectOf(ModelOpOf(s, ctx), env) ==
      ModelCall(ModelName(s.model), MethodName(s.model), Saves(s), ArgValues(s, ctx.symbols, incoming, vars))
  {
    var keys := CallKeys(s.inputs, OrderOf(s, ctx.symbols));
    CallKeysAreInputs(s.inputs, OrderOf(s, ctx.symbols));
    ArgsDenote(s, keys, ctx.camel, env, incoming, vars);
  }

  lemma SameAuthEffect(s: Sequence, ctx: Ctx, env: Env, incoming: Incoming, vars: map<string, Value>)
    requires s.kind == Auth
    requires InputsEval(s, ctx.camel, env, incoming, vars) && Holding(env, "currentUser", incoming.user)
    ensures EffectOf(CallOf(s, ctx), env) == EffectFor(s, ctx.symbols, incoming, vars)
  {
    EvalAuthFields(s, ctx.camel, env, incoming, vars);
    var fields := EvalFields(AuthFields(s.inputs, ctx.camel), env);
    assert EffectOf(CallOf(s, ctx), env) == AuthCheck(s.action, s.resource, fields);
  }

  lemma SameFieldsEffect(s: Sequence, ctx: Ctx, env: Env, incoming: Incoming, vars: map<string, Value>)
    requires s.kind in {State, Call, Publish}
    requires InputsEval(s, ctx.camel, env, incoming, vars)
    ensures EffectOf(CallOf(s, ctx), env) == EffectFor(s, ctx.symbols, incoming, vars)
  {
    EvalAll(s, ctx.camel, env, incoming, vars);
    var fields := InputFields(s.inputs, ctx.camel);
    match s.kind
    case State => assert CallOf(s, ctx) == TransitionOp(s.diagramID, s.transition, fields);
    case Call => assert CallOf(s, ctx) == FuncOp(ModelName(s.model), MethodName(s.model), fields);
    case Publish => assert CallOf(s, ctx) == PublishOp(s.topic, fields, s.options);
  }

  /** It is the call the sequence means. */
  lemma SameEffect(s: Sequence, ctx: Ctx, env: Env, incoming: Incoming, vars: map<string, Value>)
    requires s.kind !in {Empty, Exists, Response}
    requires InputsEval(s, ctx.camel, env, incoming, vars)
    requires s.kind == Auth ==> Holding(env, "currentUser", incoming.user)
    ensures EffectOf(CallOf(s, ctx), env) == EffectFor(s, ctx.symbols, incoming, vars)
  {
    match s.kind
    case Auth => SameAuthEffect(s, ctx, env, incoming, vars);
    case State => SameFieldsEffect(s, ctx, env, incoming, vars);
    case Call => SameFieldsEffect(s, ctx, env, incoming, vars);
    case Publish => SameFieldsEffect(s, ctx, env, incoming, vars);
    case _ => SameModelEffect(s, ctx, env, incoming, vars);
  }
}
