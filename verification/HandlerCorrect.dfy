/** Main result for the generator: the emitted body does exactly what the sequences mean. */
module HandlerCorrect {
  import opened Text
  import opened SequenceDsl
  import opened GoBody
  import opened CallOrder
  import opened HandlerGen
  import opened VariableFlow
  import opened SourceRules
  import opened HandlerTracking
  import opened PreambleScope
  import opened HandlerScope
  import opened HandlerSources
  import opened HandlerMeaning
  import opened HandlerPreserved
  import opened HandlerRuns
  import opened HandlerCompiles

  lemma PhaseAfter(s: Sequence, job: Job, w: World, incoming: Incoming, oracle: Oracle, total: bool, committed: bool)
    requires Renders(s, job.subscribe)
    requires w.phase == Phase.Direct <==> !HasWrite(job.seqs)
    requires w.phase == InTx <==> HasWrite(job.seqs) && !committed
    ensures
      var walk := Step(s, job, w, incoming, oracle, total);
      var committed' := committed || CommitsBefore(s, CtxOf(job), committed);
      walk.Going? ==>
        && (walk.w.phase == Phase.Direct <==> !HasWrite(job.seqs))
        && (walk.w.phase == InTx <==> HasWrite(job.seqs) && !committed')
  {
  }

  lemma ClosingRun(job: Job, m: Machine, w: World, incoming: Incoming, oracle: Oracle, committed: bool)
    requires Matches(m, w)
    requires w.phase == Phase.Direct <==> !HasWrite(job.seqs)
    requires w.phase == InTx <==> HasWrite(job.seqs) && !committed
    ensures
      var walk := Finish(w, job, oracle);
      walk.Ended? && MatchesEnd(Run(Closing(CtxOf(job), committed), m, incoming, oracle), walk)
  {
    var ctx := CtxOf(job);
    var commit := if ctx.useTx && !committed then CommitCode(ctx.subscribe) else [];
    var done := if ctx.subscribe then [ReturnNil] else [];
    ExecAllConcat(commit, done, m, incoming, oracle);
    var m' := ExecAll(commit, m, incoming, oracle);
    if w.phase == InTx {
      CommitRun(m, w, job.subscribe, incoming, oracle);
    }
    if !m'.returned && done != [] {
      ExecOne(ReturnNil, m', incoming, oracle);
    }
  }

  lemma RunConcat(a: seq<Stmt>, b: seq<Stmt>, m: Machine, incoming: Incoming, oracle: Oracle)
    ensures
      var m' := ExecAll(a, m, incoming, oracle);
      Run(a + b, m, incoming, oracle) == if m'.returned then m' else Run(b, m', incoming, oracle)
  {
    ExecAllConcat(a, b, m, incoming, oracle);
  }

  /** Running the code of the sequences from `i` on ends as their walk does. */
  ghost predicate RunsAsWalk(job: Job, i: nat, m: Machine, w: World, incoming: Incoming, oracle: Oracle,
                             tracked: bool, declared: set<string>, hasTotal: bool, committed: bool)
    requires i <= |job.seqs|
  {
    var code := CodeFrom(job.seqs[i..], CtxOf(job), tracked, declared, hasTotal, committed);
    var walk := WalkFrom(job.seqs[i..], job, w, incoming, oracle, hasTotal);
    walk.Ended? && MatchesEnd(Run(code, m, incoming, oracle), walk)
  }

  /** The code of sequence `i` ends like its step, or leads to the state before sequence `i + 1`. */
  ghost predicate NextAt(job: Job, i: nat, m: Machine, w: World, incoming: Incoming, oracle: Oracle,
                         tracked: bool, declared: set<string>, hasTotal: bool, committed: bool)
    requires i < |job.seqs|
  {
    var s, ctx, total := job.seqs[i], CtxOf(job), hasTotal || HasTotal(job.seqs[i]);
    var m' := ExecAll(StepCode(s, ctx, tracked, declared, total, committed), m, incoming, oracle);
    match Step(s, job, w, incoming, oracle, total)
    case Ended(trace, stored) => MatchesEnd(m', Ended(trace, stored))
    case Going(w') => Between(job, i + 1, m', w', incoming, committed || CommitsBefore(s, ctx, committed))
  }

  lemma NextHolds(job: Job, i: nat, m: Machine, w: World, incoming: Incoming, oracle: Oracle,
                  tracked: bool, declared: set<string>, hasTotal: bool, committed: bool)
    requires SoundSource(job) && i < |job.seqs|
    requires Between(job, i, m, w, incoming, committed) && (hasTotal ==> Counted(job.seqs))
    ensures NextAt(job, i, m, w, incoming, oracle, tracked, declared, hasTotal, committed)
  {
    var s, total := job.seqs[i], hasTotal || HasTotal(job.seqs[i]);
    StepRun(job, i, m, w, incoming, oracle, tracked, declared, hasTotal, committed);
    assert Renders(s, job.subscribe);
    PhaseAfter(s, job, w, incoming, oracle, total, committed);
  }

  /** Every sequence of the function runs as its step. */
  ghost predicate EveryStepRuns(job: Job, incoming: Incoming, oracle: Oracle) {
    forall i: nat, m, w, tracked, declared, hasTotal, committed {:trigger NextAt(job, i, m, w, incoming, oracle, tracked, declared, hasTotal, committed)} ::
      i < |job.seqs| && Between(job, i, m, w, incoming, committed) && (hasTotal ==> Counted(job.seqs))
      ==> NextAt(job, i, m, w, incoming, oracle, tracked, declared, hasTotal, committed)
  }

  lemma SoundStepsRun(job: Job, incoming: Incoming, oracle: Oracle)
    requires SoundSource(job)
    ensures EveryStepRuns(job, incoming, oracle)
  {
    forall i: nat, m, w, tracked, declared, hasTotal, committed
      | i < |job.seqs| && Between(job, i, m, w, incoming, committed) && (hasTotal ==> Counted(job.seqs))
      ensures NextAt(job, i, m, w, incoming, oracle, tracked, declared, hasTotal, committed)
    {
      NextHolds(job, i, m, w, incoming, oracle, tracked, declared, hasTotal, committed);
    }
  }

  /** Code that runs as one step, then code that runs as the rest of the walk. */
  lemma TurnRun(job: Job, i: nat, m: Machine, w: World, incoming: Incoming, oracle: Oracle,
                tracked: bool, declared: set<string>, hasTotal: bool, committed: bool)
    requires i < |job.seqs| && NextAt(job, i, m, w, incoming, oracle, tracked, declared, hasTotal, committed)
    requires
      var s, ctx, total := job.seqs[i], CtxOf(job), hasTotal || HasTotal(job.seqs[i]);
      var m' := ExecAll(StepCode(s, ctx, tracked, declared, total, committed), m, incoming, oracle);
      var walk := Step(s, job, w, incoming, oracle, total);
      walk.Going? ==> RunsAsWalk(job, i + 1, m', walk.w, incoming, oracle, tracked || TouchesErr(s), DeclaredAfter(s, declared),
                                 total, committed || CommitsBefore(s, ctx, committed))
    ensures RunsAsWalk(job, i, m, w, incoming, oracle, tracked, declared, hasTotal, committed)
  {
    var s, ctx, total := job.seqs[i], CtxOf(job), hasTotal || HasTotal(job.seqs[i]);
    assert job.seqs[i..][0] == s && job.seqs[i..][1..] == job.seqs[i + 1..];
    RunConcat(StepCode(s, ctx, tracked, declared, total, committed),
              CodeFrom(job.seqs[i + 1..], ctx, tracked || TouchesErr(s), DeclaredAfter(s, declared), total,
                       committed || CommitsBefore(s, ctx, committed)), m, incoming, oracle);
  }

  lemma LastTurnRun(job: Job, m: Machine, w: World, incoming: Incoming, oracle: Oracle,
                    tracked: bool, declared: set<string>, hasTotal: bool, committed: bool)
    requires Between(job, |job.seqs|, m, w, incoming, committed)
    ensures RunsAsWalk(job, |job.seqs|, m, w, incoming, oracle, tracked, declared, hasTotal, committed)
  {
    ClosingRun(job, m, w, incoming, oracle, committed);
  }

  /** The state before sequence `i + 1`, when sequence `i` goes on. */
  lemma NextState(job: Job, i: nat, m: Machine, w: World, incoming: Incoming, oracle: Oracle,
                  tracked: bool, declared: set<string>, hasTotal: bool, committed: bool) returns (m': Machine, walk: Walk)
    requires i < |job.seqs| && EveryStepRuns(job, incoming, oracle) && Between(job, i, m, w, incoming, committed)
    requires hasTotal ==> Counted(job.seqs)
    ensures NextAt(job, i, m, w, incoming, oracle, tracked, declared, hasTotal, committed)
    ensures m' == ExecAll(StepCode(job.seqs[i], CtxOf(job), tracked, declared, hasTotal || HasTotal(job.seqs[i]), committed), m, incoming, oracle)
    ensures walk == Step(job.seqs[i], job, w, incoming, oracle, hasTotal || HasTotal(job.seqs[i]))
    ensures walk.Going? ==> Between(job, i + 1, m', walk.w, incoming, committed || CommitsBefore(job.seqs[i], CtxOf(job), committed))
  {
    assert NextAt(job, i, m, w, incoming, oracle, tracked, declared, hasTotal, committed);
    m' := ExecAll(StepCode(job.seqs[i], CtxOf(job), tracked, declared, hasTotal || HasTotal(job.seqs[i]), committed), m, incoming, oracle);
    walk := Step(job.seqs[i], job, w, incoming, oracle, hasTotal || HasTotal(job.seqs[i]));
  }

  /** The rest of the body does what the rest of the sequences mean. */
  lemma {:induction false} CodeRun(job: Job, i: nat, m: Machine, w: World, incoming: Incoming, oracle: Oracle,
                                   tracked: bool, declared: set<string>, hasTotal: bool, committed: bool)
    requires EveryStepRuns(job, incoming, oracle) && i <= |job.seqs| && Between(job, i, m, w, incoming, committed)
    requires hasTotal ==> Counted(job.seqs)
    ensures RunsAsWalk(job, i, m, w, incoming, oracle, tracked, declared, hasTotal, committed)
    decreases |job.seqs| - i
  {
    if i == |job.seqs| {
      LastTurnRun(job, m, w, incoming, oracle, tracked, declared, hasTotal, committed);
    } else {
      var s := job.seqs[i];
      var m', walk := NextState(job, i, m, w, incoming, oracle, tracked, declared, hasTotal, committed);
      if walk.Going? {
        CodeRun(job, i + 1, m', walk.w, incoming, oracle, tracked || TouchesErr(s), DeclaredAfter(s, declared), hasTotal || HasTotal(s),
                committed || CommitsBefore(s, CtxOf(job), committed));
      }
      TurnRun(job, i, m, w, incoming, oracle, tracked, declared, hasTotal, committed);
    }
  }

  // ----- the preamble at run time -----

  /** Only the listed names, and err, may have changed. */
  ghost predicate Keeps(env: Env, env': Env, except: set<string>) {
    forall x :: x !in except && x != "err" ==> (x in env' <==> x in env) && (x in env ==> env'[x] == env[x])
  }

  predicate ParamsHeld(params: seq<Param>, camel: string -> string, env: Env, value: string -> Value) {
    forall i :: 0 <= i < |params| ==> Holding(env, camel(params[i].name), value(params[i].name))
  }

  predicate Fresh(m: Machine) {
    !m.returned && m.tx == NoTx && !m.deferred
  }

  function Rejected(m: Machine): Machine {
    m.(trace := m.trace + [Replied(ExitReply(BAD_REQUEST, ""))], returned := true)
  }

  /** What a part of the preamble does: bind its parameters, or reject the request. */
  ghost predicate PartDone(ok: bool, m: Machine, m': Machine, params: seq<Param>, names: set<string>, camel: string -> string,
                           value: string -> Value) {
    if ok then
      m' == m.(env := m'.env) && Keeps(m.env, m'.env, names) && ParamsHeld(params, camel, m'.env, value)
    else m' == Rejected(m.(env := m'.env))
  }

  lemma ConvertRun(x: string, call: GoBody.Call, p: string, m: Machine, incoming: Incoming, oracle: Oracle)
    requires Fresh(m) && x !in {"_", "err"} && call.ConvertOp? && call.param == p
    ensures
      var m' := ExecAll([Let([x, "err"], true, call), CheckErr(BAD_REQUEST)], m, incoming, oracle);
      && (incoming.valid(p) ==> m' == m.(env := m'.env) && Keeps(m.env, m'.env, {x}) && Holding(m'.env, x, incoming.value(p)))
      && (!incoming.valid(p) ==> m' == Rejected(m.(env := m'.env)))
  {
    LetRun([x, "err"], true, call, BAD_REQUEST, m, incoming, oracle);
  }

  lemma PathParamRun(p: Param, camel: string -> string, m: Machine, incoming: Incoming, oracle: Oracle)
    requires Fresh(m) && NameOf(p, camel) !! {"_", "err"} && (Converts(p) ==> camel(p.name) + "Str" != camel(p.name))
    ensures PartDone(Converts(p) ==> incoming.valid(p.name), m, ExecAll(PathParamCode(p, camel), m, incoming, oracle),
                     [p], NameOf(p, camel), camel, incoming.value)
  {
    var x := camel(p.name);
    if Converts(p) {
      var init := Init(x + "Str", ParamText(p.name));
      var convert := [Let([x, "err"], true, ConvertOp(p.name, x + "Str")), CheckErr(BAD_REQUEST)];
      assert PathParamCode(p, camel) == [init] + convert;
      ExecAllConcat([init], convert, m, incoming, oracle);
      ExecOne(init, m, incoming, oracle);
      ConvertRun(x, ConvertOp(p.name, x + "Str"), p.name, Exec(init, m, incoming, oracle), incoming, oracle);
    } else {
      ExecOne(Init(x, ParamValue(p.name)), m, incoming, oracle);
    }
  }

  lemma QueryParamRun(p: Param, camel: string -> string, m: Machine, incoming: Incoming, oracle: Oracle)
    requires Fresh(m) && camel(p.name) !in {"_", "err"}
    ensures PartDone(ConvertsText(p.goType) ==> incoming.valid(p.name), m, ExecAll(QueryParamCode(p, camel), m, incoming, oracle),
                     [p], {camel(p.name)}, camel, incoming.value)
  {
    if ConvertsText(p.goType) {
      ConvertRun(camel(p.name), ConvertOp(p.name, "c"), p.name, m, incoming, oracle);
    } else {
      ExecOne(Init(camel(p.name), ParamValue(p.name)), m, incoming, oracle);
    }
  }

  /** The code of the first parameter, then the code of the others. */
  lemma PartThenPart(a: seq<Stmt>, b: seq<Stmt>, okA: bool, okB: bool, m: Machine, params: seq<Param>,
                     namesA: set<string>, namesB: set<string>, camel: string -> string, value: string -> Value,
                     incoming: Incoming, oracle: Oracle)
    requires params != [] && Fresh(m) && namesA !! namesB && camel(params[0].name) in namesA && camel(params[0].name) != "err"
    requires PartDone(okA, m, ExecAll(a, m, incoming, oracle), [params[0]], namesA, camel, value)
    requires okA ==> PartDone(okB, ExecAll(a, m, incoming, oracle), ExecAll(b, ExecAll(a, m, incoming, oracle), incoming, oracle),
                              params[1..], namesB, camel, value)
    ensures PartDone(okA && okB, m, ExecAll(a + b, m, incoming, oracle), params, namesA + namesB, camel, value)
  {
    ExecAllConcat(a, b, m, incoming, oracle);
    if okA && okB {
      var m1 := ExecAll(a, m, incoming, oracle);
      HeldBoth(params, camel, m1.env, ExecAll(b, m1, incoming, oracle).env, namesB, value);
    }
  }

  lemma HeldBoth(params: seq<Param>, camel: string -> string, env: Env, env': Env, names: set<string>, value: string -> Value)
    requires params != [] && ParamsHeld([params[0]], camel, env, value) && ParamsHeld(params[1..], camel, env', value)
    requires Keeps(env, env', names) && camel(params[0].name) !in names + {"err"}
    ensures ParamsHeld(params, camel, env', value)
  {
    assert [params[0]][0] == params[0];
    assert forall i :: 0 < i < |params| ==> params[i] == params[1..][i - 1];
  }

  lemma DecodeSplit(params: seq<Param>, incoming: Incoming)
    requires params != []
    ensures PathsDecode(params, incoming) <==>
            (Converts(params[0]) ==> incoming.valid(params[0].name)) && PathsDecode(params[1..], incoming)
    ensures TextsDecode(params, incoming) <==>
            (ConvertsText(params[0].goType) ==> incoming.valid(params[0].name)) && TextsDecode(params[1..], incoming)
  {
    assert forall i :: 0 < i < |params| ==> params[i] == params[1..][i - 1];
    assert forall i :: 0 <= i < |params[1..]| ==> params[1..][i] == params[i + 1];
  }

  lemma {:induction false} PathRun(params: seq<Param>, camel: string -> string, m: Machine, incoming: Incoming, oracle: Oracle)
    requires Fresh(m) && NoDuplicates(PathNames(params, camel)) && Elements(PathNames(params, camel)) !! {"_", "err"}
    ensures PartDone(PathsDecode(params, incoming), m, ExecAll(PathCode(params, camel), m, incoming, oracle),
                     params, Elements(PathNames(params, camel)), camel, incoming.value)
  {
    if params != [] {
      var p, rest := params[0], params[1..];
      PathNamesSplit(params, camel);
      PathParamRun(p, camel, m, incoming, oracle);
      var ok := Converts(p) ==> incoming.valid(p.name);
      if ok {
        PathRun(rest, camel, ExecAll(PathParamCode(p, camel), m, incoming, oracle), incoming, oracle);
      }
      DecodeSplit(params, incoming);
      PartThenPart(PathParamCode(p, camel), PathCode(rest, camel), ok, PathsDecode(rest, incoming), m, params,
                   NameOf(p, camel), Elements(PathNames(rest, camel)), camel, incoming.value, incoming, oracle);
    }
  }

  lemma {:induction false} QueryRun(params: seq<Param>, camel: string -> string, m: Machine, incoming: Incoming, oracle: Oracle)
    requires Fresh(m) && NoDuplicates(RawNames(params, camel)) && Elements(RawNames(params, camel)) !! {"_", "err"}
    ensures PartDone(TextsDecode(params, incoming), m, ExecAll(QueryCode(params, camel), m, incoming, oracle),
                     params, Elements(RawNames(params, camel)), camel, incoming.value)
  {
    if params != [] {
      var p, rest := params[0], params[1..];
      RawNamesSplit(params, camel);
      QueryParamRun(p, camel, m, incoming, oracle);
      var ok := ConvertsText(p.goType) ==> incoming.valid(p.name);
      if ok {
        QueryRun(rest, camel, ExecAll(QueryParamCode(p, camel), m, incoming, oracle), incoming, oracle);
      }
      DecodeSplit(params, incoming);
      PartThenPart(QueryParamCode(p, camel), QueryCode(rest, camel), ok, TextsDecode(rest, incoming), m, params,
                   {camel(p.name)}, Elements(RawNames(rest, camel)), camel, incoming.value, incoming, oracle);
    }
  }

  lemma {:induction false} BodyFieldRun(params: seq<Param>, camel: string -> string, m: Machine, incoming: Incoming, oracle: Oracle)
    requires Fresh(m) && NoDuplicates(RawNames(params, camel)) && Elements(RawNames(params, camel)) !! {"_", "err"}
    ensures PartDone(true, m, ExecAll(BodyFieldCode(params, camel), m, incoming, oracle),
                     params, Elements(RawNames(params, camel)), camel, incoming.field)
  {
    if params != [] {
      var p, rest := params[0], params[1..];
      RawNamesSplit(params, camel);
      var init := Init(camel(p.name), BodyField(p.name));
      ExecOne(init, m, incoming, oracle);
      BodyFieldRun(rest, camel, Exec(init, m, incoming, oracle), incoming, oracle);
      PartThenPart([init], BodyFieldCode(rest, camel), true, true, m, params,
                   {camel(p.name)}, Elements(RawNames(rest, camel)), camel, incoming.field, incoming, oracle);
    }
  }

  lemma BodyRun(job: Job, m: Machine, incoming: Incoming, oracle: Oracle)
    requires Fresh(m) && UsesJsonBody(job) && NoDuplicates(["req"] + RawNames(job.raw, job.camel))
    requires Elements(RawNames(job.raw, job.camel)) !! {"_", "err"}
    ensures PartDone(incoming.bodyValid, m, ExecAll(RequestCode(job), m, incoming, oracle), job.raw,
                     Elements(["req"] + RawNames(job.raw, job.camel)), job.camel, incoming.field)
  {
    var names := RawNames(job.raw, job.camel);
    DistinctConcat(["req"], names);
    ElementsConcat(["req"], names);
    ElementsOne("req");
    var decl, bind := [VarDecl("req")], [IfCall(true, BindBodyOp, BAD_REQUEST)];
    assert RequestCode(job) == decl + (bind + BodyFieldCode(job.raw, job.camel));
    ExecAllConcat(decl, bind + BodyFieldCode(job.raw, job.camel), m, incoming, oracle);
    ExecOne(decl[0], m, incoming, oracle);
    var m1 := Exec(decl[0], m, incoming, oracle);
    ExecAllConcat(bind, BodyFieldCode(job.raw, job.camel), m1, incoming, oracle);
    ExecOne(bind[0], m1, incoming, oracle);
    if incoming.bodyValid {
      BodyFieldRun(job.raw, job.camel, m1, incoming, oracle);
    }
  }

  function FieldSource(job: Job, incoming: Incoming): string -> Value {
    if UsesJsonBody(job) then incoming.field else incoming.value
  }

  lemma RequestRun(job: Job, m: Machine, incoming: Incoming, oracle: Oracle)
    requires Fresh(m)
    requires NoDuplicates(RequestNames(job))
    requires Elements(RawNames(job.raw, job.camel)) !! {"_", "err"}
    ensures PartDone(RequestDecodes(job, incoming), m, ExecAll(RequestCode(job), m, incoming, oracle), job.raw,
                     Elements(RequestNames(job)), job.camel, FieldSource(job, incoming))
  {
    if UsesJsonBody(job) {
      BodyRun(job, m, incoming, oracle);
    } else {
      assert RequestNames(job) == RawNames(job.raw, job.camel);
      QueryRun(job.raw, job.camel, m, incoming, oracle);
    }
  }

  function StartEnv(job: Job, incoming: Incoming): Env {
    if job.subscribe then map["message" := incoming.message] else map[]
  }

  /** The inputs are bound, and total is not where a list query needs it. */
  predicate Prepared(job: Job, env: Env, incoming: Incoming) {
    InputsAgree(job, env, incoming) && (Counted(job.seqs) ==> "total" !in env)
  }

  /** What the whole preamble does: bind the inputs, or reject the request. */
  ghost predicate InputsDone(ok: bool, job: Job, m: Machine, m': Machine, incoming: Incoming) {
    if ok then m' == m.(env := m'.env) && Prepared(job, m'.env, Received(job, incoming)) else m' == Rejected(m.(env := m'.env))
  }

  /** The machine when the handler is called. */
  function StartOfCall(job: Job, incoming: Incoming): Machine {
    START.(env := StartEnv(job, incoming))
  }

  lemma OptionalInitRun(present: bool, x: string, source: Source, m: Machine, incoming: Incoming, oracle: Oracle)
    requires Fresh(m) && x != "_"
    ensures
      var m' := ExecAll(if present then [Init(x, source)] else [], m, incoming, oracle);
      m' == m.(env := m'.env) && Keeps(m.env, m'.env, if present then {x} else {}) &&
      (present ==> Holding(m'.env, x, SourceValue(source, incoming)))
  {
    if present { ExecOne(Init(x, source), m, incoming, oracle); }
  }

  lemma HeldThrough(params: seq<Param>, camel: string -> string, env: Env, env': Env, except: set<string>, value: string -> Value)
    requires ParamsHeld(params, camel, env, value) && Keeps(env, env', except)
    requires forall i :: 0 <= i < |params| ==> camel(params[i].name) !in except + {"err"}
    ensures ParamsHeld(params, camel, env', value)
  {
  }

  /** Decoding the request binds every input the sequences use, or rejects the request. */
  lemma HttpInputsRun(job: Job, incoming: Incoming, oracle: Oracle)
    requires !job.subscribe && NoDuplicates(InputNames(job)) && Elements(InputNames(job)) !! OwnNames(job.seqs)
    ensures
      var m := StartOfCall(job, incoming);
      InputsDone(Decodes(job, incoming), job, m, ExecAll(InputCodeBefore(job), m, incoming, oracle), incoming)
  {
    var a := PathNames(job.symbols.pathParams, job.camel);
    var b := if NeedsCurrentUser(job.seqs) then ["currentUser"] else [];
    var c := RequestNames(job);
    var d := if NeedsQueryOpts(job.seqs) then ["opts"] else [];
    NamesInParts(job, a, b, c, d);
    PartsApart(a, b, c, d, InputNames(job), OwnNames(job.seqs));
    HttpPartsRun(job, a, b, c, d, incoming, oracle);
  }

  lemma NamesInParts(job: Job, a: seq<string>, b: seq<string>, c: seq<string>, d: seq<string>)
    requires !job.subscribe
    requires a == PathNames(job.symbols.pathParams, job.camel)
    requires b == if NeedsCurrentUser(job.seqs) then ["currentUser"] else []
    requires c == RequestNames(job)
    requires d == if NeedsQueryOpts(job.seqs) then ["opts"] else []
    ensures InputNames(job) == a + b + c + d
    ensures Elements(RawNames(job.raw, job.camel)) <= Elements(c)
  {
    ElementsConcat(if UsesJsonBody(job) then ["req"] else [], RawNames(job.raw, job.camel));
  }

  lemma PartsApart(a: seq<string>, b: seq<string>, c: seq<string>, d: seq<string>, all: seq<string>, own: set<string>)
    requires all == a + b + c + d && NoDuplicates(all) && Elements(all) !! own
    ensures NoDuplicates(a) && NoDuplicates(c)
    ensures Elements(b) !! Elements(a) && Elements(c) !! Elements(a) + Elements(b) && Elements(d) !! Elements(a) + Elements(b) + Elements(c)
    ensures Elements(a) + Elements(b) + Elements(c) + Elements(d) !! own
  {
    FourParts(a, b, c, d);
  }

  predicate UserHeld(job: Job, env: Env, incoming: Incoming) {
    NeedsCurrentUser(job.seqs) ==> Holding(env, "currentUser", incoming.user)
  }

  lemma RawNamesAre(params: seq<Param>, camel: string -> string, names: set<string>)
    requires Elements(RawNames(params, camel)) <= names || Elements(PathNames(params, camel)) <= names
    ensures forall i :: 0 <= i < |params| ==> camel(params[i].name) in names
  {
    forall i | 0 <= i < |params| ensures camel(params[i].name) in names {
      RawNamesContain(params, camel, i);
    }
  }

  /** Path parameters and current user. */
  lemma FrontRun(job: Job, a: set<string>, m: Machine, incoming: Incoming, oracle: Oracle)
    requires Fresh(m) && NoDuplicates(PathNames(job.symbols.pathParams, job.camel))
    requires a == Elements(PathNames(job.symbols.pathParams, job.camel)) && a !! OwnNames(job.seqs)
    requires NeedsCurrentUser(job.seqs) ==> "currentUser" !in a
    ensures
      var m' := ExecAll(PathCode(job.symbols.pathParams, job.camel) + UserCode(job), m, incoming, oracle);
      if PathsDecode(job.symbols.pathParams, incoming) then
        m' == m.(env := m'.env) && ParamsHeld(job.symbols.pathParams, job.camel, m'.env, incoming.value) && UserHeld(job, m'.env, incoming)
        && (Counted(job.seqs) && "total" !in m.env ==> "total" !in m'.env)
      else m' == Rejected(m.(env := m'.env))
  {
    var paths := PathCode(job.symbols.pathParams, job.camel);
    ExecAllConcat(paths, UserCode(job), m, incoming, oracle);
    PathRun(job.symbols.pathParams, job.camel, m, incoming, oracle);
    if PathsDecode(job.symbols.pathParams, incoming) {
      var m1 := ExecAll(paths, m, incoming, oracle);
      OptionalInitRun(NeedsCurrentUser(job.seqs), "currentUser", UserSource, m1, incoming, oracle);
      RawNamesAre(job.symbols.pathParams, job.camel, a);
      HeldThrough(job.symbols.pathParams, job.camel, m1.env, ExecAll(UserCode(job), m1, incoming, oracle).env,
                  if NeedsCurrentUser(job.seqs) then {"currentUser"} else {}, incoming.value);
    }
  }

  /** Request parameters and query options; what was bound before stays. */
  lemma BackRun(job: Job, a: set<string>, c: set<string>, m: Machine, incoming: Incoming, oracle: Oracle)
    requires !job.subscribe && Fresh(m)
    requires NoDuplicates(RequestNames(job))
    requires c == Elements(RequestNames(job)) && c !! OwnNames(job.seqs)
    requires Elements(RawNames(job.raw, job.camel)) <= c
    requires a == Elements(PathNames(job.symbols.pathParams, job.camel)) && a !! c + OwnNames(job.seqs)
    requires NeedsCurrentUser(job.seqs) ==> "currentUser" !in c
    requires NeedsQueryOpts(job.seqs) ==> "opts" !in a + c
    requires ParamsHeld(job.symbols.pathParams, job.camel, m.env, incoming.value) && UserHeld(job, m.env, incoming)
    ensures
      var m' := ExecAll(RequestCode(job) + OptsCode(job), m, incoming, oracle);
      if RequestDecodes(job, incoming) then m' == m.(env := m'.env) && InputsAgree(job, m'.env, Received(job, incoming))
      else m' == Rejected(m.(env := m'.env))
  {
    ExecAllConcat(RequestCode(job), OptsCode(job), m, incoming, oracle);
    RequestRun(job, m, incoming, oracle);
    if RequestDecodes(job, incoming) {
      OptsRun(job, a, c, m, ExecAll(RequestCode(job), m, incoming, oracle), incoming, oracle);
    }
  }

  /** The query options, after the request parameters. */
  lemma OptsRun(job: Job, a: set<string>, c: set<string>, m: Machine, m1: Machine, incoming: Incoming, oracle: Oracle)
    requires !job.subscribe && Fresh(m) && PartDone(true, m, m1, job.raw, c, job.camel, FieldSource(job, incoming))
    requires Elements(RawNames(job.raw, job.camel)) <= c && "err" !in a + c
    requires a == Elements(PathNames(job.symbols.pathParams, job.camel)) && a !! c
    requires (NeedsCurrentUser(job.seqs) ==> "currentUser" !in c) && (NeedsQueryOpts(job.seqs) ==> "opts" !in a + c)
    requires ParamsHeld(job.symbols.pathParams, job.camel, m.env, incoming.value) && UserHeld(job, m.env, incoming)
    ensures
      var m' := ExecAll(OptsCode(job), m1, incoming, oracle);
      m' == m.(env := m'.env) && InputsAgree(job, m'.env, Received(job, incoming))
  {
    OptionalInitRun(NeedsQueryOpts(job.seqs), "opts", QuerySource, m1, incoming, oracle);
    RawNamesAre(job.symbols.pathParams, job.camel, a);
    RawNamesAre(job.raw, job.camel, c);
    HeldToTheEnd(job, a, c, m.env, m1.env, ExecAll(OptsCode(job), m1, incoming, oracle).env, incoming);
  }

  /** Every request field holds what was received. */
  lemma ReceivedHeld(job: Job, a: set<string>, c: set<string>, env: Env, incoming: Incoming)
    requires a !! c
    requires forall i :: 0 <= i < |job.symbols.pathParams| ==> job.camel(job.symbols.pathParams[i].name) in a
    requires forall i :: 0 <= i < |job.raw| ==> job.camel(job.raw[i].name) in c
    requires ParamsHeld(job.symbols.pathParams, job.camel, env, incoming.value)
    requires ParamsHeld(job.raw, job.camel, env, FieldSource(job, incoming))
    ensures forall p :: p in ParamNames(job.symbols.pathParams) + ParamNames(job.raw)
                        ==> Holding(env, job.camel(p), Received(job, incoming).value(p))
  {
    assert UsesJsonBody(job) <==> ReadsBody(job);
    forall p | p in ParamNames(job.symbols.pathParams) + ParamNames(job.raw)
      ensures Holding(env, job.camel(p), Received(job, incoming).value(p))
    {
      if p in ParamNames(job.raw) {
        var i :| 0 <= i < |job.raw| && job.raw[i].name == p;
        assert Holding(env, job.camel(job.raw[i].name), FieldSource(job, incoming)(job.raw[i].name));
      } else {
        var i :| 0 <= i < |job.symbols.pathParams| && job.symbols.pathParams[i].name == p;
        assert Holding(env, job.camel(job.symbols.pathParams[i].name), incoming.value(job.symbols.pathParams[i].name));
      }
    }
  }

  lemma HeldToTheEnd(job: Job, a: set<string>, c: set<string>, env: Env, env1: Env, env2: Env, incoming: Incoming)
    requires !job.subscribe && a !! c + {"err"} && c !! {"err"}
    requires forall i :: 0 <= i < |job.symbols.pathParams| ==> job.camel(job.symbols.pathParams[i].name) in a
    requires forall i :: 0 <= i < |job.raw| ==> job.camel(job.raw[i].name) in c
    requires (NeedsCurrentUser(job.seqs) ==> "currentUser" !in c) && (NeedsQueryOpts(job.seqs) ==> "opts" !in a + c)
    requires ParamsHeld(job.symbols.pathParams, job.camel, env, incoming.value) && UserHeld(job, env, incoming)
    requires Keeps(env, env1, c) && ParamsHeld(job.raw, job.camel, env1, FieldSource(job, incoming))
    requires Keeps(env1, env2, if NeedsQueryOpts(job.seqs) then {"opts"} else {})
    requires NeedsQueryOpts(job.seqs) ==> Holding(env2, "opts", incoming.opts)
    ensures InputsAgree(job, env2, Received(job, incoming))
  {
    var opts: set<string> := if NeedsQueryOpts(job.seqs) then {"opts"} else {};
    HeldThrough(job.symbols.pathParams, job.camel, env, env1, c, incoming.value);
    HeldThrough(job.symbols.pathParams, job.camel, env1, env2, opts, incoming.value);
    HeldThrough(job.raw, job.camel, env1, env2, opts, FieldSource(job, incoming));
    ReceivedHeld(job, a, c, env2, incoming);
  }

  /** Nothing in the preamble binds total, where a list query needs it. */
  lemma BackWithoutTotal(job: Job, m: Machine, incoming: Incoming, oracle: Oracle)
    requires !job.subscribe && Fresh(m) && NoDuplicates(RequestNames(job)) && Counted(job.seqs) && "total" !in m.env
    requires Elements(RequestNames(job)) !! OwnNames(job.seqs) && Elements(RawNames(job.raw, job.camel)) <= Elements(RequestNames(job))
    ensures RequestDecodes(job, incoming) ==> "total" !in ExecAll(RequestCode(job) + OptsCode(job), m, incoming, oracle).env
  {
    ExecAllConcat(RequestCode(job), OptsCode(job), m, incoming, oracle);
    RequestRun(job, m, incoming, oracle);
    if RequestDecodes(job, incoming) {
      OptionalInitRun(NeedsQueryOpts(job.seqs), "opts", QuerySource, ExecAll(RequestCode(job), m, incoming, oracle), incoming, oracle);
    }
  }

  lemma BackPrepares(job: Job, a: set<string>, c: set<string>, m: Machine, incoming: Incoming, oracle: Oracle)
    requires !job.subscribe && Fresh(m) && NoDuplicates(RequestNames(job)) && (Counted(job.seqs) ==> "total" !in m.env)
    requires c == Elements(RequestNames(job)) && c !! OwnNames(job.seqs) && Elements(RawNames(job.raw, job.camel)) <= c
    requires a == Elements(PathNames(job.symbols.pathParams, job.camel)) && a !! c + OwnNames(job.seqs)
    requires NeedsCurrentUser(job.seqs) ==> "currentUser" !in c
    requires NeedsQueryOpts(job.seqs) ==> "opts" !in a + c
    requires ParamsHeld(job.symbols.pathParams, job.camel, m.env, incoming.value) && UserHeld(job, m.env, incoming)
    ensures
      var m' := ExecAll(RequestCode(job) + OptsCode(job), m, incoming, oracle);
      if RequestDecodes(job, incoming) then m' == m.(env := m'.env) && Prepared(job, m'.env, Received(job, incoming))
      else m' == Rejected(m.(env := m'.env))
  {
    BackRun(job, a, c, m, incoming, oracle);
    if Counted(job.seqs) { BackWithoutTotal(job, m, incoming, oracle); }
  }

  lemma FrontThenBack(job: Job, a: set<string>, c: set<string>, m: Machine, incoming: Incoming, oracle: Oracle)
    requires !job.subscribe && Fresh(m) && (Counted(job.seqs) ==> "total" !in m.env)
    requires NoDuplicates(PathNames(job.symbols.pathParams, job.camel)) && NoDuplicates(RequestNames(job))
    requires a == Elements(PathNames(job.symbols.pathParams, job.camel)) && a !! c + OwnNames(job.seqs)
    requires c == Elements(RequestNames(job)) && c !! OwnNames(job.seqs) && Elements(RawNames(job.raw, job.camel)) <= c
    requires NeedsCurrentUser(job.seqs) ==> "currentUser" !in a + c
    requires NeedsQueryOpts(job.seqs) ==> "opts" !in a + c
    ensures
      var m1 := ExecAll(PathCode(job.symbols.pathParams, job.camel) + UserCode(job), m, incoming, oracle);
      InputsDone(PathsDecode(job.symbols.pathParams, incoming) && RequestDecodes(job, incoming), job, m,
                 ExecAll(RequestCode(job) + OptsCode(job), m1, incoming, oracle), incoming)
  {
    FrontRun(job, a, m, incoming, oracle);
    if PathsDecode(job.symbols.pathParams, incoming) {
      BackPrepares(job, a, c, ExecAll(PathCode(job.symbols.pathParams, job.camel) + UserCode(job), m, incoming, oracle), incoming, oracle);
    }
  }

  lemma HttpSetsRun(job: Job, a: set<string>, c: set<string>, incoming: Incoming, oracle: Oracle)
    requires !job.subscribe && NoDuplicates(PathNames(job.symbols.pathParams, job.camel)) && NoDuplicates(RequestNames(job))
    requires a == Elements(PathNames(job.symbols.pathParams, job.camel)) && a !! c + OwnNames(job.seqs)
    requires c == Elements(RequestNames(job)) && c !! OwnNames(job.seqs) && Elements(RawNames(job.raw, job.camel)) <= c
    requires NeedsCurrentUser(job.seqs) ==> "currentUser" !in a + c
    requires NeedsQueryOpts(job.seqs) ==> "opts" !in a + c
    ensures
      var m := StartOfCall(job, incoming);
      InputsDone(Decodes(job, incoming), job, m, ExecAll(InputCodeBefore(job), m, incoming, oracle), incoming)
  {
    var m := StartOfCall(job, incoming);
    var front, back := PathCode(job.symbols.pathParams, job.camel) + UserCode(job), RequestCode(job) + OptsCode(job);
    FrontThenBack(job, a, c, m, incoming, oracle);
    ExecAllConcat(front, back, m, incoming, oracle);
    FourGrouped(PathCode(job.symbols.pathParams, job.camel), UserCode(job), RequestCode(job), OptsCode(job));
  }

  lemma FourGrouped(a: seq<Stmt>, b: seq<Stmt>, c: seq<Stmt>, d: seq<Stmt>)
    ensures a + b + c + d == (a + b) + (c + d)
  {
  }

  lemma HttpPartsRun(job: Job, a: seq<string>, b: seq<string>, c: seq<string>, d: seq<string>, incoming: Incoming, oracle: Oracle)
    requires !job.subscribe
    requires a == PathNames(job.symbols.pathParams, job.camel)
    requires b == if NeedsCurrentUser(job.seqs) then ["currentUser"] else []
    requires c == RequestNames(job)
    requires d == if NeedsQueryOpts(job.seqs) then ["opts"] else []
    requires NoDuplicates(a) && NoDuplicates(c) && Elements(RawNames(job.raw, job.camel)) <= Elements(c)
    requires Elements(b) !! Elements(a) && Elements(c) !! Elements(a) + Elements(b) && Elements(d) !! Elements(a) + Elements(b) + Elements(c)
    requires Elements(a) + Elements(b) + Elements(c) + Elements(d) !! OwnNames(job.seqs)
    ensures
      var m := StartOfCall(job, incoming);
      InputsDone(Decodes(job, incoming), job, m, ExecAll(InputCodeBefore(job), m, incoming, oracle), incoming)
  {
    assert NeedsCurrentUser(job.seqs) ==> b[0] in Elements(b);
    assert NeedsQueryOpts(job.seqs) ==> d[0] in Elements(d);
    HttpSetsRun(job, Elements(a), Elements(c), incoming, oracle);
  }

  /** `tx, err := BeginTx()` with its check and the deferred rollback. */
  lemma BeginRun(subscribe: bool, m: Machine, incoming: Incoming, oracle: Oracle)
    requires Fresh(m)
    ensures
      var m' := ExecAll(BeginCode(subscribe), m, incoming, oracle);
      var outcome := oracle(m.trace, BeginTx);
      var trace := m.trace + [Did(BeginTx, outcome.Ok?)];
      var exit := if subscribe then ReturnError(Fixed("transaction failed"), true) else ErrorJson(500, Fixed("transaction failed"), false);
      if outcome.Ok? then
        m' == m.(env := m'.env, trace := trace, tx := Open([]), deferred := true) && Keeps(m.env, m'.env, {"tx"})
      else m' == m.(env := m'.env, trace := trace + [Replied(ExitReply(exit, outcome.text))], returned := true)
  {
    var code := BeginCode(subscribe);
    assert code == [code[0], code[1]] + [DeferRollback];
    ExecAllConcat([code[0], code[1]], [DeferRollback], m, incoming, oracle);
    LetRun(["tx", "err"], true, BeginOp, code[1].exit, m, incoming, oracle);
    var m1 := ExecAll([code[0], code[1]], m, incoming, oracle);
    if !m1.returned {
      ExecOne(DeferRollback, m1, incoming, oracle);
    }
  }

  lemma InputsRun(job: Job, incoming: Incoming, oracle: Oracle)
    requires DistinctVariables(job)
    ensures
      var m := StartOfCall(job, incoming);
      InputsDone(Decodes(job, incoming), job, m, ExecAll(InputCodeBefore(job), m, incoming, oracle), incoming)
  {
    if !job.subscribe { HttpInputsRun(job, incoming, oracle); }
  }

  lemma StartAgrees(job: Job, env: Env, incoming: Incoming, w: World)
    requires Prepared(job, env, incoming) && w.total == Nil
    ensures Agrees(job, 0, env, incoming, w)
  {
    assert Bound(job.seqs[..0]) == {};
  }

  lemma WholeRun(job: Job, m: Machine, w: World, incoming: Incoming, oracle: Oracle)
    requires SoundSource(job)
    requires Matches(m, w) && Prepared(job, m.env, incoming)
    requires w.total == Nil && w.phase == if HasWrite(job.seqs) then InTx else Phase.Direct
    ensures
      var code := CodeFrom(job.seqs, CtxOf(job), ErrDeclaredAtStart(job), {}, false, false);
      var walk := WalkFrom(job.seqs, job, w, incoming, oracle, false);
      walk.Ended? && MatchesEnd(Run(code, m, incoming, oracle), walk)
  {
    assert job.seqs[0..] == job.seqs;
    StartAgrees(job, m.env, incoming, w);
    SoundStepsRun(job, incoming, oracle);
    CodeRun(job, 0, m, w, incoming, oracle, ErrDeclaredAtStart(job), {}, false, false);
  }

  /** A walk always ends. */
  lemma {:induction false} WalkEnds(seqs: seq<Sequence>, job: Job, w: World, incoming: Incoming, oracle: Oracle, hasTotal: bool)
    ensures WalkFrom(seqs, job, w, incoming, oracle, hasTotal).Ended?
  {
    if seqs != [] {
      match Step(seqs[0], job, w, incoming, oracle, hasTotal || HasTotal(seqs[0]))
      case Going(w') => WalkEnds(seqs[1..], job, w', incoming, oracle, hasTotal || HasTotal(seqs[0]));
      case Ended(_, _) =>
    }
  }

  lemma NotTx(job: Job)
    requires DistinctVariables(job) && HasWrite(job.seqs)
    ensures FuncParams(job.subscribe) + Elements(InputNames(job)) !! {"tx", "err"}
  {
  }

  const UNBEGUN := World(map[], Nil, [], Phase.Direct, [], [])
  const BEGUN := World(map[], Nil, [Did(BeginTx, true)], InTx, [], [])

  function NotBegun(job: Job, err: string): Walk {
    Fail(UNBEGUN.(trace := [Did(BeginTx, false)]), TxFailure(job.subscribe, "transaction failed", err))
  }

  lemma MeaningForm(job: Job, incoming: Incoming, oracle: Oracle)
    requires Decodes(job, incoming)
    ensures Meaning(job, incoming, oracle) ==
      if !HasWrite(job.seqs) then WalkFrom(job.seqs, job, UNBEGUN, Received(job, incoming), oracle, false)
      else if oracle([], BeginTx).Ok? then WalkFrom(job.seqs, job, BEGUN, Received(job, incoming), oracle, false)
      else NotBegun(job, oracle([], BeginTx).text)
  {
  }

  function BegunOr(job: Job, outcome: Outcome, walk: Walk): Walk {
    if outcome.Ok? then walk else NotBegun(job, outcome.text)
  }

  /** The rest of the body, whatever it is, gives this walk inside a fresh transaction. */
  ghost predicate DeliversBegun(code: seq<Stmt>, job: Job, incoming: Incoming, oracle: Oracle, walk: Walk)
    requires walk.Ended?
  {
    forall m :: Matches(m, BEGUN) && Prepared(job, m.env, incoming) ==> MatchesEnd(Run(code, m, incoming, oracle), walk)
  }

  lemma BegunRun(job: Job, code: seq<Stmt>, m: Machine, incoming: Incoming, oracle: Oracle, walk: Walk)
    requires Fresh(m) && m.trace == [] && m.stored == [] && Prepared(job, m.env, incoming) && DistinctVariables(job) && HasWrite(job.seqs)
    requires walk.Ended? && DeliversBegun(code, job, incoming, oracle, walk)
    ensures MatchesEnd(Run(BeginCode(job.subscribe) + code, m, incoming, oracle), BegunOr(job, oracle([], BeginTx), walk))
  {
    RunConcat(BeginCode(job.subscribe), code, m, incoming, oracle);
    if oracle([], BeginTx).Ok? {
      OpenedState(job, m, incoming, oracle);
    } else {
      NotOpened(job, m, incoming, oracle);
    }
  }

  lemma NotOpened(job: Job, m: Machine, incoming: Incoming, oracle: Oracle)
    requires Fresh(m) && m.trace == [] && m.stored == [] && oracle([], BeginTx).Err?
    ensures MatchesEnd(ExecAll(BeginCode(job.subscribe), m, incoming, oracle), NotBegun(job, oracle([], BeginTx).text))
  {
    BeginRun(job.subscribe, m, incoming, oracle);
  }

  lemma OpenedState(job: Job, m: Machine, incoming: Incoming, oracle: Oracle)
    requires Fresh(m) && m.trace == [] && m.stored == [] && Prepared(job, m.env, incoming) && DistinctVariables(job) && HasWrite(job.seqs)
    requires oracle([], BeginTx).Ok?
    ensures var m' := ExecAll(BeginCode(job.subscribe), m, incoming, oracle);
            Matches(m', BEGUN) && Prepared(job, m'.env, incoming)
  {
    BeginRun(job.subscribe, m, incoming, oracle);
    NotTx(job);
    InputsFrame(job, m.env, ExecAll(BeginCode(job.subscribe), m, incoming, oracle).env, incoming);
  }

  lemma TransactionRun(job: Job, m: Machine, incoming: Incoming, oracle: Oracle)
    requires SoundSource(job)
    requires Fresh(m) && m.trace == [] && m.stored == [] && Prepared(job, m.env, incoming) && HasWrite(job.seqs)
    ensures
      var code := CodeFrom(job.seqs, CtxOf(job), ErrDeclaredAtStart(job), {}, false, false);
      var walk := WalkFrom(job.seqs, job, BEGUN, incoming, oracle, false);
      walk.Ended? && MatchesEnd(Run(BeginCode(job.subscribe) + code, m, incoming, oracle), BegunOr(job, oracle([], BeginTx), walk))
  {
    var code := CodeFrom(job.seqs, CtxOf(job), ErrDeclaredAtStart(job), {}, false, false);
    var walk := WalkFrom(job.seqs, job, BEGUN, incoming, oracle, false);
    WalkEnds(job.seqs, job, BEGUN, incoming, oracle, false);
    forall m' | Matches(m', BEGUN) && Prepared(job, m'.env, incoming)
      ensures MatchesEnd(Run(code, m', incoming, oracle), walk)
    {
      WholeRun(job, m', BEGUN, incoming, oracle);
    }
    BegunRun(job, code, m, incoming, oracle, walk);
  }

  ghost predicate Delivers(rest: seq<Stmt>, job: Job, incoming: Incoming, oracle: Oracle, walk: Walk)
    requires walk.Ended?
  {
    forall m :: Fresh(m) && m.trace == [] && m.stored == [] && Prepared(job, m.env, incoming)
                ==> MatchesEnd(Run(rest, m, incoming, oracle), walk)
  }

  lemma TransactionDelivers(job: Job, code: seq<Stmt>, incoming: Incoming, oracle: Oracle)
    requires SoundSource(job)
    requires HasWrite(job.seqs)
    requires code == CodeFrom(job.seqs, CtxOf(job), ErrDeclaredAtStart(job), {}, false, false)
    ensures
      var walk := WalkFrom(job.seqs, job, BEGUN, incoming, oracle, false);
      walk.Ended? && Delivers(BeginCode(job.subscribe) + code, job, incoming, oracle, BegunOr(job, oracle([], BeginTx), walk))
  {
    WalkEnds(job.seqs, job, BEGUN, incoming, oracle, false);
    var begun := BegunOr(job, oracle([], BeginTx), WalkFrom(job.seqs, job, BEGUN, incoming, oracle, false));
    forall m | Fresh(m) && m.trace == [] && m.stored == [] && Prepared(job, m.env, incoming)
      ensures MatchesEnd(Run(BeginCode(job.subscribe) + code, m, incoming, oracle), begun)
    {
      TransactionRun(job, m, incoming, oracle);
    }
  }

  lemma BodyForm(job: Job)
    ensures
      var code := CodeFrom(job.seqs, CtxOf(job), ErrDeclaredAtStart(job), {}, false, false);
      HandlerBody(job) == InputCodeBefore(job) + (if HasWrite(job.seqs) then BeginCode(job.subscribe) + code else code)
  {
    var code := CodeFrom(job.seqs, CtxOf(job), ErrDeclaredAtStart(job), {}, false, false);
    Regroup(InputCodeBefore(job), if HasWrite(job.seqs) then BeginCode(job.subscribe) else [], code);
  }

  lemma Regroup(a: seq<Stmt>, b: seq<Stmt>, c: seq<Stmt>)
    ensures a + b + c == a + (b + c) && [] + c == c
  {
  }

  // ----- after the preamble nothing looks at the request -----

  predicate IgnoresRequest(s: Stmt) {
    match s
    case Let(_, _, call) => !call.ConvertOp? && !call.BindBodyOp?
    case IfCall(_, call, _) => !call.ConvertOp? && !call.BindBodyOp?
    case Init(_, _) => false
    case _ => true
  }

  ghost predicate AllIgnoreRequest(code: seq<Stmt>) {
    forall i :: 0 <= i < |code| ==> IgnoresRequest(code[i])
  }

  lemma {:induction false} SameExec(code: seq<Stmt>, m: Machine, a: Incoming, b: Incoming, oracle: Oracle)
    requires AllIgnoreRequest(code)
    ensures ExecAll(code, m, a, oracle) == ExecAll(code, m, b, oracle)
  {
    if code != [] && !m.returned {
      ExecIgnores(code[0], m, a, b, oracle);
      SameExec(code[1..], Exec(code[0], m, a, oracle), a, b, oracle);
    }
  }

  lemma ExecIgnores(s: Stmt, m: Machine, a: Incoming, b: Incoming, oracle: Oracle)
    requires IgnoresRequest(s)
    ensures Exec(s, m, a, oracle) == Exec(s, m, b, oracle)
  {
  }

  lemma SameRun(code: seq<Stmt>, m: Machine, a: Incoming, b: Incoming, oracle: Oracle)
    requires AllIgnoreRequest(code)
    ensures Run(code, m, a, oracle) == Run(code, m, b, oracle)
  {
    SameExec(code, m, a, b, oracle);
  }

  lemma EmitIgnores(s: Sequence, ctx: Ctx, d: TemplateData)
    ensures AllIgnoreRequest(Emit(s, ctx, d))
  {
    if s.kind !in {Empty, Exists, Response} { CallShape(s, ctx); }
  }

  lemma ConcatIgnores(a: seq<Stmt>, b: seq<Stmt>)
    requires AllIgnoreRequest(a) && AllIgnoreRequest(b)
    ensures AllIgnoreRequest(a + b)
  {
  }

  lemma {:induction false} CodeIgnores(seqs: seq<Sequence>, ctx: Ctx, tracked: bool, declared: set<string>, total: bool, committed: bool)
    ensures AllIgnoreRequest(CodeFrom(seqs, ctx, tracked, declared, total, committed))
    decreases |seqs|
  {
    if seqs != [] {
      var s, total' := seqs[0], total || HasTotal(seqs[0]);
      EmitIgnores(s, ctx, DataOf(s, ctx, tracked, declared, total'));
      ConcatIgnores(if CommitsBefore(s, ctx, committed) then CommitCode(ctx.subscribe) else [],
                    Emit(s, ctx, DataOf(s, ctx, tracked, declared, total')));
      CodeIgnores(seqs[1..], ctx, tracked || TouchesErr(s), DeclaredAfter(s, declared), total', committed || CommitsBefore(s, ctx, committed));
      ConcatIgnores(StepCode(s, ctx, tracked, declared, total', committed),
                    CodeFrom(seqs[1..], ctx, tracked || TouchesErr(s), DeclaredAfter(s, declared), total',
                             committed || CommitsBefore(s, ctx, committed)));
    }
  }

  lemma RestIgnores(job: Job)
    ensures
      var code := CodeFrom(job.seqs, CtxOf(job), ErrDeclaredAtStart(job), {}, false, false);
      AllIgnoreRequest(code) && AllIgnoreRequest(BeginCode(job.subscribe) + code)
  {
    CodeIgnores(job.seqs, CtxOf(job), ErrDeclaredAtStart(job), {}, false, false);
  }

  /** After the preamble: the rest of the body, whatever it is, run from where the preamble ends. */
  lemma AfterInputs(job: Job, rest: seq<Stmt>, incoming: Incoming, oracle: Oracle, walk: Walk)
    requires DistinctVariables(job) && walk.Ended? && AllIgnoreRequest(rest)
    requires Delivers(rest, job, Received(job, incoming), oracle, walk)
    ensures MatchesEnd(Run(InputCodeBefore(job) + rest, StartOfCall(job, incoming), incoming, oracle),
                       if Decodes(job, incoming) then walk else Fail(UNBEGUN, REJECTION))
  {
    RunConcat(InputCodeBefore(job), rest, StartOfCall(job, incoming), incoming, oracle);
    InputsRun(job, incoming, oracle);
    SameRun(rest, ExecAll(InputCodeBefore(job), StartOfCall(job, incoming), incoming, oracle), incoming, Received(job, incoming), oracle);
  }

  lemma TransactionPreserved(job: Job, incoming: Incoming, oracle: Oracle)
    requires SoundSource(job)
    requires HasWrite(job.seqs)
    ensures
      var walk := WalkFrom(job.seqs, job, BEGUN, Received(job, incoming), oracle, false);
      walk.Ended? && MatchesEnd(Run(HandlerBody(job), StartOfCall(job, incoming), incoming, oracle),
                                if Decodes(job, incoming) then BegunOr(job, oracle([], BeginTx), walk) else Fail(UNBEGUN, REJECTION))
  {
    var code := CodeFrom(job.seqs, CtxOf(job), ErrDeclaredAtStart(job), {}, false, false);
    var walk := WalkFrom(job.seqs, job, BEGUN, Received(job, incoming), oracle, false);
    TransactionDelivers(job, code, Received(job, incoming), oracle);
    RestIgnores(job);
    BodyForm(job);
    AfterInputs(job, BeginCode(job.subscribe) + code, incoming, oracle, BegunOr(job, oracle([], BeginTx), walk));
  }

  lemma DirectPreserved(job: Job, incoming: Incoming, oracle: Oracle)
    requires SoundSource(job)
    requires !HasWrite(job.seqs)
    ensures
      var walk := WalkFrom(job.seqs, job, UNBEGUN, Received(job, incoming), oracle, false);
      walk.Ended? && MatchesEnd(Run(HandlerBody(job), StartOfCall(job, incoming), incoming, oracle),
                                if Decodes(job, incoming) then walk else Fail(UNBEGUN, REJECTION))
  {
    var code := CodeFrom(job.seqs, CtxOf(job), ErrDeclaredAtStart(job), {}, false, false);
    var seen := Received(job, incoming);
    var walk := WalkFrom(job.seqs, job, UNBEGUN, seen, oracle, false);
    BodyForm(job);
    WalkEnds(job.seqs, job, UNBEGUN, seen, oracle, false);
    RestIgnores(job);
    forall m | Fresh(m) && m.trace == [] && m.stored == [] && Prepared(job, m.env, seen)
      ensures MatchesEnd(Run(code, m, seen, oracle), walk)
    {
      WholeRun(job, m, UNBEGUN, seen, oracle);
    }
    AfterInputs(job, code, incoming, oracle, walk);
  }

  /** Meaning preservation. For every accepted function, every request or message and every behaviour of the
      outside world, a call of the generated handler makes the calls, sends the replies and stores the writes
      that the sequences mean, in that order, and leaves no transaction open. */
  lemma MeaningPreserved(job: Job, incoming: Incoming, oracle: Oracle)
    requires SoundSource(job)
    ensures
      var m := Run(HandlerBody(job), StartOfCall(job, incoming), incoming, oracle);
      var walk := Meaning(job, incoming, oracle);
      walk.Ended? && m.trace == walk.trace && m.stored == walk.stored && !m.tx.Open?
  {
    if HasWrite(job.seqs) {
      TransactionPreserved(job, incoming, oracle);
    } else {
      DirectPreserved(job, incoming, oracle);
    }
    if Decodes(job, incoming) { MeaningForm(job, incoming, oracle); }
  }

  /** Whenever the conditions under which Go accepts it hold, the generated handler is correct. */
  lemma GeneratedHandlerCorrect(job: Job, incoming: Incoming, oracle: Oracle)
    requires SoundSource(job)
    requires Disciplined(job) && EverythingRead(job)
    ensures Compiles(HandlerBody(job), FuncParams(job.subscribe))
    ensures
      var m := Run(HandlerBody(job), StartOfCall(job, incoming), incoming, oracle);
      Meaning(job, incoming, oracle) == Ended(m.trace, m.stored)
  {
    SoundIsDeclared(job);
    CompilesExact(job);
    MeaningPreserved(job, incoming, oracle);
  }
}
