/** Execution of the generated statements, related step by step to the walk over the sequences. */
module HandlerRuns {
  import opened Text
  import opened SequenceDsl
  import opened GoBody
  import opened CallOrder
  import opened HandlerGen
  import opened VariableFlow
  import opened SourceRules
  import opened HandlerTracking
  import opened HandlerScope
  import opened HandlerMeaning
  import opened HandlerPreserved

  // ----- machine and world -----

  predicate Matches(m: Machine, w: World) {
    && !m.returned && m.trace == w.trace && m.stored == w.stored
    && match w.phase
       case Direct => m.tx == NoTx && !m.deferred && w.pending == []
       case InTx => m.tx == Open(w.pending) && m.deferred
       case Done => m.tx == Closed && m.deferred && w.pending == []
  }

  predicate MatchesEnd(m: Machine, walk: Walk)
    requires walk.Ended?
  {
    m.returned && m.trace == walk.trace && m.stored == walk.stored && !m.tx.Open?
  }

  lemma LeaveMatches(m: Machine, w: World, exit: Exit, err: string)
    requires Matches(m, w)
    ensures MatchesEnd(Leave(m, exit, err), Fail(w, ExitReply(exit, err)))
  {
  }

  lemma ExecOne(s: Stmt, m: Machine, incoming: Incoming, oracle: Oracle)
    requires !m.returned
    ensures ExecAll([s], m, incoming, oracle) == Exec(s, m, incoming, oracle)
  {
    var m' := Exec(s, m, incoming, oracle);
    assert ExecAll([s][1..], m', incoming, oracle) == m';
  }

  /** A call and its check: afterwards the variables are `env'`, and an error leaves the handler. */
  function Settle(call: GoBody.Call, exit: Exit, m: Machine, env': Env, incoming: Incoming, oracle: Oracle): Machine {
    var outcome := OutcomeOf(call, m, incoming, oracle);
    var m' := Perform(call, outcome.Ok?, m).(env := env');
    if outcome.Err? then Leave(m', exit, outcome.text) else m'
  }

  /** `..., err := call` and `if err != nil`. */
  lemma LetRun(names: seq<string>, define: bool, call: GoBody.Call, exit: Exit, m: Machine, incoming: Incoming, oracle: Oracle)
    requires !m.returned
    ensures ExecAll([Let(names, define, call), CheckErr(exit)], m, incoming, oracle) ==
            Settle(call, exit, m, BindNames(names, OutcomeOf(call, m, incoming, oracle), m.env), incoming, oracle)
  {
    var let := Let(names, define, call);
    assert [let, CheckErr(exit)] == [let] + [CheckErr(exit)];
    ExecAllConcat([let], [CheckErr(exit)], m, incoming, oracle);
    ExecOne(let, m, incoming, oracle);
    var m' := Exec(let, m, incoming, oracle);
    ExecOne(CheckErr(exit), m', incoming, oracle);
  }

  /** `if _, err := call; err != nil`, and with `=`. */
  lemma IfCallRun(define: bool, call: GoBody.Call, exit: Exit, m: Machine, incoming: Incoming, oracle: Oracle)
    requires !m.returned
    ensures
      var env' := if define then m.env else GoBody.Put(m.env, "err", ErrValue(OutcomeOf(call, m, incoming, oracle)));
      ExecAll([IfCall(define, call, exit)], m, incoming, oracle) == Settle(call, exit, m, env', incoming, oracle)
  {
    ExecOne(IfCall(define, call, exit), m, incoming, oracle);
  }

  // ----- calls -----

  lemma SameAnswer(call: GoBody.Call, m: Machine, w: World, incoming: Incoming, oracle: Oracle)
    requires Matches(m, w) && !call.ConvertOp? && !call.BindBodyOp? && !call.BeginOp? && !call.CommitOp?
    requires call.ModelOp? ==> (call.inTx <==> w.phase != Phase.Direct)
    ensures OutcomeOf(call, m, incoming, oracle) == Answer(EffectOf(call, m.env), w, oracle)
  {
  }

  lemma PerformMatches(call: GoBody.Call, ok: bool, m: Machine, w: World)
    requires Matches(m, w) && !call.ConvertOp? && !call.BindBodyOp? && !call.BeginOp? && !call.CommitOp?
    requires call.ModelOp? ==> (call.inTx <==> w.phase != Phase.Direct) && (call.writes ==> call.inTx) && (ok && call.inTx ==> w.phase == InTx)
    ensures
      var effect := EffectOf(call, m.env);
      var w' := w.(trace := w.trace + [Did(effect, ok)],
                   pending := if call.ModelOp? && call.writes && ok then w.pending + [effect] else w.pending);
      Matches(Perform(call, ok, m), w')
  {
  }

  // ----- Go's variables after a statement -----

  predicate SameOn(env: Env, env': Env, names: set<string>) {
    forall x :: x in names && x in env ==> x in env' && env'[x] == env[x]
  }

  lemma InputsFrame(job: Job, env: Env, env': Env, incoming: Incoming)
    requires InputsAgree(job, env, incoming)
    requires SameOn(env, env', FuncParams(job.subscribe) + Elements(InputNames(job)))
    ensures InputsAgree(job, env', incoming)
  {
    if !job.subscribe {
      InputNamesElements(job);
      forall p | p in ParamNames(job.symbols.pathParams) + ParamNames(job.raw)
        ensures Holding(env', job.camel(p), incoming.value(p))
      {
        ParamInScope(job, p);
      }
    }
  }

  /** Nothing but err has changed. */
  predicate KeepsButErr(env: Env, env': Env) {
    && (forall x :: x != "err" && x in env ==> x in env' && env'[x] == env[x])
    && (forall x :: x != "err" && x in env' ==> x in env)
  }

  lemma AgreesSame(job: Job, i: nat, env: Env, env': Env, incoming: Incoming, w: World, w': World)
    requires DistinctVariables(job) && i <= |job.seqs|
    requires Agrees(job, i, env, incoming, w)
    requires w'.vars == w.vars && w'.total == w.total
    requires KeepsButErr(env, env')
    ensures Agrees(job, i, env', incoming, w')
  {
    NamesApart(job, i);
    InputsFrame(job, env, env', incoming);
  }

  /** Statements that change nothing but err keep the agreement. */
  lemma AgreesFrame(job: Job, i: nat, env: Env, env': Env, incoming: Incoming, w: World, w': World)
    requires DistinctVariables(job) && i < |job.seqs| && job.seqs[i].result.None?
    requires Agrees(job, i, env, incoming, w)
    requires w'.vars == w.vars && w'.total == w.total
    requires KeepsButErr(env, env')
    ensures Agrees(job, i + 1, env', incoming, w')
  {
    AgreesSame(job, i, env, env', incoming, w, w');
    BoundAppend(job.seqs, i);
  }

  /** Nothing but err, a result and, with list queries, total has changed. */
  predicate KeptBut(env: Env, env': Env, result: string, counted: bool) {
    forall x :: x != "err" && x != result && (counted ==> x != "total") && x in env ==> x in env' && env'[x] == env[x]
  }

  lemma BindResult(s: Sequence, d: TemplateData, outcome: Outcome, env: Env, counted: bool)
    requires outcome.Ok? && s.result.Some? && s.result.value.name !in RESERVED && (counted ==> s.result.value.name != "total")
    requires d.hasTotal ==> counted
    ensures
      var env' := BindNames(LeftSide(s, d), outcome, env);
      && KeptBut(env, env', s.result.value.name, counted)
      && (!d.unused ==> Holding(env', s.result.value.name, outcome.value))
      && (counted ==> Known(env', "total") == if d.hasTotal && s.kind == Get then outcome.total else Known(env, "total"))
  {
    var names := LeftSide(s, d);
    var x := if d.unused then "_" else s.result.value.name;
    if d.hasTotal && s.kind == Get {
      assert names == [x, "total", "err"];
    } else {
      assert names == [x, "err"];
    }
  }

  lemma AgreesResult(job: Job, i: nat, env: Env, incoming: Incoming, w: World, w': World, d: TemplateData, outcome: Outcome)
    requires DistinctVariables(job) && i < |job.seqs| && job.seqs[i].result.Some? && outcome.Ok?
    requires Agrees(job, i, env, incoming, w)
    requires d.unused <==> job.seqs[i].result.value.name !in UsedVars(job.seqs)
    requires d.hasTotal == HasTotal(job.seqs[i])
    requires w'.vars == w.vars[job.seqs[i].result.value.name := outcome.value]
    requires w'.total == if BindsTotal(job.seqs[i]) then outcome.total else w.total
    ensures Agrees(job, i + 1, BindNames(LeftSide(job.seqs[i], d), outcome, env), incoming, w')
  {
    var s := job.seqs[i];
    var env' := BindNames(LeftSide(s, d), outcome, env);
    NamesApart(job, i);
    assert HasTotal(s) ==> Counted(job.seqs);
    BindResult(s, d, outcome, env, Counted(job.seqs));
    InputsKept(job, i, env, env', incoming);
    VarsFrame(job, i, env, env', w.vars, outcome.value, d.unused);
  }

  lemma InputsKept(job: Job, i: nat, env: Env, env': Env, incoming: Incoming)
    requires DistinctVariables(job) && i < |job.seqs| && job.seqs[i].result.Some? && InputsAgree(job, env, incoming)
    requires KeptBut(env, env', job.seqs[i].result.value.name, Counted(job.seqs))
    ensures InputsAgree(job, env', incoming)
  {
    ResultApart(job, i);
    InputsFrame(job, env, env', incoming);
  }

  /** A result's name, err and total are none of the handler's inputs. */
  lemma ResultApart(job: Job, i: nat)
    requires DistinctVariables(job) && i < |job.seqs| && job.seqs[i].result.Some?
    ensures FuncParams(job.subscribe) + Elements(InputNames(job)) !! {job.seqs[i].result.value.name, "err"}
    ensures Counted(job.seqs) ==> "total" !in FuncParams(job.subscribe) + Elements(InputNames(job))
  {
    NamesApart(job, i);
  }

  lemma VarsFrame(job: Job, i: nat, env: Env, env': Env, vars: map<string, Value>, v: Value, unused: bool)
    requires DistinctVariables(job) && i < |job.seqs| && job.seqs[i].result.Some?
    requires VarsAgree(env, vars, NamedBefore(job, i))
    requires unused <==> job.seqs[i].result.value.name !in UsedVars(job.seqs)
    requires !unused ==> Holding(env', job.seqs[i].result.value.name, v)
    requires KeptBut(env, env', job.seqs[i].result.value.name, Counted(job.seqs))
    ensures VarsAgree(env', vars[job.seqs[i].result.value.name := v], NamedBefore(job, i + 1))
  {
    BoundAppend(job.seqs, i);
    NamesApart(job, i);
    var vars' := vars[job.seqs[i].result.value.name := v];
    forall x | x in NamedBefore(job, i + 1) ensures x in vars' && Holding(env', x, vars'[x]) {
      if x != job.seqs[i].result.value.name {
        assert x in NamedBefore(job, i);
        assert x != "err" && (Counted(job.seqs) ==> x != "total");
      }
    }
  }

  // ----- one sequence -----

  ghost predicate StepMatches(walk: Walk, m: Machine, job: Job, i: nat, incoming: Incoming)
    requires i < |job.seqs|
  {
    match walk
    case Ended(_, _) => MatchesEnd(m, walk)
    case Going(w) => Matches(m, w) && Agrees(job, i + 1, m.env, incoming, w)
  }

  /** What the step lemmas assume about sequence `i` and the state before it. */
  ghost predicate StepStart(job: Job, i: nat, m: Machine, w: World, incoming: Incoming)
    requires i < |job.seqs|
  {
    && WellShaped(job.seqs[i]) && Renders(job.seqs[i], job.subscribe) && DistinctVariables(job)
    && Matches(m, w) && Agrees(job, i, m.env, incoming, w)
    && InputsEval(job.seqs[i], job.camel, m.env, incoming, w.vars)
    && FieldsEval(job.seqs[i], m.env, incoming, w.vars)
    && (job.seqs[i].kind == Auth ==> Holding(m.env, "currentUser", incoming.user))
    && (w.phase == Phase.Direct <==> !HasWrite(job.seqs))
  }

  /** The generated status is the documented one. */
  lemma StatusMeans(s: Sequence, symbols: Symbols)
    requires s.kind != Response
    ensures StatusOf(s, symbols) == FailStatus(s, symbols)
  {
    match s.kind case _ =>
  }

  lemma FailureIsExit(s: Sequence, job: Job, err: string)
    requires s.kind != Response
    ensures FailureOf(s, job, err) == ExitReply(ExitOf(s, CtxOf(job)), err)
  {
    StatusMeans(s, job.symbols);
  }

  /** A call made by the generated code and the same effect of the walk. */
  lemma PerformedAs(call: GoBody.Call, effect: Effect, m: Machine, w: World, incoming: Incoming, oracle: Oracle, writes: bool)
    requires Matches(m, w) && !call.ConvertOp? && !call.BindBodyOp? && !call.BeginOp? && !call.CommitOp?
    requires if call.ModelOp? then (call.inTx <==> w.phase != Phase.Direct) && call.writes == writes && (writes ==> call.inTx) else !writes
    requires EffectOf(call, m.env) == effect
    ensures
      var outcome := Answer(effect, w, oracle);
      && OutcomeOf(call, m, incoming, oracle) == outcome
      && Perform(call, outcome.Ok?, m).env == m.env
      && Matches(Perform(call, outcome.Ok?, m),
                 w.(trace := w.trace + [Did(effect, outcome.Ok?)],
                    pending := if writes && outcome.Ok? then w.pending + [effect] else w.pending))
  {
    SameAnswer(call, m, w, incoming, oracle);
    PerformMatches(call, OutcomeOf(call, m, incoming, oracle).Ok?, m, w);
  }

  lemma SavesInTx(seqs: seq<Sequence>, i: nat)
    requires i < |seqs| && Saves(seqs[i])
    ensures HasWrite(seqs)
  {
    assert IsWrite(seqs[i]);
  }

  /** Model calls are made inside the transaction exactly when there is one, and writes always are. */
  lemma CallFits(job: Job, i: nat, m: Machine, w: World, incoming: Incoming)
    requires i < |job.seqs| && StepStart(job, i, m, w, incoming)
    requires job.seqs[i].kind !in {Empty, Exists, Response}
    ensures
      var call, writes := CallOf(job.seqs[i], CtxOf(job)), Saves(job.seqs[i]);
      && !call.ConvertOp? && !call.BindBodyOp? && !call.BeginOp? && !call.CommitOp?
      && if call.ModelOp? then (call.inTx <==> w.phase != Phase.Direct) && call.writes == writes && (writes ==> call.inTx) else !writes
  {
    CallShape(job.seqs[i], CtxOf(job));
    if Saves(job.seqs[i]) { SavesInTx(job.seqs, i); }
  }

  /** The call of sequence `i`, made by the generated code and made by the walk. */
  lemma CallMatches(job: Job, i: nat, m: Machine, w: World, incoming: Incoming, oracle: Oracle)
    requires i < |job.seqs| && StepStart(job, i, m, w, incoming)
    requires job.seqs[i].kind !in {Empty, Exists, Response}
    ensures
      var s := job.seqs[i];
      var call, effect := CallOf(s, CtxOf(job)), EffectFor(s, job.symbols, incoming, w.vars);
      var outcome := Answer(effect, w, oracle);
      && OutcomeOf(call, m, incoming, oracle) == outcome
      && !call.ConvertOp? && !call.BindBodyOp? && EffectOf(call, m.env) == effect
      && Perform(call, outcome.Ok?, m).env == m.env
      && Matches(Perform(call, outcome.Ok?, m),
                 w.(trace := w.trace + [Did(effect, outcome.Ok?)],
                    pending := if Saves(s) && outcome.Ok? then w.pending + [effect] else w.pending))
  {
    var s, ctx := job.seqs[i], CtxOf(job);
    SameEffect(s, ctx, m.env, incoming, w.vars);
    CallFits(job, i, m, w, incoming);
    PerformedAs(CallOf(s, ctx), EffectFor(s, job.symbols, incoming, w.vars), m, w, incoming, oracle, Saves(s));
  }

  lemma CallShape(s: Sequence, ctx: Ctx)
    requires s.kind !in {Empty, Exists, Response}
    ensures
      var call := CallOf(s, ctx);
      && !call.ConvertOp? && !call.BindBodyOp? && !call.BeginOp? && !call.CommitOp?
      && (call.ModelOp? <==> s.kind in {Get, Post, Put, Delete})
      && (call.ModelOp? ==> call.inTx == ctx.useTx && call.writes == Saves(s))
  {
    match s.kind
    case State =>
    case Auth =>
    case Call =>
    case Publish =>
    case Get =>
    case Post =>
    case Put =>
    case Delete =>
  }

  function Succeeded(s: Sequence, w: World, effect: Effect, outcome: Outcome): World
    requires outcome.Ok?
  {
    w.(trace := w.trace + [Did(effect, true)],
       pending := if Saves(s) then w.pending + [effect] else w.pending,
       vars := if s.result.Some? then w.vars[s.result.value.name := outcome.value] else w.vars,
       total := if BindsTotal(s) then outcome.total else w.total)
  }

  /** What the walk does with an answer. */
  lemma CallStepForm(s: Sequence, job: Job, w: World, incoming: Incoming, oracle: Oracle)
    requires s.kind !in {Empty, Exists, Response}
    ensures
      var effect := EffectFor(s, job.symbols, incoming, w.vars);
      var outcome := Answer(effect, w, oracle);
      var walk := CallStep(s, job, w, incoming, oracle);
      && (outcome.Err? ==> walk == Fail(w.(trace := w.trace + [Did(effect, false)]), FailureOf(s, job, outcome.text)))
      && (outcome.Ok? ==> walk == Going(Succeeded(s, w, effect, outcome)))
  {
  }

  lemma SettleFails(m: Machine, w: World, env': Env, s: Sequence, job: Job, err: string)
    requires Matches(m, w) && s.kind != Response
    ensures MatchesEnd(Leave(m.(env := env'), ExitOf(s, CtxOf(job)), err), Fail(w, FailureOf(s, job, err)))
  {
    FailureIsExit(s, job, err);
    LeaveMatches(m.(env := env'), w, ExitOf(s, CtxOf(job)), err);
  }

  /** The code around a call and the step of the walk end alike, whatever names the code binds. */
  lemma AfterCall(job: Job, i: nat, m: Machine, env': Env, w: World, incoming: Incoming, oracle: Oracle)
    requires i < |job.seqs| && StepStart(job, i, m, w, incoming) && job.seqs[i].kind !in {Empty, Exists, Response}
    requires
      var walk := CallStep(job.seqs[i], job, w, incoming, oracle);
      walk.Going? ==> Agrees(job, i + 1, env', incoming, walk.w)
    ensures
      var s := job.seqs[i];
      StepMatches(CallStep(s, job, w, incoming, oracle), Settle(CallOf(s, CtxOf(job)), ExitOf(s, CtxOf(job)), m, env', incoming, oracle),
                  job, i, incoming)
  {
    var s := job.seqs[i];
    var effect := EffectFor(s, job.symbols, incoming, w.vars);
    var outcome := Answer(effect, w, oracle);
    CallMatches(job, i, m, w, incoming, oracle);
    CallStepForm(s, job, w, incoming, oracle);
    if outcome.Err? {
      SettleFails(Perform(CallOf(s, CtxOf(job)), false, m), w.(trace := w.trace + [Did(effect, false)]), env', s, job, outcome.text);
    }
  }

  lemma AfterCallAs(job: Job, i: nat, m: Machine, m': Machine, env': Env, w: World, incoming: Incoming, oracle: Oracle)
    requires i < |job.seqs| && StepStart(job, i, m, w, incoming) && job.seqs[i].kind !in {Empty, Exists, Response}
    requires job.seqs[i].result.None? && KeepsButErr(m.env, env')
    requires m' == Settle(CallOf(job.seqs[i], CtxOf(job)), ExitOf(job.seqs[i], CtxOf(job)), m, env', incoming, oracle)
    ensures StepMatches(CallStep(job.seqs[i], job, w, incoming, oracle), m', job, i, incoming)
  {
    var s := job.seqs[i];
    CallStepForm(s, job, w, incoming, oracle);
    var walk := CallStep(s, job, w, incoming, oracle);
    if walk.Going? {
      AgreesFrame(job, i, m.env, env', incoming, w, walk.w);
    }
    AfterCall(job, i, m, env', w, incoming, oracle);
  }

  lemma ErrOnlyBound(outcome: Outcome, env: Env)
    ensures KeepsButErr(env, BindNames(["err"], outcome, env)) && KeepsButErr(env, GoBody.Put(env, "err", ErrValue(outcome)))
  {
  }

  /** The result, err and total of a call are bound, or its failure is reported. */
  lemma ResultSettles(job: Job, i: nat, m: Machine, w: World, incoming: Incoming, oracle: Oracle, d: TemplateData)
    requires i < |job.seqs| && StepStart(job, i, m, w, incoming)
    requires ReturnsResult(job.seqs[i]) && job.seqs[i].result.Some?
    requires d.unused <==> job.seqs[i].result.value.name !in UsedVars(job.seqs)
    requires d.hasTotal == HasTotal(job.seqs[i])
    ensures
      var s := job.seqs[i];
      var env' := BindNames(LeftSide(s, d), OutcomeOf(CallOf(s, CtxOf(job)), m, incoming, oracle), m.env);
      StepMatches(CallStep(s, job, w, incoming, oracle), Settle(CallOf(s, CtxOf(job)), ExitOf(s, CtxOf(job)), m, env', incoming, oracle),
                  job, i, incoming)
  {
    var s := job.seqs[i];
    CallMatches(job, i, m, w, incoming, oracle);
    CallStepForm(s, job, w, incoming, oracle);
    var outcome := Answer(EffectFor(s, job.symbols, incoming, w.vars), w, oracle);
    if outcome.Ok? {
      AgreesResult(job, i, m.env, incoming, w, CallStep(s, job, w, incoming, oracle).w, d, outcome);
    }
    AfterCall(job, i, m, BindNames(LeftSide(s, d), outcome, m.env), w, incoming, oracle);
  }

  lemma ResultRun(job: Job, i: nat, m: Machine, w: World, incoming: Incoming, oracle: Oracle, d: TemplateData)
    requires i < |job.seqs| && StepStart(job, i, m, w, incoming)
    requires ReturnsResult(job.seqs[i]) && job.seqs[i].result.Some?
    requires d.unused <==> job.seqs[i].result.value.name !in UsedVars(job.seqs)
    requires d.hasTotal == HasTotal(job.seqs[i])
    ensures
      var s := job.seqs[i];
      var code := [Let(LeftSide(s, d), !d.reAssign, CallOf(s, CtxOf(job))), CheckErr(ExitOf(s, CtxOf(job)))];
      StepMatches(CallStep(s, job, w, incoming, oracle), ExecAll(code, m, incoming, oracle), job, i, incoming)
  {
    var s, ctx := job.seqs[i], CtxOf(job);
    LetRun(LeftSide(s, d), !d.reAssign, CallOf(s, ctx), ExitOf(s, ctx), m, incoming, oracle);
    ResultSettles(job, i, m, w, incoming, oracle, d);
  }

  lemma ErrRun(job: Job, i: nat, m: Machine, w: World, incoming: Incoming, oracle: Oracle, define: bool)
    requires i < |job.seqs| && StepStart(job, i, m, w, incoming)
    requires job.seqs[i].kind in {Put, Delete, Publish}
    ensures
      var s := job.seqs[i];
      var code := [Let(["err"], define, CallOf(s, CtxOf(job))), CheckErr(ExitOf(s, CtxOf(job)))];
      StepMatches(CallStep(s, job, w, incoming, oracle), ExecAll(code, m, incoming, oracle), job, i, incoming)
  {
    var call, exit := CallOf(job.seqs[i], CtxOf(job)), ExitOf(job.seqs[i], CtxOf(job));
    var outcome := OutcomeOf(call, m, incoming, oracle);
    LetRun(["err"], define, call, exit, m, incoming, oracle);
    ErrOnlyBound(outcome, m.env);
    AfterCallAs(job, i, m, ExecAll([Let(["err"], define, call), CheckErr(exit)], m, incoming, oracle),
                BindNames(["err"], outcome, m.env), w, incoming, oracle);
  }

  lemma InsideRun(job: Job, i: nat, m: Machine, w: World, incoming: Incoming, oracle: Oracle, define: bool)
    requires i < |job.seqs| && StepStart(job, i, m, w, incoming)
    requires job.seqs[i].kind in {Auth, State, Call} && job.seqs[i].result.None?
    ensures
      var s := job.seqs[i];
      var code := [IfCall(define, CallOf(s, CtxOf(job)), ExitOf(s, CtxOf(job)))];
      StepMatches(CallStep(s, job, w, incoming, oracle), ExecAll(code, m, incoming, oracle), job, i, incoming)
  {
    var call, exit := CallOf(job.seqs[i], CtxOf(job)), ExitOf(job.seqs[i], CtxOf(job));
    var outcome := OutcomeOf(call, m, incoming, oracle);
    IfCallRun(define, call, exit, m, incoming, oracle);
    ErrOnlyBound(outcome, m.env);
    AfterCallAs(job, i, m, ExecAll([IfCall(define, call, exit)], m, incoming, oracle),
                if define then m.env else GoBody.Put(m.env, "err", ErrValue(outcome)), w, incoming, oracle);
  }

  lemma GuardRun(job: Job, i: nat, m: Machine, w: World, incoming: Incoming, oracle: Oracle, check: Check)
    requires i < |job.seqs| && Matches(m, w) && Agrees(job, i + 1, m.env, incoming, w)
    requires Eval(job.seqs[i].target, m.env) == Denote(job.seqs[i].target, incoming, w.vars)
    ensures
      var s := job.seqs[i];
      var exit := ExitOf(s, CtxOf(job));
      StepMatches(if Holds(check, Denote(s.target, incoming, w.vars)) then Fail(w, ExitReply(exit, "")) else Going(w),
                  ExecAll([IfHolds(s.target, check, exit)], m, incoming, oracle), job, i, incoming)
  {
    var exit := ExitOf(job.seqs[i], CtxOf(job));
    ExecOne(IfHolds(job.seqs[i].target, check, exit), m, incoming, oracle);
    if Holds(check, Denote(job.seqs[i].target, incoming, w.vars)) {
      LeaveMatches(m, w, exit, "");
    }
  }

  // ----- commit and response -----

  lemma CommitRun(m: Machine, w: World, subscribe: bool, incoming: Incoming, oracle: Oracle)
    requires Matches(m, w) && w.phase == InTx
    ensures
      var m' := ExecAll(CommitCode(subscribe), m, incoming, oracle);
      match Commit(w, subscribe, oracle)
      case Ended(t, st) => MatchesEnd(m', Ended(t, st))
      case Going(w') =>
        && Matches(m', w') && w'.phase == Done && w'.vars == w.vars && w'.total == w.total
        && KeepsButErr(m.env, m'.env)
  {
    var s := IfCall(false, CommitOp, CommitExit(subscribe));
    ExecOne(s, m, incoming, oracle);
    assert CommitCode(subscribe) == [s];
  }

  lemma PayloadEval(s: Sequence, env: Env, incoming: Incoming, w: World, withTotal: bool)
    requires FieldsEval(s, env, incoming, w.vars) && (withTotal ==> Known(env, "total") == w.total)
    ensures PayloadReply(PayloadOf(s, withTotal), env) ==
      if s.target != "" then SuccessDirect(Denote(s.target, incoming, w.vars))
      else Success(DenoteAll(s.fields, incoming, w.vars), if withTotal then Some(w.total) else None)
  {
    assert EvalFields(s.fields, env) == DenoteAll(s.fields, incoming, w.vars);
    if withTotal {
      BeforeNone("total", '.');
      assert "total"[5..] == "";
    }
  }

  /** Everything a response shows, and the agreement after it. */
  ghost predicate Ready(job: Job, i: nat, env: Env, incoming: Incoming, w: World)
    requires i < |job.seqs|
  {
    Agrees(job, i + 1, env, incoming, w) && FieldsEval(job.seqs[i], env, incoming, w.vars)
  }

  lemma ReadyFrame(job: Job, i: nat, env: Env, incoming: Incoming, w: World, w': World)
    requires i < |job.seqs| && Ready(job, i, env, incoming, w) && w'.vars == w.vars && w'.total == w.total
    ensures Ready(job, i, env, incoming, w')
  {
  }

  lemma RespondRun(job: Job, i: nat, m: Machine, w: World, incoming: Incoming, oracle: Oracle, withTotal: bool)
    requires i < |job.seqs| && Matches(m, w) && Ready(job, i, m.env, incoming, w) && (withTotal ==> Counted(job.seqs))
    ensures
      var s := job.seqs[i];
      var code := [Respond(PayloadOf(s, withTotal))];
      StepMatches(Going(Answered(s, w, incoming, withTotal)), ExecAll(code, m, incoming, oracle), job, i, incoming)
  {
    var s := job.seqs[i];
    var payload := PayloadOf(s, withTotal);
    ExecOne(Respond(payload), m, incoming, oracle);
    PayloadEval(s, m.env, incoming, w, withTotal);
    ReadyFrame(job, i, m.env, incoming, w, Answered(s, w, incoming, withTotal));
  }

  /** The state between two sequences, in the generated body and in the walk. */
  ghost predicate Between(job: Job, i: nat, m: Machine, w: World, incoming: Incoming, committed: bool)
    requires i <= |job.seqs|
  {
    && Matches(m, w) && Agrees(job, i, m.env, incoming, w)
    && (w.phase == Phase.Direct <==> !HasWrite(job.seqs))
    && (w.phase == InTx <==> HasWrite(job.seqs) && !committed)
  }

  lemma StartOf(job: Job, i: nat, m: Machine, w: World, incoming: Incoming, committed: bool)
    requires SoundSource(job) && i < |job.seqs|
    requires Between(job, i, m, w, incoming, committed)
    ensures StepStart(job, i, m, w, incoming)
  {
    AllInputsEval(job, i, m.env, incoming, w);
    AllFieldsEval(job, i, m.env, incoming, w);
    assert WellShaped(job.seqs[i]) && Renders(job.seqs[i], job.subscribe);
    if job.seqs[i].kind == Auth {
      assert UsesCurrentUser(job.seqs[i]);
      assert NeedsCurrentUser(job.seqs);
    }
  }

  /** A response that first commits. */
  lemma CommittedResponse(job: Job, i: nat, m: Machine, w: World, incoming: Incoming, oracle: Oracle, hasTotal: bool)
    requires i < |job.seqs| && job.seqs[i].kind == Response && Matches(m, w) && w.phase == InTx && (hasTotal ==> Counted(job.seqs))
    requires forall env :: KeepsButErr(m.env, env) ==> Ready(job, i, env, incoming, w)
    ensures
      var s := job.seqs[i];
      var code := [Respond(PayloadOf(s, hasTotal))];
      StepMatches(Step(s, job, w, incoming, oracle, hasTotal), ExecAll(CommitCode(job.subscribe) + code, m, incoming, oracle),
                  job, i, incoming)
  {
    var s := job.seqs[i];
    var code := [Respond(PayloadOf(s, hasTotal))];
    ExecAllConcat(CommitCode(job.subscribe), code, m, incoming, oracle);
    CommitRun(m, w, job.subscribe, incoming, oracle);
    StepOfResponse(s, job, w, incoming, oracle, hasTotal);
    var m' := ExecAll(CommitCode(job.subscribe), m, incoming, oracle);
    match Commit(w, job.subscribe, oracle)
    case Ended(_, _) =>
    case Going(w') =>
      assert KeepsButErr(m.env, m'.env);
      ReadyFrame(job, i, m'.env, incoming, w, w');
      RespondRun(job, i, m', w', incoming, oracle, hasTotal);
  }

  lemma StepOfResponse(s: Sequence, job: Job, w: World, incoming: Incoming, oracle: Oracle, withTotal: bool)
    requires s.kind == Response && w.phase == InTx
    ensures match Commit(w, job.subscribe, oracle)
            case Ended(_, _) => Step(s, job, w, incoming, oracle, withTotal) == Commit(w, job.subscribe, oracle)
            case Going(w') => Step(s, job, w, incoming, oracle, withTotal) == Going(Answered(s, w', incoming, withTotal))
  {
  }

  lemma ResponseReady(job: Job, i: nat, env: Env, env': Env, incoming: Incoming, w: World)
    requires SoundSource(job) && i < |job.seqs| && job.seqs[i].kind == Response
    requires Agrees(job, i, env, incoming, w) && KeepsButErr(env, env')
    ensures Ready(job, i, env', incoming, w)
  {
    assert WellShaped(job.seqs[i]);
    AgreesFrame(job, i, env, env', incoming, w, w);
    AgreesSame(job, i, env, env', incoming, w, w);
    AllFieldsEval(job, i, env', incoming, w);
  }

  lemma ResponseRun(job: Job, i: nat, m: Machine, w: World, incoming: Incoming, oracle: Oracle, hasTotal: bool, committed: bool)
    requires SoundSource(job) && i < |job.seqs| && job.seqs[i].kind == Response && !job.subscribe
    requires Between(job, i, m, w, incoming, committed) && (hasTotal ==> Counted(job.seqs))
    ensures
      var s := job.seqs[i];
      var commit := if CommitsBefore(s, CtxOf(job), committed) then CommitCode(job.subscribe) else [];
      var code := [Respond(PayloadOf(s, hasTotal))];
      StepMatches(Step(s, job, w, incoming, oracle, hasTotal), ExecAll(commit + code, m, incoming, oracle), job, i, incoming)
  {
    forall env | KeepsButErr(m.env, env) ensures Ready(job, i, env, incoming, w) {
      ResponseReady(job, i, m.env, env, incoming, w);
    }
    ReadyResponse(job, i, m, w, incoming, oracle, hasTotal, CommitsBefore(job.seqs[i], CtxOf(job), committed));
  }

  lemma ReadyResponse(job: Job, i: nat, m: Machine, w: World, incoming: Incoming, oracle: Oracle, hasTotal: bool, commits: bool)
    requires i < |job.seqs| && job.seqs[i].kind == Response && Matches(m, w) && (commits <==> w.phase == InTx)
    requires hasTotal ==> Counted(job.seqs)
    requires forall env :: KeepsButErr(m.env, env) ==> Ready(job, i, env, incoming, w)
    ensures
      var s := job.seqs[i];
      var commit := if commits then CommitCode(job.subscribe) else [];
      var code := [Respond(PayloadOf(s, hasTotal))];
      StepMatches(Step(s, job, w, incoming, oracle, hasTotal), ExecAll(commit + code, m, incoming, oracle), job, i, incoming)
  {
    if commits {
      CommittedResponse(job, i, m, w, incoming, oracle, hasTotal);
    } else {
      var s := job.seqs[i];
      var code := [Respond(PayloadOf(s, hasTotal))];
      assert [] + code == code;
      assert KeepsButErr(m.env, m.env);
      RespondRun(job, i, m, w, incoming, oracle, hasTotal);
    }
  }

  lemma StepCodeForm(s: Sequence, ctx: Ctx, tracked: bool, declared: set<string>, total: bool, committed: bool)
    ensures s.kind != Response ==> StepCode(s, ctx, tracked, declared, total, committed) == Emit(s, ctx, DataOf(s, ctx, tracked, declared, total))
    ensures s.kind == Response && !ctx.subscribe ==>
      StepCode(s, ctx, tracked, declared, total, committed) ==
      (if CommitsBefore(s, ctx, committed) then CommitCode(ctx.subscribe) else [])
      + [Respond(PayloadOf(s, total))]
  {
  }

  lemma CallKindRun(job: Job, i: nat, m: Machine, w: World, incoming: Incoming, oracle: Oracle, d: TemplateData,
                    code: seq<Stmt>)
    requires i < |job.seqs| && StepStart(job, i, m, w, incoming) && job.seqs[i].kind !in {Empty, Exists, Response}
    requires job.seqs[i].result.Some? ==> (d.unused <==> job.seqs[i].result.value.name !in UsedVars(job.seqs))
    requires d.hasTotal == HasTotal(job.seqs[i]) && code == Emit(job.seqs[i], CtxOf(job), d)
    ensures
      var s := job.seqs[i];
      StepMatches(CallStep(s, job, w, incoming, oracle), ExecAll(code, m, incoming, oracle), job, i, incoming)
  {
    var s := job.seqs[i];
    if ReturnsResult(s) {
      ResultRun(job, i, m, w, incoming, oracle, d);
    } else if s.kind in {Put, Delete, Publish} {
      ErrRun(job, i, m, w, incoming, oracle, d.firstErr);
    } else {
      InsideRun(job, i, m, w, incoming, oracle, s.kind == State || d.firstErr);
    }
  }

  lemma PlainRun(job: Job, i: nat, m: Machine, w: World, incoming: Incoming, oracle: Oracle, d: TemplateData, hasTotal: bool)
    requires i < |job.seqs| && StepStart(job, i, m, w, incoming) && job.seqs[i].kind != Response
    requires job.seqs[i].result.Some? ==> (d.unused <==> job.seqs[i].result.value.name !in UsedVars(job.seqs))
    requires d.hasTotal == HasTotal(job.seqs[i])
    ensures
      var s := job.seqs[i];
      StepMatches(Step(s, job, w, incoming, oracle, hasTotal || HasTotal(s)),
                  ExecAll(Emit(s, CtxOf(job), d), m, incoming, oracle), job, i, incoming)
  {
    if job.seqs[i].kind in {Empty, Exists} {
      GuardAgrees(job, i, m, w, incoming);
      GuardKindRun(job, i, m, w, incoming, oracle, d, hasTotal);
    } else {
      CallKindRun(job, i, m, w, incoming, oracle, d, Emit(job.seqs[i], CtxOf(job), d));
    }
  }

  lemma GuardAgrees(job: Job, i: nat, m: Machine, w: World, incoming: Incoming)
    requires i < |job.seqs| && StepStart(job, i, m, w, incoming) && job.seqs[i].kind in {Empty, Exists}
    ensures Agrees(job, i + 1, m.env, incoming, w) && !HasTotal(job.seqs[i])
    ensures Eval(job.seqs[i].target, m.env) == Denote(job.seqs[i].target, incoming, w.vars)
  {
    AgreesFrame(job, i, m.env, m.env, incoming, w, w);
  }

  /** The emitted test of a guard is its documented meaning. */
  lemma GuardMeans(s: Sequence, ctx: Ctx, v: Value)
    requires s.kind in {Empty, Exists}
    ensures Holds(GuardCheck(s, ctx), v) <==>
      var typ := TypeOf(ctx, RootVar(s.target));
      if s.kind == Empty then IsZero(typ, v) else IsPresent(typ, v)
  {
  }

  lemma GuardKindRun(job: Job, i: nat, m: Machine, w: World, incoming: Incoming, oracle: Oracle, d: TemplateData, hasTotal: bool)
    requires i < |job.seqs| && job.seqs[i].kind in {Empty, Exists} && Matches(m, w)
    requires Agrees(job, i + 1, m.env, incoming, w) && !HasTotal(job.seqs[i])
    requires Eval(job.seqs[i].target, m.env) == Denote(job.seqs[i].target, incoming, w.vars)
    ensures
      var s := job.seqs[i];
      StepMatches(Step(s, job, w, incoming, oracle, hasTotal || HasTotal(s)),
                  ExecAll(Emit(s, CtxOf(job), d), m, incoming, oracle), job, i, incoming)
  {
    var s, ctx := job.seqs[i], CtxOf(job);
    FailureIsExit(s, job, "");
    GuardMeans(s, ctx, Denote(s.target, incoming, w.vars));
    SameType(job.seqs, RootVar(s.target));
    GuardRun(job, i, m, w, incoming, oracle, GuardCheck(s, ctx));
  }

  /** Running the code of sequence `i` is taking its step. */
  lemma StepRun(job: Job, i: nat, m: Machine, w: World, incoming: Incoming, oracle: Oracle,
                tracked: bool, declared: set<string>, hasTotal: bool, committed: bool)
    requires SoundSource(job) && i < |job.seqs|
    requires Between(job, i, m, w, incoming, committed) && (hasTotal ==> Counted(job.seqs))
    ensures
      var s, total := job.seqs[i], hasTotal || HasTotal(job.seqs[i]);
      StepMatches(Step(s, job, w, incoming, oracle, total),
                  ExecAll(StepCode(s, CtxOf(job), tracked, declared, total, committed), m, incoming, oracle), job, i, incoming)
  {
    var s, ctx, total := job.seqs[i], CtxOf(job), hasTotal || HasTotal(job.seqs[i]);
    StepCodeForm(s, ctx, tracked, declared, total, committed);
    if s.kind == Response {
      assert Renders(s, job.subscribe);
      ResponseRun(job, i, m, w, incoming, oracle, hasTotal, committed);
    } else {
      StartOf(job, i, m, w, incoming, committed);
      PlainRun(job, i, m, w, incoming, oracle, DataOf(s, ctx, tracked, declared, total), hasTotal);
    }
  }
}
