/** A handler that names a source it has no variable for is rejected by Go, although the flow check accepts it;
    with every source declared, exactly when Go accepts the scoping. */
module HandlerSources {
  import opened Text
  import opened SequenceDsl
  import opened GoBody
  import opened CallOrder
  import opened HandlerGen
  import opened VariableFlow
  import opened SourceRules
  import opened HandlerTracking
  import opened HandlerReads
  import opened PreambleScope
  import opened HandlerScope

  // ----- a name nobody declares -----

  function DeclaredBy(s: Stmt): set<string> {
    match s
    case Let(names, define, _) => if define then Names(names) else {}
    case VarDecl(name) => {name}
    case Init(name, _) => {name}
    case _ => {}
  }

  ghost predicate NeverDeclares(code: seq<Stmt>, x: string) {
    forall i :: 0 <= i < |code| ==> x !in DeclaredBy(code[i])
  }

  lemma OneStatement(s: Stmt, scope: set<string>, x: string)
    requires x !in scope && x !in DeclaredBy(s)
    ensures x in ReadBy(s) ==> Declare(s, scope) == None
    ensures Declare(s, scope).Some? ==> x !in Declare(s, scope).value
  {
  }

  /** Go rejects code that reads a name it never declares. */
  lemma {:induction false} UndeclaredIsRejected(code: seq<Stmt>, scope: set<string>, x: string)
    requires x !in scope && NeverDeclares(code, x) && x in ReadsIn(code)
    ensures !Scoped(code, scope)
  {
    OneStatement(code[0], scope, x);
    var next := Declare(code[0], scope);
    if x !in ReadBy(code[0]) && next.Some? {
      UndeclaredIsRejected(code[1..], next.value, x);
    }
  }

  lemma NeverConcat(a: seq<Stmt>, b: seq<Stmt>, x: string)
    ensures NeverDeclares(a + b, x) <==> NeverDeclares(a, x) && NeverDeclares(b, x)
  {
    assert forall i :: 0 <= i < |a| ==> (a + b)[i] == a[i];
    assert forall i :: 0 <= i < |b| ==> (a + b)[|a| + i] == b[i];
  }

  // ----- what the generated body declares -----

  lemma {:induction false} PathCodeDeclares(params: seq<Param>, camel: string -> string, x: string)
    requires x !in Elements(PathNames(params, camel)) && x != "err"
    ensures NeverDeclares(PathCode(params, camel), x)
  {
    if params != [] {
      var p := params[0];
      PathNamesSplit(params, camel);
      PathCodeDeclares(params[1..], camel, x);
      PathParamDeclares(p, camel, x);
      NeverConcat(PathParamCode(p, camel), PathCode(params[1..], camel), x);
    }
  }

  lemma PathParamDeclares(p: Param, camel: string -> string, x: string)
    requires x != "err" && x !in NameOf(p, camel)
    ensures NeverDeclares(PathParamCode(p, camel), x)
  {
  }

  lemma {:induction false} RawCodeDeclares(params: seq<Param>, camel: string -> string, x: string)
    requires x !in Elements(RawNames(params, camel)) && x != "err"
    ensures NeverDeclares(QueryCode(params, camel), x) && NeverDeclares(BodyFieldCode(params, camel), x)
  {
    if params != [] {
      var p := params[0];
      RawNamesSplit(params, camel);
      RawCodeDeclares(params[1..], camel, x);
      NeverConcat(QueryParamCode(p, camel), QueryCode(params[1..], camel), x);
      NeverConcat([Init(camel(p.name), BodyField(p.name))], BodyFieldCode(params[1..], camel), x);
    }
  }

  lemma RequestCodeDeclares(job: Job, x: string)
    requires x !in Elements(RawNames(job.raw, job.camel)) && x != "err" && (UsesJsonBody(job) ==> x != "req")
    ensures NeverDeclares(RequestCode(job), x)
  {
    RawCodeDeclares(job.raw, job.camel, x);
    if UsesJsonBody(job) {
      NeverConcat([VarDecl("req"), IfCall(true, BindBodyOp, BAD_REQUEST)], BodyFieldCode(job.raw, job.camel), x);
    }
  }

  lemma NeverFour(a: seq<Stmt>, b: seq<Stmt>, c: seq<Stmt>, d: seq<Stmt>, x: string)
    requires NeverDeclares(a, x) && NeverDeclares(b, x) && NeverDeclares(c, x) && NeverDeclares(d, x)
    ensures NeverDeclares(a + b + c + d, x)
  {
    NeverConcat(a, b, x);
    NeverConcat(a + b, c, x);
    NeverConcat(a + b + c, d, x);
  }

  lemma OptionalDeclares(job: Job, x: string)
    requires NeedsCurrentUser(job.seqs) ==> x != "currentUser"
    requires NeedsQueryOpts(job.seqs) ==> x != "opts"
    ensures NeverDeclares(UserCode(job), x) && NeverDeclares(OptsCode(job), x)
  {
  }

  lemma InputCodeDeclares(job: Job, x: string)
    requires x !in Elements(InputNames(job)) && x != "err"
    ensures NeverDeclares(InputCodeBefore(job), x)
  {
    if !job.subscribe {
      InputNamesElements(job);
      PathCodeDeclares(job.symbols.pathParams, job.camel, x);
      RequestCodeDeclares(job, x);
      OptionalDeclares(job, x);
      NeverFour(PathCode(job.symbols.pathParams, job.camel), UserCode(job), RequestCode(job), OptsCode(job), x);
    }
  }

  predicate IsOwn(x: string) {
    x in {"err", "tx", "total", "_"}
  }

  lemma LetDeclares(names: seq<string>, define: bool, call: GoBody.Call, exit: Exit, x: string)
    requires x !in Names(names)
    ensures NeverDeclares([Let(names, define, call), CheckErr(exit)], x)
  {
  }

  lemma OneDeclares(s: Stmt, x: string)
    requires s.IfCall? || s.IfHolds? || s.Respond?
    ensures NeverDeclares([s], x)
  {
  }

  lemma EmitDeclares(s: Sequence, ctx: Ctx, d: TemplateData, x: string)
    requires x !in Names(LeftSide(s, d)) && x !in Names(["err"])
    ensures NeverDeclares(Emit(s, ctx, d), x)
  {
    var code := Emit(s, ctx, d);
    if |code| == 2 {
      assert code[0].Let? && code[0].names in {LeftSide(s, d), ["err"]} && code[1].CheckErr?;
      assert code == [code[0], code[1]];
      LetDeclares(code[0].names, code[0].define, code[0].call, code[1].exit, x);
    } else {
      assert code == [code[0]];
      OneDeclares(code[0], x);
    }
  }

  lemma StepDeclares(s: Sequence, ctx: Ctx, errDeclared: bool, declared: set<string>, total: bool, committed: bool, x: string)
    requires !IsOwn(x) && x != "" && (s.result.Some? ==> s.result.value.name != x)
    ensures NeverDeclares(StepCode(s, ctx, errDeclared, declared, total, committed), x)
  {
    var d := DataOf(s, ctx, errDeclared, declared, total);
    LeftSideDeclares(s, d, x);
    EmitDeclares(s, ctx, d, x);
    NeverConcat(if CommitsBefore(s, ctx, committed) then CommitCode(ctx.subscribe) else [], Emit(s, ctx, d), x);
  }

  lemma LeftSideDeclares(s: Sequence, d: TemplateData, x: string)
    requires !IsOwn(x) && x != "" && (s.result.Some? ==> s.result.value.name != x)
    ensures x !in Names(LeftSide(s, d)) && x !in Names(["err"])
  {
  }

  lemma {:induction false} CodeDeclares(seqs: seq<Sequence>, ctx: Ctx, errDeclared: bool, declared: set<string>, total: bool,
                                        committed: bool, x: string)
    requires !IsOwn(x) && x != "" && x !in Bound(seqs)
    ensures NeverDeclares(CodeFrom(seqs, ctx, errDeclared, declared, total, committed), x)
    decreases |seqs|
  {
    if seqs != [] {
      var s := seqs[0];
      var total' := total || HasTotal(s);
      BoundFirst(seqs);
      StepDeclares(s, ctx, errDeclared, declared, total', committed, x);
      CodeDeclares(seqs[1..], ctx, errDeclared || TouchesErr(s), DeclaredAfter(s, declared), total',
                   committed || CommitsBefore(s, ctx, committed), x);
      NeverConcat(StepCode(s, ctx, errDeclared, declared, total', committed),
                  CodeFrom(seqs[1..], ctx, errDeclared || TouchesErr(s), DeclaredAfter(s, declared), total',
                           committed || CommitsBefore(s, ctx, committed)), x);
    }
  }

  // ----- what the generated body reads -----

  lemma RootFirst(code: Code)
    requires RootVar(code) != ""
    ensures code != "" && RootVar(code)[0] == code[0]
  {
  }

  lemma NotLiteral(code: Code)
    requires RootVar(code) == "currentUser"
    ensures Reads(code) == {"currentUser"}
  {
    RootFirst(code);
    assert code[0] == 'c';
  }

  /** Showing currentUser reads it. */
  lemma ShowingReads(s: Sequence, ctx: Ctx)
    requires WellShaped(s) && ShowsCurrentUser(s)
    ensures "currentUser" in SequenceReads(s, ctx)
  {
    if s.target != "" {
      assert s.fields == map[];
      NotLiteral(s.target);
    } else {
      var k :| k in s.fields && RootVar(s.fields[k]) == "currentUser";
      NotLiteral(s.fields[k]);
      assert "currentUser" in ReadsOf(s.fields);
    }
  }

  lemma ModelUserRead(s: Sequence, ctx: Ctx, k: string)
    requires k in s.inputs && HasPrefix(s.inputs[k], "currentUser.")
    ensures "currentUser" in CallReads(ModelOpOf(s, ctx))
  {
    var order := OrderOf(s, ctx.symbols);
    assert s.inputs[k] != "query" by { assert s.inputs[k][0] == 'c'; }
    CallKeysAreInputs(s.inputs, order);
    KeysPassed(s.inputs, order);
    UserText(s.inputs[k], ctx.camel);
    var keys := CallKeys(s.inputs, order);
    var i :| 0 <= i < |keys| && keys[i] == k;
    ArgRead(keys, s.inputs, ctx.camel, i);
  }

  /** Using currentUser, in an input or by @auth, reads it. */
  lemma UsingReads(s: Sequence, ctx: Ctx)
    requires WellShaped(s) && UsesCurrentUser(s)
    ensures "currentUser" in SequenceReads(s, ctx)
  {
    if s.kind == Auth {
      var fields := AuthFields(s.inputs, ctx.camel);
      CallReadsNamed(s, ctx);
      UserRead("Role");
      assert "Role" in fields && "currentUser" in Reads(fields["Role"]);
    } else {
      var k :| k in s.inputs && HasPrefix(s.inputs[k], "currentUser.");
      assert s.inputs != map[];
      if s.kind in {Get, Post, Put, Delete} {
        ModelUserRead(s, ctx, k);
      } else {
        var fields := InputFields(s.inputs, ctx.camel);
        CallReadsNamed(s, ctx);
        UserText(s.inputs[k], ctx.camel);
        assert k in fields && "currentUser" in Reads(fields[k]);
      }
    }
  }

  // ----- main result -----

  /** A handler that Go accepts fetches currentUser wherever it uses or shows it, unless a parameter or a result
      happens to carry that name: an HTTP handler shows it in a guard or a response only beside an @auth or an
      input that uses it, and a subscriber never does either. */
  lemma UserMustBeFetched(job: Job)
    requires AllShaped(job.seqs, job.subscribe)
    requires "currentUser" !in Bound(job.seqs)
    requires !NeedsCurrentUser(job.seqs) ==> "currentUser" !in Elements(InputNames(job))
    requires Scoped(HandlerBody(job), FuncParams(job.subscribe))
    ensures CurrentUserFetched(job)
  {
    if i :| 0 <= i < |job.seqs| && ShowsCurrentUser(job.seqs[i]) && (job.subscribe || !NeedsCurrentUser(job.seqs)) {
      ShowingReads(job.seqs[i], CtxOf(job));
      ReadsUnfetched(job, i);
    }
    if i :| 0 <= i < |job.seqs| && UsesCurrentUser(job.seqs[i]) && job.subscribe {
      UsingReads(job.seqs[i], CtxOf(job));
      ReadsUnfetched(job, i);
    }
  }

  lemma SequenceCodeReads(seqs: seq<Sequence>, i: nat, ctx: Ctx, tracked: bool, x: string)
    requires i < |seqs| && x in SequenceReads(seqs[i], ctx) && x !in {"tx", "err"} && AllShaped(seqs, ctx.subscribe)
    ensures x in ReadsIn(CodeFrom(seqs, ctx, tracked, {}, false, false))
  {
    AllReadsContain(seqs, ctx, i);
    CodeReads(seqs, ctx, tracked, {}, false, false);
    assert x in AllReads(seqs, ctx) + OptionalTotal(TotalShown(seqs, false)) - CodeOwn(ctx.useTx);
  }

  lemma UndeclaredLast(a: seq<Stmt>, b: seq<Stmt>, c: seq<Stmt>, scope: set<string>, x: string)
    requires x !in scope && NeverDeclares(a, x) && NeverDeclares(b, x) && NeverDeclares(c, x) && x in ReadsIn(c)
    ensures !Scoped(a + b + c, scope)
  {
    NeverConcat(a, b, x);
    NeverConcat(a + b, c, x);
    ReadsInConcat(a + b, c);
    UndeclaredIsRejected(a + b + c, scope, x);
  }

  lemma ReadsUndeclared(job: Job, i: nat, x: string)
    requires i < |job.seqs| && x in SequenceReads(job.seqs[i], CtxOf(job)) && AllShaped(job.seqs, job.subscribe)
    requires x !in Bound(job.seqs) && x !in Elements(InputNames(job)) + FuncParams(job.subscribe) && !IsOwn(x) && x != ""
    ensures !Scoped(HandlerBody(job), FuncParams(job.subscribe))
  {
    var begin := if HasWrite(job.seqs) then BeginCode(job.subscribe) else [];
    InputCodeDeclares(job, x);
    CodeDeclares(job.seqs, CtxOf(job), ErrDeclaredAtStart(job), {}, false, false, x);
    BeginDeclares(job.subscribe, x);
    SequenceCodeReads(job.seqs, i, CtxOf(job), ErrDeclaredAtStart(job), x);
    UndeclaredLast(InputCodeBefore(job), begin, CodeFrom(job.seqs, CtxOf(job), ErrDeclaredAtStart(job), {}, false, false),
                   FuncParams(job.subscribe), x);
  }

  lemma ReadsUnfetched(job: Job, i: nat)
    requires i < |job.seqs| && "currentUser" in SequenceReads(job.seqs[i], CtxOf(job))
    requires AllShaped(job.seqs, job.subscribe)
    requires "currentUser" !in Bound(job.seqs) && "currentUser" !in Elements(InputNames(job))
    ensures !Scoped(HandlerBody(job), FuncParams(job.subscribe))
  {
    assert "currentUser"[0] == 'c' && |"currentUser"| == 11;
    ReadsUndeclared(job, i, "currentUser");
  }

  lemma BeginDeclares(subscribe: bool, x: string)
    requires x != "tx" && x != "err"
    ensures NeverDeclares(BeginCode(subscribe), x) && NeverDeclares([], x)
  {
  }

  // ----- every source -----

  lemma SourceNameApart(x: string, subscribe: bool)
    requires x in {"request", "query", "currentUser"}
    ensures x !in FuncParams(subscribe) + {"err", "tx", "total", "_", ""}
  {
    assert |x| >= 5;
    assert x[0] in {'r', 'q', 'c'} && (x[0] == 'c' ==> |x| == 11);
  }

  lemma NamedIsRead(s: Sequence, ctx: Ctx, x: string)
    requires WellShaped(s) && RequestPlain(s, ctx.camel) && x in SourcesNamed(s)
    ensures x in SequenceReads(s, ctx)
  {
    SourceNameApart(x, false);
    SequenceReadsExact(s, ctx, x);
  }

  lemma SourceIsRead(job: Job, i: nat, x: string)
    requires AcceptedSource(job) && i < |job.seqs| && x in SourcesNamed(job.seqs[i])
    ensures x in SequenceReads(job.seqs[i], CtxOf(job))
  {
    RequestIsPlain(job, i);
    AcceptedShaped(job);
    NamedIsRead(job.seqs[i], CtxOf(job), x);
  }

  lemma AcceptedShaped(job: Job)
    requires AcceptedSource(job)
    ensures AllShaped(job.seqs, job.subscribe)
  {
    forall i | 0 <= i < |job.seqs| ensures WellShaped(job.seqs[i]) && !(job.subscribe && job.seqs[i].kind == Response) {
      assert Renders(job.seqs[i], job.subscribe);
    }
  }

  lemma SourceUndeclared(job: Job, i: nat, x: string)
    requires NoReservedResult(job.seqs) && AllShaped(job.seqs, job.subscribe) && i < |job.seqs| && x in SequenceReads(job.seqs[i], CtxOf(job))
    requires x in {"request", "query", "currentUser"} && x !in FuncParams(job.subscribe) + {"err", "tx", "total", "_", ""}
    requires x !in Elements(InputNames(job))
    ensures !Scoped(HandlerBody(job), FuncParams(job.subscribe))
  {
    ReadsUndeclared(job, i, x);
  }

  /** Naming a source that the handler has no variable for, a bare `request`, `query.X` or a current user that is
      not fetched, is always rejected. */
  lemma UndeclaredSourceRejected(job: Job, i: nat, x: string)
    requires AcceptedSource(job) && i < |job.seqs| && x in SourcesNamed(job.seqs[i]) && x !in Elements(InputNames(job))
    ensures !Scoped(HandlerBody(job), FuncParams(job.subscribe))
  {
    SourceIsRead(job, i, x);
    AcceptedShaped(job);
    SourceNameApart(x, job.subscribe);
    SourceUndeclared(job, i, x);
  }

  /** Go accepts the scoping of a generated handler exactly when it has a variable for every source it names, and
      err and total are tracked right. */
  lemma ScopeExact(job: Job)
    requires AcceptedSource(job)
    ensures Scoped(HandlerBody(job), FuncParams(job.subscribe)) <==> SourcesDeclared(job) && Disciplined(job)
  {
    if SourcesDeclared(job) {
      BodyScope(job);
    } else {
      var i :| 0 <= i < |job.seqs| && !(SourcesNamed(job.seqs[i]) <= Elements(InputNames(job)));
      var x :| x in SourcesNamed(job.seqs[i]) && x !in Elements(InputNames(job));
      UndeclaredSourceRejected(job, i, x);
    }
  }

  // ----- documented values -----

  lemma DocumentedReference(s: Sequence, x: string)
    requires WellShaped(s) && NonEmptyValues(s) && DocumentedValues(s) && x in ReferredBy(s) && x in {"request", "query", "currentUser"}
    ensures x in Refs(s) && (x == "currentUser" ==> ShowsCurrentUser(s))
  {
    NoInputNames(s, x);
    if s.target == "" || x !in Reads(s.target) {
      var k :| k in s.fields && x in Reads(s.fields[k]);
      assert x in FieldRefs(s.fields[k]);
    }
  }

  /** A documented input that is no source value names no source. */
  lemma NoInputNames(s: Sequence, x: string)
    requires DocumentedValues(s) && x in {"request", "query", "currentUser"}
    ensures forall k :: k in s.inputs && !IsSourceValue(s.inputs[k]) ==> x != RootVar(s.inputs[k])
  {
    forall k | k in s.inputs && !IsSourceValue(s.inputs[k]) ensures x != RootVar(s.inputs[k]) {
      assert DocumentedValue(s.inputs[k]);
    }
  }

  /** With documented values, and the current user fetched where it is shown, every source is declared. */
  lemma SoundIsDeclared(job: Job)
    requires SoundSource(job)
    ensures SourcesDeclared(job)
  {
    forall i, x | 0 <= i < |job.seqs| && x in SourcesNamed(job.seqs[i]) ensures x in Elements(InputNames(job)) {
      SourceOfSound(job, i, x);
    }
  }

  lemma SourceOfSound(job: Job, i: nat, x: string)
    requires SoundSource(job) && i < |job.seqs| && x in SourcesNamed(job.seqs[i])
    ensures x in Elements(InputNames(job))
  {
    var s := job.seqs[i];
    assert WellShaped(s) && NonEmptyValues(s) && DocumentedValues(s);
    OnlyUserNamed(job, i, x);
    UserDeclared(job, i);
  }

  lemma OnlyUserNamed(job: Job, i: nat, x: string)
    requires FlowAccepted(job.seqs, job.subscribe) && NoReservedResult(job.seqs) && i < |job.seqs| && x in SourcesNamed(job.seqs[i])
    requires WellShaped(job.seqs[i]) && NonEmptyValues(job.seqs[i]) && DocumentedValues(job.seqs[i])
    ensures x == "currentUser" && (UsesCurrentUser(job.seqs[i]) || ShowsCurrentUser(job.seqs[i]))
  {
    if x in ReferredBy(job.seqs[i]) {
      DocumentedReference(job.seqs[i], x);
      NotBound(job, i, x);
    }
  }

  lemma NotBound(job: Job, i: nat, x: string)
    requires FlowAccepted(job.seqs, job.subscribe) && NoReservedResult(job.seqs) && i < |job.seqs|
    requires x in Refs(job.seqs[i]) && x in {"request", "query", "currentUser"}
    ensures x == "currentUser"
  {
    AcceptedSequence(job.seqs, job.subscribe, i);
    BoundPrefix(job.seqs, i);
    SourceNameApart(x, true);
  }

  lemma UserDeclared(job: Job, i: nat)
    requires CurrentUserFetched(job) && i < |job.seqs| && (UsesCurrentUser(job.seqs[i]) || ShowsCurrentUser(job.seqs[i]))
    ensures "currentUser" in Elements(InputNames(job))
  {
    assert UsesCurrentUser(job.seqs[i]) ==> NeedsCurrentUser(job.seqs);
    InputNamesElements(job);
  }
}
