/** Scope of generated handlers: every name read is declared, every `=` has a target, every `:=` introduces something. */
module HandlerScope {
  import opened Text
  import opened SequenceDsl
  import opened GoBody
  import opened CallOrder
  import opened HandlerGen
  import opened VariableFlow
  import opened SourceRules
  import opened HandlerTracking
  import opened HandlerReads
  import opened PreambleScope

  // ----- scopes -----

  /** The scope between two sequences. */
  function ScopeOf(base: set<string>, declared: set<string>, used: set<string>, err: bool, total: bool): set<string> {
    base + declared * used + (if err then {"err"} else {}) + (if total then {"total"} else {})
  }

  /** Names in scope at function level before sequence `i`, apart from err and total. */
  function Visible(job: Job, i: nat): set<string>
    requires i <= |job.seqs|
  {
    BaseScope(job) + Bound(job.seqs[..i]) * UsedVars(job.seqs)
  }

  /** The names the code brings itself are none of the others. */
  predicate NamesFree(base: set<string>, declared: set<string>, counted: bool) {
    RESERVED !! base + declared && (counted ==> "total" !in base + declared)
  }

  predicate ResultFree(s: Sequence, base: set<string>, counted: bool) {
    s.result.Some? ==> s.result.value.name !in base + RESERVED && (counted ==> s.result.value.name != "total")
  }

  // ----- what a sequence reads is in scope -----

  /** What a sequence refers to is looked up by the flow check, or is a source. */
  lemma ReferredIsChecked(s: Sequence, x: string)
    requires WellShaped(s) && NonEmptyValues(s) && x in ReferredBy(s) && x !in {"request", "query", "currentUser"}
    requires forall k :: k in s.inputs ==> !IsConfig(s.inputs[k]) && !IsPublishedQuery(s, s.inputs[k])
    ensures x in Refs(s)
  {
    if s.target != "" && x in Reads(s.target) {
    } else if x in ReadsOf(s.fields) {
      var k :| k in s.fields && x in Reads(s.fields[k]);
      assert x in FieldRefs(s.fields[k]);
    } else {
      var k :| k in PassedKeys(s) && !IsSourceValue(s.inputs[k]) && x == RootVar(s.inputs[k]);
      assert x in InputRefs(s, s.inputs[k]);
    }
  }

  lemma ReferredIsUsed(s: Sequence)
    ensures ReferredBy(s) <= UsedBy(s)
  {
  }

  lemma CheckedVisible(job: Job, i: nat, x: string)
    requires FlowAccepted(job.seqs, job.subscribe) && i < |job.seqs| && x in Refs(job.seqs[i]) && x in UsedBy(job.seqs[i])
    requires x != "currentUser"
    ensures x in Visible(job, i)
  {
    AcceptedSequence(job.seqs, job.subscribe, i);
    UsedVarsContains(job.seqs, i);
  }

  /** So an earlier sequence or the handler declares it. */
  lemma ReferredVisible(job: Job, i: nat, x: string)
    requires AcceptedSource(job) && SourcesDeclared(job) && i < |job.seqs| && x in ReferredBy(job.seqs[i])
    ensures x in Visible(job, i)
  {
    if x in {"request", "query", "currentUser"} {
      assert x in SourcesNamed(job.seqs[i]);
    } else {
      AcceptedSequence(job.seqs, job.subscribe, i);
      assert WellShaped(job.seqs[i]) && NonEmptyValues(job.seqs[i]);
      ReferredIsChecked(job.seqs[i], x);
      ReferredIsUsed(job.seqs[i]);
      CheckedVisible(job, i, x);
    }
  }

  lemma RequestIsPlain(job: Job, i: nat)
    requires AcceptedSource(job) && i < |job.seqs|
    ensures RequestPlain(job.seqs[i], job.camel)
  {
    var s := job.seqs[i];
    assert job.subscribe ==> NoHttpSources(s);
    forall k | k in s.inputs && HasPrefix(s.inputs[k], "request.") ensures Plain(job.camel(s.inputs[k][8..])) {
      RequestFieldsContain(job.seqs, i);
      assert s.inputs[k][8..] in RequestFieldsOf(s);
    }
  }

  lemma PassedVisible(job: Job, i: nat, p: string)
    requires AcceptedSource(job) && i < |job.seqs| && p in RequestPassedBy(job.seqs[i])
    ensures job.camel(p) in Visible(job, i)
  {
    assert job.subscribe ==> NoHttpSources(job.seqs[i]);
    RequestFieldsContain(job.seqs, i);
    assert p in RequestFieldsOf(job.seqs[i]);
    ParamInScope(job, p);
  }

  lemma QueryVisible(job: Job, i: nat)
    requires AcceptedSource(job) && i < |job.seqs| && PassesQuery(job.seqs[i])
    ensures "opts" in Visible(job, i)
  {
    assert HasQuery(job.seqs[i].inputs);
    assert job.subscribe ==> NoHttpSources(job.seqs[i]);
    InputNamesElements(job);
  }

  lemma UserVisible(job: Job, i: nat)
    requires SourcesDeclared(job) && i < |job.seqs| && UsesCurrentUser(job.seqs[i])
    ensures "currentUser" in Visible(job, i)
  {
    assert "currentUser" in SourcesNamed(job.seqs[i]);
  }

  /** Everything the code of a sequence reads is declared before it, apart from err and total. */
  lemma SequenceInScope(job: Job, i: nat)
    requires AcceptedSource(job) && SourcesDeclared(job) && i < |job.seqs|
    ensures SequenceReads(job.seqs[i], CtxOf(job)) <= Visible(job, i)
  {
    var s := job.seqs[i];
    RequestIsPlain(job, i);
    assert WellShaped(s);
    forall x | x in SequenceReads(s, CtxOf(job)) ensures x in Visible(job, i) {
      ReadVisible(job, i, x);
    }
  }

  lemma ReadVisible(job: Job, i: nat, x: string)
    requires AcceptedSource(job) && SourcesDeclared(job) && i < |job.seqs|
    requires WellShaped(job.seqs[i]) && RequestPlain(job.seqs[i], job.camel) && x in SequenceReads(job.seqs[i], CtxOf(job))
    ensures x in Visible(job, i)
  {
    var s := job.seqs[i];
    if x !in Receivers(HasWrite(job.seqs)) {
      SequenceReadsExact(s, CtxOf(job), x);
      if x in ReferredBy(s) {
        ReferredVisible(job, i, x);
      } else if UsesCurrentUser(s) && x == "currentUser" {
        UserVisible(job, i);
      } else if PassesQuery(s) && x == "opts" {
        QueryVisible(job, i);
      } else {
        var p :| p in RequestPassedBy(s) && x == job.camel(p);
        PassedVisible(job, i, p);
      }
    }
  }

  // ----- one sequence: exactly when Go accepts its code -----

  lemma NamesOfErr()
    ensures Names(["err"]) == {"err"}
  {
    assert ["err"][0] == "err";
  }

  lemma NamesOfLeftSide(s: Sequence, d: TemplateData)
    requires s.result.Some? && s.result.value.name != "_"
    ensures Names(LeftSide(s, d)) ==
      (if d.unused then {} else {s.result.value.name}) + (if d.hasTotal && s.kind == Get then {"total"} else {}) + {"err"}
  {
    var names := LeftSide(s, d);
    assert names[0] == if d.unused then "_" else s.result.value.name;
    assert names[|names| - 1] == "err";
    if d.hasTotal && s.kind == Get { assert names[1] == "total"; }
  }

  /** `x, err := call` or `x, err = call`, and the check of err. */
  lemma LetStep(names: seq<string>, define: bool, call: GoBody.Call, exit: Exit, scope: set<string>)
    requires CallReads(call) <= scope && "err" in Names(names)
    ensures DeclareAll([Let(names, define, call), CheckErr(exit)], scope) ==
      if define != (Names(names) <= scope) then Some(scope + Names(names)) else None
  {
    DeclareTwo(Let(names, define, call), CheckErr(exit), scope);
    assert Names(names) <= scope ==> scope + Names(names) == scope;
  }

  lemma NamedResultStep(s: Sequence, ctx: Ctx, base: set<string>, declared: set<string>, inScope: bool, total: bool, names: set<string>)
    requires Named(s, ctx.used) && ResultFree(s, base, total || BindsTotal(s)) && NamesFree(base, declared, total || BindsTotal(s))
    requires declared != {} || total ==> inScope
    requires names == {s.result.value.name, "err"} + (if BindsTotal(s) then {"total"} else {})
    ensures
      var x, scope := s.result.value.name, ScopeOf(base, declared, ctx.used, inScope, total);
      && scope + names == ScopeOf(base, DeclaredAfter(s, declared), ctx.used, true, total || BindsTotal(s))
      && (names <= scope <==> x in declared && (BindsTotal(s) ==> total))
  {
    var x, scope := s.result.value.name, ScopeOf(base, declared, ctx.used, inScope, total);
    assert x in scope <==> x in declared;
  }

  lemma UnnamedResultStep(s: Sequence, ctx: Ctx, base: set<string>, declared: set<string>, inScope: bool, total: bool, names: set<string>)
    requires s.result.Some? && !Named(s, ctx.used) && NamesFree(base, declared, total || BindsTotal(s))
    requires names == {"err"} + (if BindsTotal(s) then {"total"} else {})
    ensures
      var scope := ScopeOf(base, declared, ctx.used, inScope, total);
      && scope + names == ScopeOf(base, DeclaredAfter(s, declared), ctx.used, true, total || BindsTotal(s))
      && (names <= scope <==> inScope && (BindsTotal(s) ==> total))
  {
    assert declared * ctx.used == DeclaredAfter(s, declared) * ctx.used;
  }

  /** The code of a sequence with a result. */
  lemma ResultStep(s: Sequence, ctx: Ctx, d: TemplateData, call: GoBody.Call, exit: Exit, base: set<string>, declared: set<string>,
                   inScope: bool, tracked: bool, total: bool, hasTotal: bool)
    requires ReturnsResult(s) && s.result.Some? && d == DataOf(s, ctx, tracked, declared, hasTotal)
    requires CallReads(call) <= base + declared * ctx.used
    requires NamesFree(base, declared, total || BindsTotal(s)) && ResultFree(s, base, total || BindsTotal(s))
    requires declared != {} || total ==> inScope && tracked
    ensures
      DeclareAll([Let(LeftSide(s, d), !d.reAssign, call), CheckErr(exit)], ScopeOf(base, declared, ctx.used, inScope, total)) ==
      if ErrTrackedAt(s, inScope, tracked, ctx.used) && TotalTrackedAt(s, declared, tracked, total, hasTotal, ctx.used)
      then Some(ScopeOf(base, DeclaredAfter(s, declared), ctx.used, true, total || BindsTotal(s))) else None
  {
    var names := Names(LeftSide(s, d));
    NamesOfLeftSide(s, d);
    LetStep(LeftSide(s, d), !d.reAssign, call, exit, ScopeOf(base, declared, ctx.used, inScope, total));
    if Named(s, ctx.used) {
      NamedResultStep(s, ctx, base, declared, inScope, total, names);
    } else {
      UnnamedResultStep(s, ctx, base, declared, inScope, total, names);
    }
  }

  /** `err := call` and `err = call`. */
  lemma ErrStep(define: bool, call: GoBody.Call, exit: Exit, base: set<string>, visible: set<string>, inScope: bool, total: bool)
    requires CallReads(call) <= base + visible && "err" !in base + visible
    ensures
      var totals := if total then {"total"} else {};
      DeclareAll([Let(["err"], define, call), CheckErr(exit)], base + visible + (if inScope then {"err"} else {}) + totals) ==
      if inScope != define then Some(base + visible + {"err"} + totals) else None
  {
    var totals := if total then {"total"} else {};
    var scope := base + visible + (if inScope then {"err"} else {}) + totals;
    NamesOfErr();
    LetStep(["err"], define, call, exit, scope);
    assert "err" in scope <==> inScope;
    assert scope + {"err"} == base + visible + {"err"} + totals;
  }

  /** `if _, err := call; err != nil` and `if _, err = call; err != nil`. */
  lemma InsideStep(s: Sequence, ctx: Ctx, d: TemplateData, base: set<string>, declared: set<string>,
                   inScope: bool, tracked: bool, total: bool, hasTotal: bool)
    requires (BindsErrInside(s) || s.kind == State) && d == DataOf(s, ctx, tracked, declared, hasTotal)
    requires SequenceReads(s, ctx) <= base + declared * ctx.used && "err" !in base + declared
    ensures
      var scope := ScopeOf(base, declared, ctx.used, inScope, total);
      DeclareAll(Emit(s, ctx, d), scope) == if inScope || s.kind == State || !tracked then Some(scope) else None
  {
    var scope := ScopeOf(base, declared, ctx.used, inScope, total);
    var stmt := IfCall(s.kind == State || d.firstErr, CallOf(s, ctx), ExitOf(s, ctx));
    assert Emit(s, ctx, d) == [stmt];
    DeclareOne(stmt, scope);
    assert "err" in scope <==> inScope;
  }

  /** Guards read their target; a response reads total when the generator believes in one. */
  lemma ReadStep(s: Sequence, ctx: Ctx, d: TemplateData, base: set<string>, declared: set<string>,
                 inScope: bool, tracked: bool, total: bool, hasTotal: bool)
    requires s.kind in {Empty, Exists, Response} && (s.kind != Response ==> s.target != "") && !(s.kind == Response && ctx.subscribe)
    requires d == DataOf(s, ctx, tracked, declared, hasTotal)
    requires SequenceReads(s, ctx) <= base + declared * ctx.used && (hasTotal ==> "total" !in base + declared)
    ensures
      var scope := ScopeOf(base, declared, ctx.used, inScope, total);
      DeclareAll(Emit(s, ctx, d), scope) == if ListsFields(s) && hasTotal ==> total then Some(scope) else None
  {
    var scope := ScopeOf(base, declared, ctx.used, inScope, total);
    var stmt := Emit(s, ctx, d)[0];
    assert Emit(s, ctx, d) == [stmt];
    DeclareOne(stmt, scope);
    assert hasTotal ==> ("total" in scope <==> total);
    assert ReadBy(stmt) == SequenceReads(s, ctx) + (if ListsFields(s) && hasTotal then {"total"} else {});
  }

  /** What Go makes of the code of one sequence. */
  lemma EmitStep(s: Sequence, ctx: Ctx, base: set<string>, declared: set<string>, inScope: bool, tracked: bool, total: bool,
                 hasTotal: bool, counted: bool)
    requires WellShaped(s) && Renders(s, ctx.subscribe)
    requires SequenceReads(s, ctx) <= base + declared * ctx.used
    requires NamesFree(base, declared, counted) && ResultFree(s, base, counted) && (total || hasTotal || HasTotal(s) ==> counted)
    requires declared != {} || total ==> inScope && tracked
    ensures
      DeclareAll(Emit(s, ctx, DataOf(s, ctx, tracked, declared, hasTotal)), ScopeOf(base, declared, ctx.used, inScope, total)) ==
      if ErrTrackedAt(s, inScope, tracked, ctx.used) && TotalTrackedAt(s, declared, tracked, total, hasTotal, ctx.used)
      then Some(ScopeOf(base, DeclaredAfter(s, declared), ctx.used, inScope || BindsErr(s), total || BindsTotal(s))) else None
  {
    var d := DataOf(s, ctx, tracked, declared, hasTotal);
    if ReturnsResult(s) {
      ResultStep(s, ctx, d, CallOf(s, ctx), ExitOf(s, ctx), base, declared, inScope, tracked, total, hasTotal);
    } else if s.kind in {Put, Delete, Publish} {
      ErrStep(d.firstErr, CallOf(s, ctx), ExitOf(s, ctx), base, declared * ctx.used, inScope, total);
      assert d.firstErr == !tracked;
    } else if s.kind in {Empty, Exists, Response} {
      ReadStep(s, ctx, d, base, declared, inScope, tracked, total, hasTotal);
    } else {
      InsideStep(s, ctx, d, base, declared, inScope, tracked, total, hasTotal);
    }
  }

  // ----- the whole body -----

  lemma ClosingScope(ctx: Ctx, committed: bool, scope: set<string>)
    requires ctx.useTx ==> "tx" in scope && "err" in scope
    ensures DeclareAll(Closing(ctx, committed), scope) == Some(scope)
  {
    var commit := if ctx.useTx && !committed then CommitCode(ctx.subscribe) else [];
    var done := if ctx.subscribe then [ReturnNil] else [];
    DeclareAllConcat(commit, done, scope);
    if commit != [] { DeclareOne(commit[0], scope); }
    if done != [] { DeclareOne(done[0], scope); }
  }

  lemma CommitScope(s: Sequence, ctx: Ctx, committed: bool, code: seq<Stmt>, scope: set<string>)
    requires ctx.useTx ==> "tx" in scope && "err" in scope
    ensures DeclareAll((if CommitsBefore(s, ctx, committed) then CommitCode(ctx.subscribe) else []) + code, scope)
      == DeclareAll(code, scope)
  {
    var commit := if CommitsBefore(s, ctx, committed) then CommitCode(ctx.subscribe) else [];
    DeclareAllConcat(commit, code, scope);
    if commit != [] { DeclareOne(commit[0], scope); }
  }

  /** What the code of a sequence and its names must satisfy for Go, apart from err and total. */
  ghost predicate Readable(s: Sequence, ctx: Ctx, base: set<string>, declared: set<string>, counted: bool) {
    && WellShaped(s) && Renders(s, ctx.subscribe)
    && SequenceReads(s, ctx) <= base + declared * ctx.used
    && NamesFree(base, declared, counted) && ResultFree(s, base, counted) && (HasTotal(s) ==> counted)
  }

  lemma NamesApart(job: Job, i: nat)
    requires DistinctVariables(job) && i <= |job.seqs|
    ensures NamesFree(BaseScope(job), Bound(job.seqs[..i]), Counted(job.seqs))
    ensures i < |job.seqs| ==> ResultFree(job.seqs[i], BaseScope(job), Counted(job.seqs))
  {
    BoundPrefix(job.seqs, i);
    assert RESERVED <= OwnNames(job.seqs) && (Counted(job.seqs) ==> "total" in OwnNames(job.seqs));
    assert HasWrite(job.seqs) ==> "tx" in OwnNames(job.seqs);
    assert RESERVED + {"total"} !! FuncParams(job.subscribe) + {"tx"};
    if i < |job.seqs| && job.seqs[i].result.Some? {
      assert job.seqs[i].result.value.name in Bound(job.seqs);
    }
  }

  /** One turn of CodeScope: the code of one sequence, then the code still to come. */
  lemma StepScope(s: Sequence, ctx: Ctx, scope: set<string>, tracked: bool, declared: set<string>, total: bool,
                  committed: bool, tail: seq<Stmt>)
    requires ctx.useTx ==> "tx" in scope && "err" in scope
    ensures DeclareAll(StepCode(s, ctx, tracked, declared, total, committed) + tail, scope) ==
      (match DeclareAll(Emit(s, ctx, DataOf(s, ctx, tracked, declared, total)), scope)
       case None => None
       case Some(mid) => DeclareAll(tail, mid))
  {
    var code := Emit(s, ctx, DataOf(s, ctx, tracked, declared, total));
    DeclareAllConcat(StepCode(s, ctx, tracked, declared, total, committed), tail, scope);
    CommitScope(s, ctx, committed, code, scope);
  }

  lemma CodeTurn(seqs: seq<Sequence>, ctx: Ctx, base: set<string>, declared: set<string>,
                 inScope: bool, tracked: bool, total: bool, hasTotal: bool, committed: bool, counted: bool)
    requires seqs != [] && Readable(seqs[0], ctx, base, declared, counted) && (total || hasTotal ==> counted)
    requires declared != {} || total || ctx.useTx ==> inScope && tracked
    requires ctx.useTx ==> "tx" in base
    ensures
      var s, hasTotal' := seqs[0], hasTotal || HasTotal(seqs[0]);
      DeclareAll(CodeFrom(seqs, ctx, tracked, declared, hasTotal, committed), ScopeOf(base, declared, ctx.used, inScope, total)) ==
      if ErrTrackedAt(s, inScope, tracked, ctx.used) && TotalTrackedAt(s, declared, tracked, total, hasTotal', ctx.used)
      then DeclareAll(CodeFrom(seqs[1..], ctx, tracked || TouchesErr(s), DeclaredAfter(s, declared), hasTotal',
                               committed || CommitsBefore(s, ctx, committed)),
                      ScopeOf(base, DeclaredAfter(s, declared), ctx.used, inScope || BindsErr(s), total || BindsTotal(s)))
      else None
  {
    var s, hasTotal' := seqs[0], hasTotal || HasTotal(seqs[0]);
    var tail := CodeFrom(seqs[1..], ctx, tracked || TouchesErr(s), DeclaredAfter(s, declared), hasTotal',
                         committed || CommitsBefore(s, ctx, committed));
    StepScope(s, ctx, ScopeOf(base, declared, ctx.used, inScope, total), tracked, declared, hasTotal', committed, tail);
    EmitStep(s, ctx, base, declared, inScope, tracked, total, hasTotal', counted);
  }

  /** The scope the code of the sequences leaves, or None when err or total is not tracked right. */
  function ScopeAfter(seqs: seq<Sequence>, base: set<string>, declared: set<string>, inScope: bool, tracked: bool, total: bool,
                      hasTotal: bool, used: set<string>): Option<set<string>>
  {
    if ErrTracked(seqs, inScope, tracked, used) && TotalTracked(seqs, declared, tracked, total, hasTotal, used)
    then Some(ScopeOf(base, declared + Bound(seqs), used, inScope || FirstBinding(seqs) < |seqs|, total || FirstTotal(seqs) < |seqs|))
    else None
  }

  lemma FinalNamesTurn(seqs: seq<Sequence>, base: set<string>, declared: set<string>, inScope: bool, total: bool, used: set<string>)
    requires seqs != []
    ensures
      var s, rest := seqs[0], seqs[1..];
      ScopeOf(base, declared + Bound(seqs), used, inScope || FirstBinding(seqs) < |seqs|, total || FirstTotal(seqs) < |seqs|) ==
      ScopeOf(base, DeclaredAfter(s, declared) + Bound(rest), used, inScope || BindsErr(s) || FirstBinding(rest) < |rest|,
              total || BindsTotal(s) || FirstTotal(rest) < |rest|)
  {
    BoundFirst(seqs);
    assert DeclaredAfter(seqs[0], declared) + Bound(seqs[1..]) == declared + Bound(seqs);
  }

  lemma ScopeAfterTurn(seqs: seq<Sequence>, base: set<string>, declared: set<string>, inScope: bool, tracked: bool, total: bool,
                       hasTotal: bool, used: set<string>)
    requires seqs != []
    ensures
      var s := seqs[0];
      ScopeAfter(seqs, base, declared, inScope, tracked, total, hasTotal, used) ==
      if ErrTrackedAt(s, inScope, tracked, used) && TotalTrackedAt(s, declared, tracked, total, hasTotal || HasTotal(s), used)
      then ScopeAfter(seqs[1..], base, DeclaredAfter(s, declared), inScope || BindsErr(s), tracked || TouchesErr(s),
                      total || BindsTotal(s), hasTotal || HasTotal(s), used)
      else None
  {
    ErrTrackedTurn(seqs, inScope, tracked, used);
    FinalNamesTurn(seqs, base, declared, inScope, total, used);
  }

  ghost predicate AllReadable(seqs: seq<Sequence>, ctx: Ctx, base: set<string>, declared: set<string>, counted: bool) {
    seqs == [] ||
      (Readable(seqs[0], ctx, base, declared, counted) && AllReadable(seqs[1..], ctx, base, DeclaredAfter(seqs[0], declared), counted))
  }

  /** What Go makes of the code of the sequences, and the scope it leaves. */
  lemma {:induction false} CodeScope(seqs: seq<Sequence>, ctx: Ctx, base: set<string>, declared: set<string>,
                                     inScope: bool, tracked: bool, total: bool, hasTotal: bool, committed: bool, counted: bool)
    requires AllReadable(seqs, ctx, base, declared, counted) && (total || hasTotal ==> counted)
    requires declared != {} || total || ctx.useTx ==> inScope && tracked
    requires ctx.useTx ==> "tx" in base
    ensures DeclareAll(CodeFrom(seqs, ctx, tracked, declared, hasTotal, committed), ScopeOf(base, declared, ctx.used, inScope, total))
      == ScopeAfter(seqs, base, declared, inScope, tracked, total, hasTotal, ctx.used)
  {
    if seqs == [] {
      assert declared + Bound(seqs) == declared;
      ClosingScope(ctx, committed, ScopeOf(base, declared, ctx.used, inScope, total));
    } else {
      var s := seqs[0];
      CodeTurn(seqs, ctx, base, declared, inScope, tracked, total, hasTotal, committed, counted);
      ScopeAfterTurn(seqs, base, declared, inScope, tracked, total, hasTotal, ctx.used);
      if ErrTrackedAt(s, inScope, tracked, ctx.used) {
        CodeScope(seqs[1..], ctx, base, DeclaredAfter(s, declared), inScope || BindsErr(s), tracked || TouchesErr(s),
                  total || BindsTotal(s), hasTotal || HasTotal(s), committed || CommitsBefore(s, ctx, committed), counted);
      }
    }
  }

  // ----- main result -----

  lemma ReadableNext(seqs: seq<Sequence>, s: Sequence, rest: seq<Sequence>, ctx: Ctx, base: set<string>, declared: set<string>,
                     next: set<string>, counted: bool)
    requires seqs == [s] + rest && Readable(s, ctx, base, declared, counted)
    requires next == DeclaredAfter(s, declared) && AllReadable(rest, ctx, base, next, counted)
    ensures AllReadable(seqs, ctx, base, declared, counted)
  {
    assert seqs[1..] == rest;
  }

  lemma ReadableTurn(seqs: seq<Sequence>, i: nat, ctx: Ctx, base: set<string>, counted: bool)
    requires i < |seqs| && Readable(seqs[i], ctx, base, Bound(seqs[..i]), counted)
    requires AllReadable(seqs[i + 1..], ctx, base, Bound(seqs[..i + 1]), counted)
    ensures AllReadable(seqs[i..], ctx, base, Bound(seqs[..i]), counted)
  {
    BoundAppend(seqs, i);
    ReadableNext(seqs[i..], seqs[i], seqs[i + 1..], ctx, base, Bound(seqs[..i]), Bound(seqs[..i + 1]), counted);
  }

  ghost predicate ReadableAt(job: Job, i: nat)
    requires i < |job.seqs|
  {
    Readable(job.seqs[i], CtxOf(job), BaseScope(job), Bound(job.seqs[..i]), Counted(job.seqs))
  }

  lemma {:induction false} AllReadableFrom(job: Job, i: nat)
    requires i <= |job.seqs| && forall j {:trigger ReadableAt(job, j)} :: i <= j < |job.seqs| ==> ReadableAt(job, j)
    ensures AllReadable(job.seqs[i..], CtxOf(job), BaseScope(job), Bound(job.seqs[..i]), Counted(job.seqs))
    decreases |job.seqs| - i
  {
    if i < |job.seqs| {
      AllReadableFrom(job, i + 1);
      assert ReadableAt(job, i);
      ReadableTurn(job.seqs, i, CtxOf(job), BaseScope(job), Counted(job.seqs));
    }
  }

  lemma SequenceReadable(job: Job, i: nat)
    requires AcceptedSource(job) && SourcesDeclared(job) && i < |job.seqs|
    ensures ReadableAt(job, i)
  {
    NamesApart(job, i);
    SequenceInScope(job, i);
    assert WellShaped(job.seqs[i]) && Renders(job.seqs[i], job.subscribe);
    assert HasTotal(job.seqs[i]) ==> Counted(job.seqs);
  }

  lemma SourceReadable(job: Job)
    requires AcceptedSource(job) && SourcesDeclared(job)
    ensures AllReadable(job.seqs, CtxOf(job), BaseScope(job), {}, Counted(job.seqs))
  {
    assert job.seqs[0..] == job.seqs && Bound(job.seqs[..0]) == {};
    forall i | 0 <= i < |job.seqs| ensures ReadableAt(job, i) { SequenceReadable(job, i); }
    AllReadableFrom(job, 0);
  }

  /** The scope at the end of an accepted body. */
  function FinalScope(job: Job): set<string> {
    ScopeOf(BaseScope(job), Bound(job.seqs), UsedVars(job.seqs),
            ErrInScopeAtStart(job) || FirstBinding(job.seqs) < |job.seqs|, FirstTotal(job.seqs) < |job.seqs|)
  }

  lemma ScopeAfterAll(seqs: seq<Sequence>, base: set<string>, inScope: bool, tracked: bool, used: set<string>)
    ensures ScopeAfter(seqs, base, {}, inScope, tracked, false, false, used) ==
      if ErrDiscipline(seqs, inScope, tracked, used) && TotalDiscipline(seqs, tracked, used)
      then Some(ScopeOf(base, Bound(seqs), used, inScope || FirstBinding(seqs) < |seqs|, FirstTotal(seqs) < |seqs|)) else None
  {
    assert {} + Bound(seqs) == Bound(seqs);
    ErrDisciplineExact(seqs, inScope, tracked, used);
    TotalDisciplineExact(seqs, {}, tracked, false, used);
  }

  lemma SequencesScope(job: Job)
    requires AllReadable(job.seqs, CtxOf(job), BaseScope(job), {}, Counted(job.seqs))
    ensures DeclareAll(CodeFrom(job.seqs, CtxOf(job), ErrDeclaredAtStart(job), {}, false, false),
                       WithErr(BaseScope(job), ErrInScopeAtStart(job)))
            == if Disciplined(job) then Some(FinalScope(job)) else None
  {
    var inScope, tracked := ErrInScopeAtStart(job), ErrDeclaredAtStart(job);
    assert ScopeOf(BaseScope(job), {}, CtxOf(job).used, inScope, false) == WithErr(BaseScope(job), inScope);
    CodeScope(job.seqs, CtxOf(job), BaseScope(job), {}, inScope, tracked, false, false, false, Counted(job.seqs));
    ScopeAfterAll(job.seqs, BaseScope(job), inScope, tracked, UsedVars(job.seqs));
  }

  /** What Go's scoping makes of a whole generated body. */
  lemma BodyScope(job: Job)
    requires AcceptedSource(job) && SourcesDeclared(job)
    ensures DeclareAll(HandlerBody(job), FuncParams(job.subscribe)) == if Disciplined(job) then Some(FinalScope(job)) else None
  {
    var start := InputCodeBefore(job) + (if HasWrite(job.seqs) then BeginCode(job.subscribe) else []);
    var code := CodeFrom(job.seqs, CtxOf(job), ErrDeclaredAtStart(job), {}, false, false);
    StartScope(job);
    Chain(start, code, FuncParams(job.subscribe), WithErr(BaseScope(job), ErrInScopeAtStart(job)));
    SourceReadable(job);
    SequencesScope(job);
  }
}
