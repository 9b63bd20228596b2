/** Exactly when Go accepts a generated handler: its scoping, and no variable "declared and not used". */
module HandlerCompiles {
  import opened Text
  import opened SequenceDsl
  import opened GoBody
  import opened CallOrder
  import opened HandlerGen
  import opened VariableFlow
  import opened SourceRules
  import opened HandlerTracking
  import opened HandlerReads
  import opened PreambleScope
  import opened HandlerScope
  import opened HandlerSources

  // ----- the condition on the sequences -----

  predicate IsReferred(seqs: seq<Sequence>, x: string) {
    exists j :: 0 <= j < |seqs| && x in ReferredBy(seqs[j])
  }

  predicate IsPassed(seqs: seq<Sequence>, p: string) {
    exists j :: 0 <= j < |seqs| && p in RequestPassedBy(seqs[j])
  }

  predicate QueryPassed(seqs: seq<Sequence>) {
    exists j :: 0 <= j < |seqs| && PassesQuery(seqs[j])
  }

  /** The parameter is passed on as `request.X`, or its variable is named outright. */
  predicate ParamUsed(job: Job, p: string) {
    IsPassed(job.seqs, p) || IsReferred(job.seqs, job.camel(p))
  }

  predicate ParamsUsed(job: Job, params: seq<Param>) {
    forall i :: 0 <= i < |params| ==> ParamUsed(job, params[i].name)
  }

  predicate ResultsReferred(seqs: seq<Sequence>) {
    forall i :: 0 <= i < |seqs| && Named(seqs[i], UsedVars(seqs)) ==> IsReferred(seqs, seqs[i].result.value.name)
  }

  /** Every named result is referred to by something other than a UserID or Role input of an @auth; every request
      parameter is passed on by such an input or its variable is named outright; so is the query passed on; and a
      response that lists its fields comes after a list query. */
  predicate EverythingRead(job: Job) {
    && ResultsReferred(job.seqs)
    && (FirstTotal(job.seqs) < |job.seqs| ==> TotalShown(job.seqs, false))
    && (!job.subscribe ==> ParamsUsed(job, job.symbols.pathParams) && ParamsUsed(job, job.raw))
    && (NeedsQueryOpts(job.seqs) ==> QueryPassed(job.seqs))
  }

  // ----- what the preamble reads -----

  /** Text variables of converted path parameters. */
  function StrNames(params: seq<Param>, camel: string -> string): set<string> {
    if params == [] then {}
    else (if Converts(params[0]) then {camel(params[0].name) + "Str"} else {}) + StrNames(params[1..], camel)
  }

  lemma {:induction false} PathNamesAre(params: seq<Param>, camel: string -> string)
    ensures Elements(PathNames(params, camel)) == StrNames(params, camel) + Elements(RawNames(params, camel))
    ensures NoDuplicates(PathNames(params, camel)) ==>
              StrNames(params, camel) !! Elements(RawNames(params, camel)) && NoDuplicates(RawNames(params, camel))
  {
    if params != [] {
      PathNamesSplit(params, camel);
      RawNamesSplit(params, camel);
      PathNamesAre(params[1..], camel);
      if NoDuplicates(PathNames(params, camel)) { ConsDistinct(camel(params[0].name), RawNames(params[1..], camel)); }
    }
  }

  lemma ConsDistinct(x: string, rest: seq<string>)
    requires NoDuplicates(rest) && x !in Elements(rest)
    ensures NoDuplicates([x] + rest)
  {
    var all := [x] + rest;
    forall i, j | 0 <= i < j < |all| ensures all[i] != all[j] {
      assert all[j] == rest[j - 1] && rest[j - 1] in Elements(rest);
      if i > 0 { assert all[i] == rest[i - 1]; }
    }
  }

  function OptionalErr(bound: bool): set<string> {
    if bound then {"err"} else {}
  }

  lemma PathParamReads(p: Param, camel: string -> string)
    ensures ReadsIn(PathParamCode(p, camel)) ==
      {"c"} + (if Converts(p) then {camel(p.name) + "Str", "err"} else {})
  {
    if Converts(p) {
      var init, let := Init(camel(p.name) + "Str", ParamText(p.name)), Let([camel(p.name), "err"], true, ConvertOp(p.name, camel(p.name) + "Str"));
      assert PathParamCode(p, camel) == [init] + [let, CheckErr(BAD_REQUEST)];
      ReadsInConcat([init], [let, CheckErr(BAD_REQUEST)]);
      ReadsInOne(init);
      ReadsInTwo(let, CheckErr(BAD_REQUEST));
    } else {
      ReadsInOne(Init(camel(p.name), ParamValue(p.name)));
    }
  }

  lemma JoinApart(a: set<string>, b: set<string>, readsA: set<string>, readsB: set<string>)
    requires a - {"c"} == readsA - {"c"} && b - {"c"} == readsB - {"c"}
    ensures a + b - {"c"} == readsA + readsB - {"c"}
  {
    assert a + b - {"c"} == (a - {"c"}) + (b - {"c"});
  }

  lemma {:induction false} PathReads(params: seq<Param>, camel: string -> string)
    ensures ReadsIn(PathCode(params, camel)) - {"c"} == StrNames(params, camel) + OptionalErr(AnyConverts(params)) - {"c"}
  {
    if params != [] {
      var p, rest := params[0], params[1..];
      var own := if Converts(p) then {camel(p.name) + "Str", "err"} else {};
      PathParamReads(p, camel);
      PathReads(rest, camel);
      ReadsInConcat(PathParamCode(p, camel), PathCode(rest, camel));
      JoinApart(ReadsIn(PathParamCode(p, camel)), ReadsIn(PathCode(rest, camel)), own, StrNames(rest, camel) + OptionalErr(AnyConverts(rest)));
      assert own + (StrNames(rest, camel) + OptionalErr(AnyConverts(rest))) == StrNames(params, camel) + OptionalErr(AnyConverts(params));
    }
  }

  lemma QueryParamReads(p: Param, camel: string -> string)
    ensures ReadsIn(QueryParamCode(p, camel)) == {"c"} + OptionalErr(ConvertsText(p.goType))
  {
    ReadsInTwo(Let([camel(p.name), "err"], true, ConvertOp(p.name, "c")), CheckErr(BAD_REQUEST));
    ReadsInOne(Init(camel(p.name), ParamValue(p.name)));
  }

  lemma {:induction false} QueryReads(params: seq<Param>, camel: string -> string)
    ensures ReadsIn(QueryCode(params, camel)) - {"c"} == OptionalErr(AnyConvertsText(params))
  {
    if params != [] {
      QueryParamReads(params[0], camel);
      QueryReads(params[1..], camel);
      ReadsInConcat(QueryParamCode(params[0], camel), QueryCode(params[1..], camel));
    }
  }

  lemma {:induction false} BodyFieldReads(params: seq<Param>, camel: string -> string)
    ensures ReadsIn(BodyFieldCode(params, camel)) <= {"req"}
  {
    if params != [] {
      var init := Init(camel(params[0].name), BodyField(params[0].name));
      ReadsInOne(init);
      BodyFieldReads(params[1..], camel);
      ReadsInConcat([init], BodyFieldCode(params[1..], camel));
    }
  }

  lemma RequestReads(job: Job)
    ensures ReadsIn(RequestCode(job)) - {"c"} == if UsesJsonBody(job) then {"req"} else OptionalErr(AnyConvertsText(job.raw))
  {
    QueryReads(job.raw, job.camel);
    BodyFieldReads(job.raw, job.camel);
    ReadsInTwo(VarDecl("req"), IfCall(true, BindBodyOp, BAD_REQUEST));
    ReadsInConcat([VarDecl("req"), IfCall(true, BindBodyOp, BAD_REQUEST)], BodyFieldCode(job.raw, job.camel));
  }

  lemma OptionalReads(job: Job)
    ensures ReadsIn(UserCode(job)) <= {"c"} && ReadsIn(OptsCode(job)) <= {"c"}
  {
    ReadsInOne(Init("currentUser", UserSource));
    ReadsInOne(Init("opts", QuerySource));
  }

  lemma FourReads(a: seq<Stmt>, b: seq<Stmt>, c: seq<Stmt>, d: seq<Stmt>)
    ensures ReadsIn(a + b + c + d) == ReadsIn(a) + ReadsIn(b) + ReadsIn(c) + ReadsIn(d)
  {
    ReadsInConcat(a + b + c, d);
    ReadsInConcat(a + b, c);
    ReadsInConcat(a, b);
  }

  /** Exactly what an HTTP preamble reads, apart from c. */
  lemma InputReads(job: Job)
    requires !job.subscribe
    ensures ReadsIn(InputCodeBefore(job)) - {"c"} ==
      StrNames(job.symbols.pathParams, job.camel) + OptionalErr(PreambleBindsErr(job)) + (if UsesJsonBody(job) then {"req"} else {}) - {"c"}
  {
    var request := if UsesJsonBody(job) then {"req"} else OptionalErr(AnyConvertsText(job.raw));
    var paths := StrNames(job.symbols.pathParams, job.camel) + OptionalErr(AnyConverts(job.symbols.pathParams));
    var a, b, c, d := ReadsIn(PathCode(job.symbols.pathParams, job.camel)), ReadsIn(UserCode(job)), ReadsIn(RequestCode(job)), ReadsIn(OptsCode(job));
    FourReads(PathCode(job.symbols.pathParams, job.camel), UserCode(job), RequestCode(job), OptsCode(job));
    PathReads(job.symbols.pathParams, job.camel);
    OptionalReads(job);
    RequestReads(job);
    JoinApart(a, c, paths, request);
    assert a + b + c + d - {"c"} == a + c - {"c"};
    assert OptionalErr(PreambleBindsErr(job)) + (if UsesJsonBody(job) then {"req"} else {}) ==
           OptionalErr(AnyConverts(job.symbols.pathParams)) + request;
  }

  lemma BeginReads(subscribe: bool)
    ensures ReadsIn(BeginCode(subscribe)) == {"h", "err", "tx"}
  {
    var code := BeginCode(subscribe);
    assert code == [code[0], code[1]] + [DeferRollback];
    ReadsInConcat([code[0], code[1]], [DeferRollback]);
    ReadsInTwo(code[0], code[1]);
    ReadsInOne(DeferRollback);
  }

  // ----- what the whole body reads -----

  function PreambleOwn(job: Job): set<string> {
    if job.subscribe then {}
    else StrNames(job.symbols.pathParams, job.camel) + (if UsesJsonBody(job) then {"req"} else {})
  }

  ghost function SequenceCode(job: Job): seq<Stmt> {
    CodeFrom(job.seqs, CtxOf(job), ErrDeclaredAtStart(job), {}, false, false)
  }

  lemma BodyReadsParts(job: Job)
    ensures ReadsIn(HandlerBody(job)) ==
      ReadsIn(InputCodeBefore(job)) + (if HasWrite(job.seqs) then {"h", "err", "tx"} else {}) + ReadsIn(SequenceCode(job))
  {
    var begin := if HasWrite(job.seqs) then BeginCode(job.subscribe) else [];
    ReadsInConcat(InputCodeBefore(job), begin);
    ReadsInConcat(InputCodeBefore(job) + begin, SequenceCode(job));
    BeginReads(job.subscribe);
  }

  /** Names the handler uses for itself. */
  predicate IsMachinery(x: string, job: Job) {
    x in FuncParams(job.subscribe) + OwnNames(job.seqs)
  }

  lemma ShownIsCounted(seqs: seq<Sequence>)
    requires TotalShown(seqs, false)
    ensures Counted(seqs)
  {
    var j :| 0 <= j < |seqs| && ListsFields(seqs[j]) && Counted(seqs[..j + 1]);
    var i :| 0 <= i < j + 1 && HasTotal(seqs[..j + 1][i]);
    assert seqs[..j + 1][i] == seqs[i];
  }

  /** A variable of the source or of the request is read by the preamble itself or by a sequence. */
  lemma BodyReads(job: Job, x: string)
    requires AllShaped(job.seqs, job.subscribe) && !IsMachinery(x, job)
    ensures x in ReadsIn(HandlerBody(job)) <==> x in PreambleOwn(job) || x in AllReads(job.seqs, CtxOf(job))
  {
    BodyReadsParts(job);
    OwnOfCode(job, x);
    if !job.subscribe {
      InputReads(job);
      assert x in ReadsIn(InputCodeBefore(job)) <==> x in ReadsIn(InputCodeBefore(job)) - {"c"};
    }
    CodeReads(job.seqs, CtxOf(job), ErrDeclaredAtStart(job), {}, false, false);
    assert x in ReadsIn(SequenceCode(job)) <==> x in ReadsIn(SequenceCode(job)) - CodeOwn(HasWrite(job.seqs));
  }

  lemma OwnOfCode(job: Job, x: string)
    requires !IsMachinery(x, job)
    ensures x !in CodeOwn(HasWrite(job.seqs)) + Receivers(HasWrite(job.seqs)) + {"h", "err"}
    ensures (HasWrite(job.seqs) ==> x != "tx") && (!job.subscribe ==> x != "c")
    ensures x !in OptionalTotal(TotalShown(job.seqs, false))
  {
    assert "h" in FuncParams(job.subscribe) && "err" in RESERVED;
    if TotalShown(job.seqs, false) { ShownIsCounted(job.seqs); }
  }

  /** err and tx are read wherever they are declared. */
  lemma MachineryRead(job: Job)
    requires AllShaped(job.seqs, job.subscribe)
    ensures HasWrite(job.seqs) ==> "tx" in ReadsIn(HandlerBody(job))
    ensures ErrInScopeAtStart(job) || FirstBinding(job.seqs) < |job.seqs| ==> "err" in ReadsIn(HandlerBody(job))
  {
    BodyReadsParts(job);
    CodeReads(job.seqs, CtxOf(job), ErrDeclaredAtStart(job), {}, false, false);
    if PreambleBindsErr(job) {
      InputReads(job);
      assert "err" in ReadsIn(InputCodeBefore(job)) - {"c"};
    }
  }

  lemma {:induction false} AllReadsWithin(seqs: seq<Sequence>, ctx: Ctx, base: set<string>, declared: set<string>, counted: bool)
    requires AllReadable(seqs, ctx, base, declared, counted) && counted
    ensures "total" !in AllReads(seqs, ctx)
  {
    if seqs != [] {
      AllReadsWithin(seqs[1..], ctx, base, DeclaredAfter(seqs[0], declared), counted);
    }
  }

  lemma TotalRead(job: Job)
    requires AcceptedSource(job) && SourcesDeclared(job) && Counted(job.seqs)
    ensures "total" in ReadsIn(HandlerBody(job)) <==> TotalShown(job.seqs, false) || "total" in PreambleOwn(job)
  {
    AcceptedShaped(job);
    SourceReadable(job);
    AllReadsWithin(job.seqs, CtxOf(job), BaseScope(job), {}, true);
    TotalReadIn(job);
  }

  lemma TotalReadIn(job: Job)
    requires AllShaped(job.seqs, job.subscribe) && "total" !in AllReads(job.seqs, CtxOf(job))
    ensures "total" in ReadsIn(HandlerBody(job)) <==> TotalShown(job.seqs, false) || "total" in PreambleOwn(job)
  {
    BodyReadsParts(job);
    CodeReads(job.seqs, CtxOf(job), ErrDeclaredAtStart(job), {}, false, false);
    assert "total" in ReadsIn(SequenceCode(job)) <==> "total" in ReadsIn(SequenceCode(job)) - CodeOwn(HasWrite(job.seqs));
    if !job.subscribe {
      InputReads(job);
      assert "total" in ReadsIn(InputCodeBefore(job)) <==> "total" in ReadsIn(InputCodeBefore(job)) - {"c"};
    }
  }

  // ----- names of the source -----

  /** What is referred to is a result, a parameter of the function, or a source. */
  lemma ReferredNames(job: Job, i: nat, x: string)
    requires AcceptedSource(job) && i < |job.seqs| && x in ReferredBy(job.seqs[i])
    ensures x in Bound(job.seqs) + FuncParams(job.subscribe) + {"request", "query", "currentUser"}
  {
    if x !in {"request", "query", "currentUser"} {
      AcceptedSequence(job.seqs, job.subscribe, i);
      assert WellShaped(job.seqs[i]) && NonEmptyValues(job.seqs[i]);
      ReferredIsChecked(job.seqs[i], x);
      BoundPrefix(job.seqs, i);
    }
  }

  lemma PassedIsListed(job: Job, i: nat, p: string)
    requires RequestListed(job) && i < |job.seqs| && p in RequestPassedBy(job.seqs[i])
    ensures p in ParamNames(job.symbols.pathParams) + ParamNames(job.raw)
  {
    RequestFieldsContain(job.seqs, i);
    assert p in RequestFieldsOf(job.seqs[i]);
  }

  lemma {:induction false} RawNameAt(params: seq<Param>, camel: string -> string, i: nat)
    requires i < |params|
    ensures |RawNames(params, camel)| == |params| && RawNames(params, camel)[i] == camel(params[i].name)
  {
    if i > 0 {
      RawNameAt(params[1..], camel, i - 1);
    } else if |params| > 1 {
      RawNameAt(params[1..], camel, 0);
    }
  }

  lemma SameName(params: seq<Param>, camel: string -> string, i: nat, j: nat)
    requires NoDuplicates(RawNames(params, camel)) && i < |params| && j < |params| && camel(params[i].name) == camel(params[j].name)
    ensures i == j
  {
    RawNameAt(params, camel, i);
    RawNameAt(params, camel, j);
  }

  /** Names of the request's variables, part by part, each apart from the others. */
  lemma InputVariables(job: Job)
    requires DistinctVariables(job) && !job.subscribe
    ensures
      var paths, raws := Elements(RawNames(job.symbols.pathParams, job.camel)), Elements(RawNames(job.raw, job.camel));
      var user, opts := Elements(UserNames(job)), Elements(OptsNames(job));
      && Elements(InputNames(job)) == PreambleOwn(job) + paths + raws + user + opts
      && PreambleOwn(job) !! paths + raws + user + opts && paths !! raws + user + opts && raws !! user + opts && user !! opts
      && NoDuplicates(RawNames(job.symbols.pathParams, job.camel)) && NoDuplicates(RawNames(job.raw, job.camel))
  {
    InputNamesApart(job);
    PathNamesAre(job.symbols.pathParams, job.camel);
    RequestNamesElements(job);
    RequestNamesDistinct(job);
  }

  lemma RequestNamesDistinct(job: Job)
    requires NoDuplicates(RequestNames(job))
    ensures NoDuplicates(RawNames(job.raw, job.camel))
    ensures UsesJsonBody(job) ==> "req" !in Elements(RawNames(job.raw, job.camel))
  {
    DistinctConcat(if UsesJsonBody(job) then ["req"] else [], RawNames(job.raw, job.camel));
    ElementsOne("req");
  }

  /** Distinct variables come from distinct parameters. */
  lemma CamelInjective(job: Job, p: string, q: string)
    requires DistinctVariables(job) && !job.subscribe && job.camel(p) == job.camel(q)
    requires p in ParamNames(job.symbols.pathParams) + ParamNames(job.raw)
    requires q in ParamNames(job.symbols.pathParams) + ParamNames(job.raw)
    ensures p == q
  {
    InputVariables(job);
    ParamGroup(job.symbols.pathParams, job.raw, job.camel, p, q);
  }

  lemma ParamGroup(a: seq<Param>, b: seq<Param>, camel: string -> string, p: string, q: string)
    requires NoDuplicates(RawNames(a, camel)) && NoDuplicates(RawNames(b, camel))
    requires Elements(RawNames(a, camel)) !! Elements(RawNames(b, camel)) && camel(p) == camel(q)
    requires p in ParamNames(a) + ParamNames(b) && q in ParamNames(a) + ParamNames(b)
    ensures p == q
  {
    if p in ParamNames(a) && q in ParamNames(a) {
      OneParam(a, camel, p, q);
    } else if p in ParamNames(b) && q in ParamNames(b) {
      OneParam(b, camel, p, q);
    } else if p in ParamNames(a) {
      ParamVariable(a, camel, p);
      ParamVariable(b, camel, q);
    } else {
      ParamVariable(b, camel, p);
      ParamVariable(a, camel, q);
    }
  }

  lemma OneParam(params: seq<Param>, camel: string -> string, p: string, q: string)
    requires NoDuplicates(RawNames(params, camel)) && p in ParamNames(params) && q in ParamNames(params) && camel(p) == camel(q)
    ensures p == q
  {
    var i :| 0 <= i < |params| && params[i].name == p;
    var j :| 0 <= j < |params| && params[j].name == q;
    SameName(params, camel, i, j);
  }

  lemma ParamVariable(params: seq<Param>, camel: string -> string, p: string)
    requires p in ParamNames(params)
    ensures camel(p) in Elements(RawNames(params, camel))
  {
    var i :| 0 <= i < |params| && params[i].name == p;
    RawNamesContain(params, camel, i);
  }

  // ----- when each variable is read -----

  /** Read by the sequences: referred to, passed on, or fetched for them. */
  lemma AllReadsExact(job: Job, x: string)
    requires AcceptedSource(job) && x !in Receivers(HasWrite(job.seqs))
    ensures x in AllReads(job.seqs, CtxOf(job)) <==>
      || IsReferred(job.seqs, x)
      || (exists p :: IsPassed(job.seqs, p) && x == job.camel(p))
      || (NeedsCurrentUser(job.seqs) && x == "currentUser")
      || (QueryPassed(job.seqs) && x == "opts")
  {
    forall i | 0 <= i < |job.seqs|
      ensures x in SequenceReads(job.seqs[i], CtxOf(job)) <==>
        || x in ReferredBy(job.seqs[i])
        || (exists p :: p in RequestPassedBy(job.seqs[i]) && x == job.camel(p))
        || (UsesCurrentUser(job.seqs[i]) && x == "currentUser")
        || (PassesQuery(job.seqs[i]) && x == "opts")
    {
      RequestIsPlain(job, i);
      assert WellShaped(job.seqs[i]);
      SequenceReadsExact(job.seqs[i], CtxOf(job), x);
    }
    AllReadsSplit(job.seqs, CtxOf(job), x);
  }

  lemma AllReadsSplit(seqs: seq<Sequence>, ctx: Ctx, x: string)
    requires forall i :: 0 <= i < |seqs| ==>
      (x in SequenceReads(seqs[i], ctx) <==>
        || x in ReferredBy(seqs[i])
        || (exists p :: p in RequestPassedBy(seqs[i]) && x == ctx.camel(p))
        || (UsesCurrentUser(seqs[i]) && x == "currentUser")
        || (PassesQuery(seqs[i]) && x == "opts"))
    ensures x in AllReads(seqs, ctx) <==>
      || IsReferred(seqs, x)
      || (exists p :: IsPassed(seqs, p) && x == ctx.camel(p))
      || (NeedsCurrentUser(seqs) && x == "currentUser")
      || (QueryPassed(seqs) && x == "opts")
  {
    if x in AllReads(seqs, ctx) {
      var i := ReadBySequence(seqs, ctx, x);
      if p :| p in RequestPassedBy(seqs[i]) && x == ctx.camel(p) { assert IsPassed(seqs, p); }
    }
    if IsReferred(seqs, x) {
      var i :| 0 <= i < |seqs| && x in ReferredBy(seqs[i]);
      AllReadsContain(seqs, ctx, i);
    }
    if p :| IsPassed(seqs, p) && x == ctx.camel(p) {
      var i :| 0 <= i < |seqs| && p in RequestPassedBy(seqs[i]);
      AllReadsContain(seqs, ctx, i);
    }
    if NeedsCurrentUser(seqs) && x == "currentUser" {
      var i :| 0 <= i < |seqs| && UsesCurrentUser(seqs[i]);
      AllReadsContain(seqs, ctx, i);
    }
    if QueryPassed(seqs) && x == "opts" {
      var i :| 0 <= i < |seqs| && PassesQuery(seqs[i]);
      AllReadsContain(seqs, ctx, i);
    }
  }

  /** BodyReads and AllReadsExact together. */
  lemma ReadExact(job: Job, x: string)
    requires AcceptedSource(job) && !IsMachinery(x, job)
    ensures x in ReadsIn(HandlerBody(job)) <==>
      || x in PreambleOwn(job)
      || IsReferred(job.seqs, x)
      || (exists p :: IsPassed(job.seqs, p) && x == job.camel(p))
      || (NeedsCurrentUser(job.seqs) && x == "currentUser")
      || (QueryPassed(job.seqs) && x == "opts")
  {
    AcceptedShaped(job);
    OwnOfCode(job, x);
    BodyReads(job, x);
    AllReadsExact(job, x);
  }

  lemma SubscriberPassesNothing(job: Job)
    requires job.subscribe && forall i :: 0 <= i < |job.seqs| ==> NoHttpSources(job.seqs[i])
    ensures !NeedsQueryOpts(job.seqs) && forall p :: !IsPassed(job.seqs, p)
  {
    forall i | 0 <= i < |job.seqs| ensures RequestPassedBy(job.seqs[i]) == {} && !HasQuery(job.seqs[i].inputs) {
      assert NoHttpSources(job.seqs[i]);
    }
  }

  lemma PassedAreParams(job: Job)
    requires RequestListed(job)
    ensures forall p :: IsPassed(job.seqs, p) ==> p in ParamNames(job.symbols.pathParams) + ParamNames(job.raw)
  {
    forall p | IsPassed(job.seqs, p) ensures p in ParamNames(job.symbols.pathParams) + ParamNames(job.raw) {
      var i :| 0 <= i < |job.seqs| && p in RequestPassedBy(job.seqs[i]);
      PassedIsListed(job, i, p);
    }
  }

  lemma QueryPassedNeeds(seqs: seq<Sequence>)
    ensures QueryPassed(seqs) ==> NeedsQueryOpts(seqs)
  {
    if QueryPassed(seqs) {
      var i :| 0 <= i < |seqs| && PassesQuery(seqs[i]);
      assert HasQuery(seqs[i].inputs);
    }
  }

  lemma PassedOnlyByHttp(job: Job)
    requires AcceptedSource(job)
    ensures job.subscribe ==> !NeedsQueryOpts(job.seqs) && forall p :: !IsPassed(job.seqs, p)
    ensures QueryPassed(job.seqs) ==> NeedsQueryOpts(job.seqs)
    ensures forall p :: IsPassed(job.seqs, p) ==> p in ParamNames(job.symbols.pathParams) + ParamNames(job.raw)
  {
    QueryPassedNeeds(job.seqs);
    if job.subscribe { SubscriberPassesNothing(job); } else { PassedAreParams(job); }
  }

  lemma ResultRead(job: Job, x: string)
    requires AcceptedSource(job) && x in Bound(job.seqs)
    ensures x in ReadsIn(HandlerBody(job)) <==> IsReferred(job.seqs, x)
  {
    ReadExact(job, x);
    PassedOnlyByHttp(job);
    assert x != "currentUser";
    if !job.subscribe {
      InputNamesElements(job);
      InputVariables(job);
      forall p | IsPassed(job.seqs, p) ensures job.camel(p) != x { ParamInScope(job, p); }
    }
  }

  lemma ParamRead(job: Job, p: string)
    requires AcceptedSource(job) && !job.subscribe && p in ParamNames(job.symbols.pathParams) + ParamNames(job.raw)
    ensures job.camel(p) in ReadsIn(HandlerBody(job)) <==> ParamUsed(job, p)
  {
    var x := job.camel(p);
    ParamInScope(job, p);
    ParamApart(job, p);
    ReadExact(job, x);
    PassedOnlyByHttp(job);
    if q :| IsPassed(job.seqs, q) && x == job.camel(q) { CamelInjective(job, p, q); }
  }

  /** A parameter's variable is none of the other variables of the preamble. */
  lemma ParamApart(job: Job, p: string)
    requires DistinctVariables(job) && !job.subscribe && p in ParamNames(job.symbols.pathParams) + ParamNames(job.raw)
    ensures job.camel(p) !in PreambleOwn(job) + Elements(UserNames(job)) + Elements(OptsNames(job))
    ensures NeedsCurrentUser(job.seqs) ==> job.camel(p) != "currentUser"
    ensures NeedsQueryOpts(job.seqs) ==> job.camel(p) != "opts"
  {
    InputVariables(job);
    ElementsOptional(NeedsCurrentUser(job.seqs), "currentUser");
    ElementsOptional(NeedsQueryOpts(job.seqs), "opts");
    if p in ParamNames(job.raw) {
      ParamVariable(job.raw, job.camel, p);
    } else {
      ParamVariable(job.symbols.pathParams, job.camel, p);
    }
  }

  lemma OptsRead(job: Job)
    requires AcceptedSource(job) && !job.subscribe && NeedsQueryOpts(job.seqs)
    ensures "opts" in ReadsIn(HandlerBody(job)) <==> QueryPassed(job.seqs)
  {
    OptsApart(job);
    ReadExact(job, "opts");
    OptsUnreferred(job);
    PassedAreParams(job);
    forall p | IsPassed(job.seqs, p) ensures job.camel(p) != "opts" { ParamApart(job, p); }
  }

  lemma OptsIsNoSource()
    ensures "opts" !in {"request", "query", "currentUser"}
  {
    assert |"opts"| == 4 && |"query"| == 5 && |"request"| == 7 && |"currentUser"| == 11;
  }

  lemma ReferredElsewhere(job: Job, x: string)
    requires AcceptedSource(job) && x !in Bound(job.seqs) + FuncParams(job.subscribe) + {"request", "query", "currentUser"}
    ensures !IsReferred(job.seqs, x)
  {
    if i :| 0 <= i < |job.seqs| && x in ReferredBy(job.seqs[i]) {
      ReferredNames(job, i, x);
      assert false;
    }
  }

  lemma OptsUnreferred(job: Job)
    requires AcceptedSource(job) && "opts" !in Bound(job.seqs) + FuncParams(job.subscribe)
    ensures !IsReferred(job.seqs, "opts")
  {
    OptsIsNoSource();
    ReferredElsewhere(job, "opts");
  }

  lemma OptsApart(job: Job)
    requires DistinctVariables(job) && !job.subscribe && NeedsQueryOpts(job.seqs)
    ensures "opts" !in PreambleOwn(job) + Elements(UserNames(job)) + Bound(job.seqs) + FuncParams(false) + OwnNames(job.seqs)
  {
    InputVariables(job);
    ElementsOptional(true, "opts");
    assert "opts" in Elements(InputNames(job));
  }

  /** The preamble's own variables and the current user are always read. */
  lemma OwnRead(job: Job, x: string)
    requires AcceptedSource(job) && !job.subscribe && x in PreambleOwn(job) + Elements(UserNames(job))
    ensures x in ReadsIn(HandlerBody(job))
  {
    InputVariables(job);
    ElementsOptional(NeedsCurrentUser(job.seqs), "currentUser");
    assert x in Elements(InputNames(job));
    ReadExact(job, x);
  }

  lemma TotalReadExact(job: Job)
    requires AcceptedSource(job) && SourcesDeclared(job) && Counted(job.seqs)
    ensures "total" in ReadsIn(HandlerBody(job)) <==> TotalShown(job.seqs, false)
  {
    TotalRead(job);
    if !job.subscribe { InputVariables(job); }
  }

  // ----- all of them -----

  lemma ResultsRead(job: Job)
    requires AcceptedSource(job)
    ensures Bound(job.seqs) * UsedVars(job.seqs) <= ReadsIn(HandlerBody(job)) <==> ResultsReferred(job.seqs)
  {
    forall i | 0 <= i < |job.seqs| && job.seqs[i].result.Some?
      ensures var x := job.seqs[i].result.value.name; x in ReadsIn(HandlerBody(job)) <==> IsReferred(job.seqs, x)
    {
      ResultRead(job, job.seqs[i].result.value.name);
    }
    BoundMeans(job.seqs, UsedVars(job.seqs), ReadsIn(HandlerBody(job)));
  }

  lemma BoundMeans(seqs: seq<Sequence>, used: set<string>, names: set<string>)
    ensures Bound(seqs) * used <= names <==> forall i :: 0 <= i < |seqs| && Named(seqs[i], used) ==> seqs[i].result.value.name in names
  {
    if Bound(seqs) * used <= names {
      forall i | 0 <= i < |seqs| && Named(seqs[i], used) ensures seqs[i].result.value.name in names {
        assert seqs[i].result.value.name in Bound(seqs) * used;
      }
    }
  }

  lemma ParamsRead(job: Job, params: seq<Param>)
    requires AcceptedSource(job) && !job.subscribe && ParamNames(params) <= ParamNames(job.symbols.pathParams) + ParamNames(job.raw)
    ensures Elements(RawNames(params, job.camel)) <= ReadsIn(HandlerBody(job)) <==> ParamsUsed(job, params)
  {
    forall i | 0 <= i < |params|
      ensures job.camel(params[i].name) in ReadsIn(HandlerBody(job)) <==> ParamUsed(job, params[i].name)
    {
      assert params[i].name in ParamNames(params);
      ParamRead(job, params[i].name);
    }
    RawNamesMean(params, job.camel, ReadsIn(HandlerBody(job)));
  }

  lemma RawNamesMean(params: seq<Param>, camel: string -> string, names: set<string>)
    ensures Elements(RawNames(params, camel)) <= names <==> forall i :: 0 <= i < |params| ==> camel(params[i].name) in names
  {
    forall i | 0 <= i < |params| ensures camel(params[i].name) in Elements(RawNames(params, camel)) { RawNamesContain(params, camel, i); }
    forall x | x in Elements(RawNames(params, camel)) ensures exists i :: 0 <= i < |params| && camel(params[i].name) == x {
      var i :| 0 <= i < |RawNames(params, camel)| && RawNames(params, camel)[i] == x;
      RawNamesLength(params, camel);
      RawNameAt(params, camel, i);
    }
  }

  lemma {:induction false} RawNamesLength(params: seq<Param>, camel: string -> string)
    ensures |RawNames(params, camel)| == |params|
  {
    if params != [] { RawNamesLength(params[1..], camel); }
  }

  lemma InputsRead(job: Job)
    requires AcceptedSource(job) && !job.subscribe
    ensures Elements(InputNames(job)) <= ReadsIn(HandlerBody(job)) <==>
            ParamsUsed(job, job.symbols.pathParams) && ParamsUsed(job, job.raw)
            && (NeedsQueryOpts(job.seqs) ==> QueryPassed(job.seqs))
  {
    var names := ReadsIn(HandlerBody(job));
    forall x | x in PreambleOwn(job) + Elements(UserNames(job)) ensures x in names { OwnRead(job, x); }
    ParamsRead(job, job.symbols.pathParams);
    ParamsRead(job, job.raw);
    ElementsOptional(NeedsQueryOpts(job.seqs), "opts");
    if NeedsQueryOpts(job.seqs) { OptsRead(job); }
    InputVariables(job);
    AllWithin(PreambleOwn(job), Elements(RawNames(job.symbols.pathParams, job.camel)), Elements(RawNames(job.raw, job.camel)),
              Elements(UserNames(job)), Elements(OptsNames(job)), names);
  }

  lemma AllWithin(a: set<string>, b: set<string>, c: set<string>, d: set<string>, e: set<string>, names: set<string>)
    ensures a + b + c + d + e <= names <==> a <= names && b <= names && c <= names && d <= names && e <= names
  {
    assert a <= a + b + c + d + e && b <= a + b + c + d + e && c <= a + b + c + d + e && d <= a + b + c + d + e && e <= a + b + c + d + e;
  }

  /** The variables a handler declares, apart from err and tx, which are always read. */
  function Declared(job: Job): set<string> {
    Elements(InputNames(job)) + Bound(job.seqs) * UsedVars(job.seqs) + (if FirstTotal(job.seqs) < |job.seqs| then {"total"} else {})
  }

  lemma DeclaredIsFinalIn(job: Job, names: set<string>)
    requires DistinctVariables(job)
    requires HasWrite(job.seqs) ==> "tx" in names
    requires ErrInScopeAtStart(job) || FirstBinding(job.seqs) < |job.seqs| ==> "err" in names
    ensures FinalScope(job) - FuncParams(job.subscribe) <= names <==> Declared(job) <= names
  {
    DeclaredApart(job);
    WithoutMachinery(FuncParams(job.subscribe), Elements(InputNames(job)), if HasWrite(job.seqs) then {"tx"} else {},
                     Bound(job.seqs) * UsedVars(job.seqs),
                     if ErrInScopeAtStart(job) || FirstBinding(job.seqs) < |job.seqs| then {"err"} else {},
                     if FirstTotal(job.seqs) < |job.seqs| then {"total"} else {}, names);
  }

  lemma DeclaredIsFinal(job: Job)
    requires AcceptedSource(job)
    ensures FinalScope(job) - FuncParams(job.subscribe) <= ReadsIn(HandlerBody(job)) <==> Declared(job) <= ReadsIn(HandlerBody(job))
  {
    AcceptedShaped(job);
    MachineryRead(job);
    DeclaredIsFinalIn(job, ReadsIn(HandlerBody(job)));
  }

  lemma WithoutMachinery(params: set<string>, inputs: set<string>, tx: set<string>, results: set<string>, err: set<string>,
                         total: set<string>, names: set<string>)
    requires inputs + results + total !! params && tx + err !! params && tx + err <= names
    ensures (params + inputs + tx) + results + err + total - params <= names <==> inputs + results + total <= names
  {
    assert (params + inputs + tx) + results + err + total - params == (inputs + results + total) + (tx + err);
  }

  lemma DeclaredApart(job: Job)
    requires DistinctVariables(job)
    ensures Declared(job) !! FuncParams(job.subscribe) && {"tx", "err"} !! FuncParams(job.subscribe)
  {
  }

  lemma DeclaredRead(job: Job)
    ensures Declared(job) <= ReadsIn(HandlerBody(job)) <==>
      && Elements(InputNames(job)) <= ReadsIn(HandlerBody(job))
      && Bound(job.seqs) * UsedVars(job.seqs) <= ReadsIn(HandlerBody(job))
      && (FirstTotal(job.seqs) < |job.seqs| ==> "total" in ReadsIn(HandlerBody(job)))
  {
    ThreeWithin(Elements(InputNames(job)), Bound(job.seqs) * UsedVars(job.seqs),
                if FirstTotal(job.seqs) < |job.seqs| then {"total"} else {}, ReadsIn(HandlerBody(job)));
  }

  lemma ThreeWithin(a: set<string>, b: set<string>, c: set<string>, names: set<string>)
    ensures a + b + c <= names <==> a <= names && b <= names && c <= names
  {
    assert a <= a + b + c && b <= a + b + c && c <= a + b + c;
  }

  lemma NoInputs(job: Job)
    requires AcceptedSource(job) && job.subscribe
    ensures Elements(InputNames(job)) == {} && !NeedsQueryOpts(job.seqs)
  {
    PassedOnlyByHttp(job);
  }

  /** Every variable is read if and only if the sequences use everything. */
  lemma EverythingReadExact(job: Job)
    requires AcceptedSource(job) && SourcesDeclared(job)
    ensures FinalScope(job) - FuncParams(job.subscribe) <= ReadsIn(HandlerBody(job)) <==> EverythingRead(job)
  {
    DeclaredIsFinal(job);
    DeclaredRead(job);
    ResultsRead(job);
    if FirstTotal(job.seqs) < |job.seqs| {
      assert HasTotal(job.seqs[FirstTotal(job.seqs)]);
      TotalReadExact(job);
    }
    if job.subscribe { NoInputs(job); } else { InputsRead(job); }
  }

  // ----- main result -----

  /** Go accepts a generated handler exactly when it has a variable for every source it names, err and total are
      declared where the generator thinks they are, and every result, parameter, query and total is used. */
  lemma CompilesExact(job: Job)
    requires AcceptedSource(job)
    ensures Compiles(HandlerBody(job), FuncParams(job.subscribe)) <==> SourcesDeclared(job) && Disciplined(job) && EverythingRead(job)
  {
    ScopeExact(job);
    if SourcesDeclared(job) && Disciplined(job) {
      BodyScope(job);
      EverythingReadExact(job);
    }
  }

  /** With a write sequence err is never the reason for a rejection. */
  lemma WritesCompile(job: Job)
    requires AcceptedSource(job) && HasWrite(job.seqs)
    ensures Compiles(HandlerBody(job), FuncParams(job.subscribe)) <==>
      SourcesDeclared(job) && TotalDiscipline(job.seqs, true, UsedVars(job.seqs)) && EverythingRead(job)
  {
    CompilesExact(job);
    ErrInScopeStays(job.seqs, UsedVars(job.seqs));
  }

  lemma ErrInScopeStays(seqs: seq<Sequence>, used: set<string>)
    ensures ErrDiscipline(seqs, true, true, used)
  {
    TrackedInStep(seqs, used);
    ErrDisciplineExact(seqs, true, true, used);
  }
}
