/** What Go makes of the preamble of a handler: parameters, current user, request body, query options, transaction. */
module PreambleScope {
  import opened Text
  import opened SequenceDsl
  import opened GoBody
  import opened CallOrder
  import opened HandlerGen
  import opened SourceRules

  function BaseScope(job: Job): set<string> {
    FuncParams(job.subscribe) + Elements(InputNames(job)) + (if HasWrite(job.seqs) then {"tx"} else {})
  }

  function WithErr(scope: set<string>, b: bool): set<string> {
    scope + (if b then {"err"} else {})
  }

  /** `x, err := convert(...)` with its check. */
  lemma ConvertScope(x: string, call: GoBody.Call, scope: set<string>, b: bool)
    requires CallReads(call) <= scope && x !in scope + RESERVED
    ensures DeclareAll([Let([x, "err"], true, call), CheckErr(BAD_REQUEST)], WithErr(scope, b)) == Some(WithErr(scope + {x}, true))
  {
    var let := Let([x, "err"], true, call);
    DeclareTwo(let, CheckErr(BAD_REQUEST), WithErr(scope, b));
    assert [x, "err"][0] == x && [x, "err"][1] == "err";
    assert Names([x, "err"]) == {x, "err"};
    assert WithErr(scope, b) + {x, "err"} == WithErr(scope + {x}, true);
  }

  lemma InitScope(x: string, source: Source, scope: set<string>, b: bool)
    requires SourceReads(source) <= scope && x !in scope + RESERVED
    ensures DeclareAll([Init(x, source)], WithErr(scope, b)) == Some(WithErr(scope + {x}, b))
  {
    DeclareOne(Init(x, source), WithErr(scope, b));
    assert WithErr(scope, b) + {x} == WithErr(scope + {x}, b);
  }

  lemma PathParamScope(p: Param, camel: string -> string, scope: set<string>, b: bool)
    requires "c" in scope && camel(p.name) !in scope + RESERVED
    requires Converts(p) ==> camel(p.name) + "Str" !in scope + {camel(p.name)} + RESERVED
    ensures DeclareAll(PathParamCode(p, camel), WithErr(scope, b)) ==
      if Converts(p) then Some(WithErr(scope + {camel(p.name) + "Str", camel(p.name)}, true))
      else Some(WithErr(scope + {camel(p.name)}, b))
  {
    var x := camel(p.name);
    if Converts(p) {
      var init := Init(x + "Str", ParamText(p.name));
      var convert := [Let([x, "err"], true, ConvertOp(p.name, x + "Str")), CheckErr(BAD_REQUEST)];
      assert PathParamCode(p, camel) == [init] + convert;
      DeclareAllConcat([init], convert, WithErr(scope, b));
      InitScope(x + "Str", ParamText(p.name), scope, b);
      ConvertScope(x, ConvertOp(p.name, x + "Str"), scope + {x + "Str"}, b);
      assert scope + {x + "Str"} + {x} == scope + {x + "Str", x};
    } else {
      InitScope(x, ParamValue(p.name), scope, b);
    }
  }

  lemma {:induction false} PathCodeScope(params: seq<Param>, camel: string -> string, scope: set<string>, b: bool)
    requires NoDuplicates(PathNames(params, camel))
    requires Elements(PathNames(params, camel)) !! scope + RESERVED && "c" in scope
    ensures DeclareAll(PathCode(params, camel), WithErr(scope, b)) ==
      Some(WithErr(scope + Elements(PathNames(params, camel)), b || AnyConverts(params)))
  {
    if params == [] {
      assert scope + Elements(PathNames(params, camel)) == scope;
    } else {
      var p, rest := params[0], params[1..];
      PathNamesSplit(params, camel);
      PathParamScope(p, camel, scope, b);
      PathCodeScope(rest, camel, scope + NameOf(p, camel), b || Converts(p));
      Chain(PathParamCode(p, camel), PathCode(rest, camel), WithErr(scope, b), WithErr(scope + NameOf(p, camel), b || Converts(p)));
      assert scope + NameOf(p, camel) + Elements(PathNames(rest, camel)) == scope + Elements(PathNames(params, camel));
    }
  }

  lemma {:induction false} QueryCodeScope(params: seq<Param>, camel: string -> string, scope: set<string>, b: bool)
    requires NoDuplicates(RawNames(params, camel))
    requires Elements(RawNames(params, camel)) !! scope + RESERVED && "c" in scope
    ensures DeclareAll(QueryCode(params, camel), WithErr(scope, b)) ==
      Some(WithErr(scope + Elements(RawNames(params, camel)), b || AnyConvertsText(params)))
  {
    if params == [] {
      assert scope + Elements(RawNames(params, camel)) == scope;
    } else {
      var x, p, rest := camel(params[0].name), params[0], params[1..];
      RawNamesSplit(params, camel);
      if ConvertsText(p.goType) {
        ConvertScope(x, ConvertOp(p.name, "c"), scope, b);
      } else {
        InitScope(x, ParamValue(p.name), scope, b);
      }
      QueryCodeScope(rest, camel, scope + {x}, b || ConvertsText(p.goType));
      Chain(QueryParamCode(p, camel), QueryCode(rest, camel), WithErr(scope, b), WithErr(scope + {x}, b || ConvertsText(p.goType)));
      assert scope + {x} + Elements(RawNames(rest, camel)) == scope + Elements(RawNames(params, camel));
    }
  }

  lemma {:induction false} BodyFieldScope(params: seq<Param>, camel: string -> string, scope: set<string>, b: bool)
    requires NoDuplicates(RawNames(params, camel))
    requires Elements(RawNames(params, camel)) !! scope + RESERVED && "req" in scope
    ensures DeclareAll(BodyFieldCode(params, camel), WithErr(scope, b)) == Some(WithErr(scope + Elements(RawNames(params, camel)), b))
  {
    if params == [] {
      assert scope + Elements(RawNames(params, camel)) == scope;
    } else {
      var x, rest := camel(params[0].name), params[1..];
      RawNamesSplit(params, camel);
      InitScope(x, BodyField(params[0].name), scope, b);
      BodyFieldScope(rest, camel, scope + {x}, b);
      Chain([Init(x, BodyField(params[0].name))], BodyFieldCode(rest, camel), WithErr(scope, b), WithErr(scope + {x}, b));
      assert scope + {x} + Elements(RawNames(rest, camel)) == scope + Elements(RawNames(params, camel));
    }
  }

  lemma BindScope(scope: set<string>, b: bool)
    requires "c" in scope && "req" !in scope
    ensures DeclareAll([VarDecl("req"), IfCall(true, BindBodyOp, BAD_REQUEST)], WithErr(scope, b)) == Some(WithErr(scope + {"req"}, b))
  {
    DeclareTwo(VarDecl("req"), IfCall(true, BindBodyOp, BAD_REQUEST), WithErr(scope, b));
    assert WithErr(scope, b) + {"req"} == WithErr(scope + {"req"}, b);
  }

  lemma BodyCodeScope(job: Job, scope: set<string>, b: bool)
    requires UsesJsonBody(job) && NoDuplicates(RequestNames(job)) && Elements(RequestNames(job)) !! scope + RESERVED && "c" in scope
    ensures DeclareAll(RequestCode(job), WithErr(scope, b)) == Some(WithErr(scope + Elements(RequestNames(job)), b))
  {
    var names := RawNames(job.raw, job.camel);
    DistinctConcat(["req"], names);
    RequestNamesElements(job);
    ElementsOne("req");
    BindScope(scope, b);
    BodyFieldScope(job.raw, job.camel, scope + {"req"}, b);
    Chain([VarDecl("req"), IfCall(true, BindBodyOp, BAD_REQUEST)], BodyFieldCode(job.raw, job.camel), WithErr(scope, b),
          WithErr(scope + {"req"}, b));
    assert scope + {"req"} + Elements(names) == scope + Elements(RequestNames(job));
  }

  lemma RequestCodeScope(job: Job, scope: set<string>, b: bool)
    requires NoDuplicates(RequestNames(job)) && Elements(RequestNames(job)) !! scope + RESERVED && "c" in scope
    ensures DeclareAll(RequestCode(job), WithErr(scope, b)) ==
      Some(WithErr(scope + Elements(RequestNames(job)),
                   b || (!UsesJsonBody(job) && AnyConvertsText(job.raw))))
  {
    if UsesJsonBody(job) {
      BodyCodeScope(job, scope, b);
    } else {
      assert RequestNames(job) == RawNames(job.raw, job.camel);
      QueryCodeScope(job.raw, job.camel, scope, b);
    }
  }

  lemma OptionalInitScope(present: bool, x: string, source: Source, scope: set<string>, b: bool)
    requires SourceReads(source) <= scope && x !in RESERVED && Elements(if present then [x] else []) !! scope
    ensures DeclareAll(if present then [Init(x, source)] else [], WithErr(scope, b)) ==
            Some(WithErr(scope + Elements(if present then [x] else []), b))
  {
    if present {
      ElementsOne(x);
      InitScope(x, source, scope, b);
    } else {
      assert scope + Elements([]) == scope;
    }
  }

  lemma FourChain(a: seq<Stmt>, b: seq<Stmt>, c: seq<Stmt>, d: seq<Stmt>, s0: set<string>, s1: set<string>, s2: set<string>,
                  s3: set<string>)
    requires DeclareAll(a, s0) == Some(s1) && DeclareAll(b, s1) == Some(s2) && DeclareAll(c, s2) == Some(s3)
    ensures DeclareAll(a + b + c + d, s0) == DeclareAll(d, s3)
  {
    Chain(a, b, s0, s1);
    Chain(a + b, c, s0, s2);
    Chain(a + b + c, d, s0, s3);
  }

  lemma UserScope(job: Job, scope: set<string>, b: bool)
    requires "c" in scope && Elements(UserNames(job)) !! scope
    ensures DeclareAll(UserCode(job), WithErr(scope, b)) == Some(WithErr(scope + Elements(UserNames(job)), b))
  {
    OptionalInitScope(NeedsCurrentUser(job.seqs), "currentUser", UserSource, scope, b);
  }

  lemma OptsScope(job: Job, scope: set<string>, b: bool)
    requires "c" in scope && Elements(OptsNames(job)) !! scope
    ensures DeclareAll(OptsCode(job), WithErr(scope, b)) == Some(WithErr(scope + Elements(OptsNames(job)), b))
  {
    OptionalInitScope(NeedsQueryOpts(job.seqs), "opts", QuerySource, scope, b);
  }

  lemma InputCodeScope(job: Job)
    requires !job.subscribe && NoDuplicates(InputNames(job)) && Elements(InputNames(job)) !! {"h", "c"} + RESERVED
    ensures DeclareAll(InputCodeBefore(job), {"h", "c"}) == Some(WithErr({"h", "c"} + Elements(InputNames(job)), PreambleBindsErr(job)))
  {
    var scope, converts := {"h", "c"}, AnyConverts(job.symbols.pathParams);
    var a, b, c, d := Elements(PathNamesOf(job)), Elements(UserNames(job)), Elements(RequestNames(job)), Elements(OptsNames(job));
    InputNamesApart(job);
    PathCodeScope(job.symbols.pathParams, job.camel, scope, false);
    UserScope(job, scope + a, converts);
    RequestCodeScope(job, scope + a + b, converts);
    OptsScope(job, scope + a + b + c, PreambleBindsErr(job));
    assert WithErr(scope, false) == scope && scope + a + b + c + d == scope + (a + b + c + d);
    FourChain(PathCode(job.symbols.pathParams, job.camel), UserCode(job), RequestCode(job), OptsCode(job),
              scope, WithErr(scope + a, converts), WithErr(scope + a + b, converts), WithErr(scope + a + b + c, PreambleBindsErr(job)));
  }

  lemma BeginScope(subscribe: bool, scope: set<string>, b: bool)
    requires "h" in scope && "tx" !in scope
    ensures DeclareAll(BeginCode(subscribe), WithErr(scope, b)) == Some(WithErr(scope + {"tx"}, true))
  {
    var code := BeginCode(subscribe);
    assert code == [code[0], code[1]] + [DeferRollback];
    DeclareAllConcat([code[0], code[1]], [DeferRollback], WithErr(scope, b));
    DeclareTwo(code[0], code[1], WithErr(scope, b));
    assert ["tx", "err"][0] == "tx" && ["tx", "err"][1] == "err";
    assert Names(["tx", "err"]) == {"tx", "err"};
    assert WithErr(scope, b) + {"tx", "err"} == WithErr(scope + {"tx"}, true);
    DeclareOne(DeferRollback, WithErr(scope + {"tx"}, true));
  }

  lemma InputsScope(job: Job)
    requires NoDuplicates(InputNames(job)) && Elements(InputNames(job)) !! FuncParams(job.subscribe) + RESERVED
    ensures DeclareAll(InputCodeBefore(job), FuncParams(job.subscribe)) ==
      Some(WithErr(FuncParams(job.subscribe) + Elements(InputNames(job)), PreambleBindsErr(job)))
  {
    if job.subscribe {
      var scope := FuncParams(true);
      assert WithErr(scope + Elements([]), false) == scope;
    } else {
      InputCodeScope(job);
    }
  }

  lemma OwnApart(job: Job)
    requires DistinctVariables(job)
    ensures NoDuplicates(InputNames(job)) && Elements(InputNames(job)) !! FuncParams(job.subscribe) + RESERVED
    ensures HasWrite(job.seqs) ==> "tx" !in FuncParams(job.subscribe) + Elements(InputNames(job))
  {
    assert HasWrite(job.seqs) ==> "tx" in OwnNames(job.seqs);
    assert RESERVED <= OwnNames(job.seqs);
  }

  lemma StartScope(job: Job)
    requires DistinctVariables(job)
    ensures DeclareAll(InputCodeBefore(job) + (if HasWrite(job.seqs) then BeginCode(job.subscribe) else []), FuncParams(job.subscribe))
      == Some(WithErr(BaseScope(job), ErrInScopeAtStart(job)))
  {
    OwnApart(job);
    StartScopeFrom(job, FuncParams(job.subscribe) + Elements(InputNames(job)));
  }

  lemma StartScopeFrom(job: Job, inputs: set<string>)
    requires NoDuplicates(InputNames(job)) && Elements(InputNames(job)) !! FuncParams(job.subscribe) + RESERVED
    requires inputs == FuncParams(job.subscribe) + Elements(InputNames(job)) && (HasWrite(job.seqs) ==> "tx" !in inputs)
    ensures DeclareAll(InputCodeBefore(job) + (if HasWrite(job.seqs) then BeginCode(job.subscribe) else []), FuncParams(job.subscribe))
      == Some(WithErr(BaseScope(job), ErrInScopeAtStart(job)))
  {
    var begin := if HasWrite(job.seqs) then BeginCode(job.subscribe) else [];
    InputsScope(job);
    Chain(InputCodeBefore(job), begin, FuncParams(job.subscribe), WithErr(inputs, PreambleBindsErr(job)));
    if HasWrite(job.seqs) {
      BeginScope(job.subscribe, inputs, PreambleBindsErr(job));
    } else {
      assert inputs + {} == inputs;
    }
  }
}
