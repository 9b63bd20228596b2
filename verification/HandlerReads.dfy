/** What the generated code reads, in terms of the sequences it comes from. */
module HandlerReads {
  import opened Text
  import opened SequenceDsl
  import opened GoBody
  import opened CallOrder
  import opened HandlerGen
  import opened SourceRules
  import opened HandlerTracking

  /** What the code of a sequence reads, apart from err and total. */
  ghost function SequenceReads(s: Sequence, ctx: Ctx): set<string> {
    if s.kind !in {Empty, Exists, Response} then CallReads(CallOf(s, ctx))
    else if s.target != "" then Reads(s.target)
    else ReadsOf(s.fields)
  }

  lemma CallReadsNamed(s: Sequence, ctx: Ctx)
    requires s.kind in {State, Auth, Call, Publish}
    ensures CallReads(CallOf(s, ctx)) == ReadsOf(if s.kind == Auth then AuthFields(s.inputs, ctx.camel) else InputFields(s.inputs, ctx.camel))
  {
    match s.kind
    case State =>
    case Auth =>
    case Call =>
    case Publish =>
  }

  lemma UserRead(field: string)
    ensures Reads("currentUser." + field) == {"currentUser"}
  {
    var user := "currentUser";
    assert "currentUser." == user + ".";
    RootOfPath(user, field);
  }

  lemma {:induction false} ArgsWithin(keys: seq<string>, inputs: map<string, string>, camel: string -> string, names: set<string>)
    requires forall k :: k in keys ==> k in inputs
    requires forall k :: k in inputs ==> Reads(InputCode(inputs[k], camel)) <= names
    ensures ReadsOfArgs(ArgCodes(keys, inputs, camel)) <= names
  {
    if keys != [] {
      assert keys[0] in keys;
      ArgsWithin(keys[1..], inputs, camel, names);
      assert ArgCodes(keys, inputs, camel)[1..] == ArgCodes(keys[1..], inputs, camel);
    }
  }

  // ----- the code -----

  /** A response that lists its fields comes after a list query. */
  predicate TotalShown(seqs: seq<Sequence>, hasTotal: bool) {
    exists j :: 0 <= j < |seqs| && ListsFields(seqs[j]) && (hasTotal || Counted(seqs[..j + 1]))
  }

  lemma TotalShownTurn(seqs: seq<Sequence>, hasTotal: bool)
    requires seqs != []
    ensures
      var s := seqs[0];
      TotalShown(seqs, hasTotal) <==>
      (ListsFields(s) && (hasTotal || HasTotal(s))) || TotalShown(seqs[1..], hasTotal || HasTotal(s))
  {
    var s, rest := seqs[0], seqs[1..];
    forall j | 0 <= j < |seqs| ensures Counted(seqs[..j + 1]) <==> HasTotal(s) || Counted(rest[..j]) { PrefixesOf(seqs, j + 1); }
    assert !Counted(rest[..0]);
    assert forall j :: 0 <= j < |rest| ==> rest[j] == seqs[j + 1];
    if TotalShown(rest, hasTotal || HasTotal(s)) {
      var j :| 0 <= j < |rest| && ListsFields(rest[j]) && (hasTotal || HasTotal(s) || Counted(rest[..j + 1]));
      assert ListsFields(seqs[j + 1]);
    }
    if j :| 0 < j < |seqs| && ListsFields(seqs[j]) && (hasTotal || Counted(seqs[..j + 1])) {
      assert ListsFields(rest[j - 1]);
    }
  }


  lemma ReadsInOne(s: Stmt)
    ensures ReadsIn([s]) == ReadBy(s)
  {
    assert [s][1..] == [];
  }

  lemma ReadsInTwo(s: Stmt, t: Stmt)
    ensures ReadsIn([s, t]) == ReadBy(s) + ReadBy(t)
  {
    assert [s, t] == [s] + [t];
    ReadsInConcat([s], [t]);
    ReadsInOne(s);
    ReadsInOne(t);
  }

  /** Exactly what the code of one sequence reads. */
  lemma EmitReads(s: Sequence, ctx: Ctx, d: TemplateData)
    requires WellShaped(s)
    ensures ReadsIn(Emit(s, ctx, d)) ==
      SequenceReads(s, ctx)
      + (if BindsErr(s) || (BindsErrInside(s) && !d.firstErr) then {"err"} else {})
      + OptionalTotal(ListsFields(s) && d.hasTotal)
  {
    var code := Emit(s, ctx, d);
    if BindsErr(s) {
      var names, define := if ReturnsResult(s) then LeftSide(s, d) else ["err"], if ReturnsResult(s) then !d.reAssign else d.firstErr;
      ReadsInTwo(Let(names, define, CallOf(s, ctx)), CheckErr(ExitOf(s, ctx)));
    } else {
      assert code == [code[0]];
      ReadsInOne(code[0]);
    }
  }

  ghost function AllReads(seqs: seq<Sequence>, ctx: Ctx): set<string> {
    if seqs == [] then {} else SequenceReads(seqs[0], ctx) + AllReads(seqs[1..], ctx)
  }

  lemma {:induction false} AllReadsContain(seqs: seq<Sequence>, ctx: Ctx, i: nat)
    requires i < |seqs|
    ensures SequenceReads(seqs[i], ctx) <= AllReads(seqs, ctx)
  {
    if i > 0 { AllReadsContain(seqs[1..], ctx, i - 1); }
  }

  lemma {:induction false} ReadBySequence(seqs: seq<Sequence>, ctx: Ctx, x: string) returns (i: nat)
    requires x in AllReads(seqs, ctx)
    ensures i < |seqs| && x in SequenceReads(seqs[i], ctx)
  {
    if x in SequenceReads(seqs[0], ctx) {
      i := 0;
    } else {
      i := ReadBySequence(seqs[1..], ctx, x);
      i := i + 1;
    }
  }

  /** Names the code of the sequences uses for itself. */
  function CodeOwn(useTx: bool): set<string> {
    if useTx then {"tx", "err"} else {"err"}
  }

  lemma CommitReads(subscribe: bool)
    ensures ReadsIn(CommitCode(subscribe)) == {"tx", "err"}
  {
    ReadsInOne(IfCall(false, CommitOp, CommitExit(subscribe)));
  }

  lemma ClosingReads(ctx: Ctx, committed: bool)
    ensures ReadsIn(Closing(ctx, committed)) <= CodeOwn(ctx.useTx)
  {
    CommitReads(ctx.subscribe);
    ReadsInOne(ReturnNil);
    ReadsInConcat(if ctx.useTx && !committed then CommitCode(ctx.subscribe) else [], if ctx.subscribe then [ReturnNil] else []);
  }

  predicate AllShaped(seqs: seq<Sequence>, subscribe: bool) {
    forall i :: 0 <= i < |seqs| ==> WellShaped(seqs[i]) && !(subscribe && seqs[i].kind == Response)
  }

  lemma AllShapedTail(seqs: seq<Sequence>, subscribe: bool)
    requires seqs != [] && AllShaped(seqs, subscribe)
    ensures WellShaped(seqs[0]) && !(subscribe && seqs[0].kind == Response) && AllShaped(seqs[1..], subscribe)
  {
    assert forall i :: 0 <= i < |seqs[1..]| ==> seqs[1..][i] == seqs[i + 1];
  }

  function OptionalTotal(shown: bool): set<string> {
    if shown then {"total"} else {}
  }

  lemma JoinReads(a: set<string>, b: set<string>, readsA: set<string>, readsB: set<string>, totalA: bool, totalB: bool, own: set<string>)
    requires a - own == readsA + OptionalTotal(totalA) - own
    requires b - own == readsB + OptionalTotal(totalB) - own
    ensures a + b - own == readsA + readsB + OptionalTotal(totalA || totalB) - own
  {
    assert a + b - own == (a - own) + (b - own);
  }

  /** Exactly what the code of the sequences reads, apart from err and, with a transaction, tx. */
  lemma {:induction false} CodeReads(seqs: seq<Sequence>, ctx: Ctx, tracked: bool, declared: set<string>, hasTotal: bool, committed: bool)
    requires AllShaped(seqs, ctx.subscribe)
    ensures
      var names := ReadsIn(CodeFrom(seqs, ctx, tracked, declared, hasTotal, committed));
      && names - CodeOwn(ctx.useTx) == AllReads(seqs, ctx) + OptionalTotal(TotalShown(seqs, hasTotal)) - CodeOwn(ctx.useTx)
      && (FirstBinding(seqs) < |seqs| ==> "err" in names)
  {
    if seqs == [] {
      ClosingReads(ctx, committed);
    } else {
      var s, hasTotal' := seqs[0], hasTotal || HasTotal(seqs[0]);
      var committed' := committed || CommitsBefore(s, ctx, committed);
      var step := StepCode(s, ctx, tracked, declared, hasTotal', committed);
      var rest := CodeFrom(seqs[1..], ctx, tracked || TouchesErr(s), DeclaredAfter(s, declared), hasTotal', committed');
      AllShapedTail(seqs, ctx.subscribe);
      CodeReads(seqs[1..], ctx, tracked || TouchesErr(s), DeclaredAfter(s, declared), hasTotal', committed');
      StepReads(s, ctx, tracked, declared, hasTotal', committed);
      ReadsInConcat(step, rest);
      JoinReads(ReadsIn(step), ReadsIn(rest), SequenceReads(s, ctx), AllReads(seqs[1..], ctx),
                ListsFields(s) && hasTotal', TotalShown(seqs[1..], hasTotal'), CodeOwn(ctx.useTx));
      TotalShownTurn(seqs, hasTotal);
    }
  }

  lemma StepReads(s: Sequence, ctx: Ctx, tracked: bool, declared: set<string>, hasTotal: bool, committed: bool)
    requires WellShaped(s) && !(ctx.subscribe && s.kind == Response)
    ensures
      var names := ReadsIn(StepCode(s, ctx, tracked, declared, hasTotal, committed));
      && names - CodeOwn(ctx.useTx) == SequenceReads(s, ctx) + OptionalTotal(ListsFields(s) && hasTotal) - CodeOwn(ctx.useTx)
      && (BindsErr(s) ==> "err" in names)
  {
    var d := DataOf(s, ctx, tracked, declared, hasTotal);
    var commit := if CommitsBefore(s, ctx, committed) then CommitCode(ctx.subscribe) else [];
    CommitReads(ctx.subscribe);
    EmitReads(s, ctx, d);
    ReadsInConcat(commit, Emit(s, ctx, d));
  }


  lemma UserText(val: string, camel: string -> string)
    requires HasPrefix(val, "currentUser.")
    ensures Reads(InputCode(val, camel)) == {"currentUser"}
  {
    assert val[0] == 'c';
    assert val == "currentUser." + val[12..];
    UserRead(val[12..]);
  }

  /** What the Go text of an input value reads. */
  function ValueReads(val: string, camel: string -> string): set<string> {
    if IsLiteral(val) then {}
    else if val == "query" then {"opts"}
    else if HasPrefix(val, "request.") then {camel(val[8..])}
    else if HasPrefix(val, "currentUser.") then {"currentUser"}
    else {RootVar(val)}
  }

  lemma ValueText(val: string, camel: string -> string)
    requires HasPrefix(val, "request.") ==> Plain(camel(val[8..]))
    ensures Reads(InputCode(val, camel)) == ValueReads(val, camel)
  {
    if val == "query" {
      PlainText("opts");
    } else if HasPrefix(val, "request.") {
      assert val[0] == 'r';
      PlainText(camel(val[8..]));
    } else if HasPrefix(val, "currentUser.") {
      UserText(val, camel);
      assert val[0] == 'c';
    }
  }

  /** What the values of all inputs that reach the code read. */
  function PassedReads(s: Sequence, camel: string -> string): set<string> {
    set k, x | k in PassedKeys(s) && x in ValueReads(s.inputs[k], camel) :: x
  }

  predicate RequestPlain(s: Sequence, camel: string -> string) {
    forall k :: k in s.inputs && HasPrefix(s.inputs[k], "request.") ==> Plain(camel(s.inputs[k][8..]))
  }

  lemma NamedReads(s: Sequence, camel: string -> string)
    requires s.kind != Auth && RequestPlain(s, camel)
    ensures ReadsOf(InputFields(s.inputs, camel)) == PassedReads(s, camel)
  {
    var fields := InputFields(s.inputs, camel);
    forall k | k in fields ensures Reads(fields[k]) == ValueReads(s.inputs[k], camel) { ValueText(s.inputs[k], camel); }
  }

  lemma AuthReads(s: Sequence, camel: string -> string)
    requires s.kind == Auth && RequestPlain(s, camel)
    ensures ReadsOf(AuthFields(s.inputs, camel)) == PassedReads(s, camel) + {"currentUser"}
  {
    var fields := AuthFields(s.inputs, camel);
    UserRead("ID");
    UserRead("Role");
    forall k | k in PassedKeys(s) ensures k in fields && Reads(fields[k]) == ValueReads(s.inputs[k], camel) { ValueText(s.inputs[k], camel); }
    assert "Role" in fields && "currentUser" in Reads(fields["Role"]);
    forall k, x | k in fields && x in Reads(fields[k]) ensures x in PassedReads(s, camel) + {"currentUser"} {
      if k in {"UserID", "Role"} {
        assert Reads(fields[k]) == {"currentUser"};
      } else {
        assert k in PassedKeys(s);
      }
    }
  }

  /** Every input is passed to a model method, except that of several queries only one need be. */
  lemma KeysPassed(inputs: map<string, string>, order: seq<string>)
    ensures forall k :: k in inputs && inputs[k] != "query" ==> k in CallKeys(inputs, order)
    ensures QueryKeys(inputs) != {} ==> exists k :: k in CallKeys(inputs, order) && k in QueryKeys(inputs)
  {
    SuppliedContains(order, inputs);
    SortedKeysAre(inputs.Keys - Elements(order));
    SortedKeysAre(inputs.Keys - QueryKeys(inputs));
    LastQueryKeyIs(inputs);
    if order == [] && QueryKeys(inputs) != {} {
      assert LastQueryKey(inputs)[0] in CallKeys(inputs, order);
    } else if order != [] {
      forall k | k in inputs ensures k in CallKeys(inputs, order) {
        if k !in order { assert k in inputs.Keys - Elements(order); }
      }
      if QueryKeys(inputs) != {} {
        var k :| k in QueryKeys(inputs);
        assert k in CallKeys(inputs, order);
      }
    }
  }

  lemma {:induction false} ArgRead(keys: seq<string>, inputs: map<string, string>, camel: string -> string, i: nat)
    requires (forall k :: k in keys ==> k in inputs) && i < |keys|
    ensures Reads(InputCode(inputs[keys[i]], camel)) <= ReadsOfArgs(ArgCodes(keys, inputs, camel))
  {
    if i > 0 { ArgRead(keys[1..], inputs, camel, i - 1); }
    assert ArgCodes(keys, inputs, camel)[1..] == ArgCodes(keys[1..], inputs, camel);
  }

  /** What a model call reads beside its arguments. */
  function Receivers(useTx: bool): set<string> {
    if useTx then {"h", "tx"} else {"h"}
  }

  lemma ModelReads(s: Sequence, ctx: Ctx)
    requires s.kind in {Get, Post, Put, Delete} && RequestPlain(s, ctx.camel)
    ensures CallReads(ModelOpOf(s, ctx)) - Receivers(ctx.useTx) == PassedReads(s, ctx.camel) - Receivers(ctx.useTx)
  {
    var order := OrderOf(s, ctx.symbols);
    CallKeysAreInputs(s.inputs, order);
    ArgReadsPassed(s, ctx.camel, CallKeys(s.inputs, order));
    forall x | x in PassedReads(s, ctx.camel) ensures x in ReadsOfArgs(ArgCodes(CallKeys(s.inputs, order), s.inputs, ctx.camel)) {
      PassedReadByArg(s, ctx.camel, order, x);
    }
  }

  lemma ArgReadsPassed(s: Sequence, camel: string -> string, keys: seq<string>)
    requires s.kind != Auth && RequestPlain(s, camel) && forall k :: k in keys ==> k in s.inputs
    ensures ReadsOfArgs(ArgCodes(keys, s.inputs, camel)) <= PassedReads(s, camel)
  {
    forall k | k in s.inputs ensures Reads(InputCode(s.inputs[k], camel)) <= PassedReads(s, camel) {
      ValueText(s.inputs[k], camel);
    }
    ArgsWithin(keys, s.inputs, camel, PassedReads(s, camel));
  }

  lemma PassedReadByArg(s: Sequence, camel: string -> string, order: seq<string>, x: string)
    requires s.kind != Auth && RequestPlain(s, camel) && x in PassedReads(s, camel)
    requires forall k :: k in CallKeys(s.inputs, order) ==> k in s.inputs
    ensures x in ReadsOfArgs(ArgCodes(CallKeys(s.inputs, order), s.inputs, camel))
  {
    var keys := CallKeys(s.inputs, order);
    var k :| k in s.inputs && x in ValueReads(s.inputs[k], camel);
    KeysPassed(s.inputs, order);
    var q := k;
    if s.inputs[k] == "query" {
      assert k in QueryKeys(s.inputs);
      q :| q in keys && q in QueryKeys(s.inputs);
    }
    var i :| 0 <= i < |keys| && keys[i] == q;
    ValueText(s.inputs[q], camel);
    ArgRead(keys, s.inputs, camel, i);
  }


  lemma CallReadsPassed(s: Sequence, ctx: Ctx, x: string)
    requires s.kind !in {Empty, Exists, Response} && RequestPlain(s, ctx.camel) && x !in Receivers(ctx.useTx)
    ensures x in SequenceReads(s, ctx) <==> x in PassedReads(s, ctx.camel) || (s.kind == Auth && x == "currentUser")
  {
    match s.kind
    case State => NamedCallReads(s, ctx);
    case Call => NamedCallReads(s, ctx);
    case Publish => NamedCallReads(s, ctx);
    case Auth =>
      CallReadsNamed(s, ctx);
      AuthReads(s, ctx.camel);
    case Get => ModelCallReads(s, ctx, x);
    case Post => ModelCallReads(s, ctx, x);
    case Put => ModelCallReads(s, ctx, x);
    case Delete => ModelCallReads(s, ctx, x);
  }

  lemma ModelCallReads(s: Sequence, ctx: Ctx, x: string)
    requires s.kind in {Get, Post, Put, Delete} && RequestPlain(s, ctx.camel) && x !in Receivers(ctx.useTx)
    ensures x in CallReads(CallOf(s, ctx)) <==> x in PassedReads(s, ctx.camel)
  {
    ModelReads(s, ctx);
    assert x in CallReads(ModelOpOf(s, ctx)) - Receivers(ctx.useTx) <==> x in PassedReads(s, ctx.camel) - Receivers(ctx.useTx);
  }

  lemma NamedCallReads(s: Sequence, ctx: Ctx)
    requires s.kind in {State, Call, Publish} && RequestPlain(s, ctx.camel)
    ensures CallReads(CallOf(s, ctx)) == PassedReads(s, ctx.camel)
  {
    CallReadsNamed(s, ctx);
    NamedReads(s, ctx.camel);
  }

  predicate PassesUser(s: Sequence) {
    exists k :: k in PassedKeys(s) && HasPrefix(s.inputs[k], "currentUser.")
  }

  lemma ValueReadsSplit(val: string, camel: string -> string, x: string)
    ensures x in ValueReads(val, camel) <==>
      || (!IsSourceValue(val) && x == RootVar(val))
      || (HasPrefix(val, "request.") && x == camel(val[8..]))
      || (HasPrefix(val, "currentUser.") && x == "currentUser")
      || (val == "query" && x == "opts")
  {
    if HasPrefix(val, "request.") { assert val[0] == 'r' && val != "query"; }
    if HasPrefix(val, "currentUser.") { assert val[0] == 'c' && val != "query"; }
    assert "query"[0] == 'q';
  }

  /** What the inputs of a sequence read: variables, request parameters, currentUser, opts. */
  lemma PassedReadsSplit(s: Sequence, camel: string -> string, x: string)
    ensures x in PassedReads(s, camel) <==>
      || (exists k :: k in PassedKeys(s) && !IsSourceValue(s.inputs[k]) && x == RootVar(s.inputs[k]))
      || (exists p :: p in RequestPassedBy(s) && x == camel(p))
      || (PassesUser(s) && x == "currentUser")
      || (PassesQuery(s) && x == "opts")
  {
    forall k | k in PassedKeys(s)
      ensures x in ValueReads(s.inputs[k], camel) <==>
        || (!IsSourceValue(s.inputs[k]) && x == RootVar(s.inputs[k]))
        || (HasPrefix(s.inputs[k], "request.") && x == camel(s.inputs[k][8..]))
        || (HasPrefix(s.inputs[k], "currentUser.") && x == "currentUser")
        || (s.inputs[k] == "query" && x == "opts")
    {
      ValueReadsSplit(s.inputs[k], camel, x);
    }
  }

  /** Exactly what the code of a sequence reads, apart from the receiver of a model call, err and total. */
  lemma SequenceReadsExact(s: Sequence, ctx: Ctx, x: string)
    requires WellShaped(s) && RequestPlain(s, ctx.camel) && x !in Receivers(ctx.useTx)
    ensures x in SequenceReads(s, ctx) <==>
      || x in ReferredBy(s)
      || (exists p :: p in RequestPassedBy(s) && x == ctx.camel(p))
      || (UsesCurrentUser(s) && x == "currentUser")
      || (PassesQuery(s) && x == "opts")
  {
    if s.kind in {Empty, Exists, Response} {
      assert PassedKeys(s) == {} && s.inputs == map[];
    } else {
      assert s.target == "" && s.fields == map[] && s.args == [];
      CallReadsPassed(s, ctx, x);
      PassedReadsSplit(s, ctx.camel, x);
      assert s.kind != Auth ==> (PassesUser(s) <==> UsesCurrentUser(s));
    }
  }
}
