/** The validator's variable-flow check and the other source rules the generator relies on. */
module VariableFlow {
  import opened Text
  import opened SequenceDsl

  datatype FlowError =
    | Undeclared(index: nat, name: string)
    | ConfigInput(index: nat, key: string)
    | QueryInPublish(index: nat, key: string)

  function ArgVarRef(a: Arg): string {
    if a.literal != "" || a.source in {"request", "currentUser", "query"} then "" else a.source
  }

  predicate IsConfig(val: string) {
    !IsLiteral(val) && HasPrefix(val, "config.")
  }

  predicate IsPublishedQuery(s: Sequence, val: string) {
    s.kind == Publish && !IsLiteral(val) && (val == "query" || HasPrefix(val, "query."))
  }

  /** Variables an input value must find declared. */
  function InputRefs(s: Sequence, val: string): set<string> {
    if IsLiteral(val) || IsConfig(val) || IsPublishedQuery(s, val) then {}
    else {RootVar(val)} - {"request", "currentUser", "query", ""}
  }

  function FieldRefs(val: string): set<string> {
    if IsLiteral(val) then {} else {RootVar(val)} - {""}
  }

  /** All variables a sequence must find declared. */
  function Refs(s: Sequence): set<string> {
    (if s.target != "" then {RootVar(s.target)} else {})
    + ((set i | 0 <= i < |s.args| :: ArgVarRef(s.args[i])) - {""})
    + (set k, x | k in s.inputs && x in InputRefs(s, s.inputs[k]) :: x)
    + (set k, x | k in s.fields && x in FieldRefs(s.fields[k]) :: x)
  }

  /** What is declared before sequence `index`: the reserved source, and all earlier results. */
  function DeclaredBefore(seqs: seq<Sequence>, index: nat, subscribe: bool): set<string>
    requires index <= |seqs|
  {
    {"currentUser"} + (if subscribe then {"message"} else {}) + Bound(seqs[..index])
  }

  function ErrorsOf(s: Sequence, index: nat, declared: set<string>): set<FlowError> {
    (set x | x in Refs(s) && x !in declared :: Undeclared(index, x))
    + (set k | k in s.inputs && IsConfig(s.inputs[k]) :: ConfigInput(index, k))
    + (set k | k in s.inputs && !IsConfig(s.inputs[k]) && IsPublishedQuery(s, s.inputs[k]) :: QueryInPublish(index, k))
  }

  predicate IsFlowError(e: FlowError, seqs: seq<Sequence>, subscribe: bool) {
    e.index < |seqs| && e in ErrorsOf(seqs[e.index], e.index, DeclaredBefore(seqs, e.index, subscribe))
  }

  predicate AcceptedAt(seqs: seq<Sequence>, i: nat, subscribe: bool)
    requires i < |seqs|
  {
    ErrorsOf(seqs[i], i, DeclaredBefore(seqs, i, subscribe)) == {}
  }

  predicate FlowAccepted(seqs: seq<Sequence>, subscribe: bool) {
    forall i :: 0 <= i < |seqs| ==> AcceptedAt(seqs, i, subscribe)
  }

  lemma BoundAppend(seqs: seq<Sequence>, i: nat)
    requires i < |seqs|
    ensures Bound(seqs[..i + 1]) == Bound(seqs[..i]) + (if seqs[i].result.Some? then {seqs[i].result.value.name} else {})
  {
    var a, b := seqs[..i], seqs[..i + 1];
    forall x | x in Bound(a) ensures x in Bound(b) {
      var j :| 0 <= j < |a| && a[j].result.Some? && a[j].result.value.name == x;
      assert b[j] == a[j];
    }
    forall x | x in Bound(b)
      ensures x in Bound(a) || (seqs[i].result.Some? && x == seqs[i].result.value.name)
    {
      var j :| 0 <= j < |b| && b[j].result.Some? && b[j].result.value.name == x;
      if j < i { assert a[j] == b[j]; }
    }
    if seqs[i].result.Some? { assert b[i] == seqs[i]; }
  }

  method CheckInputs(s: Sequence, index: nat, declared: set<string>) returns (errs: seq<FlowError>)
    ensures forall e :: e in errs <==>
      || (exists k, x :: k in s.inputs && x in InputRefs(s, s.inputs[k]) && x !in declared && e == Undeclared(index, x))
      || (exists k :: k in s.inputs && IsConfig(s.inputs[k]) && e == ConfigInput(index, k))
      || (exists k :: k in s.inputs && !IsConfig(s.inputs[k]) && IsPublishedQuery(s, s.inputs[k]) && e == QueryInPublish(index, k))
  {
    errs := [];
    var rest := s.inputs.Keys;
    while rest != {}
      invariant rest <= s.inputs.Keys
      invariant forall e :: e in errs <==>
        || (exists k, x :: k in s.inputs.Keys - rest && x in InputRefs(s, s.inputs[k]) && x !in declared && e == Undeclared(index, x))
        || (exists k :: k in s.inputs.Keys - rest && IsConfig(s.inputs[k]) && e == ConfigInput(index, k))
        || (exists k :: k in s.inputs.Keys - rest && !IsConfig(s.inputs[k]) && IsPublishedQuery(s, s.inputs[k]) && e == QueryInPublish(index, k))
      decreases rest
    {
      var k :| k in rest;
      rest := rest - {k};
      var val := s.inputs[k];
      if IsLiteral(val) {
      } else if HasPrefix(val, "config.") {
        errs := errs + [ConfigInput(index, k)];
      } else if IsPublishedQuery(s, val) {
        errs := errs + [QueryInPublish(index, k)];
      } else {
        var ref := RootVar(val);
        if ref !in {"request", "currentUser", "query", ""} && ref !in declared {
          errs := errs + [Undeclared(index, ref)];
          assert ref in InputRefs(s, s.inputs[k]);
        }
      }
    }
  }

  method CheckNames(names: set<string>, index: nat, declared: set<string>) returns (errs: seq<FlowError>)
    ensures forall e :: e in errs <==> exists x :: x in names && x !in declared && e == Undeclared(index, x)
  {
    errs := [];
    var rest := names;
    while rest != {}
      invariant rest <= names
      invariant forall e :: e in errs <==> exists x :: x in names - rest && x !in declared && e == Undeclared(index, x)
      decreases rest
    {
      var x :| x in rest;
      rest := rest - {x};
      if x !in declared {
        errs := errs + [Undeclared(index, x)];
      }
    }
  }

  method CheckSequence(s: Sequence, index: nat, declared: set<string>) returns (errs: seq<FlowError>)
    ensures forall e :: e in errs <==> e in ErrorsOf(s, index, declared)
  {
    var targetErrs: seq<FlowError> := [];
    if s.target != "" && RootVar(s.target) !in declared {
      targetErrs := [Undeclared(index, RootVar(s.target))];
    }
    var argErrs := CheckNames((set i | 0 <= i < |s.args| :: ArgVarRef(s.args[i])) - {""}, index, declared);
    var inputErrs := CheckInputs(s, index, declared);
    var fieldErrs := CheckNames(set k, x | k in s.fields && x in FieldRefs(s.fields[k]) :: x, index, declared);
    errs := targetErrs + argErrs + inputErrs + fieldErrs;
  }

  lemma DeclaredNext(seqs: seq<Sequence>, i: nat, subscribe: bool)
    requires i < |seqs|
    ensures DeclaredBefore(seqs, i + 1, subscribe) == DeclaredBefore(seqs, i, subscribe)
              + (if seqs[i].result.Some? then {seqs[i].result.value.name} else {})
  {
    BoundAppend(seqs, i);
  }

  lemma ErrorsCarryIndex(s: Sequence, index: nat, declared: set<string>)
    ensures forall e :: e in ErrorsOf(s, index, declared) ==> e.index == index
  {
  }

  lemma AcceptedIffNoError(seqs: seq<Sequence>, subscribe: bool)
    ensures FlowAccepted(seqs, subscribe) <==> forall e :: !IsFlowError(e, seqs, subscribe)
  {
    forall i | 0 <= i < |seqs| && !AcceptedAt(seqs, i, subscribe)
      ensures exists e :: IsFlowError(e, seqs, subscribe)
    {
      ErrorsCarryIndex(seqs[i], i, DeclaredBefore(seqs, i, subscribe));
      var e :| e in ErrorsOf(seqs[i], i, DeclaredBefore(seqs, i, subscribe));
      assert IsFlowError(e, seqs, subscribe);
    }
    assert forall e :: IsFlowError(e, seqs, subscribe) ==> !AcceptedAt(seqs, e.index, subscribe);
  }

  // ----- what is reported, in the words of the source language -----

  /** A name that may be referred to at sequence `i`: the current user, in a subscriber the message, or the result of
      an earlier sequence. */
  predicate Usable(seqs: seq<Sequence>, i: nat, subscribe: bool, x: string)
    requires i <= |seqs|
  {
    || x == "currentUser"
    || (subscribe && x == "message")
    || exists j :: 0 <= j < i && seqs[j].result.Some? && seqs[j].result.value.name == x
  }

  /** An input: a literal, `request`, `query` or something of them, or a usable name; but no config, and no query in
      a @publish. */
  predicate GoodInput(seqs: seq<Sequence>, i: nat, subscribe: bool, val: string)
    requires i < |seqs|
  {
    || (val != "" && val[0] == '"')
    || (!HasPrefix(val, "config.")
        && !(seqs[i].kind == Publish && (val == "query" || HasPrefix(val, "query.")))
        && (RootVar(val) in {"request", "query", ""} || Usable(seqs, i, subscribe, RootVar(val))))
  }

  predicate GoodField(seqs: seq<Sequence>, i: nat, subscribe: bool, val: string)
    requires i < |seqs|
  {
    (val != "" && val[0] == '"') || RootVar(val) == "" || Usable(seqs, i, subscribe, RootVar(val))
  }

  predicate GoodArg(seqs: seq<Sequence>, i: nat, subscribe: bool, a: Arg)
    requires i < |seqs|
  {
    a.literal != "" || a.source in {"request", "query", ""} || Usable(seqs, i, subscribe, a.source)
  }

  predicate GoodSequence(seqs: seq<Sequence>, i: nat, subscribe: bool)
    requires i < |seqs|
  {
    var s := seqs[i];
    && (s.target != "" ==> Usable(seqs, i, subscribe, RootVar(s.target)))
    && (forall k :: k in s.inputs ==> GoodInput(seqs, i, subscribe, s.inputs[k]))
    && (forall k :: k in s.fields ==> GoodField(seqs, i, subscribe, s.fields[k]))
    && (forall a :: a in s.args ==> GoodArg(seqs, i, subscribe, a))
  }

  lemma UsableIsDeclared(seqs: seq<Sequence>, i: nat, subscribe: bool, x: string)
    requires i <= |seqs|
    ensures x in DeclaredBefore(seqs, i, subscribe) <==> Usable(seqs, i, subscribe, x)
  {
    if Usable(seqs, i, subscribe, x) && x !in {"currentUser", "message"} {
      var j :| 0 <= j < i && seqs[j].result.Some? && seqs[j].result.value.name == x;
      assert seqs[..i][j] == seqs[j];
    }
    if x in Bound(seqs[..i]) {
      var j :| 0 <= j < |seqs[..i]| && seqs[..i][j].result.Some? && seqs[..i][j].result.value.name == x;
      assert seqs[..i][j] == seqs[j];
    }
  }

  lemma GoodInputMeans(seqs: seq<Sequence>, i: nat, subscribe: bool, val: string)
    requires i < |seqs|
    ensures GoodInput(seqs, i, subscribe, val) <==>
      !IsConfig(val) && !IsPublishedQuery(seqs[i], val) && InputRefs(seqs[i], val) <= DeclaredBefore(seqs, i, subscribe)
  {
    UsableIsDeclared(seqs, i, subscribe, RootVar(val));
    UsableIsDeclared(seqs, i, subscribe, "currentUser");
  }

  lemma GoodFieldMeans(seqs: seq<Sequence>, i: nat, subscribe: bool, val: string)
    requires i < |seqs|
    ensures GoodField(seqs, i, subscribe, val) <==> FieldRefs(val) <= DeclaredBefore(seqs, i, subscribe)
  {
    UsableIsDeclared(seqs, i, subscribe, RootVar(val));
  }

  lemma GoodArgMeans(seqs: seq<Sequence>, i: nat, subscribe: bool, a: Arg)
    requires i < |seqs|
    ensures GoodArg(seqs, i, subscribe, a) <==> ArgVarRef(a) == "" || ArgVarRef(a) in DeclaredBefore(seqs, i, subscribe)
  {
    UsableIsDeclared(seqs, i, subscribe, a.source);
  }

  /** A sequence is accepted exactly when it is good. */
  lemma AcceptedIsGood(seqs: seq<Sequence>, i: nat, subscribe: bool)
    requires i < |seqs|
    ensures AcceptedAt(seqs, i, subscribe) <==> GoodSequence(seqs, i, subscribe)
  {
    var s, declared := seqs[i], DeclaredBefore(seqs, i, subscribe);
    UsableIsDeclared(seqs, i, subscribe, RootVar(s.target));
    forall k | k in s.inputs { GoodInputMeans(seqs, i, subscribe, s.inputs[k]); }
    forall k | k in s.fields { GoodFieldMeans(seqs, i, subscribe, s.fields[k]); }
    forall a | a in s.args { GoodArgMeans(seqs, i, subscribe, a); }
    if AcceptedAt(seqs, i, subscribe) {
      NothingReported(s, i, declared);
    } else {
      SomethingReported(s, i, declared);
    }
  }

  lemma NothingReported(s: Sequence, i: nat, declared: set<string>)
    requires ErrorsOf(s, i, declared) == {}
    ensures s.target != "" ==> RootVar(s.target) in declared
    ensures forall a :: a in s.args ==> ArgVarRef(a) == "" || ArgVarRef(a) in declared
    ensures forall k :: k in s.inputs ==>
      !IsConfig(s.inputs[k]) && !IsPublishedQuery(s, s.inputs[k]) && InputRefs(s, s.inputs[k]) <= declared
    ensures forall k :: k in s.fields ==> FieldRefs(s.fields[k]) <= declared
  {
    assert forall x :: x in Refs(s) && x !in declared ==> Undeclared(i, x) in ErrorsOf(s, i, declared);
    assert forall k :: k in s.inputs && IsConfig(s.inputs[k]) ==> ConfigInput(i, k) in ErrorsOf(s, i, declared);
    assert forall k :: k in s.inputs ==>
      (!IsConfig(s.inputs[k]) && IsPublishedQuery(s, s.inputs[k]) ==> QueryInPublish(i, k) in ErrorsOf(s, i, declared));
    forall a | a in s.args ensures ArgVarRef(a) == "" || ArgVarRef(a) in declared {
      var j :| 0 <= j < |s.args| && s.args[j] == a;
      assert ArgVarRef(s.args[j]) != "" ==> ArgVarRef(s.args[j]) in Refs(s);
    }
  }

  lemma SomethingReported(s: Sequence, i: nat, declared: set<string>)
    requires ErrorsOf(s, i, declared) != {}
    ensures
      || (s.target != "" && RootVar(s.target) !in declared)
      || (exists a :: a in s.args && ArgVarRef(a) != "" && ArgVarRef(a) !in declared)
      || (exists k :: k in s.inputs
            && !(!IsConfig(s.inputs[k]) && !IsPublishedQuery(s, s.inputs[k]) && InputRefs(s, s.inputs[k]) <= declared))
      || (exists k :: k in s.fields && !(FieldRefs(s.fields[k]) <= declared))
  {
    var e :| e in ErrorsOf(s, i, declared);
    match e
    case Undeclared(_, x) =>
      if j :| 0 <= j < |s.args| && ArgVarRef(s.args[j]) == x && x != "" {
        assert s.args[j] in s.args;
      }
    case ConfigInput(_, k) =>
    case QueryInPublish(_, k) =>
  }

  /** The function is accepted exactly when all its sequences are good. */
  lemma AcceptedMeans(seqs: seq<Sequence>, subscribe: bool)
    ensures FlowAccepted(seqs, subscribe) <==> forall i :: 0 <= i < |seqs| ==> GoodSequence(seqs, i, subscribe)
  {
    forall i | 0 <= i < |seqs| { AcceptedIsGood(seqs, i, subscribe); }
    if FlowAccepted(seqs, subscribe) {
      forall i | 0 <= i < |seqs| ensures GoodSequence(seqs, i, subscribe) { assert AcceptedAt(seqs, i, subscribe); }
    }
  }

  /** A sequence refers to a name: as the root of its target, of an input or of a field, or as an argument. */
  predicate RefersTo(s: Sequence, x: string) {
    || (s.target != "" && RootVar(s.target) == x)
    || (exists a :: a in s.args && a.literal == "" && a.source == x && x !in {"request", "currentUser", "query", ""})
    || (exists k :: k in s.inputs && !(s.inputs[k] != "" && s.inputs[k][0] == '"') && !HasPrefix(s.inputs[k], "config.")
          && !(s.kind == Publish && (s.inputs[k] == "query" || HasPrefix(s.inputs[k], "query.")))
          && RootVar(s.inputs[k]) == x && x !in {"request", "currentUser", "query", ""})
    || (exists k :: k in s.fields && !(s.fields[k] != "" && s.fields[k][0] == '"') && RootVar(s.fields[k]) == x && x != "")
  }

  lemma RefersMeans(s: Sequence, x: string)
    ensures x in Refs(s) <==> RefersTo(s, x)
  {
    if a :| a in s.args && ArgVarRef(a) == x && x != "" {
      var j :| 0 <= j < |s.args| && s.args[j] == a;
      assert ArgVarRef(s.args[j]) == x;
    }
    if k :| k in s.inputs && x in InputRefs(s, s.inputs[k]) {
    }
    if k :| k in s.fields && x in FieldRefs(s.fields[k]) {
    }
  }

  /** What each report says. */
  lemma ReportMeans(seqs: seq<Sequence>, subscribe: bool, i: nat, name: string)
    ensures IsFlowError(Undeclared(i, name), seqs, subscribe) <==>
      i < |seqs| && RefersTo(seqs[i], name) && !Usable(seqs, i, subscribe, name)
    ensures IsFlowError(ConfigInput(i, name), seqs, subscribe) <==>
      i < |seqs| && name in seqs[i].inputs && HasPrefix(seqs[i].inputs[name], "config.")
    ensures IsFlowError(QueryInPublish(i, name), seqs, subscribe) <==>
      i < |seqs| && name in seqs[i].inputs && seqs[i].kind == Publish
      && (seqs[i].inputs[name] == "query" || HasPrefix(seqs[i].inputs[name], "query."))
  {
    if i < |seqs| {
      RefersMeans(seqs[i], name);
      UsableIsDeclared(seqs, i, subscribe, name);
    }
  }

  /** validateVariableFlow reports exactly the references to names that no earlier sequence declares,
      the config inputs and the published queries. */
  method ValidateVariableFlow(seqs: seq<Sequence>, subscribe: bool) returns (errs: seq<FlowError>)
    ensures forall e :: e in errs <==> IsFlowError(e, seqs, subscribe)
    ensures errs == [] <==> FlowAccepted(seqs, subscribe)
    ensures errs == [] <==> forall i :: 0 <= i < |seqs| ==> GoodSequence(seqs, i, subscribe)
  {
    errs := [];
    var declared := {"currentUser"};
    if subscribe {
      declared := declared + {"message"};
    }
    assert Bound(seqs[..0]) == {};
    for i := 0 to |seqs|
      invariant declared == DeclaredBefore(seqs, i, subscribe)
      invariant forall e :: e in errs <==> e.index < i && IsFlowError(e, seqs, subscribe)
    {
      var found := CheckSequence(seqs[i], i, declared);
      ErrorsCarryIndex(seqs[i], i, declared);
      DeclaredNext(seqs, i, subscribe);
      errs := errs + found;
      if seqs[i].result.Some? {
        declared := declared + {seqs[i].result.value.name};
      }
    }
    AcceptedIffNoError(seqs, subscribe);
    AcceptedMeans(seqs, subscribe);
    if errs != [] {
      assert errs[0] in errs;
    }
  }

  /** What acceptance means for one sequence. */
  lemma AcceptedSequence(seqs: seq<Sequence>, subscribe: bool, i: nat)
    requires FlowAccepted(seqs, subscribe) && i < |seqs|
    ensures Refs(seqs[i]) <= DeclaredBefore(seqs, i, subscribe)
    ensures forall k :: k in seqs[i].inputs ==> !IsConfig(seqs[i].inputs[k]) && !IsPublishedQuery(seqs[i], seqs[i].inputs[k])
  {
    var s, declared := seqs[i], DeclaredBefore(seqs, i, subscribe);
    assert AcceptedAt(seqs, i, subscribe);
    assert forall x :: x in Refs(s) && x !in declared ==> Undeclared(i, x) in ErrorsOf(s, i, declared);
    assert forall k :: k in s.inputs && IsConfig(s.inputs[k]) ==> ConfigInput(i, k) in ErrorsOf(s, i, declared);
    assert forall k :: k in s.inputs ==>
      (!IsConfig(s.inputs[k]) && IsPublishedQuery(s, s.inputs[k]) ==> QueryInPublish(i, k) in ErrorsOf(s, i, declared));
  }

  /** validateReservedSourceConflict */
  predicate NoReservedResult(seqs: seq<Sequence>) {
    Bound(seqs) !! {"request", "currentUser", "config", "query", "message"}
  }
}
