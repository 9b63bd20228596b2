/** The stale-data analysis: which response fields are warned about, as a loop over two maps and as a
    statement about the trace of sequences. */
module StaleResponse {
  import opened Text
  import opened SequenceDsl

  /** A warning: the response's position and the field. */
  datatype Warning = Warning(index: nat, field: string)

  // ----- the statement about the trace -----

  predicate Fetches(s: Sequence) {
    s.kind == Get && s.result.Some? && s.model != ""
  }

  predicate Changes(s: Sequence) {
    (s.kind == Put || s.kind == Delete) && s.model != ""
  }

  predicate Touches(s: Sequence, m: string) {
    (Fetches(s) || Changes(s)) && ModelName(s.model) == m
  }

  predicate Binds(s: Sequence, v: string) {
    Fetches(s) && s.result.value.name == v
  }

  /** The latest fetch before i that binds v. */
  function LastBinder(seqs: seq<Sequence>, i: nat, v: string): (j: Option<nat>)
    requires i <= |seqs|
    ensures j.Some? ==> j.value < i && Binds(seqs[j.value], v)
  {
    if i == 0 then None else if Binds(seqs[i - 1], v) then Some(i - 1) else LastBinder(seqs, i - 1, v)
  }

  /** The latest fetch of or change to model m before i. */
  function LastTouch(seqs: seq<Sequence>, i: nat, m: string): (j: Option<nat>)
    requires i <= |seqs|
    ensures j.Some? ==> j.value < i && Touches(seqs[j.value], m)
  {
    if i == 0 then None else if Touches(seqs[i - 1], m) then Some(i - 1) else LastTouch(seqs, i - 1, m)
  }

  /** v holds data of a model that was changed after it was last fetched. */
  predicate StaleVar(seqs: seq<Sequence>, i: nat, v: string)
    requires i <= |seqs|
  {
    var j := LastBinder(seqs, i, v);
    j.Some? && IsChanged(seqs, i, ModelName(seqs[j.value].model))
  }

  predicate IsChanged(seqs: seq<Sequence>, i: nat, m: string)
    requires i <= |seqs|
  {
    var k := LastTouch(seqs, i, m);
    k.Some? && Changes(seqs[k.value])
  }

  predicate IsStale(seqs: seq<Sequence>, i: nat, field: string) {
    && i < |seqs| && seqs[i].kind == Response && !seqs[i].suppressWarn && field in seqs[i].fields
    && StaleVar(seqs, i, RootVar(seqs[i].fields[field]))
  }

  /** "Latest" means that nothing of the kind comes in between. */
  lemma {:induction false} LatestIsLast(seqs: seq<Sequence>, i: nat, j: nat, v: string, m: string)
    requires i <= |seqs|
    ensures LastBinder(seqs, i, v) == Some(j) <==> j < i && Binds(seqs[j], v) && forall k :: j < k < i ==> !Binds(seqs[k], v)
    ensures LastTouch(seqs, i, m) == Some(j) <==> j < i && Touches(seqs[j], m) && forall k :: j < k < i ==> !Touches(seqs[k], m)
    decreases i
  {
    if i > 0 {
      LatestIsLast(seqs, i - 1, j, v, m);
    }
  }

  // ----- the two maps -----

  function Bind(vars: map<string, string>, s: Sequence): map<string, string> {
    if Fetches(s) then vars[s.result.value.name := ModelName(s.model)] else vars
  }

  function Mark(mutated: map<string, bool>, s: Sequence): map<string, bool> {
    if Fetches(s) || Changes(s) then mutated[ModelName(s.model) := Changes(s)] else mutated
  }

  ghost predicate TracksVars(seqs: seq<Sequence>, i: nat, vars: map<string, string>)
    requires i <= |seqs|
  {
    forall v :: (v in vars <==> LastBinder(seqs, i, v).Some?)
                && (v in vars ==> vars[v] == ModelName(seqs[LastBinder(seqs, i, v).value].model))
  }

  ghost predicate TracksModels(seqs: seq<Sequence>, i: nat, mutated: map<string, bool>)
    requires i <= |seqs|
  {
    forall m :: (m in mutated && mutated[m]) <==> IsChanged(seqs, i, m)
  }

  lemma VarsStep(seqs: seq<Sequence>, i: nat, vars: map<string, string>)
    requires i < |seqs| && TracksVars(seqs, i, vars)
    ensures TracksVars(seqs, i + 1, Bind(vars, seqs[i]))
  {
  }

  lemma ModelsStep(seqs: seq<Sequence>, i: nat, mutated: map<string, bool>)
    requires i < |seqs| && TracksModels(seqs, i, mutated)
    ensures TracksModels(seqs, i + 1, Mark(mutated, seqs[i]))
  {
    var after := Mark(mutated, seqs[i]);
    forall m ensures (m in after && after[m]) <==> IsChanged(seqs, i + 1, m) {
      assert (m in mutated && mutated[m]) <==> IsChanged(seqs, i, m);
    }
  }

  // ----- the analysis -----

  /** The fields of one response, visited in no particular order. */
  method CheckFields(seqs: seq<Sequence>, i: nat, vars: map<string, string>, mutated: map<string, bool>)
    returns (warnings: seq<Warning>)
    requires i < |seqs| && TracksVars(seqs, i, vars) && TracksModels(seqs, i, mutated) && seqs[i].kind == Response && !seqs[i].suppressWarn
    ensures forall w :: w in warnings <==> w.index == i && IsStale(seqs, i, w.field)
    ensures forall a, b :: 0 <= a < b < |warnings| ==> warnings[a] != warnings[b]
  {
    warnings := [];
    var left := seqs[i].fields.Keys;
    while left != {}
      invariant left <= seqs[i].fields.Keys
      invariant forall w :: w in warnings <==> w.index == i && w.field !in left && IsStale(seqs, i, w.field)
      invariant forall a, b :: 0 <= a < b < |warnings| ==> warnings[a] != warnings[b]
      decreases |left|
    {
      var field :| field in left;
      var ref := RootVar(seqs[i].fields[field]);
      if ref in vars && vars[ref] in mutated && mutated[vars[ref]] {
        assert Warning(i, field) !in warnings;
        warnings := warnings + [Warning(i, field)];
      }
      left := left - {field};
    }
  }

  /** Exactly the stale fields of the responses before i. */
  ghost predicate Reported(seqs: seq<Sequence>, i: nat, warnings: seq<Warning>) {
    forall w :: w in warnings <==> w.index < i && IsStale(seqs, w.index, w.field)
  }

  ghost predicate OnceInOrder(warnings: seq<Warning>) {
    forall a, b :: 0 <= a < b < |warnings| ==> warnings[a] != warnings[b] && warnings[a].index <= warnings[b].index
  }

  lemma ReportSkips(seqs: seq<Sequence>, i: nat, warnings: seq<Warning>)
    requires i < |seqs| && Reported(seqs, i, warnings) && (seqs[i].kind != Response || seqs[i].suppressWarn)
    ensures Reported(seqs, i + 1, warnings)
  {
  }

  lemma ReportAdds(seqs: seq<Sequence>, i: nat, warnings: seq<Warning>, found: seq<Warning>)
    requires i < |seqs| && Reported(seqs, i, warnings) && OnceInOrder(warnings)
    requires forall w :: w in found <==> w.index == i && IsStale(seqs, i, w.field)
    requires forall a, b :: 0 <= a < b < |found| ==> found[a] != found[b]
    ensures Reported(seqs, i + 1, warnings + found) && OnceInOrder(warnings + found)
  {
    var all := warnings + found;
    assert forall w :: w in all <==> w in warnings || w in found;
    forall a, b | 0 <= a < b < |all| ensures all[a] != all[b] && all[a].index <= all[b].index {
      assert a < |warnings| ==> all[a] in warnings;
      assert a >= |warnings| ==> all[a] in found;
      assert b < |warnings| ==> all[b] in warnings;
      assert b >= |warnings| ==> all[b] in found;
    }
  }

  /** validateStaleResponse: warns once about every stale field and about nothing else, response by response. */
  method ValidateStaleResponse(seqs: seq<Sequence>) returns (warnings: seq<Warning>)
    ensures forall w :: w in warnings <==> w.index < |seqs| && IsStale(seqs, w.index, w.field)
    ensures OnceInOrder(warnings)
  {
    warnings := [];
    var vars: map<string, string>, mutated: map<string, bool> := map[], map[];
    for i := 0 to |seqs|
      invariant TracksVars(seqs, i, vars) && TracksModels(seqs, i, mutated)
      invariant Reported(seqs, i, warnings) && OnceInOrder(warnings)
    {
      VarsStep(seqs, i, vars);
      ModelsStep(seqs, i, mutated);
      var s := seqs[i];
      if s.kind == Response && !s.suppressWarn {
        var found := CheckFields(seqs, i, vars, mutated);
        ReportAdds(seqs, i, warnings, found);
        warnings := warnings + found;
      } else {
        ReportSkips(seqs, i, warnings);
      }
      vars, mutated := Update(s, vars, mutated);
    }
  }

  /** The cases of the switch that update the two maps. */
  method Update(s: Sequence, vars: map<string, string>, mutated: map<string, bool>)
    returns (vars': map<string, string>, mutated': map<string, bool>)
    ensures vars' == Bind(vars, s) && mutated' == Mark(mutated, s)
  {
    vars', mutated' := vars, mutated;
    if s.kind == Get {
      if s.result.Some? && s.model != "" {
        vars' := vars'[s.result.value.name := ModelName(s.model)];
        mutated' := mutated'[ModelName(s.model) := false];
      }
    } else if s.kind == Put || s.kind == Delete {
      if s.model != "" {
        mutated' := mutated'[ModelName(s.model) := true];
      }
    }
  }

  // ----- what the analysis says about programs -----

  /** A change of the model right after a fetch, whatever variable the fetch bound, brings the warning. */
  lemma ChangeWarns(seqs: seq<Sequence>, i: nat, field: string)
    requires 1 < i < |seqs| && field in seqs[i].fields && seqs[i].kind == Response && !seqs[i].suppressWarn
    requires Binds(seqs[i - 2], RootVar(seqs[i].fields[field]))
    requires Changes(seqs[i - 1]) && ModelName(seqs[i - 1].model) == ModelName(seqs[i - 2].model)
    ensures IsStale(seqs, i, field)
  {
    LatestIsLast(seqs, i, i - 2, RootVar(seqs[i].fields[field]), "");
    LatestIsLast(seqs, i, i - 1, "", ModelName(seqs[i - 2].model));
  }

  // ----- staleness in terms of the sequences alone -----

  /** Sequence `j` is the last @get before `i` that puts its result into `v`. */
  predicate LatestGet(seqs: seq<Sequence>, i: nat, j: nat, v: string)
    requires i <= |seqs|
  {
    && j < i && seqs[j].kind == Get && seqs[j].model != "" && seqs[j].result.Some? && seqs[j].result.value.name == v
    && forall k :: j < k < i && seqs[k].kind == Get && seqs[k].model != "" && seqs[k].result.Some? ==> seqs[k].result.value.name != v
  }

  /** Sequence `k` puts or deletes the model, and no @get before `i` loads it again. */
  predicate ChangedSince(seqs: seq<Sequence>, i: nat, k: nat, m: string)
    requires i <= |seqs|
  {
    && k < i && seqs[k].kind in {Put, Delete} && seqs[k].model != "" && ModelName(seqs[k].model) == m
    && forall l :: k < l < i && seqs[l].kind == Get && seqs[l].model != "" && seqs[l].result.Some? ==> ModelName(seqs[l].model) != m
  }

  lemma {:induction false} ChangedExact(seqs: seq<Sequence>, i: nat, m: string)
    requires i <= |seqs|
    ensures IsChanged(seqs, i, m) <==> exists k: nat :: ChangedSince(seqs, i, k, m)
    decreases i
  {
    if i > 0 {
      var n := i - 1;
      ChangedExact(seqs, n, m);
      if Touches(seqs[n], m) && Changes(seqs[n]) {
        assert ChangedSince(seqs, i, n, m);
      } else if !Touches(seqs[n], m) {
        forall k: nat | k < n ensures ChangedSince(seqs, i, k, m) <==> ChangedSince(seqs, n, k, m) { }
        if k: nat :| ChangedSince(seqs, n, k, m) { assert ChangedSince(seqs, i, k, m); }
      }
    }
  }

  /** A field is warned about exactly when its response does not suppress it and the model that its variable was last
      loaded from was put or deleted without being loaded again. */
  lemma StaleExact(seqs: seq<Sequence>, i: nat, field: string)
    ensures IsStale(seqs, i, field) <==>
      && i < |seqs| && seqs[i].kind == Response && !seqs[i].suppressWarn && field in seqs[i].fields
      && exists j: nat, k: nat :: LatestGet(seqs, i, j, RootVar(seqs[i].fields[field])) && ChangedSince(seqs, i, k, ModelName(seqs[j].model))
  {
    if i < |seqs| && field in seqs[i].fields {
      var v := RootVar(seqs[i].fields[field]);
      forall j: nat | j < i ensures LatestGet(seqs, i, j, v) <==> LastBinder(seqs, i, v) == Some(j) {
        LatestIsLast(seqs, i, j, v, "");
      }
      forall j: nat | j < i { ChangedExact(seqs, i, ModelName(seqs[j].model)); }
    }
  }
}
