/** How the generator tracks err and total, against where Go really has them; and closed forms a caller can check. */
module HandlerTracking {
  import opened Text
  import opened SequenceDsl
  import opened GoBody
  import opened CallOrder
  import opened HandlerGen
  import opened VariableFlow
  import opened SourceRules

  // ----- sequence by sequence -----

  /** The sequence binds err at function level. */
  predicate BindsErr(s: Sequence) {
    s.kind in {Get, Post, Put, Delete, Publish} || (s.kind == Call && s.result.Some?)
  }

  /** The sequence binds err only inside an `if`. */
  predicate BindsErrInside(s: Sequence) {
    s.kind == Auth || (s.kind == Call && s.result.None?)
  }

  predicate Named(s: Sequence, used: set<string>) {
    s.result.Some? && s.result.value.name in used
  }

  /** The code of the sequence binds total. */
  predicate BindsTotal(s: Sequence) {
    s.kind == Get && HasTotal(s)
  }

  /** A response that lists its fields shows the total of an earlier list query. */
  predicate ListsFields(s: Sequence) {
    s.kind == Response && s.target == ""
  }

  /** How the code of one sequence stands to err: `inScope` is whether Go has err in scope, `tracked` what the
      generator thinks. A `:=` needs something new: the result, err or total. */
  predicate ErrTrackedAt(s: Sequence, inScope: bool, tracked: bool, used: set<string>) {
    if BindsErr(s) then Named(s, used) || inScope == tracked || (BindsTotal(s) && !tracked)
    else BindsErrInside(s) ==> inScope || !tracked
  }

  predicate ErrTracked(seqs: seq<Sequence>, inScope: bool, tracked: bool, used: set<string>) {
    seqs == [] ||
      (ErrTrackedAt(seqs[0], inScope, tracked, used)
       && (BindsErr(seqs[0]) || ErrTracked(seqs[1..], inScope, tracked || BindsErrInside(seqs[0]), used)))
  }

  /** How it stands to total: `total` is whether Go has it in scope, `hasTotal` what the generator thinks.
      A list query that is assigned with `=` does not introduce it. */
  predicate TotalTrackedAt(s: Sequence, declared: set<string>, tracked: bool, total: bool, hasTotal: bool, used: set<string>) {
    && (BindsTotal(s) ==> total || if Named(s, used) then s.result.value.name !in declared else !tracked)
    && (ListsFields(s) && hasTotal ==> total)
  }

  predicate TotalTracked(seqs: seq<Sequence>, declared: set<string>, tracked: bool, total: bool, hasTotal: bool, used: set<string>) {
    seqs == [] ||
      (TotalTrackedAt(seqs[0], declared, tracked, total, hasTotal || HasTotal(seqs[0]), used)
       && TotalTracked(seqs[1..], DeclaredAfter(seqs[0], declared), tracked || TouchesErr(seqs[0]),
                       total || BindsTotal(seqs[0]), hasTotal || HasTotal(seqs[0]), used))
  }

  lemma {:induction seqs} TrackedInStep(seqs: seq<Sequence>, used: set<string>)
    ensures ErrTracked(seqs, true, true, used)
  {
  }

  lemma ErrTrackedTurn(seqs: seq<Sequence>, inScope: bool, tracked: bool, used: set<string>)
    requires seqs != []
    ensures
      var s := seqs[0];
      ErrTracked(seqs, inScope, tracked, used) <==>
      ErrTrackedAt(s, inScope, tracked, used) && ErrTracked(seqs[1..], inScope || BindsErr(s), tracked || TouchesErr(s), used)
  {
    if BindsErr(seqs[0]) {
      TrackedInStep(seqs[1..], used);
    } else {
      assert TouchesErr(seqs[0]) == BindsErrInside(seqs[0]);
    }
  }

  // ----- closed forms -----

  /** Position of the first sequence that binds err at function level, or |seqs|. */
  function FirstBinding(seqs: seq<Sequence>): (b: nat)
    ensures b <= |seqs|
    ensures forall i :: 0 <= i < b ==> !BindsErr(seqs[i])
    ensures b < |seqs| ==> BindsErr(seqs[b])
  {
    if seqs == [] || BindsErr(seqs[0]) then 0 else 1 + FirstBinding(seqs[1..])
  }

  /** Position of the first @get that is a list query, or |seqs|. */
  function FirstTotal(seqs: seq<Sequence>): (g: nat)
    ensures g <= |seqs|
    ensures forall i :: 0 <= i < g ==> !BindsTotal(seqs[i])
    ensures g < |seqs| ==> BindsTotal(seqs[g])
  {
    if seqs == [] || BindsTotal(seqs[0]) then 0 else 1 + FirstTotal(seqs[1..])
  }

  /** Number of @auth and result-less @call sequences. */
  function InsideCount(seqs: seq<Sequence>): nat {
    if seqs == [] then 0 else (if BindsErrInside(seqs[0]) then 1 else 0) + InsideCount(seqs[1..])
  }

  /** What a caller can check on the sequences: before the first function-level binding of err, at most one
      if-scoped check when err is not declared, and none when the generator already takes it for declared;
      and that binding introduces a named result, or the generator's view of err is right there, or it is a
      list query and nothing touched err. */
  predicate ErrDiscipline(seqs: seq<Sequence>, inScope: bool, tracked: bool, used: set<string>) {
    var b := FirstBinding(seqs);
    var inside := InsideCount(seqs[..b]);
    && (inScope || inside == 0 || (!tracked && inside == 1))
    && (b == |seqs| || Named(seqs[b], used) || inScope == (tracked || inside > 0)
        || (BindsTotal(seqs[b]) && !tracked && inside == 0))
  }

  predicate Touched(seqs: seq<Sequence>) {
    exists i :: 0 <= i < |seqs| && TouchesErr(seqs[i])
  }

  /** The list query `g` introduces total: its result is named and new, or it is not named and nothing
      touched err before. */
  predicate TotalIntroduced(seqs: seq<Sequence>, g: nat, declared: set<string>, tracked: bool, used: set<string>)
    requires g < |seqs| && seqs[g].result.Some?
  {
    if Named(seqs[g], used) then seqs[g].result.value.name !in declared + Bound(seqs[..g]) else !(tracked || Touched(seqs[..g]))
  }

  /** What a caller can check: the first @get list query introduces total, and no response before it lists
      fields after a @post or @call that queries a list; for sequences that come after others. */
  predicate TotalDisciplineAfter(seqs: seq<Sequence>, declared: set<string>, tracked: bool, hasTotal: bool, used: set<string>) {
    var g := FirstTotal(seqs);
    && (g < |seqs| ==> TotalIntroduced(seqs, g, declared, tracked, used))
    && forall j :: 0 <= j < g && ListsFields(seqs[j]) ==> !(hasTotal || Counted(seqs[..j + 1]))
  }

  predicate TotalDiscipline(seqs: seq<Sequence>, tracked: bool, used: set<string>) {
    TotalDisciplineAfter(seqs, {}, tracked, false, used)
  }

  /** The exact condition: err and total are declared where the generator thinks they are. */
  predicate Disciplined(job: Job) {
    && ErrDiscipline(job.seqs, ErrInScopeAtStart(job), ErrDeclaredAtStart(job), UsedVars(job.seqs))
    && TotalDiscipline(job.seqs, ErrDeclaredAtStart(job), UsedVars(job.seqs))
  }

  // ----- they are the same -----

  lemma {:induction false} ErrDisciplineExact(seqs: seq<Sequence>, inScope: bool, tracked: bool, used: set<string>)
    ensures ErrTracked(seqs, inScope, tracked, used) <==> ErrDiscipline(seqs, inScope, tracked, used)
  {
    var b := FirstBinding(seqs);
    if seqs == [] {
    } else if BindsErr(seqs[0]) {
      assert seqs[..b] == [];
    } else {
      assert seqs[..b][1..] == seqs[1..][..b - 1];
      assert b < |seqs| ==> seqs[b] == seqs[1..][b - 1];
      ErrDisciplineExact(seqs[1..], inScope, tracked || BindsErrInside(seqs[0]), used);
    }
  }

  lemma {:induction false} TotalKept(seqs: seq<Sequence>, declared: set<string>, tracked: bool, hasTotal: bool, used: set<string>)
    ensures TotalTracked(seqs, declared, tracked, true, hasTotal, used)
  {
    if seqs != [] {
      TotalKept(seqs[1..], DeclaredAfter(seqs[0], declared), tracked || TouchesErr(seqs[0]), hasTotal || HasTotal(seqs[0]), used);
    }
  }

  lemma PrefixesOf(seqs: seq<Sequence>, i: nat)
    requires 1 <= i <= |seqs|
    ensures Bound(seqs[..i]) == (if seqs[0].result.Some? then {seqs[0].result.value.name} else {}) + Bound(seqs[1..][..i - 1])
    ensures Touched(seqs[..i]) <==> TouchesErr(seqs[0]) || Touched(seqs[1..][..i - 1])
    ensures Counted(seqs[..i]) <==> HasTotal(seqs[0]) || Counted(seqs[1..][..i - 1])
  {
    var all, rest := seqs[..i], seqs[1..][..i - 1];
    assert all[1..] == rest && all[0] == seqs[0];
    BoundFirst(all);
    assert forall k :: 0 < k < i ==> all[k] == rest[k - 1];
    assert forall k :: 0 <= k < i - 1 ==> rest[k] == all[k + 1];
  }

  lemma FirstIntroduces(seqs: seq<Sequence>, declared: set<string>, tracked: bool, hasTotal: bool, used: set<string>)
    requires seqs != [] && BindsTotal(seqs[0])
    ensures TotalDisciplineAfter(seqs, declared, tracked, hasTotal, used) <==>
            TotalTrackedAt(seqs[0], declared, tracked, false, hasTotal || HasTotal(seqs[0]), used)
  {
    assert FirstTotal(seqs) == 0 && Bound(seqs[..0]) == {} && !Touched(seqs[..0]);
  }

  lemma LaterIntroduces(seqs: seq<Sequence>, declared: set<string>, tracked: bool, used: set<string>)
    requires seqs != [] && !BindsTotal(seqs[0]) && FirstTotal(seqs) < |seqs|
    ensures
      var s, g := seqs[0], FirstTotal(seqs);
      g >= 1 && FirstTotal(seqs[1..]) == g - 1 &&
      (TotalIntroduced(seqs, g, declared, tracked, used) <==>
       TotalIntroduced(seqs[1..], g - 1, DeclaredAfter(s, declared), tracked || TouchesErr(s), used))
  {
    var g := FirstTotal(seqs);
    assert seqs[1..][g - 1] == seqs[g];
    PrefixesOf(seqs, g);
  }

  lemma ResponsesLater(seqs: seq<Sequence>, g: nat, hasTotal: bool)
    requires 1 <= g <= |seqs|
    ensures
      var s, rest := seqs[0], seqs[1..];
      (forall j :: 0 <= j < g && ListsFields(seqs[j]) ==> !(hasTotal || Counted(seqs[..j + 1]))) <==>
      (ListsFields(s) ==> !(hasTotal || HasTotal(s)))
      && forall j :: 0 <= j < g - 1 && ListsFields(rest[j]) ==> !(hasTotal || HasTotal(s) || Counted(rest[..j + 1]))
  {
    var s, rest := seqs[0], seqs[1..];
    forall j | 0 <= j < g ensures Counted(seqs[..j + 1]) <==> HasTotal(s) || Counted(rest[..j]) { PrefixesOf(seqs, j + 1); }
    assert !Counted(rest[..0]);
    assert forall j :: 0 <= j < g - 1 ==> rest[j] == seqs[j + 1];
    assert forall j :: 0 < j < g ==> seqs[j] == rest[j - 1];
  }

  lemma LaterTotal(seqs: seq<Sequence>, declared: set<string>, tracked: bool, hasTotal: bool, used: set<string>)
    requires seqs != [] && !BindsTotal(seqs[0])
    ensures
      var s := seqs[0];
      TotalDisciplineAfter(seqs, declared, tracked, hasTotal, used) <==>
      TotalTrackedAt(s, declared, tracked, false, hasTotal || HasTotal(s), used)
      && TotalDisciplineAfter(seqs[1..], DeclaredAfter(s, declared), tracked || TouchesErr(s), hasTotal || HasTotal(s), used)
  {
    ResponsesLater(seqs, FirstTotal(seqs), hasTotal);
    if FirstTotal(seqs) < |seqs| {
      LaterIntroduces(seqs, declared, tracked, used);
    }
  }

  lemma {:induction false} TotalDisciplineExact(seqs: seq<Sequence>, declared: set<string>, tracked: bool, hasTotal: bool, used: set<string>)
    ensures TotalTracked(seqs, declared, tracked, false, hasTotal, used) <==>
            TotalDisciplineAfter(seqs, declared, tracked, hasTotal, used)
  {
    if seqs != [] {
      var s := seqs[0];
      if BindsTotal(s) {
        FirstIntroduces(seqs, declared, tracked, hasTotal, used);
        TotalKept(seqs[1..], DeclaredAfter(s, declared), tracked || TouchesErr(s), hasTotal || HasTotal(s), used);
      } else {
        LaterTotal(seqs, declared, tracked, hasTotal, used);
        TotalDisciplineExact(seqs[1..], DeclaredAfter(s, declared), tracked || TouchesErr(s), hasTotal || HasTotal(s), used);
      }
    }
  }


  /** Without list queries nothing is asked about total. */
  lemma NoTotalsNoQuestion(seqs: seq<Sequence>, tracked: bool, used: set<string>)
    requires forall i :: 0 <= i < |seqs| ==> !HasTotal(seqs[i])
    ensures TotalDiscipline(seqs, tracked, used)
  {
    assert FirstTotal(seqs) == |seqs|;
  }
}
