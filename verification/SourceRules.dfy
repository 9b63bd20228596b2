/** What the generator's results ask of the source: the shape of sequences, the form of values, and names that do not
    clash. */
module SourceRules {
  import opened Text
  import opened SequenceDsl
  import opened GoBody
  import opened CallOrder
  import opened HandlerGen
  import opened VariableFlow

  // ----- sequences and values -----

  /** Sequences as the parser builds them and the required-field check accepts them. */
  predicate WellShaped(s: Sequence) {
    && (s.result.Some? ==> s.kind in {Get, Post, Call})
    && (s.target != "" ==> s.kind in {Empty, Exists, Response})
    && (s.kind in {Empty, Exists} ==> s.target != "")
    && (s.inputs != map[] ==> s.kind !in {Empty, Exists, Response})
    && (s.fields != map[] ==> s.kind == Response && s.target == "")
    && s.args == []
  }

  /** Nothing is empty or starts with a dot. */
  predicate NonEmptyValues(s: Sequence) {
    && (forall k :: k in s.inputs ==> RootVar(s.inputs[k]) != "")
    && (forall k :: k in s.fields ==> IsLiteral(s.fields[k]) || RootVar(s.fields[k]) != "")
  }

  /** README's value format: a literal, `query`, or `source.Field`; `request` and `currentUser` need a field. */
  predicate DocumentedValue(val: string) {
    IsSourceValue(val) || RootVar(val) !in {"request", "currentUser", "query"}
  }

  predicate DocumentedValues(s: Sequence) {
    forall k :: k in s.inputs ==> DocumentedValue(s.inputs[k])
  }

  predicate ShowsCurrentUser(s: Sequence) {
    || (s.target != "" && RootVar(s.target) == "currentUser")
    || (exists k :: k in s.fields && RootVar(s.fields[k]) == "currentUser")
  }

  /** currentUser is only fetched for @auth and for inputs; a target or field that shows it needs one of those. */
  predicate CurrentUserFetched(job: Job) {
    if job.subscribe then !NeedsCurrentUser(job.seqs) && forall i :: 0 <= i < |job.seqs| ==> !ShowsCurrentUser(job.seqs[i])
    else NeedsCurrentUser(job.seqs) || forall i :: 0 <= i < |job.seqs| ==> !ShowsCurrentUser(job.seqs[i])
  }

  /** validateSubscribeRules, as far as inputs go. */
  predicate NoHttpSources(s: Sequence) {
    !HasQuery(s.inputs) && forall k :: k in s.inputs ==> !HasPrefix(s.inputs[k], "request.")
  }

  predicate RequestListed(job: Job) {
    RequestFields(job.seqs) <= ParamNames(job.symbols.pathParams) + ParamNames(job.raw)
  }

  // ----- names -----

  predicate Plain(name: string) {
    name != "" && '.' !in name && !IsLiteral(name)
  }

  function PathNames(params: seq<Param>, camel: string -> string): seq<string> {
    if params == [] then []
    else
      (if Converts(params[0]) then [camel(params[0].name) + "Str"] else [])
      + [camel(params[0].name)] + PathNames(params[1..], camel)
  }

  function RawNames(params: seq<Param>, camel: string -> string): seq<string> {
    if params == [] then [] else [camel(params[0].name)] + RawNames(params[1..], camel)
  }

  /** The four groups of variables an HTTP preamble declares, apart from err and tx. */
  function PathNamesOf(job: Job): seq<string> {
    PathNames(job.symbols.pathParams, job.camel)
  }

  function UserNames(job: Job): seq<string> {
    if NeedsCurrentUser(job.seqs) then ["currentUser"] else []
  }

  function RequestNames(job: Job): seq<string> {
    (if UsesJsonBody(job) then ["req"] else []) + RawNames(job.raw, job.camel)
  }

  function OptsNames(job: Job): seq<string> {
    if NeedsQueryOpts(job.seqs) then ["opts"] else []
  }

  function InputNames(job: Job): seq<string> {
    if job.subscribe then [] else PathNamesOf(job) + UserNames(job) + RequestNames(job) + OptsNames(job)
  }

  function FuncParams(subscribe: bool): set<string> {
    if subscribe then {"h", "ctx", "message"} else {"h", "c"}
  }

  /** Some list query makes the handler speak of total. */
  predicate Counted(seqs: seq<Sequence>) {
    exists i :: 0 <= i < |seqs| && HasTotal(seqs[i])
  }

  const RESERVED := {"err", "_"}

  /** Names the handler may declare for itself: total only with a list query, tx only with a write. */
  function OwnNames(seqs: seq<Sequence>): set<string> {
    RESERVED + (if Counted(seqs) then {"total"} else {}) + (if HasWrite(seqs) then {"tx"} else {})
  }

  /** No two variables of the handler share a name. */
  predicate DistinctVariables(job: Job) {
    && NoDuplicates(InputNames(job))
    && Elements(InputNames(job)) !! FuncParams(job.subscribe) + OwnNames(job.seqs)
    && Bound(job.seqs) !! Elements(InputNames(job)) + FuncParams(job.subscribe) + OwnNames(job.seqs)
    && (forall p :: p in ParamNames(job.symbols.pathParams) + ParamNames(job.raw) ==> Plain(job.camel(p)))
  }

  /** A function as the checks let it through, with a name of its own for every variable. */
  predicate AcceptedSource(job: Job) {
    && AllRender(job.seqs, job.subscribe)
    && (forall i :: 0 <= i < |job.seqs| ==> WellShaped(job.seqs[i]) && NonEmptyValues(job.seqs[i]))
    && FlowAccepted(job.seqs, job.subscribe) && NoReservedResult(job.seqs)
    && (job.subscribe ==> forall i :: 0 <= i < |job.seqs| ==> NoHttpSources(job.seqs[i]))
    && (!job.subscribe ==> RequestListed(job))
    && DistinctVariables(job)
  }

  /** Moreover its values have the documented form, and the current user is fetched where it is shown. */
  predicate SoundSource(job: Job) {
    && AcceptedSource(job)
    && (forall i :: 0 <= i < |job.seqs| ==> DocumentedValues(job.seqs[i]))
    && CurrentUserFetched(job)
  }

  // ----- what a sequence refers to -----

  /** Inputs whose values reach the generated code: @auth writes UserID and Role itself. */
  function PassedKeys(s: Sequence): set<string> {
    if s.kind == Auth then s.inputs.Keys - {"UserID", "Role"} else s.inputs.Keys
  }

  /** Variables of the function that the code of a sequence refers to. */
  function ReferredBy(s: Sequence): set<string> {
    (if s.target != "" then Reads(s.target) else {})
    + (set k | k in PassedKeys(s) && !IsSourceValue(s.inputs[k]) :: RootVar(s.inputs[k]))
    + ReadsOf(s.fields)
  }

  /** Request fields whose value the code of a sequence passes on. */
  function RequestPassedBy(s: Sequence): set<string> {
    set k | k in PassedKeys(s) && HasPrefix(s.inputs[k], "request.") :: s.inputs[k][8..]
  }

  predicate PassesQuery(s: Sequence) {
    exists k :: k in PassedKeys(s) && s.inputs[k] == "query"
  }

  /** Sources a sequence names as if they were variables: a bare `request`, `query.X`, a current user. */
  function SourcesNamed(s: Sequence): set<string> {
    ReferredBy(s) * {"request", "query", "currentUser"} + (if UsesCurrentUser(s) then {"currentUser"} else {})
  }

  /** The handler has a variable for each of them. */
  predicate SourcesDeclared(job: Job) {
    forall i :: 0 <= i < |job.seqs| ==> SourcesNamed(job.seqs[i]) <= Elements(InputNames(job))
  }

  // ----- what the preamble declares -----

  predicate AnyConverts(params: seq<Param>) {
    params != [] && (Converts(params[0]) || AnyConverts(params[1..]))
  }

  predicate AnyConvertsText(params: seq<Param>) {
    params != [] && (ConvertsText(params[0].goType) || AnyConvertsText(params[1..]))
  }

  /** Whether the parameter conversions really leave err declared at function level. */
  predicate PreambleBindsErr(job: Job) {
    !job.subscribe && (AnyConverts(job.symbols.pathParams) || (!UsesJsonBody(job) && AnyConvertsText(job.raw)))
  }

  /** Whether err is declared when the first sequence runs. */
  predicate ErrInScopeAtStart(job: Job) {
    HasWrite(job.seqs) || PreambleBindsErr(job)
  }

  /** Variables the code of a path parameter declares, apart from err. */
  function NameOf(p: Param, camel: string -> string): set<string> {
    if Converts(p) then {camel(p.name) + "Str", camel(p.name)} else {camel(p.name)}
  }

  // ----- lemmas about names -----

  lemma RootOfPath(root: string, rest: string)
    requires '.' !in root
    ensures RootVar(root + "." + rest) == root
  {
    CutConcat(root, '.', rest);
  }

  lemma ElementsConcat(a: seq<string>, b: seq<string>)
    ensures Elements(a + b) == Elements(a) + Elements(b)
  {
    forall x | x in Elements(a) ensures x in Elements(a + b) {
      var i :| 0 <= i < |a| && a[i] == x;
      assert (a + b)[i] == x;
    }
    forall x | x in Elements(b) ensures x in Elements(a + b) {
      var i :| 0 <= i < |b| && b[i] == x;
      assert (a + b)[|a| + i] == x;
    }
  }

  lemma ElementsOne(x: string)
    ensures Elements([x]) == {x}
  {
    assert [x][0] == x;
  }

  lemma ElementsFour(a: seq<string>, b: seq<string>, c: seq<string>, d: seq<string>)
    ensures Elements(a + b + c + d) == Elements(a) + Elements(b) + Elements(c) + Elements(d)
  {
    ElementsConcat(a + b + c, d);
    ElementsConcat(a + b, c);
    ElementsConcat(a, b);
  }

  lemma ElementsOptional(present: bool, x: string)
    ensures Elements(if present then [x] else []) == if present then {x} else {}
  {
    ElementsOne(x);
  }

  lemma DistinctConcat(a: seq<string>, b: seq<string>)
    requires NoDuplicates(a + b)
    ensures NoDuplicates(a) && NoDuplicates(b) && Elements(a) !! Elements(b)
  {
    forall i, j | 0 <= i < j < |a| ensures a[i] != a[j] { assert (a + b)[i] == a[i] && (a + b)[j] == a[j]; }
    forall i, j | 0 <= i < j < |b| ensures b[i] != b[j] { assert (a + b)[|a| + i] == b[i] && (a + b)[|a| + j] == b[j]; }
    forall i, j | 0 <= i < |a| && 0 <= j < |b| ensures a[i] != b[j] {
      assert (a + b)[i] == a[i] && (a + b)[|a| + j] == b[j];
    }
  }

  lemma FourParts(a: seq<string>, b: seq<string>, c: seq<string>, d: seq<string>)
    requires NoDuplicates(a + b + c + d)
    ensures NoDuplicates(a) && NoDuplicates(c)
    ensures Elements(b) !! Elements(a) && Elements(c) !! Elements(a) + Elements(b) && Elements(d) !! Elements(a) + Elements(b) + Elements(c)
    ensures Elements(a + b + c + d) == Elements(a) + Elements(b) + Elements(c) + Elements(d)
  {
    DistinctConcat(a + b + c, d);
    DistinctConcat(a + b, c);
    DistinctConcat(a, b);
    ElementsFour(a, b, c, d);
    ElementsConcat(a + b, c);
    ElementsConcat(a, b);
  }

  lemma {:induction false} RawNamesContain(params: seq<Param>, camel: string -> string, i: nat)
    requires i < |params|
    ensures camel(params[i].name) in Elements(RawNames(params, camel))
    ensures camel(params[i].name) in Elements(PathNames(params, camel))
  {
    if i > 0 {
      RawNamesContain(params[1..], camel, i - 1);
      var head := if Converts(params[0]) then [camel(params[0].name) + "Str"] else [];
      ElementsConcat([camel(params[0].name)], RawNames(params[1..], camel));
      ElementsConcat(head + [camel(params[0].name)], PathNames(params[1..], camel));
    } else {
      assert RawNames(params, camel)[0] == camel(params[0].name);
      var k := if Converts(params[0]) then 1 else 0;
      assert PathNames(params, camel)[k] == camel(params[0].name);
    }
  }

  lemma RequestNamesElements(job: Job)
    ensures Elements(RequestNames(job)) == (if UsesJsonBody(job) then {"req"} else {}) + Elements(RawNames(job.raw, job.camel))
  {
    ElementsConcat(if UsesJsonBody(job) then ["req"] else [], RawNames(job.raw, job.camel));
    ElementsOptional(UsesJsonBody(job), "req");
  }

  /** Elements of InputNames, part by part. */
  lemma InputNamesElements(job: Job)
    requires !job.subscribe
    ensures Elements(InputNames(job)) ==
      Elements(PathNamesOf(job)) + (if NeedsCurrentUser(job.seqs) then {"currentUser"} else {})
      + ((if UsesJsonBody(job) then {"req"} else {}) + Elements(RawNames(job.raw, job.camel)))
      + (if NeedsQueryOpts(job.seqs) then {"opts"} else {})
  {
    ElementsFour(PathNamesOf(job), UserNames(job), RequestNames(job), OptsNames(job));
    ElementsOptional(NeedsCurrentUser(job.seqs), "currentUser");
    RequestNamesElements(job);
    ElementsOptional(NeedsQueryOpts(job.seqs), "opts");
  }

  lemma InputNamesApart(job: Job)
    requires !job.subscribe && NoDuplicates(InputNames(job))
    ensures NoDuplicates(PathNamesOf(job)) && NoDuplicates(RequestNames(job))
    ensures
      var a, b, c, d := Elements(PathNamesOf(job)), Elements(UserNames(job)), Elements(RequestNames(job)), Elements(OptsNames(job));
      a !! b && c !! a + b && d !! a + b + c && Elements(InputNames(job)) == a + b + c + d
  {
    assert InputNames(job) == PathNamesOf(job) + UserNames(job) + RequestNames(job) + OptsNames(job);
    FourParts(PathNamesOf(job), UserNames(job), RequestNames(job), OptsNames(job));
  }

  /** The first path parameter and the others. */
  lemma PathNamesSplit(params: seq<Param>, camel: string -> string)
    requires params != []
    ensures Elements(PathNames(params, camel)) == NameOf(params[0], camel) + Elements(PathNames(params[1..], camel))
    ensures NoDuplicates(PathNames(params, camel)) ==>
              && NameOf(params[0], camel) !! Elements(PathNames(params[1..], camel)) && NoDuplicates(PathNames(params[1..], camel))
              && (Converts(params[0]) ==> camel(params[0].name) + "Str" != camel(params[0].name))
  {
    var x, rest := camel(params[0].name), PathNames(params[1..], camel);
    var head := (if Converts(params[0]) then [x + "Str"] else []) + [x];
    ElementsConcat(if Converts(params[0]) then [x + "Str"] else [], [x]);
    ElementsOptional(Converts(params[0]), x + "Str");
    ElementsOne(x);
    assert PathNames(params, camel) == head + rest;
    ElementsConcat(head, rest);
    if NoDuplicates(PathNames(params, camel)) {
      DistinctConcat(head, rest);
      assert Converts(params[0]) ==> head[0] != head[1];
    }
  }

  lemma RawNamesSplit(params: seq<Param>, camel: string -> string)
    requires params != []
    ensures Elements(RawNames(params, camel)) == {camel(params[0].name)} + Elements(RawNames(params[1..], camel))
    ensures NoDuplicates(RawNames(params, camel)) ==>
              camel(params[0].name) !in Elements(RawNames(params[1..], camel)) && NoDuplicates(RawNames(params[1..], camel))
  {
    var x, rest := camel(params[0].name), RawNames(params[1..], camel);
    ElementsConcat([x], rest);
    ElementsOne(x);
    if NoDuplicates(RawNames(params, camel)) { DistinctConcat([x], rest); }
  }

  lemma ParamInScope(job: Job, field: string)
    requires !job.subscribe && field in ParamNames(job.symbols.pathParams) + ParamNames(job.raw)
    ensures job.camel(field) in Elements(InputNames(job))
  {
    InputNamesElements(job);
    if field in ParamNames(job.raw) {
      var i :| 0 <= i < |job.raw| && job.raw[i].name == field;
      RawNamesContain(job.raw, job.camel, i);
    } else {
      var i :| 0 <= i < |job.symbols.pathParams| && job.symbols.pathParams[i].name == field;
      RawNamesContain(job.symbols.pathParams, job.camel, i);
    }
  }

  lemma {:induction false} RequestFieldsContain(seqs: seq<Sequence>, i: nat)
    requires i < |seqs|
    ensures RequestFieldsOf(seqs[i]) <= RequestFields(seqs)
  {
    if i < |seqs| - 1 {
      RequestFieldsContain(seqs[..|seqs| - 1], i);
      assert seqs[..|seqs| - 1][i] == seqs[i];
    }
  }

  lemma PlainText(name: string)
    requires Plain(name)
    ensures RootVar(name) == name && Reads(name) == {name}
  {
    BeforeNone(name, '.');
  }

  lemma VariableInputRefs(s: Sequence, val: string)
    requires DocumentedValue(val) && RootVar(val) != "" && !IsSourceValue(val) && !IsConfig(val) && !IsPublishedQuery(s, val)
    ensures InputRefs(s, val) == {RootVar(val)} && RootVar(val) != "currentUser" && Reads(val) == {RootVar(val)}
  {
  }

  lemma BoundPrefix(seqs: seq<Sequence>, i: nat)
    requires i <= |seqs|
    ensures Bound(seqs[..i]) <= Bound(seqs)
  {
    forall x | x in Bound(seqs[..i]) ensures x in Bound(seqs) {
      var j :| 0 <= j < |seqs[..i]| && seqs[..i][j].result.Some? && seqs[..i][j].result.value.name == x;
      assert seqs[j] == seqs[..i][j];
    }
  }

  lemma BoundFirst(seqs: seq<Sequence>)
    requires seqs != []
    ensures Bound(seqs) == (if seqs[0].result.Some? then {seqs[0].result.value.name} else {}) + Bound(seqs[1..])
  {
    var rest := seqs[1..];
    forall x | x in Bound(rest) ensures x in Bound(seqs) {
      var i :| 0 <= i < |rest| && rest[i].result.Some? && rest[i].result.value.name == x;
      assert seqs[i + 1] == rest[i];
    }
    forall x | x in Bound(seqs) && !(seqs[0].result.Some? && x == seqs[0].result.value.name) ensures x in Bound(rest) {
      var i :| 0 <= i < |seqs| && seqs[i].result.Some? && seqs[i].result.value.name == x;
      assert rest[i - 1] == seqs[i];
    }
  }
}
