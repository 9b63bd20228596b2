/** Small accepted functions: from facts about single sequences to whole functions. */
module SourceExamples {
  import opened Text
  import opened SequenceDsl
  import opened GoBody
  import opened CallOrder
  import opened HandlerGen
  import opened VariableFlow
  import opened SourceRules
  import opened HandlerTracking

  /** An HTTP function without interface symbols; names are already in Go's form. */
  function JobOf(seqs: seq<Sequence>, pathParams: seq<Param>, raw: seq<Param>): Job {
    Job(false, seqs, Symbols(false, pathParams, map[], map[]), raw, (name: string) => name)
  }

  // ----- single sequences -----

  /** All that one sequence of an HTTP function contributes to being accepted. */
  predicate Fine(s: Sequence, refs: set<string>, fields: set<string>) {
    && WellShaped(s) && NonEmptyValues(s) && Renders(s, false)
    && (forall k :: k in s.inputs ==> !IsConfig(s.inputs[k]) && !IsPublishedQuery(s, s.inputs[k]))
    && Refs(s) == refs && RequestFieldsOf(s) == fields
  }

  predicate Documented(s: Sequence) {
    DocumentedValues(s) && !ShowsCurrentUser(s)
  }

  lemma FineAccepted(seqs: seq<Sequence>, i: nat, refs: set<string>, fields: set<string>)
    requires i < |seqs| && Fine(seqs[i], refs, fields) && refs <= Bound(seqs[..i]) + {"currentUser"}
    ensures AcceptedAt(seqs, i, false)
  {
    assert ErrorsOf(seqs[i], i, DeclaredBefore(seqs, i, false)) == {};
  }

  predicate Plausible(s: Sequence) {
    WellShaped(s) && NonEmptyValues(s) && Renders(s, false)
  }

  lemma FineIsPlausible(s: Sequence, refs: set<string>, fields: set<string>)
    requires Fine(s, refs, fields)
    ensures Plausible(s) && RequestFieldsOf(s) == fields
  {
  }

  predicate AllPlausible(seqs: seq<Sequence>) {
    forall i :: 0 <= i < |seqs| ==> Plausible(seqs[i])
  }

  predicate AllDocumented(seqs: seq<Sequence>) {
    forall i :: 0 <= i < |seqs| ==> Documented(seqs[i])
  }

  /** A sequence with one input, which names a variable. */
  lemma VariableInput(s: Sequence, k: string, val: string)
    requires s.inputs == map[k := val] && s.target == "" && s.fields == map[] && s.args == [] && s.result.None?
    requires s.kind in {Auth, State, Publish} && RootVar(val) !in {"request", "currentUser", "query", "config", ""}
    requires !IsSourceValue(val) && !IsConfig(val) && !HasPrefix(val, "query.")
    ensures Fine(s, {RootVar(val)}, {}) && Documented(s) && UsedBy(s) == {RootVar(val)} && !HasQuery(s.inputs)
  {
    assert s.inputs[k] == val;
    assert InputRefs(s, val) == {RootVar(val)};
  }

  // ----- whole functions -----

  lemma AcceptedFrom(job: Job)
    requires !job.subscribe && AllPlausible(job.seqs) && FlowAccepted(job.seqs, false) && NoReservedResult(job.seqs)
    requires RequestListed(job) && DistinctVariables(job)
    ensures AcceptedSource(job)
  {
    forall i | 0 <= i < |job.seqs| ensures WellShaped(job.seqs[i]) && NonEmptyValues(job.seqs[i]) && Renders(job.seqs[i], false) {
      assert Plausible(job.seqs[i]);
    }
  }

  lemma SoundFrom(job: Job)
    requires !job.subscribe && AcceptedSource(job) && AllDocumented(job.seqs)
    ensures SoundSource(job)
  {
    forall i | 0 <= i < |job.seqs| ensures DocumentedValues(job.seqs[i]) && !ShowsCurrentUser(job.seqs[i]) {
      assert Documented(job.seqs[i]);
    }
  }

  lemma DistinctFrom(job: Job, names: set<string>, results: set<string>)
    requires !job.subscribe && NoDuplicates(InputNames(job)) && Elements(InputNames(job)) == names && Bound(job.seqs) == results
    requires names !! FuncParams(false) + OwnNames(job.seqs) && results !! names + FuncParams(false) + OwnNames(job.seqs)
    requires forall p :: p in ParamNames(job.symbols.pathParams) + ParamNames(job.raw) ==> Plain(job.camel(p))
    ensures DistinctVariables(job)
  {
  }

  // ----- one, two or three sequences -----

  function ResultOf(s: Sequence): set<string> {
    if s.result.Some? then {s.result.value.name} else {}
  }

  lemma OneSequence(a: Sequence)
    ensures
      var seqs := [a];
      && Bound(seqs[..0]) == {} && Bound(seqs) == ResultOf(a)
      && RequestFields(seqs) == RequestFieldsOf(a) && UsedVars(seqs) == UsedBy(a)
  {
    var seqs := [a];
    assert seqs[..1] == seqs && seqs[..0] == [] && seqs[1..] == [];
    BoundAppend(seqs, 0);
  }

  lemma TwoSequences(a: Sequence, b: Sequence)
    ensures
      var seqs := [a, b];
      && Bound(seqs[..0]) == {} && Bound(seqs[..1]) == ResultOf(a) && Bound(seqs) == ResultOf(a) + ResultOf(b)
      && RequestFields(seqs) == RequestFieldsOf(a) + RequestFieldsOf(b)
      && UsedVars(seqs) == UsedBy(a) + UsedBy(b)
  {
    var seqs := [a, b];
    assert seqs[..2] == seqs && seqs[..1] == [a] && seqs[..1][..0] == [];
    BoundAppend(seqs, 0);
    BoundAppend(seqs, 1);
    assert RequestFields(seqs[..1]) == RequestFieldsOf(a);
    assert seqs[1..] == [b] && seqs[1..][1..] == [];
    assert UsedVars(seqs[1..]) == UsedBy(b);
  }

  lemma ThreeSequences(a: Sequence, b: Sequence, c: Sequence)
    ensures
      var seqs := [a, b, c];
      && Bound(seqs[..0]) == {} && Bound(seqs[..1]) == ResultOf(a) && Bound(seqs[..2]) == ResultOf(a) + ResultOf(b)
      && Bound(seqs) == ResultOf(a) + ResultOf(b) + ResultOf(c)
      && RequestFields(seqs) == RequestFieldsOf(a) + RequestFieldsOf(b) + RequestFieldsOf(c)
      && UsedVars(seqs) == UsedBy(a) + UsedBy(b) + UsedBy(c)
  {
    var seqs := [a, b, c];
    TwoSequences(a, b);
    assert seqs[..3] == seqs && seqs[..2] == [a, b] && seqs[..1] == [a, b][..1] && seqs[..0] == [];
    BoundAppend(seqs, 2);
    assert seqs[1..] == [b, c];
    TwoSequences(b, c);
  }

  lemma OneAccepted(a: Sequence)
    requires Fine(a, {}, {})
    ensures FlowAccepted([a], false) && AllPlausible([a])
  {
    FineAccepted([a], 0, {}, {});
    FineIsPlausible(a, {}, {});
  }

  lemma TwoAccepted(a: Sequence, b: Sequence, refs: set<string>)
    requires Fine(a, {}, {}) && Fine(b, refs, {}) && refs <= ResultOf(a)
    ensures FlowAccepted([a, b], false) && AllPlausible([a, b])
  {
    TwoSequences(a, b);
    FineAccepted([a, b], 0, {}, {});
    FineAccepted([a, b], 1, refs, {});
    FineIsPlausible(a, {}, {});
    FineIsPlausible(b, refs, {});
  }

  // ----- functions without request parameters -----

  /** A name that clashes with nothing a handler declares and with no reserved source. */
  predicate OrdinaryName(x: string) {
    && Plain(x) && x !in FuncParams(false) + RESERVED + {"total", "tx", "opts"}
    && x !in {"request", "currentUser", "config", "query", "message"}
  }

  lemma NamesWithoutParams(job: Job)
    requires !job.subscribe && job.symbols.pathParams == [] && job.raw == []
    ensures Elements(InputNames(job)) == (if NeedsCurrentUser(job.seqs) then {"currentUser"} else {})
                                         + (if NeedsQueryOpts(job.seqs) then {"opts"} else {})
    ensures NoDuplicates(InputNames(job))
  {
    assert !UsesJsonBody(job);
    assert InputNames(job) == UserNames(job) + OptsNames(job);
    ElementsConcat(UserNames(job), OptsNames(job));
    ElementsOptional(NeedsCurrentUser(job.seqs), "currentUser");
    ElementsOptional(NeedsQueryOpts(job.seqs), "opts");
  }

  /** No parameters, and only ordinary result names: no two variables clash. */
  lemma DistinctWithoutParams(job: Job)
    requires !job.subscribe && job.symbols.pathParams == [] && job.raw == []
    requires forall x :: x in Bound(job.seqs) ==> OrdinaryName(x)
    ensures DistinctVariables(job) && NoReservedResult(job.seqs)
  {
    NamesWithoutParams(job);
    DistinctFrom(job, Elements(InputNames(job)), Bound(job.seqs));
  }

  lemma OneIsAccepted(job: Job, a: Sequence)
    requires job == JobOf([a], [], []) && Fine(a, {}, {}) && (forall x :: x in ResultOf(a) ==> OrdinaryName(x))
    ensures AcceptedSource(job)
  {
    OneSequence(a);
    OneAccepted(a);
    DistinctWithoutParams(job);
    AcceptedFrom(job);
  }

  /** Two sequences, the second referring at most to the result of the first. */
  lemma TwoAreAccepted(job: Job, a: Sequence, b: Sequence, refs: set<string>)
    requires job == JobOf([a, b], [], []) && Fine(a, {}, {}) && Fine(b, refs, {}) && refs <= ResultOf(a)
    requires forall x :: x in ResultOf(a) + ResultOf(b) ==> OrdinaryName(x)
    ensures AcceptedSource(job)
  {
    TwoSequences(a, b);
    TwoAccepted(a, b, refs);
    DistinctWithoutParams(job);
    AcceptedFrom(job);
  }

  lemma TwoDocumented(seqs: seq<Sequence>, a: Sequence, b: Sequence)
    requires seqs == [a, b] && Documented(a) && Documented(b)
    ensures AllDocumented(seqs)
  {
  }

  lemma TwoAreSound(job: Job, a: Sequence, b: Sequence, refs: set<string>)
    requires job == JobOf([a, b], [], []) && Fine(a, {}, {}) && Fine(b, refs, {}) && refs <= ResultOf(a)
    requires forall x :: x in ResultOf(a) + ResultOf(b) ==> OrdinaryName(x)
    requires Documented(a) && Documented(b)
    ensures SoundSource(job)
  {
    TwoAreAccepted(job, a, b, refs);
    TwoDocumented(job.seqs, a, b);
    SoundFrom(job);
  }

  // ----- shapes of sequences -----

  /** `@auth "action" "resource" {} "message"` */
  predicate ChecksAccess(s: Sequence) {
    s.kind == Auth && s.inputs == map[] && s.target == "" && s.fields == map[] && s.args == [] && s.result.None?
  }

  lemma AccessInput(s: Sequence)
    requires ChecksAccess(s)
    ensures Fine(s, {}, {}) && Documented(s) && ResultOf(s) == {} && UsedBy(s) == {}
  {
  }

  /** `@get []T x = M.List({Opts: query})`, or the same by @post. */
  predicate QueriesList(s: Sequence, x: string) {
    && s.kind in {Get, Post} && s.inputs == map["Opts" := "query"] && s.target == "" && s.fields == map[] && s.args == []
    && s.result.Some? && s.result.value.name == x && HasPrefix(s.result.value.typ, "[]") && s.result.value.wrapper == ""
    && ModelName(s.model) != "" && MethodName(s.model) != ""
  }

  lemma QueryText(s: Sequence)
    requires s.kind in {Get, Post}
    ensures InputRefs(s, "query") == {} && !IsConfig("query") && !IsPublishedQuery(s, "query") && IsSourceValue("query")
    ensures !HasPrefix("query", "request.") && !HasPrefix("query", "currentUser.") && !IsLiteral("query") && RootVar("query") != ""
  {
    BeforeNone("query", '.');
    assert "query"[0] == 'q';
  }

  lemma QueryIsFine(s: Sequence, x: string)
    requires QueriesList(s, x)
    ensures Fine(s, {}, {}) && Documented(s)
  {
    QueryText(s);
    assert forall k :: k in s.inputs ==> s.inputs[k] == "query";
  }

  lemma QueryInput(s: Sequence, x: string)
    requires QueriesList(s, x)
    ensures Fine(s, {}, {}) && Documented(s) && HasTotal(s) && !UsesCurrentUser(s) && ResultOf(s) == {x} && UsedBy(s) == {}
  {
    QueryIsFine(s, x);
    QueryText(s);
    assert s.inputs["Opts"] == "query";
    assert HasQuery(s.inputs);
  }

  /** `@response x` */
  predicate ShowsWhole(s: Sequence, x: string) {
    s.kind == Response && s.target == x && s.inputs == map[] && s.fields == map[] && s.args == [] && s.result.None?
  }

  lemma WholeResponse(s: Sequence, x: string)
    requires ShowsWhole(s, x) && Plain(x) && x != "currentUser"
    ensures Fine(s, {x}, {}) && Documented(s) && UsedBy(s) == {x} && !UsesCurrentUser(s) && !ListsFields(s)
  {
    BeforeNone(x, '.');
  }

  /** `@response { items: x }` */
  predicate ShowsField(s: Sequence, x: string) {
    s.kind == Response && s.target == "" && s.inputs == map[] && s.fields == map["items" := x] && s.args == [] && s.result.None?
  }

  lemma FieldResponse(s: Sequence, x: string)
    requires ShowsField(s, x) && Plain(x) && x != "currentUser"
    ensures Fine(s, {x}, {}) && Documented(s) && ResultOf(s) == {}
  {
    BeforeNone(x, '.');
    assert s.fields["items"] == x && FieldRefs(x) == {x};
  }

  /** `@response {}` */
  predicate ShowsNothing(s: Sequence) {
    s.kind == Response && s.target == "" && s.inputs == map[] && s.fields == map[] && s.args == [] && s.result.None?
  }

  lemma EmptyResponse(s: Sequence)
    requires ShowsNothing(s)
    ensures Fine(s, {}, {}) && Documented(s) && ResultOf(s) == {} && RequestPassedBy(s) == {} && ReferredBy(s) == {}
    ensures !UsesCurrentUser(s) && !HasQuery(s.inputs)
  {
  }

  /** `@publish "topic" {ID: request}` */
  predicate PublishesRequest(s: Sequence) {
    && s.kind == Publish && s.inputs == map["ID" := "request"] && s.target == "" && s.fields == map[] && s.args == []
    && s.result.None?
  }

  lemma RequestWord(val: string)
    requires val == "request"
    ensures !IsConfig(val) && !HasPrefix(val, "query.") && !IsSourceValue(val) && RootVar(val) == "request" && Reads(val) == {"request"}
    ensures !HasPrefix(val, "currentUser.")
  {
    BeforeNone(val, '.');
    assert val[0] == 'r' && |val| == 7 && |"request."| == 8;
  }

  lemma PublishedRequest(s: Sequence)
    requires PublishesRequest(s)
    ensures Fine(s, {}, {}) && ResultOf(s) == {} && ReferredBy(s) == {"request"}
    ensures !UsesCurrentUser(s) && !ShowsCurrentUser(s) && !HasQuery(s.inputs)
  {
    RequestWord("request");
    RequestNamed(s, "ID", "request");
  }

  lemma RequestNamed(s: Sequence, k: string, val: string)
    requires s.kind == Publish && s.inputs == map[k := val] && s.target == "" && s.fields == map[] && s.args == [] && s.result.None?
    requires RootVar(val) == "request" && !IsSourceValue(val) && !IsConfig(val) && !HasPrefix(val, "query.") && !HasPrefix(val, "currentUser.")
    ensures Fine(s, {}, {}) && ReferredBy(s) == {"request"}
    ensures !UsesCurrentUser(s) && !ShowsCurrentUser(s) && !HasQuery(s.inputs)
  {
    assert s.inputs[k] == val;
    assert InputRefs(s, val) == {};
  }

  /** `@get T x = M.Find({ID: request.ID})`, or a delete without a result. */
  predicate TakesID(s: Sequence) {
    && s.inputs == map["ID" := "request." + "ID"] && s.target == "" && s.fields == map[] && s.args == []
    && s.kind in {Get, Delete} && (s.result.Some? <==> s.kind == Get) && ModelName(s.model) != "" && MethodName(s.model) != ""
  }

  lemma RequestText(val: string)
    requires val == "request." + "ID"
    ensures HasPrefix(val, "request.") && val[8..] == "ID" && RootVar(val) == "request" && val != "query"
    ensures !IsLiteral(val) && !HasPrefix(val, "currentUser.") && !IsConfig(val)
  {
    assert val[0] == 'r' && val[..8] == "request." && val[8..] == "ID";
    CutConcat("request", '.', "ID");
    assert val == "request" + ['.'] + "ID";
  }

  lemma RequestInput(s: Sequence)
    requires TakesID(s)
    ensures Fine(s, {}, {"ID"}) && Documented(s) && UsedBy(s) == {} && ReferredBy(s) == {} && !HasQuery(s.inputs)
  {
    RequestText("request." + "ID");
    assert s.inputs["ID"] == "request." + "ID";
    assert InputRefs(s, "request." + "ID") == {};
  }

  /** `@auth "action" "resource" {UserID: course.OwnerID} "message"` */
  predicate ChecksOwner(s: Sequence) {
    && s.kind == Auth && s.inputs == map["UserID" := "course" + "." + "OwnerID"]
    && s.target == "" && s.fields == map[] && s.args == [] && s.result.None?
  }

  lemma OwnerText(val: string)
    requires val == "course" + "." + "OwnerID"
    ensures RootVar(val) == "course" && !HasPrefix(val, "request.") && !HasPrefix(val, "currentUser.") && !IsLiteral(val) && !IsConfig(val)
    ensures val != "query" && !HasPrefix(val, "query.")
  {
    CutConcat("course", '.', "OwnerID");
    assert val == "course" + ['.'] + "OwnerID";
    assert val[0] == 'c' && val[1] == 'o' && val[2] == 'u';
  }

  lemma OwnerInput(s: Sequence)
    requires ChecksOwner(s)
    ensures Fine(s, {"course"}, {}) && Documented(s) && UsedBy(s) == {"course"} && ReferredBy(s) == {} && !HasQuery(s.inputs)
  {
    OwnerText("course" + "." + "OwnerID");
    VariableInput(s, "UserID", "course" + "." + "OwnerID");
    assert PassedKeys(s) == {};
  }

  /** `@publish "topic" {OrderID: message.OrderID}` */
  predicate ForwardsMessage(s: Sequence) {
    && s.kind == Publish && s.inputs == map["OrderID" := "message" + "." + "OrderID"] && s.target == "" && s.fields == map[]
    && s.args == [] && s.result.None?
  }

  lemma MessageText(val: string)
    requires val == "message" + "." + "OrderID"
    ensures RootVar(val) == "message" && !IsSourceValue(val) && !IsConfig(val) && !HasPrefix(val, "query.")
    ensures !HasPrefix(val, "request.") && !HasPrefix(val, "currentUser.")
  {
    CutConcat("message", '.', "OrderID");
    assert val == "message" + ['.'] + "OrderID";
    assert val[0] == 'm';
  }

  lemma ForwardedMessage(s: Sequence)
    requires ForwardsMessage(s)
    ensures Fine(s, {"message"}, {}) && Documented(s) && UsedBy(s) == {"message"} && NoHttpSources(s) && !UsesCurrentUser(s)
  {
    MessageText("message" + "." + "OrderID");
    VariableInput(s, "OrderID", "message" + "." + "OrderID");
    assert forall k :: k in s.inputs ==> s.inputs[k] == "message" + "." + "OrderID";
  }

  function SubscriberOf(seqs: seq<Sequence>): Job {
    Job(true, seqs, Symbols(false, [], map[], map[]), [], (name: string) => name)
  }

  lemma SubscriberAccepted(seqs: seq<Sequence>, s: Sequence)
    requires seqs == [s] && Fine(s, {"message"}, {})
    ensures FlowAccepted(seqs, true)
  {
    forall i | 0 <= i < |seqs| ensures AcceptedAt(seqs, i, true) {
      assert ErrorsOf(seqs[i], i, DeclaredBefore(seqs, i, true)) == {};
    }
  }

  lemma SubscriberDistinct(job: Job, s: Sequence)
    requires job == SubscriberOf([s]) && s.result.None?
    ensures DistinctVariables(job) && NoReservedResult(job.seqs)
  {
    OneSequence(s);
    assert InputNames(job) == [];
  }

  lemma SubscriberFrom(job: Job, s: Sequence)
    requires job == SubscriberOf([s]) && Fine(s, {"message"}, {}) && Documented(s) && NoHttpSources(s) && !UsesCurrentUser(s)
    requires s.kind == Publish && DistinctVariables(job) && NoReservedResult(job.seqs) && FlowAccepted(job.seqs, true)
    ensures SoundSource(job)
  {
    assert forall i :: 0 <= i < |job.seqs| ==> job.seqs[i] == s;
    assert AllRender(job.seqs, true);
  }

  /** A subscriber that passes part of its message on is accepted. */
  lemma SubscriberIsSound(job: Job, publish: Sequence)
    requires job == SubscriberOf([publish]) && ForwardsMessage(publish)
    ensures SoundSource(job)
  {
    ForwardedMessage(publish);
    SubscriberAccepted(job.seqs, publish);
    SubscriberDistinct(job, publish);
    SubscriberFrom(job, publish);
  }
}
