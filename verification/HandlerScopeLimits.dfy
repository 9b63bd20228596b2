/** Accepted functions whose generated body Go rejects: what each part of the exact condition shuts out. */
module HandlerScopeLimits {
  import opened Text
  import opened SequenceDsl
  import opened GoBody
  import opened CallOrder
  import opened HandlerGen
  import opened VariableFlow
  import opened SourceRules
  import opened HandlerTracking
  import opened HandlerReads
  import opened HandlerScope
  import opened HandlerSources
  import opened HandlerCompiles
  import opened SourceExamples

  // ----- families of rejected functions -----

  /** Two if-scoped checks before anything declares err at function level, in a handler without writes
      or converted parameters: the second one assigns an err that does not exist. */
  lemma TwoChecksRejected(job: Job)
    requires AcceptedSource(job) && !ErrInScopeAtStart(job)
    requires |job.seqs| >= 2 && BindsErrInside(job.seqs[0]) && BindsErrInside(job.seqs[1])
    ensures !Scoped(HandlerBody(job), FuncParams(job.subscribe))
  {
    ScopeExact(job);
    TwoChecksMistracked(job.seqs, ErrDeclaredAtStart(job), UsedVars(job.seqs));
  }

  lemma TwoChecksMistracked(seqs: seq<Sequence>, tracked: bool, used: set<string>)
    requires |seqs| >= 2 && BindsErrInside(seqs[0]) && BindsErrInside(seqs[1])
    ensures !ErrDiscipline(seqs, false, tracked, used)
  {
    assert seqs[1..][0] == seqs[1];
    ErrDisciplineExact(seqs, false, tracked, used);
  }

  /** The first @get list query has an unused result and err is already tracked: `_, total, err =` assigns a
      total that does not exist. */
  lemma UnusedListQueryRejected(job: Job)
    requires AcceptedSource(job) && FirstTotal(job.seqs) < |job.seqs| && !Named(job.seqs[FirstTotal(job.seqs)], UsedVars(job.seqs))
    requires ErrDeclaredAtStart(job) || Touched(job.seqs[..FirstTotal(job.seqs)])
    ensures !Scoped(HandlerBody(job), FuncParams(job.subscribe))
  {
    ScopeExact(job);
  }

  /** A @post or @call that queries a list, then a response that lists its fields: the response reads a total
      that does not exist. */
  lemma PostedListRejected(job: Job, i: nat, j: nat)
    requires AcceptedSource(job) && i < j < FirstTotal(job.seqs) && HasTotal(job.seqs[i]) && ListsFields(job.seqs[j])
    ensures !Scoped(HandlerBody(job), FuncParams(job.subscribe))
  {
    assert job.seqs[..j + 1][i] == job.seqs[i];
    assert Counted(job.seqs[..j + 1]);
    ScopeExact(job);
  }

  /** A path parameter that no sequence passes on is declared and not used. */
  lemma UnpassedParamRejected(job: Job, i: nat)
    requires AcceptedSource(job) && !job.subscribe && i < |job.symbols.pathParams| && !ParamUsed(job, job.symbols.pathParams[i].name)
    ensures !Compiles(HandlerBody(job), FuncParams(false))
  {
    CompilesExact(job);
  }

  // ----- a source without a variable -----

  lemma OnlyPublish(seqs: seq<Sequence>, s: Sequence)
    requires seqs == [s] && s.kind == Publish && s.result.None?
    ensures !HasWrite(seqs) && forall tracked, used :: ErrDiscipline(seqs, tracked, tracked, used) && TotalDiscipline(seqs, tracked, used)
    ensures ResultsReferred(seqs) && FirstTotal(seqs) == 1
  {
    assert seqs[0] == s;
    assert FirstBinding(seqs) == 0 && FirstTotal(seqs) == 1;
    assert InsideCount(seqs[..0]) == 0;
    forall tracked: bool, used: set<string> ensures TotalDiscipline(seqs, tracked, used) { NoTotalsNoQuestion(seqs, tracked, used); }
  }

  lemma NoUser(seqs: seq<Sequence>, s: Sequence)
    requires seqs == [s] && !UsesCurrentUser(s) && !HasQuery(s.inputs)
    ensures !NeedsCurrentUser(seqs) && !NeedsQueryOpts(seqs)
  {
  }

  /** `@publish "topic" {ID: request}` passes every check and has nothing wrong with err, total or unused variables,
      yet its handler reads a Go name `request` that it never declares. */
  lemma BareRequestRejected(job: Job, publish: Sequence)
    requires job == JobOf([publish], [], []) && PublishesRequest(publish)
    ensures AcceptedSource(job) && CurrentUserFetched(job) && Disciplined(job) && EverythingRead(job)
    ensures !Scoped(HandlerBody(job), FuncParams(false))
  {
    PublishedRequest(publish);
    OneIsAccepted(job, publish);
    PublishIsDisciplined(job, publish);
    NamesWithoutParams(job);
    UndeclaredSourceRejected(job, 0, "request");
  }

  lemma PublishIsDisciplined(job: Job, s: Sequence)
    requires job == JobOf([s], [], []) && s.kind == Publish && s.result.None? && !UsesCurrentUser(s) && !ShowsCurrentUser(s) && !HasQuery(s.inputs)
    ensures CurrentUserFetched(job) && Disciplined(job) && EverythingRead(job)
    ensures !NeedsCurrentUser(job.seqs) && !NeedsQueryOpts(job.seqs)
  {
    OnlyPublish(job.seqs, s);
    NoUser(job.seqs, s);
    assert ErrInScopeAtStart(job) == ErrDeclaredAtStart(job);
  }

  // ----- a function that Go accepts -----

  /** A subscriber that passes part of its message on: accepted by the checks, and its handler by Go. */
  lemma SubscriberCompiles(job: Job, publish: Sequence)
    requires job == SubscriberOf([publish]) && ForwardsMessage(publish)
    ensures SoundSource(job) && Compiles(HandlerBody(job), FuncParams(true))
  {
    SubscriberIsSound(job, publish);
    SoundIsDeclared(job);
    ForwardedMessage(publish);
    SubscriberDisciplined(job, publish);
    CompilesExact(job);
  }

  lemma SubscriberDisciplined(job: Job, s: Sequence)
    requires job == SubscriberOf([s]) && s.kind == Publish && s.result.None? && NoHttpSources(s) && !UsesCurrentUser(s)
    ensures Disciplined(job) && EverythingRead(job)
  {
    OnlyPublish(job.seqs, s);
    NoUser(job.seqs, s);
    assert ErrInScopeAtStart(job) == ErrDeclaredAtStart(job);
  }

  // ----- two @auth -----

  lemma AuthTwiceIsSound(job: Job, auth: Sequence)
    requires job == JobOf([auth, auth], [], []) && ChecksAccess(auth)
    ensures SoundSource(job) && !ErrInScopeAtStart(job)
  {
    AccessInput(auth);
    TwoAreSound(job, auth, auth, {});
    NoWrites(job.seqs, auth, auth);
  }

  /** Two @auth in a read-only handler pass every check and do not compile. */
  lemma AuthTwiceRejected(job: Job, auth: Sequence)
    requires job == JobOf([auth, auth], [], []) && ChecksAccess(auth)
    ensures SoundSource(job) && !Scoped(HandlerBody(job), FuncParams(false))
  {
    AuthTwiceIsSound(job, auth);
    TwoChecksRejected(job);
  }

  lemma NoWrites(seqs: seq<Sequence>, a: Sequence, b: Sequence)
    requires seqs == [a, b] && !IsWrite(a) && !IsWrite(b)
    ensures !HasWrite(seqs) && seqs[0] == a && seqs[1] == b
  {
  }

  // ----- an unused list -----

  lemma SecondTotal(seqs: seq<Sequence>, a: Sequence, b: Sequence)
    requires seqs == [a, b] && TouchesErr(a) && !BindsTotal(a) && BindsTotal(b)
    ensures FirstTotal(seqs) == 1 && Touched(seqs[..1])
  {
    assert seqs[0] == a && seqs[1] == b && seqs[1..] == [b];
    assert FirstTotal(seqs[1..]) == 0;
    assert seqs[..1][0] == a;
  }

  /** An @auth, then a list query whose result is not used: `_, total, err =` assigns a total that does not exist. */
  lemma AuthThenListRejected(job: Job, auth: Sequence, get: Sequence, x: string)
    requires job == JobOf([auth, get], [], []) && ChecksAccess(auth) && QueriesList(get, x) && get.kind == Get && OrdinaryName(x)
    ensures SoundSource(job) && !Scoped(HandlerBody(job), FuncParams(false))
  {
    AccessInput(auth);
    QueryInput(get, x);
    TwoAreSound(job, auth, get, {});
    TwoSequences(auth, get);
    SecondTotal(job.seqs, auth, get);
    UnusedListQueryRejected(job);
  }

  // ----- a posted list -----

  lemma NoGet(seqs: seq<Sequence>, a: Sequence, b: Sequence)
    requires seqs == [a, b] && a.kind != Get && b.kind != Get
    ensures FirstTotal(seqs) == 2 && seqs[0] == a && seqs[1] == b
  {
    assert seqs[1..] == [b] && seqs[1..][1..] == [];
  }

  /** A @post that queries a list, its result shown as a field: the response reads a total that does not exist. */
  lemma PostThenShowRejected(job: Job, post: Sequence, show: Sequence, x: string)
    requires job == JobOf([post, show], [], []) && QueriesList(post, x) && post.kind == Post && ShowsField(show, x) && OrdinaryName(x)
    ensures SoundSource(job) && !Scoped(HandlerBody(job), FuncParams(false))
  {
    QueryInput(post, x);
    FieldResponse(show, x);
    TwoAreSound(job, post, show, {x});
    NoGet(job.seqs, post, show);
    PostedListRejected(job, 0, 1);
  }

  // ----- a path parameter nobody passes on -----

  lemma PathParamNames(job: Job, p: Param)
    requires job.symbols.pathParams == [p] && job.raw == [] && !job.subscribe && !Converts(p) && job.camel(p.name) == p.name
    requires !NeedsQueryOpts(job.seqs) && !NeedsCurrentUser(job.seqs)
    ensures Elements(InputNames(job)) == {p.name} && NoDuplicates(InputNames(job))
    ensures ParamNames(job.symbols.pathParams) + ParamNames(job.raw) == {p.name}
  {
    assert PathNames([p][1..], job.camel) == [];
    assert PathNamesOf(job) == [p.name];
    assert !UsesJsonBody(job);
    assert InputNames(job) == [p.name];
    ElementsOne(p.name);
    assert job.symbols.pathParams[0] == p;
  }

  lemma UnpassedIsSound(job: Job, s: Sequence, p: Param)
    requires job == JobOf([s], [p], []) && !Converts(p) && OrdinaryName(p.name)
    requires Fine(s, {}, {}) && Documented(s) && s.result.None? && !UsesCurrentUser(s) && !HasQuery(s.inputs)
    ensures SoundSource(job)
  {
    OneSequence(s);
    NoUser(job.seqs, s);
    PathParamNames(job, p);
    DistinctFrom(job, {p.name}, {});
    OneAccepted(s);
    AcceptedFrom(job);
    assert AllDocumented([s]);
    SoundFrom(job);
  }

  lemma NotUsed(job: Job, s: Sequence, p: string)
    requires job.seqs == [s] && RequestPassedBy(s) == {} && ReferredBy(s) == {}
    ensures !ParamUsed(job, p)
  {
  }

  /** An endpoint with a path parameter whose function is `@response {}`: the parameter is declared and not used. */
  lemma IgnoredParamRejected(job: Job, show: Sequence, p: Param)
    requires job == JobOf([show], [p], []) && ShowsNothing(show) && !Converts(p) && OrdinaryName(p.name)
    ensures SoundSource(job) && !Compiles(HandlerBody(job), FuncParams(false))
  {
    EmptyResponse(show);
    UnpassedIsSound(job, show, p);
    NotUsed(job, show, p.name);
    UnpassedParamRejected(job, 0);
  }

  // ----- a list shown whole -----

  lemma NoTotalShown(seqs: seq<Sequence>, a: Sequence, b: Sequence)
    requires seqs == [a, b] && BindsTotal(a) && !ListsFields(b) && Named(a, UsedVars(seqs))
    ensures FirstTotal(seqs) == 0 && !TotalShown(seqs, false)
    ensures forall inScope, tracked :: ErrDiscipline(seqs, inScope, tracked, UsedVars(seqs))
    ensures forall tracked :: TotalDiscipline(seqs, tracked, UsedVars(seqs))
  {
    assert seqs[0] == a && seqs[1] == b && seqs[..0] == [];
    assert FirstTotal(seqs) == 0 && FirstBinding(seqs) == 0;
    assert InsideCount(seqs[..0]) == 0 && Bound(seqs[..0]) == {};
  }

  lemma UnreadRejected(job: Job)
    requires SoundSource(job) && Disciplined(job) && !EverythingRead(job)
    ensures Scoped(HandlerBody(job), FuncParams(job.subscribe)) && !Compiles(HandlerBody(job), FuncParams(job.subscribe))
  {
    SoundIsDeclared(job);
    ScopeExact(job);
    CompilesExact(job);
  }

  lemma TotalUnread(job: Job, a: Sequence, b: Sequence)
    requires job.seqs == [a, b] && BindsTotal(a) && !ListsFields(b) && Named(a, UsedVars(job.seqs))
    ensures Disciplined(job) && !EverythingRead(job)
  {
    NoTotalShown(job.seqs, a, b);
  }

  lemma WholeListIsSound(job: Job, get: Sequence, show: Sequence, x: string)
    requires job == JobOf([get, show], [], []) && QueriesList(get, x) && get.kind == Get && ShowsWhole(show, x) && OrdinaryName(x)
    ensures SoundSource(job) && Disciplined(job) && !EverythingRead(job)
  {
    QueryInput(get, x);
    WholeResponse(show, x);
    TwoAreSound(job, get, show, {x});
    TwoSequences(get, show);
    TotalUnread(job, get, show);
  }

  /** A list shown whole: `courses, total, err :=` declares a total that nothing reads. */
  lemma UnreadTotalRejected(job: Job, get: Sequence, show: Sequence, x: string)
    requires job == JobOf([get, show], [], []) && QueriesList(get, x) && get.kind == Get && ShowsWhole(show, x) && OrdinaryName(x)
    ensures SoundSource(job)
    ensures Scoped(HandlerBody(job), FuncParams(false)) && !Compiles(HandlerBody(job), FuncParams(false))
  {
    WholeListIsSound(job, get, show, x);
    UnreadRejected(job);
  }

  // ----- an owner checked by @auth only -----

  lemma RemoveNames(job: Job, p: Param)
    requires job.symbols.pathParams == [] && job.raw == [p] && !job.subscribe && p.goType == GoString && job.camel(p.name) == p.name
    requires !NeedsQueryOpts(job.seqs) && NeedsCurrentUser(job.seqs) && !UsesJsonBody(job) && p.name != "currentUser"
    ensures Elements(InputNames(job)) == {"currentUser", p.name} && NoDuplicates(InputNames(job))
    ensures ParamNames(job.symbols.pathParams) + ParamNames(job.raw) == {p.name}
  {
    assert RawNames(job.raw, job.camel) == [p.name];
    assert InputNames(job) == ["currentUser"] + [p.name];
    ElementsConcat(["currentUser"], [p.name]);
    ElementsOne("currentUser");
    ElementsOne(p.name);
    assert job.raw[0] == p;
  }

  lemma RemoveNeeds(job: Job, a: Sequence, b: Sequence, c: Sequence)
    requires job.seqs == [a, b, c] && !job.symbols.present && a.kind == Get && b.kind == Auth && c.kind == Delete
    requires !HasQuery(a.inputs) && !HasQuery(b.inputs) && !HasQuery(c.inputs)
    ensures !NeedsQueryOpts(job.seqs) && NeedsCurrentUser(job.seqs) && !UsesJsonBody(job) && HasWrite(job.seqs)
  {
    assert job.seqs[0] == a && job.seqs[1] == b && job.seqs[2] == c;
    assert UsesCurrentUser(job.seqs[1]) && IsWrite(job.seqs[2]);
  }

  lemma RemoveAccepted(a: Sequence, b: Sequence, c: Sequence, x: string, f: string, i: nat)
    requires i < 3 && a.result.Some? && a.result.value.name == x
    requires if i == 0 then Fine(a, {}, {f}) else if i == 1 then Fine(b, {x}, {}) else Fine(c, {}, {f})
    ensures AcceptedAt([a, b, c], i, false)
  {
    var seqs := [a, b, c];
    ThreeSequences(a, b, c);
    if i == 0 {
      FineAccepted(seqs, 0, {}, {f});
    } else if i == 1 {
      FineAccepted(seqs, 1, {x}, {});
    } else {
      FineAccepted(seqs, 2, {}, {f});
    }
  }

  lemma ThreePlausible(seqs: seq<Sequence>, a: Sequence, b: Sequence, c: Sequence)
    requires seqs == [a, b, c] && Plausible(a) && Plausible(b) && Plausible(c)
    ensures AllPlausible(seqs)
  {
  }

  lemma ThreeDocumented(seqs: seq<Sequence>, a: Sequence, b: Sequence, c: Sequence)
    requires seqs == [a, b, c] && Documented(a) && Documented(b) && Documented(c)
    ensures AllDocumented(seqs)
  {
  }

  lemma OneRequested(job: Job, a: Sequence, b: Sequence, c: Sequence, f: string)
    requires job.seqs == [a, b, c] && RequestFieldsOf(a) == {f} == RequestFieldsOf(c) && RequestFieldsOf(b) == {}
    requires ParamNames(job.symbols.pathParams) + ParamNames(job.raw) == {f}
    ensures RequestListed(job)
  {
    ThreeSequences(a, b, c);
  }

  lemma ThreeAccepted(a: Sequence, b: Sequence, c: Sequence, x: string, f: string)
    requires Fine(a, {}, {f}) && Fine(b, {x}, {}) && Fine(c, {}, {f}) && a.result.Some? && a.result.value.name == x
    ensures FlowAccepted([a, b, c], false)
  {
    forall i | 0 <= i < 3 ensures AcceptedAt([a, b, c], i, false) { RemoveAccepted(a, b, c, x, f, i); }
  }

  lemma RemoveDistinct(job: Job, a: Sequence, b: Sequence, c: Sequence, p: Param, x: string)
    requires job == JobOf([a, b, c], [], [p]) && p.goType == GoString && a.kind == Get && b.kind == Auth && c.kind == Delete
    requires !HasQuery(a.inputs) && !HasQuery(b.inputs) && !HasQuery(c.inputs)
    requires a.result.Some? && a.result.value.name == x && b.result.None? && c.result.None?
    requires OrdinaryName(x) && OrdinaryName(p.name) && x != p.name
    ensures DistinctVariables(job) && NoReservedResult(job.seqs) && ParamNames(job.symbols.pathParams) + ParamNames(job.raw) == {p.name}
  {
    RemoveNeeds(job, a, b, c);
    RemoveNames(job, p);
    BoundOfThree(job.seqs, a, b, c);
    DistinctFrom(job, {"currentUser", p.name}, {x});
  }

  lemma BoundOfThree(seqs: seq<Sequence>, a: Sequence, b: Sequence, c: Sequence)
    requires seqs == [a, b, c] && a.result.Some? && b.result.None? && c.result.None?
    ensures Bound(seqs) == {a.result.value.name}
  {
    ThreeSequences(a, b, c);
  }

  lemma RemoveIsSound(job: Job, a: Sequence, b: Sequence, c: Sequence, p: Param, x: string)
    requires job == JobOf([a, b, c], [], [p]) && DistinctVariables(job) && NoReservedResult(job.seqs)
    requires Fine(a, {}, {p.name}) && Fine(b, {x}, {}) && Fine(c, {}, {p.name})
    requires Documented(a) && Documented(b) && Documented(c)
    requires a.result.Some? && a.result.value.name == x && ParamNames(job.symbols.pathParams) + ParamNames(job.raw) == {p.name}
    ensures SoundSource(job)
  {
    FineIsPlausible(a, {}, {p.name});
    FineIsPlausible(b, {x}, {});
    FineIsPlausible(c, {}, {p.name});
    ThreePlausible(job.seqs, a, b, c);
    ThreeDocumented(job.seqs, a, b, c);
    OneRequested(job, a, b, c, p.name);
    ThreeAccepted(a, b, c, x, p.name);
    AcceptedFrom(job);
    SoundFrom(job);
  }

  lemma NoTotals(seqs: seq<Sequence>, a: Sequence, b: Sequence, c: Sequence)
    requires seqs == [a, b, c] && !HasQuery(a.inputs) && !HasQuery(b.inputs) && !HasQuery(c.inputs)
    ensures TotalDiscipline(seqs, true, UsedVars(seqs))
  {
    assert forall i :: 0 <= i < 3 ==> !HasTotal(seqs[i]);
    NoTotalsNoQuestion(seqs, true, UsedVars(seqs));
  }

  lemma NotReferred(seqs: seq<Sequence>, a: Sequence, b: Sequence, c: Sequence, x: string)
    requires seqs == [a, b, c] && ReferredBy(a) == {} && ReferredBy(b) == {} && ReferredBy(c) == {}
    ensures !IsReferred(seqs, x)
  {
    assert seqs[0] == a && seqs[1] == b && seqs[2] == c;
  }

  lemma ResultUnread(job: Job)
    requires SoundSource(job) && HasWrite(job.seqs) && TotalDiscipline(job.seqs, true, UsedVars(job.seqs))
    requires job.seqs != [] && Named(job.seqs[0], UsedVars(job.seqs)) && !IsReferred(job.seqs, job.seqs[0].result.value.name)
    ensures Scoped(HandlerBody(job), FuncParams(job.subscribe)) && !Compiles(HandlerBody(job), FuncParams(job.subscribe))
  {
    ErrInScopeStays(job.seqs, UsedVars(job.seqs));
    UnreadRejected(job);
  }

  lemma RemoveRejected(job: Job, a: Sequence, b: Sequence, c: Sequence, p: Param, x: string)
    requires job == JobOf([a, b, c], [], [p]) && SoundSource(job) && a.kind == Get && b.kind == Auth && c.kind == Delete
    requires ReferredBy(a) == {} && ReferredBy(b) == {} && ReferredBy(c) == {} && UsedBy(b) == {x}
    requires !HasQuery(a.inputs) && !HasQuery(b.inputs) && !HasQuery(c.inputs)
    requires a.result.Some? && a.result.value.name == x && b.result.None? && c.result.None?
    ensures HasWrite(job.seqs) && Bound(job.seqs) == {x}
    ensures Scoped(HandlerBody(job), FuncParams(false)) && !Compiles(HandlerBody(job), FuncParams(false))
  {
    RemoveNeeds(job, a, b, c);
    ThreeSequences(a, b, c);
    NoTotals(job.seqs, a, b, c);
    NotReferred(job.seqs, a, b, c, x);
    assert job.seqs[0] == a;
    ResultUnread(job);
  }

  lemma OwnerUnreferred(get: Sequence, auth: Sequence, delete: Sequence)
    requires TakesID(get) && ChecksOwner(auth) && TakesID(delete)
    ensures ReferredBy(get) == {} && ReferredBy(auth) == {} && ReferredBy(delete) == {} && UsedBy(auth) == {"course"}
    ensures !HasQuery(get.inputs) && !HasQuery(auth.inputs) && !HasQuery(delete.inputs)
  {
    RequestInput(get);
    OwnerInput(auth);
    RequestInput(delete);
  }

  lemma NoQueries(get: Sequence, auth: Sequence, delete: Sequence)
    requires TakesID(get) && ChecksOwner(auth) && TakesID(delete)
    ensures !HasQuery(get.inputs) && !HasQuery(auth.inputs) && !HasQuery(delete.inputs)
  {
    OwnerUnreferred(get, auth, delete);
  }

  lemma OwnerWords()
    ensures OrdinaryName("ID") && OrdinaryName("course") && "ID" != "course"
  {
    assert "ID"[0] == 'I' && "course"[0] == 'c' && "course"[1] == 'o' && |"course"| == 6 && |"config"| == 6 && "course"[2] == 'u';
    assert "config"[2] == 'n';
  }

  lemma OwnerNames(job: Job, get: Sequence, auth: Sequence, delete: Sequence, p: Param)
    requires job == JobOf([get, auth, delete], [], [p]) && p.goType == GoString && p.name == "ID"
    requires TakesID(get) && get.kind == Get && get.result.value.name == "course"
    requires ChecksOwner(auth) && TakesID(delete) && delete.kind == Delete
    ensures DistinctVariables(job) && NoReservedResult(job.seqs) && ParamNames(job.symbols.pathParams) + ParamNames(job.raw) == {p.name}
  {
    OwnerWords();
    NoQueries(get, auth, delete);
    RemoveDistinct(job, get, auth, delete, p, "course");
  }

  /** The three sequences pass every check. */
  lemma OwnerIsSound(job: Job, get: Sequence, auth: Sequence, delete: Sequence, p: Param)
    requires job == JobOf([get, auth, delete], [], [p]) && p.goType == GoString && p.name == "ID"
    requires TakesID(get) && get.kind == Get && get.result.value.name == "course"
    requires ChecksOwner(auth) && TakesID(delete) && delete.kind == Delete
    ensures SoundSource(job)
  {
    OwnerNames(job, get, auth, delete, p);
    RequestInput(get);
    OwnerInput(auth);
    RequestInput(delete);
    RemoveIsSound(job, get, auth, delete, p, "course");
  }

  /** But the template of @auth writes UserID itself: `course, err :=` declares a course that nothing reads. */
  lemma UnreadResultRejected(job: Job, get: Sequence, auth: Sequence, delete: Sequence, p: Param)
    requires job == JobOf([get, auth, delete], [], [p]) && p.goType == GoString && p.name == "ID"
    requires TakesID(get) && get.kind == Get && get.result.value.name == "course"
    requires ChecksOwner(auth) && TakesID(delete) && delete.kind == Delete
    ensures SoundSource(job) && HasWrite(job.seqs)
    ensures Scoped(HandlerBody(job), FuncParams(false)) && !Compiles(HandlerBody(job), FuncParams(false))
  {
    OwnerIsSound(job, get, auth, delete, p);
    OwnerUnreferred(get, auth, delete);
    RemoveRejected(job, get, auth, delete, p, "course");
  }
}
