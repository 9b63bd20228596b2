/** How a generated HTTP handler reads its request: what it decodes, and when it answers 400. */
module HandlerRequests {
  import opened Text
  import opened SequenceDsl
  import opened GoBody
  import opened CallOrder
  import opened HandlerGen
  import opened SourceRules
  import opened HandlerMeaning
  import opened HandlerCorrect

  // ----- the rule -----

  /** Request fields outside the path come in a JSON body: something is posted or put and there is such a field, or
      there are symbols and two such fields. */
  predicate ComesInBody(job: Job) {
    || (|job.raw| >= 1 && exists i :: 0 <= i < |job.seqs| && job.seqs[i].kind in {Post, Put})
    || (|job.raw| >= 2 && job.symbols.present)
  }

  predicate PathFails(params: seq<Param>, incoming: Incoming) {
    exists i :: 0 <= i < |params| && params[i].goType in {GoInt64, GoFloat64} && !incoming.valid(params[i].name)
  }

  predicate QueryFails(params: seq<Param>, incoming: Incoming) {
    exists i :: 0 <= i < |params| && params[i].goType in {GoInt64, GoFloat64, GoBool, GoTime} && !incoming.valid(params[i].name)
  }

  /** Something of the request does not decode. */
  predicate Undecodable(job: Job, incoming: Incoming) {
    || PathFails(job.symbols.pathParams, incoming)
    || (if ComesInBody(job) then !incoming.bodyValid else QueryFails(job.raw, incoming))
  }

  lemma DecodesMeans(job: Job, incoming: Incoming)
    requires !job.subscribe
    ensures Decodes(job, incoming) <==> !Undecodable(job, incoming)
  {
    assert ReadsBody(job) <==> ComesInBody(job);
  }

  // ----- no other reply is that one -----

  function BadRequest(): Event {
    Replied(Failure(ErrorJson(400, Fixed("bad request"), false), ""))
  }

  predicate Unrejected(walk: Walk) {
    match walk
    case Ended(trace, _) => BadRequest() !in trace
    case Going(w) => BadRequest() !in w.trace
  }

  predicate OtherReply(reply: Reply) {
    reply.Failure? ==> reply.exit.note != Fixed("bad request")
  }

  lemma FailUnrejected(w: World, reply: Reply)
    requires BadRequest() !in w.trace && OtherReply(reply)
    ensures Unrejected(Fail(w, reply))
  {
    assert Replied(reply) != BadRequest();
  }

  lemma TxFailureIsOther(subscribe: bool, err: string)
    ensures OtherReply(TxFailure(subscribe, "commit failed", err)) && OtherReply(TxFailure(subscribe, "transaction failed", err))
  {
    assert "commit failed"[0] == 'c' && "transaction failed"[0] == 't' && "bad request"[0] == 'b';
  }

  lemma CommitUnrejected(w: World, subscribe: bool, oracle: Oracle)
    requires BadRequest() !in w.trace && w.phase == InTx
    ensures Unrejected(Commit(w, subscribe, oracle))
  {
    var outcome := oracle(w.trace, CommitTx);
    var after := w.(trace := w.trace + [Did(CommitTx, outcome.Ok?)], phase := Done, pending := []);
    if outcome.Err? {
      TxFailureIsOther(subscribe, outcome.text);
      FailUnrejected(after, TxFailure(subscribe, "commit failed", outcome.text));
    }
  }

  lemma StepUnrejected(s: Sequence, job: Job, w: World, incoming: Incoming, oracle: Oracle, total: bool)
    requires BadRequest() !in w.trace
    ensures Unrejected(Step(s, job, w, incoming, oracle, total))
  {
    match s.kind
    case Empty => FailUnrejected(w, FailureOf(s, job, ""));
    case Exists => FailUnrejected(w, FailureOf(s, job, ""));
    case Response => if w.phase == InTx { CommitUnrejected(w, job.subscribe, oracle); }
    case _ => CallUnrejected(s, job, w, incoming, oracle);
  }

  lemma CallUnrejected(s: Sequence, job: Job, w: World, incoming: Incoming, oracle: Oracle)
    requires BadRequest() !in w.trace && s.kind !in {Empty, Exists, Response}
    ensures Unrejected(CallStep(s, job, w, incoming, oracle))
  {
    var effect := EffectFor(s, job.symbols, incoming, w.vars);
    var outcome := Answer(effect, w, oracle);
    if outcome.Err? {
      FailUnrejected(w.(trace := w.trace + [Did(effect, false)]), FailureOf(s, job, outcome.text));
    }
  }

  lemma {:induction false} WalkUnrejected(seqs: seq<Sequence>, job: Job, w: World, incoming: Incoming, oracle: Oracle, hasTotal: bool)
    requires BadRequest() !in w.trace
    ensures Unrejected(WalkFrom(seqs, job, w, incoming, oracle, hasTotal))
  {
    if seqs == [] {
      if w.phase == InTx { CommitUnrejected(w, job.subscribe, oracle); }
    } else {
      var total := hasTotal || AsksForList(seqs[0]);
      StepUnrejected(seqs[0], job, w, incoming, oracle, total);
      match Step(seqs[0], job, w, incoming, oracle, total)
      case Ended(_, _) =>
      case Going(w') => WalkUnrejected(seqs[1..], job, w', incoming, oracle, total);
    }
  }

  lemma DecodedUnrejected(job: Job, incoming: Incoming, oracle: Oracle)
    requires Decodes(job, incoming)
    ensures Unrejected(Meaning(job, incoming, oracle))
  {
    MeaningForm(job, incoming, oracle);
    if !SavesAny(job.seqs) {
      WalkUnrejected(job.seqs, job, UNBEGUN, Received(job, incoming), oracle, false);
    } else if oracle([], BeginTx).Ok? {
      WalkUnrejected(job.seqs, job, BEGUN, Received(job, incoming), oracle, false);
    } else {
      TxFailureIsOther(job.subscribe, oracle([], BeginTx).text);
      FailUnrejected(UNBEGUN.(trace := [Did(BeginTx, false)]), TxFailure(job.subscribe, "transaction failed", oracle([], BeginTx).text));
    }
  }

  // ----- what the walk looks at -----

  /** All that the walk looks at. */
  ghost predicate SameInputs(a: Incoming, b: Incoming) {
    a.user == b.user && a.opts == b.opts && a.message == b.message && forall name :: a.value(name) == b.value(name)
  }

  /** All but the body. */
  ghost predicate SameButBody(a: Incoming, b: Incoming) {
    SameInputs(a, b) && forall name :: a.valid(name) == b.valid(name)
  }

  lemma {:induction false} SameArgs(keys: seq<string>, inputs: map<string, string>, a: Incoming, b: Incoming, vars: map<string, Value>)
    requires SameInputs(a, b)
    ensures DenoteArgs(keys, inputs, a, vars) == DenoteArgs(keys, inputs, b, vars)
  {
    if keys != [] { SameArgs(keys[1..], inputs, a, b, vars); }
  }

  lemma SameFields(vals: map<string, string>, a: Incoming, b: Incoming, vars: map<string, Value>)
    requires SameInputs(a, b)
    ensures DenoteAll(vals, a, vars) == DenoteAll(vals, b, vars)
  {
  }

  lemma SameEffectFor(s: Sequence, symbols: Symbols, a: Incoming, b: Incoming, vars: map<string, Value>)
    requires SameInputs(a, b) && s.kind !in {Empty, Exists, Response}
    ensures EffectFor(s, symbols, a, vars) == EffectFor(s, symbols, b, vars)
  {
    SameFields(s.inputs, a, b, vars);
    var order := if s.model in symbols.paramOrder then symbols.paramOrder[s.model] else [];
    SameArgs(CallKeys(s.inputs, order), s.inputs, a, b, vars);
  }

  lemma SameCallStep(s: Sequence, job: Job, w: World, a: Incoming, b: Incoming, oracle: Oracle)
    requires SameInputs(a, b) && s.kind !in {Empty, Exists, Response}
    ensures CallStep(s, job, w, a, oracle) == CallStep(s, job, w, b, oracle)
  {
    SameEffectFor(s, job.symbols, a, b, w.vars);
  }

  lemma SameStep(s: Sequence, job: Job, w: World, a: Incoming, b: Incoming, oracle: Oracle, total: bool)
    requires SameInputs(a, b)
    ensures Step(s, job, w, a, oracle, total) == Step(s, job, w, b, oracle, total)
  {
    match s.kind
    case Empty =>
    case Exists =>
    case Response => SameAnswered(s, a, b, total);
    case _ => SameCallStep(s, job, w, a, b, oracle);
  }

  lemma SameAnswered(s: Sequence, a: Incoming, b: Incoming, total: bool)
    requires SameInputs(a, b)
    ensures forall w :: Answered(s, w, a, total) == Answered(s, w, b, total)
  {
    forall w ensures Answered(s, w, a, total) == Answered(s, w, b, total) { SameFields(s.fields, a, b, w.vars); }
  }

  lemma {:induction false} SameWalk(seqs: seq<Sequence>, job: Job, w: World, a: Incoming, b: Incoming, oracle: Oracle, hasTotal: bool)
    requires SameInputs(a, b)
    ensures WalkFrom(seqs, job, w, a, oracle, hasTotal) == WalkFrom(seqs, job, w, b, oracle, hasTotal)
  {
    if seqs != [] {
      var total := hasTotal || AsksForList(seqs[0]);
      SameStep(seqs[0], job, w, a, b, oracle, total);
      match Step(seqs[0], job, w, a, oracle, total)
      case Ended(_, _) =>
      case Going(w') => SameWalk(seqs[1..], job, w', a, b, oracle, total);
    }
  }

  // ----- main results, about the generated code -----

  /** A generated HTTP handler answers 400 and does nothing else exactly when the request does not decode: a path
      parameter that is an integer or a float, the JSON body where the fields come in one, and otherwise a query
      parameter that is an integer, a float, a truth value or a time. No other run answers it. */
  lemma BadRequestExact(job: Job, incoming: Incoming, oracle: Oracle)
    requires SoundSource(job) && !job.subscribe
    ensures
      var m := Run(HandlerBody(job), StartOfCall(job, incoming), incoming, oracle);
      var bad := Replied(Failure(ErrorJson(400, Fixed("bad request"), false), ""));
      if Undecodable(job, incoming) then m.trace == [bad] && m.stored == [] else bad !in m.trace
  {
    MeaningPreserved(job, incoming, oracle);
    MeaningRejects(job, incoming, oracle);
  }

  lemma MeaningRejects(job: Job, incoming: Incoming, oracle: Oracle)
    requires !job.subscribe
    ensures
      var walk := Meaning(job, incoming, oracle);
      if Undecodable(job, incoming) then walk == Ended([BadRequest()], []) else Unrejected(walk)
  {
    DecodesMeans(job, incoming);
    if !Undecodable(job, incoming) {
      DecodedUnrejected(job, incoming, oracle);
    }
  }

  /** Where the fields do not come in a body, a run does not depend on the body. */
  lemma BodyIgnored(job: Job, a: Incoming, b: Incoming, oracle: Oracle)
    requires SoundSource(job) && !job.subscribe && !ComesInBody(job) && SameButBody(a, b)
    ensures
      var m, n := Run(HandlerBody(job), StartOfCall(job, a), a, oracle), Run(HandlerBody(job), StartOfCall(job, b), b, oracle);
      m.trace == n.trace && m.stored == n.stored
  {
    MeaningPreserved(job, a, oracle);
    MeaningPreserved(job, b, oracle);
    SameMeaning(job, a, b, oracle);
  }

  lemma SameMeaning(job: Job, a: Incoming, b: Incoming, oracle: Oracle)
    requires !job.subscribe && !ComesInBody(job) && SameButBody(a, b)
    ensures Meaning(job, a, oracle) == Meaning(job, b, oracle)
  {
    DecodesMeans(job, a);
    DecodesMeans(job, b);
    if Decodes(job, a) {
      MeaningForm(job, a, oracle);
      MeaningForm(job, b, oracle);
      assert !ReadsBody(job) && SameInputs(Received(job, a), Received(job, b));
      SameWalk(job.seqs, job, UNBEGUN, Received(job, a), Received(job, b), oracle, false);
      SameWalk(job.seqs, job, BEGUN, Received(job, a), Received(job, b), oracle, false);
    }
  }
}
