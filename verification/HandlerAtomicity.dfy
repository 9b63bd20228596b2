/** Transactions of generated handlers: all writes or none, one commit, and replies only after it. */
module HandlerAtomicity {
  import opened Text
  import opened SequenceDsl
  import opened GoBody
  import opened HandlerGen
  import opened VariableFlow
  import opened SourceRules
  import opened HandlerScope
  import opened HandlerMeaning
  import opened HandlerCorrect

  // ----- reading a trace -----

  predicate IsWriteEvent(e: Event) {
    e.Did? && e.ok && e.effect.ModelCall? && e.effect.writes
  }

  predicate IsCommitEvent(e: Event) {
    e.Did? && e.effect == CommitTx
  }

  predicate IsSuccessReply(e: Event) {
    e.Replied? && !e.reply.Failure?
  }

  /** The writes that succeeded, in order. */
  function WritesOf(trace: seq<Event>): seq<Effect> {
    if trace == [] then []
    else
      var last := trace[|trace| - 1];
      WritesOf(trace[..|trace| - 1]) + (if IsWriteEvent(last) then [last.effect] else [])
  }

  lemma WritesOfAppend(trace: seq<Event>, e: Event)
    ensures WritesOf(trace + [e]) == WritesOf(trace) + (if IsWriteEvent(e) then [e.effect] else [])
  {
    assert (trace + [e])[..|trace|] == trace;
  }

  /** Everything succeeded so far, nothing is committed and nothing answered. */
  predicate Underway(trace: seq<Event>) {
    forall e :: e in trace ==> e.Did? && e.ok && e.effect != CommitTx
  }

  /** Committed at position k: only successful calls before; no other commit and no write after. */
  predicate CommittedAt(trace: seq<Event>, k: nat) {
    && k < |trace| && Underway(trace[..k]) && trace[k] == Did(CommitTx, true)
    && forall j :: k < j < |trace| ==> !IsCommitEvent(trace[j]) && !IsWriteEvent(trace[j])
  }

  /** A failed step, its error reply, possibly the rollback. */
  predicate IsAbort(tail: seq<Event>) {
    var t := if |tail| > 0 && tail[0].Did? then tail[1..] else tail;
    && (|tail| > 0 && tail[0].Did? ==> !tail[0].ok)
    && 1 <= |t| <= 2 && t[0].Replied? && t[0].reply.Failure?
    && (|t| == 2 ==> t[1] == RolledBack)
  }

  predicate AbortedAt(trace: seq<Event>, k: nat) {
    k <= |trace| && Underway(trace[..k]) && IsAbort(trace[k..])
  }

  /** The write sequences, in order. */
  function Writes(seqs: seq<Sequence>): seq<Sequence> {
    if seqs == [] then []
    else
      var last := seqs[|seqs| - 1];
      Writes(seqs[..|seqs| - 1]) + (if Saves(last) then [last] else [])
  }

  /** A write made by the model call of this sequence. */
  predicate IsCallOf(e: Effect, s: Sequence) {
    e.ModelCall? && e.writes && e.model == ModelName(s.model) && e.operation == MethodName(s.model)
  }

  /** The k-th write is the model call of the k-th sequence. */
  predicate CallsOf(effects: seq<Effect>, writes: seq<Sequence>) {
    |effects| == |writes| && forall k :: 0 <= k < |writes| ==> IsCallOf(effects[k], writes[k])
  }

  /** Position of the first @response, or |seqs|. */
  function FirstResponse(seqs: seq<Sequence>): (r: nat)
    ensures r <= |seqs|
    ensures forall i :: 0 <= i < r ==> seqs[i].kind != Response
    ensures r < |seqs| ==> seqs[r].kind == Response
  {
    if seqs == [] || seqs[0].kind == Response then 0 else 1 + FirstResponse(seqs[1..])
  }

  /** How a function with a write ends: committed with exactly the writes made, or aborted with none. */
  ghost predicate Settled(trace: seq<Event>, stored: seq<Effect>, writes: seq<Sequence>) {
    || (stored == WritesOf(trace) && CallsOf(stored, writes) && exists k :: CommittedAt(trace, k))
    || (stored == [] && exists k :: AbortedAt(trace, k))
  }

  // ----- the walk -----

  predicate InProgress(w: World) {
    w.phase == InTx && w.stored == [] && w.pending == WritesOf(w.trace) && Underway(w.trace)
  }

  /** One more sequence: its write, if it is one, is pending now. */
  predicate Grows(before: seq<Effect>, after: seq<Effect>, s: Sequence) {
    if Saves(s) then |after| == |before| + 1 && after[..|before|] == before && IsCallOf(after[|before|], s) else after == before
  }

  lemma AbortAfter(trace: seq<Event>, tail: seq<Event>)
    requires Underway(trace) && IsAbort(tail)
    ensures AbortedAt(trace + tail, |trace|)
  {
    assert (trace + tail)[..|trace|] == trace && (trace + tail)[|trace|..] == tail;
  }

  lemma FailAborts(w: World, call: seq<Event>, reply: Reply)
    requires Underway(w.trace) && reply.Failure? && w.stored == []
    requires call == [] || (|call| == 1 && call[0].Did? && !call[0].ok)
    ensures
      var walk := Fail(w.(trace := w.trace + call), reply);
      walk.stored == [] && AbortedAt(walk.trace, |w.trace|)
  {
    var tail := call + [Replied(reply)] + (if w.phase == InTx then [RolledBack] else []);
    AbortAfter(w.trace, tail);
    assert Fail(w.(trace := w.trace + call), reply).trace == w.trace + tail;
  }

  lemma CommitSettles(w: World, subscribe: bool, oracle: Oracle)
    requires InProgress(w)
    ensures
      match Commit(w, subscribe, oracle)
      case Ended(trace, stored) => stored == [] && AbortedAt(trace, |w.trace|)
      case Going(w') => w'.phase == Done && CommittedAt(w'.trace, |w.trace|) && w'.stored == w.pending == WritesOf(w'.trace)
  {
    var outcome := oracle(w.trace, CommitTx);
    WritesOfAppend(w.trace, Did(CommitTx, outcome.Ok?));
    if outcome.Err? {
      FailAborts(w.(phase := Done, pending := []), [Did(CommitTx, false)], TxFailure(subscribe, "commit failed", outcome.text));
    } else {
      assert (w.trace + [Did(CommitTx, true)])[..|w.trace|] == w.trace;
    }
  }

  /** A call that goes on, whatever made it. */
  lemma CallGoesOn(w: World, effect: Effect, w': World, s: Sequence)
    requires InProgress(w) && effect != CommitTx && IsWriteEvent(Did(effect, true)) == Saves(s)
    requires Saves(s) ==> IsCallOf(effect, s)
    requires w'.trace == w.trace + [Did(effect, true)] && w'.phase == w.phase && w'.stored == w.stored
    requires w'.pending == if Saves(s) then w.pending + [effect] else w.pending
    ensures InProgress(w') && Grows(w.pending, w'.pending, s)
  {
    WritesOfAppend(w.trace, Did(effect, true));
  }

  lemma EffectWrites(s: Sequence, symbols: Symbols, incoming: Incoming, vars: map<string, Value>)
    requires s.kind !in {Empty, Exists, Response}
    ensures EffectFor(s, symbols, incoming, vars) != CommitTx
    ensures IsWriteEvent(Did(EffectFor(s, symbols, incoming, vars), true)) == Saves(s)
    ensures Saves(s) ==> IsCallOf(EffectFor(s, symbols, incoming, vars), s)
  {
  }

  lemma CallSettles(s: Sequence, job: Job, w: World, incoming: Incoming, oracle: Oracle)
    requires InProgress(w) && s.kind !in {Empty, Exists, Response}
    ensures
      match CallStep(s, job, w, incoming, oracle)
      case Ended(trace, stored) => stored == [] && AbortedAt(trace, |w.trace|)
      case Going(w') => InProgress(w') && Grows(w.pending, w'.pending, s)
  {
    var effect := EffectFor(s, job.symbols, incoming, w.vars);
    var outcome := Answer(effect, w, oracle);
    EffectWrites(s, job.symbols, incoming, w.vars);
    if outcome.Err? {
      FailAborts(w, [Did(effect, false)], FailureOf(s, job, outcome.text));
    } else {
      CallGoesOn(w, effect, CallStep(s, job, w, incoming, oracle).w, s);
    }
  }

  lemma KeepsCommitted(trace: seq<Event>, k: nat, e: Event)
    requires CommittedAt(trace, k) && !IsCommitEvent(e) && !IsWriteEvent(e)
    ensures CommittedAt(trace + [e], k) && WritesOf(trace + [e]) == WritesOf(trace)
  {
    WritesOfAppend(trace, e);
    assert (trace + [e])[..k] == trace[..k];
  }

  ghost predicate StaysCommitted(walk: Walk, before: World, k: nat) {
    match walk
    case Ended(trace, stored) => CommittedAt(trace, k) && stored == WritesOf(trace) == WritesOf(before.trace)
    case Going(w) => w.phase == Done && CommittedAt(w.trace, k) && w.stored == WritesOf(w.trace) == WritesOf(before.trace)
  }

  /** After the commit nothing is written any more: model calls fail on the finished transaction. */
  lemma CallAfterCommit(s: Sequence, job: Job, w: World, incoming: Incoming, oracle: Oracle, k: nat)
    requires w.phase == Done && CommittedAt(w.trace, k) && w.stored == WritesOf(w.trace)
    requires s.kind !in {Empty, Exists, Response}
    ensures StaysCommitted(CallStep(s, job, w, incoming, oracle), w, k)
  {
    var effect := EffectFor(s, job.symbols, incoming, w.vars);
    var outcome := Answer(effect, w, oracle);
    KeepsCommitted(w.trace, k, Did(effect, outcome.Ok?));
    if outcome.Err? {
      var reply := Replied(FailureOf(s, job, outcome.text));
      KeepsCommitted(w.trace + [Did(effect, false)], k, reply);
      assert w.trace + [Did(effect, false)] + [reply] + [] == w.trace + [Did(effect, false)] + [reply];
    }
  }

  lemma ReplyAfterCommit(w: World, reply: Reply, k: nat)
    requires w.phase == Done && CommittedAt(w.trace, k) && w.stored == WritesOf(w.trace)
    ensures StaysCommitted(Fail(w, reply), w, k)
    ensures StaysCommitted(Going(w.(trace := w.trace + [Replied(reply)])), w, k)
  {
    KeepsCommitted(w.trace, k, Replied(reply));
    assert w.trace + [Replied(reply)] + [] == w.trace + [Replied(reply)];
  }

  lemma AnswerAfterCommit(s: Sequence, job: Job, w: World, incoming: Incoming, oracle: Oracle, total: bool, k: nat)
    requires w.phase == Done && CommittedAt(w.trace, k) && w.stored == WritesOf(w.trace) && s.kind == Response
    ensures StaysCommitted(Step(s, job, w, incoming, oracle, total), w, k)
  {
    ReplyAfterCommit(w, if s.target != "" then SuccessDirect(Denote(s.target, incoming, w.vars))
                        else Success(DenoteAll(s.fields, incoming, w.vars), if total then Some(w.total) else None), k);
  }

  lemma StepAfterCommit(s: Sequence, job: Job, w: World, incoming: Incoming, oracle: Oracle, total: bool, k: nat)
    requires w.phase == Done && CommittedAt(w.trace, k) && w.stored == WritesOf(w.trace)
    ensures StaysCommitted(Step(s, job, w, incoming, oracle, total), w, k)
  {
    match s.kind
    case Response => AnswerAfterCommit(s, job, w, incoming, oracle, total, k);
    case Empty => ReplyAfterCommit(w, FailureOf(s, job, ""), k);
    case Exists => ReplyAfterCommit(w, FailureOf(s, job, ""), k);
    case _ => CallAfterCommit(s, job, w, incoming, oracle, k);
  }

  lemma {:induction false} WalkAfterCommit(seqs: seq<Sequence>, job: Job, w: World, incoming: Incoming, oracle: Oracle, hasTotal: bool, k: nat)
    requires w.phase == Done && CommittedAt(w.trace, k) && w.stored == WritesOf(w.trace)
    ensures
      var walk := WalkFrom(seqs, job, w, incoming, oracle, hasTotal);
      walk.Ended? && StaysCommitted(walk, w, k)
  {
    if seqs == [] {
      KeepsCommitted(w.trace, k, Replied(ReturnedNil));
      assert w.trace + [] == w.trace;
    } else {
      var total := hasTotal || AsksForList(seqs[0]);
      StepAfterCommit(seqs[0], job, w, incoming, oracle, total, k);
      match Step(seqs[0], job, w, incoming, oracle, total)
      case Ended(_, _) =>
      case Going(w') => WalkAfterCommit(seqs[1..], job, w', incoming, oracle, total, k);
    }
  }

  lemma GuardSettles(s: Sequence, job: Job, w: World, incoming: Incoming, oracle: Oracle, total: bool)
    requires InProgress(w) && s.kind in {Empty, Exists}
    ensures
      match Step(s, job, w, incoming, oracle, total)
      case Ended(trace, stored) => stored == [] && AbortedAt(trace, |w.trace|)
      case Going(w') => w' == w
  {
    FailAborts(w, [], FailureOf(s, job, ""));
    assert w.(trace := w.trace + []) == w;
  }

  /** A step before the first @response. */
  lemma StepSettles(s: Sequence, job: Job, w: World, incoming: Incoming, oracle: Oracle, total: bool)
    requires InProgress(w) && s.kind != Response
    ensures
      match Step(s, job, w, incoming, oracle, total)
      case Ended(trace, stored) => stored == [] && AbortedAt(trace, |w.trace|)
      case Going(w') => InProgress(w') && Grows(w.pending, w'.pending, s)
  {
    if s.kind in {Empty, Exists} {
      GuardSettles(s, job, w, incoming, oracle, total);
    } else {
      CallSettles(s, job, w, incoming, oracle);
    }
  }

  lemma ClosedSettles(w: World, subscribe: bool, k: nat, writes: seq<Sequence>)
    requires CommittedAt(w.trace, k) && w.stored == WritesOf(w.trace) && CallsOf(w.stored, writes)
    ensures Settled(w.trace + (if subscribe then [Replied(ReturnedNil)] else []), w.stored, writes)
  {
    KeepsCommitted(w.trace, k, Replied(ReturnedNil));
    assert w.trace + [] == w.trace;
  }

  lemma FinishSettles(job: Job, w: World, oracle: Oracle, writes: seq<Sequence>)
    requires InProgress(w) && CallsOf(w.pending, writes)
    ensures
      var walk := Finish(w, job, oracle);
      walk.Ended? && Settled(walk.trace, walk.stored, writes)
  {
    CommitSettles(w, job.subscribe, oracle);
    match Commit(w, job.subscribe, oracle)
    case Ended(_, _) =>
    case Going(w') => ClosedSettles(w', job.subscribe, |w.trace|, writes);
  }

  lemma {:induction false} WalkSettles(seqs: seq<Sequence>, i: nat, job: Job, w: World, incoming: Incoming, oracle: Oracle, hasTotal: bool)
    requires i <= FirstResponse(seqs) && InProgress(w) && CallsOf(w.pending, Writes(seqs[..i]))
    ensures
      var walk := WalkFrom(seqs[i..], job, w, incoming, oracle, hasTotal);
      walk.Ended? && Settled(walk.trace, walk.stored, Writes(seqs[..FirstResponse(seqs)]))
    decreases |seqs| - i
  {
    if i == |seqs| {
      assert seqs[..i] == seqs[..FirstResponse(seqs)];
      FinishSettles(job, w, oracle, Writes(seqs[..i]));
    } else {
      var total := hasTotal || AsksForList(seqs[i]);
      assert seqs[i..][0] == seqs[i] && seqs[i..][1..] == seqs[i + 1..];
      if seqs[i].kind == Response {
        RespondSettles(seqs[i..], job, w, incoming, oracle, hasTotal, Writes(seqs[..i]));
      } else {
        StepSettles(seqs[i], job, w, incoming, oracle, total);
        match Step(seqs[i], job, w, incoming, oracle, total)
        case Ended(_, _) =>
        case Going(w') =>
          PendingNext(seqs, i, w.pending, w'.pending);
          WalkSettles(seqs, i + 1, job, w', incoming, oracle, total);
      }
    }
  }

  lemma WritesNext(seqs: seq<Sequence>, i: nat)
    requires i < |seqs|
    ensures Writes(seqs[..i + 1]) == Writes(seqs[..i]) + (if Saves(seqs[i]) then [seqs[i]] else [])
  {
    assert seqs[..i + 1][..i] == seqs[..i];
  }

  lemma PendingNext(seqs: seq<Sequence>, i: nat, before: seq<Effect>, after: seq<Effect>)
    requires i < |seqs| && CallsOf(before, Writes(seqs[..i])) && Grows(before, after, seqs[i])
    ensures CallsOf(after, Writes(seqs[..i + 1]))
  {
    WritesNext(seqs, i);
    assert forall k :: 0 <= k < |before| ==> after[..|before|][k] == before[k];
  }

  lemma WalkOfResponse(seqs: seq<Sequence>, job: Job, w: World, incoming: Incoming, oracle: Oracle, hasTotal: bool)
    requires seqs != [] && seqs[0].kind == Response && w.phase == InTx
    ensures
      var total := hasTotal || AsksForList(seqs[0]);
      WalkFrom(seqs, job, w, incoming, oracle, hasTotal) ==
      match Commit(w, job.subscribe, oracle)
      case Ended(trace, stored) => Ended(trace, stored)
      case Going(w') => WalkFrom(seqs[1..], job, Answered(seqs[0], w', incoming, total), incoming, oracle, total)
  {
  }

  lemma AnswerStaysCommitted(s: Sequence, w: World, incoming: Incoming, total: bool, k: nat)
    requires w.phase == Done && CommittedAt(w.trace, k) && w.stored == WritesOf(w.trace)
    ensures
      var w' := Answered(s, w, incoming, total);
      w'.phase == Done && w'.stored == w.stored == WritesOf(w'.trace) && CommittedAt(w'.trace, k)
  {
    KeepsCommitted(w.trace, k, Answered(s, w, incoming, total).trace[|w.trace|]);
  }

  lemma RespondSettles(seqs: seq<Sequence>, job: Job, w: World, incoming: Incoming, oracle: Oracle, hasTotal: bool,
                       writes: seq<Sequence>)
    requires seqs != [] && seqs[0].kind == Response && InProgress(w) && CallsOf(w.pending, writes)
    ensures
      var walk := WalkFrom(seqs, job, w, incoming, oracle, hasTotal);
      walk.Ended? && Settled(walk.trace, walk.stored, writes)
  {
    var total := hasTotal || AsksForList(seqs[0]);
    CommitSettles(w, job.subscribe, oracle);
    WalkOfResponse(seqs, job, w, incoming, oracle, hasTotal);
    match Commit(w, job.subscribe, oracle)
    case Ended(_, _) =>
    case Going(w') =>
      AnswerStaysCommitted(seqs[0], w', incoming, total, |w.trace|);
      WalkAfterCommit(seqs[1..], job, Answered(seqs[0], w', incoming, total), incoming, oracle, total, |w.trace|);
  }

  lemma MeaningSettles(job: Job, incoming: Incoming, oracle: Oracle)
    requires SavesAny(job.seqs)
    ensures
      var walk := Meaning(job, incoming, oracle);
      walk.Ended? && Settled(walk.trace, walk.stored, Writes(job.seqs[..FirstResponse(job.seqs)]))
  {
    if !Decodes(job, incoming) {
      FailAborts(UNBEGUN, [], REJECTION);
      assert UNBEGUN.(trace := UNBEGUN.trace + []) == UNBEGUN;
    } else {
      MeaningForm(job, incoming, oracle);
      if oracle([], BeginTx).Ok? {
        assert job.seqs[0..] == job.seqs;
        assert WritesOf(BEGUN.trace) == [] by { WritesOfAppend([], Did(BeginTx, true)); }
        WalkSettles(job.seqs, 0, job, BEGUN, Received(job, incoming), oracle, false);
      } else {
        FailAborts(UNBEGUN, [Did(BeginTx, false)],
                   TxFailure(job.subscribe, "transaction failed", oracle([], BeginTx).text));
        assert UNBEGUN.trace + [Did(BeginTx, false)] == [Did(BeginTx, false)];
      }
    }
  }

  // ----- main results, about the generated code -----

  /** Every run of a generated handler with writes stores nothing, or exactly the writes of the write sequences
      before the first @response, one each and in order; a write after the first @response is never stored. */
  lemma AllOrNothing(job: Job, incoming: Incoming, oracle: Oracle)
    requires SoundSource(job)
    requires SavesAny(job.seqs)
    ensures
      var m := Run(HandlerBody(job), StartOfCall(job, incoming), incoming, oracle);
      || m.stored == []
      || (m.stored == WritesOf(m.trace) && CallsOf(m.stored, Writes(job.seqs[..FirstResponse(job.seqs)])))
  {
    MeaningPreserved(job, incoming, oracle);
    MeaningSettles(job, incoming, oracle);
  }

  /** When no write follows the first @response: all of the function's writes, or none. */
  lemma AllWritesOrNone(job: Job, incoming: Incoming, oracle: Oracle)
    requires SoundSource(job)
    requires SavesAny(job.seqs)
    requires forall i :: FirstResponse(job.seqs) <= i < |job.seqs| ==> !Saves(job.seqs[i])
    ensures
      var m := Run(HandlerBody(job), StartOfCall(job, incoming), incoming, oracle);
      m.stored == [] || (m.stored == WritesOf(m.trace) && CallsOf(m.stored, Writes(job.seqs)))
  {
    AllOrNothing(job, incoming, oracle);
    NoLaterWrites(job.seqs, FirstResponse(job.seqs));
  }

  lemma {:induction false} NoLaterWrites(seqs: seq<Sequence>, r: nat)
    requires r <= |seqs| && forall i :: r <= i < |seqs| ==> !Saves(seqs[i])
    ensures Writes(seqs[..r]) == Writes(seqs)
    decreases |seqs| - r
  {
    if r == |seqs| {
      assert seqs[..r] == seqs;
    } else {
      WritesNext(seqs, r);
      NoLaterWrites(seqs, r + 1);
    }
  }

  /** At most one commit, only after successful calls and before any reply; every success reply comes after a
      successful commit; and unless an error is replied, there is a successful commit. */
  ghost predicate CommitDiscipline(trace: seq<Event>) {
    && (forall i, j :: 0 <= i < |trace| && 0 <= j < |trace| && IsCommitEvent(trace[i]) && IsCommitEvent(trace[j]) ==> i == j)
    && (forall i, j :: 0 <= j < i < |trace| && IsCommitEvent(trace[i]) ==> trace[j].Did? && trace[j].ok)
    && (forall i :: 0 <= i < |trace| && IsSuccessReply(trace[i]) ==> Did(CommitTx, true) in trace[..i])
    && ((forall i :: 0 <= i < |trace| && trace[i].Replied? ==> IsSuccessReply(trace[i])) ==> Did(CommitTx, true) in trace)
  }

  lemma SettledIsDisciplined(trace: seq<Event>, stored: seq<Effect>, writes: seq<Sequence>)
    requires Settled(trace, stored, writes)
    ensures CommitDiscipline(trace)
  {
    if k :| CommittedAt(trace, k) {
      CommittedTrace(trace, k);
    } else {
      var k :| AbortedAt(trace, k);
      AbortedTrace(trace, k);
    }
  }

  /** Commit discipline, for every run of a generated handler with writes. */
  lemma CommitOnce(job: Job, incoming: Incoming, oracle: Oracle)
    requires SoundSource(job)
    requires SavesAny(job.seqs)
    ensures CommitDiscipline(Run(HandlerBody(job), StartOfCall(job, incoming), incoming, oracle).trace)
  {
    MeaningPreserved(job, incoming, oracle);
    MeaningSettles(job, incoming, oracle);
    var walk := Meaning(job, incoming, oracle);
    SettledIsDisciplined(walk.trace, walk.stored, Writes(job.seqs[..FirstResponse(job.seqs)]));
  }

  lemma CommittedTrace(trace: seq<Event>, k: nat)
    requires CommittedAt(trace, k)
    ensures forall i :: 0 <= i < |trace| && IsCommitEvent(trace[i]) ==> i == k
    ensures forall j :: 0 <= j < k ==> trace[j].Did? && trace[j].ok
    ensures forall i :: 0 <= i < |trace| && IsSuccessReply(trace[i]) ==> Did(CommitTx, true) in trace[..i]
    ensures Did(CommitTx, true) in trace
  {
    forall j | 0 <= j < k ensures trace[j].Did? && trace[j].ok && !IsCommitEvent(trace[j]) {
      assert trace[..k][j] == trace[j];
    }
    forall i | 0 <= i < |trace| && IsSuccessReply(trace[i]) ensures Did(CommitTx, true) in trace[..i] {
      assert trace[..i][k] == trace[k];
    }
  }

  lemma AbortedTrace(trace: seq<Event>, k: nat)
    requires AbortedAt(trace, k)
    ensures forall i :: 0 <= i < |trace| && IsCommitEvent(trace[i]) ==> i == k
    ensures forall j :: 0 <= j < k ==> trace[j].Did? && trace[j].ok
    ensures forall i :: 0 <= i < |trace| ==> !IsSuccessReply(trace[i])
    ensures exists i :: 0 <= i < |trace| && trace[i].Replied? && !IsSuccessReply(trace[i])
  {
    var tail := trace[k..];
    forall j | 0 <= j < k ensures trace[j].Did? && trace[j].ok && !IsCommitEvent(trace[j]) {
      assert trace[..k][j] == trace[j];
    }
    assert forall j :: k <= j < |trace| ==> trace[j] == tail[j - k];
    var r := if tail[0].Did? then 1 else 0;
    assert trace[k + r].Replied? && !IsSuccessReply(trace[k + r]);
  }
}
