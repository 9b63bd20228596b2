/** Any number of rotations, logins, logouts and sweeps interleaved: one store operation is one step. Logins are
    numbered, and the history fields `origin` and `logins` record from which login a row descends. Minting is
    deterministic, so a hash may be stored that is already there: the row is replaced, and belongs to the newer
    login from then on. */
module RotationRuns {
  import opened SequenceDsl
  import opened RefreshStore
  import opened Rotation

  /** Where a rotation call stands. */
  datatype Call =
    | Begun(hash: string, detect: bool)
    | InFlight(claims: Claims, login: nat)
    | Locking(claims: Claims)
    | Finished

  datatype State = State(rows: Rows, calls: map<nat, Call>, origin: map<string, nat>, logins: map<nat, Claims>)

  datatype Step =
    | Login(login: nat, hash: string, claims: Claims, expiresAt: int)
    | Logout(hash: string)
    | Sweep(matcher: ClaimMatcher)
    | Begin(id: nat, hash: string, detect: bool)
    | TakeToken(id: nat, now: int)
    | LockOut(id: nat)
    | GiveUp(id: nat)
    | StoreNew(id: nat, hash: string, expiresAt: int)

  predicate Enabled(s: State, step: Step) {
    match step
    case Login(login, _, _, _) => login !in s.logins
    case Logout(_) => true
    case Sweep(_) => true
    case Begin(id, _, _) => id !in s.calls
    case TakeToken(id, _) => id in s.calls && s.calls[id].Begun? && (s.calls[id].hash in s.rows ==> s.calls[id].hash in s.origin)
    case LockOut(id) => id in s.calls && s.calls[id].Locking?
    case GiveUp(id) => id in s.calls && s.calls[id].InFlight?
    case StoreNew(id, _, _) => id in s.calls && s.calls[id].InFlight?
  }

  function AfterTaking(s: State, call: Call, now: int): Call
    requires call.Begun? && (call.hash in s.rows ==> call.hash in s.origin)
  {
    match ConsumeResult(s.rows, call.hash, now)
    case NotFound => Finished
    case Reused(claims) => if call.detect then Locking(claims) else Finished
    case Granted(claims) => InFlight(claims, s.origin[call.hash])
  }

  function Do(s: State, step: Step): State
    requires Enabled(s, step)
  {
    match step
    case Login(login, hash, claims, expiresAt) =>
      s.(rows := Created(s.rows, hash, claims, expiresAt), origin := s.origin[hash := login], logins := s.logins[login := claims])
    case Logout(hash) => s.(rows := Revoked(s.rows, hash))
    case Sweep(matcher) => s.(rows := RevokedAll(s.rows, matcher))
    case Begin(id, hash, detect) => s.(calls := s.calls[id := Begun(hash, detect)])
    case TakeToken(id, now) =>
      s.(rows := Consumed(s.rows, s.calls[id].hash, now), calls := s.calls[id := AfterTaking(s, s.calls[id], now)])
    case LockOut(id) =>
      s.(rows := RevokedAll(s.rows, MatcherOf(s.calls[id].claims)), calls := s.calls[id := Finished])
    case GiveUp(id) => s.(calls := s.calls[id := Finished])
    case StoreNew(id, hash, expiresAt) =>
      s.(rows := Created(s.rows, hash, s.calls[id].claims, expiresAt), origin := s.origin[hash := s.calls[id].login],
         calls := s.calls[id := Finished])
  }

  predicate Possible(s: State, steps: seq<Step>)
    decreases |steps|
  {
    steps == [] || (Enabled(s, steps[0]) && Possible(Do(s, steps[0]), steps[1..]))
  }

  function Run(s: State, steps: seq<Step>): State
    requires Possible(s, steps)
    decreases |steps|
  {
    if steps == [] then s else Run(Do(s, steps[0]), steps[1..])
  }

  const EMPTY := State.State(map[], map[], map[], map[])

  // ----- lineages -----

  /** What can still yield an active token of a login: an active row, or a rotation between consuming and
      storing. */
  datatype Bearer = ActiveRow(hash: string) | RunningCall(id: nat)

  predicate Bears(s: State, b: Bearer, login: nat) {
    match b
    case ActiveRow(hash) => hash in s.rows && !s.rows[hash].revoked && hash in s.origin && s.origin[hash] == login
    case RunningCall(id) => id in s.calls && s.calls[id].InFlight? && s.calls[id].login == login
  }

  function Bearers(s: State, login: nat): set<Bearer> {
    (set h | h in s.rows && Bears(s, ActiveRow(h), login) :: ActiveRow(h))
    + (set id | id in s.calls && Bears(s, RunningCall(id), login) :: RunningCall(id))
  }

  /** Every row and every call in flight carries its login's claims. */
  ghost predicate ClaimsKept(s: State) {
    && s.rows.Keys == s.origin.Keys
    && (forall h :: h in s.rows ==> s.origin[h] in s.logins && s.rows[h].claims == s.logins[s.origin[h]])
    && (forall id :: id in s.calls && s.calls[id].InFlight? ==>
          s.calls[id].login in s.logins && s.calls[id].claims == s.logins[s.calls[id].login])
  }

  ghost predicate OneBearer(s: State) {
    forall login, b, c :: Bears(s, b, login) && Bears(s, c, login) ==> b == c
  }

  ghost predicate Sound(s: State) {
    ClaimsKept(s) && OneBearer(s)
  }

  /** Rows only age: no row disappears or changes its claims, and a revoked row stays revoked. */
  ghost predicate Aged(rows: Rows, after: Rows) {
    && after.Keys == rows.Keys
    && (forall h :: h in rows ==> after[h].claims == rows[h].claims && (rows[h].revoked ==> after[h].revoked))
  }

  lemma StoreOperationsAge(rows: Rows, hash: string, matcher: ClaimMatcher, now: int)
    ensures Aged(rows, Revoked(rows, hash)) && Aged(rows, Consumed(rows, hash, now)) && Aged(rows, RevokedAll(rows, matcher))
  {
  }

  /** Every step but a login or the storing of a new token only ages the rows. */
  lemma StepAges(s: State, step: Step)
    requires Enabled(s, step) && !step.Login? && !step.StoreNew?
    ensures Aged(s.rows, Do(s, step).rows) && Do(s, step).origin == s.origin && Do(s, step).logins == s.logins
  {
    match step
    case Logout(hash) => StoreOperationsAge(s.rows, hash, map[], 0);
    case Sweep(matcher) => StoreOperationsAge(s.rows, "", matcher, 0);
    case TakeToken(id, now) => StoreOperationsAge(s.rows, s.calls[id].hash, map[], now);
    case LockOut(id) => StoreOperationsAge(s.rows, "", MatcherOf(s.calls[id].claims), 0);
    case _ =>
  }

  ghost predicate CallsKept(s: State) {
    forall id :: id in s.calls && s.calls[id].InFlight? ==>
      s.calls[id].login in s.logins && s.calls[id].claims == s.logins[s.calls[id].login]
  }

  lemma StepKeepsCalls(s: State, step: Step)
    requires ClaimsKept(s) && Enabled(s, step) && !step.Login? && !step.StoreNew?
    ensures CallsKept(Do(s, step))
  {
  }

  lemma AgedKeepsClaims(s: State, t: State)
    requires ClaimsKept(s) && Aged(s.rows, t.rows) && t.origin == s.origin && t.logins == s.logins && CallsKept(t)
    ensures ClaimsKept(t)
  {
  }

  ghost predicate LoginsKept(s: State, t: State) {
    forall l :: l in s.logins ==> l in t.logins && t.logins[l] == s.logins[l]
  }

  lemma CreatingKeepsClaims(s: State, step: Step)
    requires ClaimsKept(s) && Enabled(s, step) && (step.Login? || step.StoreNew?)
    ensures ClaimsKept(Do(s, step)) && LoginsKept(s, Do(s, step))
  {
  }

  lemma StepKeepsClaims(s: State, step: Step)
    requires ClaimsKept(s) && Enabled(s, step)
    ensures ClaimsKept(Do(s, step)) && LoginsKept(s, Do(s, step))
  {
    if step.Login? || step.StoreNew? {
      CreatingKeepsClaims(s, step);
    } else {
      StepAges(s, step);
      StepKeepsCalls(s, step);
      AgedKeepsClaims(s, Do(s, step));
    }
  }

  /** Whose role a bearer took over in a step. */
  function Source(s: State, step: Step, b: Bearer): Bearer
    requires Enabled(s, step)
  {
    if step.TakeToken? && b == RunningCall(step.id) then ActiveRow(s.calls[step.id].hash)
    else if step.StoreNew? && b == ActiveRow(step.hash) then RunningCall(step.id)
    else b
  }

  predicate IsNewLogin(s: State, step: Step, b: Bearer, login: nat) {
    step.Login? && step.login == login && b == ActiveRow(step.hash) && login !in s.logins
  }

  lemma TakingComesFrom(s: State, step: Step, b: Bearer, login: nat)
    requires ClaimsKept(s) && Enabled(s, step) && step.TakeToken? && Bears(Do(s, step), b, login)
    ensures Bears(s, Source(s, step, b), login)
  {
  }

  lemma CreatingComesFrom(s: State, step: Step, b: Bearer, login: nat)
    requires ClaimsKept(s) && Enabled(s, step) && (step.Login? || step.StoreNew?) && Bears(Do(s, step), b, login)
    ensures IsNewLogin(s, step, b, login) || Bears(s, Source(s, step, b), login)
  {
  }

  lemma OthersComeFrom(s: State, step: Step, b: Bearer, login: nat)
    requires Enabled(s, step) && !step.Login? && !step.StoreNew? && !step.TakeToken? && Bears(Do(s, step), b, login)
    ensures Bears(s, b, login)
  {
    StepAges(s, step);
    assert b.RunningCall? ==> b.id in s.calls && Do(s, step).calls[b.id] == s.calls[b.id];
  }

  /** A step makes a bearer only by handing on the role of another one, or for a new login. */
  lemma BearerComesFrom(s: State, step: Step, b: Bearer, login: nat)
    requires ClaimsKept(s) && Enabled(s, step) && Bears(Do(s, step), b, login)
    ensures IsNewLogin(s, step, b, login) || Bears(s, Source(s, step, b), login)
  {
    if step.TakeToken? {
      TakingComesFrom(s, step, b, login);
    } else if step.Login? || step.StoreNew? {
      CreatingComesFrom(s, step, b, login);
    } else {
      OthersComeFrom(s, step, b, login);
    }
  }

  /** A role is handed on, never doubled. */
  lemma SourceIsInjective(s: State, step: Step, b: Bearer, c: Bearer, login: nat)
    requires Enabled(s, step) && Bears(Do(s, step), b, login) && Bears(Do(s, step), c, login)
    requires Source(s, step, b) == Source(s, step, c)
    ensures b == c
  {
    if step.StoreNew? {
      assert !Bears(Do(s, step), RunningCall(step.id), login);
    }
  }

  lemma FirstBearerOfLogin(s: State, step: Step, login: nat, c: Bearer)
    requires ClaimsKept(s) && Enabled(s, step) && login !in s.logins
    ensures !Bears(s, c, login)
  {
  }

  lemma StepKeepsOneBearer(s: State, step: Step)
    requires Sound(s) && Enabled(s, step)
    ensures OneBearer(Do(s, step))
  {
    forall login, b, c | Bears(Do(s, step), b, login) && Bears(Do(s, step), c, login) ensures b == c {
      TwoBearersAreOne(s, step, login, b, c);
    }
  }

  lemma TwoBearersAreOne(s: State, step: Step, login: nat, b: Bearer, c: Bearer)
    requires Sound(s) && Enabled(s, step) && Bears(Do(s, step), b, login) && Bears(Do(s, step), c, login)
    ensures b == c
  {
    BearerComesFrom(s, step, b, login);
    BearerComesFrom(s, step, c, login);
    if login !in s.logins {
      FirstBearerOfLogin(s, step, login, Source(s, step, b));
      FirstBearerOfLogin(s, step, login, Source(s, step, c));
    } else {
      SourceIsInjective(s, step, b, c, login);
    }
  }

  lemma StepKeepsSound(s: State, step: Step)
    requires Sound(s) && Enabled(s, step)
    ensures Sound(Do(s, step)) && LoginsKept(s, Do(s, step))
  {
    StepKeepsClaims(s, step);
    StepKeepsOneBearer(s, step);
  }

  lemma LoginsKeptTwice(s: State, t: State, u: State)
    requires LoginsKept(s, t) && LoginsKept(t, u)
    ensures LoginsKept(s, u)
  {
  }

  lemma {:induction false} RunKeepsSound(s: State, steps: seq<Step>)
    requires Sound(s) && Possible(s, steps)
    ensures Sound(Run(s, steps)) && LoginsKept(s, Run(s, steps))
    decreases |steps|
  {
    if steps != [] {
      var next := Do(s, steps[0]);
      StepKeepsSound(s, steps[0]);
      RunKeepsSound(next, steps[1..]);
      LoginsKeptTwice(s, next, Run(next, steps[1..]));
    }
  }

  lemma AtMostOne(bearers: set<Bearer>)
    requires forall b, c :: b in bearers && c in bearers ==> b == c
    ensures |bearers| <= 1
  {
    if bearers != {} {
      var b :| b in bearers;
      assert bearers == {b};
    }
  }

  /** Rotation lineage: in every interleaving, the active rows descended from one login and the rotations
      of that login between consuming and storing number at most one together, and every row of the lineage
      carries the login's claims unchanged. */
  lemma Lineage(steps: seq<Step>, login: nat)
    requires Possible(EMPTY, steps)
    ensures var s := Run(EMPTY, steps);
            && |Bearers(s, login)| <= 1
            && (forall h :: h in s.rows ==> h in s.origin && s.origin[h] in s.logins && s.rows[h].claims == s.logins[s.origin[h]])
  {
    RunKeepsSound(EMPTY, steps);
    AtMostOne(Bearers(Run(EMPTY, steps), login));
  }

  ghost predicate Ended(s: State, login: nat) {
    login in s.logins && forall b :: !Bears(s, b, login)
  }

  lemma EndedStep(s: State, step: Step, login: nat)
    requires Sound(s) && Enabled(s, step) && Ended(s, login)
    ensures Ended(Do(s, step), login)
  {
    StepKeepsClaims(s, step);
    forall b ensures !Bears(Do(s, step), b, login) {
      if Bears(Do(s, step), b, login) {
        BearerComesFrom(s, step, b, login);
      }
    }
  }

  /** A login with no active row and no rotation in flight never has an active row again. */
  lemma {:induction false} EndedSessionStaysEnded(s: State, steps: seq<Step>, login: nat)
    requires Sound(s) && Possible(s, steps) && Ended(s, login)
    ensures Ended(Run(s, steps), login)
    decreases |steps|
  {
    if steps != [] {
      EndedStep(s, steps[0], login);
      StepKeepsSound(s, steps[0]);
      EndedSessionStaysEnded(Do(s, steps[0]), steps[1..], login);
    }
  }

  // ----- lockout in the middle of other calls -----

  predicate LogsIn(step: Step, matcher: ClaimMatcher) {
    step.Login? && Contains(step.claims, matcher)
  }

  predicate NoActiveRow(rows: Rows, matcher: ClaimMatcher) {
    forall h :: h in rows && Contains(rows[h].claims, matcher) ==> rows[h].revoked
  }

  predicate NoneInFlight(s: State, matcher: ClaimMatcher) {
    forall id :: id in s.calls && s.calls[id].InFlight? ==> !Contains(s.calls[id].claims, matcher)
  }

  lemma {:induction false} LockoutLasts(s: State, steps: seq<Step>, matcher: ClaimMatcher)
    requires Possible(s, steps) && NoActiveRow(s.rows, matcher) && NoneInFlight(s, matcher)
    requires forall k :: 0 <= k < |steps| ==> !LogsIn(steps[k], matcher)
    ensures NoActiveRow(Run(s, steps).rows, matcher)
    decreases |steps|
  {
    if steps != [] {
      LockoutStep(s, steps[0], matcher);
      LockoutLasts(Do(s, steps[0]), steps[1..], matcher);
    }
  }

  lemma LockoutStep(s: State, step: Step, matcher: ClaimMatcher)
    requires Enabled(s, step) && NoActiveRow(s.rows, matcher) && NoneInFlight(s, matcher) && !LogsIn(step, matcher)
    ensures NoActiveRow(Do(s, step).rows, matcher) && NoneInFlight(Do(s, step), matcher)
  {
  }

  /** A continuation without a new login that carries the claims. */
  predicate Continuation(s: State, steps: seq<Step>, matcher: ClaimMatcher) {
    Possible(s, steps) && forall k :: 0 <= k < |steps| ==> !LogsIn(steps[k], matcher)
  }

  /** How far a lockout reaches: sweeping a matcher keeps every later token with those claims inactive,
      short of a new login, exactly when no rotation carrying them is between consuming and storing. */
  lemma LockoutReach(s: State, matcher: ClaimMatcher)
    requires matcher != map[]
    ensures var swept := Do(s, Sweep(matcher));
            && NoActiveRow(swept.rows, matcher)
            && (NoneInFlight(swept, matcher)
                <==> forall steps | Continuation(swept, steps, matcher) :: NoActiveRow(Run(swept, steps).rows, matcher))
  {
    var swept := Do(s, Sweep(matcher));
    forall steps | Continuation(swept, steps, matcher) && NoneInFlight(swept, matcher)
      ensures NoActiveRow(Run(swept, steps).rows, matcher)
    {
      LockoutLasts(swept, steps, matcher);
    }
    if !NoneInFlight(swept, matcher) {
      var id :| id in swept.calls && swept.calls[id].InFlight? && Contains(swept.calls[id].claims, matcher);
      var hash: string := [];
      var step := StoreNew(id, hash, 0);
      var steps := [step];
      assert steps[1..] == [];
      assert Possible(Do(swept, step), []);
      assert Continuation(swept, steps, matcher);
      assert Run(swept, steps).rows == Created(swept.rows, hash, swept.calls[id].claims, 0);
      assert hash in Run(swept, steps).rows;
    }
  }

  // ----- a call that nothing interrupts -----

  /** What a call does after taking its token. */
  function Rest(taken: Consumption, hash: string -> string, detect: bool, env: Env, id: nat): seq<Step> {
    match taken
    case NotFound => []
    case Reused(_) => if detect then [LockOut(id)] else []
    case Granted(claims) =>
      if env.issue(claims).None? || env.mint(claims).None? then [GiveUp(id)]
      else [StoreNew(id, hash(env.mint(claims).value.token), env.mint(claims).value.expiresAt)]
  }

  /** The steps of a whole rotation that starts in these rows. */
  function CallSteps(rows: Rows, hash: string -> string, token: string, detect: bool, env: Env, id: nat): seq<Step> {
    if token == "" || !env.verify(token) then []
    else [Begin(id, hash(token), detect), TakeToken(id, env.now)] + Rest(ConsumeResult(rows, hash(token), env.now), hash, detect, env, id)
  }

  /** Run without interruption, the steps of a call are the rotation. */
  lemma UninterruptedCall(s: State, hash: string -> string, token: string, detect: bool, env: Env, id: nat)
    requires ClaimsKept(s) && id !in s.calls
    ensures var steps := CallSteps(s.rows, hash, token, detect, env, id);
            Possible(s, steps) && Run(s, steps).rows == RotateOn(s.rows, hash, token, detect, env).0
  {
    if token != "" && env.verify(token) {
      var taken := TwoSteps(s, hash(token), detect, env.now, id,
                            Rest(ConsumeResult(s.rows, hash(token), env.now), hash, detect, env, id));
      RestOfCall(s.rows, taken, hash, token, detect, env, id);
    }
  }

  lemma TwoSteps(s: State, hash: string, detect: bool, now: int, id: nat, rest: seq<Step>) returns (taken: State)
    requires ClaimsKept(s) && id !in s.calls
    ensures id in taken.calls && taken.calls[id] == AfterTaking(s, Begun(hash, detect), now)
    ensures taken.rows == Consumed(s.rows, hash, now)
    ensures var steps := [Begin(id, hash, detect), TakeToken(id, now)] + rest;
            (Possible(s, steps) <==> Possible(taken, rest)) && (Possible(taken, rest) ==> Run(s, steps) == Run(taken, rest))
  {
    var begun := Do(s, Begin(id, hash, detect));
    taken := Do(begun, TakeToken(id, now));
    var steps := [Begin(id, hash, detect), TakeToken(id, now)] + rest;
    assert steps[1..] == [TakeToken(id, now)] + rest;
    assert steps[1..][1..] == rest;
  }

  lemma RestOfCall(rows: Rows, taken: State, hash: string -> string, token: string, detect: bool, env: Env, id: nat)
    requires token != "" && env.verify(token) && id in taken.calls
    requires taken.rows == Consumed(rows, hash(token), env.now)
    requires match ConsumeResult(rows, hash(token), env.now)
             case NotFound => taken.calls[id] == Finished
             case Reused(claims) => taken.calls[id] == if detect then Locking(claims) else Finished
             case Granted(claims) => taken.calls[id].InFlight? && taken.calls[id].claims == claims
    ensures var rest := Rest(ConsumeResult(rows, hash(token), env.now), hash, detect, env, id);
            Possible(taken, rest) && Run(taken, rest).rows == RotateOn(rows, hash, token, detect, env).0
  {
    TailOfCall(taken, Rest(ConsumeResult(rows, hash(token), env.now), hash, detect, env, id));
  }

  lemma TailOfCall(s: State, steps: seq<Step>)
    requires |steps| <= 1 && (steps != [] ==> Enabled(s, steps[0]))
    ensures Possible(s, steps) && Run(s, steps) == if steps == [] then s else Do(s, steps[0])
  {
    if steps != [] {
      assert steps[1..] == [];
    }
  }
}
