/** RefreshRotate: verify, consume, issue a new pair, create the new row. */
module Rotation {
  import opened SequenceDsl
  import opened RefreshStore

  datatype Minted = Minted(token: string, expiresAt: int)

  /** What lies outside the store: the clock, signature checking and signing. */
  datatype Env = Env(now: int, verify: string -> bool, issue: Claims -> Option<string>, mint: Claims -> Option<Minted>)

  datatype Outcome =
    | NotConfigured
    | EmptyToken
    | BadToken
    | ReuseDetected
    | TokenNotFound
    | IssueFailed
    | Rotated(access: string, refresh: string, expiresAt: int)

  /** The matcher decoded from a blob; a blob that is no object gives none. */
  function MatcherOf(claims: Claims): ClaimMatcher {
    if claims.Object? then claims.entries else map[]
  }

  /** What a rotation that consumed its token does next. */
  function Issued(rows: Rows, hash: string -> string, claims: Claims, env: Env): (Rows, Outcome) {
    var access := env.issue(claims);
    var minted := env.mint(claims);
    if access.None? || minted.None? then (rows, IssueFailed)
    else
      (Created(rows, hash(minted.value.token), claims, minted.value.expiresAt),
       Rotated(access.value, minted.value.token, minted.value.expiresAt))
  }

  /** A whole rotation that nothing interrupts. */
  function RotateOn(rows: Rows, hash: string -> string, token: string, detect: bool, env: Env): (Rows, Outcome) {
    if token == "" then (rows, EmptyToken)
    else if !env.verify(token) then (rows, BadToken)
    else
      match ConsumeResult(rows, hash(token), env.now)
      case NotFound => (rows, TokenNotFound)
      case Reused(claims) => (if detect then RevokedAll(rows, MatcherOf(claims)) else rows, ReuseDetected)
      case Granted(claims) => Issued(Consumed(rows, hash(token), env.now), hash, claims, env)
  }

  /** The store used: the given one, or the package-level one. */
  function Chosen(store: MemoryRefreshStore?, fallback: MemoryRefreshStore?): MemoryRefreshStore? {
    if store != null then store else fallback
  }

  method IssuePair(store: MemoryRefreshStore, claims: Claims, env: Env) returns (outcome: Outcome)
    requires store.Valid()
    modifies store`rows
    ensures store.Valid()
    ensures (store.Contents(), outcome) == Issued(old(store.Contents()), store.hash, claims, env)
  {
    var access := env.issue(claims);
    if access.None? {
      return IssueFailed;
    }
    var minted := env.mint(claims);
    if minted.None? {
      return IssueFailed;
    }
    store.Create(minted.value.token, claims, minted.value.expiresAt);
    return Rotated(access.value, minted.value.token, minted.value.expiresAt);
  }

  method RotateIn(store: MemoryRefreshStore, token: string, detect: bool, env: Env) returns (outcome: Outcome)
    requires store.Valid()
    modifies store`rows, store.rows.Values
    ensures store.Valid()
    ensures (store.Contents(), outcome) == RotateOn(old(store.Contents()), store.hash, token, detect, env)
  {
    if token == "" {
      return EmptyToken;
    }
    if !env.verify(token) {
      return BadToken;
    }
    var consumed := store.Consume(token, env.now);
    if consumed.Reused? {
      if detect {
        var matcher := MatcherOf(consumed.claims);
        if matcher != map[] {
          var _ := store.RevokeAll(matcher);
        }
      }
      return ReuseDetected;
    }
    if consumed.NotFound? {
      return TokenNotFound;
    }
    outcome := IssuePair(store, consumed.claims, env);
  }

  method RefreshRotate(store: MemoryRefreshStore?, fallback: MemoryRefreshStore?, token: string, detect: bool, env: Env)
    returns (outcome: Outcome)
    requires Chosen(store, fallback) != null ==> Chosen(store, fallback).Valid()
    modifies if Chosen(store, fallback) == null then {} else {Chosen(store, fallback)} + Chosen(store, fallback).rows.Values
    ensures Chosen(store, fallback) == null ==> outcome == NotConfigured
    ensures var used := Chosen(store, fallback);
            used != null ==> used.Valid() && (used.Contents(), outcome) == RotateOn(old(used.Contents()), used.hash, token, detect, env)
  {
    var used := store;
    if used == null {
      used := fallback;
    }
    if used == null {
      return NotConfigured;
    }
    outcome := RotateIn(used, token, detect, env);
  }

  // ----- what a rotation guarantees -----

  /** A rotation succeeds exactly when the token verifies, is active and unexpired and both tokens can be
      signed; then the old row is revoked, the new row is active under the same claims, and no other row
      differs. */
  lemma RotationExact(rows: Rows, hash: string -> string, token: string, detect: bool, env: Env)
    ensures var (after, outcome) := RotateOn(rows, hash, token, detect, env);
            var active := token != "" && env.verify(token) && hash(token) in rows && !rows[hash(token)].revoked
                          && env.now <= rows[hash(token)].expiresAt;
            && (outcome.Rotated? <==> active && env.issue(rows[hash(token)].claims).Some? && env.mint(rows[hash(token)].claims).Some?)
            && (outcome.Rotated? ==>
                  var issued := hash(outcome.refresh);
                  && issued in after && after[issued] == Entry(rows[hash(token)].claims, outcome.expiresAt, false)
                  && (issued != hash(token) ==> after[hash(token)] == rows[hash(token)].(revoked := true))
                  && (forall h :: h in rows && h != hash(token) && h != issued ==> h in after && after[h] == rows[h]))
  {
  }

  /** Every other answer, in the order the call looks for them. When signing fails after the token was found active,
      the token is spent all the same; a refusal before that changes nothing, nor does a reuse without lockout. */
  lemma RefusalsExact(rows: Rows, hash: string -> string, token: string, detect: bool, env: Env)
    ensures var (after, outcome) := RotateOn(rows, hash, token, detect, env);
            var h := hash(token);
            var known := token != "" && env.verify(token) && h in rows;
            && outcome != NotConfigured
            && (outcome == EmptyToken <==> token == "")
            && (outcome == BadToken <==> token != "" && !env.verify(token))
            && (outcome == ReuseDetected <==> known && rows[h].revoked)
            && (outcome == TokenNotFound <==>
                  token != "" && env.verify(token) && (h !in rows || (!rows[h].revoked && rows[h].expiresAt < env.now)))
            && (outcome == IssueFailed <==>
                  known && !rows[h].revoked && env.now <= rows[h].expiresAt
                  && (env.issue(rows[h].claims).None? || env.mint(rows[h].claims).None?))
            && (outcome == IssueFailed ==> after == rows[h := Entry(rows[h].claims, rows[h].expiresAt, true)])
            && (outcome in {EmptyToken, BadToken, TokenNotFound} || (outcome == ReuseDetected && !detect) ==> after == rows)
  {
    ConsumeExact(rows, hash(token), env.now);
  }

  /** A token that was rotated is reported as reused by the next rotation exactly when the new token's hash
      differs from its own; signing the same claims within the same second mints the same token again. */
  lemma RotatedIsSpent(rows: Rows, hash: string -> string, token: string, detect: bool, env: Env, detect': bool, env': Env)
    requires RotateOn(rows, hash, token, detect, env).1.Rotated? && env'.verify(token)
    ensures var (after, outcome) := RotateOn(rows, hash, token, detect, env);
            RotateOn(after, hash, token, detect', env').1 == ReuseDetected <==> hash(outcome.refresh) != hash(token)
  {
    RotationExact(rows, hash, token, detect, env);
  }

  /** The lockout: a detected reuse with lockout on and at least one claim leaves no active row that carries all the
      claims of the reused token, and touches no other row. In every other case a reuse changes nothing. */
  lemma LockoutIsExact(rows: Rows, hash: string -> string, token: string, detect: bool, env: Env)
    requires RotateOn(rows, hash, token, detect, env).1 == ReuseDetected
    ensures hash(token) in rows && rows[hash(token)].revoked
    ensures var after := RotateOn(rows, hash, token, detect, env).0;
            var reused := rows[hash(token)].claims;
            && after.Keys == rows.Keys
            && (forall h :: h in rows ==>
                  after[h] == if detect && reused.Object? && reused.entries != map[]
                                 && rows[h].claims.Object? && reused.entries.Items <= rows[h].claims.entries.Items
                              then rows[h].(revoked := true) else rows[h])
  {
    SweepIsExactOrNothing(rows, MatcherOf(rows[hash(token)].claims));
    if detect {
      forall h | h in rows { SweepMeans(rows, MatcherOf(rows[hash(token)].claims), h); }
    }
  }

  lemma SweepIsExactOrNothing(rows: Rows, matcher: ClaimMatcher)
    ensures RevokedAll(rows, matcher).Keys == rows.Keys
    ensures matcher == map[] ==> RevokedAll(rows, matcher) == rows
  {
    if matcher != map[] {
      SweepIsExact(rows, matcher);
    }
  }
}
