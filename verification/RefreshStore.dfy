/** The in-memory store of one-time-use refresh tokens: rows updated in place, proved against functions on
    their contents. The store's lock makes every operation one step. */
module RefreshStore {
  import opened SequenceDsl

  /** A stored claim blob: a JSON object, with every value in its canonical JSON text, or other bytes. */
  datatype Claims = Object(entries: map<string, string>) | NotAnObject(text: string)

  type ClaimMatcher = map<string, string>

  datatype Entry = Entry(claims: Claims, expiresAt: int, revoked: bool)

  /** The contents of a store: its entries by token hash. */
  type Rows = map<string, Entry>

  // ----- the operations on contents -----

  /** Shallow containment: every pair of the matcher is a pair of the stored object. */
  predicate Contains(stored: Claims, matcher: ClaimMatcher) {
    stored.Object? && forall k :: k in matcher ==> k in stored.entries && stored.entries[k] == matcher[k]
  }

  function Created(rows: Rows, hash: string, claims: Claims, expiresAt: int): Rows {
    rows[hash := Entry(claims, expiresAt, false)]
  }

  datatype Consumption = Granted(claims: Claims) | Reused(claims: Claims) | NotFound

  /** Expiry is looked at only after revocation: a revoked token is a reuse however old it is. */
  function ConsumeResult(rows: Rows, hash: string, now: int): Consumption {
    if hash !in rows then NotFound
    else if rows[hash].revoked then Reused(rows[hash].claims)
    else if now > rows[hash].expiresAt then NotFound
    else Granted(rows[hash].claims)
  }

  function Revoked(rows: Rows, hash: string): Rows {
    if hash in rows then rows[hash := rows[hash].(revoked := true)] else rows
  }

  function Consumed(rows: Rows, hash: string, now: int): Rows {
    if ConsumeResult(rows, hash, now).Granted? then Revoked(rows, hash) else rows
  }

  function Swept(e: Entry, matcher: ClaimMatcher): Entry {
    if Contains(e.claims, matcher) then e.(revoked := true) else e
  }

  /** An empty matcher is refused and changes nothing. */
  function RevokedAll(rows: Rows, matcher: ClaimMatcher): Rows {
    if matcher == map[] then rows else map hash | hash in rows :: Swept(rows[hash], matcher)
  }

  // ----- the store -----

  class Row {
    const claims: Claims
    const expiresAt: int
    var revoked: bool

    constructor (claims: Claims, expiresAt: int)
      ensures this.claims == claims && this.expiresAt == expiresAt && !revoked
    {
      this.claims := claims;
      this.expiresAt := expiresAt;
      revoked := false;
    }

    function Value(): Entry
      reads this
    {
      Entry(claims, expiresAt, revoked)
    }
  }

  /** Containment is inclusion of the pairs. */
  lemma ContainsItems(stored: Claims, matcher: ClaimMatcher)
    ensures Contains(stored, matcher) <==> stored.Object? && matcher.Items <= stored.entries.Items
  {
    if stored.Object? && matcher.Items <= stored.entries.Items {
      forall k | k in matcher ensures k in stored.entries && stored.entries[k] == matcher[k] {
        assert (k, matcher[k]) in matcher.Items;
      }
    }
  }

  /** matchClaims: the pairs of the matcher are among those of the stored object; another blob never matches. */
  method MatchClaims(stored: Claims, matcher: ClaimMatcher) returns (ok: bool)
    ensures ok <==> stored.Object? && matcher.Items <= stored.entries.Items
    ensures ok == Contains(stored, matcher)
  {
    ContainsItems(stored, matcher);
    if !stored.Object? {
      return false;
    }
    var keys := matcher.Keys;
    while keys != {}
      invariant keys <= matcher.Keys
      invariant forall k :: k in matcher && k !in keys ==> k in stored.entries && stored.entries[k] == matcher[k]
      decreases |keys|
    {
      var k :| k in keys;
      if k !in stored.entries || stored.entries[k] != matcher[k] {
        return false;
      }
      keys := keys - {k};
    }
    return true;
  }

  class MemoryRefreshStore {
    const hash: string -> string
    var rows: map<string, Row>

    /** No two hashes share a row. */
    ghost predicate Valid()
      reads this
    {
      forall h, g :: h in rows && g in rows && rows[h] == rows[g] ==> h == g
    }

    ghost function Contents(): Rows
      reads this, rows.Values
    {
      map h | h in rows :: rows[h].Value()
    }

    constructor (hash: string -> string)
      ensures Valid() && Contents() == map[] && this.hash == hash && rows == map[]
    {
      this.hash := hash;
      rows := map[];
    }

    method Create(token: string, claims: Claims, expiresAt: int)
      requires Valid()
      modifies this`rows
      ensures Valid() && fresh(rows.Values - old(rows.Values))
      ensures Contents() == old(Contents())[hash(token) := Entry(claims, expiresAt, false)]
    {
      var row := new Row(claims, expiresAt);
      rows := rows[hash(token) := row];
    }

    method Consume(token: string, now: int) returns (result: Consumption)
      requires Valid()
      modifies rows.Values
      ensures Valid() && rows == old(rows)
      ensures result == ConsumeResult(old(Contents()), hash(token), now)
      ensures Contents() == Consumed(old(Contents()), hash(token), now)
    {
      var h := hash(token);
      if h !in rows {
        return NotFound;
      }
      var row := rows[h];
      if row.revoked {
        return Reused(row.claims);
      }
      if now > row.expiresAt {
        return NotFound;
      }
      row.revoked := true;
      return Granted(row.claims);
    }

    method Revoke(token: string)
      requires Valid()
      modifies rows.Values
      ensures Valid() && rows == old(rows)
      ensures Contents() == Revoked(old(Contents()), hash(token))
      ensures forall h :: h in rows ==> (rows[h].revoked <==> old(rows[h].revoked) || h == hash(token))
    {
      var h := hash(token);
      if h in rows && !rows[h].revoked {
        rows[h].revoked := true;
      }
    }

    /** Rows are visited in no particular order; the result does not depend on it. */
    method RevokeAll(matcher: ClaimMatcher) returns (ok: bool)
      requires Valid()
      modifies rows.Values
      ensures Valid() && rows == old(rows)
      ensures ok == (matcher != map[])
      ensures Contents() == RevokedAll(old(Contents()), matcher)
      ensures forall h :: h in rows ==>
        (rows[h].revoked <==> old(rows[h].revoked)
                              || (matcher != map[] && rows[h].claims.Object? && matcher.Items <= rows[h].claims.entries.Items))
    {
      if matcher == map[] {
        return false;
      }
      var left := rows.Keys;
      while left != {}
        invariant left <= rows.Keys
        invariant forall h :: h in rows && h in left ==> rows[h].revoked == old(rows[h].revoked)
        invariant forall h :: h in rows && h !in left ==> rows[h].Value() == Swept(old(rows[h].Value()), matcher)
        invariant forall h :: h in rows && h !in left ==>
          (rows[h].revoked <==> old(rows[h].revoked) || (rows[h].claims.Object? && matcher.Items <= rows[h].claims.entries.Items))
        decreases |left|
      {
        var h :| h in left;
        left := left - {h};
        var row := rows[h];
        ContainsItems(row.claims, matcher);
        if row.revoked {
          continue;
        }
        var matches := MatchClaims(row.claims, matcher);
        if matches {
          row.revoked := true;
        }
      }
      return true;
    }
  }

  // ----- what the operations mean for one row -----

  /** A token is granted once it is found, not revoked and not expired, in that order; a grant revokes its row and
      changes nothing else, and any other answer changes nothing. */
  lemma ConsumeExact(rows: Rows, hash: string, now: int)
    ensures var result := ConsumeResult(rows, hash, now);
            && (result == NotFound <==> hash !in rows || (!rows[hash].revoked && rows[hash].expiresAt < now))
            && (result.Reused? <==> hash in rows && rows[hash].revoked)
            && (hash in rows && !result.NotFound? ==> result.claims == rows[hash].claims)
            && Consumed(rows, hash, now) == if result.Granted? then rows[hash := Entry(rows[hash].claims, rows[hash].expiresAt, true)] else rows
  {
  }

  /** A sweep revokes exactly the rows whose object has every pair of the matcher; an empty matcher revokes none. */
  lemma SweepMeans(rows: Rows, matcher: ClaimMatcher, h: string)
    requires h in rows
    ensures h in RevokedAll(rows, matcher)
    ensures RevokedAll(rows, matcher)[h] ==
      if matcher != map[] && rows[h].claims.Object? && matcher.Items <= rows[h].claims.entries.Items
      then Entry(rows[h].claims, rows[h].expiresAt, true) else rows[h]
  {
    ContainsItems(rows[h].claims, matcher);
  }

  /** In particular a row whose object extends the matcher by further pairs. */
  lemma SweepReaches(rows: Rows, matcher: ClaimMatcher, h: string, extra: map<string, string>)
    requires matcher != map[] && h in rows && rows[h].claims == Object(extra + matcher)
    ensures h in RevokedAll(rows, matcher) && RevokedAll(rows, matcher)[h].revoked
  {
    forall pair | pair in matcher.Items ensures pair in (extra + matcher).Items {
      assert (extra + matcher)[pair.0] == matcher[pair.0];
    }
    SweepMeans(rows, matcher, h);
  }

  // ----- one-time use over whole runs -----

  datatype Op =
    | Create(hash: string, claims: Claims, expiresAt: int)
    | Consume(hash: string, now: int)
    | Revoke(hash: string)
    | RevokeAll(matcher: ClaimMatcher)

  function Apply(rows: Rows, op: Op): Rows {
    match op
    case Create(hash, claims, expiresAt) => Created(rows, hash, claims, expiresAt)
    case Consume(hash, now) => Consumed(rows, hash, now)
    case Revoke(hash) => Revoked(rows, hash)
    case RevokeAll(matcher) => RevokedAll(rows, matcher)
  }

  function After(rows: Rows, ops: seq<Op>): Rows {
    if ops == [] then rows else Apply(After(rows, ops[..|ops| - 1]), ops[|ops| - 1])
  }

  predicate Creates(op: Op, hash: string) {
    op.Create? && op.hash == hash
  }

  /** Operation i hands out the claims of this token. */
  predicate GrantsAt(rows: Rows, ops: seq<Op>, i: nat, hash: string)
    requires i < |ops|
  {
    ops[i].Consume? && ops[i].hash == hash && ConsumeResult(After(rows, ops[..i]), hash, ops[i].now).Granted?
  }

  /** Operation i revokes this token, by name or by its claims. */
  predicate RevokesAt(rows: Rows, ops: seq<Op>, i: nat, hash: string)
    requires i < |ops|
  {
    var before := After(rows, ops[..i]);
    hash in before &&
    (ops[i] == Revoke(hash) || (ops[i].RevokeAll? && ops[i].matcher != map[] && Contains(before[hash].claims, ops[i].matcher)))
  }

  lemma AfterSplit(rows: Rows, ops: seq<Op>, i: nat, j: nat)
    requires i <= j <= |ops|
    ensures After(rows, ops[..j]) == After(After(rows, ops[..i]), ops[i..j])
    decreases j
  {
    if i < j {
      AfterSplit(rows, ops, i, j - 1);
      assert ops[..j][..j - 1] == ops[..j - 1];
      assert ops[i..j][..j - 1 - i] == ops[i..j - 1];
    }
  }

  /** As long as a token is not created again, its row stays, with the same claims and expiry, and once
      revoked it stays revoked. */
  lemma {:induction false} RowKept(rows: Rows, ops: seq<Op>, hash: string)
    requires hash in rows && forall k :: 0 <= k < |ops| ==> !Creates(ops[k], hash)
    ensures var after := After(rows, ops);
            && hash in after
            && after[hash].claims == rows[hash].claims && after[hash].expiresAt == rows[hash].expiresAt
            && (rows[hash].revoked ==> after[hash].revoked)
  {
    if ops != [] {
      RowKept(rows, ops[..|ops| - 1], hash);
    }
  }

  lemma RevokedByStep(rows: Rows, ops: seq<Op>, i: nat, hash: string)
    requires i < |ops| && (GrantsAt(rows, ops, i, hash) || RevokesAt(rows, ops, i, hash))
    ensures hash in After(rows, ops[..i + 1]) && After(rows, ops[..i + 1])[hash].revoked
  {
    assert ops[..i + 1][..i] == ops[..i];
  }

  /** One-time use: between two successful uses of a token, and between its revocation and a successful use,
      the token was created again. */
  lemma OneTimeUse(rows: Rows, ops: seq<Op>, i: nat, j: nat, hash: string)
    requires i < j < |ops|
    requires GrantsAt(rows, ops, i, hash) || RevokesAt(rows, ops, i, hash)
    requires GrantsAt(rows, ops, j, hash)
    ensures exists k :: i < k < j && Creates(ops[k], hash)
  {
    if forall k :: i < k < j ==> !Creates(ops[k], hash) {
      RevokedByStep(rows, ops, i, hash);
      AfterSplit(rows, ops, i + 1, j);
      RowKept(After(rows, ops[..i + 1]), ops[i + 1..j], hash);
    }
  }

  /** The other direction: a token created and then left alone can be used until it expires. */
  lemma UsableOnce(rows: Rows, ops: seq<Op>, i: nat, j: nat, hash: string)
    requires i < j < |ops| && Creates(ops[i], hash) && ops[j].Consume? && ops[j].hash == hash
    requires ops[j].now <= ops[i].expiresAt
    requires forall k :: i < k < j ==> !Creates(ops[k], hash) && !GrantsAt(rows, ops, k, hash) && !RevokesAt(rows, ops, k, hash)
    ensures GrantsAt(rows, ops, j, hash)
    ensures ConsumeResult(After(rows, ops[..j]), hash, ops[j].now) == Granted(ops[i].claims)
  {
    ActiveUntil(rows, ops, i, j, hash);
  }

  lemma {:induction false} ActiveUntil(rows: Rows, ops: seq<Op>, i: nat, j: nat, hash: string)
    requires i < j <= |ops| && Creates(ops[i], hash)
    requires forall k :: i < k < j ==> !Creates(ops[k], hash) && !GrantsAt(rows, ops, k, hash) && !RevokesAt(rows, ops, k, hash)
    ensures hash in After(rows, ops[..j])
    ensures After(rows, ops[..j])[hash] == Entry(ops[i].claims, ops[i].expiresAt, false)
    decreases j
  {
    assert ops[..j][..j - 1] == ops[..j - 1];
    if i + 1 < j {
      ActiveUntil(rows, ops, i, j - 1, hash);
    }
  }

  // ----- reuse lockout -----

  /** After a sweep no active row contains the matcher, and every row that does not contain it is as it was. */
  lemma SweepIsExact(rows: Rows, matcher: ClaimMatcher)
    requires matcher != map[]
    ensures var after := RevokedAll(rows, matcher);
            && after.Keys == rows.Keys
            && (forall h :: h in rows && Contains(rows[h].claims, matcher) ==> after[h] == rows[h].(revoked := true))
            && (forall h :: h in rows && !Contains(rows[h].claims, matcher) ==> after[h] == rows[h])
  {
  }

  /** Containment is a partial order on claim objects. */
  lemma ContainsIsAnOrder(a: Claims, b: ClaimMatcher, c: ClaimMatcher)
    ensures Contains(Object(b), b)
    ensures Contains(a, b) && Contains(Object(b), c) ==> Contains(a, c)
    ensures Contains(Object(b), c) && Contains(Object(c), b) ==> b == c
  {
  }
}
