/** Session tokens with a sliding renewal window (apps/relay/src/pairing-local.ts).

  A token is known by its digest. Times are milliseconds on a clock that never goes back.
 */
module SessionTokens {
  import opened Options

  type Key = string

  datatype Grant = Grant(id: string, expiresAt: Option<int>, revokedAt: Option<int>)

  predicate IsActive(g: Grant, now: int) {
    g.revokedAt.None? && (g.expiresAt.None? || g.expiresAt.value > now)
  }

  datatype Session = Session(expiresAt: int, renewMs: int, grant: Grant)

  type Store = map<Key, Session>

  function Prune(s: Store, now: int): Store {
    map k | k in s && s[k].expiresAt > now :: s[k]
  }

  function Register(s: Store, key: Key, ttl: int, now: int, grant: Grant): Store {
    Prune(s, now)[key := Session(now + ttl, ttl, grant)]
  }

  function GrantForToken(s: Store, key: Key, now: int): (Store, Option<Grant>) {
    if key !in s then (s, None)
    else if s[key].expiresAt <= now || !IsActive(s[key].grant, now) then (s - {key}, None)
    else (s[key := s[key].(expiresAt := now + s[key].renewMs)], Some(s[key].grant))
  }

  function RevokeGrant(s: Store, grantId: string): Store {
    map k | k in s && s[k].grant.id != grantId :: s[k]
  }

  function RevokeToken(s: Store, key: Key): Store {
    s - {key}
  }

  datatype Op =
    | RegisterOp(key: Key, ttl: int, now: int, grant: Grant)
    | LookupOp(key: Key, now: int)
    | RevokeGrantOp(grantId: string)
    | RevokeTokenOp(key: Key)

  function Apply(s: Store, op: Op): Store {
    match op
    case RegisterOp(key, ttl, now, grant) => Register(s, key, ttl, now, grant)
    case LookupOp(key, now) => GrantForToken(s, key, now).0
    case RevokeGrantOp(grantId) => RevokeGrant(s, grantId)
    case RevokeTokenOp(key) => RevokeToken(s, key)
  }

  function Exec(ops: seq<Op>): Store {
    if ops == [] then map[] else Apply(Exec(ops[..|ops| - 1]), ops[|ops| - 1])
  }

  // ---------------------------------------------------------------------------
  // What a token's history says, with no map in sight
  // ---------------------------------------------------------------------------

  predicate Timed(op: Op) {
    op.RegisterOp? || op.LookupOp?
  }

  predicate Registers(op: Op, key: Key) {
    op.RegisterOp? && op.key == key
  }

  predicate Touches(op: Op, key: Key) {
    Timed(op) && op.key == key
  }

  /** Where the key was last registered. */
  function LastRegistration(ops: seq<Op>, key: Key): (r: Option<nat>)
    ensures r.Some? ==> r.value < |ops| && Registers(ops[r.value], key)
  {
    if ops == [] then None
    else if Registers(ops[|ops| - 1], key) then Some(|ops| - 1)
    else LastRegistration(ops[..|ops| - 1], key)
  }

  /** When the key was last registered or looked up. */
  function LastUse(ops: seq<Op>, key: Key): Option<int> {
    if ops == [] then None
    else if Touches(ops[|ops| - 1], key) then Some(ops[|ops| - 1].now)
    else LastUse(ops[..|ops| - 1], key)
  }

  /** Neither the token nor its grant was ended since. */
  predicate NeverEnded(ops: seq<Op>, key: Key, r: nat)
    requires r < |ops| && ops[r].RegisterOp?
  {
    forall i | r < i < |ops| :: ops[i] != RevokeTokenOp(key) && ops[i] != RevokeGrantOp(ops[r].grant.id)
  }

  predicate GapWithin(ops: seq<Op>, key: Key, r: nat, j: nat)
    requires r < j < |ops| && ops[r].RegisterOp? && ops[j].LookupOp?
  {
    var last := LastUse(ops[..j], key);
    last.Some? && ops[j].now - last.value < ops[r].ttl && IsActive(ops[r].grant, ops[j].now)
  }

  /** Every lookup since came within the window of the use before it, with the grant still active. */
  predicate EveryGapWithin(ops: seq<Op>, key: Key, r: nat)
    requires r < |ops| && ops[r].RegisterOp?
  {
    forall j | r < j < |ops| && ops[j].LookupOp? && ops[j].key == key :: GapWithin(ops, key, r, j)
  }

  predicate Trusted(ops: seq<Op>, key: Key) {
    var r := LastRegistration(ops, key);
    r.Some? && NeverEnded(ops, key, r.value) && EveryGapWithin(ops, key, r.value)
  }

  // ---------------------------------------------------------------------------
  // One more operation
  // ---------------------------------------------------------------------------

  lemma HistoryGrows(ops: seq<Op>, key: Key, op: Op)
    ensures LastRegistration(ops + [op], key) == if Registers(op, key) then Some(|ops|) else LastRegistration(ops, key)
    ensures LastUse(ops + [op], key) == if Touches(op, key) then Some(op.now) else LastUse(ops, key)
  {
    assert (ops + [op])[..|ops + [op]| - 1] == ops;
  }

  predicate EndsToken(op: Op, key: Key, grant: Grant) {
    op == RevokeTokenOp(key) || op == RevokeGrantOp(grant.id)
  }

  lemma TrustGrows(ops: seq<Op>, key: Key, op: Op)
    requires !Registers(op, key) && LastRegistration(ops, key).Some?
    ensures var reg := ops[LastRegistration(ops, key).value];
            Trusted(ops + [op], key) <==>
            && Trusted(ops, key) && !EndsToken(op, key, reg.grant)
            && (op.LookupOp? && op.key == key ==> LastUse(ops, key).Some? && op.now - LastUse(ops, key).value < reg.ttl && IsActive(reg.grant, op.now))
  {
    HistoryGrows(ops, key, op);
    hide LastRegistration, LastUse;
    var more := ops + [op];
    var r := LastRegistration(ops, key).value;
    assert more[r] == ops[r] && more[..|ops|] == ops;
    forall j | r < j < |ops| && ops[j].LookupOp? && ops[j].key == key ensures GapWithin(more, key, r, j) <==> GapWithin(ops, key, r, j) {
      assert more[..j] == ops[..j];
    }
    assert forall j | r < j < |ops| :: more[j] == ops[j];
    if op.LookupOp? { assert more[|ops|] == op; }
    GapsGrow(ops, key, op, r);
    EndsGrow(ops, key, op, r);
    hide NeverEnded, EveryGapWithin;
  }

  lemma EndsGrow(ops: seq<Op>, key: Key, op: Op, r: nat)
    requires r < |ops| && ops[r].RegisterOp?
    ensures NeverEnded(ops + [op], key, r) <==> NeverEnded(ops, key, r) && !EndsToken(op, key, ops[r].grant)
  {
    var more := ops + [op];
    assert more[|ops|] == op && more[r] == ops[r];
    assert forall i | r < i < |ops| :: more[i] == ops[i];
  }

  lemma GapsGrow(ops: seq<Op>, key: Key, op: Op, r: nat)
    requires r < |ops| && ops[r].RegisterOp?
    ensures EveryGapWithin(ops + [op], key, r) <==>
      EveryGapWithin(ops, key, r) && (op.LookupOp? && op.key == key ==> GapWithin(ops + [op], key, r, |ops|))
  {
    var more := ops + [op];
    assert more[|ops|] == op && more[r] == ops[r];
    forall j | r < j < |ops| && ops[j].LookupOp? ensures more[j] == ops[j] && (GapWithin(more, key, r, j) <==> GapWithin(ops, key, r, j)) {
      assert more[..j] == ops[..j];
    }
    hide GapWithin;
  }

  lemma FreshIsTrusted(ops: seq<Op>, key: Key, op: Op)
    requires Registers(op, key)
    ensures Trusted(ops + [op], key)
  {
    HistoryGrows(ops, key, op);
    hide LastRegistration;
  }

  lemma NeverRegistered(ops: seq<Op>, key: Key, op: Op)
    requires !Registers(op, key) && LastRegistration(ops, key).None?
    ensures LastRegistration(ops + [op], key).None? && !Trusted(ops + [op], key)
  {
    HistoryGrows(ops, key, op);
    hide LastRegistration;
  }

  // ---------------------------------------------------------------------------
  // The store against the history
  // ---------------------------------------------------------------------------

  /** The latest time any operation read. */
  function Latest(ops: seq<Op>): Option<int> {
    if ops == [] then None
    else if Timed(ops[|ops| - 1]) then Some(ops[|ops| - 1].now)
    else Latest(ops[..|ops| - 1])
  }

  /** An entry means trust, and holds what the history says; no entry means no trust, or a window run out. */
  predicate Agrees(ops: seq<Op>, key: Key) {
    var s := Exec(ops);
    var r := LastRegistration(ops, key);
    && (key in s ==> Trusted(ops, key) && LastUse(ops, key).Some?)
    && (key in s ==> s[key] == Session(LastUse(ops, key).value + ops[r.value].ttl, ops[r.value].ttl, ops[r.value].grant))
    && (key !in s && Trusted(ops, key) ==> LastUse(ops, key).Some? && Latest(ops).Some? && LastUse(ops, key).value + ops[r.value].ttl <= Latest(ops).value)
  }

  lemma ExecGrows(ops: seq<Op>, op: Op)
    ensures Exec(ops + [op]) == Apply(Exec(ops), op)
    ensures Latest(ops + [op]) == if Timed(op) then Some(op.now) else Latest(ops)
  {
    assert (ops + [op])[..|ops + [op]| - 1] == ops;
  }

  lemma AgreementGrows(ops: seq<Op>, op: Op, key: Key)
    requires Agrees(ops, key) && (Timed(op) && Latest(ops).Some? ==> Latest(ops).value <= op.now)
    ensures Agrees(ops + [op], key)
  {
    ExecGrows(ops, op);
    HistoryGrows(ops, key, op);
    if Registers(op, key) {
      FreshIsTrusted(ops, key, op);
      assert (ops + [op])[|ops|] == op;
      hide Trusted, LastRegistration, LastUse, Exec, Latest;
    } else if LastRegistration(ops, key).None? {
      NeverRegistered(ops, key, op);
      assert !Trusted(ops, key);
      hide Trusted, LastRegistration, LastUse, Exec, Latest;
    } else {
      TrustGrows(ops, key, op);
      assert (ops + [op])[LastRegistration(ops, key).value] == ops[LastRegistration(ops, key).value];
      hide Trusted, LastRegistration, LastUse, Exec, Latest;
    }
  }

  /** The clock the operations read never goes back. */
  predicate ClockNeverBack(ops: seq<Op>) {
    ops == [] || (ClockNeverBack(ops[..|ops| - 1])
      && (Timed(ops[|ops| - 1]) && Latest(ops[..|ops| - 1]).Some? ==> Latest(ops[..|ops| - 1]).value <= ops[|ops| - 1].now))
  }

  lemma {:induction false} StoreAgrees(ops: seq<Op>, key: Key)
    requires ClockNeverBack(ops)
    ensures Agrees(ops, key)
  {
    hide Agrees;
    if ops == [] {
      NothingAgrees(key);
    } else {
      var init := ops[..|ops| - 1];
      StoreAgrees(init, key);
      AgreementGrows(init, ops[|ops| - 1], key);
      assert init + [ops[|ops| - 1]] == ops;
    }
  }

  lemma NothingAgrees(key: Key)
    ensures Agrees([], key)
  {
  }

  /** Main result: over every history, pruning included, a token answers a lookup exactly when the gap between
    * each use since its registration was below its window, its grant was active each time, and neither it nor
    * its grant was ended; it then answers with the grant it was registered with. */
  lemma TokenAnswersIff(ops: seq<Op>, key: Key, now: int)
    requires ClockNeverBack(ops + [LookupOp(key, now)])
    ensures var answer := GrantForToken(Exec(ops), key, now).1;
            && (answer.Some? <==> Trusted(ops + [LookupOp(key, now)], key))
            && (answer.Some? ==> LastRegistration(ops, key).Some? && answer == Some(ops[LastRegistration(ops, key).value].grant))
  {
    var all := ops + [LookupOp(key, now)];
    assert all[..|all| - 1] == ops && all[|all| - 1] == LookupOp(key, now);
    StoreAgrees(ops, key);
    HistoryGrows(ops, key, LookupOp(key, now));
    if LastRegistration(ops, key).Some? { TrustGrows(ops, key, LookupOp(key, now)); } else { NeverRegistered(ops, key, LookupOp(key, now)); }
    hide Exec, LastRegistration, LastUse, Latest, Trusted;
  }

  /** Registering forgets every token that has run out, and no other; ending a grant ends its tokens, and no other. */
  lemma OnlyTheDeadAreForgotten(s: Store, key: Key, ttl: int, now: int, grant: Grant, other: Key)
    requires other != key
    ensures other in Register(s, key, ttl, now, grant) <==> other in s && now < s[other].expiresAt
    ensures other in Register(s, key, ttl, now, grant) ==> Register(s, key, ttl, now, grant)[other] == s[other]
    ensures other in RevokeGrant(s, grant.id) <==> other in s && s[other].grant.id != grant.id
    ensures other in RevokeToken(s, key) <==> other in s
    ensures key !in RevokeToken(s, key)
  {
  }

  /** Main result: once dead a token stays dead until it is registered again. */
  lemma {:induction false} DeadStaysDead(ops: seq<Op>, key: Key, later: seq<Op>)
    requires !Trusted(ops, key) && forall i | 0 <= i < |later| :: !Registers(later[i], key)
    ensures !Trusted(ops + later, key)
    decreases |later|
  {
    if later == [] {
      assert ops + later == ops;
    } else {
      var init := later[..|later| - 1];
      var op := later[|later| - 1];
      DeadStaysDead(ops, key, init);
      assert ops + later == (ops + init) + [op];
      if LastRegistration(ops + init, key).Some? { TrustGrows(ops + init, key, op); } else { NeverRegistered(ops + init, key, op); }
      hide Trusted, LastRegistration;
    }
  }

  /** The module's map, changed in place. */
  class TokenStore {
    var sessions: Store

    constructor ()
      ensures sessions == map[]
    {
      sessions := map[];
    }

    method PruneExpired(now: int)
      modifies this
      ensures sessions == Prune(old(sessions), now)
    {
      var left := sessions.Keys;
      while left != {}
        invariant left <= old(sessions).Keys
        invariant sessions == map k | k in old(sessions) && (k in left || old(sessions)[k].expiresAt > now) :: old(sessions)[k]
        decreases |left|
      {
        var key :| key in left;
        if sessions[key].expiresAt <= now { sessions := sessions - {key}; }
        left := left - {key};
      }
    }

    method RegisterToken(key: Key, ttl: int, now: int, grant: Grant)
      modifies this
      ensures sessions == Register(old(sessions), key, ttl, now, grant)
    {
      PruneExpired(now);
      sessions := sessions[key := Session(now + ttl, ttl, grant)];
    }

    method LookupToken(key: Key, now: int) returns (grant: Option<Grant>)
      modifies this
      ensures (sessions, grant) == GrantForToken(old(sessions), key, now)
    {
      if key !in sessions { return None; }
      var entry := sessions[key];
      if entry.expiresAt <= now {
        sessions := sessions - {key};
        return None;
      }
      if !IsActive(entry.grant, now) {
        sessions := sessions - {key};
        return None;
      }
      sessions := sessions[key := entry.(expiresAt := now + entry.renewMs)];
      grant := Some(entry.grant);
    }

    method EndGrant(grantId: string) returns (ended: set<Key>)
      modifies this
      ensures sessions == RevokeGrant(old(sessions), grantId)
      ensures ended == old(sessions).Keys - sessions.Keys
    {
      ended := {};
      var left := sessions.Keys;
      while left != {}
        invariant left <= old(sessions).Keys
        invariant sessions == map k | k in old(sessions) && (k in left || old(sessions)[k].grant.id != grantId) :: old(sessions)[k]
        invariant ended == old(sessions).Keys - sessions.Keys
        decreases |left|
      {
        var key :| key in left;
        if sessions[key].grant.id == grantId {
          sessions := sessions - {key};
          ended := ended + {key};
        }
        left := left - {key};
      }
    }

    method EndToken(key: Key) returns (ended: bool)
      modifies this
      ensures sessions == RevokeToken(old(sessions), key) && ended == (key in old(sessions))
    {
      ended := key in sessions;
      sessions := sessions - {key};
    }
  }
}
