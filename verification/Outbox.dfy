/** The leased outbox: append, claim, settle, requeue. Rows are keyed by their
    storage id; the database clock and random tokens are arguments. */
module Outbox {
  import opened Protocol

  datatype RowState = Pending | RetryWait | Publishing | Published | Quarantined

  /** content is what the message columns decode to now; fingerprint is the digest
      column written at append. */
  datatype Row = Row(
    content: Message, fingerprint: Fingerprint, state: RowState, nextAttempt: int,
    token: Option<string>, leaseUntil: Option<int>, version: nat, attempts: nat, failures: nat,
    errorCode: string, confirmedAt: Option<int>, replay: Option<(string, nat)>)

  type Table = map<nat, Row>

  datatype Claim = Claim(
    id: nat, token: string, version: nat, attempts: nat, failures: nat, leaseUntil: int, message: Message)

  datatype Settlement = Confirm | Retry(delayNanos: int, code: string) | Quarantine(code: string)

  datatype Status = Done | ErrStaleClaim | ErrStaleRequeue | ErrConflict | ErrArgument

  // ---- Eligibility -----------------------------------------------------------------

  predicate Eligible(r: Row, now: int) {
    || ((r.state == Pending || r.state == RetryWait) && r.nextAttempt <= now)
    || (r.state == Publishing && r.leaseUntil.Some? && r.leaseUntil.value <= now)
  }

  /** The document filter: an active state, the common due time, and then a lease
      test for publishing documents only. */
  predicate MongoEligible(r: Row, now: int) {
    && (r.state == Pending || r.state == RetryWait || r.state == Publishing)
    && r.nextAttempt <= now
    && (r.state == Pending || r.state == RetryWait
        || (r.state == Publishing && (r.leaseUntil.None? || r.leaseUntil.value <= now)))
  }

  predicate Before(t: Table, a: nat, b: nat)
    requires a in t && b in t
  {
    t[a].nextAttempt < t[b].nextAttempt || (t[a].nextAttempt == t[b].nextAttempt && a < b)
  }

  /** ORDER BY next_attempt_at, id LIMIT n over the eligible rows that no other
      transaction has locked. */
  ghost predicate Selection(t: Table, now: int, limit: nat, skipped: set<nat>, ids: seq<nat>) {
    && |ids| <= limit
    && (forall i :: 0 <= i < |ids| ==> ids[i] in t && ids[i] !in skipped && Eligible(t[ids[i]], now))
    && (forall i, j :: 0 <= i < j < |ids| ==> ids[i] in t && ids[j] in t && Before(t, ids[i], ids[j]))
    && (forall id :: id in t && id !in skipped && Eligible(t[id], now) && id !in ids ==>
          |ids| == limit && forall i :: 0 <= i < |ids| ==> ids[i] in t && Before(t, ids[i], id))
  }

  // ---- Claiming ----------------------------------------------------------------------

  /** The row decodes to a valid message with the recorded fingerprint. */
  predicate Intact(r: Row) {
    ValidMessage(r.content) && Fingerprint(r.content) == r.fingerprint
  }

  function HeldRow(r: Row, token: string, now: int, lease: int): Row {
    r.(state := Publishing, token := Some(token), leaseUntil := Some(now + lease), nextAttempt := now + lease,
       version := r.version + 1, attempts := r.attempts + 1)
  }

  /** The relational scan holds the row lock, so a corrupt row is quarantined at once. */
  function ClaimRow(r: Row, token: string, now: int, lease: int): Row {
    if Intact(r) then HeldRow(r, token, now, lease)
    else
      r.(state := Quarantined, errorCode := "invalid_immutable_content", failures := r.failures + 1,
         token := None, leaseUntil := None, version := r.version + 1)
  }

  function ClaimOf(id: nat, r: Row, token: string, now: int, lease: int): Claim {
    Claim(id, token, r.version + 1, r.attempts + 1, r.failures, now + lease, r.content)
  }

  function ClaimTable(t: Table, ids: seq<nat>, tokens: nat -> string, now: int, lease: int): Table {
    map id | id in t :: if id in ids then ClaimRow(t[id], tokens(id), now, lease) else t[id]
  }

  function Claims(t: Table, ids: seq<nat>, tokens: nat -> string, now: int, lease: int): seq<Claim>
    requires forall i :: 0 <= i < |ids| ==> ids[i] in t
  {
    if ids == [] then []
    else
      var n := |ids| - 1;
      var init := Claims(t, ids[..n], tokens, now, lease);
      if Intact(t[ids[n]]) then init + [ClaimOf(ids[n], t[ids[n]], tokens(ids[n]), now, lease)] else init
  }

  predicate ValidClaimArgs(limit: int, lease: int) { 1 <= limit <= 1000 && 1 <= lease <= 86_400_000_000 }

  // ---- Settling -----------------------------------------------------------------------

  predicate CanSettle(t: Table, c: Claim, now: int) {
    && c.id in t && c.id != 0 && c.token != "" && c.version != 0
    && t[c.id].token == Some(c.token) && t[c.id].version == c.version && t[c.id].state == Publishing
    && t[c.id].leaseUntil.Some? && t[c.id].leaseUntil.value > now
  }

  predicate ValidSettlement(s: Settlement) {
    match s
    case Confirm => true
    case Retry(delay, code) => delay > 0 && 0 < |code| <= 128
    case Quarantine(code) => 0 < |code| <= 128
  }

  /** Delays are rounded up to the clock's microseconds. */
  function Micros(delayNanos: int): int {
    delayNanos / 1000 + (if delayNanos % 1000 != 0 then 1 else 0)
  }

  function SettleRow(r: Row, s: Settlement, now: int): Row {
    var base := r.(token := None, leaseUntil := None, version := r.version + 1);
    match s
    case Confirm => base.(state := Published, confirmedAt := Some(now), errorCode := "")
    case Retry(delay, code) =>
      base.(state := RetryWait, nextAttempt := now + Micros(delay), errorCode := code, failures := r.failures + 1)
    case Quarantine(code) => base.(state := Quarantined, errorCode := code, failures := r.failures + 1)
  }

  function Settle(t: Table, c: Claim, s: Settlement, now: int): (Table, Status) {
    if !ValidSettlement(s) then (t, ErrArgument)
    else if !CanSettle(t, c, now) then (t, ErrStaleClaim)
    else (t[c.id := SettleRow(t[c.id], s, now)], Done)
  }

  // ---- Appending and requeueing ---------------------------------------------------------

  predicate SameIdentity(a: Message, b: Message) {
    a.producer == b.producer && a.id == b.id && a.destination == b.destination
  }

  function NewRow(m: Message, due: int): Row {
    Row(m, Fingerprint(m), Pending, due, None, None, 0, 0, 0, "", None, None)
  }

  /** A duplicate identity is accepted only with identical immutable content. */
  function Append(t: Table, id: nat, m: Message, due: int): (Table, Status) {
    if !ValidMessage(m) || id in t || id == 0 then (t, ErrArgument)
    else if exists k :: k in t && SameIdentity(t[k].content, m) then
      (t, if exists k :: k in t && SameIdentity(t[k].content, m) && t[k].fingerprint == Fingerprint(m) then Done else ErrConflict)
    else (t[id := NewRow(m, due)], Done)
  }

  predicate Space(c: char) { c == ' ' || '\t' <= c <= '\r' }

  predicate ValidRequeue(id: nat, version: nat, request: string) {
    && id != 0 && 0 < version < 0xffff_ffff_ffff_ffff
    && 0 < |request| <= 64 && !Space(request[0]) && !Space(request[|request| - 1])
  }

  predicate CanRequeue(t: Table, id: nat, version: nat, fingerprint: Fingerprint) {
    id in t && t[id].state == Published && t[id].confirmedAt.Some? && t[id].version == version && t[id].fingerprint == fingerprint
  }

  function Requeue(t: Table, id: nat, version: nat, fingerprint: Fingerprint, request: string, now: int): (Table, Status) {
    if !ValidRequeue(id, version, request) then (t, ErrArgument)
    else if !CanRequeue(t, id, version, fingerprint) then (t, ErrStaleRequeue)
    else (t[id := t[id].(state := RetryWait, nextAttempt := now, token := None, leaseUntil := None,
                         replay := Some((request, version + 1)), version := t[id].version + 1)], Done)
  }
}
