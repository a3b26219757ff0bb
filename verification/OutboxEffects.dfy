/** What the outbox operations write, column by column, and to which row. */
module OutboxEffects {
  import opened Protocol
  import opened Outbox
  import opened OutboxSafety

  /** Row id may have changed; no row came, went or changed beside it. */
  predicate OnlyRow(t: Table, t': Table, id: nat) {
    id in t && id in t' && t'.Keys == t.Keys && forall k :: k in t && k != id ==> t'[k] == t[k]
  }

  /** The claim is given up; what identifies the message and its replay stays. */
  predicate Released(r: Row, r': Row) {
    && r'.token == None && r'.leaseUntil == None && r'.version == r.version + 1
    && r'.content == r.content && r'.fingerprint == r.fingerprint && r'.attempts == r.attempts && r'.replay == r.replay
  }

  predicate ConfirmedAs(r: Row, r': Row, now: int) {
    && Released(r, r') && r'.state == Published && r'.confirmedAt == Some(now) && r'.errorCode == ""
    && r'.failures == r.failures && r'.nextAttempt == r.nextAttempt
  }

  /** Due again at the first microsecond that is at least the delay away. */
  predicate RetriedAs(r: Row, r': Row, delayNanos: int, code: string, now: int) {
    && Released(r, r') && r'.state == RetryWait && delayNanos <= 1000 * (r'.nextAttempt - now) < delayNanos + 1000
    && r'.errorCode == code && r'.failures == r.failures + 1 && r'.confirmedAt == r.confirmedAt
  }

  predicate QuarantinedAs(r: Row, r': Row, code: string) {
    && Released(r, r') && r'.state == Quarantined && r'.errorCode == code && r'.failures == r.failures + 1
    && r'.nextAttempt == r.nextAttempt && r'.confirmedAt == r.confirmedAt
  }

  /** The claim holds the row: named by id, token and version, publishing, lease not over. */
  predicate Holds(t: Table, c: Claim, now: int) {
    && c.id != 0 && c.token != "" && c.version != 0 && c.id in t && t[c.id].state == Publishing
    && t[c.id].token == Some(c.token) && t[c.id].version == c.version && t[c.id].leaseUntil.Some? && now < t[c.id].leaseUntil.value
  }

  predicate WrittenAs(r: Row, r': Row, s: Settlement, now: int) {
    match s
    case Confirm => ConfirmedAs(r, r', now)
    case Retry(delay, code) => RetriedAs(r, r', delay, code, now)
    case Quarantine(code) => QuarantinedAs(r, r', code)
  }

  /** A settlement is written exactly under a held claim with a usable argument, to the
      claimed row only, and says in its columns what was asked; otherwise nothing is. */
  lemma SettleExactly(t: Table, c: Claim, s: Settlement, now: int)
    ensures var x := Settle(t, c, s, now);
      && (x.1 == Done <==> Holds(t, c, now) && (s.Retry? ==> s.delayNanos > 0) && (!s.Confirm? ==> 1 <= |s.code| <= 128))
      && (x.1 == Done ==> OnlyRow(t, x.0, c.id) && WrittenAs(t[c.id], x.0[c.id], s, now))
      && (x.1 != Done ==> x.0 == t)
      && (x.1 == ErrStaleClaim ==> !Holds(t, c, now))
  {
    if s.Retry? { RoundsUp(s.delayNanos); }
  }

  lemma RoundsUp(delayNanos: int)
    ensures delayNanos <= 1000 * Micros(delayNanos) < delayNanos + 1000
  {
  }

  /** A claimed row is held until the lease ends and due again then; a corrupt one is set
      aside without an attempt. */
  predicate TakenAs(r: Row, r': Row, token: string, now: int, lease: int) {
    && r'.content == r.content && r'.fingerprint == r.fingerprint && r'.version == r.version + 1
    && r'.confirmedAt == r.confirmedAt && r'.replay == r.replay
    && if ValidMessage(r.content) && Fingerprint(r.content) == r.fingerprint then
         && r'.state == Publishing && r'.token == Some(token) && r'.leaseUntil == Some(now + lease) && r'.nextAttempt == now + lease
         && r'.attempts == r.attempts + 1 && r'.failures == r.failures && r'.errorCode == r.errorCode
       else
         && r'.state == Quarantined && r'.token == None && r'.leaseUntil == None && r'.nextAttempt == r.nextAttempt
         && r'.attempts == r.attempts && r'.failures == r.failures + 1 && r'.errorCode == "invalid_immutable_content"
  }

  predicate Taken(t: Table, t': Table, ids: seq<nat>, tokens: nat -> string, now: int, lease: int) {
    && t'.Keys == t.Keys
    && forall k :: k in t ==> if k in ids then TakenAs(t[k], t'[k], tokens(k), now, lease) else t'[k] == t[k]
  }

  /** Every claim is a copy of the row it holds, and every held row of the batch is claimed. */
  predicate Copied(c: Claim, r: Row) {
    && r.state == Publishing && r.token == Some(c.token) && r.leaseUntil == Some(c.leaseUntil) && r.version == c.version
    && r.attempts == c.attempts && r.failures == c.failures && r.content == c.message
  }

  predicate Handed(t': Table, ids: seq<nat>, cs: seq<Claim>) {
    && (forall i :: 0 <= i < |cs| ==> cs[i].id in ids && cs[i].id in t' && Copied(cs[i], t'[cs[i].id]))
    && (forall i, j :: 0 <= i < j < |cs| ==> cs[i].id != cs[j].id)
    && (forall k :: k in ids && k in t' && t'[k].state == Publishing ==> exists i :: 0 <= i < |cs| && cs[i].id == k)
  }

  lemma ClaimExactly(t: Table, limit: nat, skipped: set<nat>, ids: seq<nat>, tokens: nat -> string, now: int, lease: int)
    requires Selection(t, now, limit, skipped, ids)
    ensures Taken(t, ClaimTable(t, ids, tokens, now, lease), ids, tokens, now, lease)
    ensures Handed(ClaimTable(t, ids, tokens, now, lease), ids, Claims(t, ids, tokens, now, lease))
  {
    hide Selection, Claims;
    SelectionDistinct(t, now, limit, skipped, ids);
    var t', cs := ClaimTable(t, ids, tokens, now, lease), Claims(t, ids, tokens, now, lease);
    ClaimsFacts(t, ids, tokens, now, lease);
    forall k | k in t && k in ids ensures TakenAs(t[k], t'[k], tokens(k), now, lease) { TakesRow(t[k], tokens(k), now, lease); }
    forall i | 0 <= i < |cs| ensures cs[i].id in ids && cs[i].id in t' && Copied(cs[i], t'[cs[i].id]) {
      assert Granted(t, ids, tokens, now, lease, cs[i]);
    }
  }

  lemma TakesRow(r: Row, token: string, now: int, lease: int)
    ensures TakenAs(r, ClaimRow(r, token, now, lease), token, now, lease)
  {
  }

  /** A new identity is stored pending under the message's own fingerprint; a known one is
      accepted exactly with that fingerprint; either way no other row changes. */
  lemma AppendExactly(t: Table, id: nat, m: Message, due: int)
    ensures var x := Append(t, id, m, due);
      && (x.1 == ErrArgument <==> !ValidMessage(m) || id == 0 || id in t)
      && (x.1 == ErrConflict ==> exists k :: k in t && SameIdentity(t[k].content, m))
      && (x.1 == ErrConflict ==> forall k :: k in t && SameIdentity(t[k].content, m) ==> t[k].fingerprint != Fingerprint(m))
      && (x.0 != t <==> x.1 != ErrArgument && forall k :: k in t ==> !SameIdentity(t[k].content, m))
      && (x.0 != t ==>
            && x.1 == Done && id !in t && x.0.Keys == t.Keys + {id} && (forall k :: k in t ==> x.0[k] == t[k])
            && var r := x.0[id];
               && r.content == m && r.fingerprint == Fingerprint(m) && r.state == Pending && r.nextAttempt == due
               && r.token == None && r.leaseUntil == None && r.confirmedAt == None && r.replay == None
               && r.version == r.attempts == r.failures == 0 && r.errorCode == "")
  {
    hide ValidMessage, SameIdentity;
    if exists k :: k in t && SameIdentity(t[k].content, m) {
    } else if ValidMessage(m) && id != 0 && id !in t {
      assert id in t[id := NewRow(m, due)];
    }
  }

  /** A confirmed row is requeued exactly at the version and fingerprint the host names; it
      becomes due at once, remembers the request, and keeps its confirmation. */
  predicate RequeuedAs(r: Row, r': Row, request: string, now: int) {
    && Released(r, r'.(replay := r.replay)) && r'.state == RetryWait && r'.nextAttempt == now && r'.replay == Some((request, r'.version))
    && r'.failures == r.failures && r'.errorCode == r.errorCode && r'.confirmedAt == r.confirmedAt
  }

  const BLANKS := {' ', '\t', '\n', '\U{0B}', '\U{0C}', '\r'}

  lemma RequeueExactly(t: Table, id: nat, version: nat, fingerprint: Fingerprint, request: string, now: int)
    ensures var x := Requeue(t, id, version, fingerprint, request, now);
      && (x.1 == Done <==>
            && id != 0 && 1 <= version <= 0xffff_ffff_ffff_fffe && 1 <= |request| <= 64
            && request[0] !in BLANKS && request[|request| - 1] !in BLANKS && id in t && t[id].state == Published && t[id].confirmedAt.Some?
            && t[id].version == version && t[id].fingerprint == fingerprint)
      && (x.1 == Done ==> OnlyRow(t, x.0, id) && RequeuedAs(t[id], x.0[id], request, now) && Eligible(x.0[id], now))
      && (x.1 != Done ==> x.0 == t)
  {
  }

  /** Work is handed out by due time, and by age among rows due at the same time. */
  lemma EarlierFirst(t: Table, now: int, limit: nat, skipped: set<nat>, ids: seq<nat>, a: nat, j: nat)
    requires Selection(t, now, limit, skipped, ids) && j < |ids|
    requires a in t && a !in skipped && Eligible(t[a], now) && ids[j] in t
    requires t[a].nextAttempt < t[ids[j]].nextAttempt || (t[a].nextAttempt == t[ids[j]].nextAttempt && a < ids[j])
    ensures exists i :: 0 <= i < j && ids[i] == a
  {
    hide Eligible;
    assert !Before(t, ids[j], a);
    assert a in ids;
    var i :| 0 <= i < |ids| && ids[i] == a;
    assert forall k :: j < k < |ids| ==> ids[k] in t && Before(t, ids[j], ids[k]);
  }
}
