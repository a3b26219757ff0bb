/** The MySQL outbox store and one relay delivery as objects. */
module OutboxStore {
  import opened Protocol
  import opened Outbox
  import opened OutboxSafety
  import opened OutboxEffects
  import opened Relay

  lemma NextClaimed(t: Table, ids: seq<nat>, i: nat, tokens: nat -> string, now: int, lease: int)
    requires i < |ids| && ids[i] in t && ids[i] !in ids[..i]
    ensures ClaimTable(t, ids[..i + 1], tokens, now, lease)
         == ClaimTable(t, ids[..i], tokens, now, lease)[ids[i] := ClaimRow(t[ids[i]], tokens(ids[i]), now, lease)]
  {
    hide ClaimRow;
    assert ids[..i + 1] == ids[..i] + [ids[i]];
  }

  class Store {
    var rows: Table

    constructor ()
      ensures rows == map[]
    {
      rows := map[];
    }

    method Append(id: nat, m: Message, due: int) returns (status: Status)
      modifies this
      ensures (rows, status) == Outbox.Append(old(rows), id, m, due)
    {
      if !ValidMessage(m) || id in rows || id == 0 {
        return ErrArgument;
      }
      if exists k :: k in rows && SameIdentity(rows[k].content, m) {
        if exists k :: k in rows && SameIdentity(rows[k].content, m) && rows[k].fingerprint == Fingerprint(m) {
          return Done;
        }
        return ErrConflict;
      }
      rows := rows[id := NewRow(m, due)];
      return Done;
    }

    /** Candidates come locked from the query; each is claimed or, when its content
        no longer matches its fingerprint, quarantined in place. */
    method ClaimDue(limit: int, lease: int, ghost skipped: set<nat>, candidates: seq<nat>, tokens: nat -> string, now: int)
      returns (claims: seq<Claim>, status: Status)
      requires ValidClaimArgs(limit, lease) ==> Selection(rows, now, limit, skipped, candidates)
      modifies this
      ensures !ValidClaimArgs(limit, lease) ==> status == ErrArgument && claims == [] && rows == old(rows)
      ensures ValidClaimArgs(limit, lease) <==> 1 <= limit <= 1000 && 1 <= lease <= 86_400_000_000
      ensures ValidClaimArgs(limit, lease) ==>
        && status == Done && Selected(old(rows), candidates, now)
        && rows == ClaimTable(old(rows), candidates, tokens, now, lease)
        && claims == Claims(old(rows), candidates, tokens, now, lease) && |claims| <= limit
        && Taken(old(rows), rows, candidates, tokens, now, lease) && Handed(rows, candidates, claims)
    {
      hide Taken, Handed, ClaimTable, Eligible, Intact, ClaimRow, ClaimOf;
      claims := [];
      if limit < 1 || limit > 1000 || lease < 1 || lease > 86_400_000_000 {
        return [], ErrArgument;
      }
      ghost var t := rows;
      SelectionDistinct(rows, now, limit, skipped, candidates);
      ClaimExactly(rows, limit, skipped, candidates, tokens, now, lease);
      NoneClaimed(t, tokens, now, lease);
      assert candidates[..0] == [];
      var i := 0;
      while i < |candidates|
        invariant i <= |candidates| && |claims| <= i
        invariant rows == ClaimTable(t, candidates[..i], tokens, now, lease)
        invariant claims == Claims(t, candidates[..i], tokens, now, lease)
      {
        var id := candidates[i];
        assert id in t && id !in candidates[..i];
        ClaimTableAt(t, candidates[..i], tokens, now, lease, id);
        NextClaimed(t, candidates, i, tokens, now, lease);
        assert candidates[..i + 1][..i] == candidates[..i];
        var r := rows[id];
        if Intact(r) {
          claims := claims + [ClaimOf(id, r, tokens(id), now, lease)];
        }
        rows := rows[id := ClaimRow(r, tokens(id), now, lease)];
        i := i + 1;
      }
      assert candidates[..|candidates|] == candidates;
      return claims, Done;
    }

    method Confirm(c: Claim, now: int) returns (status: Status)
      modifies this
      ensures (rows, status) == Settle(old(rows), c, Settlement.Confirm, now)
      ensures status == Done <==> Holds(old(rows), c, now)
      ensures status == Done ==> OnlyRow(old(rows), rows, c.id) && ConfirmedAs(old(rows)[c.id], rows[c.id], now)
      ensures status != Done ==> status == ErrStaleClaim && rows == old(rows)
    {
      SettleExactly(rows, c, Settlement.Confirm, now);
      status := Update(c, Settlement.Confirm, now);
    }

    method Retry(c: Claim, delayNanos: int, code: string, now: int) returns (status: Status)
      modifies this
      ensures (rows, status) == Settle(old(rows), c, Settlement.Retry(delayNanos, code), now)
      ensures status == Done <==> Holds(old(rows), c, now) && delayNanos > 0 && 1 <= |code| <= 128
      ensures status == Done ==> OnlyRow(old(rows), rows, c.id) && RetriedAs(old(rows)[c.id], rows[c.id], delayNanos, code, now)
      ensures status != Done ==> rows == old(rows)
    {
      SettleExactly(rows, c, Settlement.Retry(delayNanos, code), now);
      if delayNanos <= 0 || code == "" || |code| > 128 {
        return ErrArgument;
      }
      status := Update(c, Settlement.Retry(delayNanos, code), now);
    }

    method Quarantine(c: Claim, code: string, now: int) returns (status: Status)
      modifies this
      ensures (rows, status) == Settle(old(rows), c, Settlement.Quarantine(code), now)
      ensures status == Done <==> Holds(old(rows), c, now) && 1 <= |code| <= 128
      ensures status == Done ==> OnlyRow(old(rows), rows, c.id) && QuarantinedAs(old(rows)[c.id], rows[c.id], code)
      ensures status != Done ==> rows == old(rows)
    {
      SettleExactly(rows, c, Settlement.Quarantine(code), now);
      if code == "" || |code| > 128 {
        return ErrArgument;
      }
      status := Update(c, Settlement.Quarantine(code), now);
    }

    /** One conditional update; zero affected rows is a stale claim. */
    method Update(c: Claim, s: Settlement, now: int) returns (status: Status)
      requires ValidSettlement(s)
      modifies this
      ensures (rows, status) == Settle(old(rows), c, s, now)
    {
      if c.id == 0 || c.token == "" || c.version == 0 || c.id !in rows {
        return ErrStaleClaim;
      }
      var r := rows[c.id];
      if r.token != Some(c.token) || r.version != c.version || r.state != Publishing || r.leaseUntil.None? || r.leaseUntil.value <= now {
        return ErrStaleClaim;
      }
      rows := rows[c.id := SettleRow(r, s, now)];
      return Done;
    }

    method RequeueConfirmed(id: nat, version: nat, fingerprint: Fingerprint, request: string, now: int) returns (status: Status, newVersion: nat)
      modifies this
      ensures (rows, status) == Requeue(old(rows), id, version, fingerprint, request, now)
      ensures status == Done ==>
        OnlyRow(old(rows), rows, id) && RequeuedAs(old(rows)[id], rows[id], request, now) && newVersion == rows[id].version == version + 1
    {
      if id == 0 || version == 0 || version >= 0xffff_ffff_ffff_ffff || request == "" || |request| > 64
         || Space(request[0]) || Space(request[|request| - 1]) {
        return ErrArgument, 0;
      }
      if !CanRequeue(rows, id, version, fingerprint) {
        return ErrStaleRequeue, 0;
      }
      rows := rows[id := rows[id].(state := RetryWait, nextAttempt := now, token := None, leaseUntil := None,
                                   replay := Some((request, version + 1)), version := rows[id].version + 1)];
      return Done, version + 1;
    }
  }

  lemma NoneClaimed(t: Table, tokens: nat -> string, now: int, lease: int)
    ensures ClaimTable(t, [], tokens, now, lease) == t
  {
  }

  lemma ClaimTableAt(t: Table, ids: seq<nat>, tokens: nat -> string, now: int, lease: int, id: nat)
    requires id in t && id !in ids
    ensures id in ClaimTable(t, ids, tokens, now, lease) && ClaimTable(t, ids, tokens, now, lease)[id] == t[id]
  {
  }

  /** A publish outcome reaches the store as exactly one conditional settlement; an
      unusable retry policy writes nothing and leaves the lease to expire. */
  method Deliver(store: Store, c: Claim, outcome: PublishOutcome, decision: RetryDecision, now: int) returns (written: bool)
    modifies store
    ensures SettlementFor(outcome, decision).None? ==> !written && store.rows == old(store.rows)
    ensures SettlementFor(outcome, decision).Some? ==>
      var r := Settle(old(store.rows), c, SettlementFor(outcome, decision).value, now); store.rows == r.0 && written == (r.1 == Done)
    ensures written ==> (c.id in store.rows && (store.rows[c.id].state == Published <==> outcome == PublishConfirmed))
  {
    var status;
    if outcome == PublishConfirmed {
      status := store.Confirm(c, now);
      return status == Done;
    }
    var code := "publish_unknown";
    if outcome == PublishRejected {
      code := "publish_rejected";
    }
    if decision.quarantine {
      status := store.Quarantine(c, code, now);
      return status == Done;
    }
    if decision.delayNanos <= 0 {
      return false;
    }
    status := store.Retry(c, decision.delayNanos, code, now);
    return status == Done;
  }
}
