/** The document store claims one record at a time, each find at its own instant. Its
    loop visits the records of the relational batch first, in the same order; any
    further ones fell due while it was running. */
module MongoClaims {
  import opened Protocol
  import opened Outbox
  import opened OutboxSafety
  import opened Relay

  /** One iteration: the document found, the token, the instant of the find, and the
      instant at which a corrupt document is set aside. */
  datatype Turn = Turn(id: nat, token: string, now: int, asideAt: int)

  /** The document the sorted find returns. */
  ghost predicate IsFirst(t: Table, now: int, id: nat) {
    id in t && MongoEligible(t[id], now) && forall k :: k in t && k != id && MongoEligible(t[k], now) ==> Before(t, id, k)
  }

  ghost predicate NothingFound(t: Table, now: int) { forall k :: k in t ==> !MongoEligible(t[k], now) }

  predicate Corrupt(b: Book, u: Turn) { u.id in b.rows && !Intact(b.rows[u.id]) }

  function ClaimFor(b: Book, u: Turn, lease: int): Claim
    requires u.id in b.rows
  {
    ClaimOf(u.id, b.rows[u.id], u.token, u.now, lease)
  }

  function Picked(b: Book, u: Turn, lease: int): Book { Apply(b, OpPick(u.id, u.token, u.now, lease)) }

  /** A corrupt document is settled under the claim that found it; that may fail. */
  function Taken(b: Book, u: Turn, lease: int): Book {
    if Corrupt(b, u) then Apply(Picked(b, u, lease), OpSettle(ClaimFor(b, u, lease), CORRUPT, u.asideAt)) else Picked(b, u, lease)
  }

  /** The loop goes on unless setting a corrupt document aside failed. */
  predicate GoesOn(b: Book, u: Turn, lease: int) {
    Corrupt(b, u) ==> CanSettle(Picked(b, u, lease).rows, ClaimFor(b, u, lease), u.asideAt)
  }

  function TakenAll(b: Book, turns: seq<Turn>, lease: int): Book
    decreases |turns|
  {
    if turns == [] then b else TakenAll(Taken(b, turns[0], lease), turns[1..], lease)
  }

  ghost predicate Loop(b: Book, turns: seq<Turn>, lease: int)
    decreases |turns|
  {
    turns == [] ||
    (&& IsFirst(b.rows, turns[0].now, turns[0].id) && (|turns| > 1 ==> GoesOn(b, turns[0], lease))
     && Loop(Taken(b, turns[0], lease), turns[1..], lease))
  }

  // ---- One iteration ----------------------------------------------------------------------

  /** Not to be claimed before the instant. */
  predicate Settled(r: Row, until: int) { r.state == Quarantined || (r.state == Publishing && r.leaseUntil == Some(until) && r.nextAttempt == until) }

  lemma TakenRow(b: Book, u: Turn, lease: int)
    requires Inv(b) && ValidClaimArgs(1, lease) && u.id in b.rows && MongoEligible(b.rows[u.id], u.now)
    ensures var b' := Taken(b, u, lease);
      Inv(b') && u.id in b'.rows && b'.rows == b.rows[u.id := b'.rows[u.id]] && Settled(b'.rows[u.id], u.now + lease)
  {
    hide Inv, Intact, Grows, Apply;
    ApplyKeeps(b, OpPick(u.id, u.token, u.now, lease));
    ApplyKeeps(Picked(b, u, lease), OpSettle(ClaimFor(b, u, lease), CORRUPT, u.asideAt));
    PickedRow(b, u, lease);
    AsideRow(Picked(b, u, lease), ClaimFor(b, u, lease), u.asideAt, u.now + lease);
  }

  lemma PickedRow(b: Book, u: Turn, lease: int)
    requires ValidClaimArgs(1, lease) && u.id in b.rows && MongoEligible(b.rows[u.id], u.now)
    ensures var b' := Picked(b, u, lease);
      u.id in b'.rows && b'.rows == b.rows[u.id := b'.rows[u.id]] && Settled(b'.rows[u.id], u.now + lease)
  {
    hide Intact;
  }

  lemma AsideRow(b: Book, c: Claim, now: int, until: int)
    requires c.id in b.rows && Settled(b.rows[c.id], until)
    ensures var b' := Apply(b, OpSettle(c, CORRUPT, now));
      c.id in b'.rows && b'.rows == b.rows[c.id := b'.rows[c.id]] && Settled(b'.rows[c.id], until)
  {
  }

  lemma DueIff(r: Row, now: int)
    requires RowOk(r)
    ensures MongoEligible(r, now) <==> Eligible(r, now)
    ensures Eligible(r, now) <==> r.state != Published && r.state != Quarantined && r.nextAttempt <= now
  {
  }

  /** The find takes the head of the batch at the earlier instant n0, or, once that is
      exhausted, a record that fell due since. */
  lemma NextPick(b: Book, u: Turn, lease: int, n0: int, limit: nat, ids: seq<nat>)
    requires Inv(b) && ValidClaimArgs(1, lease) && IsFirst(b.rows, u.now, u.id) && n0 <= u.now
    requires limit > 0 && Selection(b.rows, n0, limit, {}, ids)
    ensures var t := Taken(b, u, lease).rows;
      if ids != [] then u.id == ids[0] && Selection(t, n0, limit - 1, {}, ids[1..])
      else n0 < b.rows[u.id].nextAttempt <= u.now && Selection(t, n0, limit - 1, {}, [])
  {
    var t, t' := b.rows, Taken(b, u, lease).rows;
    TakenRow(b, u, lease);
    RowsDue(b, n0);
    RowsDue(b, u.now);
    hide Inv, Taken, MongoEligible, Eligible;
    var r := t'[u.id];
    assert !Eligible(r, n0) by { NotYet(r, u.now + lease, n0); }
    if ids != [] {
      assert t[ids[0]].nextAttempt <= n0 && Eligible(t[ids[0]], u.now) by { assert Eligible(t[ids[0]], n0); }
      assert u.id == ids[0];
      RestSelected(t, t', n0, limit, ids);
    }
  }

  lemma RowsDue(b: Book, now: int)
    requires Inv(b)
    ensures forall k :: k in b.rows ==> (MongoEligible(b.rows[k], now) <==> Eligible(b.rows[k], now))
    ensures forall k :: k in b.rows ==>
      (Eligible(b.rows[k], now) <==> b.rows[k].state != Published && b.rows[k].state != Quarantined && b.rows[k].nextAttempt <= now)
  {
    hide MongoEligible, Eligible, ClaimOk;
    forall k | k in b.rows
      ensures MongoEligible(b.rows[k], now) <==> Eligible(b.rows[k], now)
      ensures Eligible(b.rows[k], now) <==> b.rows[k].state != Published && b.rows[k].state != Quarantined && b.rows[k].nextAttempt <= now
    {
      DueIff(b.rows[k], now);
    }
  }

  lemma NotYet(r: Row, until: int, now: int)
    requires Settled(r, until) && now < until
    ensures !Eligible(r, now) && !MongoEligible(r, now)
  {
  }

  lemma RestSelected(t: Table, t': Table, now: int, limit: nat, ids: seq<nat>)
    requires ids != [] && limit > 0 && Selection(t, now, limit, {}, ids)
    requires ids[0] in t' && t' == t[ids[0] := t'[ids[0]]] && !Eligible(t'[ids[0]], now)
    ensures Selection(t', now, limit - 1, {}, ids[1..])
  {
    hide Eligible;
    var rest := ids[1..];
    assert forall i :: 0 <= i < |rest| ==> rest[i] == ids[i + 1];
    assert forall i :: 1 <= i < |ids| ==> ids[i] != ids[0] by {
      forall i | 1 <= i < |ids| ensures ids[i] != ids[0] { assert Before(t, ids[0], ids[i]); }
    }
    forall i, j | 0 <= i < j < |rest| ensures rest[i] in t' && rest[j] in t' && Before(t', rest[i], rest[j]) {
      assert Before(t, ids[i + 1], ids[j + 1]);
    }
    forall id | id in t' && Eligible(t'[id], now) && id !in rest
      ensures |rest| == limit - 1 && forall i :: 0 <= i < |rest| ==> rest[i] in t' && Before(t', rest[i], id)
    {
      assert ids == [ids[0]] + rest;
      forall i | 0 <= i < |rest| ensures Before(t', rest[i], id) { assert Before(t, ids[i + 1], id); }
    }
  }

  // ---- The loop ---------------------------------------------------------------------------

  /** t is t0 but for the records taken so far, which rest until the given instant. */
  ghost predicate Since(t0: Table, t: Table, gone: set<nat>, until: int) {
    && t.Keys == t0.Keys
    && forall k :: k in t0 ==> if k in gone then exists x :: x >= until && Settled(t[k], x) else t[k] == t0[k]
  }

  /** What a loop at instants in the lease from n0 has picked: the batch at n0 in order,
      then records of t0 that fell due since; none twice, none of gone. */
  predicate FollowsBatch(t0: Table, gone: set<nat>, turns: seq<Turn>, n0: int, ids: seq<nat>) {
    && (forall i :: 0 <= i < |turns| ==> turns[i].id in t0 && turns[i].id !in gone)
    && (forall i, j :: 0 <= i < j < |turns| ==> turns[i].id != turns[j].id)
    && (forall i :: 0 <= i < |turns| && i < |ids| ==> turns[i].id == ids[i])
    && (forall i :: |ids| <= i < |turns| ==> turns[i].id in t0 && n0 < t0[turns[i].id].nextAttempt <= turns[i].now)
  }

  predicate Within(turns: seq<Turn>, n0: int, lease: int) {
    forall i :: 0 <= i < |turns| ==> n0 <= turns[i].now < n0 + lease
  }

  /** The loop did not stop early: it met its limit or found nothing at its last look. */
  ghost predicate Complete(b: Book, turns: seq<Turn>, lease: int, limit: nat, n0: int, end: int) {
    |turns| == limit || (n0 <= end && NothingFound(TakenAll(b, turns, lease).rows, end))
  }

  lemma {:induction false} LoopFollows(b: Book, t0: Table, gone: set<nat>, turns: seq<Turn>, n0: int, limit: nat, ids: seq<nat>, lease: int, end: int)
    requires Inv(b) && ValidClaimArgs(1, lease) && Loop(b, turns, lease) && |turns| <= limit && Within(turns, n0, lease)
    requires Selection(b.rows, n0, limit, {}, ids) && Since(t0, b.rows, gone, n0 + lease)
    ensures FollowsBatch(t0, gone, turns, n0, ids)
    ensures Complete(b, turns, lease, limit, n0, end) ==> |ids| <= |turns|
    decreases |turns|
  {
    hide Inv, Taken, Selection, Settled, Since, MongoEligible, FollowsBatch, GoesOn;
    if turns == [] {
      NothingPicked(b, t0, gone, turns, n0, limit, ids, lease, end);
    } else {
      var u, b' := turns[0], Taken(b, turns[0], lease);
      TakenRow(b, u, lease);
      NextPick(b, u, lease, n0, limit, ids);
      var ids' := if ids != [] then ids[1..] else [];
      StillSince(t0, b.rows, b'.rows, gone, n0, lease, u);
      assert Within(turns[1..], n0, lease);
      LoopFollows(b', t0, gone + {u.id}, turns[1..], n0, limit - 1, ids', lease, end);
      PrependTurn(t0, gone, turns, n0, ids);
    }
  }

  lemma NothingPicked(b: Book, t0: Table, gone: set<nat>, turns: seq<Turn>, n0: int, limit: nat, ids: seq<nat>, lease: int, end: int)
    requires Inv(b) && turns == [] && Selection(b.rows, n0, limit, {}, ids)
    ensures FollowsBatch(t0, gone, turns, n0, ids)
    ensures Complete(b, turns, lease, limit, n0, end) ==> ids == []
  {
    RowsDue(b, n0);
    RowsDue(b, end);
    hide Inv, MongoEligible, Eligible, FollowsBatch;
    assert FollowsBatch(t0, gone, turns, n0, ids) by { NoTurns(t0, gone, n0, ids); }
    assert ids != [] ==> ids[0] in b.rows && Eligible(b.rows[ids[0]], n0);
  }

  lemma NoTurns(t0: Table, gone: set<nat>, n0: int, ids: seq<nat>)
    ensures FollowsBatch(t0, gone, [], n0, ids)
  {
  }

  lemma StillSince(t0: Table, t: Table, t': Table, gone: set<nat>, n0: int, lease: int, u: Turn)
    requires Since(t0, t, gone, n0 + lease) && n0 <= u.now < n0 + lease && u.id in t && MongoEligible(t[u.id], u.now)
    requires u.id in t' && t' == t[u.id := t'[u.id]] && Settled(t'[u.id], u.now + lease)
    ensures Since(t0, t', gone + {u.id}, n0 + lease) && u.id in t0 && u.id !in gone && t[u.id] == t0[u.id]
  {
    hide MongoEligible, Settled;
    if u.id in gone {
      var x :| x >= n0 + lease && Settled(t[u.id], x);
      NotYet(t[u.id], x, u.now);
      assert false;
    }
    forall k | k in t0 && k in gone + {u.id} ensures exists x :: x >= n0 + lease && Settled(t'[k], x) {
      if k != u.id {
        var x :| x >= n0 + lease && Settled(t[k], x);
        assert t'[k] == t[k];
      } else {
        assert Settled(t'[k], u.now + lease);
      }
    }
  }

  lemma PrependTurn(t0: Table, gone: set<nat>, turns: seq<Turn>, n0: int, ids: seq<nat>)
    requires turns != [] && turns[0].id in t0 && turns[0].id !in gone
    requires FollowsBatch(t0, gone + {turns[0].id}, turns[1..], n0, if ids != [] then ids[1..] else [])
    requires ids != [] ==> turns[0].id == ids[0]
    requires ids == [] ==> n0 < t0[turns[0].id].nextAttempt <= turns[0].now
    ensures FollowsBatch(t0, gone, turns, n0, ids)
  {
    var rest := turns[1..];
    assert forall i :: 1 <= i < |turns| ==> turns[i] == rest[i - 1];
    forall i | 1 <= i < |turns| && i < |ids| ensures turns[i].id == ids[i] {
      assert rest[i - 1].id == ids[1..][i - 1];
    }
  }

  /** From every reachable table, while the loop runs undisturbed within one lease: its
      picks begin with the relational batch at its first instant, in order; each further
      one fell due since; none is picked twice. A loop that was not cut short by a
      failed quarantine has picked the whole batch. */
  lemma BatchFirst(ops: seq<Op>, turns: seq<Turn>, n0: int, limit: nat, ids: seq<nat>, lease: int, end: int)
    requires var b := OutboxSafety.Run(Empty(), ops);
      && ValidClaimArgs(limit, lease) && Loop(b, turns, lease) && |turns| <= limit && Within(turns, n0, lease)
      && Selection(b.rows, n0, limit, {}, ids)
    ensures var b := OutboxSafety.Run(Empty(), ops);
      && FollowsBatch(b.rows, {}, turns, n0, ids)
      && (Complete(b, turns, lease, limit, n0, end) ==> |ids| <= |turns|)
  {
    hide OutboxSafety.Run, Loop, Within, Selection;
    EmptyInv();
    OutboxSafety.RunKeeps(Empty(), ops);
    var b := OutboxSafety.Run(Empty(), ops);
    LoopFollows(b, b.rows, {}, turns, n0, limit, ids, lease, end);
  }

  /** At one instant the two stores claim the same records in the same order. */
  lemma SameRecords(ops: seq<Op>, turns: seq<Turn>, n0: int, limit: nat, ids: seq<nat>, lease: int)
    requires var b := OutboxSafety.Run(Empty(), ops);
      && ValidClaimArgs(limit, lease) && Loop(b, turns, lease) && |turns| <= limit
      && (forall i :: 0 <= i < |turns| ==> turns[i].now == n0)
      && Selection(b.rows, n0, limit, {}, ids) && Complete(b, turns, lease, limit, n0, n0)
    ensures |turns| == |ids| && forall i :: 0 <= i < |ids| ==> turns[i].id == ids[i]
  {
    hide OutboxSafety.Run, Loop, Selection;
    BatchFirst(ops, turns, n0, limit, ids, lease, n0);
    NoLater(OutboxSafety.Run(Empty(), ops).rows, turns, n0, ids);
  }

  lemma NoLater(t0: Table, turns: seq<Turn>, n0: int, ids: seq<nat>)
    requires FollowsBatch(t0, {}, turns, n0, ids) && forall i :: 0 <= i < |turns| ==> turns[i].now == n0
    ensures |turns| <= |ids|
  {
    if turns != [] {
      var i := if |ids| < |turns| then |ids| else 0;
      assert turns[i].now == n0;
    }
  }
}
