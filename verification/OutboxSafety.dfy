/** Every run of appends, claims, settlements, requeues and content corruption, with
    the relational store's batch claim and the document store's single claim. */
module OutboxSafety {
  import opened Protocol
  import opened Outbox

  datatype Op =
    | OpAppend(id: nat, m: Message, due: int)
    | OpClaim(limit: int, ids: seq<nat>, tokens: nat -> string, now: int, lease: int)
    | OpPick(id: nat, token: string, now: int, lease: int)
    | OpSettle(c: Claim, s: Settlement, now: int)
    | OpRequeue(id: nat, version: nat, fingerprint: Fingerprint, request: string, now: int)
    | OpCorrupt(id: nat, content: Message)

  /** The table with the claims handed out and the settlements that took effect. */
  datatype Book = Book(rows: Table, issued: seq<Claim>, settled: seq<(Claim, Settlement)>)

  predicate Distinct(ids: seq<nat>) {
    forall i, j :: 0 <= i < j < |ids| ==> ids[i] != ids[j]
  }

  /** Claimable ids are rows the eligibility query returned; nothing else of the
      selection matters for safety. */
  predicate Selected(t: Table, ids: seq<nat>, now: int) {
    Distinct(ids) && forall i :: 0 <= i < |ids| ==> ids[i] in t && Eligible(t[ids[i]], now)
  }

  /** The document store holds whatever it finds and hands it out only if intact; a
      corrupt document is quarantined by a settlement of its own. */
  function Apply(b: Book, op: Op): Book {
    match op
    case OpAppend(id, m, due) => b.(rows := Append(b.rows, id, m, due).0)
    case OpClaim(limit, ids, tokens, now, lease) =>
      if !ValidClaimArgs(limit, lease) || !Selected(b.rows, ids, now) then b
      else b.(rows := ClaimTable(b.rows, ids, tokens, now, lease), issued := b.issued + Claims(b.rows, ids, tokens, now, lease))
    case OpPick(id, token, now, lease) =>
      if !ValidClaimArgs(1, lease) || id !in b.rows || !MongoEligible(b.rows[id], now) then b
      else b.(rows := b.rows[id := HeldRow(b.rows[id], token, now, lease)],
              issued := if Intact(b.rows[id]) then b.issued + [ClaimOf(id, b.rows[id], token, now, lease)] else b.issued)
    case OpSettle(c, s, now) =>
      if Settle(b.rows, c, s, now).1 == Done
      then b.(rows := Settle(b.rows, c, s, now).0, settled := b.settled + [(c, s)])
      else b
    case OpRequeue(id, version, fingerprint, request, now) => b.(rows := Requeue(b.rows, id, version, fingerprint, request, now).0)
    case OpCorrupt(id, content) => if id in b.rows then b.(rows := b.rows[id := b.rows[id].(content := content)]) else b
  }

  function Run(b: Book, ops: seq<Op>): Book
    decreases |ops|
  {
    if ops == [] then b else Run(Apply(b, ops[0]), ops[1..])
  }

  function Empty(): Book { Book(map[], [], []) }

  // ---- Invariant -----------------------------------------------------------------------

  predicate RowOk(r: Row) {
    && (r.state == Publishing <==> r.token.Some?) && (r.state == Publishing <==> r.leaseUntil.Some?)
    && (r.state == Publishing ==> r.nextAttempt == r.leaseUntil.value)
    && (r.state == Published ==> r.confirmedAt.Some?)
  }

  /** A handed-out claim names an existing row and carries its original message;
      while the row is at the claim's version it is held under exactly that claim. */
  predicate ClaimOk(t: Table, c: Claim) {
    && c.id in t && 0 < c.version <= t[c.id].version && Fingerprint(c.message) == t[c.id].fingerprint
    && (c.version == t[c.id].version ==>
          t[c.id].state == Publishing && t[c.id].token == Some(c.token) && t[c.id].leaseUntil == Some(c.leaseUntil))
  }

  predicate SameGrant(a: Claim, b: Claim) { a.id == b.id && a.version == b.version }

  predicate SettledOk(b: Book, x: (Claim, Settlement)) {
    x.0.id in b.rows && x.0.version < b.rows[x.0.id].version
  }

  ghost predicate Inv(b: Book) {
    && (forall id :: id in b.rows ==> RowOk(b.rows[id]))
    && (forall i :: 0 <= i < |b.issued| ==> ClaimOk(b.rows, b.issued[i]))
    && (forall i, j :: 0 <= i < j < |b.issued| ==> !SameGrant(b.issued[i], b.issued[j]))
    && (forall i :: 0 <= i < |b.settled| ==> SettledOk(b, b.settled[i]))
    && (forall i, j :: 0 <= i < j < |b.settled| ==> !SameGrant(b.settled[i].0, b.settled[j].0))
  }

  /** Rows stay, keep their fingerprint, and any change but corruption of the
      message columns raises the version. */
  predicate RowGrows(a: Row, b: Row) {
    && a.fingerprint == b.fingerprint && a.version <= b.version && a.attempts <= b.attempts && a.failures <= b.failures
    && (a.version == b.version ==> b == a.(content := b.content))
  }

  predicate Grows(a: Table, b: Table) {
    forall id :: id in a ==> id in b && RowGrows(a[id], b[id])
  }

  // ---- Claims ----------------------------------------------------------------------------

  /** c is the claim a scan over ids issues for one intact row. */
  predicate Granted(t: Table, ids: seq<nat>, tokens: nat -> string, now: int, lease: int, c: Claim) {
    && c.id in ids && c.id in t && Intact(t[c.id])
    && c == ClaimOf(c.id, t[c.id], tokens(c.id), now, lease)
  }

  /** One claim per intact row of the scan, and no other. */
  ghost predicate ClaimsOk(t: Table, ids: seq<nat>, tokens: nat -> string, now: int, lease: int, cs: seq<Claim>)
    requires forall i :: 0 <= i < |ids| ==> ids[i] in t
  {
    && (forall k :: 0 <= k < |cs| ==> Granted(t, ids, tokens, now, lease, cs[k]))
    && (forall i, j :: 0 <= i < j < |cs| ==> cs[i].id != cs[j].id)
    && (forall i :: 0 <= i < |ids| && Intact(t[ids[i]]) ==> exists k :: 0 <= k < |cs| && cs[k].id == ids[i])
  }

  lemma {:induction false} ClaimsFacts(t: Table, ids: seq<nat>, tokens: nat -> string, now: int, lease: int)
    requires Distinct(ids) && forall i :: 0 <= i < |ids| ==> ids[i] in t
    ensures ClaimsOk(t, ids, tokens, now, lease, Claims(t, ids, tokens, now, lease))
  {
    hide Intact, ClaimOf, Granted;
    if ids != [] {
      var n := |ids| - 1;
      var init := Claims(t, ids[..n], tokens, now, lease);
      ClaimsFacts(t, ids[..n], tokens, now, lease);
      EarlierGranted(t, ids, tokens, now, lease, init);
      if Intact(t[ids[n]]) { LastGranted(t, ids, tokens, now, lease); }
      AllClaimed(t, ids, tokens, now, lease, init, Claims(t, ids, tokens, now, lease));
    }
  }

  lemma EarlierGranted(t: Table, ids: seq<nat>, tokens: nat -> string, now: int, lease: int, init: seq<Claim>)
    requires ids != [] && Distinct(ids) && forall i :: 0 <= i < |ids| ==> ids[i] in t
    requires ClaimsOk(t, ids[..|ids| - 1], tokens, now, lease, init)
    ensures forall k :: 0 <= k < |init| ==> Granted(t, ids, tokens, now, lease, init[k]) && init[k].id != ids[|ids| - 1]
  {
    hide Intact, ClaimOf;
    var n := |ids| - 1;
    forall k | 0 <= k < |init| ensures Granted(t, ids, tokens, now, lease, init[k]) && init[k].id != ids[n] {
      assert Granted(t, ids[..n], tokens, now, lease, init[k]);
      var i :| 0 <= i < n && ids[..n][i] == init[k].id;
      assert ids[i] == init[k].id;
    }
  }

  lemma LastGranted(t: Table, ids: seq<nat>, tokens: nat -> string, now: int, lease: int)
    requires ids != [] && ids[|ids| - 1] in t && Intact(t[ids[|ids| - 1]])
    ensures var id := ids[|ids| - 1]; Granted(t, ids, tokens, now, lease, ClaimOf(id, t[id], tokens(id), now, lease))
  {
  }

  lemma AllClaimed(t: Table, ids: seq<nat>, tokens: nat -> string, now: int, lease: int, init: seq<Claim>, cs: seq<Claim>)
    requires ids != [] && forall i :: 0 <= i < |ids| ==> ids[i] in t
    requires cs == Claims(t, ids, tokens, now, lease) && init == Claims(t, ids[..|ids| - 1], tokens, now, lease) && ClaimsOk(t, ids[..|ids| - 1], tokens, now, lease, init)
    ensures forall i :: 0 <= i < |ids| && Intact(t[ids[i]]) ==> exists k :: 0 <= k < |cs| && cs[k].id == ids[i]
  {
    hide Intact, ClaimOf, Granted;
    var n := |ids| - 1;
    forall i | 0 <= i < |ids| && Intact(t[ids[i]]) ensures exists k :: 0 <= k < |cs| && cs[k].id == ids[i] {
      if i < n {
        assert ids[..n][i] == ids[i];
        var k :| 0 <= k < |init| && init[k].id == ids[i];
        assert cs[k] == init[k];
      } else {
        ClaimOfId(ids[n], t[ids[n]], tokens(ids[n]), now, lease);
        assert cs[|cs| - 1].id == ids[n];
      }
    }
  }

  lemma ClaimOfId(id: nat, r: Row, token: string, now: int, lease: int)
    ensures ClaimOf(id, r, token, now, lease).id == id
  {
  }

  lemma ClaimGrows(t: Table, ids: seq<nat>, tokens: nat -> string, now: int, lease: int)
    requires forall id :: id in t ==> RowOk(t[id])
    ensures var t' := ClaimTable(t, ids, tokens, now, lease); Grows(t, t') && forall id :: id in t' ==> RowOk(t'[id])
  {
    hide Intact;
  }

  lemma ClaimKept(t: Table, t': Table, c: Claim)
    requires ClaimOk(t, c) && Grows(t, t')
    ensures ClaimOk(t', c)
  {
    assert RowGrows(t[c.id], t'[c.id]);
  }

  lemma ClaimedOk(t: Table, ids: seq<nat>, tokens: nat -> string, now: int, lease: int, c: Claim)
    requires Granted(t, ids, tokens, now, lease, c)
    ensures ClaimOk(ClaimTable(t, ids, tokens, now, lease), c)
  {
    hide ValidMessage;
  }

  lemma ClaimStep(b: Book, limit: int, ids: seq<nat>, tokens: nat -> string, now: int, lease: int)
    requires Inv(b) && ValidClaimArgs(limit, lease) && Selected(b.rows, ids, now)
    ensures Inv(Apply(b, OpClaim(limit, ids, tokens, now, lease)))
    ensures Grows(b.rows, Apply(b, OpClaim(limit, ids, tokens, now, lease)).rows)
  {
    hide RowOk, ClaimTable, Claims, Grows, ClaimRow, Intact, Eligible;
    var b' := Apply(b, OpClaim(limit, ids, tokens, now, lease));
    var cs := Claims(b.rows, ids, tokens, now, lease);
    ClaimsFacts(b.rows, ids, tokens, now, lease);
    ClaimGrows(b.rows, ids, tokens, now, lease);
    forall i | 0 <= i < |b'.issued| ensures ClaimOk(b'.rows, b'.issued[i]) {
      if i < |b.issued| {
        ClaimKept(b.rows, b'.rows, b.issued[i]);
      } else {
        ClaimedOk(b.rows, ids, tokens, now, lease, cs[i - |b.issued|]);
      }
    }
    forall i, j | 0 <= i < j < |b'.issued| ensures !SameGrant(b'.issued[i], b'.issued[j]) {
      if i < |b.issued| <= j {
        assert ClaimOk(b.rows, b.issued[i]);
        assert Granted(b.rows, ids, tokens, now, lease, cs[j - |b.issued|]);
      } else if |b.issued| <= i {
        assert cs[i - |b.issued|].id != cs[j - |b.issued|].id;
      }
    }
    SettledKept(b, b'.rows);
  }

  lemma PickStep(b: Book, id: nat, token: string, now: int, lease: int)
    requires Inv(b) && ValidClaimArgs(1, lease) && id in b.rows && MongoEligible(b.rows[id], now)
    ensures Inv(Apply(b, OpPick(id, token, now, lease))) && Grows(b.rows, Apply(b, OpPick(id, token, now, lease)).rows)
  {
    hide ValidMessage, SettledOk;
    var b' := Apply(b, OpPick(id, token, now, lease));
    assert RowOk(b'.rows[id]) && RowGrows(b.rows[id], b'.rows[id]);
    assert Grows(b.rows, b'.rows);
    RowsStep(b, b'.rows);
    if Intact(b.rows[id]) {
      var c := ClaimOf(id, b.rows[id], token, now, lease);
      assert ClaimOk(b'.rows, c);
      forall i | 0 <= i < |b.issued| ensures !SameGrant(b.issued[i], c) { assert ClaimOk(b.rows, b.issued[i]); }
      PickedInv(b.(rows := b'.rows), c);
    }
  }

  lemma PickedInv(b: Book, c: Claim)
    requires Inv(b) && ClaimOk(b.rows, c) && forall i :: 0 <= i < |b.issued| ==> !SameGrant(b.issued[i], c)
    ensures Inv(b.(issued := b.issued + [c]))
  {
    hide ClaimOk, RowOk;
    forall i | 0 <= i < |b.settled| ensures SettledOk(b.(issued := b.issued + [c]), b.settled[i]) { assert SettledOk(b, b.settled[i]); }
  }

  lemma SettledKept(b: Book, t': Table)
    requires Inv(b) && Grows(b.rows, t')
    ensures forall i :: 0 <= i < |b.settled| ==> SettledOk(b.(rows := t'), b.settled[i])
  {
    forall i | 0 <= i < |b.settled| ensures SettledOk(b.(rows := t'), b.settled[i]) {
      assert SettledOk(b, b.settled[i]);
      assert RowGrows(b.rows[b.settled[i].0.id], t'[b.settled[i].0.id]);
    }
  }

  /** A change of rows that keeps row invariants and only grows keeps everything. */
  lemma RowsStep(b: Book, t': Table)
    requires Inv(b) && Grows(b.rows, t') && forall id :: id in t' ==> RowOk(t'[id])
    ensures Inv(b.(rows := t'))
  {
    hide Grows, RowOk;
    forall i | 0 <= i < |b.issued| ensures ClaimOk(t', b.issued[i]) {
      ClaimKept(b.rows, t', b.issued[i]);
    }
    SettledKept(b, t');
  }

  lemma SettleStep(b: Book, c: Claim, s: Settlement, now: int)
    requires Inv(b)
    ensures Inv(Apply(b, OpSettle(c, s, now))) && Grows(b.rows, Apply(b, OpSettle(c, s, now)).rows)
  {
    hide ClaimOk;
    var t' := Settle(b.rows, c, s, now).0;
    SettleGrows(b.rows, c, s, now);
    hide Grows;
    RowsStep(b, t');
    if Settle(b.rows, c, s, now).1 == Done {
      forall i | 0 <= i < |b.settled| ensures !SameGrant(b.settled[i].0, c) {
        assert SettledOk(b, b.settled[i]);
      }
    }
  }

  lemma SettleGrows(t: Table, c: Claim, s: Settlement, now: int)
    ensures Grows(t, Settle(t, c, s, now).0)
  {
  }

  lemma OtherStep(b: Book, op: Op)
    requires Inv(b) && (op.OpAppend? || op.OpRequeue? || op.OpCorrupt?)
    ensures Inv(Apply(b, op)) && Grows(b.rows, Apply(b, op).rows)
  {
    hide ClaimOk, ValidMessage, SettledOk;
    var t' := Apply(b, op).rows;
    assert Grows(b.rows, t');
    RowsStep(b, t');
  }

  lemma ApplyKeeps(b: Book, op: Op)
    requires Inv(b)
    ensures Inv(Apply(b, op)) && Grows(b.rows, Apply(b, op).rows)
  {
    hide Inv, ClaimTable, Claims, Settle, Append, Requeue;
    match op
    case OpClaim(limit, ids, tokens, now, lease) =>
      if ValidClaimArgs(limit, lease) && Selected(b.rows, ids, now) { ClaimStep(b, limit, ids, tokens, now, lease); }
    case OpPick(id, token, now, lease) =>
      if ValidClaimArgs(1, lease) && id in b.rows && MongoEligible(b.rows[id], now) { PickStep(b, id, token, now, lease); }
    case OpSettle(c, s, now) => SettleStep(b, c, s, now);
    case _ => OtherStep(b, op);
  }

  lemma GrowsTrans(a: Table, b: Table, c: Table)
    requires Grows(a, b) && Grows(b, c)
    ensures Grows(a, c)
  {
    forall id | id in a ensures id in c && RowGrows(a[id], c[id]) {
      assert RowGrows(a[id], b[id]) && RowGrows(b[id], c[id]);
    }
  }

  lemma {:induction false} RunKeeps(b: Book, ops: seq<Op>)
    requires Inv(b)
    ensures Inv(Run(b, ops)) && Grows(b.rows, Run(b, ops).rows)
    decreases |ops|
  {
    hide Inv, Apply, Grows;
    if ops == [] {
      GrowsRefl(b.rows);
    } else {
      ApplyKeeps(b, ops[0]);
      RunKeeps(Apply(b, ops[0]), ops[1..]);
      GrowsTrans(b.rows, Apply(b, ops[0]).rows, Run(b, ops).rows);
    }
  }

  lemma GrowsRefl(t: Table)
    ensures Grows(t, t)
  {
  }

  lemma {:induction false} RunConcat(b: Book, ops: seq<Op>, more: seq<Op>)
    ensures Run(b, ops + more) == Run(Run(b, ops), more)
    decreases |ops|
  {
    hide Apply;
    if ops == [] {
      assert ops + more == more;
    } else {
      assert (ops + more)[1..] == ops[1..] + more;
      RunConcat(Apply(b, ops[0]), ops[1..], more);
    }
  }

  // ---- Claim fencing ------------------------------------------------------------------------

  /** At most one handed-out claim of a row can settle it, at whatever instants the
      two are tried, even if random tokens repeat. */
  lemma OneClaimCanSettle(ops: seq<Op>, i: nat, j: nat, now: int, later: int)
    requires var b := Run(Empty(), ops);
      && i < |b.issued| && j < |b.issued| && b.issued[i].id == b.issued[j].id
      && CanSettle(b.rows, b.issued[i], now) && CanSettle(b.rows, b.issued[j], later)
    ensures i == j
  {
    hide Run;
    RunKeeps(Empty(), ops);
    var b := Run(Empty(), ops);
    assert SameGrant(b.issued[i], b.issued[j]);
    assert !(i < j) && !(j < i);
  }

  /** A claim settles at most once: no two settlements share record and version,
      and a settled claim can never settle again in any continuation. */
  lemma SettlesOnce(ops: seq<Op>, more: seq<Op>, i: nat, now: int)
    requires i < |Run(Empty(), ops).settled|
    ensures forall j :: 0 <= j < |Run(Empty(), ops).settled| && j != i ==>
      !SameGrant(Run(Empty(), ops).settled[i].0, Run(Empty(), ops).settled[j].0)
    ensures !CanSettle(Run(Empty(), ops + more).rows, Run(Empty(), ops).settled[i].0, now)
  {
    hide Run, ClaimOk, RowOk;
    RunKeeps(Empty(), ops);
    RunConcat(Empty(), ops, more);
    RunKeeps(Run(Empty(), ops), more);
    var b := Run(Empty(), ops);
    assert SettledOk(b, b.settled[i]);
    assert RowGrows(b.rows[b.settled[i].0.id], Run(Empty(), ops + more).rows[b.settled[i].0.id]);
    assert forall j :: 0 <= j < i ==> !SameGrant(b.settled[j].0, b.settled[i].0);
  }

  /** Once the row has moved past a claim's version, that claim changes nothing, in
      any continuation and at any time. */
  lemma SupersededForever(ops: seq<Op>, more: seq<Op>, c: Claim, s: Settlement, now: int)
    requires c.id in Run(Empty(), ops).rows && c.version < Run(Empty(), ops).rows[c.id].version
    ensures Settle(Run(Empty(), ops + more).rows, c, s, now).0 == Run(Empty(), ops + more).rows
    ensures Settle(Run(Empty(), ops + more).rows, c, s, now).1 != Done
  {
    hide Run, Inv;
    EmptyInv();
    RunKeeps(Empty(), ops);
    RunConcat(Empty(), ops, more);
    RunKeeps(Run(Empty(), ops), more);
    assert RowGrows(Run(Empty(), ops).rows[c.id], Run(Empty(), ops + more).rows[c.id]);
  }

  lemma EmptyInv()
    ensures Inv(Empty())
  {
  }

  /** Expiry alone already disarms a claim: past its lease it changes nothing. */
  lemma ExpiredChangesNothing(ops: seq<Op>, i: nat, s: Settlement, now: int)
    requires i < |Run(Empty(), ops).issued| && Run(Empty(), ops).issued[i].leaseUntil <= now
    ensures var b := Run(Empty(), ops); Settle(b.rows, b.issued[i], s, now).0 == b.rows && Settle(b.rows, b.issued[i], s, now).1 != Done
  {
    hide Run, RowOk;
    RunKeeps(Empty(), ops);
    assert ClaimOk(Run(Empty(), ops).rows, Run(Empty(), ops).issued[i]);
  }

  /** A live claim does settle, and only its own row changes. */
  lemma LiveClaimSettles(ops: seq<Op>, i: nat, s: Settlement, now: int)
    requires i < |Run(Empty(), ops).issued| && ValidSettlement(s)
    requires var b := Run(Empty(), ops); var c := b.issued[i];
      c.id in b.rows && c.id != 0 && c.token != "" && c.version == b.rows[c.id].version && now < c.leaseUntil
    ensures var b := Run(Empty(), ops); var r := Settle(b.rows, b.issued[i], s, now);
      r.1 == Done && b.issued[i].id in r.0 && r.0[b.issued[i].id].state != Publishing && r.0 - {b.issued[i].id} == b.rows - {b.issued[i].id}
  {
    hide Run, RowOk;
    RunKeeps(Empty(), ops);
    assert ClaimOk(Run(Empty(), ops).rows, Run(Empty(), ops).issued[i]);
  }

  // ---- No loss --------------------------------------------------------------------------------

  /** No row is ever lost: in every continuation it is still there with its original
      fingerprint, and published, quarantined, or eligible exactly from its next
      attempt time on. */
  lemma NoLoss(ops: seq<Op>, more: seq<Op>, id: nat, now: int)
    requires id in Run(Empty(), ops).rows
    ensures id in Run(Empty(), ops + more).rows
    ensures var r := Run(Empty(), ops + more).rows[id];
      && r.fingerprint == Run(Empty(), ops).rows[id].fingerprint
      && (r.state == Published || r.state == Quarantined || (Eligible(r, now) <==> r.nextAttempt <= now))
  {
    hide Run, ClaimOk;
    EmptyInv();
    RunKeeps(Empty(), ops);
    RunConcat(Empty(), ops, more);
    RunKeeps(Run(Empty(), ops), more);
    assert RowGrows(Run(Empty(), ops).rows[id], Run(Empty(), ops + more).rows[id]);
    assert RowOk(Run(Empty(), ops + more).rows[id]);
  }

  /** The rows a scan would take before id. */
  function Ahead(t: Table, now: int, skipped: set<nat>, id: nat): set<nat>
    requires id in t
  {
    set k | k in t && k !in skipped && Eligible(t[k], now) && Before(t, k, id)
  }

  function Elements(ids: seq<nat>): set<nat> { set k | k in ids }

  lemma {:induction false} DistinctCount(ids: seq<nat>)
    requires Distinct(ids)
    ensures |Elements(ids)| == |ids|
    decreases |ids|
  {
    if ids != [] {
      var n := |ids| - 1;
      DistinctCount(ids[..n]);
      assert ids == ids[..n] + [ids[n]];
      assert ids[n] !in ids[..n];
      assert Elements(ids) == Elements(ids[..n]) + {ids[n]};
    }
  }

  /** A scan takes an eligible row exactly if fewer than its limit come before it. */
  lemma SelectedIff(t: Table, now: int, limit: nat, skipped: set<nat>, ids: seq<nat>, id: nat)
    requires Selection(t, now, limit, skipped, ids) && id in t && id !in skipped && Eligible(t[id], now)
    ensures id in ids <==> |Ahead(t, now, skipped, id)| < limit
  {
    hide Eligible;
    SelectionDistinct(t, now, limit, skipped, ids);
    if id in ids {
      var i :| 0 <= i < |ids| && ids[i] == id;
      forall k | k in Ahead(t, now, skipped, id) ensures k in Elements(ids[..i]) {
        assert k in ids;
        var j :| 0 <= j < |ids| && ids[j] == k;
        assert j < i && ids[..i][j] == k;
      }
      assert Distinct(ids[..i]);
      DistinctCount(ids[..i]);
      Smaller(Ahead(t, now, skipped, id), Elements(ids[..i]));
    } else {
      assert Elements(ids) <= Ahead(t, now, skipped, id);
      DistinctCount(ids);
      Smaller(Elements(ids), Ahead(t, now, skipped, id));
    }
  }

  lemma Smaller(a: set<nat>, b: set<nat>)
    requires a <= b
    ensures |a| <= |b|
  {
    assert a + (b - a) == b;
  }

  /** A due row that no other transaction holds is taken by a scan exactly if fewer than
      the limit come before it: it is then claimed with its original message, or
      quarantined as corrupt; otherwise it stays as it is. */
  lemma DueRowPickedUp(ops: seq<Op>, id: nat, limit: nat, skipped: set<nat>, ids: seq<nat>, tokens: nat -> string, now: int, lease: int)
    requires var b := Run(Empty(), ops);
      && id in b.rows && id !in skipped && b.rows[id].state != Published && b.rows[id].state != Quarantined && b.rows[id].nextAttempt <= now
      && Selection(b.rows, now, limit, skipped, ids) && ValidClaimArgs(limit, lease)
    ensures var b, b' := Run(Empty(), ops), Apply(Run(Empty(), ops), OpClaim(limit, ids, tokens, now, lease));
      && id in b'.rows
      && (|Ahead(b.rows, now, skipped, id)| < limit ==>
            || b'.rows[id].state == Quarantined
            || (b'.rows[id].state == Publishing &&
                exists c :: c in b'.issued && c.id == id && c.version == b'.rows[id].version && Fingerprint(c.message) == b'.rows[id].fingerprint))
      && (|Ahead(b.rows, now, skipped, id)| >= limit ==> b'.rows[id] == b.rows[id])
  {
    hide Run, ValidMessage, Before, Ahead;
    var b := Run(Empty(), ops);
    NoLoss(ops, [], id, now);
    assert ops + [] == ops;
    SelectedIff(b.rows, now, limit, skipped, ids, id);
    SelectionDistinct(b.rows, now, limit, skipped, ids);
    if id in ids {
      ClaimsFacts(b.rows, ids, tokens, now, lease);
      var i :| 0 <= i < |ids| && ids[i] == id;
      var cs := Claims(b.rows, ids, tokens, now, lease);
      if Intact(b.rows[id]) {
        var k :| 0 <= k < |cs| && cs[k].id == ids[i];
        assert cs[k] in b.issued + cs;
      }
    }
  }

  lemma SelectionDistinct(t: Table, now: int, limit: nat, skipped: set<nat>, ids: seq<nat>)
    requires Selection(t, now, limit, skipped, ids)
    ensures Selected(t, ids, now)
  {
    forall i, j | 0 <= i < j < |ids| ensures ids[i] != ids[j] {
      assert Before(t, ids[i], ids[j]);
    }
  }

  /** What a claim hands out is the message the row was appended with, whatever was
      done to the row's columns since. */
  lemma OnlyOriginalContent(ops: seq<Op>, id: nat, m: Message, due: int, more: seq<Op>, i: nat)
    requires var b := Run(Empty(), ops); id !in b.rows && id in Apply(b, OpAppend(id, m, due)).rows
    requires var b := Run(Empty(), ops + [OpAppend(id, m, due)] + more); i < |b.issued| && b.issued[i].id == id
    ensures Run(Empty(), ops + [OpAppend(id, m, due)] + more).issued[i].message == m
  {
    hide Run, RowOk;
    EmptyInv();
    var app := [OpAppend(id, m, due)];
    RunConcat(Empty(), ops + app, more);
    RunConcat(Empty(), ops, app);
    RunOne(Run(Empty(), ops), app[0]);
    RunKeeps(Empty(), ops + app);
    RunKeeps(Run(Empty(), ops + app), more);
    var b := Run(Empty(), ops + app + more);
    assert RowGrows(Run(Empty(), ops + app).rows[id], b.rows[id]);
    assert ClaimOk(b.rows, b.issued[i]);
  }

  lemma RunOne(b: Book, op: Op)
    ensures Run(b, [op]) == Apply(b, op)
  {
    assert Run(Apply(b, op), [op][1..]) == Apply(b, op);
  }

  // ---- The two eligibility filters ---------------------------------------------------------------

  /** In every table reachable by either store's claims, and at every instant, the
      document filter selects exactly the rows of the relational one. */
  lemma FiltersAgree(ops: seq<Op>, id: nat, now: int)
    requires id in Run(Empty(), ops).rows
    ensures MongoEligible(Run(Empty(), ops).rows[id], now) <==> Eligible(Run(Empty(), ops).rows[id], now)
  {
    hide Run, ClaimOk;
    RunKeeps(Empty(), ops);
    assert RowOk(Run(Empty(), ops).rows[id]);
  }
}
