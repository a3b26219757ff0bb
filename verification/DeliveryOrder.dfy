/** Delivery order over every run of the receipt-based outbox. */
module DeliveryOrder {
  import opened Delivery

  datatype Op =
    | Insert(id: Identity, r: Record)
    | Poll(ids: seq<Identity>, now: int)
    | OpPublished(id: Identity, hash: string, wait: int, now: int)
    | OpConfirm(id: Identity, hash: string)
    | OpRetry(id: Identity, hash: string, delay: int, code: string, now: int)
    | OpHold(id: Identity, hash: string, code: string)
    | OpRearm(id: Identity, hash: string, now: int)

  /** The table and the records the pending query handed out for delivery, in order. */
  datatype Sys = Sys(rows: Table, log: seq<Identity>)

  ghost predicate AllPending(t: Table, ids: seq<Identity>, now: int) {
    forall i :: 0 <= i < |ids| ==> IsPending(t, ids[i], now)
  }

  ghost function Apply(s: Sys, op: Op): Sys {
    match op
    case Insert(id, r) => if id in s.rows then s else s.(rows := s.rows[id := r.(stage := Staged)])
    case Poll(ids, now) => if AllPending(s.rows, ids, now) then s.(log := s.log + ids) else s
    case OpPublished(id, hash, wait, now) => s.(rows := Published(s.rows, id, hash, wait, now).0)
    case OpConfirm(id, hash) => s.(rows := Confirm(s.rows, id, hash).0)
    case OpRetry(id, hash, delay, code, now) => s.(rows := Retry(s.rows, id, hash, delay, code, now).0)
    case OpHold(id, hash, code) => s.(rows := Hold(s.rows, id, hash, code).0)
    case OpRearm(id, hash, now) => s.(rows := RearmAck(s.rows, id, hash, now).0)
  }

  ghost function Run(s: Sys, ops: seq<Op>): Sys
    decreases |ops|
  {
    if ops == [] then s else Run(Apply(s, ops[0]), ops[1..])
  }

  function Init(): Sys { Sys(map[], []) }

  /** The host appends an aggregate's ordered records in increasing sequence. */
  ghost predicate InOrder(s: Sys, op: Op) {
    op.Insert? && op.id !in s.rows ==> Last(s.rows[op.id := op.r], op.id)
  }

  ghost predicate Last(t: Table, id: Identity) {
    forall k :: !Precedes(t, id, k)
  }

  ghost predicate InOrderRun(s: Sys, ops: seq<Op>)
    decreases |ops|
  {
    ops == [] || (InOrder(s, ops[0]) && InOrderRun(Apply(s, ops[0]), ops[1..]))
  }

  // ---- Invariants -----------------------------------------------------------------------------

  /** Immutable columns stay; a confirmed record that requires a receipt stays confirmed. */
  predicate Keeps(a: Table, b: Table) { forall id :: id in a ==> id in b && KeptRow(a[id], b[id]) }

  predicate KeptRow(a: Record, b: Record) {
    && b == a.(stage := b.stage, attempts := b.attempts, availableAt := b.availableAt,
               publishedAt := b.publishedAt, confirmedAt := b.confirmedAt, errorCode := b.errorCode)
    && (a.stage == Stage.Confirmed && a.requiresReceipt ==> b.stage == Stage.Confirmed)
  }

  /** a has been overtaken by b's delivery only after a was confirmed for good. */
  predicate Passed(t: Table, a: Identity, b: Identity) {
    Precedes(t, a, b) && t[a].requiresReceipt ==> t[a].stage == Stage.Confirmed
  }

  ghost predicate Inv(s: Sys) {
    && (forall i :: 0 <= i < |s.log| ==> s.log[i] in s.rows)
    && (forall j, a :: 0 <= j < |s.log| ==> Passed(s.rows, a, s.log[j]))
    && (forall j, i :: 0 <= j < i < |s.log| && s.log[i] in s.rows && s.rows[s.log[i]].requiresReceipt ==>
          !Precedes(s.rows, s.log[i], s.log[j]))
  }

  lemma ApplyKeepsRows(s: Sys, op: Op)
    ensures Keeps(s.rows, Apply(s, op).rows)
  {
    var t, t' := s.rows, Apply(s, op).rows;
    forall id | id in t ensures id in t' && KeptRow(t[id], t'[id]) {
      if t'[id] == t[id] { SameRow(t[id]); } else { assert KeptRow(t[id], t'[id]); }
    }
  }

  lemma SameRow(r: Record)
    ensures KeptRow(r, r)
  {
  }

  lemma KeptPrecedes(a: Table, b: Table, x: Identity, y: Identity)
    requires Keeps(a, b) && x in a && y in a
    ensures Precedes(a, x, y) <==> Precedes(b, x, y)
  {
    assert x in b && y in b;
  }

  lemma RowsStep(s: Sys, op: Op)
    requires Inv(s) && InOrder(s, op) && !op.Poll?
    ensures Inv(Apply(s, op))
  {
    hide Apply, Keeps;
    var s' := Apply(s, op);
    ApplyKeepsRows(s, op);
    SameLog(s, op);
    forall i | 0 <= i < |s.log| ensures s.log[i] in s'.rows { KeptIn(s.rows, s'.rows, s.log[i]); }
    forall j, a | 0 <= j < |s.log| ensures Passed(s'.rows, a, s.log[j]) {
      if a in s.rows {
        KeptPrecedes(s.rows, s'.rows, a, s.log[j]);
        KeptConfirmed(s.rows, s'.rows, a);
        assert Passed(s.rows, a, s.log[j]);
      } else {
        NewNeverPrecedes(s, op, a, s.log[j]);
      }
    }
    forall j, i | 0 <= j < i < |s.log| && s.log[i] in s'.rows && s'.rows[s.log[i]].requiresReceipt
      ensures !Precedes(s'.rows, s.log[i], s.log[j])
    {
      KeptPrecedes(s.rows, s'.rows, s.log[i], s.log[j]);
      KeptConfirmed(s.rows, s'.rows, s.log[i]);
    }
  }

  lemma SameLog(s: Sys, op: Op)
    requires !op.Poll?
    ensures Apply(s, op).log == s.log
  {
  }

  lemma KeptIn(a: Table, b: Table, id: Identity)
    requires Keeps(a, b) && id in a
    ensures id in b
  {
  }

  lemma KeptConfirmed(a: Table, b: Table, id: Identity)
    requires Keeps(a, b) && id in a
    ensures id in b && a[id].requiresReceipt == b[id].requiresReceipt
    ensures a[id].requiresReceipt && a[id].stage == Stage.Confirmed ==> b[id].stage == Stage.Confirmed
  {
  }

  lemma NewNeverPrecedes(s: Sys, op: Op, a: Identity, b: Identity)
    requires InOrder(s, op) && a !in s.rows && b in s.rows
    ensures !Precedes(Apply(s, op).rows, a, b)
  {
    if op.Insert? && op.id == a {
      assert !Precedes(s.rows[op.id := op.r], op.id, b);
    }
  }

  lemma PollStep(s: Sys, ids: seq<Identity>, now: int)
    requires Inv(s) && AllPending(s.rows, ids, now)
    ensures Inv(Apply(s, Poll(ids, now)))
  {
    var s' := Apply(s, Poll(ids, now));
    forall i | 0 <= i < |s'.log| ensures s'.log[i] in s'.rows && (|s.log| <= i ==> IsPending(s.rows, s'.log[i], now)) {
      if |s.log| <= i { assert s'.log[i] == ids[i - |s.log|]; }
    }
    forall j, a | 0 <= j < |s'.log| ensures Passed(s'.rows, a, s'.log[j]) {
      if j < |s.log| { assert s'.log[j] == s.log[j]; }
    }
    forall j, i | 0 <= j < i < |s'.log| && s'.log[i] in s'.rows && s'.rows[s'.log[i]].requiresReceipt
      ensures !Precedes(s'.rows, s'.log[i], s'.log[j])
    {
      if |s.log| <= i {
        assert Passed(s'.rows, s'.log[i], s'.log[j]);
      }
    }
  }

  lemma {:induction false} RunKeeps(s: Sys, ops: seq<Op>)
    requires Inv(s) && InOrderRun(s, ops)
    ensures Inv(Run(s, ops))
    decreases |ops|
  {
    hide Inv, InOrder;
    if ops != [] {
      if ops[0].Poll? {
        if AllPending(s.rows, ops[0].ids, ops[0].now) { PollStep(s, ops[0].ids, ops[0].now); }
      } else {
        RowsStep(s, ops[0]);
      }
      RunKeeps(Apply(s, ops[0]), ops[1..]);
    }
  }

  lemma {:induction false} RunKeepsRows(s: Sys, ops: seq<Op>)
    ensures Keeps(s.rows, Run(s, ops).rows)
    decreases |ops|
  {
    hide Apply;
    if ops != [] {
      ApplyKeepsRows(s, ops[0]);
      RunKeepsRows(Apply(s, ops[0]), ops[1..]);
      KeepsTrans(s.rows, Apply(s, ops[0]).rows, Run(s, ops).rows);
    }
  }

  lemma KeepsTrans(a: Table, b: Table, c: Table)
    requires Keeps(a, b) && Keeps(b, c)
    ensures Keeps(a, c)
  {
  }

  lemma {:induction false} RunConcat(s: Sys, ops: seq<Op>, more: seq<Op>)
    ensures Run(s, ops + more) == Run(Run(s, ops), more)
    decreases |ops|
  {
    hide Apply;
    if ops == [] {
      assert ops + more == more;
    } else {
      assert (ops + more)[1..] == ops[1..] + more;
      RunConcat(Apply(s, ops[0]), ops[1..], more);
    }
  }

  // ---- Results ---------------------------------------------------------------------------------

  /** Confirmation by receipt is permanent, whatever is called afterwards. */
  lemma ConfirmedForever(ops: seq<Op>, more: seq<Op>, id: Identity)
    requires var t := Run(Init(), ops).rows; id in t && t[id].requiresReceipt && t[id].stage == Stage.Confirmed
    ensures var t := Run(Init(), ops + more).rows; id in t && t[id].requiresReceipt && t[id].stage == Stage.Confirmed
  {
    hide Run;
    RunConcat(Init(), ops, more);
    RunKeepsRows(Run(Init(), ops), more);
  }

  /** In every run with in-order appends, every delivery of an ordered record that
      requires a receipt comes before every delivery of its aggregate's successors. */
  lemma DeliveriesFollowSequence(ops: seq<Op>, i: nat, j: nat)
    requires InOrderRun(Init(), ops)
    requires var s := Run(Init(), ops); i < |s.log| && j < |s.log| && s.log[i] in s.rows && s.rows[s.log[i]].requiresReceipt
    requires Precedes(Run(Init(), ops).rows, Run(Init(), ops).log[i], Run(Init(), ops).log[j])
    ensures i < j
  {
    hide Run, InOrderRun, Passed;
    InitInv();
    RunKeeps(Init(), ops);
    assert i != j;
  }

  lemma InitInv()
    ensures Inv(Init())
  {
  }

  /** While a predecessor is not confirmed (held included) nothing after it is handed out. */
  lemma UnconfirmedBlocks(s: Sys, a: Identity, b: Identity, ids: seq<Identity>, now: int)
    requires Precedes(s.rows, a, b) && s.rows[a].stage != Stage.Confirmed && b in ids
    ensures Apply(s, Poll(ids, now)) == s
  {
    var k :| 0 <= k < |ids| && ids[k] == b;
    assert !IsPending(s.rows, ids[k], now);
  }

  /** Publication alone never confirms a record that requires a receipt; a receipt
      confirms it from any stage, and afterwards it is never handed out again. */
  lemma ReceiptDecides(t: Table, id: Identity, hash: string, wait: int, now: int)
    requires Matches(t, id, hash) && t[id].requiresReceipt
    ensures var p := Published(t, id, hash, wait, now).0; id in p && (p[id].stage == Stage.Confirmed <==> t[id].stage == Stage.Confirmed)
    ensures var c := Confirm(t, id, hash); c.1 == Done && id in c.0 && c.0[id].stage == Stage.Confirmed && !IsPending(c.0, id, now)
  {
  }

  // ---- The receipt is what the order rests on -----------------------------------------------------

  ghost function Overtaking(a: Identity, ra: Record, b: Identity, rb: Record): seq<Op> {
    [Insert(a, ra), Insert(b, rb)]
    + ([Poll([a], ra.availableAt), OpPublished(a, ra.bodyHash, 1, ra.availableAt)]
       + ([Poll([b], rb.availableAt), OpRearm(a, ra.bodyHash, 0)] + [Poll([a], 0)]))
  }

  /** An ordered record that needs no receipt can be rearmed and delivered after
      its successor; together with DeliveriesFollowSequence: deliveries follow
      sequence in every in-order run exactly for records that require a receipt. */
  lemma ReceiptFreeOvertaken(a: Identity, ra: Record, b: Identity, rb: Record)
    requires Pair(a, ra, b, rb)
    ensures InOrderRun(Init(), Overtaking(a, ra, b, rb))
    ensures var s := Run(Init(), Overtaking(a, ra, b, rb)); s.log == [a, b, a] && Precedes(s.rows, a, b)
  {
    hide Run, InOrderRun;
    var s2 := Sys(map[a := ra, b := rb], []);
    Appended(a, ra, b, rb);
    var s4 := DeliverFirst(s2, a, ra, b, rb);
    var s6 := DeliverSecond(s4, a, ra, b, rb);
    assert AllPending(s6.rows, [a], 0);
    var last := [Poll([a], 0)];
    var second := [Poll([b], rb.availableAt), OpRearm(a, ra.bodyHash, 0)];
    var first := [Poll([a], ra.availableAt), OpPublished(a, ra.bodyHash, 1, ra.availableAt)];
    RunOne(s6, last[0]);
    Compose(s4, second, last);
    Compose(s2, first, second + last);
    Compose(Init(), [Insert(a, ra), Insert(b, rb)], first + (second + last));
  }

  lemma RunOne(s: Sys, op: Op)
    ensures Run(s, [op]) == Apply(s, op) && (InOrder(s, op) ==> InOrderRun(s, [op]))
  {
    hide Apply, InOrder;
    assert [op][1..] == [];
  }

  lemma RunTwo(s: Sys, x: Op, y: Op)
    ensures Run(s, [x, y]) == Apply(Apply(s, x), y)
    ensures InOrder(s, x) && InOrder(Apply(s, x), y) ==> InOrderRun(s, [x, y])
  {
    hide Apply, InOrder;
    RunOne(Apply(s, x), y);
    assert [x, y][1..] == [y];
  }

  lemma {:induction false} Compose(s: Sys, ops: seq<Op>, more: seq<Op>)
    requires InOrderRun(s, ops) && InOrderRun(Run(s, ops), more)
    ensures InOrderRun(s, ops + more) && Run(s, ops + more) == Run(Run(s, ops), more)
    decreases |ops|
  {
    hide Apply, InOrder;
    if ops == [] {
      assert ops + more == more;
    } else {
      assert (ops + more)[1..] == ops[1..] + more;
      Compose(Apply(s, ops[0]), ops[1..], more);
    }
  }

  predicate Pair(a: Identity, ra: Record, b: Identity, rb: Record) {
    && a != b && Precedes(map[a := ra, b := rb], a, b) && !ra.requiresReceipt && ra.stage == Staged && rb.stage == Staged
    && a.producer != "" && a.destination != "" && a.messageId != ""
  }

  lemma Appended(a: Identity, ra: Record, b: Identity, rb: Record)
    requires Pair(a, ra, b, rb)
    ensures InOrderRun(Init(), [Insert(a, ra), Insert(b, rb)])
    ensures Run(Init(), [Insert(a, ra), Insert(b, rb)]) == Sys(map[a := ra, b := rb], [])
  {
    RunTwo(Init(), Insert(a, ra), Insert(b, rb));
    assert map[a := ra][b := rb] == map[a := ra, b := rb];
  }

  lemma DeliverFirst(s: Sys, a: Identity, ra: Record, b: Identity, rb: Record) returns (s': Sys)
    requires Pair(a, ra, b, rb) && s == Sys(map[a := ra, b := rb], [])
    ensures var ops := [Poll([a], ra.availableAt), OpPublished(a, ra.bodyHash, 1, ra.availableAt)]; InOrderRun(s, ops) && s' == Run(s, ops)
    ensures s'.rows.Keys == {a, b} && s'.rows[b] == rb && s'.log == [a]
    ensures s'.rows[a] == ra.(stage := Stage.Confirmed, publishedAt := true, confirmedAt := true,
                              availableAt := ra.availableAt + SECOND, errorCode := "")
  {
    hide Run, InOrderRun;
    assert AllPending(s.rows, [a], ra.availableAt);
    RunTwo(s, Poll([a], ra.availableAt), OpPublished(a, ra.bodyHash, 1, ra.availableAt));
    s' := Apply(Apply(s, Poll([a], ra.availableAt)), OpPublished(a, ra.bodyHash, 1, ra.availableAt));
  }

  lemma DeliverSecond(s: Sys, a: Identity, ra: Record, b: Identity, rb: Record) returns (s': Sys)
    requires Pair(a, ra, b, rb) && s.rows.Keys == {a, b} && s.rows[b] == rb && s.log == [a]
    requires s.rows[a] == ra.(stage := Stage.Confirmed, publishedAt := true, confirmedAt := true,
                              availableAt := ra.availableAt + SECOND, errorCode := "")
    ensures var ops := [Poll([b], rb.availableAt), OpRearm(a, ra.bodyHash, 0)]; InOrderRun(s, ops) && s' == Run(s, ops)
    ensures s'.rows.Keys == {a, b} && s'.rows[b] == rb && s'.log == [a, b]
    ensures s'.rows[a].stage == Staged && s'.rows[a].availableAt == 0 && Precedes(s'.rows, a, b)
  {
    hide Run, InOrderRun;
    assert AllPending(s.rows, [b], rb.availableAt);
    RunTwo(s, Poll([b], rb.availableAt), OpRearm(a, ra.bodyHash, 0));
    s' := Apply(Apply(s, Poll([b], rb.availableAt)), OpRearm(a, ra.bodyHash, 0));
  }

  // ---- Appends out of sequence ------------------------------------------------------------

  /** The other condition is needed too. Whatever happened before: a record appended
      after its successor was delivered, with all its own predecessors confirmed, is
      delivered after that successor, receipt or not. */
  lemma LateAppendOvertaken(s: Sys, a: Identity, ra: Record, b: Identity)
    requires b in s.log && b in s.rows && a !in s.rows && Precedes(s.rows[a := ra], a, b)
    requires forall k :: Precedes(s.rows[a := ra], k, a) ==> k in s.rows && s.rows[k].stage == Stage.Confirmed
    ensures !InOrder(s, Insert(a, ra))
    ensures var s' := Run(s, [Insert(a, ra), Poll([a], ra.availableAt)]); s'.log == s.log + [a] && Precedes(s'.rows, a, b)
  {
    RunTwo(s, Insert(a, ra), Poll([a], ra.availableAt));
    var t := Apply(s, Insert(a, ra)).rows;
    forall k | Precedes(t, k, a) ensures t[k].stage == Stage.Confirmed {
      assert Precedes(s.rows[a := ra], k, a);
    }
    assert IsPending(t, a, ra.availableAt);
    assert AllPending(t, [a], ra.availableAt);
  }

  /** From the empty table: a successor that is appended and delivered first. */
  lemma OutOfSequenceReachable(a: Identity, ra: Record, b: Identity, rb: Record)
    requires a != b && Precedes(map[a := ra, b := rb], a, b)
    ensures var s := Run(Init(), [Insert(b, rb), Poll([b], rb.availableAt)] + [Insert(a, ra), Poll([a], ra.availableAt)]);
      s.log == [b, a] && Precedes(s.rows, a, b)
  {
    var first := [Insert(b, rb), Poll([b], rb.availableAt)];
    RunTwo(Init(), first[0], first[1]);
    var t := Apply(Init(), first[0]).rows;
    assert t == map[b := rb.(stage := Staged)] && IsPending(t, b, rb.availableAt) && AllPending(t, [b], rb.availableAt);
    var s := Run(Init(), first);
    assert s == Sys(t, [b]);
    LateAppendOvertaken(s, a, ra, b);
    RunConcat(Init(), first, [Insert(a, ra), Poll([a], ra.availableAt)]);
  }
}
