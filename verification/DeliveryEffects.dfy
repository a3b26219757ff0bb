/** What the receipt-based outbox writes, column by column, and what a record's stage
    proves about the run that led to it. */
module DeliveryEffects {
  import opened Delivery
  import opened DeliveryOrder

  predicate OnlyRecord(t: Table, t': Table, id: Identity) {
    id in t && id in t' && t'.Keys == t.Keys && forall k :: k in t && k != id ==> t'[k] == t[k]
  }

  /** The exact record with the exact body, under a complete identity. */
  predicate Named(t: Table, id: Identity, hash: string) {
    id in t && t[id].bodyHash == hash && id.producer != "" && id.destination != "" && id.messageId != ""
  }

  predicate Open(r: Record) { r.stage == Staged || r.stage == AwaitingReceipt }

  /** What no transition may change. */
  predicate SameMessage(r: Record, r': Record) {
    && r'.bodyHash == r.bodyHash && r'.aggregate == r.aggregate && r'.sequence == r.sequence
    && r'.ordered == r.ordered && r'.requiresReceipt == r.requiresReceipt
  }

  /** A publication is taken note of once, for an open record: one that requires a receipt
      then waits for it and is due again after the wait, one that does not is confirmed. */
  lemma PublishedExactly(t: Table, id: Identity, hash: string, wait: int, now: int)
    ensures var x := Published(t, id, hash, wait, now);
      && (x.1 == ErrArgument <==> !(1 <= wait <= 60)) && (x.1 == Done <==> 1 <= wait <= 60 && Named(t, id, hash))
      && (x.1 == Done && Open(t[id]) ==>
            && OnlyRecord(t, x.0, id) && SameMessage(t[id], x.0[id])
            && var r, r' := t[id], x.0[id];
               && r'.publishedAt && r'.errorCode == "" && r'.availableAt == now + wait * 1_000_000
               && (r.requiresReceipt ==> r'.stage == AwaitingReceipt && !r'.confirmedAt && r'.attempts == r.attempts + 1)
               && (!r.requiresReceipt ==> r'.stage == Stage.Confirmed && r'.confirmedAt && r'.attempts == r.attempts))
      && (x.1 != Done || !Open(t[id]) ==> x.0 == t)
  {
  }

  /** A receipt confirms the record it names from any stage, and only one that requires it. */
  lemma ConfirmExactly(t: Table, id: Identity, hash: string)
    ensures var x := Confirm(t, id, hash);
      && (x.1 == Done <==> Named(t, id, hash) && t[id].requiresReceipt) && (x.1 != Done ==> x.1 == ErrConflict && x.0 == t)
      && (x.1 == Done ==>
            && OnlyRecord(t, x.0, id) && SameMessage(t[id], x.0[id])
            && var r, r' := t[id], x.0[id];
               && r'.stage == Stage.Confirmed && r'.confirmedAt && r'.errorCode == ""
               && r'.attempts == r.attempts && r'.availableAt == r.availableAt && r'.publishedAt == r.publishedAt)
  {
  }

  /** A failed attempt makes an open record due again after the delay, in its stage. */
  lemma RetryExactly(t: Table, id: Identity, hash: string, delay: int, code: string, now: int)
    ensures var x := Retry(t, id, hash, delay, code, now);
      && (x.1 == ErrArgument <==> !(1 <= delay <= 60)) && (x.1 == Done <==> 1 <= delay <= 60 && Named(t, id, hash))
      && (x.1 == Done && Open(t[id]) ==>
            && OnlyRecord(t, x.0, id) && SameMessage(t[id], x.0[id])
            && var r, r' := t[id], x.0[id];
               && r'.attempts == r.attempts + 1 && r'.availableAt == now + delay * 1_000_000 && r'.errorCode == code
               && r'.stage == r.stage && r'.publishedAt == r.publishedAt && r'.confirmedAt == r.confirmedAt)
      && (x.1 != Done || !Open(t[id]) ==> x.0 == t)
  {
  }

  /** Everything but a confirmed record can be held. */
  lemma HoldExactly(t: Table, id: Identity, hash: string, code: string)
    ensures var x := Hold(t, id, hash, code);
      && (x.1 == Done <==> Named(t, id, hash)) && (x.1 != Done ==> x.1 == ErrConflict)
      && (x.1 == Done && t[id].stage != Stage.Confirmed ==>
            && OnlyRecord(t, x.0, id) && SameMessage(t[id], x.0[id])
            && var r, r' := t[id], x.0[id];
               && r'.stage == Held && r'.errorCode == code && r'.attempts == r.attempts && r'.availableAt == r.availableAt
               && r'.publishedAt == r.publishedAt && r'.confirmedAt == r.confirmedAt)
      && (x.1 != Done || t[id].stage == Stage.Confirmed ==> x.0 == t)
  {
  }

  /** A record that requires no receipt can be sent again unless it is held. */
  lemma RearmExactly(t: Table, id: Identity, hash: string, now: int)
    ensures var x := RearmAck(t, id, hash, now);
      && (x.1 == Done <==> Named(t, id, hash) && !t[id].requiresReceipt) && (x.1 != Done ==> x.1 == ErrConflict)
      && (x.1 == Done && t[id].stage != Held ==>
            && OnlyRecord(t, x.0, id) && SameMessage(t[id], x.0[id])
            && var r, r' := t[id], x.0[id];
               && r'.stage == Staged && r'.availableAt == now && !r'.confirmedAt && r'.errorCode == ""
               && r'.attempts == r.attempts && r'.publishedAt == r.publishedAt)
      && (x.1 != Done || t[id].stage == Held ==> x.0 == t)
  {
  }

  /** After a failed attempt an open record is pending again exactly from its delay on, and
      no sooner than its predecessors are confirmed. */
  lemma RetryDue(t: Table, id: Identity, hash: string, delay: int, code: string, now: int, later: int)
    requires Named(t, id, hash) && Open(t[id]) && 1 <= delay <= 60
    ensures var t' := Retry(t, id, hash, delay, code, now).0;
      IsPending(t', id, later) <==>
        now + delay * 1_000_000 <= later && (t[id].ordered ==> forall a :: Precedes(t, a, id) ==> t[a].stage == Stage.Confirmed)
  {
    RetryExactly(t, id, hash, delay, code, now);
    var t' := Retry(t, id, hash, delay, code, now).0;
    hide Retry;
    forall a ensures Precedes(t', a, id) <==> Precedes(t, a, id) {
      assert a in t' <==> a in t;
      if a in t { assert a != id ==> t'[a] == t[a]; }
    }
    forall a | Precedes(t, a, id) ensures t'[a] == t[a] { assert a != id; }
  }

  /** A record of another producer, destination or aggregate never holds this one back,
      whatever becomes of it. */
  lemma OthersNeverBlock(t: Table, a: Identity, r: Record, b: Identity, now: int)
    requires b in t && a != b
    requires a.producer != b.producer || a.destination != b.destination
      || (r.aggregate != t[b].aggregate && (a in t ==> t[a].aggregate != t[b].aggregate))
    ensures IsPending(t[a := r], b, now) <==> IsPending(t, b, now)
  {
    var t' := t[a := r];
    forall k ensures Precedes(t', k, b) <==> Precedes(t, k, b) {
      if k in t && k != a { assert t'[k] == t[k]; }
    }
    assert !Precedes(t, a, b);
    forall k | Precedes(t, k, b) ensures t'[k] == t[k] { assert k != a; }
  }

  // ---- What a stage proves ------------------------------------------------------------------

  /** A stage that needs an operation of its own was entered by one. */
  ghost predicate Explained(ops: seq<Op>, t: Table, id: Identity) {
    id in t ==>
      && (t[id].stage == Stage.Confirmed && t[id].requiresReceipt ==> OpConfirm(id, t[id].bodyHash) in ops)
      && (t[id].stage == Held ==> exists code :: OpHold(id, t[id].bodyHash, code) in ops)
      && (t[id].stage == AwaitingReceipt ==> t[id].requiresReceipt && exists wait, now :: OpPublished(id, t[id].bodyHash, wait, now) in ops)
  }

  lemma ExplainedStep(ops: seq<Op>, s: Sys, op: Op, id: Identity)
    requires Explained(ops, s.rows, id)
    ensures Explained(ops + [op], Apply(s, op).rows, id)
  {
    var t, t', more := s.rows, Apply(s, op).rows, ops + [op];
    assert op in more && forall o :: o in ops ==> o in more;
    if id in t' && id in t && t'[id] == t[id] {
      hide Apply;
      if t[id].stage == Held {
        var code :| OpHold(id, t[id].bodyHash, code) in ops;
        assert OpHold(id, t[id].bodyHash, code) in more;
      } else if t[id].stage == AwaitingReceipt {
        var wait, now :| OpPublished(id, t[id].bodyHash, wait, now) in ops;
        assert OpPublished(id, t[id].bodyHash, wait, now) in more;
      }
    } else if id in t' {
      ChangedBy(s, op, id);
    }
  }

  /** A record changes only by an operation that names it and its body. */
  lemma ChangedBy(s: Sys, op: Op, id: Identity)
    requires id in Apply(s, op).rows && (id in s.rows ==> Apply(s, op).rows[id] != s.rows[id])
    ensures var r' := Apply(s, op).rows[id];
      && (r'.stage == Stage.Confirmed && r'.requiresReceipt ==> op == OpConfirm(id, r'.bodyHash))
      && (r'.stage == Held ==> op.OpHold? && op.id == id && op.hash == r'.bodyHash)
      && (r'.stage == AwaitingReceipt && !(op.OpRetry? && id in s.rows && s.rows[id].stage == AwaitingReceipt) ==>
            r'.requiresReceipt && op.OpPublished? && op.id == id && op.hash == r'.bodyHash)
  {
  }

  lemma LastStep(s: Sys, ops: seq<Op>, op: Op)
    ensures Run(s, ops + [op]) == Apply(Run(s, ops), op)
  {
    hide Apply;
    RunConcat(s, ops, [op]);
    RunOne(Run(s, ops), op);
  }

  /** In every run: a record that requires a receipt is confirmed only if its receipt came,
      held only if it was put on hold, and waits for a receipt only after a publication. */
  lemma {:induction false} StageExplained(ops: seq<Op>, id: Identity)
    ensures Explained(ops, Run(Init(), ops).rows, id)
    decreases |ops|
  {
    hide Apply, Explained;
    if ops == [] {
      NothingYet(id);
    } else {
      var n := |ops| - 1;
      assert ops == ops[..n] + [ops[n]];
      StageExplained(ops[..n], id);
      ExplainedStep(ops[..n], Run(Init(), ops[..n]), ops[n], id);
      LastStep(Init(), ops[..n], ops[n]);
    }
  }

  lemma NothingYet(id: Identity)
    ensures Explained([], Run(Init(), []).rows, id)
  {
  }

  /** A held record that is not confirmed by its receipt does not change at all, whatever
      else happens to it: its successors stay blocked. */
  lemma {:induction false} HeldUntilReceipt(s: Sys, more: seq<Op>, id: Identity, hash: string)
    requires id in s.rows && s.rows[id].stage == Held && s.rows[id].bodyHash == hash
    requires OpConfirm(id, hash) !in more && forall i :: 0 <= i < |more| ==> !(more[i].OpHold? && more[i].id == id)
    ensures id in Run(s, more).rows && Run(s, more).rows[id] == s.rows[id]
    decreases |more|
  {
    if more != [] {
      HeldStep(s, more[0], id, hash);
      hide Apply;
      assert forall i :: 0 <= i < |more[1..]| ==> more[1..][i] == more[i + 1];
      HeldUntilReceipt(Apply(s, more[0]), more[1..], id, hash);
    }
  }

  lemma HeldStep(s: Sys, op: Op, id: Identity, hash: string)
    requires id in s.rows && s.rows[id].stage == Held && s.rows[id].bodyHash == hash
    requires op != OpConfirm(id, hash) && !(op.OpHold? && op.id == id)
    ensures id in Apply(s, op).rows && Apply(s, op).rows[id] == s.rows[id]
  {
  }
}
