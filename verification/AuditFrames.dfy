/** Which transactions touch the audit columns of a witness: the three receipt
    transactions, each its own branch only. */
module AuditFrames {
  import opened Protocol
  import opened TransactionTables

  predicate SameAudits(a: Db, b: Db, id: ExecutionId) {
    && id in a.witnesses && id in b.witnesses && a.witnesses[id].Keys == b.witnesses[id].Keys
    && forall k :: k in a.witnesses[id] ==> b.witnesses[id][k].audit == a.witnesses[id][k].audit
  }

  predicate Receipt(op: Op) { op.OpRecordHalf? || op.OpRecordFinal? || op.OpRecoveryFinal? }

  lemma InsertFrame(db: Db, op: Op, id: ExecutionId)
    requires id in db.executions && id in db.witnesses && (op.OpReserve? || op.OpAdvance?)
    ensures SameAudits(db, Apply(db, op), id)
  {
    hide ReserveCheck, AdvanceCheck, Frozen, NewWitnesses, Lookup;
  }

  lemma TerminateFrame(db: Db, op: Op, id: ExecutionId)
    requires id in db.witnesses && (op.OpAbort? || op.OpHostCommit?)
    ensures SameAudits(db, Apply(db, op), id)
  {
    hide AbortCheck;
  }

  lemma OtherFrame(db: Db, op: Op, id: ExecutionId)
    requires id in db.witnesses
    requires op.OpBeginPrepare? || op.OpBind? || op.OpCommitWitness? || op.OpHostRollback? || op.OpSetBinding?
    ensures SameAudits(db, Apply(db, op), id)
  {
    hide BeginPrepareCheck, BindRows;
  }

  lemma AuditsKept(db: Db, op: Op, id: ExecutionId)
    requires id in db.executions && id in db.witnesses && !Receipt(op)
    ensures SameAudits(db, Apply(db, op), id)
  {
    hide SameAudits, Apply;
    match op
    case OpReserve(_, _, _, _, _, _) => InsertFrame(db, op, id);
    case OpAdvance(_, _, _, _, _, _, _) => InsertFrame(db, op, id);
    case OpAbort(_, _, _, _) => TerminateFrame(db, op, id);
    case OpHostCommit(_) => TerminateFrame(db, op, id);
    case _ => OtherFrame(db, op, id);
  }

  lemma SameAuditsRefl(db: Db, id: ExecutionId)
    requires id in db.witnesses
    ensures SameAudits(db, db, id)
  {
  }

  /** One branch gets a new audit, every other keeps its own. */
  predicate OneAudit(a: Db, b: Db, i: ExecutionId, k: string, audit: Audit) {
    && i in a.witnesses && k in a.witnesses[i] && b == a.(witnesses := b.witnesses) && b.witnesses.Keys == a.witnesses.Keys
    && b.witnesses[i].Keys == a.witnesses[i].Keys && b.witnesses[i][k] == a.witnesses[i][k].(audit := audit)
    && (forall j :: j in a.witnesses[i] && j != k ==> b.witnesses[i][j] == a.witnesses[i][j])
    && (forall id :: id in a.witnesses && id != i ==> b.witnesses[id] == a.witnesses[id])
  }

  lemma PutsOne(db: Db, i: ExecutionId, k: string, audit: Audit)
    requires i in db.witnesses && k in db.witnesses[i]
    ensures OneAudit(db, PutAudit(db, i, k, audit), i, k, audit)
  {
  }

  lemma KeysKept(db: Db, op: Op)
    requires !op.OpReserve? && !op.OpAdvance?
    ensures Apply(db, op).witnesses.Keys == db.witnesses.Keys
  {
    hide Frozen, References, BindingIn, BeginPrepareCheck, AbortCheck, BindRows, HalfConflict, MatchExecution;
  }

  /** Witnesses appear only with their execution, unaudited. */
  lemma NewlyWitnessed(db: Db, op: Op, id: ExecutionId, k: string)
    requires id !in db.witnesses && id in Apply(db, op).witnesses && k in Apply(db, op).witnesses[id]
    ensures Apply(db, op).witnesses[id][k].audit == NEW_AUDIT
  {
    if op.OpReserve? || op.OpAdvance? {
      hide ReserveCheck, AdvanceCheck, Frozen, Lookup, NewWitnesses;
      var p := op.p;
      var w := Apply(db, op).witnesses[id];
      assert Frozen(p) && exists f, e :: w == NewWitnesses(p, f, e) by { Inserted(db, op, id); }
      var f, e :| w == NewWitnesses(p, f, e);
      FreshAudit(p, f, e, k);
    } else {
      KeysKept(db, op);
    }
  }

  lemma Inserted(db: Db, op: Op, id: ExecutionId)
    requires (op.OpReserve? || op.OpAdvance?) && id !in db.witnesses && id in Apply(db, op).witnesses
    ensures Frozen(op.p) && exists f, e :: Apply(db, op).witnesses[id] == NewWitnesses(op.p, f, e)
  {
    hide Frozen, NewWitnesses, Lookup, LookupIn, LockedEvidence, ValidateAdvance, BindingIn, RequestFor;
    assert Frozen(op.p);
    var f := if op.OpReserve? then 1 else op.previous.fence + 1;
    assert Apply(db, op).witnesses[id] == NewWitnesses(op.p, f, op.b.epoch);
  }

  lemma FreshAudit(p: Plan, f: nat, e: string, k: string)
    requires Frozen(p) && k in NewWitnesses(p, f, e)
    ensures NewWitnesses(p, f, e)[k].audit == NEW_AUDIT
  {
  }
}
