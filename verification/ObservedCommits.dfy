/** Which committed branches were observed. The lock that a host transaction takes
    when it binds an execution freezes the recorded halves, so whether a commit is
    observed is decided at that moment, and the host can look then. */
module ObservedCommits {
  import opened Protocol
  import opened TransactionTables
  import opened TransactionInvariants
  import opened TransactionSafety
  import opened SenderSafety
  import opened ExecuteOnly
  import opened AuditFrames

  // ---- Locked and committed executions keep their halves ----------------------------------

  /** The recorded half outcomes of an execution's branches are the same. */
  predicate SameHalves(a: Db, b: Db, id: ExecutionId) {
    && id in a.witnesses && id in b.witnesses && a.witnesses[id].Keys == b.witnesses[id].Keys
    && forall k :: k in a.witnesses[id] ==> b.witnesses[id][k].audit.half == a.witnesses[id][k].audit.half
  }

  lemma AuditFrame(db: Db, i: ExecutionId, k: string, a: Audit, id: ExecutionId)
    requires id in db.witnesses && i in db.witnesses && k in db.witnesses[i] && (i == id ==> a.half == db.witnesses[i][k].audit.half)
    ensures SameHalves(db, PutAudit(db, i, k, a), id)
  {
  }

  /** Final outcomes leave the halves alone. */
  lemma FinalFrame(db: Db, b: Binding, e: Execution, ref: Reference, f: FinalOutcome, code: string, now: int, id: ExecutionId)
    requires id in db.witnesses
    ensures SameHalves(db, RecordFinal(db, b, e, ref, f, code, now).db, id)
  {
    hide Frozen, References, BindingIn, Locked, SameHalves, PutAudit;
    SameHalvesRefl(db, id);
    if RecordFinal(db, b, e, ref, f, code, now).result.Ok? {
      AuditFrame(db, IdOf(e), ref.branchId, FinalAudit(ReceiptCheck(db, b, e, ref).value.audit, f, code, now), id);
    }
  }

  lemma RecoveryFrame(db: Db, b: Binding, ref: Reference, f: FinalOutcome, now: int, id: ExecutionId)
    requires id in db.witnesses
    ensures SameHalves(db, RecordRecoveryFinal(db, b, ref, f, now).db, id)
  {
    hide Frozen, BindingIn, Locked, SameHalves, PutAudit;
    SameHalvesRefl(db, id);
    var c := RecoveryCheck(db, b, ref, f);
    if c.Ok? {
      AuditFrame(db, ExecutionOf(ref), ref.branchId, FinalAudit(c.value.audit, f, "", now), id);
    }
  }

  /** Only a recorded half can change a half. */
  lemma HalvesChangeByRecord(db: Db, op: Op, id: ExecutionId)
    requires id in db.executions && id in db.witnesses && !op.OpRecordHalf?
    ensures SameHalves(db, Apply(db, op), id)
  {
    match op
    case OpRecordFinal(b, e, ref, f, code, now) => hide RecordFinal; FinalFrame(db, b, e, ref, f, code, now, id);
    case OpRecoveryFinal(b, ref, f, now) => hide RecordRecoveryFinal; RecoveryFrame(db, b, ref, f, now, id);
    case _ => hide Apply; AuditsKept(db, op, id);
  }

  /** Nobody records a half under the host's row lock. */
  lemma LockedKeepsHalves(db: Db, op: Op, t: nat, id: ExecutionId)
    requires Holds(db, t, id) && id in db.executions && id in db.witnesses
    ensures SameHalves(db, Apply(db, op), id)
  {
    hide SameHalves, RecordHalf;
    if op.OpRecordHalf? {
      HalfLocked(db, op.b, op.e, op.ref, op.h, op.now, t, id);
    } else {
      hide Apply;
      HalvesChangeByRecord(db, op, id);
    }
  }

  lemma HalfLocked(db: Db, b: Binding, e: Execution, ref: Reference, h: HalfReceipt, now: int, t: nat, id: ExecutionId)
    requires Holds(db, t, id) && id in db.witnesses
    ensures SameHalves(db, RecordHalf(db, b, e, ref, h, now).db, id)
  {
    hide Frozen, References, BindingIn, SameHalves, PutAudit;
    assert Locked(db, id);
    SameHalvesRefl(db, id);
    if RecordHalf(db, b, e, ref, h, now).result.Ok? {
      AuditFrame(db, IdOf(e), ref.branchId, HalfAudit(ReceiptCheck(db, b, e, ref).value.audit, h, now), id);
    }
  }

  /** Nor once the execution is committed. */
  lemma CommittedKeepsHalves(db: Db, op: Op, id: ExecutionId)
    requires TablesOk(db) && IsCommitted(db, id)
    ensures SameHalves(db, Apply(db, op), id)
  {
    hide SameHalves, RowOk, WitnessesOk, RecordHalf;
    if op.OpRecordHalf? {
      HalfRefused(db, op.b, op.e, op.ref, op.h, op.now, id);
    } else {
      HalvesChangeByRecord(db, op, id);
    }
  }

  lemma HalfRefused(db: Db, b: Binding, e: Execution, ref: Reference, h: HalfReceipt, now: int, id: ExecutionId)
    requires TablesOk(db) && IsCommitted(db, id)
    ensures SameHalves(db, RecordHalf(db, b, e, ref, h, now).db, id)
  {
    hide Frozen, References, RowOk, BranchIds, BindingIn, Locked, SameHalves, PutAudit, AuditOk;
    assert WitnessesOk(id, db.executions[id], db.witnesses[id]);
    SameHalvesRefl(db, id);
    if RecordHalf(db, b, e, ref, h, now).result.Ok? {
      AuditFrame(db, IdOf(e), ref.branchId, HalfAudit(ReceiptCheck(db, b, e, ref).value.audit, h, now), id);
    }
  }

  lemma HalvesTrans(a: Db, b: Db, c: Db, id: ExecutionId)
    requires SameHalves(a, b, id) && SameHalves(b, c, id)
    ensures SameHalves(a, c, id)
  {
  }

  lemma {:induction false} LockedRunKeepsHalves(db: Db, ops: seq<Op>, t: nat, id: ExecutionId)
    requires Inv(db) && Holds(db, t, id) && forall i :: 0 <= i < |ops| ==> !Ends(ops[i], t)
    ensures Holds(Run(db, ops), t, id) && SameHalves(db, Run(db, ops), id)
    decreases |ops|
  {
    hide Apply, Holds, RequestsOk, RowOk, WitnessesOk, SameHalves;
    HeldStored(db, t, id);
    if ops == [] {
      SameHalvesRefl(db, id);
    } else {
      LockedKeepsHalves(db, ops[0], t, id);
      StepKeepsLock(db, ops[0], t, id);
      ApplyKeeps(db, ops[0]);
      LockedRunKeepsHalves(Apply(db, ops[0]), ops[1..], t, id);
      HalvesTrans(db, Apply(db, ops[0]), Run(db, ops), id);
    }
  }

  lemma SameHalvesRefl(db: Db, id: ExecutionId)
    requires id in db.witnesses
    ensures SameHalves(db, db, id)
  {
  }

  lemma HeldStored(db: Db, t: nat, id: ExecutionId)
    requires Inv(db) && Holds(db, t, id)
    ensures id in db.executions && id in db.witnesses
  {
    hide RequestsOk, RowOk, WitnessesOk;
    assert HostOk(db, db.hosts[t]);
    assert LockOk(db, id);
  }

  // ---- One host transaction ---------------------------------------------------------------

  lemma SameObserved(a: Db, b: Db, id: ExecutionId)
    requires Evolves(a, b) && SameHalves(a, b, id) && id in a.executions
    ensures AllHalves(a, id) <==> AllHalves(b, id)
  {
    assert RowGrows(a.executions[id], b.executions[id]);
    if AllHalves(b, id) {
      forall x | x in a.executions[id].plan.branches ensures HalfDone(a, id, x.id) { assert HalfDone(b, id, x.id); }
    }
    if AllHalves(a, id) {
      forall x | x in b.executions[id].plan.branches ensures HalfDone(b, id, x.id) { assert HalfDone(a, id, x.id); }
    }
  }

  /** From the grant of a guard to the end of its host transaction, whatever others run
      in between, no half changes: what the host commits is observed exactly if every
      half was prepared when it bound. */
  lemma ObservedAtBind(ops: seq<Op>, b: Binding, t: nat, e: Execution, now: int, more: seq<Op>)
    requires Bind(After(ops), b, t, e, now).result.Ok? && forall i :: 0 <= i < |more| ==> !Ends(more[i], t)
    ensures var id, db := IdOf(e), After(ops + [OpBind(b, t, e, now)] + more + [OpHostCommit(t)]);
      SameHalves(After(ops), db, id) && (AllHalves(db, id) <==> AllHalves(After(ops), id))
  {
    hide Run, Inv, Evolves, SameHalves, AllHalves, Holds, Apply;
    var id, op := IdOf(e), OpBind(b, t, e, now);
    var db0, db1, db2 := After(ops), After(ops + [op]), After(ops + [op] + more);
    AfterEvolves(ops, [op]);
    AfterEvolves(ops + [op], more);
    AfterEvolves(ops + [op] + more, [OpHostCommit(t)]);
    RunConcat(Init(), ops, [op]);
    RunConcat(Init(), ops + [op], more);
    RunConcat(Init(), ops + [op] + more, [OpHostCommit(t)]);
    Single(db0, op);
    Single(db2, OpHostCommit(t));
    BindHolds(db0, b, t, e, now);
    HeldStored(db1, t, id);
    LockedRunKeepsHalves(db1, more, t, id);
    HeldStored(db2, t, id);
    LockedKeepsHalves(db2, OpHostCommit(t), t, id);
    var db3 := Apply(db2, OpHostCommit(t));
    HalvesTrans(db0, db1, db2, id);
    HalvesTrans(db0, db2, db3, id);
    EvolvesTrans(db0, db1, db2);
    EvolvesTrans(db0, db2, db3);
    SameObserved(db0, db3, id);
  }

  lemma Single(db: Db, op: Op)
    ensures Run(db, [op]) == Apply(db, op)
  {
    hide Apply;
    assert [op][1..] == [];
    assert Run(Apply(db, op), []) == Apply(db, op);
  }

  lemma BindHolds(db: Db, b: Binding, t: nat, e: Execution, now: int)
    requires Inv(db) && Bind(db, b, t, e, now).result.Ok?
    ensures var db' := Apply(db, OpBind(b, t, e, now));
      Holds(db', t, IdOf(e)) && IdOf(e) in db.executions && SameHalves(db, db', IdOf(e))
  {
    hide RequestsOk, HostsOk, RowOk, WitnessesOk, WitnessesMatch, Frozen;
  }

  // ---- Every run --------------------------------------------------------------------------

  /** The k-th transaction of the run is the bind by which a host locked id. */
  ghost predicate LocksAt(ops: seq<Op>, k: nat, id: ExecutionId) {
    && k < |ops| && ops[k].OpBind? && IdOf(ops[k].e) == id
    && Holds(After(ops[..k + 1]), ops[k].t, id) && !Holds(After(ops[..k]), ops[k].t, id)
  }

  /** A lock held now was taken by a bind, and no half has changed since. */
  lemma {:induction false} LockedSince(ops: seq<Op>, n: nat, t: nat, id: ExecutionId) returns (k: nat)
    requires n <= |ops| && Holds(After(ops[..n]), t, id)
    ensures LocksAt(ops, k, id) && k < n && ops[k].t == t && SameHalves(After(ops[..k]), After(ops[..n]), id)
  {
    hide Inv, Run, Apply, SameHalves;
    NothingYet(t, id);
    assert ops[..0] == [];
    var db, op := After(ops[..n - 1]), ops[n - 1];
    PrefixStep(ops, n);
    AfterInv(ops[..n - 1]);
    if Holds(db, t, id) {
      k := LockedSince(ops, n - 1, t, id);
      HeldStored(db, t, id);
      LockedKeepsHalves(db, op, t, id);
      HalvesTrans(After(ops[..k]), db, After(ops[..n]), id);
    } else {
      LockTaken(db, op, t, id);
      k := n - 1;
    }
  }

  lemma NothingYet(t: nat, id: ExecutionId)
    ensures !Holds(After([]), t, id) && !IsCommitted(After([]), id)
  {
  }

  lemma PrefixStep(ops: seq<Op>, n: nat)
    requires 0 < n <= |ops|
    ensures After(ops[..n]) == Apply(After(ops[..n - 1]), ops[n - 1])
  {
    hide Apply;
    assert ops[..n] == ops[..n - 1] + [ops[n - 1]];
    RunConcat(Init(), ops[..n - 1], [ops[n - 1]]);
    Single(After(ops[..n - 1]), ops[n - 1]);
  }

  lemma LockTaken(db: Db, op: Op, t: nat, id: ExecutionId)
    requires Inv(db) && Holds(Apply(db, op), t, id) && !Holds(db, t, id)
    ensures op.OpBind? && IdOf(op.e) == id && op.t == t && SameHalves(db, Apply(db, op), id)
  {
    LocksFromBind(db, op, t, id);
    hide RequestsOk, HostsOk, RowOk, WitnessesOk, WitnessesMatch, Frozen, References;
    BindFrame(db, op, t, id);
  }

  lemma BindFrame(db: Db, op: Op, t: nat, id: ExecutionId)
    requires op.OpBind? && IdOf(op.e) == id && Holds(Apply(db, op), t, id) && !Holds(db, t, id)
    requires db.witnesses.Keys == db.executions.Keys
    ensures op.t == t && SameHalves(db, Apply(db, op), id)
  {
    hide WitnessesMatch, Frozen, References;
  }

  lemma StoredSince(ops: seq<Op>, k: nat, id: ExecutionId)
    requires LocksAt(ops, k, id)
    ensures id in After(ops[..k]).executions
  {
    hide Run, Apply, SameHalves;
    PrefixStep(ops, k + 1);
    AfterInv(ops[..k]);
    var db := After(ops[..k]);
    LockTaken(db, ops[k], ops[k].t, id);
    assert id in db.witnesses by { assert SameHalves(db, Apply(db, ops[k]), id); HalvesStored(db, Apply(db, ops[k]), id); }
  }

  lemma HalvesStored(a: Db, b: Db, id: ExecutionId)
    requires SameHalves(a, b, id)
    ensures id in a.witnesses
  {
  }

  lemma {:induction false} CommittedSince(ops: seq<Op>, n: nat, id: ExecutionId) returns (k: nat)
    requires n <= |ops| && IsCommitted(After(ops[..n]), id)
    ensures LocksAt(ops, k, id) && k < n && SameHalves(After(ops[..k]), After(ops[..n]), id)
  {
    hide Run, Apply, SameHalves, TablesOk, RequestsOk, HostsOk;
    NothingYet(0, id);
    assert ops[..0] == [];
    var db, op := After(ops[..n - 1]), ops[n - 1];
    PrefixStep(ops, n);
    AfterInv(ops[..n - 1]);
    if IsCommitted(db, id) {
      k := CommittedSince(ops, n - 1, id);
      CommittedKeepsHalves(db, op, id);
    } else {
      CommitsFromHost(db, op, id);
      var t :| Holds(db, t, id);
      k := LockedSince(ops, n - 1, t, id);
      HeldStored(db, t, id);
      LockedKeepsHalves(db, op, t, id);
    }
    HalvesTrans(After(ops[..k]), db, After(ops[..n]), id);
  }

  /** The exact condition, over every run: a committed execution was locked by some
      bind of the run, and all its branches are observed exactly if every half was
      prepared when that bind ran. */
  lemma CommittedObservedIff(ops: seq<Op>, id: ExecutionId) returns (k: nat)
    requires IsCommitted(After(ops), id)
    ensures LocksAt(ops, k, id)
    ensures AllHalves(After(ops), id) <==> AllHalves(After(ops[..k]), id)
  {
    assert ops[..|ops|] == ops;
    k := CommittedSince(ops, |ops|, id);
    hide Run, Inv, Evolves, SameHalves, AllHalves, Holds, Apply;
    assert ops == ops[..k] + ops[k..];
    AfterEvolves(ops[..k], ops[k..]);
    StoredSince(ops, k, id);
    SameObserved(After(ops[..k]), After(ops), id);
  }

  // ---- A host that does not look ----------------------------------------------------------

  /** Reserve, then bind, stage and commit at once. */
  function Hasty(b: Binding, p: Plan, lease: int, token: Token): seq<Op> {
    var e := Execution(p, 1, b.epoch, token, lease);
    [OpSetBinding(b.owner, BindingRow(b.storeId, b.epoch, SCHEMA_VERSION)), OpReserve(b, RequestFor(p), p, lease, token, 0)]
    + [OpBind(b, 0, e, 0), OpCommitWitness(0, IdOf(e), false), OpHostCommit(0)]
  }

  /** For every plan and every binding of its owner the unobserved commit is reachable:
      the execution is committed and not one of its halves was ever attempted. */
  lemma HastyCommitUnobserved(b: Binding, p: Plan, lease: int, token: Token, branch: string)
    requires Frozen(p) && b.owner == p.owner && ValidLease(lease) && branch in BranchIds(p)
    ensures var id, db := ExecutionId(p.owner, p.operationId, b.epoch, 1), After(Hasty(b, p, lease, token));
      && IsCommitted(db, id) && id in db.witnesses && branch in db.witnesses[id]
      && db.witnesses[id][branch].audit.half == HalfNotAttempted && !AllHalves(db, id)
  {
    hide Run, Apply, Frozen, Terminate;
    var e := Execution(p, 1, b.epoch, token, lease);
    var first := Hasty(b, p, lease, token)[..2];
    FreshReservation(b, p, lease, token);
    assert first == [OpSetBinding(b.owner, BindingRow(b.storeId, b.epoch, SCHEMA_VERSION)), OpReserve(b, RequestFor(p), p, lease, token, 0)];
    CommitPath(first, b, 0, e, 0);
    HalvesAfterCommit(After(first), IdOf(e), p, branch);
  }

  lemma FreshReservation(b: Binding, p: Plan, lease: int, token: Token)
    requires Frozen(p) && b.owner == p.owner && ValidLease(lease)
    ensures var e := Execution(p, 1, b.epoch, token, lease);
      var db := After([OpSetBinding(b.owner, BindingRow(b.storeId, b.epoch, SCHEMA_VERSION)), OpReserve(b, RequestFor(p), p, lease, token, 0)]);
      && db.hosts == map[] && IdOf(e) in db.executions && e == ExecutionFrom(IdOf(e), db.executions[IdOf(e)])
      && db.executions[IdOf(e)].state == Prepared && 0 < db.executions[IdOf(e)].leaseUntil && !Locked(db, IdOf(e))
      && BindingIn(db, b, true).Ok? && db.executions[IdOf(e)].plan == p && IdOf(e) in db.witnesses
      && db.witnesses[IdOf(e)] == NewWitnesses(p, 1, b.epoch)
  {
    hide Run, Frozen, NewWitnesses;
    var x, y := OpSetBinding(b.owner, BindingRow(b.storeId, b.epoch, SCHEMA_VERSION)), OpReserve(b, RequestFor(p), p, lease, token, 0);
    RunConcat(Init(), [x], [y]);
    assert [x] + [y] == [x, y];
    Single(Init(), x);
    Single(Apply(Init(), x), y);
    var db := Apply(Init(), x);
    assert ReserveCheck(db, b, RequestFor(p), p, lease).Ok?;
  }

  lemma HalvesAfterCommit(db: Db, id: ExecutionId, p: Plan, branch: string)
    requires Frozen(p) && id in db.executions && db.executions[id].plan == p && branch in BranchIds(p)
    requires id in db.witnesses && db.witnesses[id] == NewWitnesses(p, id.fence, id.epoch)
    ensures var db' := Terminate(db, {id}, Committed);
      && IsCommitted(db', id) && id in db'.witnesses && branch in db'.witnesses[id]
      && db'.witnesses[id][branch].audit.half == HalfNotAttempted && !AllHalves(db', id)
  {
    BranchNamed(p, branch);
    var x :| x in p.branches && x.id == branch;
    NewAudit(p, id.fence, id.epoch, branch);
    hide Frozen, NewWitnesses;
    assert !HalfDone(Terminate(db, {id}, Committed), id, x.id);
  }

  lemma NewAudit(p: Plan, fence: nat, epoch: string, branch: string)
    requires Frozen(p) && branch in BranchIds(p)
    ensures branch in NewWitnesses(p, fence, epoch) && NewWitnesses(p, fence, epoch)[branch].audit == NEW_AUDIT
  {
  }

  /** There are such plans. */
  lemma SomePlanFrozen()
    ensures Frozen(Plan("o", "s", "op", "k", "", [Branch("b", "t", "r", Message("o", "m", "d", "e", "1", "s", "c", "z", "x"), "w")]))
  {
  }
}
