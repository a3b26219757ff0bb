/** Safety of every run of database transactions, by any number of stores, host
    transactions and clocks, in any order. */
module TransactionSafety {
  import opened Protocol
  import opened TransactionTables
  import opened TransactionInvariants

  // ---- Every operation keeps the invariant and only evolves the tables ----------

  lemma ReserveKeeps(db: Db, b: Binding, r: Request, p: Plan, lease: int, token: Token, now: int)
    requires Inv(db)
    ensures Inv(Reserve(db, b, r, p, lease, token, now).db) && Evolves(db, Reserve(db, b, r, p, lease, token, now).db)
  {
    hide Frozen, TablesOk, RequestsOk, HostsOk, Evolves, Insert, Lookup;
    var e := Execution(p, 1, b.epoch, token, now + lease);
    if ReserveCheck(db, b, r, p, lease).Ok? && r.id !in db.requests && IdOf(e) !in db.executions {
      InsertKeeps(db, r, e);
    } else {
      EvolvesRefl(db);
    }
  }

  lemma EvolvesRefl(db: Db)
    ensures Evolves(db, db)
  {
    hide Evolves;
    SameEvolves(db, db);
  }

  lemma ActiveId(db: Db, r: RequestId)
    requires TablesOk(db) && RequestsOk(db) && r in db.requests
    ensures var a := db.requests[r].active; a in db.executions && IdOf(ExecutionFrom(a, db.executions[a])) == a
  {
    hide Frozen, WitnessesOk;
    assert ActiveOk(db, r);
    assert RowOk(db.requests[r].active, db.executions[db.requests[r].active]);
  }

  lemma AdvanceInsertable(db: Db, b: Binding, previous: Execution, p: Plan, lease: int, replan: bool, token: Token, now: int)
    requires TablesOk(db) && RequestsOk(db) && AdvanceCheck(db, b, previous, p, lease, replan).Ok?
    requires IdOf(Execution(p, previous.fence + 1, b.epoch, token, now + lease)) !in db.executions
    ensures Insertable(db, RequestFor(previous.plan), Execution(p, previous.fence + 1, b.epoch, token, now + lease))
  {
    hide Frozen, TablesOk, RequestsOk, LockedEvidence, ValidateAdvance;
    ActiveId(db, RequestFor(previous.plan).id);
  }

  lemma AdvanceKeeps(db: Db, b: Binding, previous: Execution, p: Plan, lease: int, replan: bool, token: Token, now: int)
    requires Inv(db)
    ensures Inv(Advance(db, b, previous, p, lease, replan, token, now).db)
    ensures Evolves(db, Advance(db, b, previous, p, lease, replan, token, now).db)
  {
    hide Frozen, TablesOk, RequestsOk, HostsOk, Evolves, Insert, LockedEvidence, ValidateAdvance;
    var e := Execution(p, previous.fence + 1, b.epoch, token, now + lease);
    if AdvanceCheck(db, b, previous, p, lease, replan).Ok? && IdOf(e) !in db.executions {
      AdvanceInsertable(db, b, previous, p, lease, replan, token, now);
      InsertKeeps(db, RequestFor(previous.plan), e);
    } else {
      EvolvesRefl(db);
    }
  }

  lemma BeginPrepareKeeps(db: Db, b: Binding, e: Execution, now: int)
    requires Inv(db)
    ensures Inv(BeginPrepare(db, b, e, now).db) && Evolves(db, BeginPrepare(db, b, e, now).db)
  {
    hide Inv, Evolves, MarkStarted, ValidExecution;
    if BeginPrepareCheck(db, b, e, now).Ok? {
      StartKeeps(db, IdOf(e));
    } else {
      EvolvesRefl(db);
    }
  }

  lemma AbortOpKeeps(db: Db, b: Binding, e: Execution, expired: bool, now: int)
    requires Inv(db)
    ensures Inv(Abort(db, b, e, expired, now).db) && Evolves(db, Abort(db, b, e, expired, now).db)
  {
    hide Inv, Evolves, Terminate, ValidExecution;
    if AbortCheck(db, b, e, expired, now) == Ok(true) {
      AbortKeeps(db, IdOf(e));
    } else {
      EvolvesRefl(db);
    }
  }

  /** One host's record may change while the others keep theirs. */
  lemma HostSet(db: Db, t: nat, h: HostTx)
    requires HostsOk(db) && HostOk(db, h)
    requires forall u, id :: u in db.hosts && u != t && id in db.hosts[u].locked ==> id !in h.locked
    ensures HostsOk(db.(hosts := db.hosts[t := h]))
  {
    var db' := db.(hosts := db.hosts[t := h]);
    forall u | u in db'.hosts ensures HostOk(db', db'.hosts[u]) {
      assert HostOk(db, db'.hosts[u]);
      forall id | id in db'.hosts[u].locked ensures LockOk(db', id) { assert LockOk(db, id); }
    }
  }

  lemma HostSetKeeps(db: Db, t: nat, h: HostTx)
    requires Inv(db) && HostOk(db, h)
    requires forall u, id :: u in db.hosts && u != t && id in db.hosts[u].locked ==> id !in h.locked
    ensures Inv(db.(hosts := db.hosts[t := h])) && Evolves(db, db.(hosts := db.hosts[t := h]))
  {
    hide TablesOk, RequestsOk, HostsOk, Evolves, HostOk;
    HostSet(db, t, h);
    HostsChange(db, db.(hosts := db.hosts[t := h]));
  }

  /** Binding adds a shared lock, then possibly an execution that no other
      transaction holds and that is prepared in the owner's current epoch. */
  lemma BoundHost(db: Db, b: Binding, t: nat, e: Execution, now: int)
    requires HostsOk(db)
    ensures var db' := Bind(db, b, t, e, now).db;
      db' == db ||
      (t in db'.hosts && db' == db.(hosts := db.hosts[t := db'.hosts[t]]) && HostOk(db, db'.hosts[t])
       && forall u, id :: u in db.hosts && u != t && id in db.hosts[u].locked ==> id !in db'.hosts[t].locked)
  {
    hide Frozen, WitnessesMatch;
    assert HostOk(db, HostAt(db, t));
    assert forall id :: id in HostAt(db, t).locked ==> LockOk(db, id);
  }

  lemma BindKeeps(db: Db, b: Binding, t: nat, e: Execution, now: int)
    requires Inv(db)
    ensures Inv(Bind(db, b, t, e, now).db) && Evolves(db, Bind(db, b, t, e, now).db)
  {
    hide TablesOk, RequestsOk, HostsOk, Evolves, HostOk, Bind;
    BoundHost(db, b, t, e, now);
    var db' := Bind(db, b, t, e, now).db;
    if db' == db {
      EvolvesRefl(db);
    } else {
      HostSetKeeps(db, t, db'.hosts[t]);
    }
  }

  lemma CommitWitnessKeeps(db: Db, t: nat, id: ExecutionId, failed: bool)
    requires Inv(db)
    ensures Inv(CommitWitness(db, t, id, failed).db) && Evolves(db, CommitWitness(db, t, id, failed).db)
  {
    hide TablesOk, RequestsOk, Evolves, LockOk;
    var db' := CommitWitness(db, t, id, failed).db;
    if db' == db {
      EvolvesRefl(db);
    } else {
      assert HostOk(db, db.hosts[t]);
      HostSetKeeps(db, t, db'.hosts[t]);
    }
  }

  lemma SetBindingHosts(db: Db, owner: string, row: BindingRow)
    requires HostsOk(db) && !BindingShared(db, owner)
    ensures HostsOk(db.(bindings := db.bindings[owner := row]))
  {
    var db' := db.(bindings := db.bindings[owner := row]);
    forall t | t in db'.hosts ensures HostOk(db', db'.hosts[t]) {
      assert HostOk(db, db.hosts[t]);
      forall id | id in db.hosts[t].locked ensures LockOk(db', id) {
        assert LockOk(db, id) && id.owner in db.hosts[t].shared;
      }
    }
  }

  lemma SetBindingKeeps(db: Db, owner: string, row: BindingRow)
    requires Inv(db)
    ensures Inv(SetBinding(db, owner, row).db) && Evolves(db, SetBinding(db, owner, row).db)
  {
    hide TablesOk, RequestsOk, HostsOk, Evolves;
    if BindingShared(db, owner) {
      EvolvesRefl(db);
    } else {
      SetBindingHosts(db, owner, row);
      HostsChange(db, db.(bindings := db.bindings[owner := row]));
    }
  }

  lemma WitnessRow(db: Db, id: ExecutionId, branch: string)
    requires TablesOk(db) && id in db.executions && branch in db.witnesses[id]
    ensures WitnessOk(db.executions[id].state, db.witnesses[id][branch])
  {
    hide RowOk, WitnessOk;
    assert WitnessesOk(id, db.executions[id], db.witnesses[id]);
  }

  lemma RecordHalfKeeps(db: Db, b: Binding, e: Execution, ref: Reference, h: HalfReceipt, now: int)
    requires Inv(db)
    ensures Inv(RecordHalf(db, b, e, ref, h, now).db) && Evolves(db, RecordHalf(db, b, e, ref, h, now).db)
  {
    hide TablesOk, RequestsOk, HostsOk, Evolves, PutAudit, MatchExecution;
    if RecordHalf(db, b, e, ref, h, now).result.Ok? {
      var w := ReceiptCheck(db, b, e, ref).value;
      WitnessRow(db, IdOf(e), ref.branchId);
      AuditKeeps(db, IdOf(e), ref.branchId, HalfAudit(w.audit, h, now));
    } else {
      EvolvesRefl(db);
    }
  }

  lemma RecordFinalKeeps(db: Db, b: Binding, e: Execution, ref: Reference, f: FinalOutcome, code: string, now: int)
    requires Inv(db)
    ensures Inv(RecordFinal(db, b, e, ref, f, code, now).db) && Evolves(db, RecordFinal(db, b, e, ref, f, code, now).db)
  {
    hide TablesOk, RequestsOk, HostsOk, Evolves, PutAudit, MatchExecution;
    if RecordFinal(db, b, e, ref, f, code, now).result.Ok? {
      var w := ReceiptCheck(db, b, e, ref).value;
      WitnessRow(db, IdOf(e), ref.branchId);
      AuditKeeps(db, IdOf(e), ref.branchId, FinalAudit(w.audit, f, code, now));
    } else {
      EvolvesRefl(db);
    }
  }

  lemma RecoveryFinalKeeps(db: Db, b: Binding, ref: Reference, f: FinalOutcome, now: int)
    requires Inv(db)
    ensures Inv(RecordRecoveryFinal(db, b, ref, f, now).db) && Evolves(db, RecordRecoveryFinal(db, b, ref, f, now).db)
  {
    hide TablesOk, RequestsOk, HostsOk, Evolves, PutAudit;
    var c := RecoveryCheck(db, b, ref, f);
    if c.Ok? && c.value.audit.final != f {
      WitnessRow(db, ExecutionOf(ref), ref.branchId);
      AuditKeeps(db, ExecutionOf(ref), ref.branchId, FinalAudit(c.value.audit, f, "", now));
    } else {
      EvolvesRefl(db);
    }
  }

  lemma ApplyKeeps(db: Db, op: Op)
    requires Inv(db)
    ensures Inv(Apply(db, op)) && Evolves(db, Apply(db, op))
  {
    hide Inv, Evolves, Reserve, Advance, BeginPrepare, Abort, Bind, CommitWitness, HostCommit, EndHost, SetBinding,
      RecordHalf, RecordFinal, RecordRecoveryFinal;
    match op
    case OpReserve(b, r, p, lease, token, now) => ReserveKeeps(db, b, r, p, lease, token, now);
    case OpAdvance(b, previous, p, lease, replan, token, now) => AdvanceKeeps(db, b, previous, p, lease, replan, token, now);
    case OpBeginPrepare(b, e, now) => BeginPrepareKeeps(db, b, e, now);
    case OpAbort(b, e, expired, now) => AbortOpKeeps(db, b, e, expired, now);
    case OpBind(b, t, e, now) => BindKeeps(db, b, t, e, now);
    case OpCommitWitness(t, id, failed) => CommitWitnessKeeps(db, t, id, failed);
    case OpHostCommit(t) => HostCommitKeeps(db, t);
    case OpHostRollback(t) => EndHostKeeps(db, t);
    case OpSetBinding(owner, row) => SetBindingKeeps(db, owner, row);
    case OpRecordHalf(b, e, ref, h, now) => RecordHalfKeeps(db, b, e, ref, h, now);
    case OpRecordFinal(b, e, ref, f, code, now) => RecordFinalKeeps(db, b, e, ref, f, code, now);
    case OpRecoveryFinal(b, ref, f, now) => RecoveryFinalKeeps(db, b, ref, f, now);
  }

  lemma {:induction false} RunKeeps(db: Db, ops: seq<Op>)
    requires Inv(db)
    ensures Inv(Run(db, ops)) && Evolves(db, Run(db, ops))
    decreases |ops|
  {
    hide Inv, Evolves, Apply;
    if ops == [] {
      EvolvesRefl(db);
    } else {
      ApplyKeeps(db, ops[0]);
      RunKeeps(Apply(db, ops[0]), ops[1..]);
      EvolvesTrans(db, Apply(db, ops[0]), Run(db, ops));
    }
  }

  lemma InitInv()
    ensures Inv(Init())
  {
  }

  lemma {:induction false} RunConcat(db: Db, ops: seq<Op>, more: seq<Op>)
    ensures Run(db, ops + more) == Run(Run(db, ops), more)
    decreases |ops|
  {
    hide Apply;
    if ops == [] {
      assert ops + more == more;
    } else {
      assert (ops + more)[1..] == ops[1..] + more;
      RunConcat(Apply(db, ops[0]), ops[1..], more);
    }
  }

  /** The store after a run from empty tables. */
  ghost function After(ops: seq<Op>): Db { Run(Init(), ops) }

  lemma AfterInv(ops: seq<Op>)
    ensures Inv(After(ops))
  {
    hide Inv, Run;
    InitInv();
    RunKeeps(Init(), ops);
  }

  lemma AfterEvolves(ops: seq<Op>, more: seq<Op>)
    ensures Inv(After(ops)) && Inv(After(ops + more)) && Evolves(After(ops), After(ops + more))
  {
    hide Inv, Run, Evolves;
    AfterInv(ops);
    AfterInv(ops + more);
    RunConcat(Init(), ops, more);
    RunKeeps(After(ops), more);
  }

  // ---- Witness atomicity ---------------------------------------------------------

  /** In every committed state an execution has exactly one witness per branch of
      its frozen plan, each with the exact reference and the execution's state. */
  lemma WitnessAtomicity(ops: seq<Op>, id: ExecutionId, i: nat)
    requires id in After(ops).executions && i < |After(ops).executions[id].plan.branches|
    ensures var db := After(ops); var row := db.executions[id];
      && id in db.witnesses && db.witnesses[id].Keys == BranchIds(row.plan)
      && row.plan.branches[i].id in db.witnesses[id]
      && db.witnesses[id][row.plan.branches[i].id].reference == ReferenceOf(row.plan, row.plan.branches[i], id.fence, id.epoch)
      && forall k :: k in db.witnesses[id] ==> db.witnesses[id][k].state == row.state
  {
    hide Run, RequestsOk, HostsOk, RowOk, AuditOk;
    AfterInv(ops);
    var db := After(ops);
    assert WitnessesOk(id, db.executions[id], db.witnesses[id]);
    forall k | k in db.witnesses[id] ensures db.witnesses[id][k].state == db.executions[id].state {
      assert WitnessOk(db.executions[id].state, db.witnesses[id][k]);
    }
  }

  /** Committed and Aborted are terminal, whatever runs afterwards; plan, capability
      and lease of an execution never change. */
  lemma TerminalForever(ops: seq<Op>, more: seq<Op>, id: ExecutionId)
    requires id in After(ops).executions
    ensures id in After(ops + more).executions
    ensures var a, b := After(ops).executions[id], After(ops + more).executions[id];
      && (a.state != Prepared ==> b.state == a.state)
      && b.plan == a.plan && b.token == a.token && b.request == a.request && b.leaseUntil == a.leaseUntil
  {
    hide Run, Inv;
    AfterEvolves(ops, more);
    assert RowGrows(After(ops).executions[id], After(ops + more).executions[id]);
  }

  predicate Ends(op: Op, t: nat) {
    op == OpHostCommit(t) || op == OpHostRollback(t)
  }

  predicate Holds(db: Db, t: nat, id: ExecutionId) {
    t in db.hosts && id in db.hosts[t].locked
  }

  lemma StepKeepsLock(db: Db, op: Op, t: nat, id: ExecutionId)
    requires Holds(db, t, id) && !Ends(op, t)
    ensures Holds(Apply(db, op), t, id)
  {
    hide ReserveCheck, AdvanceCheck, BeginPrepareCheck, AbortCheck, ReceiptCheck, RecoveryCheck, Frozen, WitnessesMatch;
  }

  lemma {:induction false} RunKeepsLock(db: Db, ops: seq<Op>, t: nat, id: ExecutionId)
    requires Holds(db, t, id) && forall i :: 0 <= i < |ops| ==> !Ends(ops[i], t)
    ensures Holds(Run(db, ops), t, id)
    decreases |ops|
  {
    hide Apply, Holds;
    if ops != [] {
      StepKeepsLock(db, ops[0], t, id);
      RunKeepsLock(Apply(db, ops[0]), ops[1..], t, id);
    }
  }

  /** Until the binding host transaction ends, nobody aborts or commits the
      execution, whatever the clock says; Abort is told to wait. */
  lemma BoundUntilHostEnds(ops: seq<Op>, more: seq<Op>, t: nat, id: ExecutionId)
    requires Holds(After(ops), t, id) && forall i :: 0 <= i < |more| ==> !Ends(more[i], t)
    ensures Holds(After(ops + more), t, id)
    ensures id in After(ops + more).executions && After(ops + more).executions[id].state == Prepared
  {
    hide Run, TablesOk, RequestsOk;
    AfterInv(ops);
    RunConcat(Init(), ops, more);
    RunKeepsLock(After(ops), more, t, id);
    AfterInv(ops + more);
    var db := After(ops + more);
    assert HostOk(db, db.hosts[t]);
    assert LockOk(db, id);
  }

  lemma BoundAbortWaits(db: Db, b: Binding, t: nat, e: Execution, expired: bool, now: int)
    requires Holds(db, t, IdOf(e))
    ensures Abort(db, b, e, expired, now).db == db && Abort(db, b, e, expired, now).result != Ok(true)
  {
    hide Frozen;
  }

  // ---- One commit per request ------------------------------------------------------

  /** Fences of a request are exactly 1..n, one execution each; n is the active
      one and all earlier ones are aborted. */
  lemma RequestFences(ops: seq<Op>, r: RequestId, f: nat)
    requires r in After(ops).requests
    ensures var db := After(ops); var n := db.requests[r].active.fence;
      && 1 <= n <= MAX_FENCE && AtFence(db, r, n, db.requests[r].active)
      && (1 <= f <= n <==> FenceFilled(db, r, f))
      && (forall i, j :: AtFence(db, r, f, i) && AtFence(db, r, f, j) ==> i == j)
      && (forall i :: AtFence(db, r, f, i) && f < n ==> db.executions[i].state == Aborted)
  {
    hide Run, HostsOk, WitnessesOk, Frozen;
    AfterInv(ops);
    var db := After(ops);
    assert ActiveOk(db, r);
    assert RowOk(db.requests[r].active, db.executions[db.requests[r].active]);
    forall i | AtFence(db, r, f, i)
      ensures 1 <= f <= db.requests[r].active.fence && (f < db.requests[r].active.fence ==> db.executions[i].state == Aborted)
    {
      assert LinkOk(db, i) && RowOk(i, db.executions[i]);
    }
  }

  lemma CommittedIsActive(db: Db, id: ExecutionId)
    requires RequestsOk(db) && id in db.executions && db.executions[id].state == Committed
    ensures var r := db.executions[id].request; r in db.requests && db.requests[r].active == id
  {
    assert LinkOk(db, id);
  }

  /** Two executions of one request that are ever committed, now and later, are
      the same execution, and it stays the active one. */
  lemma OneCommitPerRequest(ops: seq<Op>, more: seq<Op>, i: ExecutionId, j: ExecutionId)
    requires i in After(ops).executions && After(ops).executions[i].state == Committed
    requires j in After(ops + more).executions && After(ops + more).executions[j].state == Committed
    requires After(ops + more).executions[j].request == After(ops).executions[i].request
    ensures i == j
    ensures var r := After(ops).executions[i].request;
      r in After(ops + more).requests && After(ops + more).requests[r].active == i
  {
    hide Run, TablesOk, RequestsOk, HostsOk;
    AfterEvolves(ops, more);
    TerminalForever(ops, more, i);
    CommittedIsActive(After(ops + more), i);
    CommittedIsActive(After(ops + more), j);
  }

  /** After a commit no Retry or Replan of that request is granted. */
  lemma CommittedNeverAdvances(ops: seq<Op>, more: seq<Op>, id: ExecutionId,
                               b: Binding, previous: Execution, p: Plan, lease: int, replan: bool, token: Token, now: int)
    requires id in After(ops).executions && After(ops).executions[id].state == Committed
    requires RequestIdFor(previous.plan) == After(ops).executions[id].request
    ensures var s := Advance(After(ops + more), b, previous, p, lease, replan, token, now);
      s.db == After(ops + more) && s.result.Err?
  {
    hide Run, TablesOk, RequestsOk, HostsOk, Frozen, LockedEvidence, ValidateAdvance;
    TerminalForever(ops, more, id);
    AfterInv(ops + more);
    CommittedIsActive(After(ops + more), id);
  }

  // ---- Epoch fencing ---------------------------------------------------------------

  /** The owner's row shows another epoch and this execution is not committed. */
  predicate FencedOff(db: Db, id: ExecutionId) {
    && id.owner in db.bindings && db.bindings[id.owner].epoch != id.epoch
    && (id in db.executions ==> db.executions[id].state != Committed)
  }

  predicate Restores(op: Op, id: ExecutionId) {
    op.OpSetBinding? && op.owner == id.owner && op.row.epoch == id.epoch
  }

  lemma StepKeepsFenced(db: Db, op: Op, id: ExecutionId)
    requires HostsOk(db) && FencedOff(db, id) && !Restores(op, id)
    ensures FencedOff(Apply(db, op), id)
  {
    hide AbortCheck, Frozen, WitnessesMatch, HostsOk, NewWitnesses, References, ValidateAdvance, LockedEvidence;
    if op.OpHostCommit? && op.t in db.hosts {
      NotStaged(db, op.t, id);
    }
  }

  lemma NotStaged(db: Db, t: nat, id: ExecutionId)
    requires HostsOk(db) && FencedOff(db, id) && t in db.hosts
    ensures id !in db.hosts[t].staged
  {
    assert HostOk(db, db.hosts[t]);
    assert id in db.hosts[t].locked ==> LockOk(db, id);
  }

  lemma {:induction false} RunKeepsFenced(db: Db, ops: seq<Op>, id: ExecutionId)
    requires Inv(db) && FencedOff(db, id) && forall i :: 0 <= i < |ops| ==> !Restores(ops[i], id)
    ensures FencedOff(Run(db, ops), id)
    decreases |ops|
  {
    hide TablesOk, RequestsOk, HostsOk, Apply, FencedOff, Restores;
    if ops != [] {
      StepKeepsFenced(db, ops[0], id);
      ApplyKeeps(db, ops[0]);
      RunKeepsFenced(Apply(db, ops[0]), ops[1..], id);
    }
  }

  /** Once a rotation away from its epoch has committed, and while that epoch is
      not put back, an uncommitted execution never becomes Committed. */
  lemma EpochFencing(ops: seq<Op>, more: seq<Op>, id: ExecutionId)
    requires FencedOff(After(ops), id) && forall i :: 0 <= i < |more| ==> !Restores(more[i], id)
    ensures id in After(ops + more).executions ==> After(ops + more).executions[id].state != Committed
  {
    hide Run, Inv, Restores;
    AfterInv(ops);
    RunConcat(Init(), ops, more);
    RunKeepsFenced(After(ops), more, id);
  }

  /** The winner, or the reconciler after lease expiry, can always abort an unbound
      prepared execution, of whatever epoch, through a store of any epoch. */
  lemma AbortSucceeds(ops: seq<Op>, b: Binding, id: ExecutionId, expired: bool, now: int)
    requires var db := After(ops);
      && id in db.executions && db.executions[id].state == Prepared && !Locked(db, id)
      && (expired ==> db.executions[id].leaseUntil <= now)
      && b.owner == id.owner && b.owner in db.bindings
      && db.bindings[b.owner].storeId == b.storeId && db.bindings[b.owner].schema == SCHEMA_VERSION
    ensures var db := After(ops);
      var s := Abort(db, b, ExecutionFrom(id, db.executions[id]), expired, now);
      && s.result == Ok(true) && id in s.db.executions && s.db.executions[id].state == Aborted
      && id in s.db.witnesses && forall k :: k in s.db.witnesses[id] ==> s.db.witnesses[id][k].state == Aborted
  {
    hide Run, RequestsOk, HostsOk, WitnessesOk, Frozen;
    AfterInv(ops);
    assert RowOk(id, After(ops).executions[id]);
  }

  /** A live guard can carry the whole protocol through: bind, stage, host commit
      leaves the execution and every witness committed, and nothing else changed. */
  lemma CommitPath(ops: seq<Op>, b: Binding, t: nat, e: Execution, now: int)
    requires var db := After(ops); var id := IdOf(e);
      && t !in db.hosts && id in db.executions && e == ExecutionFrom(id, db.executions[id])
      && db.executions[id].state == Prepared && now < db.executions[id].leaseUntil && !Locked(db, id)
      && b.owner == id.owner && b.epoch == id.epoch && BindingIn(db, b, true).Ok?
    ensures After(ops + [OpBind(b, t, e, now), OpCommitWitness(t, IdOf(e), false), OpHostCommit(t)])
         == Terminate(After(ops), {IdOf(e)}, Committed)
  {
    hide Run, RequestsOk, HostsOk, Frozen, Terminate;
    var db, id := After(ops), IdOf(e);
    AfterInv(ops);
    var path := [OpBind(b, t, e, now), OpCommitWitness(t, id, false), OpHostCommit(t)];
    RunConcat(Init(), ops, path);
    RunThree(db, path[0], path[1], path[2]);
    BindFirst(db, b, t, e, now);
    hide Apply, Bind;
    var two := db.(hosts := db.hosts[t := HostTx({b.owner}, {id}, {id}, {id}, false)]);
    StageSecond(db, b, t, e, now, two);
    HostCommitOf(db, two, t, id);
  }

  lemma StageSecond(db: Db, b: Binding, t: nat, e: Execution, now: int, two: Db)
    requires Bind(db, b, t, e, now).db == db.(hosts := db.hosts[t := HostTx({b.owner}, {IdOf(e)}, {IdOf(e)}, {}, false)])
    requires two == db.(hosts := db.hosts[t := HostTx({b.owner}, {IdOf(e)}, {IdOf(e)}, {IdOf(e)}, false)])
    ensures Apply(Apply(db, OpBind(b, t, e, now)), OpCommitWitness(t, IdOf(e), false)) == two
    ensures Apply(two, OpHostCommit(t)) == HostCommit(two, t).db
  {
    hide Bind, HostCommit;
    assert EMPTY_HOST.staged + {IdOf(e)} == {IdOf(e)};
  }

  lemma BindFirst(db: Db, b: Binding, t: nat, e: Execution, now: int)
    requires var id := IdOf(e);
      && Inv(db) && t !in db.hosts && id in db.executions && e == ExecutionFrom(id, db.executions[id])
      && db.executions[id].state == Prepared && now < db.executions[id].leaseUntil && !Locked(db, id)
      && b.owner == id.owner && b.epoch == id.epoch && BindingIn(db, b, true).Ok?
    ensures Bind(db, b, t, e, now).db == db.(hosts := db.hosts[t := HostTx({b.owner}, {IdOf(e)}, {IdOf(e)}, {}, false)])
  {
    hide RequestsOk, HostsOk, Frozen;
    var id := IdOf(e);
    assert RowOk(id, db.executions[id]);
    SeesOwnWitnesses(db, t, e);
    assert EMPTY_HOST.shared + {b.owner} == {b.owner} && EMPTY_HOST.locked + {id} == {id} && EMPTY_HOST.guards + {id} == {id};
  }

  lemma HostCommitOf(db: Db, two: Db, t: nat, id: ExecutionId)
    requires t !in db.hosts && two == db.(hosts := two.hosts)
    requires t in two.hosts && two.hosts == db.hosts[t := two.hosts[t]] && two.hosts[t].staged == {id} && !two.hosts[t].poisoned
    ensures HostCommit(two, t).db == Terminate(db, {id}, Committed)
  {
    assert two.hosts - {t} == db.hosts;
  }

  lemma RunThree(db: Db, a: Op, b: Op, c: Op)
    ensures Run(db, [a, b, c]) == Apply(Apply(Apply(db, a), b), c)
  {
    hide Apply;
    assert [a, b, c][1..] == [b, c] && [b, c][1..] == [c] && [c][1..] == [];
    assert Run(Apply(Apply(db, a), b), [c]) == Run(Apply(Apply(Apply(db, a), b), c), []);
  }

  lemma SeesOwnWitnesses(db: Db, t: nat, e: Execution)
    requires Inv(db) && IdOf(e) in db.executions && db.executions[IdOf(e)].plan == e.plan && VisibleState(db, t, IdOf(e)) == Prepared
    ensures WitnessesMatch(db, t, e)
  {
    hide Frozen, RequestsOk, HostsOk;
    var id := IdOf(e);
    assert RowOk(id, db.executions[id]) && WitnessesOk(id, db.executions[id], db.witnesses[id]);
    forall i | 0 <= i < |References(e)| ensures WitnessMatches(db, t, References(e)[i]) {
      assert References(e)[i] == ReferenceOf(e.plan, e.plan.branches[i], e.fence, e.epoch);
      assert WitnessOk(Prepared, db.witnesses[id][e.plan.branches[i].id]);
    }
  }

  // ---- Receipts ---------------------------------------------------------------------

  /** Over any continuation a branch's audit only gains information, and what it
      positively states about the broker agrees with the terminal state. */
  lemma ReceiptsOnlyGain(ops: seq<Op>, more: seq<Op>, id: ExecutionId, branch: string)
    requires id in After(ops).witnesses && branch in After(ops).witnesses[id]
    ensures id in After(ops + more).witnesses && branch in After(ops + more).witnesses[id]
    ensures AuditGrows(After(ops).witnesses[id][branch].audit, After(ops + more).witnesses[id][branch].audit)
    ensures id in After(ops + more).executions &&
      FinalAgrees(After(ops + more).witnesses[id][branch].audit.final, After(ops + more).executions[id].state)
  {
    hide Run, RequestsOk, HostsOk, AuditGrows, RowOk, WitnessesOk;
    AfterEvolves(ops, more);
    assert WitnessesGrow(After(ops).witnesses[id], After(ops + more).witnesses[id]);
    assert WitnessGrows(After(ops).witnesses[id][branch], After(ops + more).witnesses[id][branch]);
    WitnessRow(After(ops + more), id, branch);
  }
}
