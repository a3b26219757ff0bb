/** What every database transaction keeps, and how the tables may evolve. */
module TransactionInvariants {
  import opened Protocol
  import opened TransactionTables

  // ---- One-state invariant --------------------------------------------------

  predicate AuditOk(s: State, a: Audit) {
    && FinalAgrees(a.final, s)
    && (s == Prepared ==> a.final == FinalNotAttempted)
    && (a.half == HalfNotAttempted <==> a.halfAt == None)
  }

  predicate WitnessOk(s: State, w: Witness) {
    w.state == s && AuditOk(s, w.audit)
  }

  predicate WitnessesOk(id: ExecutionId, row: ExecutionRow, ws: Witnesses) {
    && ws.Keys == BranchIds(row.plan)
    && (forall i :: 0 <= i < |row.plan.branches| ==>
          row.plan.branches[i].id in ws &&
          ws[row.plan.branches[i].id].reference == ReferenceOf(row.plan, row.plan.branches[i], id.fence, id.epoch))
    && (forall k :: k in ws ==> WitnessOk(row.state, ws[k]))
  }

  predicate RowOk(id: ExecutionId, row: ExecutionRow) {
    && ValidExecution(ExecutionFrom(id, row))
    && IdOf(ExecutionFrom(id, row)) == id
    && row.request == RequestIdFor(row.plan)
  }

  /** Every execution has exactly its plan's witnesses, all in its own state. */
  ghost predicate TablesOk(db: Db) {
    && db.witnesses.Keys == db.executions.Keys
    && (forall id :: id in db.executions ==> RowOk(id, db.executions[id]))
    && (forall id :: id in db.executions ==> WitnessesOk(id, db.executions[id], db.witnesses[id]))
  }

  predicate ActiveOk(db: Db, r: RequestId)
    requires r in db.requests
  {
    var a := db.requests[r].active;
    && a in db.executions && db.executions[a].request == r
    && db.executions[a].plan.inputHash == db.requests[r].inputHash
  }

  /** An execution is its request's active one or an earlier aborted one. */
  predicate LinkOk(db: Db, id: ExecutionId)
    requires id in db.executions
  {
    var r := db.executions[id].request;
    && r in db.requests
    && (id == db.requests[r].active ||
        (id.fence < db.requests[r].active.fence && db.executions[id].state == Aborted))
  }

  predicate AtFence(db: Db, r: RequestId, f: nat, id: ExecutionId) {
    id in db.executions && db.executions[id].request == r && id.fence == f
  }

  ghost predicate FenceFilled(db: Db, r: RequestId, f: nat) {
    exists id :: AtFence(db, r, f, id)
  }

  ghost predicate FencesOk(db: Db) {
    && (forall r, f: nat :: r in db.requests && 1 <= f <= db.requests[r].active.fence ==> FenceFilled(db, r, f))
    && (forall i, j | i in db.executions && j in db.executions ::
          i.fence == j.fence && db.executions[i].request == db.executions[j].request ==> i == j)
  }

  ghost predicate RequestsOk(db: Db) {
    && (forall r :: r in db.requests ==> ActiveOk(db, r))
    && (forall id :: id in db.executions ==> LinkOk(db, id))
    && FencesOk(db)
  }

  /** A locked execution is prepared and of the epoch its owner's row shows. */
  predicate LockOk(db: Db, id: ExecutionId) {
    && id in db.executions && db.executions[id].state == Prepared
    && id.owner in db.bindings && db.bindings[id.owner].epoch == id.epoch
  }

  ghost predicate HostOk(db: Db, h: HostTx) {
    && h.staged <= h.guards <= h.locked
    && (forall id :: id in h.locked ==> LockOk(db, id) && id.owner in h.shared)
  }

  ghost predicate HostsOk(db: Db) {
    && (forall t :: t in db.hosts ==> HostOk(db, db.hosts[t]))
    && (forall t, u, id :: t in db.hosts && u in db.hosts && id in db.hosts[t].locked && id in db.hosts[u].locked ==> t == u)
  }

  ghost predicate Inv(db: Db) {
    TablesOk(db) && RequestsOk(db) && HostsOk(db)
  }

  // ---- Two-state relation ------------------------------------------------------

  function HalfRank(h: HalfOutcome): nat {
    match h case HalfNotAttempted => 0 case HalfUnknown => 1 case HalfPrepared => 2 case HalfRejected => 2
  }

  function FinalRank(f: FinalOutcome): nat {
    match f case FinalNotAttempted => 0 case FinalUnknown => 1 case FinalCommitConfirmed => 2 case FinalRollbackConfirmed => 2
  }

  /** Outcomes climb not_attempted, unknown, definite; a definite one is final,
      and broker identities once known are kept. */
  predicate AuditGrows(a: Audit, b: Audit) {
    && HalfRank(a.half) <= HalfRank(b.half) && (HalfRank(a.half) == 2 ==> b.half == a.half)
    && FinalRank(a.final) <= FinalRank(b.final) && (FinalRank(a.final) == 2 ==> b.final == a.final)
    && (a.messageId != "" ==> b.messageId == a.messageId)
    && (a.transactionId != "" ==> b.transactionId == a.transactionId)
  }

  predicate WitnessGrows(a: Witness, b: Witness) {
    a.reference == b.reference && AuditGrows(a.audit, b.audit)
  }

  predicate WitnessesGrow(a: Witnesses, b: Witnesses) {
    a.Keys == b.Keys && forall k :: k in a ==> WitnessGrows(a[k], b[k])
  }

  predicate RowGrows(a: ExecutionRow, b: ExecutionRow) {
    && b == a.(state := b.state, started := b.started)
    && (a.started ==> b.started)
    && (a.state != Prepared ==> b.state == a.state)
  }

  predicate RequestGrows(a: RequestRow, b: RequestRow) {
    a.inputHash == b.inputHash && (a.active == b.active || a.active.fence < b.active.fence)
  }

  ghost predicate Evolves(a: Db, b: Db) {
    && (forall id :: id in a.executions ==> id in b.executions && RowGrows(a.executions[id], b.executions[id]))
    && (forall id :: id in a.witnesses ==> id in b.witnesses && WitnessesGrow(a.witnesses[id], b.witnesses[id]))
    && (forall r :: r in a.requests ==> r in b.requests && RequestGrows(a.requests[r], b.requests[r]))
  }

  lemma EvolvesTrans(a: Db, b: Db, c: Db)
    requires Evolves(a, b) && Evolves(b, c)
    ensures Evolves(a, c)
  {
    forall id | id in a.executions ensures id in c.executions && RowGrows(a.executions[id], c.executions[id]) {
      assert RowGrows(a.executions[id], b.executions[id]) && RowGrows(b.executions[id], c.executions[id]);
    }
    forall id | id in a.witnesses ensures id in c.witnesses && WitnessesGrow(a.witnesses[id], c.witnesses[id]) {
      assert WitnessesGrow(a.witnesses[id], b.witnesses[id]) && WitnessesGrow(b.witnesses[id], c.witnesses[id]);
      forall k | k in a.witnesses[id] ensures WitnessGrows(a.witnesses[id][k], c.witnesses[id][k]) {
        assert WitnessGrows(b.witnesses[id][k], c.witnesses[id][k]);
      }
    }
    forall r | r in a.requests ensures r in c.requests && RequestGrows(a.requests[r], c.requests[r]) {
      assert RequestGrows(a.requests[r], b.requests[r]) && RequestGrows(b.requests[r], c.requests[r]);
    }
  }

  // ---- Effects keep the invariant ---------------------------------------------------

  /** A first execution of a new request, or the successor of an aborted active one. */
  predicate Insertable(db: Db, r: Request, e: Execution) {
    && ValidExecution(e) && r == RequestFor(e.plan) && IdOf(e) !in db.executions
    && (r.id !in db.requests ==> e.fence == 1)
    && (r.id in db.requests ==>
          && db.requests[r.id].inputHash == r.inputHash
          && db.requests[r.id].active in db.executions
          && db.executions[db.requests[r.id].active].state == Aborted
          && e.fence == db.requests[r.id].active.fence + 1)
  }

  lemma NewWitnessesOk(e: Execution, row: ExecutionRow)
    requires Frozen(e.plan) && row.plan == e.plan && row.state == Prepared
    ensures WitnessesOk(IdOf(e), row, NewWitnesses(e.plan, e.fence, e.epoch))
  {
    hide ReferenceOf, ValidHeader, ValidBranch;
    var ws := NewWitnesses(e.plan, e.fence, e.epoch);
    assert ws.Keys == BranchIds(e.plan);
    forall i | 0 <= i < |e.plan.branches|
      ensures ws[e.plan.branches[i].id].reference == ReferenceOf(e.plan, e.plan.branches[i], e.fence, e.epoch)
    {
    }
  }

  lemma InsertTables(db: Db, r: Request, e: Execution)
    requires TablesOk(db) && Insertable(db, r, e)
    ensures TablesOk(Insert(db, r, e))
  {
    hide Frozen, WitnessesOk, NewWitnesses;
    var db' := Insert(db, r, e);
    NewWitnessesOk(e, db'.executions[IdOf(e)]);
    assert RowOk(IdOf(e), db'.executions[IdOf(e)]);
  }

  lemma InsertFences(db: Db, r: Request, e: Execution)
    requires RequestsOk(db) && Insertable(db, r, e)
    ensures FencesOk(Insert(db, r, e))
  {
    var db' := Insert(db, r, e);
    var id := IdOf(e);
    forall q, f: nat | q in db'.requests && 1 <= f <= db'.requests[q].active.fence ensures FenceFilled(db', q, f) {
      if q == r.id && f == e.fence {
        assert AtFence(db', q, f, id);
      } else {
        assert FenceFilled(db, q, f);
        var k :| AtFence(db, q, f, k);
        assert AtFence(db', q, f, k);
      }
    }
    forall j | j in db.executions && db.executions[j].request == r.id ensures j.fence != id.fence {
      assert LinkOk(db, j);
    }
  }

  lemma InsertRequests(db: Db, r: Request, e: Execution)
    requires RequestsOk(db) && Insertable(db, r, e)
    ensures RequestsOk(Insert(db, r, e))
  {
    var db' := Insert(db, r, e);
    var id := IdOf(e);
    InsertFences(db, r, e);
    forall q | q in db'.requests ensures ActiveOk(db', q) {
      if q != r.id { assert ActiveOk(db, q); }
    }
    forall k | k in db'.executions ensures LinkOk(db', k) {
      if k != id { assert LinkOk(db, k); }
    }
  }

  lemma InsertHosts(db: Db, r: Request, e: Execution)
    requires HostsOk(db) && Insertable(db, r, e)
    ensures HostsOk(Insert(db, r, e))
  {
    var db' := Insert(db, r, e);
    forall t | t in db'.hosts ensures HostOk(db', db'.hosts[t]) {
      assert HostOk(db, db.hosts[t]);
    }
  }

  lemma WitnessesGrowRefl(ws: Witnesses)
    ensures WitnessesGrow(ws, ws)
  {
  }

  /** Nothing but new or growing rows: the other tables are compared wholesale. */
  lemma SameEvolves(db: Db, db': Db)
    requires forall id :: id in db.executions ==> id in db'.executions && RowGrows(db.executions[id], db'.executions[id])
    requires forall id :: id in db.witnesses ==> id in db'.witnesses && db'.witnesses[id] == db.witnesses[id]
    requires forall r :: r in db.requests ==> r in db'.requests && RequestGrows(db.requests[r], db'.requests[r])
    ensures Evolves(db, db')
  {
    hide WitnessesGrow;
    forall id | id in db.witnesses ensures WitnessesGrow(db.witnesses[id], db'.witnesses[id]) {
      WitnessesGrowRefl(db.witnesses[id]);
    }
  }

  lemma InsertEvolves(db: Db, r: Request, e: Execution)
    requires TablesOk(db) && RequestsOk(db) && Insertable(db, r, e)
    ensures Evolves(db, Insert(db, r, e))
  {
    hide Frozen, WitnessesOk, NewWitnesses, FencesOk, LinkOk, Evolves;
    SameEvolves(db, Insert(db, r, e));
  }

  lemma InsertKeeps(db: Db, r: Request, e: Execution)
    requires Inv(db) && Insertable(db, r, e)
    ensures Inv(Insert(db, r, e)) && Evolves(db, Insert(db, r, e))
  {
    hide Frozen, Insert, TablesOk, RequestsOk, HostsOk, Evolves;
    InsertTables(db, r, e);
    InsertRequests(db, r, e);
    InsertHosts(db, r, e);
    InsertEvolves(db, r, e);
  }

  /** Requests are untouched and executions keep request, plan, and being aborted. */
  predicate Shaped(db: Db, db': Db) {
    && db'.requests == db.requests && db'.executions.Keys == db.executions.Keys
    && forall id :: id in db.executions ==>
         && db'.executions[id].request == db.executions[id].request
         && db'.executions[id].plan == db.executions[id].plan
         && (db.executions[id].state == Aborted ==> db'.executions[id].state == Aborted)
  }

  lemma SameShape(db: Db, db': Db)
    requires RequestsOk(db) && Shaped(db, db')
    ensures RequestsOk(db')
  {
    forall q | q in db'.requests ensures ActiveOk(db', q) {
      assert ActiveOk(db, q);
    }
    forall k | k in db'.executions ensures LinkOk(db', k) {
      assert LinkOk(db, k);
    }
    forall q, f: nat | q in db'.requests && 1 <= f <= db'.requests[q].active.fence ensures FenceFilled(db', q, f) {
      assert FenceFilled(db, q, f);
      var k :| AtFence(db, q, f, k);
      assert AtFence(db', q, f, k);
    }
  }

  /** Hosts stay valid while every execution some host locks stays prepared. */
  lemma SameHosts(db: Db, db': Db)
    requires HostsOk(db) && db'.bindings == db.bindings
    requires forall t :: t in db'.hosts ==> t in db.hosts && db'.hosts[t] == db.hosts[t]
    requires forall t, id | t in db'.hosts && id in db'.hosts[t].locked ::
               id in db.executions && db.executions[id].state == Prepared ==>
               id in db'.executions && db'.executions[id].state == Prepared
    ensures HostsOk(db')
  {
    forall t | t in db'.hosts ensures HostOk(db', db'.hosts[t]) {
      assert HostOk(db, db.hosts[t]);
      forall id | id in db.hosts[t].locked ensures LockOk(db', id) { assert LockOk(db, id); }
    }
  }

  lemma StartTables(db: Db, id: ExecutionId)
    requires TablesOk(db) && id in db.executions
    ensures TablesOk(MarkStarted(db, id))
  {
    hide Frozen;
    var db' := MarkStarted(db, id);
    assert RowOk(id, db.executions[id]) && WitnessesOk(id, db.executions[id], db.witnesses[id]);
    assert RowOk(id, db'.executions[id]) && WitnessesOk(id, db'.executions[id], db'.witnesses[id]);
    hide RowOk, WitnessesOk;
  }

  lemma StartKeeps(db: Db, id: ExecutionId)
    requires Inv(db) && id in db.executions
    ensures Inv(MarkStarted(db, id)) && Evolves(db, MarkStarted(db, id))
  {
    hide TablesOk, RequestsOk, HostsOk, Evolves;
    var db' := MarkStarted(db, id);
    StartTables(db, id);
    SameShape(db, db');
    SameHosts(db, db');
    SameEvolves(db, db');
  }

  predicate Terminable(db: Db, ids: set<ExecutionId>) {
    forall id :: id in ids ==> id in db.executions && db.executions[id].state == Prepared
  }

  lemma SetAllOk(id: ExecutionId, row: ExecutionRow, ws: Witnesses, s: State)
    requires WitnessesOk(id, row, ws) && row.state == Prepared && s != Prepared
    ensures WitnessesOk(id, row.(state := s), SetAll(ws, s)) && WitnessesGrow(ws, SetAll(ws, s))
  {
    hide Frozen;
    var ws' := SetAll(ws, s);
    assert ws'.Keys == ws.Keys;
    forall k | k in ws' ensures WitnessOk(s, ws'[k]) {
      assert WitnessOk(Prepared, ws[k]);
    }
  }

  lemma RowKept(id: ExecutionId, row: ExecutionRow, s: State)
    requires RowOk(id, row)
    ensures RowOk(id, row.(state := s))
  {
    hide Frozen;
  }

  lemma TerminateTables(db: Db, ids: set<ExecutionId>, s: State)
    requires TablesOk(db) && Terminable(db, ids) && s != Prepared
    ensures TablesOk(Terminate(db, ids, s)) && Evolves(db, Terminate(db, ids, s))
  {
    hide RowOk, WitnessesOk, WitnessesGrow, SetAll;
    var db' := Terminate(db, ids, s);
    forall id | id in db'.executions
      ensures RowOk(id, db'.executions[id])
      ensures WitnessesOk(id, db'.executions[id], db'.witnesses[id]) && WitnessesGrow(db.witnesses[id], db'.witnesses[id])
    {
      if id in ids {
        RowKept(id, db.executions[id], s);
        SetAllOk(id, db.executions[id], db.witnesses[id], s);
      } else {
        WitnessesGrowRefl(db.witnesses[id]);
      }
    }
  }

  lemma TerminateKeeps(db: Db, ids: set<ExecutionId>, s: State)
    requires TablesOk(db) && RequestsOk(db) && Terminable(db, ids) && s != Prepared
    ensures TablesOk(Terminate(db, ids, s)) && RequestsOk(Terminate(db, ids, s)) && Evolves(db, Terminate(db, ids, s))
  {
    hide TablesOk, RequestsOk, Evolves;
    TerminateTables(db, ids, s);
    SameShape(db, Terminate(db, ids, s));
  }

  lemma AbortKeeps(db: Db, id: ExecutionId)
    requires Inv(db) && Terminable(db, {id}) && !Locked(db, id)
    ensures Inv(Terminate(db, {id}, Aborted)) && Evolves(db, Terminate(db, {id}, Aborted))
  {
    hide TablesOk, RequestsOk, HostsOk, Evolves;
    TerminateKeeps(db, {id}, Aborted);
    SameHosts(db, Terminate(db, {id}, Aborted));
  }

  /** Tables stay put when only hosts or bindings change. */
  lemma HostsChange(db: Db, db': Db)
    requires TablesOk(db) && RequestsOk(db)
    requires db' == db.(hosts := db'.hosts, bindings := db'.bindings)
    ensures TablesOk(db') && RequestsOk(db') && Evolves(db, db')
  {
    hide RowOk, WitnessesOk, RequestsOk, Evolves;
    SameShape(db, db');
    SameEvolves(db, db');
  }

  lemma EndHostKeeps(db: Db, t: nat)
    requires Inv(db)
    ensures Inv(EndHost(db, t)) && Evolves(db, EndHost(db, t))
  {
    hide TablesOk, RequestsOk, HostsOk, Evolves;
    HostsChange(db, EndHost(db, t));
    SameHosts(db, EndHost(db, t));
  }

  lemma StagedPrepared(db: Db, t: nat)
    requires HostsOk(db) && t in db.hosts
    ensures Terminable(db, db.hosts[t].staged)
    ensures forall u, id :: u in db.hosts && u != t && id in db.hosts[u].locked ==> id !in db.hosts[t].staged
  {
    assert HostOk(db, db.hosts[t]);
    forall id | id in db.hosts[t].staged ensures id in db.executions && db.executions[id].state == Prepared {
      assert LockOk(db, id);
    }
  }

  lemma HostCommitKeeps(db: Db, t: nat)
    requires Inv(db)
    ensures Inv(HostCommit(db, t).db) && Evolves(db, HostCommit(db, t).db)
  {
    hide TablesOk, RequestsOk, HostsOk, Evolves;
    if t in db.hosts && !db.hosts[t].poisoned {
      var ids := db.hosts[t].staged;
      StagedPrepared(db, t);
      TerminateKeeps(db, ids, Committed);
      var mid := Terminate(db, ids, Committed);
      HostsChange(mid, EndHost(mid, t));
      EvolvesTrans(db, mid, EndHost(mid, t));
      SameHosts(db, EndHost(mid, t));
    } else {
      EndHostKeeps(db, t);
      assert t !in db.hosts ==> db.hosts - {t} == db.hosts;
    }
  }

  lemma AuditedOk(id: ExecutionId, row: ExecutionRow, ws: Witnesses, branch: string, a: Audit)
    requires WitnessesOk(id, row, ws) && branch in ws && AuditOk(row.state, a) && AuditGrows(ws[branch].audit, a)
    ensures WitnessesOk(id, row, ws[branch := ws[branch].(audit := a)])
    ensures WitnessesGrow(ws, ws[branch := ws[branch].(audit := a)])
  {
    var ws' := ws[branch := ws[branch].(audit := a)];
    assert ws'.Keys == ws.Keys;
    forall k | k in ws' ensures WitnessOk(row.state, ws'[k]) {
      assert WitnessOk(row.state, ws[k]);
    }
  }

  lemma AuditTables(db: Db, id: ExecutionId, branch: string, a: Audit)
    requires TablesOk(db) && id in db.executions && branch in db.witnesses[id]
    requires AuditOk(db.executions[id].state, a) && AuditGrows(db.witnesses[id][branch].audit, a)
    ensures TablesOk(PutAudit(db, id, branch, a)) && Evolves(db, PutAudit(db, id, branch, a))
  {
    hide RowOk, WitnessesOk, WitnessesGrow, AuditOk, AuditGrows;
    var db' := PutAudit(db, id, branch, a);
    AuditedOk(id, db.executions[id], db.witnesses[id], branch, a);
    forall k | k in db.witnesses ensures WitnessesGrow(db.witnesses[k], db'.witnesses[k]) {
      if k != id { WitnessesGrowRefl(db.witnesses[k]); }
    }
  }

  lemma AuditKeeps(db: Db, id: ExecutionId, branch: string, a: Audit)
    requires Inv(db) && id in db.executions && branch in db.witnesses[id]
    requires AuditOk(db.executions[id].state, a) && AuditGrows(db.witnesses[id][branch].audit, a)
    ensures Inv(PutAudit(db, id, branch, a)) && Evolves(db, PutAudit(db, id, branch, a))
  {
    hide RequestsOk, HostsOk, Evolves, WitnessesOk, RowOk, AuditOk, AuditGrows;
    AuditTables(db, id, branch, a);
    SameShape(db, PutAudit(db, id, branch, a));
    SameHosts(db, PutAudit(db, id, branch, a));
  }
}
