/** Runs in which the host binds an execution only from the local work that
    Execute started: every committed branch then has a durable prepared half. */
module ExecuteOnly {
  import opened Protocol
  import opened TransactionTables
  import opened TransactionInvariants
  import opened TransactionSafety
  import opened SenderSystem
  import opened SenderSafety

  /** Exclusive locks come from Bind alone. */
  lemma LocksFromBind(db: Db, op: Op, t: nat, id: ExecutionId)
    requires Holds(Apply(db, op), t, id)
    ensures Holds(db, t, id) || (op.OpBind? && id == IdOf(op.e))
  {
    hide ReserveCheck, AdvanceCheck, BeginPrepareCheck, AbortCheck, ReceiptCheck, RecoveryCheck, Frozen, WitnessesMatch;
  }

  predicate IsCommitted(db: Db, id: ExecutionId) {
    id in db.executions && db.executions[id].state == Committed
  }

  /** Executions become committed only by a host transaction that holds them. */
  lemma CommitsFromHost(db: Db, op: Op, id: ExecutionId)
    requires HostsOk(db) && IsCommitted(Apply(db, op), id)
    ensures IsCommitted(db, id) || exists t :: Holds(db, t, id)
  {
    hide AbortCheck, Frozen, WitnessesMatch, HostsOk, NewWitnesses, References, ValidateAdvance, LockedEvidence;
    if op.OpHostCommit? && op.t in db.hosts && id in db.hosts[op.t].staged {
      StagedHeld(db, op.t, id);
    }
  }

  lemma StagedHeld(db: Db, t: nat, id: ExecutionId)
    requires HostsOk(db) && t in db.hosts && id in db.hosts[t].staged
    ensures Holds(db, t, id)
  {
    assert HostOk(db, db.hosts[t]);
  }

  /** The database transaction an event of the system runs, if any. */
  function EventOp(s: Sys, ev: Event): Option<Op> {
    match ev
    case Env(op) => Some(op)
    case Begin(p, now, fault) =>
      if At(s, p) && s.procs[p].phase.Beginning? && fault != Lost then Some(OpBeginPrepare(s.procs[p].b, s.procs[p].e, now)) else None
    case AuditHalf(p, now, fault) =>
      if At(s, p) && s.procs[p].phase.Recording? && s.procs[p].phase.next < |References(s.procs[p].e)| && fault != Lost then
        Some(OpRecordHalf(s.procs[p].b, s.procs[p].e, References(s.procs[p].e)[s.procs[p].phase.next], s.procs[p].phase.receipt, now))
      else None
    case AbortNow(p, now, fault) =>
      if At(s, p) && (s.procs[p].phase.AbortingUnstarted? || s.procs[p].phase.AbortingReported?) && fault != Lost then
        Some(OpAbort(s.procs[p].b, s.procs[p].e, false, now))
      else None
    case AuditFinal(p, now, fault) =>
      if At(s, p) && s.procs[p].phase.RecordingFinal? && s.procs[p].phase.next < |References(s.procs[p].e)| && fault != Lost then
        var x := s.procs[p];
        var code := if x.phase.outcome == FinalUnknown then "final_rpc_unknown" else "";
        Some(OpRecordFinal(x.b, x.e, References(x.e)[x.phase.next], x.phase.outcome, code, now))
      else None
    case AuditRecovery(p, now, fault) =>
      if p in s.procs && s.procs[p].Auditor? && fault != Lost then
        Some(OpRecoveryFinal(s.procs[p].b, s.procs[p].ref, s.procs[p].outcome, now))
      else None
    case _ => None
  }

  /** Every event of the system is at most one database transaction, and the log
      only grows: the system refines the runs of module TransactionSafety. */
  lemma EventRefinesStore(s: Sys, ev: Event)
    ensures Next(s, ev).db == (if EventOp(s, ev).None? then s.db else Apply(s.db, EventOp(s, ev).value))
    ensures s.log <= Next(s, ev).log
    ensures EventOp(s, ev).Some? && EventOp(s, ev).value.OpBind? ==> ev == Env(EventOp(s, ev).value)
  {
    hide Reserve, Advance, BeginPrepare, Abort, Bind, RecordHalf, RecordFinal, RecordRecoveryFinal, References, AfterRead, ValidExecution,
      AfterAbort, AfterHalfAudit, AfterBegin, EvidenceFor, Resolve, HostCommit, CommitWitness, SetBinding;
  }

  /** The host's discipline: Bind only inside local work that was started. */
  predicate Disciplined(s: Sys, ev: Event) {
    ev.Env? && ev.op.OpBind? ==> LocalRan(IdOf(ev.op.e)) in s.log
  }

  predicate DisciplinedRun(s: Sys, evs: seq<Event>)
    decreases |evs|
  {
    evs == [] || (Disciplined(s, evs[0]) && DisciplinedRun(Next(s, evs[0]), evs[1..]))
  }

  ghost predicate GateInv(s: Sys) {
    && (forall t, id :: Holds(s.db, t, id) ==> LocalRan(id) in s.log)
    && (forall id :: IsCommitted(s.db, id) ==> LocalRan(id) in s.log)
  }

  lemma GateStep(s: Sys, ev: Event)
    requires GateInv(s) && HostsOk(s.db) && Disciplined(s, ev)
    ensures GateInv(Next(s, ev))
  {
    hide Apply, Next, HostsOk, EventOp, Holds, IsCommitted;
    var s' := Next(s, ev);
    EventRefinesStore(s, ev);
    if EventOp(s, ev).Some? {
      var op := EventOp(s, ev).value;
      forall t, id | Holds(s'.db, t, id) ensures LocalRan(id) in s'.log {
        LocksFromBind(s.db, op, t, id);
        assert LocalRan(id) in s.log;
      }
      forall id | IsCommitted(s'.db, id) ensures LocalRan(id) in s'.log {
        CommitsFromHost(s.db, op, id);
        assert LocalRan(id) in s.log;
      }
    } else {
      forall t, id | Holds(s'.db, t, id) ensures LocalRan(id) in s'.log {
        assert LocalRan(id) in s.log;
      }
      forall id | IsCommitted(s'.db, id) ensures LocalRan(id) in s'.log {
        assert LocalRan(id) in s.log;
      }
    }
  }

  lemma {:induction false} GateRun(s: Sys, evs: seq<Event>)
    requires SysInv(s) && GateInv(s) && DisciplinedRun(s, evs)
    ensures GateInv(RunSys(s, evs))
    decreases |evs|
  {
    hide TablesOk, RequestsOk, HostsOk, ProcOk, ActionOk, GateInv, Next, Disciplined, NoClash;
    if evs != [] {
      GateStep(s, evs[0]);
      NextKeeps(s, evs[0]);
      GateRun(Next(s, evs[0]), evs[1..]);
    }
  }

  /** Under that discipline every branch of every committed execution has a
      durable prepared half, whatever else happens in between. */
  lemma CommittedHalvesObserved(evs: seq<Event>, id: ExecutionId, branch: string)
    requires DisciplinedRun(InitSys(), evs)
    requires IsCommitted(Reached(evs).db, id) && id in Reached(evs).db.witnesses && branch in Reached(evs).db.witnesses[id]
    ensures Reached(evs).db.witnesses[id][branch].audit.half == HalfPrepared
  {
    hide RunSys, RequestsOk, HostsOk, ProcOk, NoClash, RowOk, Started, DisciplinedRun;
    ReachedInv(evs);
    InitGate();
    GateRun(InitSys(), evs);
    var s := Reached(evs);
    var i :| 0 <= i < |s.log| && s.log[i] == LocalRan(id);
    assert ActionOk(s.db, s.log[i]);
    assert WitnessesOk(id, s.db.executions[id], s.db.witnesses[id]);
    BranchNamed(s.db.executions[id].plan, branch);
  }

  lemma InitGate()
    ensures SysInv(InitSys()) && GateInv(InitSys())
  {
    hide Inv;
    InitInv();
  }

  lemma BranchNamed(p: Plan, branch: string)
    requires branch in BranchIds(p)
    ensures exists b :: b in p.branches && b.id == branch
  {
    var i :| 0 <= i < |p.branches| && p.branches[i].id == branch;
    assert p.branches[i] in p.branches;
  }
}
