/** What the broker is told and what is recorded of its answers, over every
    interleaving: nothing Execute proves stays unsent, and nothing is recorded as
    prepared or confirmed that the broker did not acknowledge. */
module SenderFinals {
  import opened Protocol
  import opened TransactionTables
  import opened TransactionInvariants
  import opened TransactionSafety
  import opened SenderSystem
  import opened SenderSafety
  import opened ExecuteOnly
  import opened AuditFrames

  // ---- What a process has asked of the broker ---------------------------------------------

  predicate Sent(log: seq<Action>, id: ExecutionId, branchId: string, d: Decision) {
    Ended(id, branchId, d, true) in log || Ended(id, branchId, d, false) in log
  }

  /** Every handle below k has had its end-transaction request. */
  predicate AllSent(log: seq<Action>, e: Execution, handles: set<nat>, k: nat, d: Decision) {
    forall j :: j in handles && j < k && j < |e.plan.branches| ==> Sent(log, IdOf(e), e.plan.branches[j].id, d)
  }

  predicate Upto(handles: set<nat>, k: nat) { forall j :: 0 <= j < k ==> j in handles }

  predicate Below(handles: set<nat>, k: nat) { forall j :: j in handles ==> j < k }

  predicate LocalFits(local: LocalOutcome, d: Decision) {
    match local
    case LocalNotStarted => d == Rollback
    case LocalCommitted => d == Commit
    case LocalAborted => d == Rollback
    case LocalUnknown => false
  }

  /** The outcome to be recorded is what the broker answered to the request. */
  predicate AnswerFits(log: seq<Action>, id: ExecutionId, branchId: string, d: Decision, f: FinalOutcome) {
    match f
    case FinalUnknown => Ended(id, branchId, d, false) in log
    case FinalCommitConfirmed => d == Commit && Ended(id, branchId, d, true) in log
    case FinalRollbackConfirmed => d == Rollback && Ended(id, branchId, d, true) in log
    case FinalNotAttempted => false
  }

  ghost predicate HalfAnswered(log: seq<Action>, id: ExecutionId, k: nat, h: HalfReceipt) {
    exists r :: HalfSent(id, k, r) in log && h == Checked(r.receipt)
  }

  ghost predicate WorkOk(db: Db, log: seq<Action>, x: Proc) {
    match x
    case Executor(b, e, handles, local, phase) => ExecutorOk(db, log, b, e, handles, local, phase)
    case Checker(_, _, _) => true
    case Auditor(_, ref, f) =>
      || (f == FinalCommitConfirmed && Ended(ExecutionOf(ref), ref.branchId, Commit, true) in log)
      || (f == FinalRollbackConfirmed && Ended(ExecutionOf(ref), ref.branchId, Rollback, true) in log)
  }

  ghost predicate ExecutorOk(db: Db, log: seq<Action>, b: Binding, e: Execution, handles: set<nat>, local: LocalOutcome, phase: Phase) {
    var n := |e.plan.branches|;
    && b.owner == e.plan.owner && b.epoch == e.epoch && Below(handles, n)
    && (!phase.Finalizing? && !phase.RecordingFinal? && !phase.Done? ==> local == LocalNotStarted)
    && (!phase.Beginning? && !phase.Done? && !(phase.Proving? && phase.mode.Report?) ==> Stored(db, e))
    && match phase
       case Beginning => handles == {}
       case Sending(k) => k <= n && Upto(handles, k)
       case Recording(k, h, usable) =>
         && k < n && Upto(handles, k) && HalfAnswered(log, IdOf(e), k, h)
         && (usable ==> k in handles && ValidHalf(h) && h.outcome == HalfPrepared)
       case LocalRunning => Upto(handles, n)
       case AbortingUnstarted => true
       case AbortingReported => Upto(handles, n)
       case Proving(mode, _) => (mode.Report? ==> handles == {}) && (mode.AfterLocal? ==> Upto(handles, n))
       case Finalizing(d, k) => AllSent(log, e, handles, k, d) && LocalFits(local, d) && (local != LocalNotStarted ==> Upto(handles, n))
       case RecordingFinal(d, k, f) =>
         && k < n && k in handles && AllSent(log, e, handles, k + 1, d) && LocalFits(local, d)
         && (local != LocalNotStarted ==> Upto(handles, n)) && AnswerFits(log, IdOf(e), e.plan.branches[k].id, d, f)
       case Done =>
         && (local == LocalCommitted ==> handles == {} || (Upto(handles, n) && AllSent(log, e, handles, n, Commit)))
         && (local == LocalAborted ==> handles == {} || (Upto(handles, n) && AllSent(log, e, handles, n, Rollback)))
  }

  ghost predicate WorkInv(s: Sys) { forall p :: p in s.procs ==> WorkOk(s.db, s.log, s.procs[p]) }

  // ---- Stability --------------------------------------------------------------------------

  lemma SentStable(log: seq<Action>, log': seq<Action>, e: Execution, handles: set<nat>, k: nat, d: Decision)
    requires log <= log' && AllSent(log, e, handles, k, d)
    ensures AllSent(log', e, handles, k, d)
  {
    assert forall a :: a in log ==> a in log';
  }

  lemma StoredStable(a: Db, b: Db, e: Execution)
    requires Evolves(a, b) && Stored(a, e)
    ensures Stored(b, e)
  {
    assert RowGrows(a.executions[IdOf(e)], b.executions[IdOf(e)]);
  }

  lemma WorkStable(a: Db, b: Db, log: seq<Action>, log': seq<Action>, x: Proc)
    requires Evolves(a, b) && log <= log' && WorkOk(a, log, x)
    ensures WorkOk(b, log', x)
  {
    hide Evolves, Stored, AllSent, Upto, Below, LocalFits, ValidHalf, Checked;
    assert forall y :: y in log ==> y in log';
    match x
    case Executor(_, e, handles, local, phase) =>
      if Stored(a, e) { StoredStable(a, b, e); }
      forall k, d | AllSent(log, e, handles, k, d) ensures AllSent(log', e, handles, k, d) { SentStable(log, log', e, handles, k, d); }
      if phase.Recording? {
        var r :| HalfSent(IdOf(e), phase.next, r) in log && phase.receipt == Checked(r.receipt);
        assert HalfAnswered(log', IdOf(e), phase.next, phase.receipt);
      }
    case _ =>
  }

  /** Only the process of the event moves. */
  predicate Mover(ev: Event, q: nat) { !ev.Env? && ev.p == q }

  lemma OthersStand(s: Sys, ev: Event, q: nat)
    requires q in Next(s, ev).procs && !Mover(ev, q)
    ensures q in s.procs && Next(s, ev).procs[q] == s.procs[q]
  {
    hide BeginPrepare, RecordHalf, Abort, RecordFinal, RecordRecoveryFinal, References, AfterRead, AfterAbort, AfterHalfAudit, AfterBegin,
      EvidenceFor, Resolve, Apply, ValidExecution;
  }

  // ---- Each event keeps it ----------------------------------------------------------------

  lemma BeginWork(s: Sys, p: nat, now: int, fault: Fault)
    requires At(s, p) && s.procs[p].phase.Beginning? && WorkOk(s.db, s.log, s.procs[p])
    ensures var t := BeginStep(s, p, now, fault); WorkOk(t.db, t.log, t.procs[p])
  {
    hide Frozen, BindingIn, Locked;
  }

  lemma SendHalfWork(s: Sys, p: nat, receipt: HalfReceipt, handle: bool, failed: bool)
    requires At(s, p) && s.procs[p].phase.Sending? && s.procs[p].phase.next < BranchCount(s.procs[p]) && WorkOk(s.db, s.log, s.procs[p])
    ensures var t := SendHalfStep(s, p, receipt, handle, failed); WorkOk(t.db, t.log, t.procs[p])
  {
    hide Stored, ValidHalf;
    var x, t := s.procs[p], SendHalfStep(s, p, receipt, handle, failed);
    assert HalfSent(IdOf(x.e), x.phase.next, HalfAnswer(receipt, handle, failed)) in t.log;
    assert HalfAnswered(t.log, IdOf(x.e), x.phase.next, Checked(receipt));
  }

  lemma AuditHalfWork(s: Sys, p: nat, now: int, fault: Fault)
    requires At(s, p) && s.procs[p].phase.Recording? && s.procs[p].phase.next < |References(s.procs[p].e)|
    requires WorkOk(AuditHalfStep(s, p, now, fault).db, s.log, s.procs[p])
    ensures var t := AuditHalfStep(s, p, now, fault); WorkOk(t.db, t.log, t.procs[p])
  {
    hide Stored, ValidHalf, RecordHalf, HalfAnswered, References;
  }

  lemma AbortWork(s: Sys, p: nat, now: int, fault: Fault)
    requires At(s, p) && (s.procs[p].phase.AbortingUnstarted? || s.procs[p].phase.AbortingReported?)
    requires WorkOk(AbortStep(s, p, now, fault).db, s.log, s.procs[p])
    ensures var t := AbortStep(s, p, now, fault); WorkOk(t.db, t.log, t.procs[p])
  {
    hide Stored, Abort;
  }

  lemma ReadWork(s: Sys, p: nat, failed: bool)
    requires At(s, p) && s.procs[p].phase.Proving? && WorkOk(s.db, s.log, s.procs[p])
    ensures WorkOk(s.db, s.log, AfterRead(s.db, s.procs[p], failed))
  {
    hide Stored, EvidenceFor, References, DecideLocal;
  }

  lemma EndBranchWork(s: Sys, p: nat, acked: bool)
    requires At(s, p) && s.procs[p].phase.Finalizing? && WorkOk(s.db, s.log, s.procs[p]) && ProcOk(s.db, s.log, p, s.procs[p])
    ensures var t := EndBranchStep(s, p, acked); WorkOk(t.db, t.log, t.procs[p])
  {
    hide Stored, ValidExecution, Truthful;
    var x, t := s.procs[p], EndBranchStep(s, p, acked);
    var k, d := x.phase.next, x.phase.decision;
    SentStable(s.log, t.log, x.e, x.handles, k, d);
    if k < BranchCount(x) && k in x.handles {
      assert Ended(IdOf(x.e), x.e.plan.branches[k].id, d, acked) in t.log;
    }
  }

  lemma AuditFinalWork(s: Sys, p: nat, now: int, fault: Fault)
    requires At(s, p) && s.procs[p].phase.RecordingFinal? && s.procs[p].phase.next < |References(s.procs[p].e)|
    requires WorkOk(AuditFinalStep(s, p, now, fault).db, s.log, s.procs[p])
    ensures var t := AuditFinalStep(s, p, now, fault); WorkOk(t.db, t.log, t.procs[p])
  {
    hide Stored, RecordFinal, References, AllSent;
  }

  lemma RecoverWork(s: Sys, p: nat, acked: bool)
    requires p in s.procs && s.procs[p].Checker? && s.procs[p].decision != Unknown
    ensures var t := RecoverStep(s, p, acked); p in t.procs ==> WorkOk(t.db, t.log, t.procs[p])
  {
    var x, t := s.procs[p], RecoverStep(s, p, acked);
    assert Ended(ExecutionOf(x.ref), x.ref.branchId, x.decision, acked) in t.log;
  }

  lemma OtherWork(s: Sys, ev: Event)
    requires ev.Execute? || ev.Cancel? || ev.RunLocal? || ev.LocalReturned? || ev.Check?
    requires ev.p in s.procs ==> WorkOk(s.db, s.log, s.procs[ev.p])
    ensures ev.p in Next(s, ev).procs ==> WorkOk(Next(s, ev).db, Next(s, ev).log, Next(s, ev).procs[ev.p])
  {
    hide Stored, EvidenceFor, Resolve, ValidExecution, AllSent;
    if ev.p in s.procs && ev.RunLocal? { WorkLogged(s.db, s.log, Next(s, ev).log, s.procs[ev.p]); }
  }

  lemma WorkLogged(db: Db, log: seq<Action>, log': seq<Action>, x: Proc)
    requires log <= log' && WorkOk(db, log, x)
    ensures WorkOk(db, log', x)
  {
    hide Evolves, WorkOk;
    EvolvesRefl(db);
    WorkStable(db, db, log, log', x);
  }

  lemma MoverWork(s: Sys, ev: Event)
    requires SysInv(s) && WorkInv(s) && !ev.Env? && Next(s, ev) != s && ev.p in Next(s, ev).procs
    ensures WorkOk(Next(s, ev).db, Next(s, ev).log, Next(s, ev).procs[ev.p])
  {
    hide Inv, Evolves, WorkOk, ActionOk, NoClash, BeginStep, SendHalfStep, AuditHalfStep, AbortStep, EndBranchStep, AuditFinalStep, RecoverStep,
      CheckStep, AfterRead, References, PhaseOk, ValidExecution, Truthful;
    var t := Next(s, ev);
    NextEvolves(s, ev);
    if ev.p in s.procs {
      assert WorkOk(s.db, s.log, s.procs[ev.p]) && ProcOk(s.db, s.log, ev.p, s.procs[ev.p]);
      WorkStable(s.db, t.db, s.log, s.log, s.procs[ev.p]);
    }
    match ev
    case Begin(p, now, fault) => BeginWork(s, p, now, fault);
    case SendHalf(p, receipt, handle, failed) => SendHalfWork(s, p, receipt, handle, failed);
    case AuditHalf(p, now, fault) => AuditHalfWork(s, p, now, fault);
    case AbortNow(p, now, fault) => AbortWork(s, p, now, fault);
    case ReadEvidence(p, failed) => ReadWork(s, p, failed);
    case EndBranch(p, acked) => EndBranchWork(s, p, acked);
    case AuditFinal(p, now, fault) => AuditFinalWork(s, p, now, fault);
    case Recover(p, acked) => RecoverWork(s, p, acked);
    case Crash(_) =>
    case AuditRecovery(_, _, _) =>
    case _ => OtherWork(s, ev);
  }

  lemma NextEvolves(s: Sys, ev: Event)
    requires SysInv(s)
    ensures Evolves(s.db, Next(s, ev).db) && s.log <= Next(s, ev).log
  {
    hide Inv, Evolves, Next, Apply, EventOp, ProcOk, ActionOk, NoClash;
    EventRefinesStore(s, ev);
    EvolvesRefl(s.db);
    if EventOp(s, ev).Some? { ApplyKeeps(s.db, EventOp(s, ev).value); }
  }

  lemma NextKeepsWork(s: Sys, ev: Event)
    requires SysInv(s) && WorkInv(s)
    ensures WorkInv(Next(s, ev))
  {
    hide SysInv, WorkOk, Next, Evolves;
    var t := Next(s, ev);
    NextEvolves(s, ev);
    forall q | q in t.procs ensures WorkOk(t.db, t.log, t.procs[q]) {
      if Mover(ev, q) {
        if t != s { MoverWork(s, ev); }
      } else {
        OthersStand(s, ev, q);
        WorkStable(s.db, t.db, s.log, t.log, s.procs[q]);
      }
    }
  }

  lemma {:induction false} RunKeepsWork(s: Sys, evs: seq<Event>)
    requires SysInv(s) && WorkInv(s)
    ensures WorkInv(RunSys(s, evs))
    decreases |evs|
  {
    hide SysInv, WorkInv, Next;
    if evs != [] {
      NextKeepsWork(s, evs[0]);
      NextKeeps(s, evs[0]);
      RunKeepsWork(Next(s, evs[0]), evs[1..]);
    }
  }

  lemma ReachedWork(evs: seq<Event>)
    ensures WorkInv(Reached(evs))
  {
    hide RunSys, SysInv;
    InitGate();
    RunKeepsWork(InitSys(), evs);
  }

  // ---- Nothing proven stays unsent --------------------------------------------------------

  /** An Execute call that ended knowing the local outcome, other than one that only
      reported somebody else's, has sent the matching end-transaction request for every
      branch of its plan. */
  lemma KnownOutcomeSent(evs: seq<Event>, p: nat, j: nat)
    requires At(Reached(evs), p) && Reached(evs).procs[p].phase.Done? && Reached(evs).procs[p].handles != {}
    requires j < |Reached(evs).procs[p].e.plan.branches|
    ensures var s := Reached(evs); var x := s.procs[p];
      && (x.local == LocalCommitted ==> Sent(s.log, IdOf(x.e), x.e.plan.branches[j].id, Commit))
      && (x.local == LocalAborted ==> Sent(s.log, IdOf(x.e), x.e.plan.branches[j].id, Rollback))
  {
    hide RunSys, Stored, Sent;
    ReachedWork(evs);
    var s := Reached(evs);
    assert WorkOk(s.db, s.log, s.procs[p]);
  }

  // ---- Nothing unacknowledged is recorded -------------------------------------------------

  /** The branch's half was sent and answered as a valid prepared half with these ids. */
  ghost predicate PreparedBy(log: seq<Action>, p: Plan, id: ExecutionId, branchId: string, a: Audit) {
    exists k: nat, r :: k < |p.branches| && p.branches[k].id == branchId && HalfSent(id, k, r) in log
      && ValidHalf(r.receipt) && r.receipt.outcome == HalfPrepared
      && r.receipt.messageId == a.messageId && r.receipt.transactionId == a.transactionId
  }

  ghost predicate AuditLogged(log: seq<Action>, p: Plan, id: ExecutionId, branchId: string, a: Audit) {
    && (a.half == HalfPrepared ==> PreparedBy(log, p, id, branchId, a))
    && (a.final == FinalCommitConfirmed ==> Ended(id, branchId, Commit, true) in log)
    && (a.final == FinalRollbackConfirmed ==> Ended(id, branchId, Rollback, true) in log)
  }

  ghost predicate AuditsLogged(db: Db, log: seq<Action>) {
    forall id, k :: id in db.executions && id in db.witnesses && k in db.witnesses[id] ==>
      AuditLogged(log, db.executions[id].plan, id, k, db.witnesses[id][k].audit)
  }

  /** Receipts are recorded by the senders alone. */
  predicate NoForeignReceipts(evs: seq<Event>) { forall i :: 0 <= i < |evs| ==> !(evs[i].Env? && Receipt(evs[i].op)) }

  lemma LoggedStable(log: seq<Action>, log': seq<Action>, p: Plan, id: ExecutionId, branchId: string, a: Audit)
    requires log <= log' && AuditLogged(log, p, id, branchId, a)
    ensures AuditLogged(log', p, id, branchId, a)
  {
    hide ValidHalf;
    assert forall x :: x in log ==> x in log';
    if a.half == HalfPrepared {
      var k: nat, r :| k < |p.branches| && p.branches[k].id == branchId && HalfSent(id, k, r) in log
        && ValidHalf(r.receipt) && r.receipt.outcome == HalfPrepared
      && r.receipt.messageId == a.messageId && r.receipt.transactionId == a.transactionId;
      assert HalfSent(id, k, r) in log';
    }
  }

  /** A transaction that records no receipt. */
  lemma PlainStep(db: Db, op: Op, log: seq<Action>)
    requires Inv(db) && AuditsLogged(db, log) && !Receipt(op)
    ensures AuditsLogged(Apply(db, op), log)
  {
    hide Inv, Apply, AuditLogged;
    var db' := Apply(db, op);
    ApplyKeeps(db, op);
    SameKeys(db);
    forall id, k | id in db'.executions && id in db'.witnesses && k in db'.witnesses[id]
      ensures AuditLogged(log, db'.executions[id].plan, id, k, db'.witnesses[id][k].audit)
    {
      if id in db.executions {
        AuditsKept(db, op, id);
        assert RowGrows(db.executions[id], db'.executions[id]);
      } else {
        NewlyWitnessed(db, op, id, k);
        assert AuditLogged(log, db'.executions[id].plan, id, k, NEW_AUDIT) by { NothingLogged(log, db'.executions[id].plan, id, k); }
      }
    }
  }

  lemma SameKeys(db: Db)
    requires Inv(db)
    ensures db.witnesses.Keys == db.executions.Keys
  {
    hide RowOk, WitnessesOk, RequestsOk, HostsOk;
  }

  lemma NothingLogged(log: seq<Action>, p: Plan, id: ExecutionId, k: string)
    ensures AuditLogged(log, p, id, k, NEW_AUDIT)
  {
  }

  lemma AuditStep(db: Db, db': Db, log: seq<Action>, i: ExecutionId, k: string, a: Audit)
    requires AuditsLogged(db, log) && OneAudit(db, db', i, k, a)
    requires i in db.executions && AuditLogged(log, db.executions[i].plan, i, k, a)
    ensures AuditsLogged(db', log)
  {
    hide AuditLogged;
  }

  lemma HalfStep(s: Sys, p: nat, now: int)
    requires SysInv(s) && WorkInv(s) && AuditsLogged(s.db, s.log)
    requires At(s, p) && s.procs[p].phase.Recording? && s.procs[p].phase.next < |References(s.procs[p].e)|
    ensures var x := s.procs[p];
      AuditsLogged(RecordHalf(s.db, x.b, x.e, References(x.e)[x.phase.next], x.phase.receipt, now).db, s.log)
  {
    hide Inv, Frozen, NoClash, ActionOk, PutAudit, AuditsLogged, PhaseOk, Truthful, Upto, Below;
    var x := s.procs[p];
    var k, h, ref := x.phase.next, x.phase.receipt, References(x.e)[x.phase.next];
    var step := RecordHalf(s.db, x.b, x.e, ref, h, now);
    assert WorkOk(s.db, s.log, x) && ProcOk(s.db, s.log, p, x);
    if step.result.Ok? {
      var id, w := IdOf(x.e), ReceiptCheck(s.db, x.b, x.e, ref).value;
      PutsOne(s.db, id, ref.branchId, HalfAudit(w.audit, h, now));
      assert AuditLogged(s.log, x.e.plan, id, ref.branchId, w.audit) by { LoggedAt(s.db, s.log, id, ref.branchId); }
      AuditedHalfLogged(s.log, x.e, k, h, w.audit, now);
      AuditStep(s.db, step.db, s.log, id, ref.branchId, HalfAudit(w.audit, h, now));
    }
  }

  lemma LoggedAt(db: Db, log: seq<Action>, id: ExecutionId, k: string)
    requires AuditsLogged(db, log) && id in db.executions && id in db.witnesses && k in db.witnesses[id]
    ensures AuditLogged(log, db.executions[id].plan, id, k, db.witnesses[id][k].audit)
  {
  }

  lemma AuditedHalfLogged(log: seq<Action>, e: Execution, k: nat, h: HalfReceipt, a: Audit, now: int)
    requires k < |e.plan.branches| && HalfAnswered(log, IdOf(e), k, h)
    requires AuditLogged(log, e.plan, IdOf(e), e.plan.branches[k].id, a)
    ensures AuditLogged(log, e.plan, IdOf(e), e.plan.branches[k].id, HalfAudit(a, h, now))
  {
    if h.outcome == HalfPrepared {
      var r :| HalfSent(IdOf(e), k, r) in log && h == Checked(r.receipt);
      assert PreparedBy(log, e.plan, IdOf(e), e.plan.branches[k].id, HalfAudit(a, h, now));
    }
  }

  lemma FinalStep(s: Sys, p: nat, code: string, now: int)
    requires SysInv(s) && WorkInv(s) && AuditsLogged(s.db, s.log)
    requires At(s, p) && s.procs[p].phase.RecordingFinal? && s.procs[p].phase.next < |References(s.procs[p].e)|
    ensures var x := s.procs[p];
      AuditsLogged(RecordFinal(s.db, x.b, x.e, References(x.e)[x.phase.next], x.phase.outcome, code, now).db, s.log)
  {
    hide Inv, Frozen, NoClash, ActionOk, PutAudit, AuditsLogged, PhaseOk, Truthful, Upto, Below, PreparedBy;
    var x := s.procs[p];
    var k, f, ref := x.phase.next, x.phase.outcome, References(x.e)[x.phase.next];
    var step := RecordFinal(s.db, x.b, x.e, ref, f, code, now);
    assert WorkOk(s.db, s.log, x) && ProcOk(s.db, s.log, p, x);
    if step.result.Ok? {
      var id, w := IdOf(x.e), ReceiptCheck(s.db, x.b, x.e, ref).value;
      PutsOne(s.db, id, ref.branchId, FinalAudit(w.audit, f, code, now));
      LoggedAt(s.db, s.log, id, ref.branchId);
      SamePrepared(s.log, x.e.plan, id, ref.branchId, w.audit, FinalAudit(w.audit, f, code, now));
      AuditStep(s.db, step.db, s.log, id, ref.branchId, FinalAudit(w.audit, f, code, now));
    }
  }

  lemma SamePrepared(log: seq<Action>, p: Plan, id: ExecutionId, k: string, a: Audit, b: Audit)
    requires a.half == b.half && a.messageId == b.messageId && a.transactionId == b.transactionId
    ensures PreparedBy(log, p, id, k, a) ==> PreparedBy(log, p, id, k, b)
  {
  }

  lemma RecoveryStep(s: Sys, p: nat, now: int)
    requires SysInv(s) && WorkInv(s) && AuditsLogged(s.db, s.log) && p in s.procs && s.procs[p].Auditor?
    ensures var x := s.procs[p]; AuditsLogged(RecordRecoveryFinal(s.db, x.b, x.ref, x.outcome, now).db, s.log)
  {
    hide Inv, Frozen, NoClash, ActionOk, PutAudit, AuditsLogged, PreparedBy;
    var x := s.procs[p];
    var step := RecordRecoveryFinal(s.db, x.b, x.ref, x.outcome, now);
    assert WorkOk(s.db, s.log, x);
    var c := RecoveryCheck(s.db, x.b, x.ref, x.outcome);
    if c.Ok? && c.value.audit.final != x.outcome {
      var id, a := ExecutionOf(x.ref), FinalAudit(c.value.audit, x.outcome, "", now);
      PutsOne(s.db, id, x.ref.branchId, a);
      LoggedAt(s.db, s.log, id, x.ref.branchId);
      SamePrepared(s.log, s.db.executions[id].plan, id, x.ref.branchId, c.value.audit, a);
      AuditStep(s.db, step.db, s.log, id, x.ref.branchId, a);
    }
  }

  lemma NextKeepsLogged(s: Sys, ev: Event)
    requires SysInv(s) && WorkInv(s) && AuditsLogged(s.db, s.log) && !(ev.Env? && Receipt(ev.op))
    ensures AuditsLogged(Next(s, ev).db, Next(s, ev).log)
  {
    var t := Next(s, ev);
    assert AuditsLogged(t.db, s.log) by { DbLogged(s, ev); }
    NextEvolves(s, ev);
    hide SysInv, WorkInv, Next, AuditLogged;
    forall id, k | id in t.db.executions && id in t.db.witnesses && k in t.db.witnesses[id]
      ensures AuditLogged(t.log, t.db.executions[id].plan, id, k, t.db.witnesses[id][k].audit)
    {
      LoggedStable(s.log, t.log, t.db.executions[id].plan, id, k, t.db.witnesses[id][k].audit);
    }
  }

  lemma DbLogged(s: Sys, ev: Event)
    requires SysInv(s) && WorkInv(s) && AuditsLogged(s.db, s.log) && !(ev.Env? && Receipt(ev.op))
    ensures AuditsLogged(Next(s, ev).db, s.log)
  {
    hide SysInv, WorkInv, AuditsLogged, Next, RecordHalf, RecordFinal, RecordRecoveryFinal, References,
      Reserve, Advance, BeginPrepare, Abort, Bind, CommitWitness, HostCommit, SetBinding, EndHost;
    EventRefinesStore(s, ev);
    var op := EventOp(s, ev);
    if op.Some? {
      match op.value
      case OpRecordHalf(_, _, _, _, now) => HalfStep(s, ev.p, now);
      case OpRecordFinal(_, _, _, _, code, now) => FinalStep(s, ev.p, code, now);
      case OpRecoveryFinal(_, _, _, now) => RecoveryStep(s, ev.p, now);
      case _ => InvOf(s); PlainStep(s.db, op.value, s.log);
    }
  }

  lemma {:induction false} RunKeepsLogged(s: Sys, evs: seq<Event>)
    requires SysInv(s) && WorkInv(s) && AuditsLogged(s.db, s.log) && NoForeignReceipts(evs)
    ensures AuditsLogged(RunSys(s, evs).db, RunSys(s, evs).log)
    decreases |evs|
  {
    hide SysInv, WorkInv, AuditsLogged, Next;
    if evs != [] {
      assert !(evs[0].Env? && Receipt(evs[0].op));
      NextKeepsLogged(s, evs[0]);
      NextKeepsWork(s, evs[0]);
      NextKeeps(s, evs[0]);
      RunKeepsLogged(Next(s, evs[0]), evs[1..]);
    }
  }

  /** What the witnesses say of the broker is what the broker answered: a confirmed final
      outcome has an acknowledged request of that execution, branch and decision behind
      it, and a prepared half a valid prepared answer with the recorded identities. */
  lemma RecordedMeansAnswered(evs: seq<Event>, id: ExecutionId, branchId: string)
    requires NoForeignReceipts(evs)
    requires id in Reached(evs).db.executions && id in Reached(evs).db.witnesses && branchId in Reached(evs).db.witnesses[id]
    ensures var s := Reached(evs); var a := s.db.witnesses[id][branchId].audit;
      && (a.final == FinalCommitConfirmed ==> Ended(id, branchId, Commit, true) in s.log)
      && (a.final == FinalRollbackConfirmed ==> Ended(id, branchId, Rollback, true) in s.log)
      && (a.half == HalfPrepared ==> PreparedBy(s.log, s.db.executions[id].plan, id, branchId, a))
  {
    hide RunSys, SysInv, PreparedBy;
    InitGate();
    RunKeepsLogged(InitSys(), evs);
    LoggedAt(Reached(evs).db, Reached(evs).log, id, branchId);
  }
}
