/** Any number of processes running Execute and answering broker recovery checks
    against one database, with crashes, lost acknowledgements and unrelated
    database clients in between. A database transaction, one evidence read or one
    broker call is one event; every outcome the environment controls is carried
    by the event. The log records what was asked of the broker and of the host, and
    what the broker answered. */
module SenderSystem {
  import opened Protocol
  import opened TransactionTables

  datatype ProofMode = Report | Unstarted | AfterLocal(reported: LocalOutcome)

  /** Where an Execute call stands. Sending(k): branches before k have a durable
      prepared half; Sending(number of branches) is the point before local work. */
  datatype Phase =
    | Beginning
    | Sending(next: nat)
    | Recording(next: nat, receipt: HalfReceipt, usable: bool)
    | LocalRunning
    | AbortingUnstarted
    | AbortingReported
    | Proving(mode: ProofMode, seen: seq<Option<Evidence>>)
    | Finalizing(decision: Decision, next: nat)
    | RecordingFinal(decision: Decision, next: nat, outcome: FinalOutcome)
    | Done

  /** An Execute call with its broker handles and the local outcome it reports so
      far; a recovery check that has decided; one whose acknowledged decision is
      still to be audited. */
  datatype Proc =
    | Executor(b: Binding, e: Execution, handles: set<nat>, local: LocalOutcome, phase: Phase)
    | Checker(b: Binding, ref: Reference, decision: Decision)
    | Auditor(b: Binding, ref: Reference, outcome: FinalOutcome)

  /** What a prepare call came back with: a receipt, perhaps a handle, perhaps an error. */
  datatype HalfAnswer = HalfAnswer(receipt: HalfReceipt, handle: bool, failed: bool)

  datatype Action =
    | Begun(p: nat, id: ExecutionId)
    | HalfSent(id: ExecutionId, branch: nat, answer: HalfAnswer)
    | LocalRan(id: ExecutionId)
    | Ended(id: ExecutionId, branchId: string, decision: Decision, acked: bool)

  datatype Sys = Sys(db: Db, procs: map<nat, Proc>, log: seq<Action>)

  /** Lost: the call failed without effect. AckLost: it took effect and the caller
      still saw an error. */
  datatype Fault = NoFault | Lost | AckLost

  datatype Event =
    | Env(op: Op)
    | Execute(p: nat, b: Binding, e: Execution)
    | Crash(p: nat)
    | Begin(p: nat, now: int, fault: Fault)
    | Cancel(p: nat)
    | SendHalf(p: nat, receipt: HalfReceipt, handle: bool, failed: bool)
    | AuditHalf(p: nat, now: int, fault: Fault)
    | RunLocal(p: nat)
    | LocalReturned(p: nat, reported: LocalOutcome)
    | AbortNow(p: nat, now: int, fault: Fault)
    | ReadEvidence(p: nat, failed: bool)
    | EndBranch(p: nat, acked: bool)
    | AuditFinal(p: nat, now: int, fault: Fault)
    | Check(p: nat, b: Binding, ref: Reference)
    | Recover(p: nat, acked: bool)
    | AuditRecovery(p: nat, now: int, fault: Fault)

  function InitSys(): Sys { Sys(Init(), map[], []) }

  // ---- One call against the database, with its fault -------------------------------

  function DbAfter<T>(db: Db, step: Step<T>, fault: Fault): Db {
    if fault == Lost then db else step.db
  }

  function Seen<T>(step: Step<T>, fault: Fault): Outcome<T> {
    if fault == NoFault then step.result else Err(ErrLockWait)
  }

  // ---- Execute, phase by phase -------------------------------------------------------

  function BranchCount(x: Proc): nat
    requires x.Executor?
  {
    |x.e.plan.branches|
  }

  function AfterBegin(x: Proc, r: Outcome<()>): Proc
    requires x.Executor?
  {
    if r.Ok? then x.(phase := Sending(0))
    else if r.error == ErrStale then x.(phase := Proving(Report, []))
    else x.(phase := Done)
  }

  function AfterHalfAudit(x: Proc, r: Outcome<()>): Proc
    requires x.Executor? && x.phase.Recording?
  {
    if r.Err? || !x.phase.usable then x.(phase := AbortingUnstarted) else x.(phase := Sending(x.phase.next + 1))
  }

  function AfterAbort(x: Proc, r: Outcome<bool>): Proc
    requires x.Executor?
  {
    if x.phase.AbortingUnstarted? then
      if r.Err? then x.(phase := Done)
      else if r.value then x.(phase := Finalizing(Rollback, 0))
      else x.(phase := Proving(Unstarted, []))
    else
      if r == Ok(true) then x.(local := LocalAborted, phase := Finalizing(Rollback, 0))
      else x.(local := LocalUnknown, phase := Done)
  }

  /** What Execute does with the outcome its evidence establishes. */
  function Conclude(x: Proc, known: LocalOutcome): Proc
    requires x.Executor? && x.phase.Proving?
  {
    match x.phase.mode
    case Report => x.(local := known, phase := Done)
    case Unstarted => if known == LocalAborted then x.(phase := Finalizing(Rollback, 0)) else x.(phase := Done)
    case AfterLocal(reported) =>
      if known == LocalUnknown && reported == LocalAborted then x.(phase := AbortingReported)
      else if known == LocalCommitted then x.(local := known, phase := Finalizing(Commit, 0))
      else if known == LocalAborted then x.(local := known, phase := Finalizing(Rollback, 0))
      else x.(local := LocalUnknown, phase := Done)
  }

  function AfterRead(db: Db, x: Proc, failed: bool): Proc
    requires x.Executor? && x.phase.Proving?
  {
    var refs := References(x.e);
    var n := |x.phase.seen|;
    if failed || n >= |refs| then Conclude(x, LocalUnknown)
    else
      var r := EvidenceFor(db, x.b, refs[n]);
      if r.Err? then Conclude(x, LocalUnknown)
      else
        var seen := x.phase.seen + [r.value];
        var y := x.(phase := x.phase.(seen := seen));
        if n + 1 < |refs| then y else Conclude(y, DecideLocal(refs, seen))
  }

  function Confirmed(d: Decision, acked: bool): FinalOutcome {
    if !acked then FinalUnknown else if d == Commit then FinalCommitConfirmed else FinalRollbackConfirmed
  }

  // ---- Events ---------------------------------------------------------------------------

  function Put(s: Sys, p: nat, x: Proc): Sys {
    s.(procs := s.procs[p := x])
  }

  predicate At(s: Sys, p: nat) {
    p in s.procs && s.procs[p].Executor?
  }

  function Next(s: Sys, ev: Event): Sys {
    match ev
    case Env(op) => s.(db := Apply(s.db, op))
    case Execute(p, b, e) =>
      if p !in s.procs && ValidExecution(e) && e.plan.owner == b.owner && e.epoch == b.epoch
      then Put(s, p, Executor(b, e, {}, LocalNotStarted, Beginning)) else s
    case Crash(p) => s.(procs := s.procs - {p})
    case Begin(p, now, fault) => if At(s, p) && s.procs[p].phase.Beginning? then BeginStep(s, p, now, fault) else s
    case Cancel(p) =>
      if At(s, p) && s.procs[p].phase.Sending? then Put(s, p, s.procs[p].(phase := AbortingUnstarted)) else s
    case SendHalf(p, receipt, handle, failed) =>
      if At(s, p) && s.procs[p].phase.Sending? && s.procs[p].phase.next < BranchCount(s.procs[p])
      then SendHalfStep(s, p, receipt, handle, failed) else s
    case AuditHalf(p, now, fault) =>
      if At(s, p) && s.procs[p].phase.Recording? && s.procs[p].phase.next < |References(s.procs[p].e)|
      then AuditHalfStep(s, p, now, fault) else s
    case RunLocal(p) =>
      if At(s, p) && s.procs[p].phase == Sending(BranchCount(s.procs[p]))
      then Put(s, p, s.procs[p].(phase := LocalRunning)).(log := s.log + [LocalRan(IdOf(s.procs[p].e))]) else s
    case LocalReturned(p, reported) =>
      if At(s, p) && s.procs[p].phase.LocalRunning?
      then Put(s, p, s.procs[p].(phase := Proving(AfterLocal(reported), []))) else s
    case AbortNow(p, now, fault) =>
      if At(s, p) && (s.procs[p].phase.AbortingUnstarted? || s.procs[p].phase.AbortingReported?)
      then AbortStep(s, p, now, fault) else s
    case ReadEvidence(p, failed) =>
      if At(s, p) && s.procs[p].phase.Proving? then Put(s, p, AfterRead(s.db, s.procs[p], failed)) else s
    case EndBranch(p, acked) => if At(s, p) && s.procs[p].phase.Finalizing? then EndBranchStep(s, p, acked) else s
    case AuditFinal(p, now, fault) =>
      if At(s, p) && s.procs[p].phase.RecordingFinal? && s.procs[p].phase.next < |References(s.procs[p].e)|
      then AuditFinalStep(s, p, now, fault) else s
    case Check(p, b, ref) => if p !in s.procs then CheckStep(s, p, b, ref) else s
    case Recover(p, acked) => if p in s.procs && s.procs[p].Checker? then RecoverStep(s, p, acked) else s
    case AuditRecovery(p, now, fault) =>
      if p in s.procs && s.procs[p].Auditor?
      then s.(db := DbAfter(s.db, RecordRecoveryFinal(s.db, s.procs[p].b, s.procs[p].ref, s.procs[p].outcome, now), fault),
              procs := s.procs - {p})
      else s
  }

  function BeginStep(s: Sys, p: nat, now: int, fault: Fault): Sys
    requires At(s, p)
  {
    var x := s.procs[p];
    var step := BeginPrepare(s.db, x.b, x.e, now);
    var r := Seen(step, fault);
    Sys(DbAfter(s.db, step, fault), s.procs[p := AfterBegin(x, r)], if r.Ok? then s.log + [Begun(p, IdOf(x.e))] else s.log)
  }

  /** An invalid receipt is downgraded to unknown before it is audited. */
  function Checked(receipt: HalfReceipt): HalfReceipt {
    if ValidHalf(receipt) then receipt else HalfReceipt(HalfUnknown, "", "", "invalid_half_receipt")
  }

  function SendHalfStep(s: Sys, p: nat, receipt: HalfReceipt, handle: bool, failed: bool): Sys
    requires At(s, p) && s.procs[p].phase.Sending?
  {
    var x := s.procs[p];
    var k := x.phase.next;
    var h := Checked(receipt);
    var usable := !failed && ValidHalf(receipt) && h.outcome == HalfPrepared && handle;
    var y := x.(handles := if handle then x.handles + {k} else x.handles, phase := Recording(k, h, usable));
    Put(s, p, y).(log := s.log + [HalfSent(IdOf(x.e), k, HalfAnswer(receipt, handle, failed))])
  }

  function AuditHalfStep(s: Sys, p: nat, now: int, fault: Fault): Sys
    requires At(s, p) && s.procs[p].phase.Recording? && s.procs[p].phase.next < |References(s.procs[p].e)|
  {
    var x := s.procs[p];
    var step := RecordHalf(s.db, x.b, x.e, References(x.e)[x.phase.next], x.phase.receipt, now);
    Put(s.(db := DbAfter(s.db, step, fault)), p, AfterHalfAudit(x, Seen(step, fault)))
  }

  function AbortStep(s: Sys, p: nat, now: int, fault: Fault): Sys
    requires At(s, p)
  {
    var x := s.procs[p];
    var step := Abort(s.db, x.b, x.e, false, now);
    Put(s.(db := DbAfter(s.db, step, fault)), p, AfterAbort(x, Seen(step, fault)))
  }

  /** Branches without a handle are skipped. */
  function EndBranchStep(s: Sys, p: nat, acked: bool): Sys
    requires At(s, p) && s.procs[p].phase.Finalizing?
  {
    var x := s.procs[p];
    var k, d := x.phase.next, x.phase.decision;
    if k >= BranchCount(x) then Put(s, p, x.(phase := Done))
    else if k !in x.handles then Put(s, p, x.(phase := Finalizing(d, k + 1)))
    else Put(s, p, x.(phase := RecordingFinal(d, k, Confirmed(d, acked)))).(
           log := s.log + [Ended(IdOf(x.e), x.e.plan.branches[k].id, d, acked)])
  }

  function AuditFinalStep(s: Sys, p: nat, now: int, fault: Fault): Sys
    requires At(s, p) && s.procs[p].phase.RecordingFinal? && s.procs[p].phase.next < |References(s.procs[p].e)|
  {
    var x := s.procs[p];
    var f := x.phase.outcome;
    var code := if f == FinalUnknown then "final_rpc_unknown" else "";
    var step := RecordFinal(s.db, x.b, x.e, References(x.e)[x.phase.next], f, code, now);
    Put(s.(db := DbAfter(s.db, step, fault)), p, x.(phase := Finalizing(x.phase.decision, x.phase.next + 1)))
  }

  /** A broker recovery check reads its one branch; only a decided check answers. */
  function CheckStep(s: Sys, p: nat, b: Binding, ref: Reference): Sys {
    var r := EvidenceFor(s.db, b, ref);
    if r.Ok? && Resolve(ref, r.value) != Unknown then Put(s, p, Checker(b, ref, Resolve(ref, r.value))) else s
  }

  function RecoverStep(s: Sys, p: nat, acked: bool): Sys
    requires p in s.procs && s.procs[p].Checker?
  {
    var x := s.procs[p];
    var log := s.log + [Ended(ExecutionOf(x.ref), x.ref.branchId, x.decision, acked)];
    if acked then Sys(s.db, s.procs[p := Auditor(x.b, x.ref, Confirmed(x.decision, true))], log)
    else Sys(s.db, s.procs - {p}, log)
  }

  function RunSys(s: Sys, evs: seq<Event>): Sys
    decreases |evs|
  {
    if evs == [] then s else RunSys(Next(s, evs[0]), evs[1..])
  }
}
