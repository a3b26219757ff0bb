/** Safety of every interleaving of Execute calls, recovery checks, crashes and
    other database clients. */
module SenderSafety {
  import opened Protocol
  import opened TransactionTables
  import opened TransactionInvariants
  import opened TransactionSafety
  import opened SenderSystem

  // ---- Facts about the tables that no later transaction can undo ---------------------

  predicate Decided(db: Db, id: ExecutionId, d: Decision) {
    && (d == Commit ==> id in db.executions && db.executions[id].state == Committed)
    && (d == Rollback ==> id in db.executions && db.executions[id].state == Aborted)
  }

  predicate HalfDone(db: Db, id: ExecutionId, branch: string) {
    id in db.witnesses && branch in db.witnesses[id] && db.witnesses[id][branch].audit.half == HalfPrepared
  }

  predicate HalvesDone(db: Db, e: Execution, k: nat) {
    k <= |e.plan.branches| && forall i :: 0 <= i < k ==> HalfDone(db, IdOf(e), e.plan.branches[i].id)
  }

  predicate Started(db: Db, id: ExecutionId) {
    id in db.executions && db.executions[id].started
  }

  predicate Stored(db: Db, e: Execution) {
    IdOf(e) in db.executions && db.executions[IdOf(e)].plan == e.plan && db.executions[IdOf(e)].token == e.token
  }

  /** Every branch of the stored plan has a durable prepared half. */
  predicate AllHalves(db: Db, id: ExecutionId) {
    id in db.executions && forall b :: b in db.executions[id].plan.branches ==> HalfDone(db, id, b.id)
  }

  predicate Truthful(db: Db, id: ExecutionId, local: LocalOutcome) {
    && (local == LocalCommitted ==> Decided(db, id, Commit))
    && (local == LocalAborted ==> Decided(db, id, Rollback))
  }

  lemma HalfStable(a: Db, b: Db, id: ExecutionId, branch: string)
    requires Evolves(a, b) && HalfDone(a, id, branch)
    ensures HalfDone(b, id, branch)
  {
    assert WitnessesGrow(a.witnesses[id], b.witnesses[id]);
    assert WitnessGrows(a.witnesses[id][branch], b.witnesses[id][branch]);
  }

  lemma RowStable(a: Db, b: Db, id: ExecutionId)
    requires Evolves(a, b)
    ensures forall d :: Decided(a, id, d) ==> Decided(b, id, d)
    ensures Started(a, id) ==> Started(b, id)
    ensures AllHalves(a, id) ==> AllHalves(b, id)
  {
    if id in a.executions {
      assert RowGrows(a.executions[id], b.executions[id]);
      if AllHalves(a, id) {
        forall x | x in b.executions[id].plan.branches ensures HalfDone(b, id, x.id) {
          HalfStable(a, b, id, x.id);
        }
      }
    }
  }

  lemma ExecutionStable(a: Db, b: Db, e: Execution)
    requires Evolves(a, b)
    ensures Stored(a, e) ==> Stored(b, e)
    ensures forall k: nat :: HalvesDone(a, e, k) ==> HalvesDone(b, e, k)
    ensures forall l :: Truthful(a, IdOf(e), l) ==> Truthful(b, IdOf(e), l)
  {
    if Stored(a, e) { assert RowGrows(a.executions[IdOf(e)], b.executions[IdOf(e)]); }
    forall k: nat | HalvesDone(a, e, k) ensures HalvesDone(b, e, k) {
      forall i | 0 <= i < k ensures HalfDone(b, IdOf(e), e.plan.branches[i].id) {
        HalfStable(a, b, IdOf(e), e.plan.branches[i].id);
      }
    }
    RowStable(a, b, IdOf(e));
  }

  // ---- The invariant -------------------------------------------------------------------

  predicate NoHalfFrom(log: seq<Action>, id: ExecutionId, k: nat) {
    forall i :: 0 <= i < |log| && log[i].HalfSent? && log[i].id == id ==> log[i].branch < k
  }

  /** The process that consumed the capability and has not run local work yet. */
  predicate Sender(log: seq<Action>, p: nat, e: Execution, k: nat) {
    Begun(p, IdOf(e)) in log && NoHalfFrom(log, IdOf(e), k) && LocalRan(IdOf(e)) !in log
  }

  predicate SeenOk(db: Db, e: Execution, seen: seq<Option<Evidence>>) {
    && |seen| <= |References(e)|
    && forall i :: 0 <= i < |seen| ==> Decided(db, IdOf(e), Resolve(References(e)[i], seen[i]))
  }

  predicate PhaseOk(db: Db, log: seq<Action>, p: nat, e: Execution, phase: Phase) {
    match phase
    case Sending(k) => Sender(log, p, e, k) && Stored(db, e) && HalvesDone(db, e, k)
    case Recording(k, h, usable) =>
      Sender(log, p, e, k + 1) && Stored(db, e) && HalvesDone(db, e, k) && (usable ==> h.outcome == HalfPrepared)
    case Proving(_, seen) => SeenOk(db, e, seen)
    case Finalizing(d, _) => d != Unknown && Decided(db, IdOf(e), d)
    case RecordingFinal(d, _, _) => d != Unknown && Decided(db, IdOf(e), d)
    case _ => true
  }

  predicate ProcOk(db: Db, log: seq<Action>, p: nat, x: Proc) {
    match x
    case Executor(b, e, handles, local, phase) =>
      ValidExecution(e) && Truthful(db, IdOf(e), local) && PhaseOk(db, log, p, e, phase)
    case Checker(b, ref, d) => d != Unknown && Decided(db, ExecutionOf(ref), d)
    case Auditor(_, _, _) => true
  }

  predicate ActionOk(db: Db, a: Action) {
    match a
    case Begun(_, id) => Started(db, id)
    case HalfSent(id, _, _) => Started(db, id)
    case LocalRan(id) => Started(db, id) && AllHalves(db, id)
    case Ended(id, _, d, _) => d != Unknown && Decided(db, id, d)
  }

  /** Actions that must not both happen. */
  predicate Clash(a: Action, b: Action) {
    || (a.Begun? && b.Begun? && a.id == b.id)
    || (a.HalfSent? && b.HalfSent? && a.id == b.id && a.branch == b.branch)
    || (a.LocalRan? && a == b)
  }

  predicate NoClash(log: seq<Action>) {
    forall i, j :: 0 <= i < j < |log| ==> !Clash(log[i], log[j])
  }

  ghost predicate SysInv(s: Sys) {
    && Inv(s.db)
    && (forall p :: p in s.procs ==> ProcOk(s.db, s.log, p, s.procs[p]))
    && (forall i :: 0 <= i < |s.log| ==> ActionOk(s.db, s.log[i]))
    && NoClash(s.log)
  }

  // ---- Stability ------------------------------------------------------------------------

  lemma ActionStable(a: Db, b: Db, x: Action)
    requires Evolves(a, b) && ActionOk(a, x)
    ensures ActionOk(b, x)
  {
    hide Evolves, Decided, Started, AllHalves;
    RowStable(a, b, x.id);
  }

  lemma PhaseStable(a: Db, b: Db, log: seq<Action>, p: nat, e: Execution, phase: Phase)
    requires Evolves(a, b) && PhaseOk(a, log, p, e, phase)
    ensures PhaseOk(b, log, p, e, phase)
  {
    hide Evolves, Decided, Stored, HalvesDone, Sender, References, Resolve;
    ExecutionStable(a, b, e);
    RowStable(a, b, IdOf(e));
  }

  lemma ProcStable(a: Db, b: Db, log: seq<Action>, p: nat, x: Proc)
    requires Evolves(a, b) && ProcOk(a, log, p, x)
    ensures ProcOk(b, log, p, x)
  {
    hide Evolves, Decided, Truthful, PhaseOk, ValidExecution;
    match x
    case Executor(_, e, _, _, phase) =>
      ExecutionStable(a, b, e);
      PhaseStable(a, b, log, p, e, phase);
    case Checker(_, ref, d) => RowStable(a, b, ExecutionOf(ref));
    case Auditor(_, _, _) =>
  }

  /** Actions another process takes for executions it alone owns do not disturb. */
  predicate Harmless(log: seq<Action>, p: nat, a: Action) {
    a.HalfSent? || a.LocalRan? ==> Begun(p, a.id) in log
  }

  lemma SoleSender(log: seq<Action>, p: nat, q: nat, id: ExecutionId)
    requires NoClash(log) && Begun(p, id) in log && Begun(q, id) in log
    ensures p == q
  {
    var i :| 0 <= i < |log| && log[i] == Begun(p, id);
    var j :| 0 <= j < |log| && log[j] == Begun(q, id);
    assert !(i < j) && !(j < i);
  }

  lemma SenderStable(log: seq<Action>, p: nat, a: Action, q: nat, e: Execution, k: nat)
    requires NoClash(log) && Harmless(log, p, a) && p != q && Sender(log, q, e, k)
    ensures Sender(log + [a], q, e, k)
  {
    if (a.HalfSent? || a.LocalRan?) && a.id == IdOf(e) {
      SoleSender(log, p, q, IdOf(e));
    }
  }

  lemma ProcLogStable(db: Db, log: seq<Action>, p: nat, a: Action, q: nat, x: Proc)
    requires NoClash(log) && Harmless(log, p, a) && p != q && ProcOk(db, log, q, x)
    ensures ProcOk(db, log + [a], q, x)
  {
    hide NoClash, Harmless, Decided, Truthful, Stored, HalvesDone, Sender, SeenOk, ValidExecution;
    match x
    case Executor(_, e, _, _, phase) =>
      if phase.Sending? { SenderStable(log, p, a, q, e, phase.next); }
      if phase.Recording? { SenderStable(log, p, a, q, e, phase.next + 1); }
    case Checker(_, _, _) =>
    case Auditor(_, _, _) =>
  }

  /** The general step without a broker or host action: the tables evolve and one
      process moves or disappears. */
  lemma QuietStep(s: Sys, p: nat, db': Db, procs': map<nat, Proc>)
    requires SysInv(s) && Inv(db') && Evolves(s.db, db')
    requires procs' == s.procs - {p} || (p in procs' && procs' == s.procs[p := procs'[p]] && ProcOk(db', s.log, p, procs'[p]))
    ensures SysInv(Sys(db', procs', s.log))
  {
    hide Inv, Evolves, ProcOk, ActionOk, NoClash;
    forall q | q in procs' ensures ProcOk(db', s.log, q, procs'[q]) {
      if q != p { ProcStable(s.db, db', s.log, q, s.procs[q]); }
    }
    forall i | 0 <= i < |s.log| ensures ActionOk(db', s.log[i]) {
      ActionStable(s.db, db', s.log[i]);
    }
  }

  /** The same with one action logged by the process that moves. */
  lemma LoudStep(s: Sys, p: nat, db': Db, procs': map<nat, Proc>, a: Action)
    requires SysInv(s) && Inv(db') && Evolves(s.db, db') && Harmless(s.log, p, a) && ActionOk(db', a)
    requires forall i :: 0 <= i < |s.log| ==> !Clash(s.log[i], a)
    requires procs' == s.procs - {p} || (p in procs' && procs' == s.procs[p := procs'[p]] && ProcOk(db', s.log + [a], p, procs'[p]))
    ensures SysInv(Sys(db', procs', s.log + [a]))
  {
    hide Inv, Evolves, ProcOk, ActionOk, Harmless, Clash;
    forall q | q in procs' ensures ProcOk(db', s.log + [a], q, procs'[q]) {
      if q != p {
        ProcStable(s.db, db', s.log, q, s.procs[q]);
        ProcLogStable(db', s.log, p, a, q, s.procs[q]);
      }
    }
    forall i | 0 <= i < |s.log + [a]| ensures ActionOk(db', (s.log + [a])[i]) {
      if i < |s.log| { ActionStable(s.db, db', s.log[i]); }
    }
    assert NoClash(s.log + [a]);
  }

  /** Faults leave the tables before or after the transaction. */
  lemma Faulty<T>(db: Db, step: Step<T>, fault: Fault)
    requires Inv(db) && Inv(step.db) && Evolves(db, step.db)
    ensures Inv(DbAfter(db, step, fault)) && Evolves(db, DbAfter(db, step, fault))
  {
    hide Inv, Evolves;
    EvolvesRefl(db);
  }

  // ---- Each event keeps the invariant --------------------------------------------------------

  lemma BeginKeeps(s: Sys, p: nat, now: int, fault: Fault)
    requires SysInv(s) && At(s, p) && s.procs[p].phase.Beginning?
    ensures SysInv(BeginStep(s, p, now, fault))
  {
    hide Inv, Evolves, Frozen, NoClash, AllHalves, Decided;
    var x := s.procs[p];
    var step := BeginPrepare(s.db, x.b, x.e, now);
    BeginPrepareKeeps(s.db, x.b, x.e, now);
    Faulty(s.db, step, fault);
    var s' := BeginStep(s, p, now, fault);
    ExecutionStable(s.db, s'.db, x.e);
    if Seen(step, fault).Ok? {
      NeverBegun(s, x.e);
      LoudStep(s, p, s'.db, s'.procs, Begun(p, IdOf(x.e)));
    } else {
      QuietStep(s, p, s'.db, s'.procs);
    }
  }

  /** An execution whose flag is still clear has no begun, sent or run entry. */
  lemma NeverBegun(s: Sys, e: Execution)
    requires SysInv(s) && !Started(s.db, IdOf(e))
    ensures forall q, i :: 0 <= i < |s.log| ==> !Clash(s.log[i], Begun(q, IdOf(e)))
    ensures forall q :: Sender(s.log + [Begun(q, IdOf(e))], q, e, 0)
  {
    hide Inv, ProcOk, NoClash, AllHalves, Decided;
    forall i | 0 <= i < |s.log| ensures s.log[i].Begun? || s.log[i].HalfSent? || s.log[i].LocalRan? ==> s.log[i].id != IdOf(e) {
      assert ActionOk(s.db, s.log[i]);
    }
  }

  lemma SendHalfKeeps(s: Sys, p: nat, receipt: HalfReceipt, handle: bool, failed: bool)
    requires SysInv(s) && At(s, p) && s.procs[p].phase.Sending? && s.procs[p].phase.next < BranchCount(s.procs[p])
    ensures SysInv(SendHalfStep(s, p, receipt, handle, failed))
  {
    hide Inv, Evolves, Frozen, NoClash, Decided, Stored, HalvesDone, ValidHalf;
    var x := s.procs[p];
    var s' := SendHalfStep(s, p, receipt, handle, failed);
    assert ProcOk(s.db, s.log, p, x);
    var i :| 0 <= i < |s.log| && s.log[i] == Begun(p, IdOf(x.e));
    assert ActionOk(s.db, s.log[i]);
    EvolvesRefl(s.db);
    LoudStep(s, p, s'.db, s'.procs, HalfSent(IdOf(x.e), x.phase.next, HalfAnswer(receipt, handle, failed)));
  }

  lemma AuditedHalf(db: Db, b: Binding, e: Execution, k: nat, h: HalfReceipt, now: int)
    requires ValidExecution(e) && k < |References(e)| && h.outcome == HalfPrepared
    requires RecordHalf(db, b, e, References(e)[k], h, now).result.Ok?
    ensures HalfDone(RecordHalf(db, b, e, References(e)[k], h, now).db, IdOf(e), e.plan.branches[k].id)
  {
    hide Frozen, MatchExecution;
  }

  lemma AuditHalfKeeps(s: Sys, p: nat, now: int, fault: Fault)
    requires SysInv(s) && At(s, p) && s.procs[p].phase.Recording? && s.procs[p].phase.next < |References(s.procs[p].e)|
    ensures SysInv(AuditHalfStep(s, p, now, fault))
  {
    hide Inv, Evolves, Frozen, NoClash, ActionOk, Decided, Sender, Stored, RecordHalf, References;
    var x := s.procs[p];
    var k := x.phase.next;
    var step := RecordHalf(s.db, x.b, x.e, References(x.e)[k], x.phase.receipt, now);
    RecordHalfKeeps(s.db, x.b, x.e, References(x.e)[k], x.phase.receipt, now);
    Faulty(s.db, step, fault);
    var s' := AuditHalfStep(s, p, now, fault);
    assert ProcOk(s.db, s.log, p, x);
    ExecutionStable(s.db, s'.db, x.e);
    if Seen(step, fault).Ok? && x.phase.usable {
      AuditedHalf(s.db, x.b, x.e, k, x.phase.receipt, now);
      assert HalvesDone(s'.db, x.e, k) && HalfDone(s'.db, IdOf(x.e), x.e.plan.branches[k].id);
      assert HalvesDone(s'.db, x.e, k + 1);
    }
    QuietStep(s, p, s'.db, s'.procs);
  }

  lemma RunLocalKeeps(s: Sys, p: nat)
    requires SysInv(s) && At(s, p) && s.procs[p].phase == Sending(BranchCount(s.procs[p]))
    ensures SysInv(Next(s, RunLocal(p)))
  {
    hide Inv, Evolves, Frozen, NoClash, Decided;
    var x := s.procs[p];
    var s' := Next(s, RunLocal(p));
    assert ProcOk(s.db, s.log, p, x);
    var i :| 0 <= i < |s.log| && s.log[i] == Begun(p, IdOf(x.e));
    assert ActionOk(s.db, s.log[i]);
    AllDone(s.db, x.e);
    EvolvesRefl(s.db);
    LoudStep(s, p, s'.db, s'.procs, LocalRan(IdOf(x.e)));
  }

  lemma AllDone(db: Db, e: Execution)
    requires Stored(db, e) && HalvesDone(db, e, |e.plan.branches|)
    ensures AllHalves(db, IdOf(e))
  {
    forall b | b in e.plan.branches ensures HalfDone(db, IdOf(e), b.id) {
      var i :| 0 <= i < |e.plan.branches| && e.plan.branches[i] == b;
    }
  }

  lemma AbortedNow(db: Db, b: Binding, e: Execution, now: int)
    requires Abort(db, b, e, false, now).result == Ok(true)
    ensures Decided(Abort(db, b, e, false, now).db, IdOf(e), Rollback)
  {
    hide Frozen, SetAll;
  }

  lemma AbortStepKeeps(s: Sys, p: nat, now: int, fault: Fault)
    requires SysInv(s) && At(s, p) && (s.procs[p].phase.AbortingUnstarted? || s.procs[p].phase.AbortingReported?)
    ensures SysInv(AbortStep(s, p, now, fault))
  {
    hide Inv, Evolves, Frozen, NoClash, ActionOk, Decided, Abort;
    var x := s.procs[p];
    var step := Abort(s.db, x.b, x.e, false, now);
    AbortOpKeeps(s.db, x.b, x.e, false, now);
    Faulty(s.db, step, fault);
    var s' := AbortStep(s, p, now, fault);
    assert ProcOk(s.db, s.log, p, x);
    ExecutionStable(s.db, s'.db, x.e);
    if Seen(step, fault) == Ok(true) { AbortedNow(s.db, x.b, x.e, now); }
    QuietStep(s, p, s'.db, s'.procs);
  }

  /** One evidence read: a resolved decision is durable when it is read. */
  lemma ReadDecides(db: Db, b: Binding, ref: Reference)
    requires EvidenceFor(db, b, ref).Ok?
    ensures Decided(db, ExecutionOf(ref), Resolve(ref, EvidenceFor(db, b, ref).value))
  {
  }

  /** The branches may have been read at different times; the first one's terminal
      state is stable, so agreement of all of them is a durable fact now. */
  lemma ProofDecides(db: Db, e: Execution, seen: seq<Option<Evidence>>)
    requires SeenOk(db, e, seen)
    ensures Truthful(db, IdOf(e), DecideLocal(References(e), seen))
  {
    hide Frozen, Decided;
    if DecideLocal(References(e), seen) != LocalUnknown {
      assert |seen| > 0 && Decided(db, IdOf(e), Resolve(References(e)[0], seen[0]));
    }
  }

  lemma ConcludeOk(db: Db, log: seq<Action>, p: nat, x: Proc, known: LocalOutcome)
    requires x.Executor? && x.phase.Proving? && ProcOk(db, log, p, x) && Truthful(db, IdOf(x.e), known)
    ensures ProcOk(db, log, p, Conclude(x, known))
  {
    hide Frozen, SeenOk;
  }

  lemma AfterReadOk(db: Db, log: seq<Action>, p: nat, x: Proc, failed: bool)
    requires x.Executor? && x.phase.Proving? && ProcOk(db, log, p, x)
    ensures ProcOk(db, log, p, AfterRead(db, x, failed))
  {
    hide Frozen, Decided, Conclude, EvidenceFor, Resolve, References;
    var refs, n := References(x.e), |x.phase.seen|;
    ConcludeOk(db, log, p, x, LocalUnknown);
    if !failed && n < |refs| && EvidenceFor(db, x.b, refs[n]).Ok? {
      ReadDecides(db, x.b, refs[n]);
      var seen := x.phase.seen + [EvidenceFor(db, x.b, refs[n]).value];
      assert SeenOk(db, x.e, seen);
      ProofDecides(db, x.e, seen);
      ConcludeOk(db, log, p, x.(phase := x.phase.(seen := seen)), DecideLocal(refs, seen));
    }
  }

  lemma ReadKeeps(s: Sys, p: nat, failed: bool)
    requires SysInv(s) && At(s, p) && s.procs[p].phase.Proving?
    ensures SysInv(Next(s, ReadEvidence(p, failed)))
  {
    hide Inv, Evolves, NoClash, ActionOk, AfterRead, ProcOk;
    EvolvesRefl(s.db);
    AfterReadOk(s.db, s.log, p, s.procs[p], failed);
    QuietStep(s, p, s.db, s.procs[p := AfterRead(s.db, s.procs[p], failed)]);
  }

  lemma EndBranchKeeps(s: Sys, p: nat, acked: bool)
    requires SysInv(s) && At(s, p) && s.procs[p].phase.Finalizing?
    ensures SysInv(EndBranchStep(s, p, acked))
  {
    hide Inv, Evolves, Frozen, NoClash, Decided;
    var x := s.procs[p];
    var s' := EndBranchStep(s, p, acked);
    assert ProcOk(s.db, s.log, p, x);
    EvolvesRefl(s.db);
    if x.phase.next < BranchCount(x) && x.phase.next in x.handles {
      LoudStep(s, p, s'.db, s'.procs, Ended(IdOf(x.e), x.e.plan.branches[x.phase.next].id, x.phase.decision, acked));
    } else {
      QuietStep(s, p, s'.db, s'.procs);
    }
  }

  lemma AuditFinalKeeps(s: Sys, p: nat, now: int, fault: Fault)
    requires SysInv(s) && At(s, p) && s.procs[p].phase.RecordingFinal? && s.procs[p].phase.next < |References(s.procs[p].e)|
    ensures SysInv(AuditFinalStep(s, p, now, fault))
  {
    hide Inv, Evolves, Frozen, NoClash, ActionOk, Decided, RecordFinal, References;
    var x := s.procs[p];
    var f := x.phase.outcome;
    var code := if f == FinalUnknown then "final_rpc_unknown" else "";
    RecordFinalKeeps(s.db, x.b, x.e, References(x.e)[x.phase.next], f, code, now);
    Faulty(s.db, RecordFinal(s.db, x.b, x.e, References(x.e)[x.phase.next], f, code, now), fault);
    var s' := AuditFinalStep(s, p, now, fault);
    assert ProcOk(s.db, s.log, p, x);
    ExecutionStable(s.db, s'.db, x.e);
    RowStable(s.db, s'.db, IdOf(x.e));
    QuietStep(s, p, s'.db, s'.procs);
  }

  lemma CheckKeeps(s: Sys, p: nat, b: Binding, ref: Reference)
    requires SysInv(s) && p !in s.procs
    ensures SysInv(CheckStep(s, p, b, ref))
  {
    hide Inv, Evolves, NoClash, ActionOk, Decided, Resolve, EvidenceFor, SysInv;
    var r := EvidenceFor(s.db, b, ref);
    if r.Ok? && Resolve(ref, r.value) != Unknown {
      ReadDecides(s.db, b, ref);
      EvolvesRefl(s.db);
      InvOf(s);
      QuietStep(s, p, s.db, s.procs[p := Checker(b, ref, Resolve(ref, r.value))]);
    }
  }

  lemma InvOf(s: Sys)
    requires SysInv(s)
    ensures Inv(s.db)
  {
  }

  lemma RecoverKeeps(s: Sys, p: nat, acked: bool)
    requires SysInv(s) && p in s.procs && s.procs[p].Checker?
    ensures SysInv(RecoverStep(s, p, acked))
  {
    hide Inv, Evolves, NoClash, Decided;
    var x := s.procs[p];
    var s' := RecoverStep(s, p, acked);
    assert ProcOk(s.db, s.log, p, x);
    EvolvesRefl(s.db);
    LoudStep(s, p, s'.db, s'.procs, Ended(ExecutionOf(x.ref), x.ref.branchId, x.decision, acked));
  }

  lemma OtherKeeps(s: Sys, ev: Event)
    requires SysInv(s)
    requires ev.Env? || ev.Execute? || ev.Crash? || ev.Cancel? || ev.LocalReturned? || ev.AuditRecovery?
    ensures SysInv(Next(s, ev))
  {
    hide Inv, Evolves, Frozen, NoClash, ActionOk, Decided, Apply, RecordRecoveryFinal;
    var s' := Next(s, ev);
    EvolvesRefl(s.db);
    match ev
    case Env(op) => ApplyKeeps(s.db, op); EnvStep(s, s'.db);
    case Execute(p, b, e) => if s' != s { QuietStep(s, p, s'.db, s'.procs); }
    case Crash(p) => QuietStep(s, p, s'.db, s'.procs);
    case Cancel(p) => if s' != s { QuietStep(s, p, s'.db, s'.procs); }
    case LocalReturned(p, _) => if s' != s { QuietStep(s, p, s'.db, s'.procs); }
    case AuditRecovery(p, now, fault) =>
      if p in s.procs && s.procs[p].Auditor? {
        var x := s.procs[p];
        RecoveryFinalKeeps(s.db, x.b, x.ref, x.outcome, now);
        Faulty(s.db, RecordRecoveryFinal(s.db, x.b, x.ref, x.outcome, now), fault);
        QuietStep(s, p, s'.db, s'.procs);
      }
    case _ =>
  }

  lemma EnvStep(s: Sys, db': Db)
    requires SysInv(s) && Inv(db') && Evolves(s.db, db')
    ensures SysInv(s.(db := db'))
  {
    hide Inv, Evolves, ProcOk, ActionOk, NoClash;
    forall q | q in s.procs ensures ProcOk(db', s.log, q, s.procs[q]) {
      ProcStable(s.db, db', s.log, q, s.procs[q]);
    }
    forall i | 0 <= i < |s.log| ensures ActionOk(db', s.log[i]) {
      ActionStable(s.db, db', s.log[i]);
    }
  }

  lemma NextKeeps(s: Sys, ev: Event)
    requires SysInv(s)
    ensures SysInv(Next(s, ev))
  {
    hide SysInv, BeginStep, SendHalfStep, AuditHalfStep, AbortStep, EndBranchStep, AuditFinalStep, CheckStep, RecoverStep,
      AfterRead, References;
    if Next(s, ev) != s {
      match ev
      case Begin(p, now, fault) => BeginKeeps(s, p, now, fault);
      case SendHalf(p, receipt, handle, failed) => SendHalfKeeps(s, p, receipt, handle, failed);
      case AuditHalf(p, now, fault) => AuditHalfKeeps(s, p, now, fault);
      case RunLocal(p) => RunLocalKeeps(s, p);
      case AbortNow(p, now, fault) => AbortStepKeeps(s, p, now, fault);
      case ReadEvidence(p, failed) => ReadKeeps(s, p, failed);
      case EndBranch(p, acked) => EndBranchKeeps(s, p, acked);
      case AuditFinal(p, now, fault) => AuditFinalKeeps(s, p, now, fault);
      case Check(p, b, ref) => CheckKeeps(s, p, b, ref);
      case Recover(p, acked) => RecoverKeeps(s, p, acked);
      case _ => OtherKeeps(s, ev);
    }
  }

  lemma {:induction false} RunSysKeeps(s: Sys, evs: seq<Event>)
    requires SysInv(s)
    ensures SysInv(RunSys(s, evs))
    decreases |evs|
  {
    hide SysInv, Next;
    if evs != [] {
      NextKeeps(s, evs[0]);
      RunSysKeeps(Next(s, evs[0]), evs[1..]);
    }
  }

  ghost function Reached(evs: seq<Event>): Sys { RunSys(InitSys(), evs) }

  lemma ReachedInv(evs: seq<Event>)
    ensures SysInv(Reached(evs))
  {
    hide RunSys, Inv;
    InitInv();
    RunSysKeeps(InitSys(), evs);
  }

  // ---- Broker agreement -----------------------------------------------------------------------

  predicate Durable(db: Db, id: ExecutionId, s: State) {
    && id in db.executions && db.executions[id].state == s && id in db.witnesses
    && db.witnesses[id].Keys == BranchIds(db.executions[id].plan)
    && forall k :: k in db.witnesses[id] ==> db.witnesses[id][k].state == s
  }

  lemma DurableOf(db: Db, id: ExecutionId)
    requires TablesOk(db) && id in db.executions
    ensures Durable(db, id, db.executions[id].state)
  {
    hide RowOk, AuditOk;
    assert WitnessesOk(id, db.executions[id], db.witnesses[id]);
    forall k | k in db.witnesses[id] ensures db.witnesses[id][k].state == db.executions[id].state {
      assert WitnessOk(db.executions[id].state, db.witnesses[id][k]);
    }
  }

  /** In every reachable system each end-transaction request ever sent agrees with
      the durable state of the execution and of all its witnesses, so commit and
      rollback are never both sent for branches of one execution. */
  lemma BrokerAgreement(evs: seq<Event>, i: nat, j: nat)
    requires i < |Reached(evs).log| && Reached(evs).log[i].Ended?
    requires j < |Reached(evs).log| && Reached(evs).log[j].Ended?
    ensures var s := Reached(evs); var a := s.log[i];
      && (a.decision == Commit ==> Durable(s.db, a.id, Committed))
      && (a.decision == Rollback ==> Durable(s.db, a.id, Aborted))
      && (a.id == s.log[j].id ==> a.decision == s.log[j].decision != Unknown)
  {
    hide RunSys, ProcOk, TablesOk, RequestsOk, HostsOk, Durable;
    ReachedInv(evs);
    var s := Reached(evs);
    assert ActionOk(s.db, s.log[i]) && ActionOk(s.db, s.log[j]);
    DurableOf(s.db, s.log[i].id);
  }

  /** The state that a request relies on is durable before the request is sent. */
  lemma SentOnlyWhenDurable(evs: seq<Event>, ev: Event, i: nat)
    requires |Reached(evs).log| <= i < |Next(Reached(evs), ev).log| && Next(Reached(evs), ev).log[i].Ended?
    ensures var s := Reached(evs); var a := Next(s, ev).log[i];
      && a.decision != Unknown
      && Durable(s.db, a.id, if a.decision == Commit then Committed else Aborted)
  {
    hide RunSys, TablesOk, RequestsOk, HostsOk, Durable, Frozen, AfterRead, Apply, BeginPrepare, RecordHalf, Abort, RecordFinal, RecordRecoveryFinal;
    ReachedInv(evs);
    var s := Reached(evs);
    var p := ev.p;
    assert ProcOk(s.db, s.log, p, s.procs[p]);
    DurableOf(s.db, Next(s, ev).log[i].id);
  }

  /** What Execute reports about the local transaction is durably so. */
  lemma ReportsTruth(evs: seq<Event>, p: nat)
    requires At(Reached(evs), p)
    ensures var s := Reached(evs); var x := s.procs[p];
      && (x.local == LocalCommitted ==> Durable(s.db, IdOf(x.e), Committed))
      && (x.local == LocalAborted ==> Durable(s.db, IdOf(x.e), Aborted))
  {
    hide RunSys, TablesOk, RequestsOk, HostsOk, Durable, Frozen, PhaseOk;
    ReachedInv(evs);
    var s := Reached(evs);
    assert ProcOk(s.db, s.log, p, s.procs[p]);
    if s.procs[p].local == LocalCommitted || s.procs[p].local == LocalAborted { DurableOf(s.db, IdOf(s.procs[p].e)); }
  }

  // ---- One half-message set, one local run -------------------------------------------------------

  /** However many callers execute one reservation, one of them gets past
      BeginPrepare, each branch's half is sent at most once, local work runs at most
      once, and only when every branch of the frozen plan has a durable prepared half. */
  lemma OneHalfSetOneLocalRun(evs: seq<Event>, i: nat, j: nat)
    requires i < j < |Reached(evs).log|
    ensures var log := Reached(evs).log;
      && (log[i].Begun? && log[j].Begun? ==> log[i].id != log[j].id)
      && (log[i].HalfSent? && log[j].HalfSent? ==> log[i].id != log[j].id || log[i].branch != log[j].branch)
      && (log[i].LocalRan? ==> log[i] != log[j] && AllHalves(Reached(evs).db, log[i].id))
  {
    hide RunSys, Inv, ProcOk, Decided, Started, AllHalves;
    ReachedInv(evs);
    var s := Reached(evs);
    assert ActionOk(s.db, s.log[i]) && !Clash(s.log[i], s.log[j]);
  }

  /** Local work starts in a state where every half is already durable. */
  lemma LocalOnlyAfterHalves(evs: seq<Event>, p: nat)
    requires Next(Reached(evs), RunLocal(p)) != Reached(evs)
    ensures var s := Reached(evs); At(s, p) && AllHalves(s.db, IdOf(s.procs[p].e)) && LocalRan(IdOf(s.procs[p].e)) !in s.log
  {
    hide RunSys, Inv, Frozen, Decided, NoClash;
    ReachedInv(evs);
    var s := Reached(evs);
    assert ProcOk(s.db, s.log, p, s.procs[p]);
    AllDone(s.db, s.procs[p].e);
  }
}
