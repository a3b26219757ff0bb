/** The halves of an Execute call, over every interleaving: local work waits for all of
    them, none that may exist is forgotten, and a call that gives up takes them back. */
module SenderHalves {
  import opened Protocol
  import opened TransactionTables
  import opened TransactionInvariants
  import opened TransactionSafety
  import opened SenderSystem
  import opened SenderSafety
  import opened ExecuteOnly
  import opened SenderFinals
  import opened SenderCompletion
  import opened SenderOutcomes

  /** The prepare call of the branch returned a handle, no error and a valid prepared receipt. */
  ghost predicate Held(log: seq<Action>, id: ExecutionId, k: nat) {
    exists r :: HalfSent(id, k, HalfAnswer(r, true, false)) in log && ValidHalf(r) && r.outcome == HalfPrepared
  }

  ghost predicate HeldUpto(log: seq<Action>, id: ExecutionId, n: nat) { forall k :: 0 <= k < n ==> Held(log, id, k) }

  ghost predicate CallOk(log: seq<Action>, x: Proc) {
    x.Executor? ==>
      && (x.local != LocalNotStarted && x.handles != {} ==> LocalRan(IdOf(x.e)) in log)
      && match x.phase
         case Sending(k) => HeldUpto(log, IdOf(x.e), k)
         case Recording(k, _, usable) => HeldUpto(log, IdOf(x.e), k) && (usable ==> Held(log, IdOf(x.e), k))
         case LocalRunning => LocalRan(IdOf(x.e)) in log
         case AbortingReported => LocalRan(IdOf(x.e)) in log
         case Proving(mode, _) => mode.AfterLocal? ==> LocalRan(IdOf(x.e)) in log
         case _ => true
  }

  /** At the moment local work began every branch had its half. */
  ghost predicate RanOk(db: Db, log: seq<Action>) {
    forall i :: 0 <= i < |log| && log[i].LocalRan? ==>
      log[i].id in db.executions && HeldUpto(log[..i], log[i].id, |db.executions[log[i].id].plan.branches|)
  }

  ghost predicate HalvesInv(s: Sys) { RanOk(s.db, s.log) && forall p :: p in s.procs ==> CallOk(s.log, s.procs[p]) }

  // ---- Steps --------------------------------------------------------------------------------

  lemma HeldStable(log: seq<Action>, log': seq<Action>, id: ExecutionId, n: nat)
    requires log <= log'
    ensures HeldUpto(log, id, n) ==> HeldUpto(log', id, n)
    ensures Held(log, id, n) ==> Held(log', id, n)
  {
    hide ValidHalf;
    assert forall a :: a in log ==> a in log';
    forall k: nat | Held(log, id, k) ensures Held(log', id, k) {
      var r :| HalfSent(id, k, HalfAnswer(r, true, false)) in log && ValidHalf(r) && r.outcome == HalfPrepared;
      assert HalfSent(id, k, HalfAnswer(r, true, false)) in log';
    }
  }

  lemma CallStable(log: seq<Action>, log': seq<Action>, x: Proc)
    requires log <= log' && CallOk(log, x)
    ensures CallOk(log', x)
  {
    hide Held, HeldUpto;
    assert forall a :: a in log ==> a in log';
    if x.Executor? && (x.phase.Sending? || x.phase.Recording?) { HeldStable(log, log', IdOf(x.e), x.phase.next); }
  }

  lemma RanStable(a: Db, b: Db, log: seq<Action>, log': seq<Action>)
    requires Evolves(a, b) && log <= log' && RanOk(a, log) && forall i :: |log| <= i < |log'| ==> !log'[i].LocalRan?
    ensures RanOk(b, log')
  {
    hide HeldUpto;
    forall i | 0 <= i < |log'| && log'[i].LocalRan?
      ensures log'[i].id in b.executions && HeldUpto(log'[..i], log'[i].id, |b.executions[log'[i].id].plan.branches|)
    {
      assert log'[..i] == log[..i] && log[i] == log'[i];
      assert RowGrows(a.executions[log[i].id], b.executions[log[i].id]);
    }
  }

  lemma RunLocalOk(s: Sys, p: nat)
    requires At(s, p) && s.procs[p].phase == Sending(BranchCount(s.procs[p])) && CallOk(s.log, s.procs[p]) && Stored(s.db, s.procs[p].e)
    requires RanOk(s.db, s.log)
    ensures RanOk(s.db, s.log + [LocalRan(IdOf(s.procs[p].e))])
  {
    hide HeldUpto;
    var log' := s.log + [LocalRan(IdOf(s.procs[p].e))];
    forall i | 0 <= i < |log'| && log'[i].LocalRan?
      ensures log'[i].id in s.db.executions && HeldUpto(log'[..i], log'[i].id, |s.db.executions[log'[i].id].plan.branches|)
    {
      if i < |s.log| { assert log'[..i] == s.log[..i] && log'[i] == s.log[i]; } else { assert log'[..i] == s.log; }
    }
  }

  lemma SendHalfCall(s: Sys, p: nat, receipt: HalfReceipt, handle: bool, failed: bool)
    requires At(s, p) && s.procs[p].phase.Sending? && CallOk(s.log, s.procs[p]) && s.procs[p].local == LocalNotStarted
    ensures var t := SendHalfStep(s, p, receipt, handle, failed); CallOk(t.log, t.procs[p])
  {
    hide HeldUpto, ValidHalf;
    var x, t := s.procs[p], SendHalfStep(s, p, receipt, handle, failed);
    HeldStable(s.log, t.log, IdOf(x.e), x.phase.next);
    assert HalfSent(IdOf(x.e), x.phase.next, HalfAnswer(receipt, handle, failed)) in t.log;
  }

  lemma AuditHalfCall(s: Sys, p: nat, now: int, fault: Fault)
    requires At(s, p) && s.procs[p].phase.Recording? && s.procs[p].phase.next < |References(s.procs[p].e)| && CallOk(s.log, s.procs[p])
    ensures var t := AuditHalfStep(s, p, now, fault); CallOk(t.log, t.procs[p])
  {
    hide Held, RecordHalf, References;
  }

  lemma ReadCall(s: Sys, p: nat, failed: bool)
    requires At(s, p) && s.procs[p].phase.Proving? && CallOk(s.log, s.procs[p]) && CallLocal(s.procs[p])
    ensures CallOk(s.log, AfterRead(s.db, s.procs[p], failed))
  {
    hide Held, HeldUpto, References, EvidenceFor, DecideLocal;
  }

  lemma MoverCall(s: Sys, ev: Event)
    requires !ev.Env? && !ev.SendHalf? && !ev.AuditHalf? && !ev.ReadEvidence? && ev.p in Next(s, ev).procs
    requires ev.p in s.procs ==> CallOk(s.log, s.procs[ev.p]) && (At(s, ev.p) ==> CallLocal(s.procs[ev.p]))
    requires s.log <= Next(s, ev).log
    ensures CallOk(Next(s, ev).log, Next(s, ev).procs[ev.p])
  {
    hide Held, HeldUpto, BeginPrepare, Abort, RecordFinal, RecordRecoveryFinal, References, EvidenceFor, Resolve, ValidExecution;
    assert forall a :: a in s.log ==> a in Next(s, ev).log;
    NoneHeld(Next(s, ev).log);
  }

  lemma NoneHeld(log: seq<Action>)
    ensures forall id :: HeldUpto(log, id, 0)
  {
  }

  /** What a working call knows of its own result. */
  predicate CallLocal(x: Proc)
    requires x.Executor?
  {
    && (!x.phase.Finalizing? && !x.phase.RecordingFinal? && !x.phase.Done? ==> x.local == LocalNotStarted)
    && (x.phase.Beginning? || (x.phase.Proving? && x.phase.mode.Report?) ==> x.handles == {})
  }

  lemma WorkingLocal(s: Sys, p: nat)
    requires WorkInv(s) && At(s, p)
    ensures CallLocal(s.procs[p])
    ensures s.procs[p].phase.Sending? ==> Stored(s.db, s.procs[p].e)
  {
    hide Stored, AllSent, Upto, Below;
    assert WorkOk(s.db, s.log, s.procs[p]);
  }

  lemma NextKeepsHalves(s: Sys, ev: Event)
    requires SysInv(s) && WorkInv(s) && HalvesInv(s)
    ensures HalvesInv(Next(s, ev))
  {
    hide SysInv, WorkInv, Next, Evolves, CallOk, RanOk;
    var t := Next(s, ev);
    NextEvolves(s, ev);
    NextRan(s, ev);
    forall q | q in t.procs ensures CallOk(t.log, t.procs[q]) {
      if Mover(ev, q) {
        MoverOk(s, ev);
      } else {
        OthersStand(s, ev, q);
        CallStable(s.log, t.log, s.procs[q]);
      }
    }
  }

  lemma MoverOk(s: Sys, ev: Event)
    requires WorkInv(s) && HalvesInv(s) && !ev.Env? && ev.p in Next(s, ev).procs && s.log <= Next(s, ev).log
    ensures CallOk(Next(s, ev).log, Next(s, ev).procs[ev.p])
  {
    hide WorkInv, CallOk, CallLocal, SendHalfStep, AuditHalfStep, Stored, RanOk, Apply, BeginStep, AbortStep, EndBranchStep, AuditFinalStep,
      RecoverStep, CheckStep, AfterRead, RecordRecoveryFinal, References, ValidExecution;
    if At(s, ev.p) { WorkingLocal(s, ev.p); }
    match ev
    case SendHalf(p, receipt, handle, failed) =>
      if Next(s, ev) != s { assert CallLocal(s.procs[p]); SendHalfLocal(s.procs[p]); SendHalfCall(s, p, receipt, handle, failed); }
    case AuditHalf(p, now, fault) => if Next(s, ev) != s { AuditHalfCall(s, p, now, fault); }
    case ReadEvidence(p, failed) => if Next(s, ev) != s { ReadCall(s, p, failed); }
    case _ => hide Next; MoverCall(s, ev);
  }

  lemma SendHalfLocal(x: Proc)
    requires x.Executor? && CallLocal(x) && x.phase.Sending?
    ensures x.local == LocalNotStarted
  {
  }

  lemma NextRan(s: Sys, ev: Event)
    requires SysInv(s) && WorkInv(s) && HalvesInv(s)
    ensures RanOk(Next(s, ev).db, Next(s, ev).log)
  {
    hide SysInv, WorkInv, Evolves, RanOk, CallOk, Stored, CallLocal;
    NextEvolves(s, ev);
    if ev.RunLocal? && Next(s, ev) != s {
      WorkingLocal(s, ev.p);
      RunLocalOk(s, ev.p);
    } else {
      OnlyRunLocal(s, ev);
      RanStable(s.db, Next(s, ev).db, s.log, Next(s, ev).log);
    }
  }

  lemma OnlyRunLocal(s: Sys, ev: Event)
    requires !(ev.RunLocal? && Next(s, ev) != s)
    ensures forall i :: |s.log| <= i < |Next(s, ev).log| ==> !Next(s, ev).log[i].LocalRan?
  {
    hide BeginPrepare, Abort, RecordHalf, RecordFinal, RecordRecoveryFinal, References, EvidenceFor, Resolve, ValidExecution, AfterRead,
      AfterAbort, AfterBegin, AfterHalfAudit, Apply;
  }

  lemma {:induction false} RunKeepsHalves(s: Sys, evs: seq<Event>)
    requires SysInv(s) && WorkInv(s) && HalvesInv(s)
    ensures HalvesInv(RunSys(s, evs))
    decreases |evs|
  {
    hide SysInv, WorkInv, HalvesInv, Next;
    if evs != [] {
      NextKeepsHalves(s, evs[0]);
      NextKeepsWork(s, evs[0]);
      NextKeeps(s, evs[0]);
      RunKeepsHalves(Next(s, evs[0]), evs[1..]);
    }
  }

  lemma ReachedHalves(evs: seq<Event>)
    ensures HalvesInv(Reached(evs))
  {
    hide RunSys, SysInv;
    InitGate();
    RunKeepsHalves(InitSys(), evs);
  }

  // ---- Laws ---------------------------------------------------------------------------------

  /** When local work begins, every branch of the plan has been prepared before: the broker
      call returned without error, with a handle and with a valid prepared receipt. */
  lemma LocalAfterAllHalves(evs: seq<Event>, i: nat, k: nat)
    requires i < |Reached(evs).log| && Reached(evs).log[i].LocalRan?
    ensures var s := Reached(evs); var id := s.log[i].id;
      id in s.db.executions && (k < |s.db.executions[id].plan.branches| ==> Held(s.log[..i], id, k))
  {
    hide RunSys, Held, CallOk;
    ReachedHalves(evs);
  }

  /** A call that holds a half reports an outcome of local work only if it ran. */
  lemma ReportsOnlyWhatRan(evs: seq<Event>, p: nat)
    requires At(Reached(evs), p) && Reached(evs).procs[p].handles != {}
    ensures var s := Reached(evs); s.procs[p].local != LocalNotStarted ==> LocalRan(IdOf(s.procs[p].e)) in s.log
  {
    hide RunSys, Held, RanOk;
    ReachedHalves(evs);
    assert CallOk(Reached(evs).log, Reached(evs).procs[p]);
  }

  predicate Uncrashed(evs: seq<Event>, p: nat) { forall i :: 0 <= i < |evs| ==> !(evs[i].Crash? && evs[i].p == p) }

  lemma HandlesGrow(s: Sys, ev: Event, p: nat)
    requires At(s, p) && !(ev.Crash? && ev.p == p)
    ensures At(Next(s, ev), p) && Next(s, ev).procs[p].e == s.procs[p].e && s.procs[p].handles <= Next(s, ev).procs[p].handles
  {
    hide BeginPrepare, Abort, RecordHalf, RecordFinal, RecordRecoveryFinal, References, EvidenceFor, Resolve, ValidExecution, Apply, DecideLocal;
  }

  lemma {:induction false} HandlesKept(s: Sys, evs: seq<Event>, p: nat)
    requires At(s, p) && Uncrashed(evs, p)
    ensures At(RunSys(s, evs), p) && RunSys(s, evs).procs[p].e == s.procs[p].e && s.procs[p].handles <= RunSys(s, evs).procs[p].handles
    decreases |evs|
  {
    hide Next;
    if evs != [] {
      HandlesGrow(s, evs[0], p);
      HandlesKept(Next(s, evs[0]), evs[1..], p);
    }
  }

  /** A handle is kept whatever else its prepare call returned: if the call ends knowing
      the outcome of local work, the half behind that handle has been told. */
  lemma HandleEnds(evs: seq<Event>, p: nat, receipt: HalfReceipt, failed: bool, more: seq<Event>)
    requires var s := Reached(evs); At(s, p) && s.procs[p].phase.Sending? && s.procs[p].phase.next < BranchCount(s.procs[p])
    requires Uncrashed(more, p)
    ensures var s := Reached(evs); var k := s.procs[p].phase.next;
      var t := Reached(evs + [SendHalf(p, receipt, true, failed)] + more);
      && At(t, p) && t.procs[p].e == s.procs[p].e && k in t.procs[p].handles
      && (t.procs[p].phase.Done? ==>
            var x := t.procs[p];
            && (x.local == LocalCommitted ==> Sent(t.log, IdOf(x.e), x.e.plan.branches[k].id, Commit))
            && (x.local == LocalAborted ==> Sent(t.log, IdOf(x.e), x.e.plan.branches[k].id, Rollback)))
  {
    hide RunSys, Sent, SendHalfStep;
    var ev := SendHalf(p, receipt, true, failed);
    var s := Reached(evs);
    RunConcatSys(InitSys(), evs, [ev]);
    RunConcatSys(InitSys(), evs + [ev], more);
    RunSingle(s, ev);
    SendTakesHandle(s, p, receipt, failed);
    hide Next;
    HandlesKept(Next(s, ev), more, p);
    var t := Reached(evs + [ev] + more);
    if t.procs[p].phase.Done? { KnownOutcomeSent(evs + [ev] + more, p, s.procs[p].phase.next); }
  }

  lemma SendTakesHandle(s: Sys, p: nat, receipt: HalfReceipt, failed: bool)
    requires At(s, p) && s.procs[p].phase.Sending?
    ensures var t := SendHalfStep(s, p, receipt, true, failed);
      At(t, p) && t.procs[p].e == s.procs[p].e && s.procs[p].phase.next in t.procs[p].handles
  {
  }

  /** The call stops before local work: it is cancelled, or a half or its audit failed. */
  predicate GivesUp(s: Sys, p: nat, ev: Event) {
    At(s, p) &&
    match ev
    case Cancel(q) => q == p && s.procs[p].phase.Sending?
    case AuditHalf(q, _, fault) => q == p && s.procs[p].phase.Recording? && (fault != NoFault || !s.procs[p].phase.usable)
    case _ => false
  }

  /** A call that gives up goes on to abort its execution: where that is possible, every
      half it holds a handle for is rolled back and it reports that local work never began. */
  lemma GivenUpDelivered(evs0: seq<Event>, p: nat, ev: Event, acks: nat -> bool, now: int) returns (evs: seq<Event>)
    requires GivesUp(Reached(evs0), p, ev)
    requires var s := Reached(evs0 + [ev]); var id := IdOf(Reached(evs0).procs[p].e);
      && Readable(s.db, Reached(evs0).procs[p].b) && id in s.db.executions
      && (s.db.executions[id].state == Aborted || (s.db.executions[id].state == Prepared && !Locked(s.db, id)))
    ensures Own(evs, p)
    ensures var x, t := Reached(evs0).procs[p], RunSys(Reached(evs0 + [ev]), evs);
      && p in t.procs && t.procs[p] == x.(phase := Done) && x.local == LocalNotStarted
      && forall j :: j in x.handles && j < |x.e.plan.branches| ==> Sent(t.log, IdOf(x.e), x.e.plan.branches[j].id, Rollback)
  {
    hide RunSys, Sent, Readable, WorkInv, Locked;
    var s := Reached(evs0);
    RunConcatSys(InitSys(), evs0, [ev]);
    RunSingle(s, ev);
    ReachedWork(evs0);
    WorkingLocal(s, p);
    ReachedSound(evs0);
    GiveUpStep(s, p, ev);
    hide Next, Sound;
    evs := UnstartedAbortDelivered(evs0 + [ev], p, acks, now);
  }

  lemma GiveUpStep(s: Sys, p: nat, ev: Event)
    requires GivesUp(s, p, ev) && SysInv(s) && WorkInv(s)
    ensures var x := s.procs[p]; p in Next(s, ev).procs && Next(s, ev).procs[p] == x.(phase := AbortingUnstarted)
  {
    hide RecordHalf, Stored, Upto, Below, Inv, ActionOk, NoClash, References, Frozen;
    assert WorkOk(s.db, s.log, s.procs[p]) && ProcOk(s.db, s.log, p, s.procs[p]);
    ManyReferences(s.procs[p].e);
  }
}
