/** Execute from end to end, where no call fails: prepare all halves and reach the
    local work; afterwards bring its durable outcome to the broker. */
module SenderOutcomes {
  import opened Protocol
  import opened TransactionTables
  import opened TransactionInvariants
  import opened TransactionSafety
  import opened SenderSystem
  import opened SenderSafety
  import opened ExecuteOnly
  import opened SenderFinals
  import opened SenderCompletion

  // ---- After local work -------------------------------------------------------------------

  lemma LocalFacts(s: Sys, p: nat)
    requires Sound(s) && At(s, p) && s.procs[p].phase.LocalRunning?
    ensures var x := s.procs[p];
      && Inv(s.db) && ValidExecution(x.e) && Planned(s.db, x.e) && x.b.owner == x.e.plan.owner
      && Upto(x.handles, |x.e.plan.branches|) && x.local == LocalNotStarted
  {
    hide Inv, ActionOk, NoClash, ValidExecution, Upto;
    assert WorkOk(s.db, s.log, s.procs[p]) && ProcOk(s.db, s.log, p, s.procs[p]);
  }

  lemma ReturnsNext(s: Sys, p: nat, reported: LocalOutcome)
    requires At(s, p) && s.procs[p].phase.LocalRunning?
    ensures Next(s, LocalReturned(p, reported)) == Put(s, p, s.procs[p].(phase := Proving(AfterLocal(reported), [])))
  {
  }

  /** The local work has returned and its proof has been read. */
  lemma ProvenAfterLocal(s: Sys, p: nat, reported: LocalOutcome) returns (evs: seq<Event>)
    requires Sound(s) && At(s, p) && s.procs[p].phase.LocalRunning? && Readable(s.db, s.procs[p].b)
    ensures Own(evs, p) && IdOf(s.procs[p].e) in s.db.executions
    ensures var x := s.procs[p];
      RunSys(s, evs) == Put(s, p, Conclude(x.(phase := Proving(AfterLocal(reported), [])), KnownOf(s.db.executions[IdOf(x.e)].state)))
  {
    hide Sound, Next, RunSys, Conclude, ValidExecution, Readable, Inv, Upto;
    var x := s.procs[p];
    var ev, y := LocalReturned(p, reported), x.(phase := Proving(AfterLocal(reported), []));
    LocalFacts(s, p);
    ReturnsNext(s, p, reported);
    ManyReferences(x.e);
    var t := Next(s, ev);
    var st := s.db.executions[IdOf(x.e)].state;
    assert Reading(t.db, t.procs[p], st);
    var rest := ProofCompletes(t, p, st);
    evs := [ev] + rest;
    RunFirst(s, ev, rest);
    PutTwice(s, p, y, Conclude(y, KnownOf(st)));
  }

  predicate SentAll(log: seq<Action>, e: Execution, d: Decision) {
    forall j :: 0 <= j < |e.plan.branches| ==> Sent(log, IdOf(e), e.plan.branches[j].id, d)
  }

  lemma AllHandlesSent(log: seq<Action>, e: Execution, handles: set<nat>, d: Decision)
    requires Upto(handles, |e.plan.branches|) && AllSent(log, e, handles, |e.plan.branches|, d)
    ensures SentAll(log, e, d)
  {
    hide Sent;
  }

  /** Execute whose local work left a terminal execution: whatever the local work said
      and whatever the broker answers, its own steps end with that outcome and with the
      matching request sent for every branch. */
  lemma OutcomeDelivered(evs0: seq<Event>, p: nat, reported: LocalOutcome, acks: nat -> bool, now: int) returns (evs: seq<Event>)
    requires var s := Reached(evs0);
      && At(s, p) && s.procs[p].phase.LocalRunning? && Readable(s.db, s.procs[p].b)
      && IdOf(s.procs[p].e) in s.db.executions && s.db.executions[IdOf(s.procs[p].e)].state != Prepared
    ensures Own(evs, p)
    ensures var s := Reached(evs0); var x, t := s.procs[p], RunSys(s, evs);
      var st := s.db.executions[IdOf(x.e)].state;
      && p in t.procs && t.procs[p] == x.(local := if st == Committed then LocalCommitted else LocalAborted, phase := Done)
      && SentAll(t.log, x.e, if st == Committed then Commit else Rollback)
  {
    hide Sound, Next, RunSys, Readable, SentAll, AllSent, Upto, Inv, ValidExecution;
    var s := Reached(evs0);
    ReachedSound(evs0);
    LocalFacts(s, p);
    var x := s.procs[p];
    var d := DecisionOf(s.db.executions[IdOf(x.e)].state);
    var first := ProvenAfterLocal(s, p, reported);
    RunSound(s, first);
    var t := RunSys(s, first);
    var rest := FinalizeCompletes(t, p, acks, now);
    evs := first + rest;
    RunConcatSys(s, first, rest);
    AllHandlesSent(RunSys(t, rest).log, x.e, x.handles, d);
  }

  lemma AbortNext(s: Sys, p: nat, now: int)
    requires At(s, p) && (s.procs[p].phase.AbortingUnstarted? || s.procs[p].phase.AbortingReported?)
    ensures var x, step := s.procs[p], Abort(s.db, s.procs[p].b, s.procs[p].e, false, now);
      Next(s, AbortNow(p, now, NoFault)) == Put(s.(db := step.db), p, AfterAbort(x, step.result))
  {
    hide Abort, AfterAbort;
  }

  /** The winner aborts a prepared execution that no host holds. */
  lemma AbortGranted(db: Db, b: Binding, e: Execution, now: int)
    requires Inv(db) && ValidExecution(e) && Stored(db, e) && b.owner == e.plan.owner && Readable(db, b)
    ensures IdOf(e) in db.executions
    ensures db.executions[IdOf(e)].state == Prepared && !Locked(db, IdOf(e)) ==> Abort(db, b, e, false, now).result == Ok(true)
    ensures db.executions[IdOf(e)].state != Prepared ==> Abort(db, b, e, false, now) == Step(db, Ok(false))
  {
    hide Inv, ValidExecution, BindingIn, Terminate, Locked;
    if db.executions[IdOf(e)].state != Prepared { TerminalUnlocked(db, IdOf(e)); }
  }

  /** Local work that reports an abort but left the execution prepared and unbound:
      Execute aborts it and rolls every branch back. */
  lemma ReportedAbortDelivered(evs0: seq<Event>, p: nat, acks: nat -> bool, now: int) returns (evs: seq<Event>)
    requires var s := Reached(evs0);
      && At(s, p) && s.procs[p].phase.LocalRunning? && Readable(s.db, s.procs[p].b)
      && IdOf(s.procs[p].e) in s.db.executions && s.db.executions[IdOf(s.procs[p].e)].state == Prepared && !Locked(s.db, IdOf(s.procs[p].e))
    ensures Own(evs, p)
    ensures var s := Reached(evs0); var x, t := s.procs[p], RunSys(s, evs);
      p in t.procs && t.procs[p] == x.(local := LocalAborted, phase := Done) && SentAll(t.log, x.e, Rollback)
  {
    hide Sound, Next, RunSys, Readable, SentAll, AllSent, Upto, Stored, Abort, Inv, ValidExecution, Locked;
    var s := Reached(evs0);
    ReachedSound(evs0);
    LocalFacts(s, p);
    LocalStored(s, p);
    var x := s.procs[p];
    var first := ProvenAfterLocal(s, p, LocalAborted);
    RunSound(s, first);
    var t, ev := RunSys(s, first), AbortNow(p, now, NoFault);
    assert t.procs[p] == x.(phase := AbortingReported) && t.db == s.db;
    AbortGranted(t.db, x.b, x.e, now);
    AbortNext(t, p, now);
    NextSound(t, ev);
    var rest := FinalizeCompletes(Next(t, ev), p, acks, now);
    evs := first + ([ev] + rest);
    RunConcatSys(s, first, [ev] + rest);
    RunFirst(t, ev, rest);
    AllHandlesSent(RunSys(Next(t, ev), rest).log, x.e, x.handles, Rollback);
  }

  lemma LocalStored(s: Sys, p: nat)
    requires Sound(s) && At(s, p) && (s.procs[p].phase.LocalRunning? || s.procs[p].phase.AbortingUnstarted?)
    ensures var x := s.procs[p];
      Inv(s.db) && ValidExecution(x.e) && Stored(s.db, x.e) && x.b.owner == x.e.plan.owner && x.local == LocalNotStarted
  {
    hide Inv, ActionOk, NoClash, ValidExecution, Upto, Stored;
    assert WorkOk(s.db, s.log, s.procs[p]) && ProcOk(s.db, s.log, p, s.procs[p]);
  }

  /** An outcome nobody can prove stays unknown, and the broker is told nothing. */
  lemma UndecidedStaysSilent(evs0: seq<Event>, p: nat, reported: LocalOutcome) returns (evs: seq<Event>)
    requires var s := Reached(evs0);
      && At(s, p) && s.procs[p].phase.LocalRunning? && Readable(s.db, s.procs[p].b) && reported != LocalAborted
      && IdOf(s.procs[p].e) in s.db.executions && s.db.executions[IdOf(s.procs[p].e)].state == Prepared
    ensures Own(evs, p)
    ensures var s := Reached(evs0); RunSys(s, evs) == Put(s, p, s.procs[p].(local := LocalUnknown, phase := Done))
  {
    hide Sound, Next, RunSys, Readable;
    ReachedSound(evs0);
    evs := ProvenAfterLocal(Reached(evs0), p, reported);
  }

  // ---- Before local work ------------------------------------------------------------------

  /** An Execute call that gives up before local work, over an execution it can abort or
      that is aborted already: every half it holds a handle for is rolled back. */
  lemma UnstartedAbortDelivered(evs0: seq<Event>, p: nat, acks: nat -> bool, now: int) returns (evs: seq<Event>)
    requires var s := Reached(evs0);
      && At(s, p) && s.procs[p].phase.AbortingUnstarted? && Readable(s.db, s.procs[p].b) && IdOf(s.procs[p].e) in s.db.executions
      && (s.db.executions[IdOf(s.procs[p].e)].state == Aborted
          || (s.db.executions[IdOf(s.procs[p].e)].state == Prepared && !Locked(s.db, IdOf(s.procs[p].e))))
    ensures Own(evs, p)
    ensures var s := Reached(evs0); var x, t := s.procs[p], RunSys(s, evs);
      && p in t.procs && t.procs[p] == x.(phase := Done)
      && forall j :: j in x.handles && j < |x.e.plan.branches| ==> Sent(t.log, IdOf(x.e), x.e.plan.branches[j].id, Rollback)
  {
    hide Sound, Next, RunSys, Readable, AllSent, Stored, Abort, Inv, ValidExecution, Locked, Sent;
    var s := Reached(evs0);
    ReachedSound(evs0);
    LocalStored(s, p);
    var x, ev := s.procs[p], AbortNow(p, now, NoFault);
    AbortGranted(s.db, x.b, x.e, now);
    AbortNext(s, p, now);
    NextSound(s, ev);
    var t := Next(s, ev);
    var mid: seq<Event> := [];
    if s.db.executions[IdOf(x.e)].state == Aborted {
      ManyReferences(x.e);
      StoredPlanned(s.db, x.e);
      assert Reading(t.db, t.procs[p], Aborted);
      mid := ProofCompletes(t, p, Aborted);
      RunSound(t, mid);
    }
    RunNothing(t);
    var u := RunSys(t, mid);
    assert u.procs[p] == x.(phase := Finalizing(Rollback, 0));
    var rest := FinalizeCompletes(u, p, acks, now);
    evs := [ev] + (mid + rest);
    RunFirst(s, ev, mid + rest);
    RunConcatSys(t, mid, rest);
    HandlesSent(RunSys(u, rest).log, x.e, x.handles);
  }

  lemma HandlesSent(log: seq<Action>, e: Execution, handles: set<nat>)
    requires AllSent(log, e, handles, |e.plan.branches|, Rollback)
    ensures forall j :: j in handles && j < |e.plan.branches| ==> Sent(log, IdOf(e), e.plan.branches[j].id, Rollback)
  {
    hide Sent;
  }

  lemma StoredPlanned(db: Db, e: Execution)
    requires Stored(db, e)
    ensures Planned(db, e)
  {
  }

  lemma RunNothing(s: Sys)
    ensures RunSys(s, []) == s
  {
  }

  /** A caller that lost the race to begin, or came too late, reports what the store
      proves and asks nothing of the broker. */
  lemma StaleCallerReports(evs0: seq<Event>, p: nat, now: int) returns (evs: seq<Event>)
    requires var s := Reached(evs0);
      && At(s, p) && s.procs[p].phase.Beginning? && Readable(s.db, s.procs[p].b) && Planned(s.db, s.procs[p].e)
      && BeginPrepare(s.db, s.procs[p].b, s.procs[p].e, now).result == Err(ErrStale)
    ensures Own(evs, p)
    ensures var s := Reached(evs0);
      RunSys(s, evs) == Put(s, p, s.procs[p].(local := KnownOf(s.db.executions[IdOf(s.procs[p].e)].state), phase := Done))
  {
    hide Sound, Next, RunSys, Readable, BeginPrepare, Inv, ValidExecution, Planned;
    var s := Reached(evs0);
    ReachedSound(evs0);
    var x, ev := s.procs[p], Begin(p, now, NoFault);
    RecordingValid(s, p);
    SoundInv(s);
    StaleNext(s, p, now);
    ManyReferences(x.e);
    var t, y := Next(s, ev), x.(phase := Proving(Report, []));
    var st := StateOf(s.db, x.e);
    assert Reading(t.db, t.procs[p], st);
    var rest := ProofCompletes(t, p, st);
    evs := [ev] + rest;
    RunFirst(s, ev, rest);
    PutTwice(s, p, y, Conclude(y, KnownOf(st)));
  }

  ghost function StateOf(db: Db, e: Execution): (st: State)
    requires Planned(db, e)
    ensures IdOf(e) in db.executions && st == db.executions[IdOf(e)].state
  {
    db.executions[IdOf(e)].state
  }

  lemma StaleNext(s: Sys, p: nat, now: int)
    requires At(s, p) && s.procs[p].phase.Beginning? && BeginPrepare(s.db, s.procs[p].b, s.procs[p].e, now).result == Err(ErrStale)
    ensures Next(s, Begin(p, now, NoFault)) == Put(s, p, s.procs[p].(phase := Proving(Report, [])))
  {
    hide BeginPrepareCheck;
  }

  // ---- Preparing --------------------------------------------------------------------------

  predicate Good(h: HalfReceipt) { ValidHalf(h) && h.outcome == HalfPrepared }

  /** Branches from k on have no audit yet, and the execution can be worked on. */
  predicate Unaudited(db: Db, e: Execution, k: nat) {
    && Stored(db, e) && db.executions[IdOf(e)].state == Prepared && !Locked(db, IdOf(e)) && IdOf(e) in db.witnesses
    && forall i :: k <= i < |e.plan.branches| ==>
         e.plan.branches[i].id in db.witnesses[IdOf(e)] && db.witnesses[IdOf(e)][e.plan.branches[i].id].audit == NEW_AUDIT
  }

  lemma HalfRecordable(db: Db, b: Binding, e: Execution, k: nat, h: HalfReceipt, now: int)
    requires Inv(db) && ValidExecution(e) && b.owner == e.plan.owner && Readable(db, b) && k < |e.plan.branches| && k < |References(e)|
    requires Unaudited(db, e, k) && Good(h)
    ensures var t := RecordHalf(db, b, e, References(e)[k], h, now); t.result.Ok? && Unaudited(t.db, e, k + 1) && Readable(t.db, b)
  {
    hide Inv, ValidExecution, References, ReceiptCheck, ValidHalf, BindingIn, Stored;
    StoredRow(db, e);
    OwnWitness(db, e, k);
    ReceiptFound(db, b, e, k);
    DistinctIds(e);
    var t := RecordHalf(db, b, e, References(e)[k], h, now);
    assert t.db.executions == db.executions && t.db.bindings == db.bindings && t.db.hosts == db.hosts;
    SameReadable(db, t.db, b);
    SameStored(db, t.db, e);
  }

  lemma SameReadable(a: Db, b: Db, c: Binding)
    requires a.bindings == b.bindings
    ensures Readable(a, c) == Readable(b, c)
  {
  }

  lemma SameStored(a: Db, b: Db, e: Execution)
    requires a.executions == b.executions
    ensures Stored(a, e) == Stored(b, e)
  {
  }

  lemma DistinctIds(e: Execution)
    requires ValidExecution(e)
    ensures forall i, j :: 0 <= i < j < |e.plan.branches| ==> e.plan.branches[i].id != e.plan.branches[j].id
  {
  }

  lemma SendNext(s: Sys, p: nat, h: HalfReceipt)
    requires At(s, p) && s.procs[p].phase.Sending? && s.procs[p].phase.next < |s.procs[p].e.plan.branches| && Good(h)
    ensures var x := s.procs[p]; var k := x.phase.next;
      Next(s, SendHalf(p, h, true, false)) ==
        Put(s, p, x.(handles := x.handles + {k}, phase := Recording(k, h, true))).(log := s.log + [HalfSent(IdOf(x.e), k, HalfAnswer(h, true, false))])
  {
    hide ValidHalf;
  }

  lemma AuditHalfNext(s: Sys, p: nat, now: int)
    requires At(s, p) && s.procs[p].phase.Recording? && s.procs[p].phase.next < |References(s.procs[p].e)| && s.procs[p].phase.usable
    requires RecordHalf(s.db, s.procs[p].b, s.procs[p].e, References(s.procs[p].e)[s.procs[p].phase.next], s.procs[p].phase.receipt, now).result.Ok?
    ensures var x := s.procs[p];
      Next(s, AuditHalf(p, now, NoFault)) ==
        Put(s.(db := RecordHalf(s.db, x.b, x.e, References(x.e)[x.phase.next], x.phase.receipt, now).db), p, x.(phase := Sending(x.phase.next + 1)))
  {
    hide RecordHalf, References;
  }

  /** Sending goes through all branches and starts the local work. */
  lemma {:induction false} PrepareCompletes(s: Sys, p: nat, answers: nat -> HalfReceipt, now: int) returns (evs: seq<Event>)
    requires Sound(s) && At(s, p) && s.procs[p].phase.Sending? && Readable(s.db, s.procs[p].b)
    requires s.procs[p].phase.next <= |s.procs[p].e.plan.branches| && Unaudited(s.db, s.procs[p].e, s.procs[p].phase.next)
    requires forall k :: Good(answers(k))
    ensures Own(evs, p)
    ensures var x, t := s.procs[p], RunSys(s, evs);
      && At(t, p) && t.procs[p].phase == LocalRunning && t.procs[p].e == x.e && t.procs[p].b == x.b
      && LocalRan(IdOf(x.e)) in t.log && s.log <= t.log
      && forall k :: x.phase.next <= k < |x.e.plan.branches| ==> HalfSent(IdOf(x.e), k, HalfAnswer(answers(k), true, false)) in t.log
    decreases |s.procs[p].e.plan.branches| - s.procs[p].phase.next
  {
    hide Sound, Next, Readable, Good, References, RecordHalf, ValidExecution, Inv, Unaudited;
    var x, k := s.procs[p], s.procs[p].phase.next;
    if k == |x.e.plan.branches| {
      LocalNext(s, p);
      evs := [RunLocal(p)];
      RunSingle(s, RunLocal(p));
    } else {
      var h, send, audit := answers(k), SendHalf(p, answers(k), true, false), AuditHalf(p, now, NoFault);
      SendNext(s, p, h);
      NextSound(s, send);
      var t := Next(s, send);
      RecordingValid(s, p);
      SoundInv(s);
      ManyReferences(x.e);
      HalfRecordable(s.db, x.b, x.e, k, h, now);
      AuditHalfNext(t, p, now);
      NextSound(t, audit);
      var u := Next(t, audit);
      var rest := PrepareCompletes(u, p, answers, now);
      evs := [send] + ([audit] + rest);
      RunFirst(s, send, [audit] + rest);
      RunFirst(t, audit, rest);
      assert HalfSent(IdOf(x.e), k, HalfAnswer(h, true, false)) in t.log;
    }
  }

  lemma LocalNext(s: Sys, p: nat)
    requires At(s, p) && s.procs[p].phase == Sending(|s.procs[p].e.plan.branches|)
    ensures var x := s.procs[p];
      Next(s, RunLocal(p)) == Put(s, p, x.(phase := LocalRunning)).(log := s.log + [LocalRan(IdOf(x.e))])
  {
  }

  /** A caller whose BeginPrepare is granted on an unaudited execution, with every half
      answered as prepared, sends one half per branch and starts the local work. */
  lemma ExecuteReachesLocal(evs0: seq<Event>, p: nat, answers: nat -> HalfReceipt, now: int) returns (evs: seq<Event>)
    requires var s := Reached(evs0);
      && At(s, p) && s.procs[p].phase.Beginning? && Readable(s.db, s.procs[p].b)
      && BeginPrepare(s.db, s.procs[p].b, s.procs[p].e, now).result.Ok? && Unaudited(s.db, s.procs[p].e, 0)
    requires forall k :: Good(answers(k))
    ensures Own(evs, p)
    ensures var s := Reached(evs0); var x, t := s.procs[p], RunSys(s, evs);
      && At(t, p) && t.procs[p].phase == LocalRunning && t.procs[p].e == x.e && LocalRan(IdOf(x.e)) in t.log
      && forall k :: 0 <= k < |x.e.plan.branches| ==> HalfSent(IdOf(x.e), k, HalfAnswer(answers(k), true, false)) in t.log
  {
    hide Sound, Next, RunSys, Readable, Good, BeginPrepare, Unaudited;
    var s := Reached(evs0);
    ReachedSound(evs0);
    var x, ev := s.procs[p], Begin(p, now, NoFault);
    BegunNext(s, p, now);
    NextSound(s, ev);
    var rest := PrepareCompletes(Next(s, ev), p, answers, now);
    evs := [ev] + rest;
    RunFirst(s, ev, rest);
  }

  lemma BegunNext(s: Sys, p: nat, now: int)
    requires At(s, p) && s.procs[p].phase.Beginning? && Readable(s.db, s.procs[p].b)
    requires BeginPrepare(s.db, s.procs[p].b, s.procs[p].e, now).result.Ok? && Unaudited(s.db, s.procs[p].e, 0)
    ensures var x, t := s.procs[p], Next(s, Begin(p, now, NoFault));
      && t.log == s.log + [Begun(p, IdOf(x.e))] && p in t.procs && t.procs[p] == x.(phase := Sending(0))
      && Readable(t.db, x.b) && Unaudited(t.db, x.e, 0)
  {
    hide Frozen, BindingIn;
    var x, t := s.procs[p], Next(s, Begin(p, now, NoFault));
    SameReadable(s.db, t.db, x.b);
  }

  // ---- Recovery ---------------------------------------------------------------------------

  /** The stored reference of a witness, exact to the last field. */
  predicate Known(db: Db, ref: Reference) {
    var id := ExecutionOf(ref);
    id in db.executions && id in db.witnesses && ref.branchId in db.witnesses[id] && db.witnesses[id][ref.branchId].reference == ref
  }

  lemma CheckFacts(db: Db, b: Binding, ref: Reference)
    requires Inv(db) && ValidReference(ref) && ref.owner == b.owner && Readable(db, b) && Known(db, ref)
    ensures var st := db.executions[ExecutionOf(ref)].state;
      EvidenceFor(db, b, ref) == Ok(Some(Evidence(ref, st, st))) && Resolve(ref, EvidenceFor(db, b, ref).value) == DecisionOf(st)
  {
    hide Inv, FinalAgrees;
    KnownWitness(db, ref);
  }

  lemma CheckNext(s: Sys, p: nat, b: Binding, ref: Reference)
    requires p !in s.procs && EvidenceFor(s.db, b, ref).Ok?
    ensures var d := Resolve(ref, EvidenceFor(s.db, b, ref).value);
      Next(s, Check(p, b, ref)) == if d == Unknown then s else Put(s, p, Checker(b, ref, d))
  {
    hide EvidenceFor, Resolve;
  }

  lemma RecoverNext(s: Sys, p: nat, acked: bool)
    requires p in s.procs && s.procs[p].Checker?
    ensures var x, t := s.procs[p], Next(s, Recover(p, acked));
      && t.db == s.db && t.log == s.log + [Ended(ExecutionOf(x.ref), x.ref.branchId, x.decision, acked)]
      && (acked ==> t.procs == s.procs[p := Auditor(x.b, x.ref, if x.decision == Commit then FinalCommitConfirmed else FinalRollbackConfirmed)])
      && (!acked ==> t.procs == s.procs - {p})
  {
  }

  lemma AuditRecoveryNext(s: Sys, p: nat, now: int)
    requires p in s.procs && s.procs[p].Auditor?
    ensures var x, t := s.procs[p], Next(s, AuditRecovery(p, now, NoFault));
      t.log == s.log && t.db == RecordRecoveryFinal(s.db, x.b, x.ref, x.outcome, now).db
  {
    hide RecordRecoveryFinal;
  }

  lemma RecoveryRecordable(db: Db, b: Binding, ref: Reference, f: FinalOutcome, now: int)
    requires Inv(db) && ValidReference(ref) && ref.owner == b.owner && Readable(db, b) && Known(db, ref)
    requires var st := db.executions[ExecutionOf(ref)].state;
      (f == FinalCommitConfirmed && st == Committed) || (f == FinalRollbackConfirmed && st == Aborted)
    ensures var id, t := ExecutionOf(ref), RecordRecoveryFinal(db, b, ref, f, now);
      t.result.Ok? && id in t.db.witnesses && ref.branchId in t.db.witnesses[id] && t.db.witnesses[id][ref.branchId].audit.final == f
  {
    hide Inv, BindingIn, Locked, ValidReference;
    TerminalUnlocked(db, ExecutionOf(ref));
    KnownWitness(db, ref);
  }

  lemma KnownWitness(db: Db, ref: Reference)
    requires Inv(db) && Known(db, ref)
    ensures var w, st := db.witnesses[ExecutionOf(ref)][ref.branchId], db.executions[ExecutionOf(ref)].state;
      w.state == st && FinalAgrees(w.audit.final, st)
  {
    hide RequestsOk, HostsOk, RowOk;
    var id := ExecutionOf(ref);
    assert WitnessesOk(id, db.executions[id], db.witnesses[id]);
    assert WitnessOk(db.executions[id].state, db.witnesses[id][ref.branchId]);
  }

  /** The broker's recovery check of a half whose execution is terminal is answered with
      that outcome, and once acknowledged the witness says so; while the execution is
      prepared the check stays silent. */
  lemma RecoveryAnswers(evs0: seq<Event>, p: nat, b: Binding, ref: Reference, now: int)
    requires var s := Reached(evs0);
      p !in s.procs && ValidReference(ref) && ref.owner == b.owner && Readable(s.db, b) && Known(s.db, ref)
    ensures var s := Reached(evs0); var id := ExecutionOf(ref); var st := s.db.executions[id].state;
      if st == Prepared then Next(s, Check(p, b, ref)) == s
      else
        var t := RunSys(s, [Check(p, b, ref), Recover(p, true), AuditRecovery(p, now, NoFault)]);
        && t.log == s.log + [Ended(id, ref.branchId, if st == Committed then Commit else Rollback, true)]
        && id in t.db.witnesses && ref.branchId in t.db.witnesses[id]
        && t.db.witnesses[id][ref.branchId].audit.final == (if st == Committed then FinalCommitConfirmed else FinalRollbackConfirmed)
  {
    hide Sound, Next, RunSys, Readable, Inv, EvidenceFor, Resolve, ValidReference, RecordRecoveryFinal;
    var s := Reached(evs0);
    ReachedSound(evs0);
    SoundInv(s);
    CheckFacts(s.db, b, ref);
    CheckNext(s, p, b, ref);
    var st := s.db.executions[ExecutionOf(ref)].state;
    if st != Prepared {
      var x, y, z := Check(p, b, ref), Recover(p, true), AuditRecovery(p, now, NoFault);
      var t := Next(s, x);
      RecoverNext(t, p, true);
      var u := Next(t, y);
      AuditRecoveryNext(u, p, now);
      RecoveryRecordable(s.db, b, ref, if st == Committed then FinalCommitConfirmed else FinalRollbackConfirmed, now);
      RunFirst(s, x, [y, z]);
      RunFirst(t, y, [z]);
      RunSingle(u, z);
      assert [x] + [y, z] == [x, y, z] && [y] + [z] == [y, z];
    }
  }
}
