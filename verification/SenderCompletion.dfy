/** Execute and the recovery check carry through: from every reachable state, where
    no call fails, a process' own steps bring the durable outcome to the broker and
    the broker's answers to the witnesses. */
module SenderCompletion {
  import opened Protocol
  import opened TransactionTables
  import opened TransactionInvariants
  import opened TransactionSafety
  import opened SenderSystem
  import opened SenderSafety
  import opened ExecuteOnly
  import opened SenderFinals

  predicate Own(evs: seq<Event>, p: nat) { forall i :: 0 <= i < |evs| ==> !evs[i].Env? && !evs[i].Crash? && evs[i].p == p }

  lemma {:induction false} RunConcatSys(s: Sys, evs: seq<Event>, more: seq<Event>)
    ensures RunSys(s, evs + more) == RunSys(RunSys(s, evs), more)
    decreases |evs|
  {
    hide Next;
    if evs == [] {
      assert evs + more == more;
    } else {
      assert (evs + more)[1..] == evs[1..] + more;
      RunConcatSys(Next(s, evs[0]), evs[1..], more);
    }
  }

  lemma RunFirst(s: Sys, ev: Event, rest: seq<Event>)
    ensures RunSys(s, [ev] + rest) == RunSys(Next(s, ev), rest)
  {
    hide Next;
    assert ([ev] + rest)[1..] == rest;
  }

  lemma RunSingle(s: Sys, ev: Event)
    ensures RunSys(s, [ev]) == Next(s, ev)
  {
    hide Next;
    RunFirst(s, ev, []);
    assert [ev] + [] == [ev];
  }

  /** The owner's row still names this store and schema, whatever its epoch. */
  predicate Readable(db: Db, b: Binding) { BindingIn(db, b, false).Ok? }

  function DecisionOf(st: State): Decision {
    match st case Prepared => Unknown case Committed => Commit case Aborted => Rollback
  }

  function KnownOf(st: State): LocalOutcome {
    match st case Prepared => LocalUnknown case Committed => LocalCommitted case Aborted => LocalAborted
  }

  // ---- Finalizing -------------------------------------------------------------------------

  lemma ManyReferences(e: Execution)
    requires ValidExecution(e)
    ensures |References(e)| == |e.plan.branches| > 0
  {
  }

  /** Everything a process can rely on in a reachable system. */
  ghost predicate Sound(s: Sys) { SysInv(s) && WorkInv(s) }

  lemma NextSound(s: Sys, ev: Event)
    requires Sound(s)
    ensures Sound(Next(s, ev))
  {
    hide SysInv, WorkInv, Next;
    NextKeeps(s, ev);
    NextKeepsWork(s, ev);
  }

  lemma {:induction false} RunSound(s: Sys, evs: seq<Event>)
    requires Sound(s)
    ensures Sound(RunSys(s, evs))
    decreases |evs|
  {
    hide Sound, Next;
    if evs != [] {
      NextSound(s, evs[0]);
      RunSound(Next(s, evs[0]), evs[1..]);
    }
  }

  lemma ReachedSound(evs: seq<Event>)
    ensures Sound(Reached(evs))
  {
    hide SysInv, WorkInv, RunSys;
    ReachedInv(evs);
    ReachedWork(evs);
  }

  lemma SoundInv(s: Sys)
    requires Sound(s)
    ensures Inv(s.db)
  {
    hide WorkInv, Inv;
  }

  lemma EndBranchEffect(s: Sys, p: nat, acked: bool)
    requires At(s, p) && s.procs[p].phase.Finalizing?
    ensures var x, t := s.procs[p], Next(s, EndBranch(p, acked));
      var k, d := x.phase.next, x.phase.decision;
      && t.db == s.db && s.log <= t.log && p in t.procs
      && t.procs[p] == (if k >= |x.e.plan.branches| then x.(phase := Done)
                        else if k !in x.handles then x.(phase := Finalizing(d, k + 1))
                        else x.(phase := RecordingFinal(d, k, if !acked then FinalUnknown else if d == Commit then FinalCommitConfirmed else FinalRollbackConfirmed)))
      && (k < |x.e.plan.branches| && k in x.handles ==> t.log == s.log + [Ended(IdOf(x.e), x.e.plan.branches[k].id, d, acked)])
      && (!(k < |x.e.plan.branches| && k in x.handles) ==> t.log == s.log)
  {
  }

  lemma AuditFinalEffect(s: Sys, p: nat, now: int)
    requires Sound(s) && At(s, p) && s.procs[p].phase.RecordingFinal?
    ensures var x, t := s.procs[p], Next(s, AuditFinal(p, now, NoFault));
      t.log == s.log && p in t.procs && t.procs[p] == x.(phase := Finalizing(x.phase.decision, x.phase.next + 1))
  {
    hide RecordFinal, References, Sound;
    RecordingValid(s, p);
    ManyReferences(s.procs[p].e);
  }

  lemma RecordingValid(s: Sys, p: nat)
    requires Sound(s) && At(s, p)
    ensures var x := s.procs[p];
      ValidExecution(x.e) && x.b.owner == x.e.plan.owner && x.b.epoch == x.e.epoch && (x.phase.RecordingFinal? ==> x.phase.next < |x.e.plan.branches|)
  {
    hide Inv, PhaseOk, ActionOk, NoClash, AllSent, ValidExecution;
    assert WorkOk(s.db, s.log, s.procs[p]) && ProcOk(s.db, s.log, p, s.procs[p]);
  }

  /** Finalizing goes through all handles, whatever the broker answers. */
  lemma {:induction false} FinalizeCompletes(s: Sys, p: nat, acks: nat -> bool, now: int) returns (evs: seq<Event>)
    requires Sound(s) && At(s, p) && s.procs[p].phase.Finalizing?
    ensures Own(evs, p)
    ensures var x, t := s.procs[p], RunSys(s, evs);
      && p in t.procs && t.procs[p] == x.(phase := Done) && s.log <= t.log
      && AllSent(t.log, x.e, x.handles, |x.e.plan.branches|, x.phase.decision)
    decreases |s.procs[p].e.plan.branches| - s.procs[p].phase.next
  {
    hide Sound, Next, AllSent;
    var x, k, d := s.procs[p], s.procs[p].phase.next, s.procs[p].phase.decision;
    var ev := EndBranch(p, acks(k));
    var t := Next(s, ev);
    EndBranchEffect(s, p, acks(k));
    NextSound(s, ev);
    RunSingle(s, ev);
    if k >= |x.e.plan.branches| {
      evs := [ev];
      SentSoFar(s, p);
    } else if k !in x.handles {
      var rest := FinalizeCompletes(t, p, acks, now);
      evs := [ev] + rest;
      RunFirst(s, ev, rest);
    } else {
      var audit := AuditFinal(p, now, NoFault);
      var u := Next(t, audit);
      AuditFinalEffect(t, p, now);
      NextSound(t, audit);
      var rest := FinalizeCompletes(u, p, acks, now);
      evs := [ev] + ([audit] + rest);
      RunFirst(s, ev, [audit] + rest);
      RunFirst(t, audit, rest);
    }
  }

  lemma SentSoFar(s: Sys, p: nat)
    requires Sound(s) && At(s, p) && s.procs[p].phase.Finalizing? && s.procs[p].phase.next >= |s.procs[p].e.plan.branches|
    ensures var x := s.procs[p]; AllSent(s.log, x.e, x.handles, |x.e.plan.branches|, x.phase.decision)
  {
    hide SysInv, Stored, AllSent;
    assert WorkOk(s.db, s.log, s.procs[p]);
    AllOf(s.log, s.procs[p].e, s.procs[p].handles, s.procs[p].phase.next, s.procs[p].phase.decision);
  }

  lemma AllOf(log: seq<Action>, e: Execution, handles: set<nat>, k: nat, d: Decision)
    requires AllSent(log, e, handles, k, d) && k >= |e.plan.branches|
    ensures AllSent(log, e, handles, |e.plan.branches|, d)
  {
  }

  // ---- Answers reach the witnesses --------------------------------------------------------

  lemma TerminalUnlocked(db: Db, id: ExecutionId)
    requires Inv(db) && id in db.executions && db.executions[id].state != Prepared
    ensures !Locked(db, id)
  {
    hide TablesOk, RequestsOk;
    forall u | u in db.hosts ensures id !in db.hosts[u].locked { assert HostOk(db, db.hosts[u]); }
  }

  predicate Planned(db: Db, e: Execution) { IdOf(e) in db.executions && db.executions[IdOf(e)].plan == e.plan }

  /** The stored witness of a branch: exact, in the execution's state. */
  lemma OwnWitness(db: Db, e: Execution, k: nat)
    requires Inv(db) && ValidExecution(e) && Planned(db, e) && k < |e.plan.branches|
    ensures var id, bid := IdOf(e), e.plan.branches[k].id;
      && k < |References(e)| && id in db.witnesses && bid in db.witnesses[id] && References(e)[k].branchId == bid
      && db.witnesses[id][bid].reference == References(e)[k] == ReferenceOf(e.plan, e.plan.branches[k], e.fence, e.epoch)
      && db.witnesses[id][bid].state == db.executions[id].state
  {
    hide Frozen, RequestsOk, HostsOk;
    var id, bid := IdOf(e), e.plan.branches[k].id;
    assert RowOk(id, db.executions[id]) && WitnessesOk(id, db.executions[id], db.witnesses[id]);
    assert WitnessOk(db.executions[id].state, db.witnesses[id][bid]);
  }

  lemma FinalRecordable(db: Db, b: Binding, e: Execution, k: nat, f: FinalOutcome, code: string, now: int)
    requires Inv(db) && ValidExecution(e) && Stored(db, e) && b.owner == e.plan.owner && Readable(db, b) && k < |e.plan.branches|
    requires db.executions[IdOf(e)].state != Prepared && FinalAgrees(f, db.executions[IdOf(e)].state) && ValidFinal(f, code)
    requires k < |References(e)| && IdOf(e) in db.witnesses && e.plan.branches[k].id in db.witnesses[IdOf(e)]
    requires FinalOpen(db.witnesses[IdOf(e)][e.plan.branches[k].id].audit.final, f)
    ensures var id, bid, t := IdOf(e), e.plan.branches[k].id, RecordFinal(db, b, e, References(e)[k], f, code, now);
      && t.result.Ok? && id in t.db.witnesses && bid in t.db.witnesses[id]
      && t.db.witnesses[id][bid].audit == db.witnesses[id][bid].audit.(final := f, finalError := code, finalAt := Some(now))
  {
    hide Inv, ValidExecution, Readable, ValidFinal, FinalAgrees, References, Stored, ReceiptCheck;
    StoredRow(db, e);
    OwnWitness(db, e, k);
    TerminalUnlocked(db, IdOf(e));
    ReceiptFound(db, b, e, k);
  }

  lemma StoredRow(db: Db, e: Execution)
    requires Stored(db, e)
    ensures IdOf(e) in db.executions && Planned(db, e)
  {
  }

  lemma ReceiptFound(db: Db, b: Binding, e: Execution, k: nat)
    requires Inv(db) && ValidExecution(e) && Stored(db, e) && b.owner == e.plan.owner && Readable(db, b) && k < |e.plan.branches|
    requires !Locked(db, IdOf(e)) && k < |References(e)| && IdOf(e) in db.witnesses && e.plan.branches[k].id in db.witnesses[IdOf(e)]
    ensures ReceiptCheck(db, b, e, References(e)[k]) == Ok(db.witnesses[IdOf(e)][e.plan.branches[k].id])
  {
    hide Inv, ValidExecution, BindingIn, Locked, References;
    OwnWitness(db, e, k);
    var ref := References(e)[k];
    assert ref in References(e);
    assert ref.owner == b.owner;
  }

  /** The answer to an end-transaction request is what the next audit writes, where the
      column was still open and the call met no fault: unknown with its code if the
      request failed, the confirmed decision otherwise. */
  lemma AnswerRecorded(evs: seq<Event>, p: nat, acked: bool, now: int)
    requires var s := Reached(evs);
      && At(s, p) && s.procs[p].phase.Finalizing? && s.procs[p].phase.next < |s.procs[p].e.plan.branches|
      && s.procs[p].phase.next in s.procs[p].handles && Readable(s.db, s.procs[p].b)
    requires var s := Reached(evs); var x := s.procs[p];
      var id, bid := IdOf(x.e), x.e.plan.branches[x.phase.next].id;
      id in s.db.witnesses && bid in s.db.witnesses[id] && FinalRank(s.db.witnesses[id][bid].audit.final) < 2
    ensures var s := Reached(evs); var x := s.procs[p]; var t := RunSys(s, [EndBranch(p, acked), AuditFinal(p, now, NoFault)]);
      var id, bid, d := IdOf(x.e), x.e.plan.branches[x.phase.next].id, x.phase.decision;
      && t.log == s.log + [Ended(id, bid, d, acked)] && id in t.db.witnesses && bid in t.db.witnesses[id]
      && var a := t.db.witnesses[id][bid].audit;
         && a.finalAt == Some(now)
         && (!acked ==> a.final == FinalUnknown && a.finalError == "final_rpc_unknown")
         && (acked ==> a.finalError == "" && a.final == (if d == Commit then FinalCommitConfirmed else FinalRollbackConfirmed))
  {
    hide RunSys, Sound, Next, RecordFinal, References, ValidExecution, Readable, Stored, Inv;
    var s := Reached(evs);
    var x := s.procs[p];
    var k, d := x.phase.next, x.phase.decision;
    var ev, audit := EndBranch(p, acked), AuditFinal(p, now, NoFault);
    ReachedSound(evs);
    var t := Next(s, ev);
    EndBranchEffect(s, p, acked);
    NextSound(s, ev);
    RecordingValid(t, p);
    ManyReferences(x.e);
    FinalizingDecided(s, p);
    var f := if !acked then FinalUnknown else if d == Commit then FinalCommitConfirmed else FinalRollbackConfirmed;
    var code := if f == FinalUnknown then "final_rpc_unknown" else "";
    FinalRecordable(s.db, x.b, x.e, k, f, code, now);
    AuditFinalDb(t, p, now);
    AuditFinalEffect(t, p, now);
    RunFirst(s, ev, [audit]);
    RunSingle(t, audit);
    assert [ev] + [audit] == [ev, audit];
  }

  lemma AuditFinalDb(s: Sys, p: nat, now: int)
    requires At(s, p) && s.procs[p].phase.RecordingFinal? && s.procs[p].phase.next < |References(s.procs[p].e)|
    ensures var x := s.procs[p];
      var code := if x.phase.outcome == FinalUnknown then "final_rpc_unknown" else "";
      Next(s, AuditFinal(p, now, NoFault)).db == RecordFinal(s.db, x.b, x.e, References(x.e)[x.phase.next], x.phase.outcome, code, now).db
  {
    hide RecordFinal, References;
  }

  lemma FinalizingDecided(s: Sys, p: nat)
    requires Sound(s) && At(s, p) && s.procs[p].phase.Finalizing?
    ensures var x := s.procs[p];
      && Inv(s.db) && ValidExecution(x.e) && Stored(s.db, x.e)
      && x.phase.decision != Unknown && DecisionOf(s.db.executions[IdOf(x.e)].state) == x.phase.decision
  {
    hide Inv, ActionOk, NoClash, AllSent, ValidExecution;
    assert WorkOk(s.db, s.log, s.procs[p]) && ProcOk(s.db, s.log, p, s.procs[p]);
  }

  // ---- Reading the proof ------------------------------------------------------------------

  function FactOf(e: Execution, i: nat, st: State): Option<Evidence>
    requires i < |References(e)|
  {
    Some(Evidence(References(e)[i], st, st))
  }

  lemma ReadsFact(db: Db, b: Binding, e: Execution, i: nat)
    requires Inv(db) && ValidExecution(e) && Planned(db, e) && b.owner == e.plan.owner && Readable(db, b) && i < |References(e)|
    ensures IdOf(e) in db.executions && EvidenceFor(db, b, References(e)[i]) == Ok(FactOf(e, i, db.executions[IdOf(e)].state))
  {
    hide Inv, ValidExecution, References;
    ManyReferences(e);
    OwnWitness(db, e, i);
    var ref := References(e)[i];
    assert ValidReference(ref) && ExecutionOf(ref) == IdOf(e) && ref.owner == b.owner;
  }

  /** The facts of one execution decide exactly its terminal state. */
  lemma FactsDecide(e: Execution, evidence: seq<Option<Evidence>>, st: State)
    requires ValidExecution(e) && |evidence| == |References(e)|
    requires forall i :: 0 <= i < |evidence| ==> evidence[i] == FactOf(e, i, st)
    ensures DecideLocal(References(e), evidence) == KnownOf(st)
  {
    ManyReferences(e);
    hide Frozen;
    var refs := References(e);
    forall i | 0 <= i < |refs| ensures SameExecution(refs[0], refs[i]) && Resolve(refs[i], evidence[i]) == DecisionOf(st) {
      assert refs[i] == ReferenceOf(e.plan, e.plan.branches[i], e.fence, e.epoch);
      assert refs[0] == ReferenceOf(e.plan, e.plan.branches[0], e.fence, e.epoch);
    }
    assert st != Prepared ==> Unanimous(refs, evidence, DecisionOf(st));
    assert Resolve(refs[0], evidence[0]) == DecisionOf(st);
  }

  /** An executor in the middle of a proof whose reads so far show the durable state. */
  ghost predicate Reading(db: Db, x: Proc, st: State) {
    && Inv(db) && x.Executor? && x.phase.Proving? && Readable(db, x.b) && Planned(db, x.e)
    && ValidExecution(x.e) && x.b.owner == x.e.plan.owner
    && db.executions[IdOf(x.e)].state == st && |x.phase.seen| < |References(x.e)|
    && forall i :: 0 <= i < |x.phase.seen| ==> x.phase.seen[i] == FactOf(x.e, i, st)
  }

  lemma AfterReadOne(db: Db, x: Proc, st: State)
    requires Reading(db, x, st)
    ensures var seen := x.phase.seen + [FactOf(x.e, |x.phase.seen|, st)];
      if |seen| < |References(x.e)| then AfterRead(db, x, false) == x.(phase := x.phase.(seen := seen)) && Reading(db, x.(phase := x.phase.(seen := seen)), st)
      else AfterRead(db, x, false) == Conclude(x, KnownOf(st))
  {
    hide Inv, ValidExecution, References, Readable, DecideLocal, EvidenceFor, Planned, FactOf;
    var n := |x.phase.seen|;
    ReadsFact(db, x.b, x.e, n);
    var seen := x.phase.seen + [FactOf(x.e, n, st)];
    if |seen| == |References(x.e)| { FactsDecide(x.e, seen, st); }
  }

  lemma ReadNext(s: Sys, p: nat)
    requires At(s, p) && s.procs[p].phase.Proving?
    ensures Next(s, ReadEvidence(p, false)) == Put(s, p, AfterRead(s.db, s.procs[p], false))
  {
    hide AfterRead;
  }

  /** The reads go through and conclude with the durable state. */
  lemma {:induction false} ProofCompletes(s: Sys, p: nat, st: State) returns (evs: seq<Event>)
    requires p in s.procs && Reading(s.db, s.procs[p], st)
    ensures Own(evs, p) && RunSys(s, evs) == Put(s, p, Conclude(s.procs[p], KnownOf(st)))
    decreases |References(s.procs[p].e)| - |s.procs[p].phase.seen|
  {
    hide Next, References, Reading, AfterRead, FactOf, Conclude;
    var x, ev := s.procs[p], ReadEvidence(p, false);
    ReadingFacts(s.db, x, st);
    AfterReadOne(s.db, x, st);
    ReadNext(s, p);
    RunSingle(s, ev);
    if |x.phase.seen| + 1 < |References(x.e)| {
      var y := AfterRead(s.db, x, false);
      var rest := ProofCompletes(Next(s, ev), p, st);
      evs := [ev] + rest;
      RunFirst(s, ev, rest);
      ConcludeSame(x, y.phase.seen, KnownOf(st));
      PutTwice(s, p, y, Conclude(x, KnownOf(st)));
    } else {
      evs := [ev];
    }
  }

  lemma ReadingFacts(db: Db, x: Proc, st: State)
    requires Reading(db, x, st)
    ensures x.Executor? && x.phase.Proving? && |x.phase.seen| < |References(x.e)|
  {
  }

  lemma ConcludeSame(x: Proc, seen: seq<Option<Evidence>>, known: LocalOutcome)
    requires x.Executor? && x.phase.Proving?
    ensures Conclude(x.(phase := x.phase.(seen := seen)), known) == Conclude(x, known)
  {
  }

  lemma PutTwice(s: Sys, p: nat, x: Proc, y: Proc)
    ensures Put(Put(s, p, x), p, y) == Put(s, p, y)
  {
  }
}
