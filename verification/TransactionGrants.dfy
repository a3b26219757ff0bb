/** Who gets what: over every reachable store, the exact conditions under which each
    operation is granted, and exactly what it then changes. What the operations re-read
    and re-check beyond these conditions never refuses a caller that meets them. */
module TransactionGrants {
  import opened Protocol
  import opened TransactionTables
  import opened TransactionInvariants
  import opened TransactionSafety
  import opened AuditFrames

  // ---- Bindings ---------------------------------------------------------------------------

  /** The owner's row names this store and the schema. */
  predicate Reader(db: Db, b: Binding) {
    b.owner in db.bindings && db.bindings[b.owner].storeId == b.storeId && db.bindings[b.owner].schema == 1
  }

  /** And the epoch the store was built with. */
  predicate Writer(db: Db, b: Binding) { Reader(db, b) && db.bindings[b.owner].epoch == b.epoch }

  lemma BindingExactly(db: Db, b: Binding)
    ensures BindingIn(db, b, false).Ok? <==> Reader(db, b)
    ensures BindingIn(db, b, true).Ok? <==> Writer(db, b)
    ensures b.owner !in db.bindings ==> BindingIn(db, b, true) == BindingIn(db, b, false) == Err(ErrNoRow)
    ensures b.owner in db.bindings && db.bindings[b.owner].storeId != b.storeId ==> BindingIn(db, b, true) == BindingIn(db, b, false) == Err(ErrBinding)
    ensures b.owner in db.bindings && db.bindings[b.owner].epoch != b.epoch ==> BindingIn(db, b, true) == Err(ErrBinding)
  {
  }

  // ---- What an operation may change -------------------------------------------------------

  /** e is added as the active execution of r: prepared, not started, with one prepared
      unaudited witness per branch; every other row is as it was. */
  predicate Added(db: Db, db': Db, r: Request, e: Execution) {
    var id := IdOf(e);
    && db'.bindings == db.bindings && db'.hosts == db.hosts
    && db'.requests == db.requests[r.id := RequestRow(r.inputHash, id)]
    && db'.executions == db.executions[id := ExecutionRow(r.id, e.plan, e.token, Prepared, e.leaseUntil, false)]
    && id in db'.witnesses && db'.witnesses == db.witnesses[id := db'.witnesses[id]]
    && db'.witnesses[id].Keys == BranchIds(e.plan)
    && forall x :: x in e.plan.branches ==>
         x.id in db'.witnesses[id] && db'.witnesses[id][x.id] == Witness(ReferenceOf(e.plan, x, e.fence, e.epoch), Prepared, NEW_AUDIT)
  }

  lemma InsertAdds(db: Db, r: Request, e: Execution)
    requires Frozen(e.plan)
    ensures Added(db, Insert(db, r, e), r, e)
  {
    var ws := NewWitnesses(e.plan, e.fence, e.epoch);
    forall x | x in e.plan.branches ensures x.id in ws && ws[x.id] == Witness(ReferenceOf(e.plan, x, e.fence, e.epoch), Prepared, NEW_AUDIT) {
      var i :| 0 <= i < |e.plan.branches| && e.plan.branches[i] == x;
      assert ws[e.plan.branches[i].id] == NewWitness(e.plan, i, e.fence, e.epoch);
    }
    assert ws.Keys == BranchIds(e.plan);
  }

  /** The execution and its witnesses move to st; every other column and row stays. */
  predicate Ended(db: Db, db': Db, id: ExecutionId, st: State) {
    && id in db.executions && id in db.witnesses && db' == db.(executions := db'.executions, witnesses := db'.witnesses)
    && db'.executions == db.executions[id := db.executions[id].(state := st)]
    && id in db'.witnesses && db'.witnesses == db.witnesses[id := db'.witnesses[id]]
    && db'.witnesses[id].Keys == db.witnesses[id].Keys
    && forall k :: k in db.witnesses[id] ==> db'.witnesses[id][k] == db.witnesses[id][k].(state := st)
  }

  lemma TerminateEnds(db: Db, id: ExecutionId, st: State)
    requires id in db.executions && id in db.witnesses
    ensures Ended(db, Terminate(db, {id}, st), id, st)
  {
    var db' := Terminate(db, {id}, st);
    assert db'.executions == db.executions[id := db.executions[id].(state := st)];
    assert db'.witnesses == db.witnesses[id := db'.witnesses[id]];
  }

  // ---- Reserve ----------------------------------------------------------------------------

  lemma LookupExactly(db: Db, r: Request)
    requires Inv(db) && r.id in db.requests
    ensures var row := db.requests[r.id];
      && row.active in db.executions
      && LookupIn(db, r) ==
        (if row.inputHash != r.inputHash then Err(ErrInputConflict)
         else Ok(Reservation(ExecutionFrom(row.active, db.executions[row.active]).(token := 0), false, db.executions[row.active].state)))
  {
    hide Frozen, WitnessesOk, HostsOk, FencesOk;
    assert ActiveOk(db, r.id);
    assert RowOk(db.requests[r.id].active, db.executions[db.requests[r.id].active]);
  }

  /** A lookup finds the request of its own owner, whatever the epoch: its active execution
      without the capability, or a conflict if the input differs, or nothing. */
  lemma FindExactly(ops: seq<Op>, b: Binding, r: Request)
    ensures var db := After(ops); var s := Lookup(db, b, r);
      && (r.id.owner == "" || r.id.scope == "" || r.id.key == "" || r.id.owner != b.owner ==> s == Err(ErrBinding))
      && (s == Err(ErrNotFound) <==> ValidRequest(r) && r.id.owner == b.owner && Reader(db, b) && r.id !in db.requests)
      && (s == Err(ErrInputConflict) <==>
            ValidRequest(r) && r.id.owner == b.owner && Reader(db, b) && r.id in db.requests && db.requests[r.id].inputHash != r.inputHash)
      && (s.Ok? <==>
            ValidRequest(r) && r.id.owner == b.owner && Reader(db, b) && r.id in db.requests && db.requests[r.id].inputHash == r.inputHash)
      && (s.Ok? ==>
            var id := db.requests[r.id].active;
            id in db.executions && s.value == Reservation(ExecutionFrom(id, db.executions[id]).(token := 0), false, db.executions[id].state))
  {
    hide Run, TablesOk, RequestsOk, HostsOk, Reader;
    var db := After(ops);
    AfterInv(ops);
    BindingExactly(db, b);
    if r.id in db.requests { LookupExactly(db, r); }
    hide Inv;
  }

  /** What Reserve asks of its caller: a lease of a millisecond to a day, a frozen plan of
      the request, the store's own owner, the current epoch. */
  predicate MayReserve(db: Db, b: Binding, r: Request, p: Plan, lease: int) {
    1_000 <= lease <= 86_400_000_000 && Frozen(p) && r == RequestFor(p) && b.owner == p.owner && Writer(db, b)
  }

  /** Reserve succeeds exactly for callers that may, on a new request whose execution
      identity is free or on a known request with the same input. The first acquires
      fence 1; the others observe the active execution without its capability, and
      change nothing. */
  lemma ReserveExactly(ops: seq<Op>, b: Binding, r: Request, p: Plan, lease: int, token: Token, now: int)
    ensures var db := After(ops); var s := Reserve(db, b, r, p, lease, token, now);
      var e := Execution(p, 1, b.epoch, token, now + lease);
      && (s.result.Ok? <==>
            && MayReserve(db, b, r, p, lease)
            && (if r.id in db.requests then db.requests[r.id].inputHash == r.inputHash else IdOf(e) !in db.executions))
      && (s.result.Ok? && r.id !in db.requests ==> s.result.value == Reservation(e, true, Prepared) && Added(db, s.db, r, e))
      && (s.result.Ok? && r.id in db.requests ==>
            && s.db == db && db.requests[r.id].active in db.executions
            && s.result.value == Reservation(ExecutionFrom(db.requests[r.id].active, db.executions[db.requests[r.id].active]).(token := 0), false,
                                             db.executions[db.requests[r.id].active].state))
      && (s.result.Err? ==> s.db == db)
      && (MayReserve(db, b, r, p, lease) && s.result.Err? ==> s.result.error == if r.id in db.requests then ErrInputConflict else ErrDuplicate)
  {
    hide Run, Frozen, TablesOk, RequestsOk, HostsOk, Added, Writer, LookupIn, BindingIn, Insert;
    var db := After(ops);
    AfterInv(ops);
    BindingExactly(db, b);
    WriterReads(db, b);
    if Match(r, p).Ok? { WellFormed(r, p); }
    if r.id in db.requests {
      LookupExactly(db, r);
    } else if MayReserve(db, b, r, p, lease) {
      InsertAdds(db, r, Execution(p, 1, b.epoch, token, now + lease));
    }
  }

  lemma WriterReads(db: Db, b: Binding)
    ensures Writer(db, b) ==> BindingIn(db, b, false).Ok?
  {
  }

  lemma WellFormed(r: Request, p: Plan)
    requires Match(r, p).Ok?
    ensures ValidRequest(r)
  {
  }

  // ---- Retry and Replan -------------------------------------------------------------------

  /** previous is the active, aborted execution of its request, known by its exact plan. */
  predicate Superseded(db: Db, previous: Execution) {
    var id, r := IdOf(previous), RequestIdFor(previous.plan);
    && id in db.executions && db.executions[id].plan == previous.plan && db.executions[id].state == Aborted
    && r in db.requests && db.requests[r].active == id && previous.fence < MAX_FENCE
  }

  /** A Retry repeats the plan; a Replan keeps the request under a new operation. */
  predicate Continues(previous: Plan, p: Plan, replan: bool) {
    && Frozen(p) && RequestFor(p) == RequestFor(previous)
    && (if replan then p.operationId != previous.operationId else p == previous)
  }

  /** The durable witnesses of an aborted execution always prove the abort. */
  lemma AbortedProves(db: Db, e: Execution)
    requires Inv(db) && IdOf(e) in db.executions && db.executions[IdOf(e)].plan == e.plan && db.executions[IdOf(e)].state == Aborted
    ensures LockedEvidence(db, e, Aborted).Ok? && DecideLocal(References(e), LockedEvidence(db, e, Aborted).value) == LocalAborted
  {
    hide Frozen, RequestsOk, HostsOk;
    var id, refs := IdOf(e), References(e);
    var row, ws := db.executions[id], db.witnesses[id];
    assert RowOk(id, row) && WitnessesOk(id, row, ws);
    HasBranches(e.plan);
    forall i | 0 <= i < |refs| ensures refs[i].branchId in ws && ws[refs[i].branchId].reference == refs[i] && ws[refs[i].branchId].state == Aborted {
      assert refs[i] == ReferenceOf(e.plan, e.plan.branches[i], e.fence, e.epoch);
      assert WitnessOk(Aborted, ws[e.plan.branches[i].id]);
    }
    var evidence := LockedEvidence(db, e, Aborted).value;
    assert Unanimous(refs, evidence, Rollback) by { AbortedUnanimous(e, evidence); }
    assert !Unanimous(refs, evidence, Commit) by { assert Resolve(refs[0], evidence[0]) == Rollback; }
  }

  lemma HasBranches(p: Plan)
    requires Frozen(p)
    ensures p.branches != []
  {
  }

  lemma AbortedUnanimous(e: Execution, evidence: seq<Option<Evidence>>)
    requires References(e) != [] && |evidence| == |References(e)|
    requires forall i :: 0 <= i < |evidence| ==> evidence[i] == Some(Evidence(References(e)[i], Aborted, Aborted))
    ensures Unanimous(References(e), evidence, Rollback)
  {
    hide Frozen;
    var refs := References(e);
    forall i | 0 <= i < |refs| ensures SameExecution(refs[0], refs[i]) && Resolve(refs[i], evidence[i]) == Rollback {
      assert refs[i] == ReferenceOf(e.plan, e.plan.branches[i], e.fence, e.epoch);
      assert refs[0] == ReferenceOf(e.plan, e.plan.branches[0], e.fence, e.epoch);
    }
  }

  /** Retry and Replan are granted exactly to the writer of the current epoch, for a
      superseded execution and a plan that continues it, unless the new identity is
      taken; the grant is the next fence, prepared. */
  lemma AdvanceExactly(ops: seq<Op>, b: Binding, previous: Execution, p: Plan, lease: int, replan: bool, token: Token, now: int)
    ensures var db := After(ops); var s := Advance(db, b, previous, p, lease, replan, token, now);
      && (s.result.Ok? <==>
            && 1_000 <= lease <= 86_400_000_000 && b.owner == p.owner && Writer(db, b)
            && Superseded(db, previous) && Continues(previous.plan, p, replan)
            && ExecutionId(p.owner, p.operationId, b.epoch, previous.fence + 1) !in db.executions)
      && (s.result.Err? ==> s.db == db)
      && (s.result.Ok? ==>
            var e := Execution(p, previous.fence + 1, b.epoch, token, now + lease);
            s.result.value == Reservation(e, true, Prepared) && Added(db, s.db, RequestFor(p), e))
  {
    hide Run, TablesOk, RequestsOk, HostsOk, LockedEvidence, LookupIn, Frozen, AdvanceCheck, Added, Writer, BindingIn, Insert;
    var db := After(ops);
    AfterInv(ops);
    BindingExactly(db, b);
    AdvanceCheckExactly(db, b, previous, p, lease, replan);
    if Frozen(p) { InsertAdds(db, RequestFor(previous.plan), Execution(p, previous.fence + 1, b.epoch, token, now + lease)); }
  }

  lemma AdvanceCheckExactly(db: Db, b: Binding, previous: Execution, p: Plan, lease: int, replan: bool)
    requires Inv(db)
    ensures AdvanceCheck(db, b, previous, p, lease, replan).Ok? <==>
      && ValidLease(lease) && b.owner == p.owner && BindingIn(db, b, true).Ok?
      && Superseded(db, previous) && Continues(previous.plan, p, replan)
  {
    hide Frozen, TablesOk, RequestsOk, HostsOk, LockedEvidence, LookupIn, ValidExecution;
    var r := RequestFor(previous.plan);
    if r.id in db.requests {
      LookupExactly(db, r);
      ActiveId(db, r.id);
      ActiveInput(db, r.id);
    } else {
      NoLookup(db, r);
    }
    if Superseded(db, previous) {
      StoredPlan(db, IdOf(previous));
      AbortedProves(db, previous);
    }
    if AdvanceCheck(db, b, previous, p, lease, replan).Ok? {
      assert Superseded(db, previous);
    }
  }

  lemma ActiveInput(db: Db, r: RequestId)
    requires Inv(db) && r in db.requests
    ensures var a := db.requests[r].active;
      a in db.executions && db.executions[a].plan.inputHash == db.requests[r].inputHash && RequestIdFor(db.executions[a].plan) == r
  {
    hide Frozen, WitnessesOk, HostsOk, FencesOk;
    assert ActiveOk(db, r) && RowOk(db.requests[r].active, db.executions[db.requests[r].active]);
  }

  lemma NoLookup(db: Db, r: Request)
    requires r.id !in db.requests
    ensures LookupIn(db, r).Err?
  {
  }

  lemma StoredPlan(db: Db, id: ExecutionId)
    requires Inv(db) && id in db.executions
    ensures Frozen(db.executions[id].plan) && 0 < id.fence <= MAX_FENCE
  {
    hide WitnessesOk, HostsOk, RequestsOk, Frozen;
    assert RowOk(id, db.executions[id]);
  }

  // ---- Evidence ---------------------------------------------------------------------------

  /** The stored branch is the very one the reference names. */
  predicate Recorded(db: Db, b: Binding, ref: Reference) {
    var id := ExecutionOf(ref);
    && ValidReference(ref) && b.owner == ref.owner && Reader(db, b) && id in db.executions && id in db.witnesses
    && ref.branchId in db.witnesses[id] && db.witnesses[id][ref.branchId].reference == ref
  }

  /** A recovery check decides exactly by the durable state of the recorded execution, in
      any epoch and by any store of the owner; everything else stays unknown. */
  lemma DecisionExactly(ops: seq<Op>, b: Binding, ref: Reference)
    ensures var db := After(ops); var r := EvidenceFor(db, b, ref); var id := ExecutionOf(ref);
      var d := if r.Ok? then Resolve(ref, r.value) else Unknown;
      && (d == Commit <==> Recorded(db, b, ref) && db.executions[id].state == Committed)
      && (d == Rollback <==> Recorded(db, b, ref) && db.executions[id].state == Aborted)
      && (r.Err? <==> !ValidReference(ref) || b.owner != ref.owner)
  {
    hide Run, Inv, ValidReference;
    var db, id := After(ops), ExecutionOf(ref);
    AfterInv(ops);
    if id in db.executions && id in db.witnesses && ref.branchId in db.witnesses[id] { WitnessState(db, id, ref.branchId); }
  }

  // ---- BeginPrepare -----------------------------------------------------------------------

  /** BeginPrepare is granted exactly to the capability holder in the current epoch, under
      a live lease, for a prepared execution that nobody has begun or bound; it sets the
      started flag and changes nothing else. */
  lemma BeginExactly(ops: seq<Op>, b: Binding, e: Execution, now: int)
    ensures var db := After(ops); var id := IdOf(e); var s := BeginPrepare(db, b, e, now);
      && (s.result.Ok? <==>
            && ValidExecution(e) && b.owner == id.owner && b.epoch == id.epoch && Writer(db, b) && !Locked(db, id)
            && id in db.executions && db.executions[id].plan == e.plan && db.executions[id].token == e.token
            && db.executions[id].state == Prepared && !db.executions[id].started && now < db.executions[id].leaseUntil)
      && (s.result.Ok? ==> s.db == db.(executions := db.executions[id := db.executions[id].(started := true)]))
      && (s.result.Err? ==> s.db == db)
  {
    hide Run, ValidExecution, BindingIn, Writer, Locked;
    BindingExactly(After(ops), b);
  }

  /** A granted BeginPrepare is the only one its execution ever gets, whoever asks
      with whatever token, plan and clock. */
  lemma BegunOnce(ops: seq<Op>, more: seq<Op>, b: Binding, e: Execution, now: int, c: Binding, f: Execution, later: int)
    requires BeginPrepare(After(ops), b, e, now).result.Ok? && IdOf(f) == IdOf(e)
    ensures BeginPrepare(After(ops + [OpBeginPrepare(b, e, now)] + more), c, f, later).result.Err?
  {
    hide Run, Inv, ValidExecution;
    var step := ops + [OpBeginPrepare(b, e, now)];
    RunConcat(Init(), ops, [OpBeginPrepare(b, e, now)]);
    RunOne(After(ops), OpBeginPrepare(b, e, now));
    AfterEvolves(step, more);
    assert After(step) == MarkStarted(After(ops), IdOf(e));
    assert RowGrows(After(step).executions[IdOf(e)], After(step + more).executions[IdOf(e)]);
  }

  lemma RunOne(db: Db, op: Op)
    ensures Run(db, [op]) == Apply(db, op)
  {
    hide Apply;
    assert [op][1..] == [];
    assert Run(Apply(db, op), []) == Apply(db, op);
  }

  // ---- Bind -------------------------------------------------------------------------------

  /** Bind hands out a guard exactly to the holder of the capability, in the current
      epoch, before the lease ends, while the execution is prepared in its eyes and no
      other host transaction holds it. */
  lemma BindExactly(ops: seq<Op>, b: Binding, t: nat, e: Execution, now: int)
    ensures var db := After(ops); var id := IdOf(e);
      Bind(db, b, t, e, now).result.Ok? <==>
        MayLock(db, b, t, e, now) && b.owner == id.owner && b.epoch == id.epoch && db.executions[id].plan == e.plan
  {
    hide Run, RequestsOk, HostsOk, Frozen, ValidExecution, BindingIn, Writer;
    var db, id := After(ops), IdOf(e);
    AfterInv(ops);
    BindingExactly(db, b);
    NoRowNoWriter(db, b);
    if id in db.executions && db.executions[id].plan == e.plan && VisibleState(db, t, id) == Prepared {
      SeesOwnWitnesses(db, t, e);
    }
  }

  /** The rows a Bind call locks whether or not it then succeeds. */
  predicate MayLock(db: Db, b: Binding, t: nat, e: Execution, now: int) {
    var id := IdOf(e);
    && ValidExecution(e) && Writer(db, b) && !LockedByOther(db, t, id) && id in db.executions && db.executions[id].token == e.token
    && VisibleState(db, t, id) == Prepared && now < db.executions[id].leaseUntil
  }

  /** Bind touches its own host transaction only: the binding row is held shared as soon as
      it has been read, the execution row locked once it matched, and a guard kept exactly
      on success; nothing durable changes. */
  lemma BindHolds(db: Db, b: Binding, t: nat, e: Execution, now: int)
    ensures var id := IdOf(e); var s := Bind(db, b, t, e, now); var h := HostAt(db, t);
      var entered := ValidExecution(e) && b.owner == id.owner && b.epoch == id.epoch && b.owner in db.bindings;
      && (!entered ==> s.db == db)
      && (entered ==>
            && t in s.db.hosts && s.db == db.(hosts := db.hosts[t := s.db.hosts[t]])
            && s.db.hosts[t] == h.(shared := h.shared + {b.owner},
                                   locked := if MayLock(db, b, t, e, now) then h.locked + {id} else h.locked,
                                   guards := if s.result.Ok? then h.guards + {id} else h.guards))
  {
    hide ValidExecution, BindingIn, Writer, WitnessesMatch, VisibleState, LockedByOther;
    BindingExactly(db, b);
    NoRowNoWriter(db, b);
  }

  lemma NoRowNoWriter(db: Db, b: Binding)
    ensures Writer(db, b) ==> b.owner in db.bindings
  {
  }

  // ---- Host transactions ------------------------------------------------------------------

  /** A staged commit needs a guard of this host transaction, once per guard; it touches
      that transaction alone. A failure between its two updates poisons it. */
  lemma CommitWitnessExactly(db: Db, t: nat, id: ExecutionId, failed: bool)
    ensures var s := CommitWitness(db, t, id, failed); var granted := t in db.hosts && id in db.hosts[t].guards && id !in db.hosts[t].staged;
      && (s.result.Ok? <==> granted && !failed)
      && (s.result.Ok? ==> s.db == db.(hosts := db.hosts[t := db.hosts[t].(staged := db.hosts[t].staged + {id})]))
      && (granted && failed ==> s.db == db.(hosts := db.hosts[t := db.hosts[t].(poisoned := true)]))
      && (!granted ==> s.db == db)
  {
  }

  /** A host commit makes exactly the staged executions Committed and ends the
      transaction; a poisoned one only ends. */
  lemma HostCommitExactly(ops: seq<Op>, t: nat, id: ExecutionId)
    requires t in After(ops).hosts && id in After(ops).executions
    ensures var db := After(ops); var s := HostCommit(db, t);
      && t !in s.db.hosts && s.db.hosts == db.hosts - {t} && s.db.bindings == db.bindings && s.db.requests == db.requests
      && (s.result.Ok? <==> !db.hosts[t].poisoned)
      && id in s.db.executions
      && s.db.executions[id] == (if s.result.Ok? && id in db.hosts[t].staged then db.executions[id].(state := Committed) else db.executions[id])
      && id in s.db.witnesses && id in db.witnesses && s.db.witnesses[id].Keys == db.witnesses[id].Keys
      && forall k :: k in db.witnesses[id] ==>
           s.db.witnesses[id][k] == if s.result.Ok? && id in db.hosts[t].staged then db.witnesses[id][k].(state := Committed) else db.witnesses[id][k]
  {
    hide Run, RequestsOk, HostsOk, RowOk, WitnessesOk;
    AfterInv(ops);
  }

  /** The binding row changes exactly when no host transaction holds it shared. */
  lemma SetBindingExactly(db: Db, owner: string, row: BindingRow)
    ensures var s := SetBinding(db, owner, row);
      && (s.result.Ok? <==> forall u :: u in db.hosts ==> owner !in db.hosts[u].shared)
      && s.db == (if s.result.Ok? then db.(bindings := db.bindings[owner := row]) else db)
  {
  }

  // ---- Abort ------------------------------------------------------------------------------

  /** Abort ends the execution exactly for the holder of its capability, with the store
      bound in any epoch, while it is prepared and unbound, and after its lease if asked
      to wait for that; it moves the execution and its witnesses and nothing else. */
  lemma AbortExactly(ops: seq<Op>, b: Binding, e: Execution, expired: bool, now: int)
    ensures var db := After(ops); var id := IdOf(e); var s := Abort(db, b, e, expired, now);
      && (s.result == Ok(true) <==>
            && ValidExecution(e) && b.owner == id.owner && Reader(db, b) && !Locked(db, id)
            && id in db.executions && db.executions[id].token == e.token && db.executions[id].state == Prepared
            && (expired ==> db.executions[id].leaseUntil <= now) && |db.executions[id].plan.branches| == |e.plan.branches|)
      && (s.result == Ok(true) ==> Ended(db, s.db, id, Aborted))
      && (s.result != Ok(true) ==> s.db == db)
      && (s.result == Ok(false) ==> ValidExecution(e) && Reader(db, b) && !Locked(db, id))
  {
    hide Run, RequestsOk, HostsOk, ValidExecution, BindingIn, Reader, Locked, Ended, Terminate, RowOk, WitnessesOk;
    var db := After(ops);
    AfterInv(ops);
    BindingExactly(db, b);
    if IdOf(e) in db.executions { TerminateEnds(db, IdOf(e), Aborted); }
  }

  // ---- Receipts ---------------------------------------------------------------------------

  /** A receipt is accepted for the exact branch of the exact execution, by the holder of
      its capability, while no host holds it. */
  predicate MayRecord(db: Db, b: Binding, e: Execution, ref: Reference) {
    && ValidExecution(e) && ref in References(e) && b.owner == ref.owner && Reader(db, b) && !Locked(db, IdOf(e))
    && IdOf(e) in db.executions && db.executions[IdOf(e)].token == e.token
    && IdOf(e) in db.witnesses && ref.branchId in db.witnesses[IdOf(e)] && db.witnesses[IdOf(e)][ref.branchId].reference == ref
  }

  lemma ReceiptExactly(db: Db, b: Binding, e: Execution, ref: Reference)
    requires Inv(db)
    ensures ReceiptCheck(db, b, e, ref).Ok? <==> MayRecord(db, b, e, ref)
    ensures MayRecord(db, b, e, ref) ==> ReceiptCheck(db, b, e, ref) == Ok(db.witnesses[IdOf(e)][ref.branchId])
    ensures MayRecord(db, b, e, ref) ==> db.witnesses[IdOf(e)][ref.branchId].state == db.executions[IdOf(e)].state
  {
    hide Inv, ValidExecution, References, BindingIn, Reader, Locked;
    BindingExactly(db, b);
    if IdOf(e) in db.executions && IdOf(e) in db.witnesses && ref.branchId in db.witnesses[IdOf(e)] {
      WitnessState(db, IdOf(e), ref.branchId);
    }
  }

  lemma WitnessState(db: Db, id: ExecutionId, k: string)
    requires Inv(db) && id in db.executions && id in db.witnesses && k in db.witnesses[id]
    ensures db.witnesses[id][k].state == db.executions[id].state && FinalAgrees(db.witnesses[id][k].audit.final, db.executions[id].state)
  {
    hide RequestsOk, HostsOk, RowOk;
    assert WitnessesOk(id, db.executions[id], db.witnesses[id]);
    assert WitnessOk(db.executions[id].state, db.witnesses[id][k]);
  }

  /** A half is recorded exactly where it may be, before the execution ends, if it says
      something, and contradicts neither a definite outcome nor a known broker identity;
      then the half columns of that branch are its own. */
  lemma RecordHalfExactly(ops: seq<Op>, b: Binding, e: Execution, ref: Reference, h: HalfReceipt, now: int)
    ensures var db := After(ops); var id := IdOf(e); var s := RecordHalf(db, b, e, ref, h, now);
      && (s.result.Ok? <==>
            && h.outcome != HalfNotAttempted && (h.outcome == HalfPrepared ==> h.messageId != "" && h.transactionId != "")
            && |h.messageId| <= 512 && |h.transactionId| <= 4096 && |h.errorCode| <= 128
            && MayRecord(db, b, e, ref) && db.executions[id].state == Prepared
            && var a := db.witnesses[id][ref.branchId].audit;
               && (a.messageId == "" || a.messageId == h.messageId) && (a.transactionId == "" || a.transactionId == h.transactionId)
               && (HalfRank(a.half) < 2 || a.half == h.outcome))
      && (s.result.Err? ==> s.db == db)
      && (s.result.Ok? ==>
            && MayRecord(db, b, e, ref)
            && var a := db.witnesses[id][ref.branchId].audit;
               OneAudit(db, s.db, id, ref.branchId, Audit(h.outcome, h.messageId, h.transactionId, h.errorCode, Some(now), a.final, a.finalError, a.finalAt)))
  {
    hide Run, Inv, MayRecord, ReceiptCheck, PutAudit, OneAudit;
    var db := After(ops);
    AfterInv(ops);
    ReceiptExactly(db, b, e, ref);
    MayRecordFacts(db, b, e, ref);
    if RecordHalf(db, b, e, ref, h, now).result.Ok? {
      PutsOne(db, IdOf(e), ref.branchId, HalfAudit(db.witnesses[IdOf(e)][ref.branchId].audit, h, now));
    }
  }

  lemma MayRecordFacts(db: Db, b: Binding, e: Execution, ref: Reference)
    ensures MayRecord(db, b, e, ref) ==> IdOf(e) in db.executions && IdOf(e) in db.witnesses && ref.branchId in db.witnesses[IdOf(e)]
  {
  }

  /** A final outcome is recorded exactly where it may be, once the execution has ended, if
      it agrees with how it ended and replaces no other definite outcome. */
  lemma RecordFinalExactly(ops: seq<Op>, b: Binding, e: Execution, ref: Reference, f: FinalOutcome, code: string, now: int)
    ensures var db := After(ops); var id := IdOf(e); var s := RecordFinal(db, b, e, ref, f, code, now);
      && (s.result.Ok? <==>
            && f != FinalNotAttempted && |code| <= 128 && MayRecord(db, b, e, ref) && db.executions[id].state != Prepared
            && (f == FinalCommitConfirmed ==> db.executions[id].state == Committed)
            && (f == FinalRollbackConfirmed ==> db.executions[id].state == Aborted)
            && var a := db.witnesses[id][ref.branchId].audit; FinalRank(a.final) < 2 || a.final == f)
      && (s.result.Err? ==> s.db == db)
      && (s.result.Ok? ==>
            && MayRecord(db, b, e, ref)
            && OneAudit(db, s.db, id, ref.branchId, db.witnesses[id][ref.branchId].audit.(final := f, finalError := code, finalAt := Some(now))))
  {
    hide Run, Inv, MayRecord, ReceiptCheck, PutAudit, OneAudit;
    var db := After(ops);
    AfterInv(ops);
    ReceiptExactly(db, b, e, ref);
    MayRecordFacts(db, b, e, ref);
    if RecordFinal(db, b, e, ref, f, code, now).result.Ok? {
      PutsOne(db, IdOf(e), ref.branchId, FinalAudit(db.witnesses[IdOf(e)][ref.branchId].audit, f, code, now));
    }
  }

  /** Recovery needs no capability: a confirmation is recorded exactly for the exact stored
      reference of an execution that ended that way; a repeated one keeps the first time. */
  lemma RecoveryFinalExactly(ops: seq<Op>, b: Binding, ref: Reference, f: FinalOutcome, now: int)
    ensures var db := After(ops); var id := ExecutionOf(ref); var s := RecordRecoveryFinal(db, b, ref, f, now);
      && (s.result.Ok? <==>
            && ValidReference(ref) && b.owner == ref.owner && Reader(db, b) && id in db.executions
            && ((f == FinalCommitConfirmed && db.executions[id].state == Committed) || (f == FinalRollbackConfirmed && db.executions[id].state == Aborted))
            && id in db.witnesses && ref.branchId in db.witnesses[id] && db.witnesses[id][ref.branchId].reference == ref)
      && (s.result.Err? ==> s.db == db)
      && (s.result.Ok? ==>
            && id in db.witnesses && ref.branchId in db.witnesses[id]
            && var a := db.witnesses[id][ref.branchId].audit;
               if a.final == f then s.db == db else OneAudit(db, s.db, id, ref.branchId, a.(final := f, finalError := "", finalAt := Some(now))))
  {
    hide Run, Inv, ValidReference, BindingIn, Reader, Locked, PutAudit, OneAudit;
    var db, id := After(ops), ExecutionOf(ref);
    AfterInv(ops);
    BindingExactly(db, b);
    if id in db.executions && db.executions[id].state != Prepared { EndedUnlocked(db, id); }
    if id in db.executions && id in db.witnesses && ref.branchId in db.witnesses[id] {
      WitnessState(db, id, ref.branchId);
      PutsOne(db, id, ref.branchId, FinalAudit(db.witnesses[id][ref.branchId].audit, f, "", now));
    }
  }

  lemma EndedUnlocked(db: Db, id: ExecutionId)
    requires Inv(db) && id in db.executions && db.executions[id].state != Prepared
    ensures !Locked(db, id)
  {
    hide TablesOk, RequestsOk;
    forall u | u in db.hosts ensures id !in db.hosts[u].locked { assert HostOk(db, db.hosts[u]); }
  }
}
