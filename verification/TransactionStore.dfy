/** The MySQL transaction store and its guard as objects over shared tables. Each
    method is one database transaction (or one statement run inside the host's);
    its effect is the operation of the same name in module TransactionTables. */
module TransactionStore {
  import opened Protocol
  import opened TransactionTables
  import opened TransactionInvariants
  import opened TransactionSafety
  import opened Reconciliation

  class Tables {
    var bindings: map<string, BindingRow>
    var requests: map<RequestId, RequestRow>
    var executions: map<ExecutionId, ExecutionRow>
    var witnesses: map<ExecutionId, Witnesses>
    var hosts: map<nat, HostTx>

    function View(): Db
      reads this
    {
      Db(bindings, requests, executions, witnesses, hosts)
    }

    ghost predicate Valid()
      reads this
    {
      Inv(View())
    }

    constructor ()
      ensures Valid() && View() == Init()
    {
      bindings, requests, executions, witnesses, hosts := map[], map[], map[], map[], map[];
      new;
      InitInv();
    }

    /** Transactions of other clients. */
    method Others(ops: seq<Op>)
      requires Valid()
      modifies this
      ensures Valid() && View() == Run(old(View()), ops)
    {
      hide Run, Inv;
      RunKeeps(View(), ops);
      var db := Run(View(), ops);
      bindings, requests, executions, witnesses, hosts := db.bindings, db.requests, db.executions, db.witnesses, db.hosts;
    }
  }

  // ---- Row counts ------------------------------------------------------------------

  function PreparedKeys(ws: Witnesses): set<string> {
    set k | k in ws && ws[k].state == Prepared
  }

  /** UPDATE ... WHERE state='prepared': the new rows; the count is |PreparedKeys|. */
  function UpdatePrepared(ws: Witnesses, s: State): Witnesses {
    map k | k in ws :: if ws[k].state == Prepared then ws[k].(state := s) else ws[k]
  }

  lemma {:induction false} BranchCount(p: Plan, n: nat)
    requires n <= |p.branches|
    requires forall i, j :: 0 <= i < j < |p.branches| ==> p.branches[i].id != p.branches[j].id
    ensures |set i | 0 <= i < n :: p.branches[i].id| == n
  {
    if n > 0 {
      BranchCount(p, n - 1);
      var rest := set i | 0 <= i < n - 1 :: p.branches[i].id;
      assert (set i | 0 <= i < n :: p.branches[i].id) == rest + {p.branches[n - 1].id};
    }
  }

  /** A prepared execution has as many prepared witnesses as its plan has branches. */
  lemma PreparedCount(db: Db, id: ExecutionId)
    requires TablesOk(db) && id in db.executions
    ensures db.executions[id].state == Prepared ==> |PreparedKeys(db.witnesses[id])| == |db.executions[id].plan.branches|
    ensures db.executions[id].state == Prepared ==> forall s :: UpdatePrepared(db.witnesses[id], s) == SetAll(db.witnesses[id], s)
    ensures db.executions[id].state != Prepared ==> PreparedKeys(db.witnesses[id]) == {}
  {
    hide Frozen, UpdatePrepared, PreparedKeys, SetAll;
    var row, ws := db.executions[id], db.witnesses[id];
    assert RowOk(id, row) && WitnessesOk(id, row, ws);
    forall k | k in ws ensures ws[k].state == row.state { assert WitnessOk(row.state, ws[k]); }
    Uniform(ws, row.state);
    FrozenCount(row.plan);
  }

  lemma FrozenCount(p: Plan)
    requires Frozen(p)
    ensures |BranchIds(p)| == |p.branches|
  {
    hide ValidBranch;
    BranchCount(p, |p.branches|);
  }

  lemma Uniform(ws: Witnesses, s: State)
    requires forall k :: k in ws ==> ws[k].state == s
    ensures s == Prepared ==> PreparedKeys(ws) == ws.Keys && forall s' :: UpdatePrepared(ws, s') == SetAll(ws, s')
    ensures s != Prepared ==> PreparedKeys(ws) == {}
  {
  }

  lemma NoWitnesses(p: Plan, fence: nat, epoch: string)
    requires Frozen(p)
    ensures FirstWitnesses(p, 0, fence, epoch) == map[]
  {
  }

  lemma NextWitness(p: Plan, n: nat, fence: nat, epoch: string)
    requires Frozen(p) && n < |p.branches|
    ensures FirstWitnesses(p, n + 1, fence, epoch)
         == FirstWitnesses(p, n, fence, epoch)[p.branches[n].id := NewWitness(p, n, fence, epoch)]
  {
    hide ValidBranch;
    var a, b := FirstWitnesses(p, n, fence, epoch), FirstWitnesses(p, n + 1, fence, epoch);
    assert b.Keys == a.Keys + {p.branches[n].id};
    forall i | 0 <= i < n ensures b[p.branches[i].id] == a[p.branches[i].id] {
    }
  }

  // ---- Store -----------------------------------------------------------------------

  class Store {
    const tables: Tables
    const binding: Binding

    constructor (tables: Tables, binding: Binding)
      ensures this.tables == tables && this.binding == binding
    {
      this.tables, this.binding := tables, binding;
    }

    method Lookup(r: Request) returns (result: Outcome<Reservation>)
      ensures result == TransactionTables.Lookup(tables.View(), binding, r)
    {
      var db := tables.View();
      if !ValidRequest(r) || r.id.owner != binding.owner {
        return Err(ErrBinding);
      }
      var c := BindingIn(db, binding, false);
      if c.Err? {
        return Err(c.error);
      }
      result := LookupIn(db, r);
      if result == Err(ErrNoRow) {
        result := Err(ErrNotFound);
      }
    }

    /** One witness row per reference, in plan order. */
    method InsertWitnesses(e: Execution) returns (ws: Witnesses)
      requires Referable(e)
      ensures ws == NewWitnesses(e.plan, e.fence, e.epoch)
    {
      hide Frozen, FirstWitnesses;
      var refs := CollectReferences(e);
      NoWitnesses(e.plan, e.fence, e.epoch);
      ws := map[];
      var i := 0;
      while i < |refs|
        invariant i <= |refs| == |e.plan.branches|
        invariant ws == FirstWitnesses(e.plan, i, e.fence, e.epoch)
      {
        NextWitness(e.plan, i, e.fence, e.epoch);
        ws := ws[refs[i].branchId := Witness(refs[i], Prepared, NEW_AUDIT)];
        i := i + 1;
      }
    }

    /** The request row's identity is unique, so of all racing first requests one
        wins and the others observe it without its capability. */
    method Reserve(r: Request, p: Plan, lease: int, token: Token, now: int) returns (result: Outcome<Reservation>)
      requires tables.Valid()
      modifies tables
      ensures tables.Valid()
      ensures tables.View() == TransactionTables.Reserve(old(tables.View()), binding, r, p, lease, token, now).db
      ensures result == TransactionTables.Reserve(old(tables.View()), binding, r, p, lease, token, now).result
      ensures result.Ok? && !result.value.acquired ==> result.value.execution.token == 0 && tables.View() == old(tables.View())
    {
      hide Inv, Frozen, Evolves, NewWitnesses, References;
      var db := tables.View();
      ReserveKeeps(db, binding, r, p, lease, token, now);
      if !ValidLease(lease) || !Frozen(p) || r.id.owner != binding.owner {
        return Err(ErrBinding);
      }
      var m := Match(r, p);
      if m.Err? {
        return Err(m.error);
      }
      var c := BindingIn(db, binding, true);
      if c.Err? {
        return Err(c.error);
      }
      var e := Execution(p, 1, binding.epoch, token, now + lease);
      if r.id in tables.requests {
        result := Lookup(r);
        return;
      }
      if IdOf(e) in tables.executions {
        return Err(ErrDuplicate);
      }
      Write(r, e);
      return Ok(Reservation(e, true, Prepared));
    }

    method Write(r: Request, e: Execution)
      requires Referable(e)
      modifies tables
      ensures tables.View() == Insert(old(tables.View()), r, e)
    {
      hide Frozen, NewWitnesses;
      var ws := InsertWitnesses(e);
      var id := IdOf(e);
      tables.requests := tables.requests[r.id := RequestRow(r.inputHash, id)];
      tables.executions := tables.executions[id := ExecutionRow(r.id, e.plan, e.token, Prepared, e.leaseUntil, false)];
      tables.witnesses := tables.witnesses[id := ws];
    }

    /** One joined read. A found row is the exact reference of the stored plan's branch,
        with the durable state of the execution on both sides; none is found exactly
        when the execution, the branch or the binding is missing. */
    method Evidence(ref: Reference) returns (result: Outcome<Option<Evidence>>)
      requires tables.Valid()
      ensures result == EvidenceFor(tables.View(), binding, ref)
      ensures result.Err? <==> !ValidReference(ref) || ref.owner != binding.owner
      ensures result.Ok? ==> (result.value.Some? <==>
        && ExecutionOf(ref) in tables.executions && ref.branchId in BranchIds(tables.executions[ExecutionOf(ref)].plan)
        && binding.owner in tables.bindings && tables.bindings[binding.owner].storeId == binding.storeId
        && tables.bindings[binding.owner].schema == SCHEMA_VERSION)
      ensures result.Ok? && result.value.Some? ==>
        var row, ev := tables.executions[ExecutionOf(ref)], result.value.value;
        && ev.execution == ev.branch == row.state
        && exists x :: x in row.plan.branches && x.id == ref.branchId && ev.reference == ReferenceOf(row.plan, x, ref.fence, ref.epoch)
    {
      hide RequestsOk, HostsOk, Frozen, RowOk;
      if !ValidReference(ref) || ref.owner != binding.owner {
        return Err(ErrBinding);
      }
      var id := ExecutionOf(ref);
      if id !in tables.executions || id !in tables.witnesses || ref.branchId !in tables.witnesses[id] || binding.owner !in tables.bindings {
        return Ok(None);
      }
      var b, w := tables.bindings[binding.owner], tables.witnesses[id][ref.branchId];
      if b.storeId != binding.storeId || b.schema != SCHEMA_VERSION {
        return Ok(None);
      }
      EvidenceRow(tables.View(), id, ref.branchId);
      return Ok(Some(Protocol.Evidence(w.reference, tables.executions[id].state, w.state)));
    }

    method BeginPrepare(e: Execution, now: int) returns (result: Outcome<()>)
      requires tables.Valid()
      modifies tables
      ensures tables.Valid()
      ensures tables.View() == TransactionTables.BeginPrepare(old(tables.View()), binding, e, now).db
      ensures result == TransactionTables.BeginPrepare(old(tables.View()), binding, e, now).result
    {
      hide Inv, Frozen, Evolves;
      var db := tables.View();
      BeginPrepareKeeps(db, binding, e, now);
      if !ValidExecution(e) || e.plan.owner != binding.owner || e.epoch != binding.epoch {
        return Err(ErrBinding);
      }
      var c := BindingIn(db, binding, true);
      if c.Err? {
        return c;
      }
      var id := IdOf(e);
      if Locked(db, id) {
        return Err(ErrLockWait);
      }
      if id !in tables.executions {
        return Err(ErrStale);
      }
      var row := tables.executions[id];
      if row.token != e.token || row.state != Prepared || row.started || row.leaseUntil <= now {
        return Err(ErrStale);
      }
      if PlanDigest(row.plan) != PlanDigest(e.plan) {
        return Err(ErrStale);
      }
      tables.executions := tables.executions[id := row.(started := true)];
      return Ok(());
    }

    /** Execution first, then its prepared witnesses; a wrong row count rolls back. */
    method Abort(e: Execution, expired: bool, now: int) returns (result: Outcome<bool>)
      requires tables.Valid()
      modifies tables
      ensures tables.Valid()
      ensures tables.View() == TransactionTables.Abort(old(tables.View()), binding, e, expired, now).db
      ensures result == TransactionTables.Abort(old(tables.View()), binding, e, expired, now).result
    {
      hide RequestsOk, HostsOk, Frozen, Evolves, SetAll, UpdatePrepared, PreparedKeys, RowOk, WitnessesOk;
      var db := tables.View();
      AbortOpKeeps(db, binding, e, expired, now);
      if !ValidExecution(e) || e.plan.owner != binding.owner {
        return Err(ErrBinding);
      }
      var c := BindingIn(db, binding, false);
      if c.Err? {
        return Err(c.error);
      }
      var id := IdOf(e);
      if Locked(db, id) {
        return Err(ErrLockWait);
      }
      if id !in tables.executions {
        return Ok(false);
      }
      var row := tables.executions[id];
      if row.token != e.token || row.state != Prepared || (expired && row.leaseUntil > now) {
        return Ok(false);
      }
      PreparedCount(db, id);
      var updated := |PreparedKeys(tables.witnesses[id])|;
      var ws := UpdatePrepared(tables.witnesses[id], Aborted);
      if updated != |e.plan.branches| {
        return Err(ErrStale);
      }
      tables.executions := tables.executions[id := row.(state := Aborted)];
      tables.witnesses := tables.witnesses[id := ws];
      TerminateOne(db, id, Aborted);
      return Ok(true);
    }

    method Advance(previous: Execution, p: Plan, lease: int, replan: bool, token: Token, now: int) returns (result: Outcome<Reservation>)
      requires tables.Valid()
      modifies tables
      ensures tables.Valid()
      ensures tables.View() == TransactionTables.Advance(old(tables.View()), binding, previous, p, lease, replan, token, now).db
      ensures result == TransactionTables.Advance(old(tables.View()), binding, previous, p, lease, replan, token, now).result
    {
      hide Inv, Frozen, Evolves, NewWitnesses, References, LockedEvidence, ValidateAdvance, LookupIn;
      var db := tables.View();
      AdvanceKeeps(db, binding, previous, p, lease, replan, token, now);
      if !Frozen(previous.plan) || !Frozen(p) || !ValidLease(lease) || previous.fence == 0 || previous.fence >= MAX_FENCE {
        return Err(ErrInvalidPlan);
      }
      var r := RequestFor(previous.plan);
      if r.id.owner != binding.owner {
        return Err(ErrBinding);
      }
      var m := Match(r, p);
      if m.Err? {
        return Err(m.error);
      }
      if replan && p.operationId == previous.plan.operationId {
        return Err(ErrInvalidPlan);
      }
      var c := BindingIn(db, binding, true);
      if c.Err? {
        return Err(c.error);
      }
      var current := LookupIn(db, r);
      if current.Err? {
        return Err(current.error);
      }
      if current.value.state != Aborted || IdOf(current.value.execution) != IdOf(previous)
         || PlanDigest(current.value.execution.plan) != PlanDigest(previous.plan) {
        return Err(ErrStale);
      }
      var evidence := OldEvidence(previous, current.value.state);
      if evidence.Err? {
        return Err(evidence.error);
      }
      var v := ValidateAdvance(previous, p, evidence.value, replan);
      if v.Err? {
        return Err(v.error);
      }
      var e := Execution(p, previous.fence + 1, binding.epoch, token, now + lease);
      if IdOf(e) in tables.executions {
        return Err(ErrDuplicate);
      }
      Write(r, e);
      return Ok(Reservation(e, true, Prepared));
    }

    /** The previous execution's branch rows, locked and read one by one. */
    method OldEvidence(previous: Execution, state: State) returns (result: Outcome<seq<Option<Evidence>>>)
      ensures result == LockedEvidence(tables.View(), previous, state)
    {
      var db := tables.View();
      var refs := CollectReferences(previous);
      var id := IdOf(previous);
      var out: seq<Option<Evidence>> := [];
      for i := 0 to |refs|
        invariant |out| == i
        invariant 0 < i ==> id in db.witnesses
        invariant forall k :: 0 <= k < i ==> refs[k].branchId in db.witnesses[id]
        invariant forall k :: 0 <= k < i ==>
          var w := db.witnesses[id][refs[k].branchId]; out[k] == Some(Protocol.Evidence(w.reference, state, w.state))
      {
        assert ExecutionOf(refs[i]) == id;
        if id !in db.witnesses || refs[i].branchId !in db.witnesses[id] {
          return Err(ErrNoRow);
        }
        var w := db.witnesses[id][refs[i].branchId];
        out := out + [Some(Protocol.Evidence(w.reference, state, w.state))];
      }
      var r := LockedEvidence(db, previous, state);
      assert r.Ok? && out == r.value;
      return Ok(out);
    }

    /** The rows of the expiry query are aborted one transaction at a time, with others'
        transactions before each; the first error stops the pass and reports how many
        were aborted. */
    method ReconcileOnce(limit: int, rows: seq<Execution>, turns: seq<Turn>, ghost now: int) returns (n: nat, error: Option<Error>)
      requires tables.Valid() && |turns| == |rows|
      requires 1 <= limit <= 1000 ==> ExpiryQuery(tables.View(), binding.owner, now, limit, rows)
      modifies tables
      ensures tables.Valid() && Evolves(old(tables.View()), tables.View())
      ensures !(1 <= limit <= 1000) ==> error == Some(ErrInvalidPlan) && n == 0 && tables.View() == old(tables.View())
      ensures 1 <= limit <= 1000 ==> Pass(tables.View(), n, error) == Sweep(old(tables.View()), binding, rows, turns) && n <= limit
    {
      hide Inv, Evolves, Run, TransactionTables.Abort, ExpiryQuery;
      n := 0;
      EvolvesRefl(tables.View());
      if limit < 1 || limit > 1000 {
        return 0, Some(ErrInvalidPlan);
      }
      SweepEvolves(tables.View(), binding, rows, turns);
      assert |rows| <= limit by { QueryLimit(tables.View(), binding.owner, now, limit, rows); }
      assert rows[0..] == rows && turns[0..] == turns;
      var i := 0;
      while i < |rows|
        invariant n <= i <= |rows| && tables.Valid()
        invariant Sweep(old(tables.View()), binding, rows, turns) == Counted(n, Sweep(tables.View(), binding, rows[i..], turns[i..]))
      {
        assert rows[i..][1..] == rows[i + 1..] && turns[i..][1..] == turns[i + 1..];
        tables.Others(turns[i].others);
        var ok := Abort(rows[i], true, turns[i].now);
        if ok.Err? {
          return n, Some(ok.error);
        }
        if ok.value {
          n := n + 1;
        }
        i := i + 1;
      }
      return n, None;
    }

    // ---- Receipts ------------------------------------------------------------------

    method RecordHalf(e: Execution, ref: Reference, h: HalfReceipt, now: int) returns (result: Outcome<()>)
      requires tables.Valid()
      modifies tables
      ensures tables.Valid()
      ensures tables.View() == TransactionTables.RecordHalf(old(tables.View()), binding, e, ref, h, now).db
      ensures result == TransactionTables.RecordHalf(old(tables.View()), binding, e, ref, h, now).result
    {
      hide Inv, Evolves, ReceiptCheck, HalfConflict, HalfAudit;
      var db := tables.View();
      RecordHalfKeeps(db, binding, e, ref, h, now);
      if !ValidHalf(h) {
        return Err(ErrInvalidPlan);
      }
      var c := ReceiptCheck(db, binding, e, ref);
      if c.Err? {
        return Err(c.error);
      }
      if c.value.state != Prepared || HalfConflict(c.value.audit, h) {
        return Err(ErrStale);
      }
      ReceiptRow(db, binding, e, ref);
      Update(IdOf(e), ref.branchId, HalfAudit(c.value.audit, h, now));
      return Ok(());
    }

    method RecordFinal(e: Execution, ref: Reference, f: FinalOutcome, code: string, now: int) returns (result: Outcome<()>)
      requires tables.Valid()
      modifies tables
      ensures tables.Valid()
      ensures tables.View() == TransactionTables.RecordFinal(old(tables.View()), binding, e, ref, f, code, now).db
      ensures result == TransactionTables.RecordFinal(old(tables.View()), binding, e, ref, f, code, now).result
    {
      hide Inv, Evolves, ReceiptCheck, FinalAudit;
      var db := tables.View();
      RecordFinalKeeps(db, binding, e, ref, f, code, now);
      if !ValidFinal(f, code) {
        return Err(ErrInvalidPlan);
      }
      var c := ReceiptCheck(db, binding, e, ref);
      if c.Err? {
        return Err(c.error);
      }
      var state := c.value.state;
      if state != Committed && state != Aborted {
        return Err(ErrStale);
      }
      if (f == FinalCommitConfirmed && state != Committed) || (f == FinalRollbackConfirmed && state != Aborted) {
        return Err(ErrStale);
      }
      var previous := c.value.audit.final;
      if previous != FinalNotAttempted && previous != FinalUnknown && previous != f {
        return Err(ErrStale);
      }
      ReceiptRow(db, binding, e, ref);
      Update(IdOf(e), ref.branchId, FinalAudit(c.value.audit, f, code, now));
      return Ok(());
    }

    method RecordRecoveryFinal(ref: Reference, f: FinalOutcome, now: int) returns (result: Outcome<()>)
      requires tables.Valid()
      modifies tables
      ensures tables.Valid()
      ensures tables.View() == TransactionTables.RecordRecoveryFinal(old(tables.View()), binding, ref, f, now).db
      ensures result == TransactionTables.RecordRecoveryFinal(old(tables.View()), binding, ref, f, now).result
    {
      hide Inv, Evolves, FinalAudit, ValidReference, Locked;
      var db := tables.View();
      RecoveryFinalKeeps(db, binding, ref, f, now);
      var c := RecoveryCheck(db, binding, ref, f);
      if c.Err? {
        return Err(c.error);
      }
      if c.value.audit.final != f {
        Update(ExecutionOf(ref), ref.branchId, FinalAudit(c.value.audit, f, "", now));
      }
      return Ok(());
    }

    method Update(id: ExecutionId, branch: string, a: Audit)
      requires id in tables.witnesses && branch in tables.witnesses[id]
      modifies tables
      ensures tables.View() == PutAudit(old(tables.View()), id, branch, a)
    {
      var ws := tables.witnesses[id];
      tables.witnesses := tables.witnesses[id := ws[branch := ws[branch].(audit := a)]];
    }

    // ---- The host's open transaction ---------------------------------------------------

    /** The guard is granted only after every branch row has been compared. */
    method Bind(t: nat, e: Execution, now: int) returns (result: Outcome<()>, guard: Guard?)
      requires tables.Valid()
      modifies tables
      ensures tables.Valid()
      ensures tables.View() == TransactionTables.Bind(old(tables.View()), binding, t, e, now).db
      ensures result == TransactionTables.Bind(old(tables.View()), binding, t, e, now).result
      ensures result.Ok? <==> guard != null
      ensures guard != null ==> fresh(guard) && guard.tables == tables && guard.t == t && guard.execution == e && !guard.committed
                                && tables.executions[IdOf(e)].plan == e.plan && tables.executions[IdOf(e)].token == e.token
    {
      hide Inv, Evolves, ValidExecution, WitnessesMatch, LockedByOther, HostAt;
      var db := tables.View();
      BindKeeps(db, binding, t, e, now);
      guard := null;
      if !ValidExecution(e) || e.plan.owner != binding.owner || e.epoch != binding.epoch {
        return Err(ErrBinding), null;
      }
      if binding.owner !in tables.bindings {
        return Err(ErrNoRow), null;
      }
      var h, c := LockRows(db, t, e, now);
      tables.hosts := tables.hosts[t := h];
      if c.Ok? {
        guard := new Guard(tables, t, e);
      }
      return c, guard;
    }

    method LockRows(db: Db, t: nat, e: Execution, now: int) returns (h: HostTx, result: Outcome<()>)
      ensures (h, result) == BindRows(db, binding, t, e, now)
    {
      hide Inv, Evolves, Frozen, WitnessesMatch;
      h := HostAt(db, t);
      h := h.(shared := h.shared + {binding.owner});
      result := BindingIn(db, binding, true);
      if result.Err? {
        return;
      }
      var id := IdOf(e);
      if LockedByOther(db, t, id) {
        return h, Err(ErrLockWait);
      }
      if id !in db.executions {
        return h, Err(ErrStale);
      }
      var row := db.executions[id];
      if row.token != e.token || VisibleState(db, t, id) != Prepared || row.leaseUntil <= now {
        return h, Err(ErrStale);
      }
      h := h.(locked := h.locked + {id});
      if PlanDigest(row.plan) != PlanDigest(e.plan) {
        return h, Err(ErrStale);
      }
      var ok := CompareWitnesses(db, t, e);
      if !ok {
        return h, Err(ErrStale);
      }
      return h.(guards := h.guards + {id}), Ok(());
    }

    method CompareWitnesses(db: Db, t: nat, e: Execution) returns (ok: bool)
      ensures ok == WitnessesMatch(db, t, e)
    {
      hide Frozen;
      var refs := CollectReferences(e);
      var id := IdOf(e);
      for i := 0 to |refs|
        invariant forall k :: 0 <= k < i ==> WitnessMatches(db, t, refs[k])
      {
        assert ExecutionOf(refs[i]) == id;
        if id !in db.witnesses || refs[i].branchId !in db.witnesses[id] {
          return false;
        }
        var w := db.witnesses[id][refs[i].branchId];
        var state := if id in HostAt(db, t).staged then Committed else w.state;
        if w.reference != refs[i] || state != Prepared {
          return false;
        }
      }
      return true;
    }
  }

  lemma ReceiptRow(db: Db, b: Binding, e: Execution, ref: Reference)
    requires ReceiptCheck(db, b, e, ref).Ok?
    ensures IdOf(e) in db.witnesses && ref.branchId in db.witnesses[IdOf(e)]
    ensures db.witnesses[IdOf(e)][ref.branchId] == ReceiptCheck(db, b, e, ref).value
  {
    hide MatchExecution;
  }

  lemma EvidenceRow(db: Db, id: ExecutionId, branch: string)
    requires TablesOk(db) && id in db.executions && branch in db.witnesses[id]
    ensures var row, w := db.executions[id], db.witnesses[id][branch];
      && w.state == row.state && branch in BranchIds(row.plan)
      && exists x :: x in row.plan.branches && x.id == branch && w.reference == ReferenceOf(row.plan, x, id.fence, id.epoch)
  {
    hide Frozen, RowOk;
    var row := db.executions[id];
    assert WitnessesOk(id, row, db.witnesses[id]) && WitnessOk(row.state, db.witnesses[id][branch]);
    var i :| 0 <= i < |row.plan.branches| && row.plan.branches[i].id == branch;
    assert row.plan.branches[i] in row.plan.branches;
  }

  function Counted(n: nat, p: Pass): Pass { p.(aborted := n + p.aborted) }

  lemma QueryLimit(db: Db, owner: string, now: int, limit: nat, es: seq<Execution>)
    requires ExpiryQuery(db, owner, now, limit, es)
    ensures |es| <= limit
  {
  }

  lemma TerminateOne(db: Db, id: ExecutionId, s: State)
    requires id in db.executions && db.witnesses.Keys == db.executions.Keys
    ensures Terminate(db, {id}, s).executions == db.executions[id := db.executions[id].(state := s)]
    ensures Terminate(db, {id}, s).witnesses == db.witnesses[id := SetAll(db.witnesses[id], s)]
  {
  }

  /** A guard lives in one borrowed host transaction. */
  class Guard {
    const tables: Tables
    const t: nat
    const execution: Execution
    var committed: bool

    constructor (tables: Tables, t: nat, e: Execution)
      ensures this.tables == tables && this.t == t && this.execution == e && !committed
    {
      this.tables, this.t, this.execution, committed := tables, t, e, false;
    }

    /** While the guard's transaction is open the staged row counts always match,
        so only a second call, a transaction that ended, or a broken connection fails. */
    method CommitWitness(failed: bool) returns (result: Outcome<()>)
      requires tables.Valid()
      requires committed ==> t !in tables.hosts || IdOf(execution) in tables.hosts[t].staged
      requires t in tables.hosts && IdOf(execution) in tables.hosts[t].guards ==>
        tables.executions[IdOf(execution)].plan == execution.plan && tables.executions[IdOf(execution)].token == execution.token
      modifies this, tables
      ensures tables.Valid()
      ensures tables.View() == TransactionTables.CommitWitness(old(tables.View()), t, IdOf(execution), failed).db
      ensures result.Ok? <==> TransactionTables.CommitWitness(old(tables.View()), t, IdOf(execution), failed).result.Ok?
      ensures committed == (old(committed) || result.Ok?)
    {
      hide RequestsOk, Evolves, Frozen, WitnessesOk, RowOk, PreparedKeys, LockOk;
      var db := tables.View();
      var id := IdOf(execution);
      CommitWitnessKeeps(db, t, id, failed);
      if committed || t !in tables.hosts || id !in tables.hosts[t].guards {
        return Err(ErrTransactionRequired);
      }
      GuardedPrepared(db, t, id);
      var visible := if id in tables.hosts[t].staged then {} else PreparedKeys(tables.witnesses[id]);
      if |visible| != |execution.plan.branches| {
        return Err(ErrStale);
      }
      if failed {
        tables.hosts := tables.hosts[t := tables.hosts[t].(poisoned := true)];
        return Err(ErrStale);
      }
      tables.hosts := tables.hosts[t := tables.hosts[t].(staged := tables.hosts[t].staged + {id})];
      committed := true;
      return Ok(());
    }
  }

  lemma GuardedPrepared(db: Db, t: nat, id: ExecutionId)
    requires Inv(db) && t in db.hosts && id in db.hosts[t].guards
    ensures id in db.executions && id in db.witnesses && db.executions[id].state == Prepared
    ensures |PreparedKeys(db.witnesses[id])| == |db.executions[id].plan.branches| > 0
  {
    hide RequestsOk, WitnessesOk, PreparedKeys;
    assert HostOk(db, db.hosts[t]);
    assert LockOk(db, id);
    PreparedCount(db, id);
    assert RowOk(id, db.executions[id]);
  }
}
