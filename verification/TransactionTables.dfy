/** The committed tables of the transaction store, the host transactions that are
    open against them, and every database transaction the SDK or the host can
    run. Each operation is one atomic step: a check that reads, then an effect.
    The database clock and random tokens are arguments. */
module TransactionTables {
  import opened Protocol

  const SCHEMA_VERSION := 1

  datatype BindingFields = BindingFields(owner: string, storeId: string, epoch: string)

  /** The identity a store object was constructed with; New refuses empty fields. */
  type Binding = b: BindingFields | b.owner != "" && b.storeId != "" && b.epoch != ""
    witness BindingFields("owner", "store", "epoch")

  datatype BindingRow = BindingRow(storeId: string, epoch: string, schema: int)
  datatype RequestRow = RequestRow(inputHash: string, active: ExecutionId)
  datatype ExecutionRow = ExecutionRow(
    request: RequestId, plan: Plan, token: nat, state: State, leaseUntil: int, started: bool)

  datatype Audit = Audit(
    half: HalfOutcome, messageId: string, transactionId: string, halfError: string, halfAt: Option<int>,
    final: FinalOutcome, finalError: string, finalAt: Option<int>)
  datatype Witness = Witness(reference: Reference, state: State, audit: Audit)
  type Witnesses = map<string, Witness>

  /** An open host transaction. Row locks: a shared one per binding row read by
      Bind, an exclusive one per execution (its witness rows included). Guards are
      the executions Bind accepted; staged ones carry an uncommitted Committed
      state. A half-staged commit poisons the transaction. */
  datatype HostTx = HostTx(
    shared: set<string>, locked: set<ExecutionId>, guards: set<ExecutionId>,
    staged: set<ExecutionId>, poisoned: bool)

  datatype Db = Db(
    bindings: map<string, BindingRow>,
    requests: map<RequestId, RequestRow>,
    executions: map<ExecutionId, ExecutionRow>,
    witnesses: map<ExecutionId, Witnesses>,
    hosts: map<nat, HostTx>)

  datatype Step<+T> = Step(db: Db, result: Outcome<T>)
  datatype Reservation = Reservation(execution: Execution, acquired: bool, state: State)
  datatype HalfReceipt = HalfReceipt(outcome: HalfOutcome, messageId: string, transactionId: string, errorCode: string)

  type Token = n: nat | n > 0 witness 1

  const EMPTY_HOST := HostTx({}, {}, {}, {}, false)
  const NEW_AUDIT := Audit(HalfNotAttempted, "", "", "", None, FinalNotAttempted, "", None)

  function Init(): Db { Db(map[], map[], map[], map[], map[]) }

  // ---- Effects -----------------------------------------------------------

  function HostAt(db: Db, t: nat): HostTx {
    if t in db.hosts then db.hosts[t] else EMPTY_HOST
  }

  predicate LockedByOther(db: Db, t: nat, id: ExecutionId) {
    exists u :: u in db.hosts && u != t && id in db.hosts[u].locked
  }

  predicate Locked(db: Db, id: ExecutionId) {
    exists u :: u in db.hosts && id in db.hosts[u].locked
  }

  predicate BindingShared(db: Db, owner: string) {
    exists u :: u in db.hosts && owner in db.hosts[u].shared
  }

  function BranchIds(p: Plan): set<string> {
    set i | 0 <= i < |p.branches| :: p.branches[i].id
  }

  function NewWitness(p: Plan, i: nat, fence: nat, epoch: string): Witness
    requires i < |p.branches|
  {
    Witness(ReferenceOf(p, p.branches[i], fence, epoch), Prepared, NEW_AUDIT)
  }

  /** The rows insertExecution has written after n branches. */
  function FirstWitnesses(p: Plan, n: nat, fence: nat, epoch: string): Witnesses
    requires Frozen(p) && n <= |p.branches|
  {
    map i | 0 <= i < n :: p.branches[i].id := NewWitness(p, i, fence, epoch)
  }

  function NewWitnesses(p: Plan, fence: nat, epoch: string): Witnesses
    requires Frozen(p)
  {
    FirstWitnesses(p, |p.branches|, fence, epoch)
  }

  function Insert(db: Db, r: Request, e: Execution): Db
    requires Frozen(e.plan)
  {
    var id := IdOf(e);
    db.(requests := db.requests[r.id := RequestRow(r.inputHash, id)],
        executions := db.executions[id := ExecutionRow(r.id, e.plan, e.token, Prepared, e.leaseUntil, false)],
        witnesses := db.witnesses[id := NewWitnesses(e.plan, e.fence, e.epoch)])
  }

  function MarkStarted(db: Db, id: ExecutionId): Db
    requires id in db.executions
  {
    db.(executions := db.executions[id := db.executions[id].(started := true)])
  }

  function SetAll(ws: Witnesses, s: State): Witnesses {
    map k | k in ws :: ws[k].(state := s)
  }

  /** Execution rows and all their witness rows move to s together. */
  function Terminate(db: Db, ids: set<ExecutionId>, s: State): Db {
    db.(executions := map i | i in db.executions :: if i in ids then db.executions[i].(state := s) else db.executions[i],
        witnesses := map i | i in db.witnesses :: if i in ids then SetAll(db.witnesses[i], s) else db.witnesses[i])
  }

  function PutAudit(db: Db, id: ExecutionId, branch: string, a: Audit): Db
    requires id in db.witnesses && branch in db.witnesses[id]
  {
    var ws := db.witnesses[id];
    db.(witnesses := db.witnesses[id := ws[branch := ws[branch].(audit := a)]])
  }

  // ---- Reads and checks ----------------------------------------------------

  function BindingIn(db: Db, b: Binding, writer: bool): Outcome<()> {
    if b.owner !in db.bindings then Err(ErrNoRow)
    else
      var row := db.bindings[b.owner];
      if row.storeId != b.storeId || (writer && row.epoch != b.epoch) then Err(ErrBinding)
      else if row.schema != SCHEMA_VERSION then Err(ErrSchema)
      else Ok(())
  }

  function ExecutionFrom(id: ExecutionId, row: ExecutionRow): Execution {
    Execution(row.plan, id.fence, id.epoch, row.token, row.leaseUntil)
  }

  /** lookupIn: the original request fields and input are compared, the token hidden. */
  function LookupIn(db: Db, r: Request): Outcome<Reservation> {
    if r.id !in db.requests then Err(ErrNoRow)
    else
      var row := db.requests[r.id];
      if row.inputHash != r.inputHash then Err(ErrInputConflict)
      else if row.active !in db.executions then Err(ErrNoRow)
      else
        var x := db.executions[row.active];
        if !ValidExecution(ExecutionFrom(row.active, x)) then Err(ErrInvalidPlan)
        else if Match(r, x.plan).Err? then Err(Match(r, x.plan).error)
        else Ok(Reservation(ExecutionFrom(row.active, x).(token := 0), false, x.state))
  }

  function Lookup(db: Db, b: Binding, r: Request): Outcome<Reservation> {
    if !ValidRequest(r) || r.id.owner != b.owner then Err(ErrBinding)
    else if BindingIn(db, b, false).Err? then Err(BindingIn(db, b, false).error)
    else if LookupIn(db, r) == Err(ErrNoRow) then Err(ErrNotFound)
    else LookupIn(db, r)
  }

  // Microseconds: one millisecond to one day.
  predicate ValidLease(lease: int) { 1_000 <= lease <= 86_400_000_000 }

  function ReserveCheck(db: Db, b: Binding, r: Request, p: Plan, lease: int): Outcome<()> {
    if !ValidLease(lease) || !Frozen(p) || r.id.owner != b.owner then Err(ErrBinding)
    else if Match(r, p).Err? then Match(r, p)
    else BindingIn(db, b, true)
  }

  function Reserve(db: Db, b: Binding, r: Request, p: Plan, lease: int, token: Token, now: int): Step<Reservation> {
    var e := Execution(p, 1, b.epoch, token, now + lease);
    if ReserveCheck(db, b, r, p, lease).Err? then Step(db, Err(ReserveCheck(db, b, r, p, lease).error))
    else if r.id in db.requests then Step(db, Lookup(db, b, r))
    else if IdOf(e) in db.executions then Step(db, Err(ErrDuplicate))
    else Step(Insert(db, r, e), Ok(Reservation(e, true, Prepared)))
  }

  /** Evidence: one autocommit read of the exact execution and branch. */
  function EvidenceFor(db: Db, b: Binding, ref: Reference): Outcome<Option<Evidence>> {
    var id := ExecutionOf(ref);
    if !ValidReference(ref) || ref.owner != b.owner then Err(ErrBinding)
    else if id !in db.executions || id !in db.witnesses || ref.branchId !in db.witnesses[id]
         || b.owner !in db.bindings || db.bindings[b.owner].storeId != b.storeId
         || db.bindings[b.owner].schema != SCHEMA_VERSION then Ok(None)
    else
      var w := db.witnesses[id][ref.branchId];
      Ok(Some(Evidence(w.reference, db.executions[id].state, w.state)))
  }

  function BeginPrepareCheck(db: Db, b: Binding, e: Execution, now: int): Outcome<()> {
    var id := IdOf(e);
    if !ValidExecution(e) || e.plan.owner != b.owner || e.epoch != b.epoch then Err(ErrBinding)
    else if BindingIn(db, b, true).Err? then BindingIn(db, b, true)
    else if Locked(db, id) then Err(ErrLockWait)
    else if id !in db.executions then Err(ErrStale)
    else
      var row := db.executions[id];
      if row.token != e.token || row.state != Prepared || row.started || row.leaseUntil <= now then Err(ErrStale)
      else if PlanDigest(row.plan) != PlanDigest(e.plan) then Err(ErrStale)
      else Ok(())
  }

  function BeginPrepare(db: Db, b: Binding, e: Execution, now: int): Step<()> {
    var c := BeginPrepareCheck(db, b, e, now);
    if c.Err? then Step(db, c) else Step(MarkStarted(db, IdOf(e)), c)
  }

  /** Ok(false): no prepared row matched. A caller whose plan has another number
      of branches fails the affected-rows comparison. */
  function AbortCheck(db: Db, b: Binding, e: Execution, expired: bool, now: int): Outcome<bool> {
    var id := IdOf(e);
    if !ValidExecution(e) || e.plan.owner != b.owner then Err(ErrBinding)
    else if BindingIn(db, b, false).Err? then Err(BindingIn(db, b, false).error)
    else if Locked(db, id) then Err(ErrLockWait)
    else if id !in db.executions then Ok(false)
    else
      var row := db.executions[id];
      if row.token != e.token || row.state != Prepared || (expired && row.leaseUntil > now) then Ok(false)
      else if |row.plan.branches| != |e.plan.branches| then Err(ErrStale)
      else Ok(true)
  }

  function Abort(db: Db, b: Binding, e: Execution, expired: bool, now: int): Step<bool> {
    var c := AbortCheck(db, b, e, expired, now);
    if c == Ok(true) then Step(Terminate(db, {IdOf(e)}, Aborted), c) else Step(db, c)
  }

  // ---- Retry and Replan ----------------------------------------------------

  /** Branch evidence of the previous execution, read under its row locks. */
  function LockedEvidence(db: Db, e: Execution, state: State): (r: Outcome<seq<Option<Evidence>>>)
    ensures r.Ok? ==> |r.value| == |References(e)|
  {
    var refs := References(e);
    var id := IdOf(e);
    if refs == [] then Ok([])
    else if id !in db.witnesses || (exists i :: 0 <= i < |refs| && refs[i].branchId !in db.witnesses[id]) then Err(ErrNoRow)
    else
      Ok(seq(|refs|, i requires 0 <= i < |refs| =>
        var w := db.witnesses[id][refs[i].branchId];
        Some(Evidence(w.reference, state, w.state))))
  }

  function AdvanceCheck(db: Db, b: Binding, previous: Execution, p: Plan, lease: int, replan: bool): Outcome<()> {
    var r := RequestFor(previous.plan);
    if !Frozen(previous.plan) || !Frozen(p) || !ValidLease(lease) || previous.fence == 0 || previous.fence >= MAX_FENCE then
      Err(ErrInvalidPlan)
    else if r.id.owner != b.owner then Err(ErrBinding)
    else if Match(r, p).Err? then Match(r, p)
    else if replan && p.operationId == previous.plan.operationId then Err(ErrInvalidPlan)
    else if BindingIn(db, b, true).Err? then BindingIn(db, b, true)
    else if LookupIn(db, r).Err? then Err(LookupIn(db, r).error)
    else
      var current := LookupIn(db, r).value;
      if current.state != Aborted || IdOf(current.execution) != IdOf(previous)
         || PlanDigest(current.execution.plan) != PlanDigest(previous.plan) then Err(ErrStale)
      else if LockedEvidence(db, previous, current.state).Err? then Err(LockedEvidence(db, previous, current.state).error)
      else ValidateAdvance(previous, p, LockedEvidence(db, previous, current.state).value, replan)
  }

  function Advance(db: Db, b: Binding, previous: Execution, p: Plan, lease: int, replan: bool,
                   token: Token, now: int): Step<Reservation>
  {
    var c := AdvanceCheck(db, b, previous, p, lease, replan);
    var e := Execution(p, previous.fence + 1, b.epoch, token, now + lease);
    if c.Err? then Step(db, Err(c.error))
    else if IdOf(e) in db.executions then Step(db, Err(ErrDuplicate))
    else Step(Insert(db, RequestFor(previous.plan), e), Ok(Reservation(e, true, Prepared)))
  }

  // ---- Guard in the host's open transaction ----------------------------------

  /** The state transaction t sees for an execution. */
  function VisibleState(db: Db, t: nat, id: ExecutionId): State
    requires id in db.executions
  {
    if id in HostAt(db, t).staged then Committed else db.executions[id].state
  }

  predicate WitnessMatches(db: Db, t: nat, ref: Reference) {
    var id := ExecutionOf(ref);
    && id in db.witnesses && ref.branchId in db.witnesses[id]
    && db.witnesses[id][ref.branchId].reference == ref
    && db.witnesses[id][ref.branchId].state == Prepared && id !in HostAt(db, t).staged
  }

  predicate WitnessesMatch(db: Db, t: nat, e: Execution) {
    forall i :: 0 <= i < |References(e)| ==> WitnessMatches(db, t, References(e)[i])
  }

  /** The host record once Bind has read the binding row; locks taken before a
      failing check stay. */
  function BindRows(db: Db, b: Binding, t: nat, e: Execution, now: int): (HostTx, Outcome<()>) {
    var id := IdOf(e);
    var h := HostAt(db, t).(shared := HostAt(db, t).shared + {b.owner});
    if BindingIn(db, b, true).Err? then (h, BindingIn(db, b, true))
    else if LockedByOther(db, t, id) then (h, Err(ErrLockWait))
    else if id !in db.executions then (h, Err(ErrStale))
    else
      var row := db.executions[id];
      var locked := h.(locked := h.locked + {id});
      if row.token != e.token || VisibleState(db, t, id) != Prepared || row.leaseUntil <= now then (h, Err(ErrStale))
      else if PlanDigest(row.plan) != PlanDigest(e.plan) || !WitnessesMatch(db, t, e) then (locked, Err(ErrStale))
      else (locked.(guards := locked.guards + {id}), Ok(()))
  }

  function Bind(db: Db, b: Binding, t: nat, e: Execution, now: int): Step<()> {
    if !ValidExecution(e) || e.plan.owner != b.owner || e.epoch != b.epoch then Step(db, Err(ErrBinding))
    else if b.owner !in db.bindings then Step(db, Err(ErrNoRow))
    else
      var r := BindRows(db, b, t, e, now);
      Step(db.(hosts := db.hosts[t := r.0]), r.1)
  }

  /** failed: the connection broke between the two staged updates. */
  function CommitWitness(db: Db, t: nat, id: ExecutionId, failed: bool): Step<()> {
    if t !in db.hosts || id !in db.hosts[t].guards || id in db.hosts[t].staged then Step(db, Err(ErrTransactionRequired))
    else if failed then Step(db.(hosts := db.hosts[t := db.hosts[t].(poisoned := true)]), Err(ErrStale))
    else Step(db.(hosts := db.hosts[t := db.hosts[t].(staged := db.hosts[t].staged + {id})]), Ok(()))
  }

  function EndHost(db: Db, t: nat): Db {
    db.(hosts := db.hosts - {t})
  }

  /** A host whose CommitWitness failed rolls back instead. */
  function HostCommit(db: Db, t: nat): Step<()> {
    if t !in db.hosts then Step(db, Err(ErrTransactionRequired))
    else if db.hosts[t].poisoned then Step(EndHost(db, t), Err(ErrTransactionRequired))
    else Step(EndHost(Terminate(db, db.hosts[t].staged, Committed), t), Ok(()))
  }

  /** The host's own maintenance of its binding row needs the row exclusively. */
  function SetBinding(db: Db, owner: string, row: BindingRow): Step<()> {
    if BindingShared(db, owner) then Step(db, Err(ErrLockWait))
    else Step(db.(bindings := db.bindings[owner := row]), Ok(()))
  }

  // ---- Receipts ------------------------------------------------------------

  predicate ValidHalf(h: HalfReceipt) {
    && |h.messageId| <= 512 && |h.transactionId| <= 4096 && |h.errorCode| <= 128
    && h.outcome != HalfNotAttempted
    && (h.outcome == HalfPrepared ==> h.messageId != "" && h.transactionId != "")
  }

  predicate ValidFinal(f: FinalOutcome, code: string) {
    |code| <= 128 && f != FinalNotAttempted
  }

  /** receiptTx: the exact execution, its token and the exact branch, row locked. */
  function ReceiptCheck(db: Db, b: Binding, e: Execution, ref: Reference): Outcome<Witness> {
    var id := IdOf(e);
    if !MatchExecution(e, ref) || ref.owner != b.owner then Err(ErrBinding)
    else if BindingIn(db, b, false).Err? then Err(BindingIn(db, b, false).error)
    else if Locked(db, id) then Err(ErrLockWait)
    else if id !in db.executions then Err(ErrNoRow)
    else if db.executions[id].token != e.token then Err(ErrStale)
    else if id !in db.witnesses || ref.branchId !in db.witnesses[id] then Err(ErrNoRow)
    else
      var w := db.witnesses[id][ref.branchId];
      if w.reference != ref || w.state != db.executions[id].state then Err(ErrStale) else Ok(w)
  }

  function HalfAudit(a: Audit, h: HalfReceipt, now: int): Audit {
    a.(half := h.outcome, messageId := h.messageId, transactionId := h.transactionId,
       halfError := h.errorCode, halfAt := Some(now))
  }

  predicate HalfConflict(a: Audit, h: HalfReceipt) {
    || (a.messageId != "" && a.messageId != h.messageId)
    || (a.transactionId != "" && a.transactionId != h.transactionId)
    || (a.half != HalfNotAttempted && a.half != HalfUnknown && a.half != h.outcome)
  }

  function RecordHalf(db: Db, b: Binding, e: Execution, ref: Reference, h: HalfReceipt, now: int): Step<()> {
    var c := ReceiptCheck(db, b, e, ref);
    if !ValidHalf(h) then Step(db, Err(ErrInvalidPlan))
    else if c.Err? then Step(db, Err(c.error))
    else if c.value.state != Prepared || HalfConflict(c.value.audit, h) then Step(db, Err(ErrStale))
    else Step(PutAudit(db, IdOf(e), ref.branchId, HalfAudit(c.value.audit, h, now)), Ok(()))
  }

  function FinalAudit(a: Audit, f: FinalOutcome, code: string, now: int): Audit {
    a.(final := f, finalError := code, finalAt := Some(now))
  }

  predicate FinalAgrees(f: FinalOutcome, s: State) {
    (f == FinalCommitConfirmed ==> s == Committed) && (f == FinalRollbackConfirmed ==> s == Aborted)
  }

  predicate FinalOpen(f: FinalOutcome, next: FinalOutcome) {
    f == FinalNotAttempted || f == FinalUnknown || f == next
  }

  function RecordFinal(db: Db, b: Binding, e: Execution, ref: Reference, f: FinalOutcome, code: string, now: int): Step<()> {
    var c := ReceiptCheck(db, b, e, ref);
    if !ValidFinal(f, code) then Step(db, Err(ErrInvalidPlan))
    else if c.Err? then Step(db, Err(c.error))
    else if c.value.state == Prepared || !FinalAgrees(f, c.value.state) || !FinalOpen(c.value.audit.final, f) then Step(db, Err(ErrStale))
    else Step(PutAudit(db, IdOf(e), ref.branchId, FinalAudit(c.value.audit, f, code, now)), Ok(()))
  }

  function RecoveryCheck(db: Db, b: Binding, ref: Reference, f: FinalOutcome): Outcome<Witness> {
    var id := ExecutionOf(ref);
    if f != FinalCommitConfirmed && f != FinalRollbackConfirmed then Err(ErrInvalidPlan)
    else if !ValidReference(ref) || ref.owner != b.owner then Err(ErrBinding)
    else if BindingIn(db, b, false).Err? then Err(BindingIn(db, b, false).error)
    else if Locked(db, id) then Err(ErrLockWait)
    else if id !in db.executions then Err(ErrNoRow)
    else if db.executions[id].state != (if f == FinalCommitConfirmed then Committed else Aborted) then Err(ErrStale)
    else if id !in db.witnesses || ref.branchId !in db.witnesses[id] then Err(ErrNoRow)
    else
      var w := db.witnesses[id][ref.branchId];
      if w.reference != ref || w.state != db.executions[id].state || !FinalOpen(w.audit.final, f) then Err(ErrStale) else Ok(w)
  }

  /** A repeated positive observation keeps the first audit time. */
  function RecordRecoveryFinal(db: Db, b: Binding, ref: Reference, f: FinalOutcome, now: int): Step<()> {
    var c := RecoveryCheck(db, b, ref, f);
    if c.Err? then Step(db, Err(c.error))
    else if c.value.audit.final == f then Step(db, Ok(()))
    else Step(PutAudit(db, ExecutionOf(ref), ref.branchId, FinalAudit(c.value.audit, f, "", now)), Ok(()))
  }

  // ---- Runs ----------------------------------------------------------------

  datatype Op =
    | OpReserve(b: Binding, r: Request, p: Plan, lease: int, token: Token, now: int)
    | OpAdvance(b: Binding, previous: Execution, p: Plan, lease: int, replan: bool, token: Token, now: int)
    | OpBeginPrepare(b: Binding, e: Execution, now: int)
    | OpAbort(b: Binding, e: Execution, expired: bool, now: int)
    | OpBind(b: Binding, t: nat, e: Execution, now: int)
    | OpCommitWitness(t: nat, id: ExecutionId, failed: bool)
    | OpHostCommit(t: nat)
    | OpHostRollback(t: nat)
    | OpSetBinding(owner: string, row: BindingRow)
    | OpRecordHalf(b: Binding, e: Execution, ref: Reference, h: HalfReceipt, now: int)
    | OpRecordFinal(b: Binding, e: Execution, ref: Reference, f: FinalOutcome, code: string, now: int)
    | OpRecoveryFinal(b: Binding, ref: Reference, f: FinalOutcome, now: int)

  function Apply(db: Db, op: Op): Db {
    match op
    case OpReserve(b, r, p, lease, token, now) => Reserve(db, b, r, p, lease, token, now).db
    case OpAdvance(b, previous, p, lease, replan, token, now) => Advance(db, b, previous, p, lease, replan, token, now).db
    case OpBeginPrepare(b, e, now) => BeginPrepare(db, b, e, now).db
    case OpAbort(b, e, expired, now) => Abort(db, b, e, expired, now).db
    case OpBind(b, t, e, now) => Bind(db, b, t, e, now).db
    case OpCommitWitness(t, id, failed) => CommitWitness(db, t, id, failed).db
    case OpHostCommit(t) => HostCommit(db, t).db
    case OpHostRollback(t) => EndHost(db, t)
    case OpSetBinding(owner, row) => SetBinding(db, owner, row).db
    case OpRecordHalf(b, e, ref, h, now) => RecordHalf(db, b, e, ref, h, now).db
    case OpRecordFinal(b, e, ref, f, code, now) => RecordFinal(db, b, e, ref, f, code, now).db
    case OpRecoveryFinal(b, ref, f, now) => RecordRecoveryFinal(db, b, ref, f, now).db
  }

  function Run(db: Db, ops: seq<Op>): Db
    decreases |ops|
  {
    if ops == [] then db else Run(Apply(db, ops[0]), ops[1..])
  }
}
