/** Values and pure decisions of the transaction-message protocol: frozen plans,
    executions, exact branch references, evidence, and the rules that turn
    evidence into a broker decision. A Go string or byte slice is a Dafny
    string whose characters stand for bytes. */
module Protocol {

  const MAX_FENCE: nat := 0x7fff_ffff_ffff_ffff
  const MAX_BRANCHES: nat := 16

  datatype Option<+T> = None | Some(value: T)

  datatype Error =
    | ErrInvalidPlan | ErrRequestIdentity | ErrInputConflict | ErrBinding | ErrSchema
    | ErrStale | ErrNotFound | ErrNoRow | ErrDuplicate | ErrLockWait | ErrTransactionRequired | ErrMetadata

  datatype Outcome<+T> = Ok(value: T) | Err(error: Error)

  datatype State = Prepared | Committed | Aborted
  datatype Decision = Unknown | Commit | Rollback
  datatype HalfOutcome = HalfNotAttempted | HalfPrepared | HalfRejected | HalfUnknown
  datatype LocalOutcome = LocalNotStarted | LocalCommitted | LocalAborted | LocalUnknown
  datatype FinalOutcome = FinalNotAttempted | FinalCommitConfirmed | FinalRollbackConfirmed | FinalUnknown

  datatype Message = Message(
    producer: string, id: string, destination: string, eventType: string, schemaVersion: string,
    scope: string, contentType: string, occurredAt: string, payload: string)

  datatype Branch = Branch(
    id: string, physicalTopic: string, routeRevision: string, message: Message, wire: string)

  datatype Plan = Plan(
    owner: string, scope: string, operationId: string, idempotencyKey: string,
    inputHash: string, branches: seq<Branch>)

  // A SHA-256 digest is named by the value whose encoding it hashes. Module
  // Preimage proves that those encodings determine the value.
  datatype PlanDigest = PlanDigest(plan: Plan)
  datatype Fingerprint = Fingerprint(message: Message)
  datatype WireHash = WireHash(wire: string)

  // The indexed identities of the request and execution tables.
  datatype RequestId = RequestId(owner: string, scope: string, key: string)
  datatype ExecutionId = ExecutionId(owner: string, operationId: string, epoch: string, fence: nat)

  datatype Request = Request(id: RequestId, inputHash: string)

  /** What a reservation hands to its winner. Observers hold token 0. */
  datatype Execution = Execution(plan: Plan, fence: nat, epoch: string, token: nat, leaseUntil: int)

  datatype Reference = Reference(
    owner: string, scope: string, operationId: string, branchId: string,
    messageId: string, logicalTopic: string, physicalTopic: string, routeRevision: string,
    epoch: string, planDigest: PlanDigest, wireHash: WireHash, fingerprint: Fingerprint, fence: nat)

  datatype Evidence = Evidence(reference: Reference, execution: State, branch: State)

  // ---- Plans -------------------------------------------------------------

  predicate ValidMessage(m: Message) {
    && 0 < |m.producer| <= 128 && 0 < |m.id| <= 128 && 0 < |m.destination| <= 255
    && 0 < |m.eventType| <= 255 && 0 < |m.schemaVersion| <= 128 && 0 < |m.scope| <= 255
    && 0 < |m.contentType| <= 255 && 0 < |m.occurredAt| <= 64 && 0 < |m.payload|
  }

  predicate ValidBranch(b: Branch, scope: string) {
    && 0 < |b.id| <= 128 && 0 < |b.physicalTopic| <= 255 && 0 < |b.routeRevision| <= 128
    && ValidMessage(b.message) && 0 < |b.wire| && b.message.scope == scope
  }

  predicate ValidHeader(p: Plan) {
    && 0 < |p.owner| <= 128 && 0 < |p.scope| <= 255 && 0 < |p.operationId| <= 128
    && 0 < |p.idempotencyKey| <= 1024 && 0 < |p.branches| <= MAX_BRANCHES
  }

  /** The plans NewPlan accepts; no other plan value reports Valid. */
  predicate Frozen(p: Plan) {
    && ValidHeader(p)
    && (forall i :: 0 <= i < |p.branches| ==> ValidBranch(p.branches[i], p.scope))
    && (forall i, j :: 0 <= i < j < |p.branches| ==> p.branches[i].id != p.branches[j].id)
  }

  method NewPlan(p: Plan) returns (r: Outcome<Plan>)
    ensures r == if Frozen(p) then Ok(p) else Err(ErrInvalidPlan)
  {
    if !ValidHeader(p) {
      return Err(ErrInvalidPlan);
    }
    var ids: set<string> := {};
    for i := 0 to |p.branches|
      invariant forall k :: 0 <= k < i ==> ValidBranch(p.branches[k], p.scope)
      invariant forall k, j :: 0 <= k < j < i ==> p.branches[k].id != p.branches[j].id
      invariant ids == set k | 0 <= k < i :: p.branches[k].id
    {
      var b := p.branches[i];
      if !ValidBranch(b, p.scope) || b.id in ids {
        return Err(ErrInvalidPlan);
      }
      ids := ids + {b.id};
    }
    return Ok(p);
  }

  function RequestIdFor(p: Plan): RequestId {
    RequestId(p.owner, p.scope, p.idempotencyKey)
  }

  function RequestFor(p: Plan): Request {
    Request(RequestIdFor(p), p.inputHash)
  }

  predicate ValidRequest(r: Request) {
    r.id.owner != "" && r.id.scope != "" && r.id.key != ""
  }

  /** The durable winner is compared on stable business input only. */
  function Match(r: Request, p: Plan): Outcome<()> {
    if !Frozen(p) || RequestIdFor(p) != r.id then Err(ErrRequestIdentity)
    else if p.inputHash != r.inputHash then Err(ErrInputConflict)
    else Ok(())
  }

  // ---- Executions and references ------------------------------------------

  function IdOf(e: Execution): ExecutionId {
    ExecutionId(e.plan.owner, e.plan.operationId, e.epoch, e.fence)
  }

  predicate ValidExecution(e: Execution) {
    Frozen(e.plan) && 0 < e.fence <= MAX_FENCE && e.epoch != "" && e.token != 0
  }

  function ReferenceOf(p: Plan, b: Branch, fence: nat, epoch: string): Reference {
    Reference(p.owner, p.scope, p.operationId, b.id, b.message.id, b.message.destination,
              b.physicalTopic, b.routeRevision, epoch, PlanDigest(p), WireHash(b.wire),
              Fingerprint(b.message), fence)
  }

  function ExecutionOf(r: Reference): ExecutionId {
    ExecutionId(r.owner, r.operationId, r.epoch, r.fence)
  }

  predicate ValidReference(r: Reference) {
    && 0 < r.fence <= MAX_FENCE
    && r.owner != "" && r.scope != "" && r.operationId != "" && r.branchId != ""
    && r.messageId != "" && r.logicalTopic != "" && r.physicalTopic != ""
    && r.routeRevision != "" && r.epoch != ""
  }

  /** One reference per branch in plan order; nothing for an unusable identity. */
  function References(e: Execution): (refs: seq<Reference>)
    ensures Referable(e) ==> |refs| == |e.plan.branches|
    ensures |refs| <= |e.plan.branches|
    ensures forall i :: 0 <= i < |refs| ==>
      ValidReference(refs[i]) && ExecutionOf(refs[i]) == IdOf(e) && refs[i].branchId == e.plan.branches[i].id
  {
    if !Referable(e) then
      []
    else
      seq(|e.plan.branches|, i requires 0 <= i < |e.plan.branches| =>
        ReferenceOf(e.plan, e.plan.branches[i], e.fence, e.epoch))
  }

  predicate Referable(e: Execution) {
    Frozen(e.plan) && 0 < e.fence <= MAX_FENCE && e.epoch != ""
  }

  /** The search for a branch by ID. */
  method FindReference(p: Plan, branchId: string, fence: nat, epoch: string) returns (r: Outcome<Reference>)
    ensures r.Ok? <==> Frozen(p) && 0 < fence <= MAX_FENCE && epoch != "" &&
                       exists b :: b in p.branches && b.id == branchId
    ensures forall b :: r.Ok? && b in p.branches && b.id == branchId ==> r.value == ReferenceOf(p, b, fence, epoch)
  {
    if !Frozen(p) || fence == 0 || fence > MAX_FENCE || epoch == "" {
      return Err(ErrInvalidPlan);
    }
    for i := 0 to |p.branches|
      invariant forall k :: 0 <= k < i ==> p.branches[k].id != branchId
    {
      if p.branches[i].id == branchId {
        assert p.branches[i] in p.branches;
        return Ok(ReferenceOf(p, p.branches[i], fence, epoch));
      }
    }
    return Err(ErrInvalidPlan);
  }

  method CollectReferences(e: Execution) returns (refs: seq<Reference>)
    ensures refs == References(e)
  {
    refs := [];
    if !Referable(e) {
      return;
    }
    for i := 0 to |e.plan.branches|
      invariant refs == References(e)[..i]
    {
      assert e.plan.branches[i] in e.plan.branches;
      var r := FindReference(e.plan, e.plan.branches[i].id, e.fence, e.epoch);
      refs := refs + [r.value];
    }
  }

  predicate MatchExecution(e: Execution, ref: Reference) {
    ValidExecution(e) && ref in References(e)
  }

  // ---- Decisions ---------------------------------------------------------

  /** Only exact evidence with both states terminal and equal decides. */
  function Resolve(ref: Reference, evidence: Option<Evidence>): Decision {
    if !ValidReference(ref) || evidence.None? || evidence.value.reference != ref then Unknown
    else if evidence.value.execution == Committed && evidence.value.branch == Committed then Commit
    else if evidence.value.execution == Aborted && evidence.value.branch == Aborted then Rollback
    else Unknown
  }

  /** Torn, foreign or missing evidence decides nothing. */
  lemma ResolveExactly(ref: Reference, evidence: Option<Evidence>)
    ensures Resolve(ref, evidence) == Commit <==> ValidReference(ref) && evidence == Some(Evidence(ref, Committed, Committed))
    ensures Resolve(ref, evidence) == Rollback <==> ValidReference(ref) && evidence == Some(Evidence(ref, Aborted, Aborted))
  {
  }

  predicate SameExecution(a: Reference, b: Reference) {
    ExecutionOf(a) == ExecutionOf(b) && a.scope == b.scope && a.planDigest == b.planDigest
  }

  /** Every branch of one execution resolves to the same terminal decision. */
  predicate Unanimous(refs: seq<Reference>, evidence: seq<Option<Evidence>>, d: Decision) {
    && d != Unknown && 0 < |refs| == |evidence|
    && forall i :: 0 <= i < |refs| ==> SameExecution(refs[0], refs[i]) && Resolve(refs[i], evidence[i]) == d
  }

  function DecideLocal(refs: seq<Reference>, evidence: seq<Option<Evidence>>): LocalOutcome {
    if Unanimous(refs, evidence, Commit) then LocalCommitted
    else if Unanimous(refs, evidence, Rollback) then LocalAborted
    else LocalUnknown
  }

  /** Complete, exact and uniform evidence: one piece per reference, all of one execution. */
  predicate Uniform(refs: seq<Reference>, evidence: seq<Option<Evidence>>, state: State) {
    && |evidence| == |refs| > 0
    && forall i :: 0 <= i < |refs| ==>
         ValidReference(refs[i]) && evidence[i] == Some(Evidence(refs[i], state, state))
         && refs[i].owner == refs[0].owner && refs[i].operationId == refs[0].operationId && refs[i].epoch == refs[0].epoch
         && refs[i].fence == refs[0].fence && refs[i].scope == refs[0].scope && refs[i].planDigest == refs[0].planDigest
  }

  lemma DecideExactly(refs: seq<Reference>, evidence: seq<Option<Evidence>>)
    ensures DecideLocal(refs, evidence) == LocalCommitted <==> Uniform(refs, evidence, Committed)
    ensures DecideLocal(refs, evidence) == LocalAborted <==> Uniform(refs, evidence, Aborted)
    ensures DecideLocal(refs, evidence) != LocalNotStarted
  {
    hide ValidReference;
    if |evidence| == |refs| > 0 {
      UnanimousExactly(refs, evidence, Commit, Committed);
      UnanimousExactly(refs, evidence, Rollback, Aborted);
      if Uniform(refs, evidence, Aborted) { assert Resolve(refs[0], evidence[0]) == Rollback; }
    }
    hide Uniform, Unanimous;
  }

  lemma UnanimousExactly(refs: seq<Reference>, evidence: seq<Option<Evidence>>, d: Decision, state: State)
    requires (d == Commit && state == Committed) || (d == Rollback && state == Aborted)
    ensures Unanimous(refs, evidence, d) <==> Uniform(refs, evidence, state)
  {
    hide ValidReference;
    if |evidence| == |refs| > 0 {
      forall i | 0 <= i < |refs|
        ensures Resolve(refs[i], evidence[i]) == d <==> ValidReference(refs[i]) && evidence[i] == Some(Evidence(refs[i], state, state))
      {
        ResolveExactly(refs[i], evidence[i]);
      }
      hide Resolve;
      if Unanimous(refs, evidence, d) {
        forall i | 0 <= i < |refs| ensures SameExecution(refs[0], refs[i]) && Resolve(refs[i], evidence[i]) == d {}
      }
    }
  }

  /** The branch-by-branch comparison against the first branch's decision. */
  method DecideLocalInOrder(refs: seq<Reference>, evidence: seq<Option<Evidence>>) returns (r: LocalOutcome)
    ensures r == DecideLocal(refs, evidence)
  {
    if |refs| == 0 || |refs| != |evidence| {
      return LocalUnknown;
    }
    var decision := Resolve(refs[0], evidence[0]);
    if decision == Unknown {
      return LocalUnknown;
    }
    for i := 1 to |refs|
      invariant forall k :: 0 <= k < i ==> SameExecution(refs[0], refs[k]) && Resolve(refs[k], evidence[k]) == decision
    {
      if !SameExecution(refs[0], refs[i]) || Resolve(refs[i], evidence[i]) != decision {
        assert !Unanimous(refs, evidence, decision);
        return LocalUnknown;
      }
    }
    assert Unanimous(refs, evidence, decision);
    return if decision == Commit then LocalCommitted else LocalAborted;
  }

  function ValidateAdvance(
    previous: Execution, candidate: Plan, evidence: seq<Option<Evidence>>, replan: bool): Outcome<()>
  {
    if previous.fence == 0 || previous.fence >= MAX_FENCE || !Frozen(previous.plan) || !Frozen(candidate) then
      Err(ErrInvalidPlan)
    else if Match(RequestFor(previous.plan), candidate).Err? then
      Err(Match(RequestFor(previous.plan), candidate).error)
    else if DecideLocal(References(previous), evidence) != LocalAborted then Err(ErrStale)
    else if replan && candidate.operationId == previous.plan.operationId then Err(ErrInvalidPlan)
    else if !replan && PlanDigest(candidate) != PlanDigest(previous.plan) then Err(ErrInvalidPlan)
    else Ok(())
  }
}
