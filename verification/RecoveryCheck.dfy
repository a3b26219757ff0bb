/** The broker asks about a half message by its own content: the topic it arrived on, the
    reference property and the body. What the reference property decodes to is an argument. */
module RecoveryCheck {
  import opened Protocol
  import opened TransactionTables
  import opened TransactionInvariants
  import opened TransactionSafety
  import opened TransactionGrants

  datatype TransactionRoute = TransactionRoute(logicalTopic: string, revision: string)

  const MAX_WIRE := 262_144

  function CheckMessage(db: Db, b: Binding, routes: map<string, TransactionRoute>, physical: string, decoded: Option<Reference>, body: string): Decision {
    if decoded.None? || physical !in routes then Unknown
    else
      var ref := decoded.value;
      if ref.owner != b.owner || ref.physicalTopic != physical || ref.logicalTopic != routes[physical].logicalTopic
         || ref.routeRevision != routes[physical].revision || |body| == 0 || |body| > MAX_WIRE || WireHash(body) != ref.wireHash then Unknown
      else if EvidenceFor(db, b, ref).Err? then Unknown
      else Resolve(ref, EvidenceFor(db, b, ref).value)
  }

  /** The message is, byte for byte, the i-th branch of the stored execution the reference
      names, on its own physical topic, and the sender still publishes there. */
  predicate IsBranch(db: Db, b: Binding, routes: map<string, TransactionRoute>, physical: string, ref: Reference, body: string, i: nat) {
    var id := ExecutionOf(ref);
    && id in db.executions && id.owner == b.owner && i < |db.executions[id].plan.branches|
    && var plan := db.executions[id].plan;
       var x := plan.branches[i];
       && ref == ReferenceOf(plan, x, id.fence, id.epoch) && body == x.wire && |x.wire| <= 262_144
       && physical == x.physicalTopic && physical in routes && routes[physical] == TransactionRoute(x.message.destination, x.routeRevision)
  }

  ghost predicate Genuine(db: Db, b: Binding, routes: map<string, TransactionRoute>, physical: string, ref: Reference, body: string) {
    exists i: nat :: IsBranch(db, b, routes, physical, ref, body, i)
  }

  /** In every reachable store a recovery check is decided exactly for genuine messages of
      ended executions, by how they ended, whatever epoch the store now is in. */
  lemma CheckedExactly(ops: seq<Op>, b: Binding, routes: map<string, TransactionRoute>, physical: string, ref: Reference, body: string)
    ensures var db := After(ops); var d := CheckMessage(db, b, routes, physical, Some(ref), body);
      var known := Reader(db, b) && Genuine(db, b, routes, physical, ref, body);
      && (d == Commit <==> known && db.executions[ExecutionOf(ref)].state == Committed)
      && (d == Rollback <==> known && db.executions[ExecutionOf(ref)].state == Aborted)
  {
    hide Run, Resolve, EvidenceFor, Reader, ValidReference, Genuine, IsBranch, Inv, Recorded;
    var db := After(ops);
    AfterInv(ops);
    DecisionExactly(ops, b, ref);
    RecordedBranch(db, b, ref);
    if Recorded(db, b, ref) {
      var i := BranchOf(db, b, ref);
      RoutedIff(db, b, routes, physical, ref, body, i);
    } else if Reader(db, b) && Genuine(db, b, routes, physical, ref, body) {
      GenuineRecorded(db, b, routes, physical, ref, body);
    }
  }

  lemma RecordedBranch(db: Db, b: Binding, ref: Reference)
    ensures Recorded(db, b, ref) ==> ExecutionOf(ref) in db.executions && Reader(db, b)
  {
  }

  /** A recorded reference is that of a branch of the stored plan. */
  lemma BranchOf(db: Db, b: Binding, ref: Reference) returns (i: nat)
    requires Inv(db) && Recorded(db, b, ref)
    ensures var id := ExecutionOf(ref);
      && id in db.executions && id.owner == b.owner && i < |db.executions[id].plan.branches|
      && ref == ReferenceOf(db.executions[id].plan, db.executions[id].plan.branches[i], id.fence, id.epoch)
  {
    hide RequestsOk, HostsOk, RowOk, WitnessOk, Reader;
    var id := ExecutionOf(ref);
    assert WitnessesOk(id, db.executions[id], db.witnesses[id]);
    i :| 0 <= i < |db.executions[id].plan.branches| && db.executions[id].plan.branches[i].id == ref.branchId;
  }

  /** For a message of a known reference the checks ask exactly that it is genuine. */
  lemma RoutedIff(db: Db, b: Binding, routes: map<string, TransactionRoute>, physical: string, ref: Reference, body: string, i: nat)
    requires Inv(db) && ExecutionOf(ref) in db.executions && ExecutionOf(ref).owner == b.owner && i < |db.executions[ExecutionOf(ref)].plan.branches|
    requires ref == ReferenceOf(db.executions[ExecutionOf(ref)].plan, db.executions[ExecutionOf(ref)].plan.branches[i], ref.fence, ref.epoch)
    ensures Genuine(db, b, routes, physical, ref, body) <==>
      && physical in routes && ref.physicalTopic == physical && ref.logicalTopic == routes[physical].logicalTopic
      && ref.routeRevision == routes[physical].revision && 1 <= |body| <= 262_144 && ref.wireHash == WireHash(body)
  {
    hide RequestsOk, HostsOk, WitnessesOk;
    var id := ExecutionOf(ref);
    assert RowOk(id, db.executions[id]);
    assert ValidBranch(db.executions[id].plan.branches[i], db.executions[id].plan.scope);
    hide Frozen, ValidBranch, Inv;
    if Genuine(db, b, routes, physical, ref, body) {
      var j: nat :| IsBranch(db, b, routes, physical, ref, body, j);
    } else {
      assert !IsBranch(db, b, routes, physical, ref, body, i);
    }
  }

  lemma GenuineRecorded(db: Db, b: Binding, routes: map<string, TransactionRoute>, physical: string, ref: Reference, body: string)
    requires Inv(db) && Reader(db, b) && Genuine(db, b, routes, physical, ref, body)
    ensures Recorded(db, b, ref)
  {
    hide RequestsOk, HostsOk, Reader, WitnessOk;
    var i: nat :| IsBranch(db, b, routes, physical, ref, body, i);
    var id := ExecutionOf(ref);
    assert RowOk(id, db.executions[id]) && WitnessesOk(id, db.executions[id], db.witnesses[id]);
    var e := ExecutionFrom(id, db.executions[id]);
    assert References(e)[i] == ref;
  }
}
