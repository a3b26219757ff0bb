/** The read-only protocol observation: one join of executions and witnesses,
    streamed through an accumulator of counters and maxima. */
module Observation {
  import opened Protocol
  import opened TransactionTables
  import opened TransactionInvariants
  import opened TransactionSafety
  import opened SenderSystem
  import opened SenderSafety
  import opened ExecuteOnly

  datatype BranchView = BranchView(
    state: State, half: HalfOutcome, final: FinalOutcome, halfAt: Option<int>, finalAt: Option<int>)

  /** One joined row; an execution without witness rows joins once, to None. */
  datatype Row = Row(id: ExecutionId, state: State, started: bool, leaseUntil: int, key: string, branch: Option<BranchView>, first: bool)

  // ---- Rows as the query returns them -------------------------------------------------

  /** A column that may be null or hold text that does not parse. */
  datatype Column<+T> = Missing | Malformed | Value(value: T)

  datatype RawBranch = RawBranch(
    state: Column<State>, half: Column<HalfOutcome>, final: Column<FinalOutcome>, halfAt: Column<int>, finalAt: Column<int>)

  /** A binding row joined to an execution and to one of its branches, if any. */
  datatype RawRow = RawRow(
    binding: BindingRow, clock: Column<int>, id: Option<ExecutionId>, state: Column<State>, started: Column<bool>, lease: Column<int>,
    key: Option<string>, branch: RawBranch, first: bool)

  /** The accumulator's own reading: absent outcomes are the defaults. */
  function ReadBranch(b: RawBranch): Option<BranchView> {
    if !b.state.Value? || b.half.Malformed? || b.final.Malformed? || b.halfAt.Malformed? || b.finalAt.Malformed? then None
    else Some(BranchView(b.state.value, if b.half.Value? then b.half.value else HalfNotAttempted,
                         if b.final.Value? then b.final.value else FinalNotAttempted,
                         if b.halfAt.Value? then Some(b.halfAt.value) else None, if b.finalAt.Value? then Some(b.finalAt.value) else None))
  }

  /** The store's reading of one row: nothing to count, a row, or an error. */
  function ReadRow(b: Binding, r: RawRow): Outcome<Option<Row>> {
    if r.binding.storeId != b.storeId || r.binding.epoch != b.epoch then Err(ErrBinding)
    else if r.binding.schema != SCHEMA_VERSION then Err(ErrSchema)
    else if !r.clock.Value? then Err(ErrMetadata)
    else if r.id.None? then Ok(None)
    else if !r.state.Value? || !r.started.Value? || !r.lease.Value? then Err(ErrMetadata)
    else if r.key.None? then Ok(Some(Row(r.id.value, r.state.value, r.started.value, r.lease.value, "", None, r.first)))
    else if !r.branch.half.Value? || !r.branch.final.Value? || ReadBranch(r.branch).None? then Err(ErrMetadata)
    else Ok(Some(Row(r.id.value, r.state.value, r.started.value, r.lease.value, r.key.value, ReadBranch(r.branch), r.first)))
  }

  /** The rows to count, up to the first error. */
  function ReadRows(b: Binding, raws: seq<RawRow>): Outcome<seq<Row>> {
    if raws == [] then Ok([])
    else
      var init := ReadRows(b, raws[..|raws| - 1]);
      if init.Err? then init
      else
        var last := ReadRow(b, raws[|raws| - 1]);
        if last.Err? then Err(last.error) else if last.value.None? then init else Ok(init.value + [last.value.value])
  }

  lemma {:induction false} ErrorStays(b: Binding, raws: seq<RawRow>, i: nat)
    requires i <= |raws| && ReadRows(b, raws[..i]).Err?
    ensures ReadRows(b, raws) == Err(ReadRows(b, raws[..i]).error)
    decreases |raws|
  {
    hide ReadRow;
    if i == |raws| {
      assert raws[..i] == raws;
    } else {
      var n := |raws| - 1;
      assert raws[..n][..i] == raws[..i];
      ErrorStays(b, raws[..n], i);
    }
  }

  // ---- What each counter stands for ---------------------------------------------------

  predicate Positive(f: FinalOutcome) { f == FinalCommitConfirmed || f == FinalRollbackConfirmed }

  predicate Reserved(r: Row) { r.first && r.state == Prepared && !r.started }
  predicate Preparing(r: Row) { r.first && r.state == Prepared && r.started }
  predicate Conflict(r: Row) {
    r.branch.None? || r.branch.value.state != r.state || !FinalAgrees(r.branch.value.final, r.state)
  }
  predicate Unobserved(r: Row) { r.branch.Some? && r.state == Committed && r.branch.value.half != HalfPrepared }
  predicate Untracked(r: Row) {
    r.branch.Some? && r.state == Aborted && r.started && r.branch.value.half == HalfNotAttempted && !Positive(r.branch.value.final)
  }
  predicate Gap(r: Row) {
    && r.branch.Some? && r.state != Prepared && (r.branch.value.half == HalfPrepared || r.branch.value.half == HalfUnknown)
    && !Positive(r.branch.value.final)
  }
  function GapSince(b: BranchView): Option<int> { if b.halfAt.Some? then b.halfAt else b.finalAt }
  predicate Unaged(r: Row) { Gap(r) && GapSince(r.branch.value).None? }

  function Age(now: int, at: int): int { if at > now then 0 else now - at }

  function Count(rows: seq<Row>, p: Row -> bool): nat {
    if rows == [] then 0 else Count(rows[..|rows| - 1], p) + (if p(rows[|rows| - 1]) then 1 else 0)
  }

  lemma CountNext(rows: seq<Row>, i: nat, p: Row -> bool)
    requires i < |rows|
    ensures Count(rows[..i + 1], p) == Count(rows[..i], p) + (if p(rows[i]) then 1 else 0)
  {
    assert rows[..i + 1][..i] == rows[..i];
  }

  lemma {:induction false} CountZero(rows: seq<Row>, p: Row -> bool)
    requires forall i :: 0 <= i < |rows| ==> !p(rows[i])
    ensures Count(rows, p) == 0
  {
    if rows != [] { CountZero(rows[..|rows| - 1], p); }
  }

  predicate GapAged(asOf: int, r: Row, age: int) {
    Gap(r) && GapSince(r.branch.value).Some? && Age(asOf, GapSince(r.branch.value).value) == age
  }

  predicate ExpiryAged(asOf: int, r: Row, age: int) { Preparing(r) && Age(asOf, r.leaseUntil) == age }

  /** max is the greatest age any row has, or zero. */
  ghost predicate Greatest(rows: seq<Row>, aged: (Row, int) -> bool, max: int) {
    && (forall i, g :: 0 <= i < |rows| && aged(rows[i], g) ==> g <= max)
    && (max == 0 || exists i :: 0 <= i < |rows| && aged(rows[i], max))
  }

  lemma GreatestNext(rows: seq<Row>, r: Row, aged: (Row, int) -> bool, was: int, max: int)
    requires Greatest(rows, aged, was) && was <= max && (forall g :: aged(r, g) ==> g <= max) && (max == was || aged(r, max))
    ensures Greatest(rows + [r], aged, max)
  {
    var next := rows + [r];
    assert next[|rows|] == r && forall i :: 0 <= i < |rows| ==> next[i] == rows[i];
    if max != 0 && max == was {
      var i :| 0 <= i < |rows| && aged(rows[i], max);
      assert aged(next[i], max);
    }
  }

  class Accumulator {
    const asOf: int
    var reserved: nat
    var preparing: nat
    var expiryAge: int
    var gaps: nat
    var oldestGapAge: int
    var unagedGaps: nat
    var untracked: nat
    var unobserved: nat
    var conflicts: nat

    constructor (asOf: int)
      ensures this.asOf == asOf && reserved == preparing == gaps == unagedGaps == untracked == unobserved == conflicts == 0
      ensures expiryAge == oldestGapAge == 0
    {
      this.asOf := asOf;
      reserved, preparing, gaps, unagedGaps, untracked, unobserved, conflicts := 0, 0, 0, 0, 0, 0, 0;
      expiryAge, oldestGapAge := 0, 0;
    }

    method Execution(state: Column<State>, started: bool, lease: Column<int>) returns (ok: bool)
      modifies `reserved, `preparing, `expiryAge
      ensures ok <==> state.Value? && lease.Value?
      ensures reserved == old(reserved) + (if ok && state.value == Prepared && !started then 1 else 0)
      ensures preparing == old(preparing) + (if ok && state.value == Prepared && started then 1 else 0)
      ensures expiryAge == if ok && state.value == Prepared && started && Age(asOf, lease.value) > old(expiryAge)
                           then Age(asOf, lease.value) else old(expiryAge)
    {
      if !state.Value? || !lease.Value? {
        return false;
      }
      if state.value == Prepared {
        if !started {
          reserved := reserved + 1;
        } else {
          preparing := preparing + 1;
          if Age(asOf, lease.value) > expiryAge {
            expiryAge := Age(asOf, lease.value);
          }
        }
      }
      return true;
    }

    method Branch(state: Column<State>, started: bool, raw: RawBranch) returns (ok: bool)
      requires !raw.halfAt.Malformed? && !raw.finalAt.Malformed?
      modifies `conflicts, `unobserved, `untracked, `gaps, `unagedGaps, `oldestGapAge
      ensures ok <==> state.Value? && ReadBranch(raw).Some?
      ensures !ok ==> conflicts == old(conflicts) && unobserved == old(unobserved) && untracked == old(untracked)
                      && gaps == old(gaps) && unagedGaps == old(unagedGaps) && oldestGapAge == old(oldestGapAge)
      ensures ok ==> forall r: Row | r.state == state.value && r.started == started && r.branch == ReadBranch(raw) ::
        && conflicts == old(conflicts) + (if Conflict(r) then 1 else 0)
        && unobserved == old(unobserved) + (if Unobserved(r) then 1 else 0)
        && untracked == old(untracked) + (if Untracked(r) then 1 else 0)
        && gaps == old(gaps) + (if Gap(r) then 1 else 0)
        && unagedGaps == old(unagedGaps) + (if Unaged(r) then 1 else 0)
        && old(oldestGapAge) <= oldestGapAge && (forall g :: GapAged(asOf, r, g) ==> g <= oldestGapAge)
        && (oldestGapAge == old(oldestGapAge) || GapAged(asOf, r, oldestGapAge))
    {
      hide Conflict, Unobserved, Untracked, Gap, Unaged, GapAged;
      if !state.Value? || !raw.state.Value? || raw.half.Malformed? || raw.final.Malformed? {
        return false;
      }
      var half := if raw.half.Value? then raw.half.value else HalfNotAttempted;
      var final := if raw.final.Value? then raw.final.value else FinalNotAttempted;
      var halfAt := if raw.halfAt.Value? then Some(raw.halfAt.value) else None;
      var finalAt := if raw.finalAt.Value? then Some(raw.finalAt.value) else None;
      Tally(state.value, started, BranchView(raw.state.value, half, final, halfAt, finalAt));
      return true;
    }

    /** The counting part of Branch. */
    method Tally(state: State, started: bool, b: BranchView)
      modifies `conflicts, `unobserved, `untracked, `gaps, `unagedGaps, `oldestGapAge
      ensures forall r: Row | r.state == state && r.started == started && r.branch == Some(b) ::
        && conflicts == old(conflicts) + (if Conflict(r) then 1 else 0)
        && unobserved == old(unobserved) + (if Unobserved(r) then 1 else 0)
        && untracked == old(untracked) + (if Untracked(r) then 1 else 0)
        && gaps == old(gaps) + (if Gap(r) then 1 else 0)
        && unagedGaps == old(unagedGaps) + (if Unaged(r) then 1 else 0)
        && old(oldestGapAge) <= oldestGapAge && (forall g :: GapAged(asOf, r, g) ==> g <= oldestGapAge)
        && (oldestGapAge == old(oldestGapAge) || GapAged(asOf, r, oldestGapAge))
    {
      if b.state != state || (b.final == FinalCommitConfirmed && state != Committed) || (b.final == FinalRollbackConfirmed && state != Aborted) {
        conflicts := conflicts + 1;
      }
      if state == Committed && b.half != HalfPrepared {
        unobserved := unobserved + 1;
      }
      if state == Aborted && started && b.half == HalfNotAttempted && b.final != FinalCommitConfirmed && b.final != FinalRollbackConfirmed {
        untracked := untracked + 1;
      }
      if state == Prepared || (b.half != HalfPrepared && b.half != HalfUnknown)
         || b.final == FinalCommitConfirmed || b.final == FinalRollbackConfirmed {
        return;
      }
      gaps := gaps + 1;
      var at := b.halfAt;
      if at.None? {
        at := b.finalAt;
      }
      if at.None? {
        unagedGaps := unagedGaps + 1;
      } else if Age(asOf, at.value) > oldestGapAge {
        oldestGapAge := Age(asOf, at.value);
      }
    }

    ghost predicate Counted(rows: seq<Row>)
      reads this
    {
      && reserved == Count(rows, Reserved) && preparing == Count(rows, Preparing)
      && conflicts == Count(rows, Conflict) && unobserved == Count(rows, Unobserved)
      && untracked == Count(rows, Untracked) && gaps == Count(rows, Gap) && unagedGaps == Count(rows, Unaged)
    }

    ghost predicate Oldest(rows: seq<Row>)
      reads this
    {
      Greatest(rows, (r, g) => GapAged(asOf, r, g), oldestGapAge) && Greatest(rows, (r, g) => ExpiryAged(asOf, r, g), expiryAge)
    }

    /** The counting part of the loop body, for a row that reads as r. */
    method AddRow(raw: RawRow, ghost b: Binding, ghost r: Row)
      requires ReadRow(b, raw) == Ok(Some(r))
      modifies this
      ensures reserved == old(reserved) + (if Reserved(r) then 1 else 0)
      ensures preparing == old(preparing) + (if Preparing(r) then 1 else 0)
      ensures conflicts == old(conflicts) + (if Conflict(r) then 1 else 0)
      ensures unobserved == old(unobserved) + (if Unobserved(r) then 1 else 0)
      ensures untracked == old(untracked) + (if Untracked(r) then 1 else 0)
      ensures gaps == old(gaps) + (if Gap(r) then 1 else 0)
      ensures unagedGaps == old(unagedGaps) + (if Unaged(r) then 1 else 0)
      ensures old(oldestGapAge) <= oldestGapAge && (forall g :: GapAged(asOf, r, g) ==> g <= oldestGapAge)
      ensures oldestGapAge == old(oldestGapAge) || GapAged(asOf, r, oldestGapAge)
      ensures old(expiryAge) <= expiryAge && (forall g :: ExpiryAged(asOf, r, g) ==> g <= expiryAge)
      ensures expiryAge == old(expiryAge) || ExpiryAged(asOf, r, expiryAge)
    {
      hide Unobserved, Untracked, Unaged, ReadBranch, GapSince, Age;
      if raw.first {
        var ok := Execution(raw.state, raw.started.value, raw.lease);
      }
      if raw.key.None? {
        conflicts := conflicts + 1;
        BranchlessCounts(r);
      } else {
        BadTimes(raw.branch);
        var ok := Branch(raw.state, raw.started.value, raw.branch);
      }
    }

    method AddNext(raw: RawRow, ghost b: Binding, ghost rows: seq<Row>, ghost r: Row)
      requires ReadRow(b, raw) == Ok(Some(r)) && Counted(rows) && Oldest(rows)
      modifies this
      ensures Counted(rows + [r]) && Oldest(rows + [r])
    {
      hide Reserved, Preparing, Conflict, Unobserved, Untracked, Gap, Unaged, GapAged, ExpiryAged, Count, ReadRow, Greatest;
      AddRow(raw, b, r);
      ghost var next := rows + [r];
      assert next[..|rows|] == rows && next[..|rows| + 1] == next && next[|rows|] == r;
      assert Counted(next) by {
        CountNext(next, |rows|, Reserved);
        CountNext(next, |rows|, Preparing);
        CountNext(next, |rows|, Conflict);
        CountNext(next, |rows|, Unobserved);
        CountNext(next, |rows|, Untracked);
        CountNext(next, |rows|, Gap);
        CountNext(next, |rows|, Unaged);
      }
      GreatestNext(rows, r, (x, g) => GapAged(asOf, x, g), old(oldestGapAge), oldestGapAge);
      GreatestNext(rows, r, (x, g) => ExpiryAged(asOf, x, g), old(expiryAge), expiryAge);
    }

    /** Streams the joined rows of one statement once. The first binding, schema, clock or
        metadata error ends it; otherwise every row has been counted. */
    method Observe(b: Binding, raws: seq<RawRow>) returns (result: Outcome<()>)
      requires reserved == preparing == gaps == unagedGaps == untracked == unobserved == conflicts == 0 && oldestGapAge == expiryAge == 0
      requires forall i :: 0 <= i < |raws| && raws[i].clock.Value? ==> raws[i].clock.value == asOf
      modifies this
      ensures result.Ok? <==> raws != [] && ReadRows(b, raws).Ok?
      ensures result.Err? ==> result.error == if raws == [] then ErrBinding else ReadRows(b, raws).error
      ensures result.Ok? ==> Counted(ReadRows(b, raws).value) && Oldest(ReadRows(b, raws).value)
    {
      hide Counted, Oldest, ReadRow;
      Nothing();
      assert raws[..0] == [];
      var i := 0;
      while i < |raws|
        invariant i <= |raws| && ReadRows(b, raws[..i]).Ok?
        invariant Counted(ReadRows(b, raws[..i]).value) && Oldest(ReadRows(b, raws[..i]).value)
      {
        assert raws[..i + 1][..i] == raws[..i];
        var error := Refused(b, raws[i]);
        if error.Some? {
          ErrorStays(b, raws, i + 1);
          return Err(error.value);
        }
        if raws[i].id.Some? {
          ghost var r := ReadRow(b, raws[i]).value.value;
          AddNext(raws[i], b, ReadRows(b, raws[..i]).value, r);
        }
        i := i + 1;
      }
      assert raws[..|raws|] == raws;
      if |raws| == 0 {
        return Err(ErrBinding);
      }
      return Ok(());
    }

    lemma Nothing()
      requires reserved == preparing == gaps == unagedGaps == untracked == unobserved == conflicts == 0 && oldestGapAge == expiryAge == 0
      ensures Counted([]) && Oldest([])
    {
    }
  }

  lemma BranchlessCounts(r: Row)
    requires r.branch.None?
    ensures Conflict(r) && !Unobserved(r) && !Untracked(r) && !Gap(r) && !Unaged(r)
  {
  }

  lemma BadTimes(b: RawBranch)
    ensures b.halfAt.Malformed? || b.finalAt.Malformed? ==> ReadBranch(b).None?
  {
  }

  /** The checks of the loop body, in order. */
  method Refused(b: Binding, raw: RawRow) returns (error: Option<Error>)
    ensures error.Some? <==> ReadRow(b, raw).Err?
    ensures error.Some? ==> error.value == ReadRow(b, raw).error
    ensures error.None? ==> (raw.id.Some? <==> ReadRow(b, raw).value.Some?)
  {
    if raw.binding.storeId != b.storeId || raw.binding.epoch != b.epoch {
      return Some(ErrBinding);
    }
    if raw.binding.schema != SCHEMA_VERSION {
      return Some(ErrSchema);
    }
    if !raw.clock.Value? {
      return Some(ErrMetadata);
    }
    if raw.id.None? {
      return None;
    }
    if !raw.state.Value? || !raw.started.Value? || !raw.lease.Value? {
      return Some(ErrMetadata);
    }
    if raw.key.Some? {
      var c := raw.branch;
      if !c.state.Value? || !c.half.Value? || !c.final.Value? || c.halfAt.Malformed? || c.finalAt.Malformed? {
        return Some(ErrMetadata);
      }
    }
    return None;
  }

  // ---- The rows of a reachable store ---------------------------------------------------------

  function ViewOf(w: Witness): BranchView {
    BranchView(w.state, w.audit.half, w.audit.final, w.audit.halfAt, w.audit.finalAt)
  }

  /** A row of the join over db: a branch of an execution, or an execution that has none. */
  predicate Joined(db: Db, r: Row) {
    && r.id in db.executions && r.id in db.witnesses
    && r.state == db.executions[r.id].state && r.started == db.executions[r.id].started
    && (if r.branch.None? then db.witnesses[r.id] == map[]
        else r.key in db.witnesses[r.id] && r.branch.value == ViewOf(db.witnesses[r.id][r.key]))
  }

  lemma JoinedOk(db: Db, r: Row)
    requires TablesOk(db) && Joined(db, r)
    ensures !Conflict(r) && !Unaged(r)
  {
    hide Frozen, RowOk;
    HasWitnesses(db, r.id);
    assert WitnessesOk(r.id, db.executions[r.id], db.witnesses[r.id]);
    if r.branch.Some? { SoundWitness(r, db.witnesses[r.id][r.key]); }
  }

  lemma HasWitnesses(db: Db, id: ExecutionId)
    requires TablesOk(db) && id in db.executions
    ensures db.witnesses[id] != map[]
  {
    hide ValidBranch;
    assert RowOk(id, db.executions[id]) && WitnessesOk(id, db.executions[id], db.witnesses[id]);
    assert db.executions[id].plan.branches[0].id in db.witnesses[id];
  }

  lemma SoundWitness(r: Row, w: Witness)
    requires WitnessOk(r.state, w) && r.branch == Some(ViewOf(w))
    ensures !Conflict(r) && !Unaged(r)
  {
  }

  /** No run produces contradictory metadata or a confirmation gap without an age. */
  lemma NoMetadataConflicts(ops: seq<Op>, rows: seq<Row>)
    requires forall i :: 0 <= i < |rows| ==> Joined(After(ops), rows[i])
    ensures Count(rows, Conflict) == 0 && Count(rows, Unaged) == 0
  {
    hide Run, RequestsOk, HostsOk, TablesOk, Conflict, Unaged, Joined;
    AfterInv(ops);
    forall i | 0 <= i < |rows| ensures !Conflict(rows[i]) && !Unaged(rows[i]) {
      JoinedOk(After(ops), rows[i]);
    }
    CountZero(rows, Conflict);
    CountZero(rows, Unaged);
  }

  /** Hosts that commit only from inside Execute never leave an unobserved branch. */
  lemma NoUnobservedCommits(evs: seq<Event>, rows: seq<Row>)
    requires DisciplinedRun(InitSys(), evs)
    requires forall i :: 0 <= i < |rows| ==> Joined(Reached(evs).db, rows[i])
    ensures Count(rows, Unobserved) == 0
  {
    hide RunSys, DisciplinedRun;
    forall i | 0 <= i < |rows| ensures !Unobserved(rows[i]) {
      if rows[i].branch.Some? && rows[i].state == Committed {
        CommittedHalvesObserved(evs, rows[i].id, rows[i].key);
      }
    }
    CountZero(rows, Unobserved);
  }
}
