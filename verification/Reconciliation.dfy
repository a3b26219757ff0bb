/** One reconciliation pass: the expiry query, then one abort per row it returned, each
    a transaction of its own with any transactions of others in between. */
module Reconciliation {
  import opened Protocol
  import opened TransactionTables
  import opened TransactionInvariants
  import opened TransactionSafety

  /** What others run before an abort, and the instant of the abort. */
  datatype Turn = Turn(others: seq<Op>, now: int)

  datatype Pass = Pass(db: Db, aborted: nat, error: Option<Error>)

  /** The first error ends the pass; rows that somebody else ended are not counted. */
  function Sweep(db: Db, b: Binding, es: seq<Execution>, turns: seq<Turn>): Pass
    requires |turns| == |es|
    decreases |es|
  {
    if es == [] then Pass(db, 0, None)
    else
      var s := Abort(Run(db, turns[0].others), b, es[0], true, turns[0].now);
      if s.result.Err? then Pass(s.db, 0, Some(s.result.error))
      else
        var rest := Sweep(s.db, b, es[1..], turns[1..]);
        rest.(aborted := rest.aborted + if s.result.value then 1 else 0)
  }

  predicate ExpiredAt(db: Db, owner: string, id: ExecutionId, now: int) {
    id in db.executions && id.owner == owner && db.executions[id].state == Prepared && db.executions[id].leaseUntil <= now
  }

  /** ORDER BY lease_until LIMIT n over the owner's expired prepared executions. */
  ghost predicate ExpiryQuery(db: Db, owner: string, now: int, limit: nat, es: seq<Execution>) {
    && |es| <= limit
    && (forall i :: 0 <= i < |es| ==> ExpiredAt(db, owner, IdOf(es[i]), now) && es[i] == ExecutionFrom(IdOf(es[i]), db.executions[IdOf(es[i])]))
    && (forall i, j :: 0 <= i < j < |es| ==> IdOf(es[i]) != IdOf(es[j]) && es[i].leaseUntil <= es[j].leaseUntil)
    && (forall id :: ExpiredAt(db, owner, id, now) && (forall i :: 0 <= i < |es| ==> IdOf(es[i]) != id) ==>
          |es| == limit && forall i :: 0 <= i < |es| ==> es[i].leaseUntil <= db.executions[id].leaseUntil)
  }

  /** e is a stored execution whose lease is over at the instant. */
  predicate Overdue(db: Db, e: Execution, now: int) {
    && IdOf(e) in db.executions && e.leaseUntil <= now
    && e == ExecutionFrom(IdOf(e), db.executions[IdOf(e)])
  }

  lemma OverdueLater(a: Db, b: Db, e: Execution, now: int)
    requires Evolves(a, b) && Overdue(a, e, now)
    ensures Overdue(b, e, now)
  {
    assert RowGrows(a.executions[IdOf(e)], b.executions[IdOf(e)]);
  }

  lemma {:induction false} SweepEvolves(db: Db, b: Binding, es: seq<Execution>, turns: seq<Turn>)
    requires Inv(db) && |turns| == |es|
    ensures Inv(Sweep(db, b, es, turns).db) && Evolves(db, Sweep(db, b, es, turns).db)
    decreases |es|
  {
    hide Inv, Evolves, Run, Abort;
    EvolvesRefl(db);
    if es != [] {
      var mid := Run(db, turns[0].others);
      RunKeeps(db, turns[0].others);
      AbortOpKeeps(mid, b, es[0], true, turns[0].now);
      var s := Abort(mid, b, es[0], true, turns[0].now);
      EvolvesTrans(db, mid, s.db);
      if s.result.Ok? {
        SweepEvolves(s.db, b, es[1..], turns[1..]);
        EvolvesTrans(db, s.db, Sweep(db, b, es, turns).db);
      }
    }
  }

  /** An abort that reports no error leaves an overdue execution terminal. */
  lemma AbortEnds(db: Db, b: Binding, e: Execution, now: int)
    requires Overdue(db, e, now) && Abort(db, b, e, true, now).result.Ok?
    ensures var s := Abort(db, b, e, true, now); IdOf(e) in s.db.executions && s.db.executions[IdOf(e)].state != Prepared
  {
    hide Frozen, Locked, BindingIn;
  }

  lemma {:induction false} SweepEnds(db: Db, b: Binding, es: seq<Execution>, turns: seq<Turn>, i: nat)
    requires Inv(db) && |turns| == |es| && i < |es| && Sweep(db, b, es, turns).error.None?
    requires forall j :: 0 <= j < |es| ==> Overdue(db, es[j], turns[j].now)
    ensures var t := Sweep(db, b, es, turns).db; IdOf(es[i]) in t.executions && t.executions[IdOf(es[i])].state != Prepared
    decreases |es|
  {
    hide Inv, Evolves, Run, Abort, Overdue;
    var mid := Run(db, turns[0].others);
    RunKeeps(db, turns[0].others);
    var s := Abort(mid, b, es[0], true, turns[0].now);
    AbortOpKeeps(mid, b, es[0], true, turns[0].now);
    OverdueLater(db, mid, es[0], turns[0].now);
    SweepEvolves(s.db, b, es[1..], turns[1..]);
    var t := Sweep(s.db, b, es[1..], turns[1..]).db;
    if i == 0 {
      AbortEnds(mid, b, es[0], turns[0].now);
      TerminalStays(s.db, t, IdOf(es[0]));
    } else {
      EvolvesTrans(db, mid, s.db);
      forall j | 0 <= j < |es| - 1 ensures Overdue(s.db, es[1..][j], turns[1..][j].now) {
        OverdueLater(db, s.db, es[j + 1], turns[j + 1].now);
      }
      SweepEnds(s.db, b, es[1..], turns[1..], i - 1);
    }
  }

  lemma TerminalStays(a: Db, b: Db, id: ExecutionId)
    requires Evolves(a, b) && id in a.executions && a.executions[id].state != Prepared
    ensures id in b.executions && b.executions[id].state == a.executions[id].state
  {
    assert RowGrows(a.executions[id], b.executions[id]);
  }

  /** From every reachable store, whatever others run between the query and each abort:
      a pass without an error leaves every execution the query returned terminal. */
  lemma PassEndsExpired(ops: seq<Op>, b: Binding, now: int, limit: nat, es: seq<Execution>, turns: seq<Turn>, i: nat)
    requires ExpiryQuery(After(ops), b.owner, now, limit, es) && |turns| == |es| && i < |es|
    requires forall j :: 0 <= j < |turns| ==> now <= turns[j].now
    requires Sweep(After(ops), b, es, turns).error.None?
    ensures var t := Sweep(After(ops), b, es, turns).db; IdOf(es[i]) in t.executions && t.executions[IdOf(es[i])].state != Prepared
  {
    hide Run, Sweep, Inv;
    AfterInv(ops);
    forall j | 0 <= j < |es| ensures Overdue(After(ops), es[j], turns[j].now) {
      assert ExpiredAt(After(ops), b.owner, IdOf(es[j]), now);
    }
    SweepEnds(After(ops), b, es, turns, i);
  }

  function AbortedAmong(db: Db, es: seq<Execution>): nat {
    if es == [] then 0
    else AbortedAmong(db, es[1..]) + if IdOf(es[0]) in db.executions && db.executions[IdOf(es[0])].state == Aborted then 1 else 0
  }

  lemma {:induction false} CountsOnlyAborted(db: Db, b: Binding, es: seq<Execution>, turns: seq<Turn>)
    requires Inv(db) && |turns| == |es|
    ensures Sweep(db, b, es, turns).aborted <= AbortedAmong(Sweep(db, b, es, turns).db, es)
    decreases |es|
  {
    hide Inv, Evolves, Run, Abort;
    if es != [] {
      var mid := Run(db, turns[0].others);
      RunKeeps(db, turns[0].others);
      AbortOpKeeps(mid, b, es[0], true, turns[0].now);
      var s := Abort(mid, b, es[0], true, turns[0].now);
      if s.result.Ok? {
        CountsOnlyAborted(s.db, b, es[1..], turns[1..]);
        SweepEvolves(s.db, b, es[1..], turns[1..]);
        if s.result.value {
          AbortAborts(mid, b, es[0], turns[0].now);
          TerminalStays(s.db, Sweep(s.db, b, es[1..], turns[1..]).db, IdOf(es[0]));
        }
      }
    }
  }

  /** Whatever others do meanwhile, the pass never claims more aborts than there are: what
      it counts is aborted for good. */
  lemma PassCountsAborted(ops: seq<Op>, b: Binding, es: seq<Execution>, turns: seq<Turn>)
    requires |turns| == |es|
    ensures var p := Sweep(After(ops), b, es, turns); p.aborted <= AbortedAmong(p.db, es)
  {
    hide Run, Sweep, Inv;
    AfterInv(ops);
    CountsOnlyAborted(After(ops), b, es, turns);
  }

  lemma AbortAborts(db: Db, b: Binding, e: Execution, now: int)
    requires Abort(db, b, e, true, now).result == Ok(true)
    ensures var t := Abort(db, b, e, true, now).db; IdOf(e) in t.executions && t.executions[IdOf(e)].state == Aborted
  {
    hide Frozen, Locked, BindingIn;
  }

  // ---- Undisturbed ------------------------------------------------------------------------

  function Ids(es: seq<Execution>): set<ExecutionId> { set e | e in es :: IdOf(e) }

  predicate Abortable(db: Db, b: Binding, e: Execution, now: int) {
    Overdue(db, e, now) && db.executions[IdOf(e)].state == Prepared && !Locked(db, IdOf(e)) && IdOf(e).owner == b.owner
  }

  /** Undisturbed and with no row locked, the pass aborts exactly the executions the
      query returned, each with its witnesses, and counts them. */
  lemma {:induction false} QuietSweep(db: Db, b: Binding, es: seq<Execution>, turns: seq<Turn>)
    requires Inv(db) && |turns| == |es| && BindingIn(db, b, false).Ok?
    requires forall i :: 0 <= i < |es| ==> turns[i].others == [] && Abortable(db, b, es[i], turns[i].now)
    requires forall i, j :: 0 <= i < j < |es| ==> IdOf(es[i]) != IdOf(es[j])
    ensures Sweep(db, b, es, turns) == Pass(Terminate(db, Ids(es), Aborted), |es|, None)
    decreases |es|
  {
    hide Inv, Terminate, Abortable, Abort, BindingIn, IdOf;
    if es == [] {
      assert Ids(es) == {};
      TerminateNone(db);
    } else {
      var s := Abort(db, b, es[0], true, turns[0].now);
      assert Abortable(db, b, es[0], turns[0].now);
      AbortsOne(db, b, es[0], turns[0].now);
      AbortOpKeeps(db, b, es[0], true, turns[0].now);
      assert Run(db, turns[0].others) == db;
      forall i | 0 <= i < |es| - 1 ensures turns[1..][i].others == [] && Abortable(s.db, b, es[1..][i], turns[1..][i].now) {
        assert es[1..][i] == es[i + 1] && turns[1..][i] == turns[i + 1];
        StillAbortable(db, b, es[0], es[i + 1], turns[i + 1].now);
      }
      QuietSweep(s.db, b, es[1..], turns[1..]);
      assert es == [es[0]] + es[1..];
      assert Ids(es) == {IdOf(es[0])} + Ids(es[1..]);
      TerminateMore(db, {IdOf(es[0])}, Ids(es[1..]));
    }
  }

  lemma TerminateNone(db: Db)
    ensures Terminate(db, {}, Aborted) == db
  {
  }

  lemma TerminateMore(db: Db, x: set<ExecutionId>, y: set<ExecutionId>)
    ensures Terminate(Terminate(db, x, Aborted), y, Aborted) == Terminate(db, x + y, Aborted)
  {
    var a, b := Terminate(Terminate(db, x, Aborted), y, Aborted), Terminate(db, x + y, Aborted);
    forall i | i in db.witnesses ensures a.witnesses[i] == b.witnesses[i] {
      assert SetAll(SetAll(db.witnesses[i], Aborted), Aborted) == SetAll(db.witnesses[i], Aborted);
    }
    assert a.executions == b.executions && a.witnesses == b.witnesses;
  }

  lemma AbortsOne(db: Db, b: Binding, e: Execution, now: int)
    requires Inv(db) && Abortable(db, b, e, now) && BindingIn(db, b, false).Ok?
    ensures Abort(db, b, e, true, now) == Step(Terminate(db, {IdOf(e)}, Aborted), Ok(true))
    ensures BindingIn(Abort(db, b, e, true, now).db, b, false).Ok?
  {
    hide RequestsOk, HostsOk, WitnessesOk, Frozen;
    assert RowOk(IdOf(e), db.executions[IdOf(e)]);
  }

  lemma StillAbortable(db: Db, b: Binding, done: Execution, e: Execution, now: int)
    requires Abortable(db, b, e, now) && IdOf(done) != IdOf(e)
    ensures Abortable(Terminate(db, {IdOf(done)}, Aborted), b, e, now)
  {
  }
}
