/** Overlapping deliveries of one physical message: exactly when its remembered
    cause can end up at odds with its latest answer. */
module SettlementOverlap {
  import opened Settlement

  /** The handler is still running and nobody has settled. */
  predicate Undecided(r: Raw) { r.phase == Open && r.caller.InHandler? }

  /** Every delivery of the key in progress is still undecided. */
  ghost predicate Fresh(s: Sys, key: string) { forall d :: Busy(s, key, d) ==> Undecided(s.raws[d]) }

  predicate NoArrivals(evs: seq<Event>, key: string) {
    forall i :: 0 <= i < |evs| ==> !(evs[i].Deliver? && evs[i].key == key)
  }

  /** However the deliveries in progress go on, the key is exact once it is idle. */
  ghost predicate StaysExact(s: Sys, key: string) {
    forall evs :: NoArrivals(evs, key) && Idle(Run(s, evs), key) ==> Exact(Run(s, evs), key)
  }

  // ---- A single delivery ------------------------------------------------------------------

  lemma {:induction false} ApartWithoutArrivals(s: Sys, evs: seq<Event>, key: string)
    requires NoArrivals(evs, key)
    ensures ApartRun(s, evs, key)
    decreases |evs|
  {
    hide Next;
    if evs != [] {
      assert !(evs[0].Deliver? && evs[0].key == key);
      ApartWithoutArrivals(Next(s, evs[0]), evs[1..], key);
    }
  }

  lemma SingleStaysExact(s: Sys, key: string)
    requires Inv(s) && Fresh(s, key) && Exact(s, key) && Single(s, key)
    ensures StaysExact(s, key)
  {
    forall evs | NoArrivals(evs, key) && Idle(Run(s, evs), key) ensures Exact(Run(s, evs), key) {
      hide Run;
      ApartWithoutArrivals(s, evs, key);
      CauseRun(s, evs, key);
    }
  }

  // ---- Two deliveries ---------------------------------------------------------------------

  lemma Two(s: Sys, a: Event, b: Event)
    ensures Run(s, [a, b]) == Next(Next(s, a), b)
  {
    hide Next;
    assert [a, b][1..] == [b] && [b][1..] == [];
    assert Run(Next(s, a), [b]) == Run(Next(Next(s, a), b), []);
  }

  /** c and d, of one key, and nothing else has moved since s. */
  predicate Pair(s: Sys, t: Sys, c: nat, d: nat, key: string) {
    && c != d && c in s.raws && d in s.raws && t.raws.Keys == s.raws.Keys
    && t.raws[c].key == t.raws[d].key == key && t.max == s.max
    && (forall x :: x in s.raws && x != c && x != d ==> t.raws[x] == s.raws[x])
  }

  lemma Begin(s: Sys, c: nat, d: nat, key: string)
    requires Pair(s, s, c, d, key) && Undecided(s.raws[c]) && Undecided(s.raws[d])
    ensures var t := Run(s, [Call(c, false), Call(d, true)]);
      && Pair(s, t, c, d, key) && t.raws[c].phase == NackStarted && t.raws[d].phase == AckStarted
      && t.raws[c].caller.InHandler? && t.raws[d].caller.InHandler?
  {
    Two(s, Call(c, false), Call(d, true));
  }

  lemma ForgetRemember(s: Sys, t: Sys, c: nat, d: nat, key: string)
    requires Pair(s, t, c, d, key) && t.raws[c].phase == NackStarted && t.raws[d].phase == AckStarted
    ensures var u := Run(t, [Work(d, false), Work(c, false)]);
      && Pair(s, u, c, d, key) && u.raws[c].phase == Remembered && u.raws[d].phase == AckForgot && key in u.causes
      && u.raws[c].caller == t.raws[c].caller && u.raws[d].caller == t.raws[d].caller
  {
    Two(t, Work(d, false), Work(c, false));
  }

  /** With attempts left the first step requeues; otherwise the handoff fails first. */
  lemma Requeue(s: Sys, t: Sys, c: nat, d: nat, key: string)
    requires Pair(s, t, c, d, key) && t.raws[c].phase == Remembered && t.raws[d].phase == AckForgot && key in t.causes
    ensures var u := Run(t, [Work(c, false), Work(c, false)]);
      && Pair(s, u, c, d, key) && (u.raws[c].phase == Answered || u.raws[c].phase == Closed)
      && u.raws[d].phase == AckForgot && key in u.causes
      && u.raws[c].caller == t.raws[c].caller && u.raws[d].caller == t.raws[d].caller
  {
    hide Next;
    Two(t, Work(c, false), Work(c, false));
    Nacking(t, c);
    Nacking(Next(t, Work(c, false)), c);
  }

  /** One step of a nack past its remembered cause, whose handoff fails. */
  lemma Nacking(s: Sys, c: nat)
    requires c in s.raws && (s.raws[c].phase == Remembered || s.raws[c].phase == HandoffFailed || s.raws[c].phase == Answered)
    ensures var t := Next(s, Work(c, false));
      && c in t.raws && t.raws == s.raws[c := t.raws[c]] && t.causes == s.causes && t.max == s.max
      && t.raws[c].key == s.raws[c].key && t.raws[c].caller == s.raws[c].caller
      && (if s.raws[c].phase == Remembered then t.raws[c].phase == HandoffFailed || t.raws[c].phase == Answered
          else t.raws[c].phase == Answered || t.raws[c].phase == Closed)
  {
  }

  lemma Finish(s: Sys, t: Sys, c: nat, d: nat, key: string)
    requires Pair(s, t, c, d, key) && (t.raws[c].phase == Answered || t.raws[c].phase == Closed)
    requires t.raws[d].phase == AckForgot && key in t.causes
    ensures var u := Run(t, [Work(d, false), Work(c, false)]);
      && Pair(s, u, c, d, key) && u.raws[c].phase == Closed && u.raws[d].phase == Answered && key in u.causes && !LastRequeued(u, key)
      && u.raws[c].caller == t.raws[c].caller && u.raws[d].caller == t.raws[d].caller
  {
    Two(t, Work(d, false), Work(c, false));
  }

  predicate Leaked(s: Sys, key: string) { key in s.causes && !LastRequeued(s, key) }

  lemma Close(s: Sys, t: Sys, c: nat, d: nat, key: string)
    requires Pair(s, t, c, d, key) && t.raws[c].phase == Closed && t.raws[d].phase == Answered && Leaked(t, key)
    requires t.raws[c].caller.InHandler? && t.raws[d].caller.InHandler?
    ensures var u := Run(t, [Work(d, false), HandlerReturns(c, false)]);
      && Pair(s, u, c, d, key) && u.raws[c].phase == Closed && u.raws[d].phase == Closed && Leaked(u, key)
      && u.raws[c].caller.Waiting? && u.raws[d].caller.InHandler?
  {
    Two(t, Work(d, false), HandlerReturns(c, false));
  }

  lemma Leave(s: Sys, t: Sys, c: nat, d: nat, key: string)
    requires Pair(s, t, c, d, key) && t.raws[c].phase == Closed && t.raws[d].phase == Closed && Leaked(t, key)
    requires t.raws[c].caller.Waiting? && t.raws[d].caller.InHandler?
    ensures var u := Run(t, [HandlerReturns(d, false), Return(c)] + [Return(d)]);
      Pair(s, u, c, d, key) && u.raws[c].caller.Returned? && u.raws[d].caller.Returned? && Leaked(u, key)
  {
    Two(t, HandlerReturns(d, false), Return(c));
    RunConcat(t, [HandlerReturns(d, false), Return(c)], [Return(d)]);
    var v := Next(Next(t, HandlerReturns(d, false)), Return(c));
    assert [Return(d)][1..] == [];
    assert Run(v, [Return(d)]) == Run(Next(v, Return(d)), []);
  }

  /** The nack remembers its cause after the acknowledgement forgot it and answers
      before the acknowledgement does. */
  function Crossing(c: nat, d: nat): seq<Event> {
    [Call(c, false), Call(d, true)] + ([Work(d, false), Work(c, false)] + ([Work(c, false), Work(c, false)] +
      ([Work(d, false), Work(c, false)] + ([Work(d, false), HandlerReturns(c, false)] +
       ([HandlerReturns(d, false), Return(c)] + [Return(d)])))))
  }

  /** Whatever the state, the attempts and the limit: two undecided deliveries of one
      key can leave it finished with its cause still remembered. */
  lemma CrossingLeaks(s: Sys, c: nat, d: nat, key: string)
    requires Pair(s, s, c, d, key) && Undecided(s.raws[c]) && Undecided(s.raws[d])
    ensures var t := Run(s, Crossing(c, d));
      Pair(s, t, c, d, key) && t.raws[c].caller.Returned? && t.raws[d].caller.Returned? && Leaked(t, key)
    ensures NoArrivals(Crossing(c, d), key)
  {
    hide Run, Next, Pair, Leaked;
    var e1, e2, e3 := [Call(c, false), Call(d, true)], [Work(d, false), Work(c, false)], [Work(c, false), Work(c, false)];
    var e4, e5 := [Work(d, false), HandlerReturns(c, false)], [HandlerReturns(d, false), Return(c)] + [Return(d)];
    Begin(s, c, d, key);
    var s1 := Run(s, e1);
    ForgetRemember(s, s1, c, d, key);
    var s2 := Run(s1, e2);
    Requeue(s, s2, c, d, key);
    var s3 := Run(s2, e3);
    Finish(s, s3, c, d, key);
    var s4 := Run(s3, e2);
    assert Leaked(s4, key) by { LeakedNow(s4, key); }
    Close(s, s4, c, d, key);
    var s5 := Run(s4, e4);
    Leave(s, s5, c, d, key);
    RunConcat(s, e1, e2 + (e3 + (e2 + (e4 + e5))));
    RunConcat(s1, e2, e3 + (e2 + (e4 + e5)));
    RunConcat(s2, e3, e2 + (e4 + e5));
    RunConcat(s3, e2, e4 + e5);
    RunConcat(s4, e4, e5);
  }

  lemma LeakedNow(s: Sys, key: string)
    requires key in s.causes && !LastRequeued(s, key)
    ensures Leaked(s, key)
  {
  }

  // ---- Any number of deliveries -----------------------------------------------------------

  function InProgress(s: Sys, key: string): set<nat> { set d | d in s.raws && Busy(s, key, d) }

  function Acknowledge(e: nat): seq<Event> {
    [Call(e, true), Work(e, false)] + ([Work(e, false), Work(e, false)] + [HandlerReturns(e, false), Return(e)])
  }

  /** An undecided delivery can be acknowledged and returned without the others moving. */
  lemma Acknowledged(s: Sys, e: nat)
    requires e in s.raws && Undecided(s.raws[e])
    ensures var t := Run(s, Acknowledge(e));
      e in t.raws && t.raws == s.raws[e := t.raws[e]] && t.raws[e].caller.Returned? && t.raws[e].key == s.raws[e].key
  {
    var a, b, c := [Call(e, true), Work(e, false)], [Work(e, false), Work(e, false)], [HandlerReturns(e, false), Return(e)];
    var r := s.raws[e];
    Two(s, a[0], a[1]);
    var s1 := Run(s, a);
    assert s1.raws == s.raws[e := r.(phase := AckForgot, acked := true)];
    Two(s1, b[0], b[1]);
    var s2 := Run(s1, b);
    assert s2.raws == s.raws[e := s2.raws[e]] && s2.raws[e].phase == Closed && s2.raws[e].caller.InHandler? && s2.raws[e].key == r.key;
    Two(s2, c[0], c[1]);
    hide Next;
    RunConcat(s, a, b + c);
    RunConcat(s1, b, c);
  }

  /** Two or more undecided deliveries of a key can always leave it at odds. */
  lemma {:induction false} OverlapLeaks(s: Sys, key: string, c: nat, d: nat) returns (evs: seq<Event>)
    requires Fresh(s, key) && c != d && Busy(s, key, c) && Busy(s, key, d)
    ensures NoArrivals(evs, key) && Idle(Run(s, evs), key) && Leaked(Run(s, evs), key)
    decreases |InProgress(s, key)|
  {
    hide Run, Next;
    if e :| Busy(s, key, e) && e != c && e != d {
      Acknowledged(s, e);
      var t := Run(s, Acknowledge(e));
      assert forall x :: Busy(t, key, x) <==> Busy(s, key, x) && x != e;
      assert InProgress(t, key) == InProgress(s, key) - {e} && e in InProgress(s, key);
      var rest := OverlapLeaks(t, key, c, d);
      evs := Acknowledge(e) + rest;
      RunConcat(s, Acknowledge(e), rest);
    } else {
      CrossingLeaks(s, c, d, key);
      evs := Crossing(c, d);
      var t := Run(s, evs);
      assert forall x :: Busy(t, key, x) ==> x in s.raws && (x != c && x != d ==> Busy(s, key, x));
    }
  }

  /** The exact condition. Where all deliveries of a key in progress are undecided and
      its cause agrees with its latest answer, the two agree again however things go
      on exactly if at most one delivery of the key is in progress. */
  lemma StaysExactIff(s: Sys, key: string)
    requires Inv(s) && Fresh(s, key) && Exact(s, key)
    ensures StaysExact(s, key) <==> Single(s, key)
  {
    hide Run, Next, Inv, Exact;
    if Single(s, key) {
      SingleStaysExact(s, key);
    } else {
      var c, d :| Busy(s, key, c) && Busy(s, key, d) && c != d;
      var evs := OverlapLeaks(s, key, c, d);
      assert !Exact(Run(s, evs), key) by { LeakedIsInexact(Run(s, evs), key); }
    }
  }

  lemma LeakedIsInexact(s: Sys, key: string)
    requires Leaked(s, key)
    ensures !Exact(s, key)
  {
  }

  /** Such overlaps occur: two deliveries of one key arriving at an empty subscription. */
  lemma OverlapReachable(max: nat, key: string)
    requires max >= 1
    ensures var s := Run(Init(max), [Deliver(0, key, 1, true), Deliver(1, key, 1, true)]);
      Fresh(s, key) && Exact(s, key) && !Single(s, key) && !StaysExact(s, key)
  {
    var s := Run(Init(max), [Deliver(0, key, 1, true), Deliver(1, key, 1, true)]);
    Two(Init(max), Deliver(0, key, 1, true), Deliver(1, key, 1, true));
    assert Busy(s, key, 0) && Busy(s, key, 1);
    RunKeeps(Init(max), [Deliver(0, key, 1, true), Deliver(1, key, 1, true)]);
    StaysExactIff(s, key);
  }
}
