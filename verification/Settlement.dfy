/** Settlement of NSQ business deliveries. The handler and any goroutines it
    started may call Ack and Nack as often as they like, in any order; the first
    call performs the settlement, the rest wait for it. Failed deliveries leave a
    cause behind that a later, exhausted redelivery reports. */
module Settlement {

  datatype Option<+T> = None | Some(value: T)

  /** Progress of the one settlement of a delivery. Open: nobody has called yet.
      Answered: Finish or Requeue has been sent; Closed: waiters may go on. */
  datatype Phase =
    | Open | AckStarted | AckForgot | NackStarted | Remembered | HandedOff | HandoffForgot | HandoffFailed
    | Answered | Closed

  /** The delivering call: in the handler; about to settle by itself because it saw
      no settlement; waiting for the settlement to close; back in the driver, while
      goroutines of the handler may still hold the delivery. */
  datatype Caller = InHandler | Deciding(ack: bool) | Waiting | Returned

  /** acked: the ack closure ran; tried and confirmed: the failure handoff was attempted
      and its publish confirmed. */
  datatype Raw = Raw(
    key: string, attempts: nat, decodable: bool, phase: Phase, caller: Caller,
    finishes: nat, requeues: nat, acked: bool, tried: bool, confirmed: bool)

  /** last: for each key whether its latest answer here was a requeue. */
  datatype Sys = Sys(max: nat, raws: map<nat, Raw>, causes: set<string>, last: map<string, bool>)

  datatype Event =
    | Deliver(d: nat, key: string, attempts: nat, decodable: bool)
    | Call(d: nat, ack: bool)
    | HandlerReturns(d: nat, failed: bool)
    | CallerSettles(d: nat)
    | Work(d: nat, handoffConfirmed: bool)
    | Return(d: nat)

  function Put(s: Sys, d: nat, r: Raw): Sys { s.(raws := s.raws[d := r]) }

  /** settle: the first caller decides how. */
  function Settle(r: Raw, ack: bool): Raw {
    if r.phase == Open then r.(phase := if ack then AckStarted else NackStarted) else r
  }

  function Answer(s: Sys, d: nat, requeue: bool): Sys
    requires d in s.raws
  {
    var r := s.raws[d];
    var r' := r.(phase := Answered, finishes := if requeue then r.finishes else r.finishes + 1,
                 requeues := if requeue then r.requeues + 1 else r.requeues);
    s.(raws := s.raws[d := r'], last := s.last[r.key := requeue])
  }

  /** One step of the ack closure or of fail. */
  function Worked(s: Sys, d: nat, handoffConfirmed: bool): Sys
    requires d in s.raws
  {
    var r := s.raws[d];
    match r.phase
    case AckStarted => Put(s, d, r.(phase := AckForgot, acked := true)).(causes := s.causes - {r.key})
    case AckForgot => Answer(s, d, false)
    case NackStarted => Put(s, d, r.(phase := Remembered)).(causes := s.causes + {r.key})
    case Remembered =>
      if r.attempts < s.max then Answer(s, d, true)
      else if handoffConfirmed then Put(s, d, r.(phase := HandedOff, tried := true, confirmed := true))
      else Put(s, d, r.(phase := HandoffFailed, tried := true))
    case HandedOff => Put(s, d, r.(phase := HandoffForgot)).(causes := s.causes - {r.key})
    case HandoffForgot => Answer(s, d, false)
    case HandoffFailed => Answer(s, d, true)
    case Answered => Put(s, d, r.(phase := Closed))
    case Open => s
    case Closed => s
  }

  function Next(s: Sys, ev: Event): Sys {
    match ev
    case Deliver(d, key, attempts, decodable) =>
      if d in s.raws then s
      else if !decodable || attempts > s.max then Put(s, d, Raw(key, attempts, decodable, NackStarted, Waiting, 0, 0, false, false, false))
      else Put(s, d, Raw(key, attempts, decodable, Open, InHandler, 0, 0, false, false, false))
    case Call(d, ack) => if d in s.raws then Put(s, d, Settle(s.raws[d], ack)) else s
    case HandlerReturns(d, failed) =>
      if d in s.raws && s.raws[d].caller.InHandler?
      then Put(s, d, s.raws[d].(caller := if s.raws[d].phase == Open then Deciding(!failed) else Waiting)) else s
    case CallerSettles(d) =>
      if d in s.raws && s.raws[d].caller.Deciding?
      then Put(s, d, Settle(s.raws[d], s.raws[d].caller.ack).(caller := Waiting)) else s
    case Work(d, confirmed) => if d in s.raws then Worked(s, d, confirmed) else s
    case Return(d) =>
      if d in s.raws && s.raws[d].caller.Waiting? && s.raws[d].phase == Closed then Put(s, d, s.raws[d].(caller := Returned)) else s
  }

  function Run(s: Sys, evs: seq<Event>): Sys
    decreases |evs|
  {
    if evs == [] then s else Run(Next(s, evs[0]), evs[1..])
  }

  function Init(max: nat): Sys { Sys(max, map[], {}, map[]) }

  // ---- Exactly one answer ---------------------------------------------------------------

  predicate RawOk(r: Raw) {
    && r.finishes + r.requeues == (if r.phase == Answered || r.phase == Closed then 1 else 0)
    && (r.phase == AckForgot ==> r.acked) && (r.phase == HandedOff || r.phase == HandoffForgot ==> r.confirmed)
    && (r.finishes > 0 ==> r.acked || r.confirmed)
    && (r.caller.Waiting? ==> r.phase != Open) && (r.caller.Returned? ==> r.phase == Closed)
  }

  predicate Inv(s: Sys) {
    forall d :: d in s.raws ==> RawOk(s.raws[d])
  }

  lemma NextKeeps(s: Sys, ev: Event)
    requires Inv(s)
    ensures Inv(Next(s, ev))
  {
    hide Next, RawOk;
    forall k | k in Next(s, ev).raws ensures RawOk(Next(s, ev).raws[k]) {
      if k in s.raws { assert RawOk(s.raws[k]); }
      RawStep(s, ev, k);
    }
  }

  lemma RawStep(s: Sys, ev: Event, k: nat)
    requires k in Next(s, ev).raws && (k in s.raws ==> RawOk(s.raws[k]))
    ensures RawOk(Next(s, ev).raws[k])
  {
    if k != ev.d {
      hide RawOk, Settle;
      OtherRaw(s, ev, k);
    } else if ev.Work? {
      WorkStep(s, k, ev.handoffConfirmed);
    } else {
      hide Worked;
    }
  }

  lemma WorkStep(s: Sys, d: nat, handoffConfirmed: bool)
    requires d in s.raws && RawOk(s.raws[d])
    ensures d in Worked(s, d, handoffConfirmed).raws && RawOk(Worked(s, d, handoffConfirmed).raws[d])
  {
    if s.raws[d].phase != Answered && s.raws[d].phase != Closed {
      AnswerOk(s, d, true);
      if s.raws[d].acked || s.raws[d].confirmed { AnswerOk(s, d, false); }
    }
    hide Answer;
  }

  lemma AnswerOk(s: Sys, d: nat, requeue: bool)
    requires d in s.raws && RawOk(s.raws[d]) && s.raws[d].phase != Answered && s.raws[d].phase != Closed
    requires requeue || s.raws[d].acked || s.raws[d].confirmed
    ensures d in Answer(s, d, requeue).raws && (s.raws[d].phase != Open ==> RawOk(Answer(s, d, requeue).raws[d]))
  {
  }

  /** Only the named delivery moves. */
  lemma OtherRaw(s: Sys, ev: Event, k: nat)
    requires k != ev.d
    ensures k in Next(s, ev).raws <==> k in s.raws
    ensures k in s.raws ==> Next(s, ev).raws[k] == s.raws[k]
  {
    hide Settle;
  }

  lemma {:induction false} RunKeeps(s: Sys, evs: seq<Event>)
    requires Inv(s)
    ensures Inv(Run(s, evs))
    decreases |evs|
  {
    hide Inv, Next;
    if evs != [] {
      NextKeeps(s, evs[0]);
      RunKeeps(Next(s, evs[0]), evs[1..]);
    }
  }

  lemma {:induction false} RunConcat(s: Sys, evs: seq<Event>, more: seq<Event>)
    ensures Run(s, evs + more) == Run(Run(s, evs), more)
    decreases |evs|
  {
    hide Next;
    if evs == [] {
      assert evs + more == more;
    } else {
      assert (evs + more)[1..] == evs[1..] + more;
      RunConcat(Next(s, evs[0]), evs[1..], more);
    }
  }

  predicate Answers(r: Raw, n: nat) { r.finishes + r.requeues == n }

  /** Answers are never taken back, a second one never follows the first, and a
      delivery whose call has returned does not change at all. */
  predicate RawGrows(a: Raw, b: Raw) {
    && a.key == b.key && a.finishes <= b.finishes && a.requeues <= b.requeues
    && (Answers(a, 1) ==> b.finishes == a.finishes && b.requeues == a.requeues)
    && (a.caller.Returned? ==> b == a)
  }

  lemma StepGrows(s: Sys, ev: Event, d: nat)
    requires d in s.raws && RawOk(s.raws[d])
    ensures d in Next(s, ev).raws && RawGrows(s.raws[d], Next(s, ev).raws[d])
  {
    if d != ev.d { OtherRaw(s, ev, d); }
  }

  lemma {:induction false} RunGrows(s: Sys, evs: seq<Event>, d: nat)
    requires Inv(s) && d in s.raws
    ensures d in Run(s, evs).raws && RawGrows(s.raws[d], Run(s, evs).raws[d])
    decreases |evs|
  {
    hide Next, RawOk;
    if evs != [] {
      NextKeeps(s, evs[0]);
      StepGrows(s, evs[0], d);
      RunGrows(Next(s, evs[0]), evs[1..], d);
    }
  }

  /** A delivery gets at most one Finish or Requeue, exactly one by the time its call
      returns; a Finish follows an acknowledgement or a confirmed failure handoff; and
      whatever is called on it afterwards, in any continuation and also after the call
      has returned, changes neither its answer nor anything else about it. */
  lemma ExactlyOneAnswer(max: nat, evs: seq<Event>, more: seq<Event>, d: nat)
    requires d in Run(Init(max), evs).raws
    ensures d in Run(Init(max), evs + more).raws
    ensures var r, r' := Run(Init(max), evs).raws[d], Run(Init(max), evs + more).raws[d];
      && (Answers(r, 0) || Answers(r, 1)) && (r.caller.Returned? ==> Answers(r, 1))
      && (r.finishes == 1 ==> r.acked || r.confirmed)
      && (Answers(r, 1) ==> r'.finishes == r.finishes && r'.requeues == r.requeues)
      && (r.caller.Returned? ==> r' == r)
  {
    hide Run;
    RunKeeps(Init(max), evs);
    assert RawOk(Run(Init(max), evs).raws[d]);
    RunConcat(Init(max), evs, more);
    RunGrows(Run(Init(max), evs), more, d);
  }

  // ---- Completion -----------------------------------------------------------------------

  function Left(p: Phase): nat {
    match p
    case Open => 8 case AckStarted => 4 case AckForgot => 3 case NackStarted => 7 case Remembered => 6
    case HandedOff => 5 case HandoffForgot => 4 case HandoffFailed => 4 case Answered => 2 case Closed => 1
  }

  function Pause(c: Caller): nat {
    match c case InHandler => 3 case Deciding(_) => 2 case Waiting => 1 case Returned => 0
  }

  /** What a delivery whose handler has returned does next by itself. */
  function Own(r: Raw, d: nat, handoff: bool): Event {
    if r.caller.Deciding? then CallerSettles(d) else if r.phase == Closed then Return(d) else Work(d, handoff)
  }

  lemma OwnMoves(s: Sys, d: nat, handoff: bool)
    requires d in s.raws && RawOk(s.raws[d]) && !s.raws[d].caller.InHandler? && !s.raws[d].caller.Returned?
    ensures var t := Next(s, Own(s.raws[d], d, handoff));
      && d in t.raws && !t.raws[d].caller.InHandler?
      && (Pause(t.raws[d].caller) < Pause(s.raws[d].caller)
          || (t.raws[d].caller == s.raws[d].caller && Left(t.raws[d].phase) < Left(s.raws[d].phase)))
  {
    if s.raws[d].caller.Waiting? { WorkMoves(s, d, handoff); }
    hide RawOk, Worked;
  }

  lemma WorkMoves(s: Sys, d: nat, handoff: bool)
    requires d in s.raws
    ensures var t := Worked(s, d, handoff);
      && d in t.raws && t.raws[d].caller == s.raws[d].caller
      && (s.raws[d].phase == Open || s.raws[d].phase == Closed || Left(t.raws[d].phase) < Left(s.raws[d].phase))
  {
    WorkFollows(s, d, handoff);
    FollowsLeft(s.raws[d].phase, Worked(s, d, handoff).raws[d].phase);
    hide Worked, Left, Follows;
  }

  /** The steps of the ack closure and of fail, in their order. */
  predicate Follows(p: Phase, q: Phase) {
    match p
    case AckStarted => q == AckForgot
    case NackStarted => q == Remembered
    case Remembered => q == Answered || q == HandedOff || q == HandoffFailed
    case HandedOff => q == HandoffForgot
    case Answered => q == Closed
    case Open => q == Open
    case Closed => q == Closed
    case _ => q == Answered
  }

  lemma WorkFollows(s: Sys, d: nat, handoff: bool)
    requires d in s.raws
    ensures var t := Worked(s, d, handoff);
      d in t.raws && t.raws[d].caller == s.raws[d].caller && Follows(s.raws[d].phase, t.raws[d].phase)
  {
  }

  lemma FollowsLeft(p: Phase, q: Phase)
    ensures Follows(p, q) ==> p == Open || p == Closed || Left(q) < Left(p)
  {
  }

  /** No waiter is stranded: once the handler has returned, the delivery's own steps
      lead its call back to the driver, whatever the handoffs answer. */
  lemma {:induction false} SettlementCompletes(s: Sys, d: nat, handoff: bool) returns (evs: seq<Event>)
    requires Inv(s) && d in s.raws && !s.raws[d].caller.InHandler?
    ensures forall i :: 0 <= i < |evs| ==> evs[i].d == d && !evs[i].Deliver? && !evs[i].Call?
    ensures d in Run(s, evs).raws && Run(s, evs).raws[d].caller.Returned?
    decreases Pause(s.raws[d].caller), Left(s.raws[d].phase)
  {
    if s.raws[d].caller.Returned? {
      evs := [];
    } else {
      var ev := Own(s.raws[d], d, handoff);
      assert RawOk(s.raws[d]);
      OwnMoves(s, d, handoff);
      NextKeeps(s, ev);
      hide Next, RawOk;
      var rest := SettlementCompletes(Next(s, ev), d, handoff);
      evs := [ev] + rest;
      assert evs[1..] == rest;
    }
  }

  // ---- Remembered causes ----------------------------------------------------------------

  predicate Busy(s: Sys, key: string, d: nat) { d in s.raws && s.raws[d].key == key && !s.raws[d].caller.Returned? }

  ghost predicate Idle(s: Sys, key: string) { forall d :: !Busy(s, key, d) }

  /** At most one delivery of the physical message is in progress. */
  ghost predicate Single(s: Sys, key: string) { forall c, d :: Busy(s, key, c) && Busy(s, key, d) ==> c == d }

  predicate LastRequeued(s: Sys, key: string) { key in s.last && s.last[key] }

  /** A cause is remembered exactly if the latest answer was a requeue. */
  predicate Exact(s: Sys, key: string) { key in s.causes <==> LastRequeued(s, key) }

  /** Between forgetting or remembering and the answer the cause anticipates it. */
  predicate CauseDuring(s: Sys, r: Raw) {
    match r.phase
    case AckForgot => r.key !in s.causes
    case HandoffForgot => r.key !in s.causes
    case Remembered => r.key in s.causes
    case HandedOff => r.key in s.causes
    case HandoffFailed => r.key in s.causes
    case _ => Exact(s, r.key)
  }

  ghost predicate CauseOk(s: Sys, key: string) {
    && Single(s, key) && (Idle(s, key) ==> Exact(s, key))
    && (forall d :: Busy(s, key, d) ==> CauseDuring(s, s.raws[d]))
  }

  /** A delivery of the key begins only when none is in progress. */
  ghost predicate ApartStep(s: Sys, ev: Event, key: string) { ev.Deliver? && ev.key == key ==> Idle(s, key) }

  ghost predicate ApartRun(s: Sys, evs: seq<Event>, key: string)
    decreases |evs|
  {
    evs == [] || (ApartStep(s, evs[0], key) && ApartRun(Next(s, evs[0]), evs[1..], key))
  }

  /** Only the moving delivery and its key are touched. */
  lemma OthersUntouched(s: Sys, ev: Event, key: string)
    ensures (ev.d in s.raws ==> s.raws[ev.d].key != key) ==>
      (key in Next(s, ev).causes <==> key in s.causes) && (LastRequeued(Next(s, ev), key) <==> LastRequeued(s, key))
    ensures forall d :: d != ev.d ==> (d in Next(s, ev).raws <==> d in s.raws) && (d in s.raws ==> Next(s, ev).raws[d] == s.raws[d])
    ensures ev.d in s.raws ==> ev.d in Next(s, ev).raws && Next(s, ev).raws[ev.d].key == s.raws[ev.d].key
  {
    forall d | d != ev.d ensures (d in Next(s, ev).raws <==> d in s.raws) && (d in s.raws ==> Next(s, ev).raws[d] == s.raws[d]) {
      OtherRaw(s, ev, d);
    }
    OwnKey(s, ev, key);
    hide Next;
  }

  lemma OwnKey(s: Sys, ev: Event, key: string)
    ensures (ev.d in s.raws ==> s.raws[ev.d].key != key) ==>
      (key in Next(s, ev).causes <==> key in s.causes) && (LastRequeued(Next(s, ev), key) <==> LastRequeued(s, key))
    ensures ev.d in s.raws ==> ev.d in Next(s, ev).raws && Next(s, ev).raws[ev.d].key == s.raws[ev.d].key
  {
  }

  lemma MoverOk(s: Sys, ev: Event)
    requires ev.d in s.raws && CauseDuring(s, s.raws[ev.d])
    ensures ev.d in Next(s, ev).raws && CauseDuring(Next(s, ev), Next(s, ev).raws[ev.d])
    ensures Next(s, ev).raws[ev.d].caller.Returned? && !s.raws[ev.d].caller.Returned? ==> Exact(Next(s, ev), s.raws[ev.d].key)
  {
  }

  lemma NewArrival(s: Sys, ev: Event)
    requires ev.d !in s.raws
    ensures Next(s, ev).causes == s.causes && Next(s, ev).last == s.last
    ensures ev.d in Next(s, ev).raws ==>
      && ev.Deliver? && Next(s, ev).raws[ev.d].key == ev.key && !Next(s, ev).raws[ev.d].caller.Returned?
      && (Next(s, ev).raws[ev.d].phase == Open || Next(s, ev).raws[ev.d].phase == NackStarted)
  {
  }

  lemma CauseStep(s: Sys, ev: Event, key: string)
    requires Inv(s) && CauseOk(s, key) && ApartStep(s, ev, key)
    ensures CauseOk(Next(s, ev), key)
  {
    hide Next, RawOk;
    var s' := Next(s, ev);
    OthersUntouched(s, ev, key);
    if ev.d in s.raws {
      assert RawOk(s.raws[ev.d]);
      StepGrows(s, ev, ev.d);
      assert forall d :: Busy(s', key, d) ==> Busy(s, key, d);
      if Busy(s, key, ev.d) {
        MoverOk(s, ev);
        assert forall d :: Busy(s', key, d) ==> d == ev.d;
        assert Idle(s', key) ==> !Busy(s', key, ev.d);
      } else {
        assert forall d :: Busy(s', key, d) <==> Busy(s, key, d);
        QuietKey(s, ev, key);
      }
    } else {
      NewArrival(s, ev);
      assert forall d :: d != ev.d ==> (Busy(s', key, d) <==> Busy(s, key, d));
    }
  }

  /** A step of a returned delivery, or of another key, leaves the key's cause alone. */
  lemma QuietKey(s: Sys, ev: Event, key: string)
    requires ev.d in s.raws && RawOk(s.raws[ev.d]) && !Busy(s, key, ev.d)
    ensures (key in Next(s, ev).causes <==> key in s.causes) && (LastRequeued(Next(s, ev), key) <==> LastRequeued(s, key))
  {
  }

  lemma {:induction false} CauseRun(s: Sys, evs: seq<Event>, key: string)
    requires Inv(s) && CauseOk(s, key) && ApartRun(s, evs, key)
    ensures CauseOk(Run(s, evs), key)
    decreases |evs|
  {
    hide CauseOk, Next, ApartStep, Inv;
    if evs != [] {
      CauseStep(s, evs[0], key);
      NextKeeps(s, evs[0]);
      CauseRun(Next(s, evs[0]), evs[1..], key);
    }
  }

  /** As long as deliveries of one physical message do not overlap here, its cause is
      remembered exactly when its latest answer was a requeue. */
  lemma CausesExact(max: nat, evs: seq<Event>, key: string)
    requires ApartRun(Init(max), evs, key) && Idle(Run(Init(max), evs), key)
    ensures Exact(Run(Init(max), evs), key)
  {
    hide Run, ApartRun;
    CauseRun(Init(max), evs, key);
  }
}
