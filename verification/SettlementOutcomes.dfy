/** How an NSQ delivery is answered: what the first settlement, the attempt count and the
    failure handoff decide, over every run. */
module SettlementOutcomes {
  import opened Settlement

  predicate IsAnswered(r: Raw) { r.phase == Answered || r.phase == Closed }

  /** The handler sees only decodable deliveries within their attempts; the handoff is for
      failed deliveries that have used them up. */
  predicate Fair(max: nat, r: Raw) {
    && (r.phase == Open || r.phase == AckStarted || r.acked || r.caller.InHandler? || r.caller.Deciding? ==> r.decodable && r.attempts <= max)
    && (r.tried ==> r.attempts >= max && !r.acked) && (r.confirmed ==> r.tried)
    && (r.finishes == 1 || r.requeues == 1 <==> IsAnswered(r)) && r.finishes + r.requeues <= 1
    && match r.phase
       case AckForgot => r.acked
       case HandedOff => r.confirmed
       case HandoffForgot => r.confirmed
       case HandoffFailed => r.tried && !r.confirmed
       case Answered => RightAnswer(max, r)
       case Closed => RightAnswer(max, r)
       case _ => !r.acked && !r.tried
  }

  predicate RightAnswer(max: nat, r: Raw) {
    && (r.requeues == 1 <==> !r.acked && (r.attempts < max || !r.confirmed))
    && (!r.acked && r.attempts >= max ==> r.tried)
  }

  predicate FairInv(s: Sys) { forall d :: d in s.raws ==> Fair(s.max, s.raws[d]) }

  lemma FairStep(s: Sys, ev: Event, k: nat)
    requires k in Next(s, ev).raws && (k in s.raws ==> Fair(s.max, s.raws[k]))
    ensures Next(s, ev).max == s.max && Fair(s.max, Next(s, ev).raws[k])
  {
    SameMax(s, ev);
    if k != ev.d {
      hide Fair, Next;
      OtherRaw(s, ev, k);
    } else if ev.Work? {
      FairWork(s, k, ev.handoffConfirmed);
    } else {
      hide Worked;
    }
  }

  lemma FairWork(s: Sys, d: nat, handoffConfirmed: bool)
    requires d in s.raws && Fair(s.max, s.raws[d])
    ensures d in Worked(s, d, handoffConfirmed).raws && Fair(s.max, Worked(s, d, handoffConfirmed).raws[d])
  {
  }

  lemma SameMax(s: Sys, ev: Event)
    ensures Next(s, ev).max == s.max
  {
  }

  lemma {:induction false} RunFair(s: Sys, evs: seq<Event>)
    requires FairInv(s)
    ensures FairInv(Run(s, evs)) && Run(s, evs).max == s.max
    decreases |evs|
  {
    hide Next, Fair;
    if evs != [] {
      SameMax(s, evs[0]);
      forall k | k in Next(s, evs[0]).raws ensures Fair(s.max, Next(s, evs[0]).raws[k]) {
        if k in s.raws { assert Fair(s.max, s.raws[k]); }
        FairStep(s, evs[0], k);
      }
      RunFair(Next(s, evs[0]), evs[1..]);
    }
  }

  /** In every run: an answered delivery that was not acknowledged is requeued exactly while
      it has attempts left or its handoff was not confirmed, and finished otherwise; the
      handoff is tried exactly when the attempts are used up, before the answer; and only a
      decodable delivery within its attempts is ever acknowledged. */
  lemma AnswerExactly(max: nat, evs: seq<Event>, d: nat)
    requires d in Run(Init(max), evs).raws
    ensures var r := Run(Init(max), evs).raws[d];
      && (r.confirmed ==> r.tried) && (r.tried ==> r.attempts >= max && !r.acked)
      && (r.acked ==> r.decodable && r.attempts <= max)
      && (Answers(r, 1) && r.acked ==> r.finishes == 1)
      && (Answers(r, 1) && !r.acked ==>
            && (r.requeues == 1 <==> r.attempts < max || !r.confirmed)
            && (r.tried <==> r.attempts >= max))
  {
    hide Run;
    RunFair(Init(max), evs);
    assert Fair(max, Run(Init(max), evs).raws[d]);
  }

  // ---- The first settlement decides -------------------------------------------------------

  /** The delivery is being, or was, settled this way; or its own call is about to. */
  predicate Chosen(r: Raw, ack: bool) {
    match r.phase
    case Open => r.caller == Deciding(ack)
    case AckStarted => ack
    case AckForgot => ack
    case Answered => r.acked == ack
    case Closed => r.acked == ack
    case _ => !ack && !r.acked
  }

  predicate CallsNot(evs: seq<Event>, d: nat) { forall i :: 0 <= i < |evs| ==> !(evs[i].Call? && evs[i].d == d) }

  lemma ChosenStep(s: Sys, ev: Event, d: nat, ack: bool)
    requires d in s.raws && Fair(s.max, s.raws[d]) && Chosen(s.raws[d], ack)
    requires s.raws[d].phase != Open || !(ev.Call? && ev.d == d)
    ensures d in Next(s, ev).raws && Chosen(Next(s, ev).raws[d], ack)
    ensures s.raws[d].phase != Open ==> Next(s, ev).raws[d].phase != Open
  {
    if d != ev.d { OtherRaw(s, ev, d); }
  }

  lemma {:induction false} ChosenRun(s: Sys, evs: seq<Event>, d: nat, ack: bool)
    requires FairInv(s) && d in s.raws && Chosen(s.raws[d], ack)
    requires s.raws[d].phase != Open || CallsNot(evs, d)
    ensures d in Run(s, evs).raws && Chosen(Run(s, evs).raws[d], ack)
    decreases |evs|
  {
    hide Next, Chosen, Fair;
    if evs != [] {
      assert Fair(s.max, s.raws[d]);
      ChosenStep(s, evs[0], d, ack);
      assert evs == [evs[0]] + evs[1..];
      RunFair(s, [evs[0]]);
      RunSingle(s, evs[0]);
      ChosenRun(Next(s, evs[0]), evs[1..], d, ack);
    }
  }

  lemma RunSingle(s: Sys, ev: Event)
    ensures Run(s, [ev]) == Next(s, ev)
  {
    hide Next;
    assert [ev][1..] == [];
    assert Run(Next(s, ev), []) == Next(s, ev);
  }

  /** Answered as chosen: an acknowledgement finishes; a failure is requeued while attempts
      are left or the handoff is not confirmed. */
  predicate AnsweredAs(max: nat, r: Raw, ack: bool) {
    && r.acked == ack && (r.finishes == 1 <==> ack || (r.attempts >= max && r.confirmed)) && (r.requeues == 1 <==> r.finishes == 0)
  }

  lemma ChosenAnswer(max: nat, r: Raw, ack: bool)
    requires Fair(max, r) && Chosen(r, ack) && Answers(r, 1)
    ensures AnsweredAs(max, r, ack)
  {
  }

  /** Whoever settles an open delivery first decides it, whatever is called later. */
  lemma FirstCallDecides(max: nat, evs: seq<Event>, d: nat, ack: bool, more: seq<Event>)
    requires var s := Run(Init(max), evs); d in s.raws && s.raws[d].phase == Open
    ensures var s := Run(Init(max), evs + [Call(d, ack)] + more);
      d in s.raws && (s.raws[d].acked ==> ack) && (s.raws[d].tried ==> !ack) && (Answers(s.raws[d], 1) ==> AnsweredAs(max, s.raws[d], ack))
  {
    RunFair(Init(max), evs);
    assert Fair(max, Run(Init(max), evs).raws[d]);
    Decided(max, evs, Call(d, ack), more, d, ack);
  }

  /** A handler that settles nothing and starts nobody who does is settled by its result:
      acknowledged if it returned no error, failed otherwise. */
  lemma ResultDecides(max: nat, evs: seq<Event>, d: nat, failed: bool, more: seq<Event>)
    requires var s := Run(Init(max), evs); d in s.raws && s.raws[d].phase == Open && s.raws[d].caller.InHandler?
    requires CallsNot(more, d)
    ensures var s := Run(Init(max), evs + [HandlerReturns(d, failed)] + more);
      d in s.raws && (s.raws[d].acked ==> !failed) && (s.raws[d].tried ==> failed) && (Answers(s.raws[d], 1) ==> AnsweredAs(max, s.raws[d], !failed))
  {
    hide Run;
    Decided(max, evs, HandlerReturns(d, failed), more, d, !failed);
  }

  lemma Decided(max: nat, evs: seq<Event>, ev: Event, more: seq<Event>, d: nat, ack: bool)
    requires var s := Next(Run(Init(max), evs), ev); d in s.raws && Chosen(s.raws[d], ack) && (s.raws[d].phase != Open || CallsNot(more, d))
    ensures var s := Run(Init(max), evs + [ev] + more);
      d in s.raws && (s.raws[d].acked ==> ack) && (s.raws[d].tried ==> !ack) && (Answers(s.raws[d], 1) ==> AnsweredAs(max, s.raws[d], ack))
  {
    hide Run, Next;
    RunConcat(Init(max), evs, [ev]);
    RunConcat(Init(max), evs + [ev], more);
    RunSingle(Run(Init(max), evs), ev);
    RunFair(Init(max), evs + [ev]);
    RunFair(Init(max), evs + [ev] + more);
    ChosenRun(Run(Init(max), evs + [ev]), more, d, ack);
    var r := Run(Init(max), evs + [ev] + more).raws[d];
    assert Fair(max, r);
    if Answers(r, 1) { ChosenAnswer(max, r, ack); }
  }
}
