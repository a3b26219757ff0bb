/** The direct failure handoff: producers are created on demand under the mutex,
    used by bounded sends, and stopped once by whichever Close gets there first.
    The closing flag is set outside the mutex, so a Close may race a Ready that is
    in the middle of its critical section. */
module Handoff {
  import Drain

  datatype Option<+T> = None | Some(value: T)

  /** A Ready call holding the mutex: before and after it looked up its producer. */
  datatype Section = Section(p: nat, address: string, topic: string, looked: bool)

  /** A Close call: entered; past its own section with the producers it collected;
      waiting for the one stopper. */
  datatype Closer = Entered | Collected(producers: set<nat>) | AwaitingStop

  datatype Sys = Sys(
    core: Drain.Core, topic: string, producers: map<string, nat>, created: nat, closing: bool,
    ready: Option<Section>, closers: map<nat, Closer>,
    stopping: Option<set<nat>>, stops: seq<nat>, stopDone: bool)

  datatype Event =
    | ReadyEnter(p: nat, address: string, topic: string)
    | ReadyProduce(connected: bool, made: bool)
    | ReadyLeave
    | Acquire(p: nat)
    | Admit(p: nat, address: string, topic: string, cancelled: bool)
    | DriverReturns(p: nat)
    | ReleaseSlot(p: nat)
    | Finish(p: nat)
    | CloseEnter(c: nat)
    | CloseSection(c: nat)
    | CloseDrained(c: nat)
    | StopOne(x: nat)
    | StopEnds
    | CloseLeaves(c: nat)

  function New(limit: nat): Sys {
    Sys(Drain.New(limit), "", map[], 0, false, None, map[], None, [], false)
  }

  function Next(s: Sys, ev: Event): Sys {
    match ev
    case ReadyEnter(p, address, topic) =>
      if address != "" && topic != "" && s.ready.None? && !s.closing && !s.core.stopping && (s.topic == "" || s.topic == topic)
      then s.(ready := Some(Section(p, address, topic, false))) else s
    case ReadyProduce(connected, made) =>
      if s.ready.None? || s.ready.value.looked then s
      else if !connected || s.closing then s.(ready := None)
      else if s.ready.value.address in s.producers then s.(ready := Some(s.ready.value.(looked := true)))
      else if !made then s.(ready := None)
      else s.(producers := s.producers[s.ready.value.address := s.created], created := s.created + 1,
              ready := Some(s.ready.value.(looked := true)))
    case ReadyLeave =>
      if s.ready.None? || !s.ready.value.looked then s
      else if s.closing then s.(ready := None)
      else s.(topic := s.ready.value.topic, ready := None)
    case Acquire(p) => if s.closing then s else s.(core := Drain.Next(s.core, Drain.Acquire(p)))
    case Admit(p, address, topic, cancelled) =>
      if s.ready.Some? then s
      else s.(core := Drain.Next(s.core, Drain.Admit(p, cancelled || s.closing || address !in s.producers || topic != s.topic)))
    case DriverReturns(p) => s.(core := Drain.Next(s.core, Drain.DriverReturns(p)))
    case ReleaseSlot(p) => s.(core := Drain.Next(s.core, Drain.ReleaseSlot(p)))
    case Finish(p) => if s.ready.Some? then s else s.(core := Drain.Next(s.core, Drain.Finish(p)))
    case CloseEnter(c) => if c in s.closers then s else s.(closing := true, closers := s.closers[c := Entered])
    case CloseSection(c) =>
      if c in s.closers && s.closers[c].Entered? && s.ready.None?
      then s.(core := Drain.Next(s.core, Drain.BeginDrain), closers := s.closers[c := Collected(s.producers.Values)]) else s
    case CloseDrained(c) =>
      if c in s.closers && s.closers[c].Collected? && s.core.closes > 0
      then s.(closers := s.closers[c := AwaitingStop], stopping := if s.stopping.None? then Some(s.closers[c].producers) else s.stopping) else s
    case StopOne(x) =>
      if s.stopping.Some? && x in s.stopping.value
      then s.(stopping := Some(s.stopping.value - {x}), stops := s.stops + [x]) else s
    case StopEnds => if s.stopping == Some({}) then s.(stopDone := true) else s
    case CloseLeaves(c) => s.(closers := s.closers - {c})
  }

  function Run(s: Sys, evs: seq<Event>): Sys
    decreases |evs|
  {
    if evs == [] then s else Run(Next(s, evs[0]), evs[1..])
  }

  // ---- Invariants ---------------------------------------------------------------------

  function Upto(n: nat): (r: set<nat>)
    ensures forall x: nat :: x in r <==> x < n
  {
    if n == 0 then {} else Upto(n - 1) + {n - 1}
  }

  /** Producers are numbered as created and none is replaced. */
  predicate ProducersOk(s: Sys) {
    && s.producers.Values == Upto(s.created)
    && forall a, b :: a in s.producers && b in s.producers && s.producers[a] == s.producers[b] ==> a == b
  }

  /** Every collection taken under the mutex is complete: nothing is created later. */
  predicate ClosersOk(s: Sys) {
    && (s.core.stopping ==> s.closing && s.ready.None?)
    && (forall c :: c in s.closers ==> s.closing)
    && (forall c :: c in s.closers && s.closers[c].Collected? ==> s.core.stopping && s.closers[c].producers == Upto(s.created))
  }

  function Elements(xs: seq<nat>): set<nat> { set i | 0 <= i < |xs| :: xs[i] }

  predicate StopsOk(s: Sys) {
    && (s.stopping.None? ==> s.stops == [] && !s.stopDone)
    && (s.stopping.Some? ==>
          && s.core.stopping && s.core.closes == 1
          && Elements(s.stops) + s.stopping.value == Upto(s.created) && Elements(s.stops) !! s.stopping.value)
    && (forall i, j :: 0 <= i < j < |s.stops| ==> s.stops[i] != s.stops[j])
    && (s.stopDone ==> s.stopping == Some({}))
  }

  predicate Inv(s: Sys) {
    Drain.Inv(s.core) && ProducersOk(s) && ClosersOk(s) && StopsOk(s)
  }

  lemma ReadyKeeps(s: Sys, ev: Event)
    requires Inv(s) && (ev.ReadyEnter? || ev.ReadyProduce? || ev.ReadyLeave?)
    ensures Inv(Next(s, ev))
  {
    hide Drain.Inv;
    var s' := Next(s, ev);
    if s'.created != s.created {
      Numbered(s.producers, s.ready.value.address, s.created);
    }
  }

  lemma Numbered(m: map<string, nat>, a: string, n: nat)
    requires a !in m && m.Values == Upto(n)
    ensures m[a := n].Values == Upto(n + 1)
    ensures forall k :: k in m ==> m[k] != n
  {
    var m' := m[a := n];
    forall v: nat ensures v in m'.Values <==> v in Upto(n + 1) {
      if v < n {
        assert v in m.Values;
        var k :| k in m && m[k] == v;
        assert m'[k] == v;
      }
      assert m'[a] == n;
      if v in m'.Values {
        var k :| k in m' && m'[k] == v;
        assert k != a ==> m[k] in m.Values;
      }
    }
    forall k | k in m ensures m[k] != n { assert m[k] in m.Values; }
  }

  lemma CoreKeeps(s: Sys, core': Drain.Core)
    requires Inv(s) && Drain.Inv(core') && core'.stopping == s.core.stopping && (s.core.closes == 1 ==> core'.closes == 1)
    ensures Inv(s.(core := core'))
  {
    hide Drain.Inv;
  }

  lemma CoreMoves(s: Sys, d: Drain.Event)
    requires Inv(s) && d != Drain.BeginDrain
    ensures Inv(s.(core := Drain.Next(s.core, d)))
  {
    hide ProducersOk, ClosersOk, StopsOk, Drain.Inv, Drain.Next;
    Drain.NextKeeps(s.core, d);
    Drain.StoppingFlag(s.core, d);
    CoreKeeps(s, Drain.Next(s.core, d));
  }

  lemma SendKeeps(s: Sys, ev: Event)
    requires Inv(s) && (ev.Acquire? || ev.Admit? || ev.DriverReturns? || ev.ReleaseSlot? || ev.Finish?)
    ensures Inv(Next(s, ev))
  {
    hide Inv, Drain.Next;
    match ev
    case Acquire(p) => CoreMoves(s, Drain.Acquire(p));
    case Admit(p, address, topic, cancelled) =>
      CoreMoves(s, Drain.Admit(p, cancelled || s.closing || address !in s.producers || topic != s.topic));
    case DriverReturns(p) => CoreMoves(s, Drain.DriverReturns(p));
    case ReleaseSlot(p) => CoreMoves(s, Drain.ReleaseSlot(p));
    case Finish(p) => CoreMoves(s, Drain.Finish(p));
  }

  lemma CloseKeeps(s: Sys, ev: Event)
    requires Inv(s) && (ev.CloseEnter? || ev.CloseSection? || ev.CloseDrained? || ev.CloseLeaves?)
    ensures Inv(Next(s, ev))
  {
    hide Inv, Next;
    if ev.CloseSection? {
      SectionKeeps(s, ev.c);
    } else if ev.CloseDrained? {
      DrainedKeeps(s, ev.c);
    } else {
      CountedKeeps(s, ev);
    }
  }

  lemma CountedKeeps(s: Sys, ev: Event)
    requires Inv(s) && (ev.CloseEnter? || ev.CloseLeaves?)
    ensures Inv(Next(s, ev))
  {
    hide Drain.Inv, Drain.Next, Upto, Elements;
  }

  lemma SectionKeeps(s: Sys, c: nat)
    requires Inv(s)
    ensures Inv(Next(s, CloseSection(c)))
  {
    hide Drain.Inv, Drain.Next, Upto, Elements;
    if c in s.closers && s.closers[c].Entered? && s.ready.None? {
      CoreDrains(s);
      CollectKeeps(s.(core := Drain.Next(s.core, Drain.BeginDrain)), c, Next(s, CloseSection(c)));
    }
  }

  lemma DrainedKeeps(s: Sys, c: nat)
    requires Inv(s)
    ensures Inv(Next(s, CloseDrained(c)))
  {
    hide Drain.Inv, Drain.Next, Upto;
    Drain.ClosedAtMostOnce(s.core);
  }

  /** A Close section finds no Ready in progress. */
  lemma CoreDrains(s: Sys)
    requires Inv(s)
    ensures s.ready.None? && s.closing ==> Inv(s.(core := Drain.Next(s.core, Drain.BeginDrain)))
    ensures Drain.Next(s.core, Drain.BeginDrain).stopping
  {
    hide Drain.Inv, Drain.Next, Upto, Elements;
    Drain.NextKeeps(s.core, Drain.BeginDrain);
    Drain.StoppingFlag(s.core, Drain.BeginDrain);
  }

  lemma CollectKeeps(s: Sys, c: nat, s': Sys)
    requires s.ready.None? && s.closing && s.core.stopping ==> Inv(s)
    requires s' == s.(closers := s.closers[c := Collected(s.producers.Values)]) && s.ready.None? && s.closing && s.core.stopping
    ensures Inv(s')
  {
    hide Drain.Inv, Upto, Elements;
  }

  lemma StopKeeps(s: Sys, ev: Event)
    requires Inv(s) && (ev.StopOne? || ev.StopEnds?)
    ensures Inv(Next(s, ev))
  {
    hide Drain.Inv, ProducersOk, ClosersOk;
    var s' := Next(s, ev);
    assert ProducersOk(s') && ClosersOk(s') by { SameProducers(s, s'); }
    if ev.StopOne? && s' != s {
      forall v ensures v in Elements(s'.stops) <==> v in Elements(s.stops) || v == ev.x {
        assert s'.stops[|s.stops|] == ev.x;
        if v in Elements(s.stops) {
          var i :| 0 <= i < |s.stops| && s.stops[i] == v;
          assert s'.stops[i] == v;
        }
      }
    }
  }

  lemma SameProducers(s: Sys, s': Sys)
    requires ProducersOk(s) && ClosersOk(s)
    requires s' == s.(stopping := s'.stopping, stops := s'.stops, stopDone := s'.stopDone)
    ensures ProducersOk(s') && ClosersOk(s')
  {
  }

  lemma NextKeeps(s: Sys, ev: Event)
    requires Inv(s)
    ensures Inv(Next(s, ev))
  {
    hide Inv, Next;
    if ev.ReadyEnter? || ev.ReadyProduce? || ev.ReadyLeave? { ReadyKeeps(s, ev); }
    else if ev.StopOne? || ev.StopEnds? { StopKeeps(s, ev); }
    else if ev.CloseEnter? || ev.CloseSection? || ev.CloseDrained? || ev.CloseLeaves? { CloseKeeps(s, ev); }
    else { SendKeeps(s, ev); }
  }

  lemma {:induction false} RunKeeps(s: Sys, evs: seq<Event>)
    requires Inv(s)
    ensures Inv(Run(s, evs))
    decreases |evs|
  {
    hide Inv, Next;
    if evs != [] {
      NextKeeps(s, evs[0]);
      RunKeeps(Next(s, evs[0]), evs[1..]);
    }
  }

  lemma NewInv(limit: nat)
    ensures Inv(New(limit))
  {
    assert New(limit).producers.Values == {};
  }

  lemma StoppedStep(s: Sys, ev: Event)
    requires Inv(s) && s.stopDone
    ensures Next(s, ev).stopDone && Next(s, ev).stops == s.stops && Next(s, ev).created == s.created
  {
    hide Drain.Inv, Drain.Next, ProducersOk, Elements, Upto;
  }

  lemma {:induction false} StoppedRun(s: Sys, evs: seq<Event>)
    requires Inv(s) && s.stopDone
    ensures var t := Run(s, evs); Inv(t) && t.stopDone && t.stops == s.stops && t.created == s.created
    decreases |evs|
  {
    hide Inv, Next;
    if evs != [] {
      StoppedStep(s, evs[0]);
      NextKeeps(s, evs[0]);
      StoppedRun(Next(s, evs[0]), evs[1..]);
    }
  }

  /** When a Close succeeds, every producer ever created has been stopped exactly once
      and no send is in progress; and in every continuation no producer is created or
      stopped and no send starts. */
  lemma EveryProducerStoppedOnce(limit: nat, evs: seq<Event>, more: seq<Event>, x: nat)
    requires Run(New(limit), evs).stopDone
    ensures var s, t := Run(New(limit), evs), Run(Run(New(limit), evs), more);
      && (x < s.created <==> exists i :: 0 <= i < |s.stops| && s.stops[i] == x)
      && (forall i, j :: 0 <= i < j < |s.stops| ==> s.stops[i] != s.stops[j])
      && t.stops == s.stops && t.created == s.created
      && t.core.sending == {} && t.core.returned == {} && t.core.freed == {}
  {
    hide Run;
    NewInv(limit);
    RunKeeps(New(limit), evs);
    var s := Run(New(limit), evs);
    StoppedRun(s, more);
    assert x in Elements(s.stops) <==> x in Upto(s.created);
  }

  /** Producers are stopped only when no admitted send is left, and after the first
      Close section no producer is created and no send is admitted. */
  lemma StopsAfterSends(limit: nat, evs: seq<Event>, ev: Event)
    ensures var s := Run(New(limit), evs); var s' := Next(s, ev);
      && (|s'.stops| > |s.stops| ==> s.core.sending == {} && s.core.active == 0)
      && (s.core.stopping ==> s'.created == s.created && s'.core.sending <= s.core.sending)
      && |s.core.sending| <= s.core.limit
  {
    hide Run, Drain.Inv, Drain.Next, ProducersOk, Elements, Upto;
    NewInv(limit);
    RunKeeps(New(limit), evs);
    var s := Run(New(limit), evs);
    Drain.ClosedAtMostOnce(s.core);
    forall d ensures s.core.stopping ==> Drain.Next(s.core, d).sending <= s.core.sending { Drain.StoppingFlag(s.core, d); }
  }
}
