/** Bounded sends and a drain that ends exactly when the last of them does: the
    NSQ publisher. Each section under the mutex and each channel operation is one
    event; a caller that gives up leaves its driver call running. */
module Drain {

  /** Callers by where their goroutine stands, the fields of the publisher, and how
      often the drained channel has been closed. */
  datatype Core = Core(
    limit: nat, slots: nat, active: nat, stopping: bool, closes: nat,
    waiting: set<nat>, sending: set<nat>, returned: set<nat>, freed: set<nat>)

  datatype Event =
    | Acquire(p: nat)
    | Admit(p: nat, refused: bool)
    | DriverReturns(p: nat)
    | ReleaseSlot(p: nat)
    | Finish(p: nat)
    | BeginDrain

  function New(limit: nat): Core { Core(limit, 0, 0, false, 0, {}, {}, {}, {}) }

  predicate Known(c: Core, p: nat) { p in c.waiting || p in c.sending || p in c.returned || p in c.freed }

  function Next(c: Core, ev: Event): Core {
    match ev
    case Acquire(p) =>
      if c.slots < c.limit && !Known(c, p) then c.(slots := c.slots + 1, waiting := c.waiting + {p}) else c
    case Admit(p, refused) =>
      if p !in c.waiting then c
      else if (c.stopping || refused) && c.slots > 0 then c.(slots := c.slots - 1, waiting := c.waiting - {p})
      else if c.stopping || refused then c
      else c.(active := c.active + 1, waiting := c.waiting - {p}, sending := c.sending + {p})
    case DriverReturns(p) =>
      if p in c.sending then c.(sending := c.sending - {p}, returned := c.returned + {p}) else c
    case ReleaseSlot(p) =>
      if p in c.returned && c.slots > 0 then c.(slots := c.slots - 1, returned := c.returned - {p}, freed := c.freed + {p}) else c
    case Finish(p) =>
      if p in c.freed && c.active > 0 then
        c.(active := c.active - 1, freed := c.freed - {p},
           closes := if c.stopping && c.active == 1 then c.closes + 1 else c.closes)
      else c
    case BeginDrain =>
      if c.stopping then c else c.(stopping := true, closes := if c.active == 0 then c.closes + 1 else c.closes)
  }

  function Run(c: Core, evs: seq<Event>): Core
    decreases |evs|
  {
    if evs == [] then c else Run(Next(c, evs[0]), evs[1..])
  }

  /** Slots and the active count are what the goroutines hold; the channel is closed
      once, precisely when stopping has met an idle publisher. */
  predicate Inv(c: Core) {
    && c.waiting !! c.sending !! c.returned !! c.freed
    && c.slots == |c.waiting| + |c.sending| + |c.returned| <= c.limit
    && c.active == |c.sending| + |c.returned| + |c.freed|
    && c.closes == (if c.stopping && c.active == 0 then 1 else 0)
  }

  lemma Moved(a: set<nat>, p: nat)
    ensures p in a ==> |a - {p}| == |a| - 1
    ensures p !in a ==> |a + {p}| == |a| + 1
  {
  }

  lemma AcquireKeeps(c: Core, ev: Event)
    requires Inv(c) && ev.Acquire?
    ensures Inv(Next(c, ev))
  {
    Moved(c.waiting, ev.p);
  }

  lemma AdmitKeeps(c: Core, ev: Event)
    requires Inv(c) && ev.Admit?
    ensures Inv(Next(c, ev))
  {
    Moved(c.waiting, ev.p);
    Moved(c.sending, ev.p);
  }

  lemma ReturnKeeps(c: Core, ev: Event)
    requires Inv(c) && ev.DriverReturns?
    ensures Inv(Next(c, ev))
  {
    Moved(c.sending, ev.p);
    Moved(c.returned, ev.p);
  }

  lemma ReleaseKeeps(c: Core, ev: Event)
    requires Inv(c) && ev.ReleaseSlot?
    ensures Inv(Next(c, ev))
  {
    Moved(c.returned, ev.p);
    Moved(c.freed, ev.p);
  }

  lemma FinishKeeps(c: Core, ev: Event)
    requires Inv(c) && ev.Finish?
    ensures Inv(Next(c, ev))
  {
    Moved(c.freed, ev.p);
  }

  lemma NextKeeps(c: Core, ev: Event)
    requires Inv(c)
    ensures Inv(Next(c, ev))
  {
    match ev
    case Acquire(_) => AcquireKeeps(c, ev);
    case Admit(_, _) => AdmitKeeps(c, ev);
    case DriverReturns(_) => ReturnKeeps(c, ev);
    case ReleaseSlot(_) => ReleaseKeeps(c, ev);
    case Finish(_) => FinishKeeps(c, ev);
    case BeginDrain =>
  }

  lemma {:induction false} RunKeeps(c: Core, evs: seq<Event>)
    requires Inv(c)
    ensures Inv(Run(c, evs))
    decreases |evs|
  {
    hide Inv, Next;
    if evs != [] {
      NextKeeps(c, evs[0]);
      RunKeeps(Next(c, evs[0]), evs[1..]);
    }
  }

  /** In every run at most limit driver sends are in progress, and the channel is
      closed exactly when stopping with nothing active, and never twice. */
  lemma BoundedAndClosedOnce(limit: nat, evs: seq<Event>)
    ensures var c := Run(New(limit), evs);
      && |c.sending| <= c.limit && c.closes <= 1
      && (c.closes == 1 <==> c.stopping && c.sending == {} && c.returned == {} && c.freed == {})
  {
    hide Run;
    RunKeeps(New(limit), evs);
  }

  lemma StoppedStep(c: Core, ev: Event)
    requires Inv(c) && c.closes == 1
    ensures Next(c, ev).closes == 1 && Next(c, ev).sending == {} && Next(c, ev).stopping
  {
    NextKeeps(c, ev);
  }

  /** Only BeginDrain sets the flag; it keeps a channel that is already closed. */
  lemma StoppingFlag(c: Core, ev: Event)
    requires Inv(c)
    ensures Next(c, ev).stopping == (c.stopping || ev == BeginDrain)
    ensures c.closes == 1 ==> Next(c, ev).closes == 1
    ensures c.stopping ==> Next(c, ev).sending <= c.sending
  {
    if c.closes == 1 { StoppedStep(c, ev); }
  }

  lemma {:induction false} StoppedRun(c: Core, evs: seq<Event>)
    requires Inv(c) && c.closes == 1
    ensures Run(c, evs).closes == 1 && Run(c, evs).sending == {}
    decreases |evs|
  {
    hide Next;
    if evs == [] {
      assert c.sending == {};
    } else {
      StoppedStep(c, evs[0]);
      NextKeeps(c, evs[0]);
      StoppedRun(Next(c, evs[0]), evs[1..]);
    }
  }

  /** Once Drain has succeeded no driver send is in progress or ever starts again. */
  lemma NoSendAfterDrain(limit: nat, evs: seq<Event>, more: seq<Event>)
    requires Run(New(limit), evs).closes == 1
    ensures Run(Run(New(limit), evs), more).sending == {}
  {
    hide Run;
    RunKeeps(New(limit), evs);
    StoppedRun(Run(New(limit), evs), more);
  }

  /** What is left of the driver calls in progress. */
  function Distance(c: Core): nat { 3 * |c.sending| + 2 * |c.returned| + |c.freed| }

  /** Once stopping, nothing that anybody does, new callers included, adds to it. */
  lemma DrainNeverRetreats(c: Core, ev: Event)
    requires Inv(c) && c.stopping
    ensures Distance(Next(c, ev)) <= Distance(c)
  {
    if ev.Finish? { Moved(c.freed, ev.p); }
    if ev.ReleaseSlot? { Moved(c.returned, ev.p); Moved(c.freed, ev.p); }
    if ev.DriverReturns? { Moved(c.sending, ev.p); Moved(c.returned, ev.p); }
  }

  /** A step by which a driver call in progress ends. */
  predicate Ending(ev: Event) { ev.DriverReturns? || ev.ReleaseSlot? || ev.Finish? }

  lemma DrainMoves(c: Core) returns (ev: Event)
    requires Inv(c) && c.stopping && c.closes == 0
    ensures Ending(ev) && Distance(Next(c, ev)) < Distance(c)
  {
    if c.freed != {} {
      var p :| p in c.freed;
      Moved(c.freed, p);
      ev := Finish(p);
    } else if c.returned != {} {
      var p :| p in c.returned;
      Moved(c.returned, p);
      Moved(c.freed, p);
      ev := ReleaseSlot(p);
    } else {
      assert c.sending != {};
      var p :| p in c.sending;
      Moved(c.sending, p);
      Moved(c.returned, p);
      ev := DriverReturns(p);
    }
  }

  /** The drain cannot get stuck: from every state in which it has begun, the driver
      calls in progress lead by their own steps to the closed channel. */
  lemma {:induction false} DrainCompletes(c: Core) returns (evs: seq<Event>)
    requires Inv(c) && c.stopping
    ensures Run(c, evs).closes == 1 && forall i :: 0 <= i < |evs| ==> Ending(evs[i])
    decreases Distance(c)
  {
    if c.closes == 1 {
      evs := [];
    } else {
      var ev := DrainMoves(c);
      NextKeeps(c, ev);
      StoppingFlag(c, ev);
      hide Next;
      var rest := DrainCompletes(Next(c, ev));
      evs := [ev] + rest;
      assert evs[1..] == rest;
    }
  }

  // ---- The object ----------------------------------------------------------------------

  /** The fields of the publisher; the ghost core adds which goroutine is where. */
  class Publisher {
    const limit: nat
    var slots: nat
    var active: nat
    var stopping: bool
    var drained: bool
    ghost var core: Core

    ghost predicate Valid()
      reads this
    {
      && Inv(core)
      && core.limit == limit && core.slots == slots && core.active == active && core.stopping == stopping
      && core.closes == (if drained then 1 else 0)
    }

    constructor (limit: nat)
      requires 1 <= limit <= 1000
      ensures Valid() && core == New(limit)
    {
      this.limit := limit;
      slots, active, stopping, drained := 0, 0, false, false;
      core := New(limit);
    }

    /** The section of publishBytes under the mutex, once a slot is held. */
    method AdmitSection(ghost p: nat, cancelled: bool) returns (admitted: bool)
      requires Valid() && p in core.waiting
      modifies this
      ensures Valid() && core == Next(old(core), Admit(p, cancelled))
      ensures admitted <==> p in core.sending
    {
      hide Inv, Next;
      NextKeeps(core, Admit(p, cancelled));
      AdmitEffect(core, p, cancelled);
      core := Next(core, Admit(p, cancelled));
      if stopping || cancelled {
        slots := slots - 1;
        return false;
      }
      active := active + 1;
      return true;
    }

    /** The end of the driver goroutine: the last one out closes the channel. */
    method FinishSection(ghost p: nat)
      requires Valid() && p in core.freed
      modifies this
      ensures Valid() && core == Next(old(core), Finish(p))
    {
      hide Inv, Next;
      NextKeeps(core, Finish(p));
      FinishEffect(core, p);
      core := Next(core, Finish(p));
      active := active - 1;
      if stopping && active == 0 {
        drained := true;
      }
    }

    method BeginDrain()
      requires Valid()
      modifies this
      ensures Valid() && core == Next(old(core), Event.BeginDrain)
    {
      NextKeeps(core, Event.BeginDrain);
      core := Next(core, Event.BeginDrain);
      if !stopping {
        stopping := true;
        if active == 0 {
          drained := true;
        }
      }
    }
  }

  lemma ClosedAtMostOnce(c: Core)
    requires Inv(c)
    ensures c.closes <= 1 && (c.closes == 1 ==> c.stopping && c.sending == {} && c.active == 0) && |c.sending| <= c.limit
  {
  }

  lemma AdmitEffect(c: Core, p: nat, refused: bool)
    requires Inv(c) && p in c.waiting
    ensures var d := Next(c, Admit(p, refused));
      && c.slots > 0 && d.limit == c.limit && d.stopping == c.stopping && d.closes == c.closes
      && (p in d.sending <==> !(c.stopping || refused))
      && (if c.stopping || refused then d.slots == c.slots - 1 && d.active == c.active
          else d.slots == c.slots && d.active == c.active + 1)
  {
    Moved(c.waiting, p);
  }

  lemma FinishEffect(c: Core, p: nat)
    requires Inv(c) && p in c.freed
    ensures c.active > 0 && c.closes == 0
    ensures Next(c, Finish(p)) == c.(active := c.active - 1, freed := c.freed - {p}, closes := if c.stopping && c.active == 1 then 1 else 0)
  {
    Moved(c.freed, p);
  }
}
