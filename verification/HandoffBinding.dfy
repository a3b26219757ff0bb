/** What the direct failure handoff is bound to, over every run. */
module HandoffBinding {
  import Drain
  import opened Handoff

  /** A Ready call in its section asks for the topic the handoff will keep. */
  predicate BoundOk(s: Sys) {
    && "" !in s.producers
    && (s.ready.Some? ==> s.ready.value.address != "" && s.ready.value.topic != "" && (s.topic == "" || s.topic == s.ready.value.topic))
  }

  /** Producers and topic, once there, stay; closing freezes both. */
  predicate Kept(s: Sys, t: Sys) {
    && (s.topic != "" ==> t.topic == s.topic)
    && (forall a :: a in s.producers ==> a in t.producers && t.producers[a] == s.producers[a])
    && (s.closing ==> t.closing && t.topic == s.topic && t.producers == s.producers && t.created == s.created)
    && (s.closing ==> t.core.waiting <= s.core.waiting && t.core.sending <= s.core.sending)
  }

  lemma BoundStep(s: Sys, ev: Event)
    requires BoundOk(s)
    ensures BoundOk(Next(s, ev)) && Kept(s, Next(s, ev))
  {
    hide Drain.Next;
    forall d: Drain.Event | !d.Acquire? && (d.Admit? ==> d.refused)
      ensures Drain.Next(s.core, d).waiting <= s.core.waiting && Drain.Next(s.core, d).sending <= s.core.sending
    {
      Narrows(s.core, d);
    }
  }

  lemma Narrows(c: Drain.Core, d: Drain.Event)
    requires !d.Acquire? && (d.Admit? ==> d.refused)
    ensures Drain.Next(c, d).waiting <= c.waiting && Drain.Next(c, d).sending <= c.sending
  {
  }

  lemma KeptTrans(a: Sys, b: Sys, c: Sys)
    requires Kept(a, b) && Kept(b, c)
    ensures Kept(a, c)
  {
  }

  lemma {:induction false} BoundRun(s: Sys, evs: seq<Event>)
    requires BoundOk(s)
    ensures BoundOk(Run(s, evs)) && Kept(s, Run(s, evs))
    decreases |evs|
  {
    hide Next, BoundOk, Kept;
    if evs == [] {
      KeptRefl(s);
    } else {
      BoundStep(s, evs[0]);
      BoundRun(Next(s, evs[0]), evs[1..]);
      KeptTrans(s, Next(s, evs[0]), Run(s, evs));
    }
  }

  lemma KeptRefl(s: Sys)
    ensures Kept(s, s)
  {
  }

  /** The handoff serves one topic for good and keeps one producer per address; from the
      moment a Close has entered, neither a topic nor a producer is added, even by a Ready
      that was already in its section, and no publish starts to wait or to send. */
  lemma BoundForGood(limit: nat, evs: seq<Event>, more: seq<Event>, address: string)
    ensures var s := Run(New(limit), evs); var t := Run(s, more);
      && (s.topic != "" ==> t.topic == s.topic)
      && (address in s.producers ==> address != "" && address in t.producers && t.producers[address] == s.producers[address])
      && (s.closing ==>
            && t.topic == s.topic && t.producers == s.producers && t.created == s.created
            && t.core.waiting <= s.core.waiting && t.core.sending <= s.core.sending)
  {
    hide Run, Next;
    BoundRun(New(limit), evs);
    BoundRun(Run(New(limit), evs), more);
  }

  /** A waiting publish gets through exactly while nothing is closing, for an address made
      ready and the bound topic. */
  lemma AdmittedExactly(s: Sys, p: nat, address: string, topic: string, cancelled: bool)
    requires p !in s.core.sending
    ensures p in Next(s, Admit(p, address, topic, cancelled)).core.sending <==>
      && s.ready.None? && p in s.core.waiting && !s.core.stopping && !s.closing && !cancelled
      && address in s.producers && topic == s.topic
  {
  }
}
