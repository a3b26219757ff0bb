/** The relay over the leased outbox: claimed messages are published and the
    transport outcome is written back under the claim. Any number of relays run
    concurrently with each other, with appends, host requeues and crashes. */
module Relay {
  import opened Protocol
  import opened Outbox
  import opened OutboxSafety
  import opened OutboxEffects

  datatype PublishOutcome = PublishUnknown | PublishConfirmed | PublishRejected

  /** The host's retry policy answers with a delay or an explicit quarantine. */
  datatype RetryDecision = RetryDecision(delayNanos: int, quarantine: bool)

  /** One deliver call: before its publish, then before its write. */
  datatype Delivery = Delivery(claim: Claim, outcome: Option<PublishOutcome>)

  datatype Sys = Sys(book: Book, inflight: map<nat, Delivery>, log: seq<(Claim, PublishOutcome)>)

  datatype Event =
    | Scan(limit: int, ids: seq<nat>, tokens: nat -> string, now: int, lease: int)
    | Pick(id: nat, token: string, now: int, lease: int)
    | SetAside(c: Claim, now: int)
    | Host(op: Op)
    | Start(d: nat, claim: nat)
    | Publish(d: nat, outcome: PublishOutcome)
    | Write(d: nat, decision: RetryDecision, now: int, lost: bool)
    | Crash(d: nat)

  /** The settlement deliver writes, if the policy's answer is usable. */
  function SettlementFor(o: PublishOutcome, decision: RetryDecision): Option<Settlement> {
    var code := if o == PublishRejected then "publish_rejected" else "publish_unknown";
    if o == PublishConfirmed then Some(Confirm)
    else if decision.quarantine then Some(Quarantine(code))
    else if decision.delayNanos <= 0 then None
    else Some(Retry(decision.delayNanos, code))
  }

  const CORRUPT := Quarantine("invalid_immutable_content")

  /** A scan is a batch claim, or the document store's picks, each possibly followed by
      setting a corrupt document aside. */
  function Next(s: Sys, ev: Event): Sys {
    match ev
    case Scan(limit, ids, tokens, now, lease) => s.(book := Apply(s.book, OpClaim(limit, ids, tokens, now, lease)))
    case Pick(id, token, now, lease) => s.(book := Apply(s.book, OpPick(id, token, now, lease)))
    case SetAside(c, now) => s.(book := Apply(s.book, OpSettle(c, CORRUPT, now)))
    case Host(op) => if op.OpSettle? then s else s.(book := Apply(s.book, op))
    case Start(d, i) =>
      if i < |s.book.issued| && d !in s.inflight then s.(inflight := s.inflight[d := Delivery(s.book.issued[i], None)]) else s
    case Publish(d, o) =>
      if d in s.inflight && s.inflight[d].outcome.None?
      then s.(inflight := s.inflight[d := s.inflight[d].(outcome := Some(o))], log := s.log + [(s.inflight[d].claim, o)]) else s
    case Write(d, decision, now, lost) =>
      if d in s.inflight && s.inflight[d].outcome.Some? then
        var x := SettlementFor(s.inflight[d].outcome.value, decision);
        s.(inflight := s.inflight - {d},
           book := if x.Some? && !lost then Apply(s.book, OpSettle(s.inflight[d].claim, x.value, now)) else s.book)
      else s
    case Crash(d) => s.(inflight := s.inflight - {d})
  }

  function Run(s: Sys, evs: seq<Event>): Sys
    decreases |evs|
  {
    if evs == [] then s else Run(Next(s, evs[0]), evs[1..])
  }

  function Init(): Sys { Sys(Empty(), map[], []) }

  // ---- Invariant -----------------------------------------------------------------------

  predicate DeliveryOk(s: Sys, d: Delivery) {
    d.claim in s.book.issued && (d.outcome.Some? ==> (d.claim, d.outcome.value) in s.log)
  }

  /** A settlement sets a corrupt document aside, or follows a publish of the same claim
      with the matching outcome. */
  predicate SettledByPublish(s: Sys, x: (Claim, Settlement)) {
    x.1 == CORRUPT ||
    (&& x.0 in s.book.issued
     && (if x.1 == Confirm then (x.0, PublishConfirmed) in s.log
         else (x.0, PublishUnknown) in s.log || (x.0, PublishRejected) in s.log))
  }

  predicate ConfirmedBy(b: Book, id: nat, c: Claim) {
    id in b.rows && (c, Confirm) in b.settled && c.id == id && c.version + 1 == b.rows[id].version
  }

  ghost predicate PublishedOk(b: Book, id: nat) {
    id in b.rows && b.rows[id].state == Published ==> exists c :: ConfirmedBy(b, id, c)
  }

  ghost predicate SysInv(s: Sys) {
    && OutboxSafety.Inv(s.book)
    && (forall d :: d in s.inflight ==> DeliveryOk(s, s.inflight[d]))
    && (forall i :: 0 <= i < |s.book.settled| ==> SettledByPublish(s, s.book.settled[i]))
    && (forall id :: PublishedOk(s.book, id))
  }

  /** Issued claims and settlements are only ever added. */
  lemma BookGrows(b: Book, op: Op)
    ensures b.issued <= Apply(b, op).issued && b.settled <= Apply(b, op).settled
    ensures !op.OpSettle? ==> Apply(b, op).settled == b.settled
  {
    hide Append, Requeue, Settle, ClaimTable, Claims, Selected;
  }

  /** A published row is published by a confirming settlement and stays put until a requeue. */
  lemma PublishedFrom(b: Book, op: Op, id: nat)
    requires id in Apply(b, op).rows && Apply(b, op).rows[id].state == Published
    ensures (id in b.rows && b.rows[id].state == Published && b.rows[id].version == Apply(b, op).rows[id].version)
         || (op.OpSettle? && op.s == Confirm && op.c.id == id && Apply(b, op).settled == b.settled + [(op.c, op.s)]
             && op.c.version + 1 == Apply(b, op).rows[id].version)
  {
    hide Intact, Claims, ValidMessage;
  }

  lemma PublishedStep(b: Book, op: Op)
    requires forall id :: PublishedOk(b, id)
    ensures forall id :: PublishedOk(Apply(b, op), id)
  {
    hide Apply;
    var b' := Apply(b, op);
    BookGrows(b, op);
    forall id | id in b'.rows && b'.rows[id].state == Published ensures exists c :: ConfirmedBy(b', id, c) {
      PublishedFrom(b, op, id);
      if op.OpSettle? && op.s == Confirm && op.c.id == id && b'.settled == b.settled + [(op.c, op.s)]
         && op.c.version + 1 == b'.rows[id].version {
        assert ConfirmedBy(b', id, op.c);
      } else {
        assert PublishedOk(b, id);
        var c :| ConfirmedBy(b, id, c);
        assert ConfirmedBy(b', id, c);
      }
    }
  }

  /** Growing books and logs keep what was already justified. */
  lemma Monotone(s: Sys, s': Sys)
    requires s.book.issued <= s'.book.issued && s.log <= s'.log
    ensures forall d :: DeliveryOk(s, d) ==> DeliveryOk(s', d)
    ensures forall x :: SettledByPublish(s, x) ==> SettledByPublish(s', x)
  {
    assert forall c :: c in s.book.issued ==> c in s'.book.issued;
    assert forall c :: c in s.log ==> c in s'.log;
  }

  lemma HostStep(s: Sys, op: Op)
    requires SysInv(s) && !op.OpSettle?
    ensures SysInv(s.(book := Apply(s.book, op)))
  {
    hide OutboxSafety.Inv, Apply, PublishedOk, DeliveryOk, SettledByPublish;
    var s' := s.(book := Apply(s.book, op));
    ApplyKeeps(s.book, op);
    BookGrows(s.book, op);
    PublishedStep(s.book, op);
    Monotone(s, s');
  }

  lemma WriteStep(s: Sys, d: nat, decision: RetryDecision, now: int)
    requires SysInv(s) && d in s.inflight && s.inflight[d].outcome.Some? && SettlementFor(s.inflight[d].outcome.value, decision).Some?
    ensures SysInv(Next(s, Write(d, decision, now, false)))
  {
    hide OutboxSafety.Inv, Apply, PublishedOk;
    var s' := Next(s, Write(d, decision, now, false));
    var c := s.inflight[d].claim;
    var x := SettlementFor(s.inflight[d].outcome.value, decision).value;
    var op := OpSettle(c, x, now);
    ApplyKeeps(s.book, op);
    BookGrows(s.book, op);
    PublishedStep(s.book, op);
    Monotone(s, s');
    SettleLogs(s.book, c, x, now);
    assert DeliveryOk(s, s.inflight[d]);
    forall i | 0 <= i < |s'.book.settled| ensures SettledByPublish(s', s'.book.settled[i]) {
      if i < |s.book.settled| {
        assert SettledByPublish(s, s.book.settled[i]);
      } else {
        assert s'.book.settled[i] == (c, x);
      }
    }
  }

  lemma SetAsideStep(s: Sys, c: Claim, now: int)
    requires SysInv(s)
    ensures SysInv(Next(s, SetAside(c, now)))
  {
    hide OutboxSafety.Inv, Apply, PublishedOk, DeliveryOk;
    var s' := Next(s, SetAside(c, now));
    var op := OpSettle(c, CORRUPT, now);
    ApplyKeeps(s.book, op);
    BookGrows(s.book, op);
    PublishedStep(s.book, op);
    Monotone(s, s');
    SettleLogs(s.book, c, CORRUPT, now);
    forall i | 0 <= i < |s'.book.settled| ensures SettledByPublish(s', s'.book.settled[i]) {
      if i < |s.book.settled| { assert SettledByPublish(s, s.book.settled[i]); }
    }
  }

  lemma SettleLogs(b: Book, c: Claim, x: Settlement, now: int)
    ensures var b' := Apply(b, OpSettle(c, x, now));
      b'.issued == b.issued && (b'.settled == b.settled || b'.settled == b.settled + [(c, x)])
  {
  }

  lemma QuietStep(s: Sys, ev: Event)
    requires SysInv(s) && (ev.Start? || ev.Publish? || ev.Crash? || ev.Write?) && Next(s, ev).book == s.book
    ensures SysInv(Next(s, ev))
  {
    hide OutboxSafety.Inv, Apply, PublishedOk;
    var s' := Next(s, ev);
    Monotone(s, s');
    forall d | d in s'.inflight ensures DeliveryOk(s', s'.inflight[d]) {
      if d in s.inflight { assert DeliveryOk(s, s.inflight[d]); }
    }
    forall i | 0 <= i < |s'.book.settled| ensures SettledByPublish(s', s'.book.settled[i]) {
      assert SettledByPublish(s, s.book.settled[i]);
    }
  }

  lemma NextKeeps(s: Sys, ev: Event)
    requires SysInv(s)
    ensures SysInv(Next(s, ev))
  {
    hide SysInv, Apply;
    match ev
    case Scan(limit, ids, tokens, now, lease) => HostStep(s, OpClaim(limit, ids, tokens, now, lease));
    case Pick(id, token, now, lease) => HostStep(s, OpPick(id, token, now, lease));
    case SetAside(c, now) => SetAsideStep(s, c, now);
    case Host(op) => if !op.OpSettle? { HostStep(s, op); }
    case Write(d, decision, now, lost) =>
      if d in s.inflight && s.inflight[d].outcome.Some? && SettlementFor(s.inflight[d].outcome.value, decision).Some? && !lost {
        WriteStep(s, d, decision, now);
      } else {
        QuietStep(s, ev);
      }
    case _ => QuietStep(s, ev);
  }

  lemma {:induction false} RunKeeps(s: Sys, evs: seq<Event>)
    requires SysInv(s)
    ensures SysInv(Run(s, evs))
    decreases |evs|
  {
    hide SysInv, Next;
    if evs != [] {
      NextKeeps(s, evs[0]);
      RunKeeps(Next(s, evs[0]), evs[1..]);
    }
  }

  lemma InitInv()
    ensures SysInv(Init())
  {
  }

  /** A row is published only because a publish of its original message returned
      Confirmed under the very claim whose settlement is the row's last change. */
  lemma NoFalsePublish(evs: seq<Event>, id: nat)
    requires var s := Run(Init(), evs); id in s.book.rows && s.book.rows[id].state == Published
    ensures var s := Run(Init(), evs);
      exists c :: (c, PublishConfirmed) in s.log && ConfirmedBy(s.book, id, c) && Fingerprint(c.message) == s.book.rows[id].fingerprint
  {
    hide Run, RowOk;
    InitInv();
    RunKeeps(Init(), evs);
    var s := Run(Init(), evs);
    assert PublishedOk(s.book, id);
    var c :| ConfirmedBy(s.book, id, c);
    var i :| 0 <= i < |s.book.settled| && s.book.settled[i] == (c, Confirm);
    assert SettledByPublish(s, s.book.settled[i]);
    var k :| 0 <= k < |s.book.issued| && s.book.issued[k] == c;
    assert ClaimOk(s.book.rows, s.book.issued[k]);
  }

  lemma NextGrows(s: Sys, ev: Event)
    requires OutboxSafety.Inv(s.book)
    ensures Grows(s.book.rows, Next(s, ev).book.rows)
  {
    hide OutboxSafety.Inv, Apply, Grows;
    GrowsRefl(s.book.rows);
    match ev
    case Scan(limit, ids, tokens, now, lease) => ApplyKeeps(s.book, OpClaim(limit, ids, tokens, now, lease));
    case Pick(id, token, now, lease) => ApplyKeeps(s.book, OpPick(id, token, now, lease));
    case SetAside(c, now) => ApplyKeeps(s.book, OpSettle(c, CORRUPT, now));
    case Host(op) => ApplyKeeps(s.book, op);
    case Write(d, decision, now, lost) =>
      if d in s.inflight && s.inflight[d].outcome.Some? {
        var x := SettlementFor(s.inflight[d].outcome.value, decision);
        if x.Some? { ApplyKeeps(s.book, OpSettle(s.inflight[d].claim, x.value, now)); }
      }
    case _ =>
  }

  lemma {:induction false} RunGrows(s: Sys, evs: seq<Event>)
    requires SysInv(s)
    ensures Grows(s.book.rows, Run(s, evs).book.rows)
    decreases |evs|
  {
    hide OutboxSafety.Inv, Next, Grows, PublishedOk, DeliveryOk, SettledByPublish;
    GrowsRefl(s.book.rows);
    if evs != [] {
      NextGrows(s, evs[0]);
      NextKeeps(s, evs[0]);
      RunGrows(Next(s, evs[0]), evs[1..]);
      GrowsTrans(s.book.rows, Next(s, evs[0]).book.rows, Run(s, evs).book.rows);
    }
  }

  lemma {:induction false} RunConcat(s: Sys, evs: seq<Event>, more: seq<Event>)
    ensures Run(s, evs + more) == Run(Run(s, evs), more)
    decreases |evs|
  {
    hide Next;
    if evs == [] {
      assert evs + more == more;
    } else {
      assert (evs + more)[1..] == evs[1..] + more;
      RunConcat(Next(s, evs[0]), evs[1..], more);
    }
  }

  /** Nothing appended is lost, and nothing else is published in its place: in every
      continuation of a run that accepted a message, its row is there; it is
      quarantined, or due at its next attempt time and then found by every scan, or
      published, and then a publish of this very message returned Confirmed under the
      claim that settled the row. */
  lemma NothingLost(evs: seq<Event>, id: nat, m: Message, due: int, more: seq<Event>, now: int)
    requires id !in Run(Init(), evs).book.rows && id in Next(Run(Init(), evs), Host(OpAppend(id, m, due))).book.rows
    ensures var s := Run(Init(), evs + [Host(OpAppend(id, m, due))] + more);
      && id in s.book.rows
      && (|| s.book.rows[id].state == Quarantined
          || (s.book.rows[id].state != Published && (Eligible(s.book.rows[id], now) <==> s.book.rows[id].nextAttempt <= now))
          || (s.book.rows[id].state == Published && exists c :: (c, PublishConfirmed) in s.log && ConfirmedBy(s.book, id, c) && c.message == m))
  {
    hide Run;
    InitInv();
    var app := Host(OpAppend(id, m, due));
    var s0, s := Run(Init(), evs), Run(Init(), evs + [app] + more);
    RunKeeps(Init(), evs);
    RunKeeps(Init(), evs + [app] + more);
    RunConcat(Init(), evs, [app]);
    RunConcat(Init(), evs + [app], more);
    RunOne(s0, app);
    NextKeeps(s0, app);
    RunGrows(Next(s0, app), more);
    Appended(s0, id, m, due);
    hide Next, OutboxSafety.Inv, PublishedOk, DeliveryOk, SettledByPublish, ValidMessage;
    assert RowGrows(Next(s0, app).book.rows[id], s.book.rows[id]);
    RowDue(s.book, id, now);
    if s.book.rows[id].state == Published {
      NoFalsePublish(evs + [app] + more, id);
    }
  }

  lemma Appended(s: Sys, id: nat, m: Message, due: int)
    requires id !in s.book.rows && id in Next(s, Host(OpAppend(id, m, due))).book.rows
    ensures Next(s, Host(OpAppend(id, m, due))).book.rows[id].fingerprint == Fingerprint(m)
  {
  }

  lemma RowDue(b: Book, id: nat, now: int)
    requires OutboxSafety.Inv(b) && id in b.rows
    ensures b.rows[id].state == Published || b.rows[id].state == Quarantined || (Eligible(b.rows[id], now) <==> b.rows[id].nextAttempt <= now)
  {
    hide ClaimOk;
    assert RowOk(b.rows[id]);
  }

  lemma RunOne(s: Sys, ev: Event)
    ensures Run(s, [ev]) == Next(s, ev)
  {
    hide Next;
    assert [ev][1..] == [];
    assert Run(Next(s, ev), []) == Next(s, ev);
  }

  // ---- What a publish leaves behind ------------------------------------------------------

  /** A delivery's write settles its row as the publish came out: confirmed once and for
      all; set aside if the policy says so; or due again exactly from the policy's delay
      on. A write that is lost, stale or without a usable policy changes nothing, and a
      row still held is due again exactly from the end of its lease. */
  lemma PublishLeavesDue(evs: seq<Event>, d: nat, decision: RetryDecision, now: int, lost: bool, t: int)
    requires d in Run(Init(), evs).inflight && Run(Init(), evs).inflight[d].outcome.Some?
    ensures var s := Run(Init(), evs); var s' := Next(s, Write(d, decision, now, lost));
      var c, o := s.inflight[d].claim, s.inflight[d].outcome.value;
      var written := !lost && Holds(s.book.rows, c, now) && (o == PublishConfirmed || decision.quarantine || decision.delayNanos > 0);
      && c.id in s.book.rows && d !in s'.inflight
      && (!written ==> s'.book.rows == s.book.rows)
      && (Holds(s.book.rows, c, now) && !written ==> (Eligible(s'.book.rows[c.id], t) <==> c.leaseUntil <= t))
      && (written ==> OnlyRow(s.book.rows, s'.book.rows, c.id) && LeftBy(s.book.rows[c.id], s'.book.rows[c.id], o, decision, now, t))
  {
    hide Run, Settle, LeftBy, SysInv, Holds, OnlyRow;
    InitInv();
    RunKeeps(Init(), evs);
    var s := Run(Init(), evs);
    var c, o := s.inflight[d].claim, s.inflight[d].outcome.value;
    InflightClaim(s, d, now, t);
    WriteSettles(s.book.rows, c, o, decision, now, t);
  }

  lemma InflightClaim(s: Sys, d: nat, now: int, t: int)
    requires SysInv(s) && d in s.inflight
    ensures var c := s.inflight[d].claim;
      && c.id in s.book.rows && c.version != 0
      && (Holds(s.book.rows, c, now) ==> (Eligible(s.book.rows[c.id], t) <==> c.leaseUntil <= t))
  {
    hide PublishedOk, SettledByPublish;
    var c := s.inflight[d].claim;
    assert DeliveryOk(s, s.inflight[d]);
    var i :| 0 <= i < |s.book.issued| && s.book.issued[i] == c;
    assert ClaimOk(s.book.rows, s.book.issued[i]);
  }

  lemma WriteSettles(rows: Table, c: Claim, o: PublishOutcome, decision: RetryDecision, now: int, t: int)
    requires c.id in rows
    ensures var x := SettlementFor(o, decision);
      && (x.None? <==> o != PublishConfirmed && !decision.quarantine && decision.delayNanos <= 0)
      && (x.Some? ==>
            var y := Settle(rows, c, x.value, now);
            && (y.1 == Done <==> Holds(rows, c, now)) && (y.1 != Done ==> y.0 == rows)
            && (y.1 == Done ==> OnlyRow(rows, y.0, c.id) && LeftBy(rows[c.id], y.0[c.id], o, decision, now, t)))
  {
    hide Settle, Holds;
    if SettlementFor(o, decision).Some? { SettleExactly(rows, c, SettlementFor(o, decision).value, now); }
  }

  predicate LeftBy(r: Row, r': Row, o: PublishOutcome, decision: RetryDecision, now: int, t: int) {
    var code := if o == PublishRejected then "publish_rejected" else "publish_unknown";
    if o == PublishConfirmed then ConfirmedAs(r, r', now) && !Eligible(r', t)
    else if decision.quarantine then QuarantinedAs(r, r', code) && !Eligible(r', t)
    else RetriedAs(r, r', decision.delayNanos, code, now) && (Eligible(r', t) <==> decision.delayNanos <= 1000 * (t - now))
  }
}
