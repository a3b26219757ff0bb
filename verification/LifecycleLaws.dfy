/** How a Start ends, what admission depends on, and how much checking may pile up. */
module LifecycleLaws {
  import opened Lifecycle

  predicate EndOk(s: Sys) {
    && s.pool.queued <= s.limits.checkQueue && s.pool.workers <= s.limits.checkWorkers
    && (s.stopped ==> !s.started)
    && (s.everStarted && s.starter == NoStart ==> Rank(s.closer) > 0 || (s.started && s.maintaining && s.backend))
    && (s.starter == GivingUp ==> !s.started || s.stopping)
    && (s.starter == BackendStarting || s.starter == Finishing(true) ==> s.backend)
  }

  lemma StartEnd(s: Sys, ev: StartEvent)
    requires Inv(s) && EndOk(s)
    ensures EndOk(StartNext(s, ev)) && StartNext(s, ev).limits == s.limits
  {
    hide ChecksOk;
  }

  lemma CloseEnd(s: Sys, ev: CloseEvent)
    requires Inv(s) && EndOk(s)
    ensures EndOk(CloseNext(s, ev)) && CloseNext(s, ev).limits == s.limits
  {
    hide ChecksOk;
  }

  lemma WorkEnd(s: Sys, ev: WorkEvent)
    requires Inv(s) && EndOk(s)
    ensures EndOk(WorkNext(s, ev)) && WorkNext(s, ev).limits == s.limits
  {
    hide StartOk;
  }

  lemma {:induction false} RunEnd(s: Sys, evs: seq<Event>)
    requires Inv(s) && EndOk(s)
    ensures EndOk(Run(s, evs)) && Run(s, evs).limits == s.limits
    decreases |evs|
  {
    hide Inv, EndOk, StartNext, CloseNext, WorkNext;
    if evs != [] {
      match evs[0] {
        case Starting(e) => StartEnd(s, e);
        case Closing(e) => CloseEnd(s, e);
        case Working(e) => WorkEnd(s, e);
      }
      NextKeeps(s, evs[0]);
      RunEnd(Next(s, evs[0]), evs[1..]);
    }
  }

  /** In every run: a Start that is over has either left the sender fully started, with its
      backend and its maintenance loop, or a shutdown has begun; a successful one gives up
      only because somebody stopped it. A stopped sender is not started. The check queue
      and the workers keep within their limits. */
  lemma StartEndsOneWay(limits: Limits, evs: seq<Event>)
    requires limits.checkWorkers > 0
    ensures var s := Run(New(limits), evs);
      && (s.everStarted && s.starter == NoStart && Rank(s.closer) == 0 ==> s.started && s.maintaining && s.backend)
      && (s.starter == GivingUp && s.started ==> s.stopping)
      && (s.stopped ==> !s.started)
      && s.pool.queued <= limits.checkQueue && s.pool.busy <= s.pool.workers <= limits.checkWorkers
  {
    hide Run;
    RunKeeps(New(limits), evs);
    RunEnd(New(limits), evs);
  }

  // ---- Admission ----------------------------------------------------------------------------

  /** A send is admitted exactly while the sender is started, nobody has stopped it, the
      database answers, and the checks admission counts leave room for another. */
  lemma AdmittedExactly(s: Sys, counted: nat)
    ensures var t := WorkNext(s, Admit(counted));
      && (t.sends == s.sends + 1 <==>
            s.healthy && s.started && !s.stopping && counted <= s.pool.busy
            && s.limits.checkWorkers + s.limits.checkQueue - s.pool.queued > counted)
      && t == s.(sends := t.sends) && t.sends <= s.sends + 1
  {
  }

  predicate NoRecovery(evs: seq<Event>) {
    forall i :: 0 <= i < |evs| ==> evs[i] != Working(Health(true)) && evs[i] != Starting(StartEnds)
  }

  lemma SickStart(s: Sys, ev: StartEvent)
    requires Inv(s) && !s.healthy && ev != StartEnds
    ensures !StartNext(s, ev).healthy && StartNext(s, ev).sends <= s.sends
  {
  }

  lemma SickClose(s: Sys, ev: CloseEvent)
    requires Inv(s) && !s.healthy
    ensures !CloseNext(s, ev).healthy && CloseNext(s, ev).sends <= s.sends
  {
    if ev.Close? {
    } else {
      hide BeginClose;
    }
  }

  lemma SickWork(s: Sys, ev: WorkEvent)
    requires Inv(s) && !s.healthy && ev != Health(true)
    ensures !WorkNext(s, ev).healthy && WorkNext(s, ev).sends <= s.sends
  {
  }

  lemma {:induction false} SickRun(s: Sys, evs: seq<Event>)
    requires Inv(s) && !s.healthy && NoRecovery(evs)
    ensures !Run(s, evs).healthy && Run(s, evs).sends <= s.sends
    decreases |evs|
  {
    hide Inv, StartNext, CloseNext, WorkNext;
    if evs != [] {
      match evs[0] {
        case Starting(e) => SickStart(s, e);
        case Closing(e) => SickClose(s, e);
        case Working(e) => SickWork(s, e);
      }
      NextKeeps(s, evs[0]);
      assert forall i :: 0 <= i < |evs[1..]| ==> evs[1..][i] == evs[i + 1];
      SickRun(Next(s, evs[0]), evs[1..]);
    }
  }

  /** After a database failure nothing is admitted until the database has answered again;
      then a started sender with room admits at once. */
  lemma HealthGatesAdmission(limits: Limits, evs: seq<Event>, more: seq<Event>)
    requires limits.checkWorkers > 0 && NoRecovery(more)
    ensures var s := Run(New(limits), evs); Run(Next(s, Working(Health(false))), more).sends <= s.sends
    ensures var s := Run(New(limits), evs); var well := Next(s, Working(Health(true)));
      s.started && !s.stopping && s.pool.queued < s.limits.checkWorkers + s.limits.checkQueue ==>
        Next(well, Working(Admit(0))).sends == s.sends + 1
  {
    hide Run;
    RunKeeps(New(limits), evs);
    var s := Run(New(limits), evs);
    NextKeeps(s, Working(Health(false)));
    SickRun(Next(s, Working(Health(false))), more);
  }
}
