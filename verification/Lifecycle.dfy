/** Start, admission, recovery checks and shutdown of the transactional sender.
    Each section under the mutex, channel operation or wait that is satisfied is
    one event; Start, Close, sends, check workers, the maintenance loop and broker
    callbacks interleave freely. A worker counts a check as running only after it
    has taken it, so admission may read any smaller count. */
module Lifecycle {

  /** A Start call: validating the store, creating and starting the backend, about
      to publish the outcome, and giving up after it failed or was overtaken. */
  datatype Starter = NoStart | Validating | Creating | BackendStarting | Finishing(ok: bool) | GivingUp

  /** The closing goroutine; startSeen tells which start channel it read. */
  datatype Closer =
    | NotClosing | Spawned | AwaitStart(startSeen: bool) | AwaitSends | AwaitMaintenance | AwaitChecks | ClosingBackend | BackendClosed | Finished

  datatype Limits = Limits(checkWorkers: nat, checkQueue: nat)

  datatype Sys = Sys(
    limits: Limits, everStarted: bool, started: bool, stopping: bool, healthy: bool, stopped: bool,
    checksClosing: bool,
    startDone: bool, starter: Starter, closer: Closer,
    sends: nat, maintaining: bool, maintStop: bool,
    backend: bool, backendCloses: nat, pool: Pool)

  /** The check workers and their channel. */
  datatype Pool = Pool(spawned: bool, workers: nat, busy: nat, queued: nat, channelCloses: nat, sentOnClosed: bool)

  datatype Event = Starting(start: StartEvent) | Closing(close: CloseEvent) | Working(work: WorkEvent)

  datatype StartEvent = Start | Validated(ok: bool) | BackendMade(ok: bool) | BackendStarted(ok: bool) | StartEnds | StartGivesUp

  datatype CloseEvent =
    | StopAdmission | Close | CloserReads | StartDone | SendsDone | MaintenanceExits | MaintenanceDone | ChecksDone | CloseBackend | CloserEnds

  datatype WorkEvent = Admit(counted: nat) | SendDone | Health(ok: bool) | Check(step: CheckEvent)

  datatype CheckEvent = Dispatch | WorkerTakes | WorkerDone | WorkerExits

  function New(limits: Limits): Sys {
    Sys(limits, false, false, false, false, false, false, true, NoStart, NotClosing, 0, false, false, false, 0, Pool(false, 0, 0, 0, 0, false))
  }

  /** Close and a failing Start both stop admission, then spawn the closer once. */
  function BeginClose(s: Sys): Sys {
    s.(stopping := true, closer := if s.closer == NotClosing then Spawned else s.closer)
  }

  function Next(s: Sys, ev: Event): Sys {
    match ev
    case Starting(e) => StartNext(s, e)
    case Closing(e) => CloseNext(s, e)
    case Working(e) => WorkNext(s, e)
  }

  function StartNext(s: Sys, ev: StartEvent): Sys {
    match ev
    case Start => if s.everStarted || s.stopping then s else s.(everStarted := true, startDone := false, starter := Validating)
    case Validated(ok) =>
      if s.starter != Validating then s
      else if ok then s.(starter := Creating, pool := s.pool.(spawned := true, workers := s.limits.checkWorkers)) else s.(starter := Finishing(false))
    case BackendMade(ok) =>
      if s.starter != Creating then s else if ok then s.(starter := BackendStarting, backend := true) else s.(starter := Finishing(false))
    case BackendStarted(ok) => if s.starter != BackendStarting then s else s.(starter := Finishing(ok))
    case StartEnds =>
      if !s.starter.Finishing? then s
      else s.(started := s.starter.ok, healthy := s.starter.ok, startDone := true,
              maintaining := s.starter.ok && !s.stopping,
              starter := if s.starter.ok && !s.stopping then NoStart else GivingUp)
    case StartGivesUp => if s.starter != GivingUp then s else BeginClose(s).(starter := NoStart)
  }

  function CloseNext(s: Sys, ev: CloseEvent): Sys {
    match ev
    case StopAdmission => s.(stopping := true)
    case Close => BeginClose(s)
    case CloserReads => if s.closer != Spawned then s else s.(closer := AwaitStart(s.everStarted))
    case StartDone => if s.closer.AwaitStart? && (!s.closer.startSeen || s.startDone) then s.(closer := AwaitSends) else s
    case SendsDone => if s.closer == AwaitSends && s.sends == 0 then s.(closer := AwaitMaintenance, maintStop := true) else s
    case MaintenanceExits => if s.maintaining && s.maintStop then s.(maintaining := false) else s
    case MaintenanceDone =>
      if s.closer == AwaitMaintenance && !s.maintaining
      then s.(closer := AwaitChecks, checksClosing := true, pool := s.pool.(channelCloses := s.pool.channelCloses + 1)) else s
    case ChecksDone => if s.closer == AwaitChecks && s.pool.workers == 0 then s.(closer := ClosingBackend) else s
    case CloseBackend =>
      if s.closer == ClosingBackend
      then s.(closer := BackendClosed, backendCloses := if s.backend then s.backendCloses + 1 else s.backendCloses) else s
    case CloserEnds => if s.closer == BackendClosed then s.(closer := Finished, stopped := true, started := false) else s
  }

  function WorkNext(s: Sys, ev: WorkEvent): Sys {
    match ev
    case Admit(counted) =>
      if s.started && !s.stopping && s.healthy && counted <= s.pool.busy && counted + s.pool.queued < s.limits.checkWorkers + s.limits.checkQueue
      then s.(sends := s.sends + 1) else s
    case SendDone => if s.sends > 0 then s.(sends := s.sends - 1) else s
    case Health(ok) => s.(healthy := ok)
    case Check(e) => s.(pool := CheckNext(s.pool, s.limits, s.checksClosing, e))
  }

  /** A broker callback or a worker moves; a send on the closed channel would panic. */
  function CheckNext(p: Pool, limits: Limits, closing: bool, ev: CheckEvent): Pool {
    match ev
    case Dispatch =>
      if !p.spawned || closing then p
      else if p.queued < limits.checkQueue then p.(queued := p.queued + 1, sentOnClosed := p.sentOnClosed || p.channelCloses > 0)
      else if limits.checkQueue == 0 && p.busy < p.workers then p.(busy := p.busy + 1, sentOnClosed := p.sentOnClosed || p.channelCloses > 0)
      else p
    case WorkerTakes => if p.queued > 0 && p.busy < p.workers then p.(queued := p.queued - 1, busy := p.busy + 1) else p
    case WorkerDone => if p.busy > 0 then p.(busy := p.busy - 1) else p
    case WorkerExits =>
      if p.channelCloses > 0 && p.queued == 0 && p.busy < p.workers then p.(workers := p.workers - 1) else p
  }

  function Run(s: Sys, evs: seq<Event>): Sys
    decreases |evs|
  {
    if evs == [] then s else Run(Next(s, evs[0]), evs[1..])
  }

  // ---- Invariant --------------------------------------------------------------------------

  function Rank(c: Closer): nat {
    match c
    case NotClosing => 0 case Spawned => 1 case AwaitStart(_) => 2 case AwaitSends => 3 case AwaitMaintenance => 4
    case AwaitChecks => 5 case ClosingBackend => 6 case BackendClosed => 7 case Finished => 8
  }

  /** Start runs once; its channel opens with it and closes when it has published. */
  predicate StartOk(s: Sys) {
    && (!s.everStarted ==> s.starter == NoStart && !s.started && !s.pool.spawned && !s.backend && !s.maintaining)
    && (s.startDone <==> s.starter == NoStart || s.starter == GivingUp)
    && (s.starter == Validating ==> !s.pool.spawned && !s.backend)
    && (s.starter == Creating ==> s.pool.spawned && !s.backend)
    && (!s.startDone ==> !s.started && !s.maintaining)
    && (s.backend ==> s.pool.spawned)
  }

  /** The closer moves in order, and what it waited for stays over. */
  predicate CloserOk(s: Sys) {
    && (Rank(s.closer) > 0 ==> s.stopping)
    && (s.closer.AwaitStart? ==> s.closer.startSeen == s.everStarted)
    && (Rank(s.closer) >= 3 ==> s.startDone)
    && (Rank(s.closer) >= 4 ==> s.sends == 0)
    && (s.maintStop <==> Rank(s.closer) >= 4)
    && (Rank(s.closer) >= 5 ==> !s.maintaining)
    && (s.checksClosing <==> Rank(s.closer) >= 5)
    && s.pool.channelCloses == (if Rank(s.closer) >= 5 then 1 else 0)
    && (Rank(s.closer) >= 6 ==> s.pool.workers == 0)
    && s.backendCloses == (if Rank(s.closer) >= 7 && s.backend then 1 else 0)
    && (s.stopped <==> Rank(s.closer) >= 8)
  }

  predicate ChecksOk(p: Pool, limits: Limits) {
    && limits.checkWorkers > 0
    && p.busy <= p.workers && (!p.spawned ==> p.workers == 0 && p.queued == 0)
    && (p.spawned && p.workers < limits.checkWorkers ==> p.channelCloses > 0 && p.queued == 0)
    && !p.sentOnClosed
  }

  predicate Inv(s: Sys) { StartOk(s) && CloserOk(s) && ChecksOk(s.pool, s.limits) }

  lemma StartKeepsStart(s: Sys, ev: StartEvent)
    requires Inv(s)
    ensures StartOk(StartNext(s, ev))
  {
    hide ChecksOk;
  }

  lemma StartKeepsCloser(s: Sys, ev: StartEvent)
    requires Inv(s)
    ensures CloserOk(StartNext(s, ev))
  {
    hide ChecksOk;
  }

  lemma StartKeepsChecks(s: Sys, ev: StartEvent)
    requires Inv(s)
    ensures ChecksOk(StartNext(s, ev).pool, StartNext(s, ev).limits)
  {
  }

  lemma StartFrame(s: Sys, ev: StartEvent)
    requires Inv(s)
    ensures s.backend ==> StartNext(s, ev).backend
    ensures s.stopping ==> StartNext(s, ev).stopping && StartNext(s, ev).sends <= s.sends
  {
  }

  lemma StartKeeps(s: Sys, ev: StartEvent)
    requires Inv(s)
    ensures Inv(StartNext(s, ev)) && (s.backend ==> StartNext(s, ev).backend)
    ensures s.stopping ==> StartNext(s, ev).stopping && StartNext(s, ev).sends <= s.sends
  {
    hide StartNext, StartOk, CloserOk, ChecksOk;
    StartKeepsStart(s, ev);
    StartKeepsCloser(s, ev);
    StartKeepsChecks(s, ev);
    StartFrame(s, ev);
  }

  lemma CloseKeepsStart(s: Sys, ev: CloseEvent)
    requires Inv(s)
    ensures StartOk(CloseNext(s, ev))
  {
    hide ChecksOk;
  }

  lemma CloseKeepsCloser(s: Sys, ev: CloseEvent)
    requires Inv(s)
    ensures CloserOk(CloseNext(s, ev))
  {
    hide ChecksOk;
  }

  lemma CloseKeepsChecks(s: Sys, ev: CloseEvent)
    requires Inv(s)
    ensures ChecksOk(CloseNext(s, ev).pool, CloseNext(s, ev).limits)
  {
  }

  lemma CloseFrame(s: Sys, ev: CloseEvent)
    requires Inv(s)
    ensures s.backend ==> CloseNext(s, ev).backend
    ensures s.stopping ==> CloseNext(s, ev).stopping && CloseNext(s, ev).sends <= s.sends
    ensures s.backendCloses == 1 ==> CloseNext(s, ev).backendCloses == 1
  {
  }

  lemma CloseKeeps(s: Sys, ev: CloseEvent)
    requires Inv(s)
    ensures Inv(CloseNext(s, ev)) && (s.backend ==> CloseNext(s, ev).backend)
    ensures s.stopping ==> CloseNext(s, ev).stopping && CloseNext(s, ev).sends <= s.sends
    ensures s.backendCloses == 1 ==> CloseNext(s, ev).backendCloses == 1
  {
    hide CloseNext, StartOk, CloserOk, ChecksOk;
    CloseKeepsStart(s, ev);
    CloseKeepsCloser(s, ev);
    CloseKeepsChecks(s, ev);
    CloseFrame(s, ev);
  }

  lemma WorkKeepsStart(s: Sys, ev: WorkEvent)
    requires Inv(s)
    ensures StartOk(WorkNext(s, ev))
  {
    hide ChecksOk;
  }

  lemma WorkKeepsCloser(s: Sys, ev: WorkEvent)
    requires Inv(s)
    ensures CloserOk(WorkNext(s, ev))
  {
    hide ChecksOk;
  }

  lemma WorkKeepsChecks(s: Sys, ev: WorkEvent)
    requires Inv(s)
    ensures ChecksOk(WorkNext(s, ev).pool, WorkNext(s, ev).limits)
  {
  }

  lemma WorkFrame(s: Sys, ev: WorkEvent)
    requires Inv(s)
    ensures s.backend ==> WorkNext(s, ev).backend
    ensures s.stopping ==> WorkNext(s, ev).stopping && WorkNext(s, ev).sends <= s.sends
  {
  }

  lemma WorkKeeps(s: Sys, ev: WorkEvent)
    requires Inv(s)
    ensures Inv(WorkNext(s, ev)) && (s.backend ==> WorkNext(s, ev).backend)
    ensures s.stopping ==> WorkNext(s, ev).stopping && WorkNext(s, ev).sends <= s.sends
  {
    hide WorkNext, StartOk, CloserOk, ChecksOk;
    WorkKeepsStart(s, ev);
    WorkKeepsCloser(s, ev);
    WorkKeepsChecks(s, ev);
    WorkFrame(s, ev);
  }

  lemma NextKeeps(s: Sys, ev: Event)
    requires Inv(s)
    ensures Inv(Next(s, ev)) && (s.backend ==> Next(s, ev).backend)
    ensures s.stopping ==> Next(s, ev).stopping && Next(s, ev).sends <= s.sends
    ensures s.backendCloses == 1 ==> Next(s, ev).backendCloses == 1
  {
    match ev
    case Starting(e) => StartKeeps(s, e);
    case Closing(e) => hide CloseNext, Inv; CloseKeeps(s, e);
    case Working(e) => WorkKeeps(s, e);
  }

  lemma {:induction false} RunKeeps(s: Sys, evs: seq<Event>)
    requires Inv(s)
    ensures Inv(Run(s, evs))
    decreases |evs|
  {
    hide Inv, Next;
    if evs != [] {
      NextKeeps(s, evs[0]);
      RunKeeps(Next(s, evs[0]), evs[1..]);
    }
  }

  /** In every run, also when Close races Start: the backend is closed at most once,
      and then admission has stopped, Start is over, and all admitted sends, the
      maintenance loop and all queued and running checks have finished; no check is
      ever sent on the closed channel. */
  lemma ShutdownOrder(limits: Limits, evs: seq<Event>)
    requires limits.checkWorkers > 0
    ensures var s := Run(New(limits), evs);
      && !s.pool.sentOnClosed && s.pool.channelCloses <= 1 && s.backendCloses <= 1
      && (s.backendCloses == 1 || s.stopped ==>
            s.stopping && s.startDone && s.sends == 0 && !s.maintaining && s.pool.queued == 0 && s.pool.busy == 0 && s.pool.workers == 0)
      && (s.stopped && s.backend ==> s.backendCloses == 1)
  {
    hide Run;
    RunKeeps(New(limits), evs);
  }

  /** Once admission has stopped, in whatever reachable state, it stays stopped and
      nothing more is admitted. */
  lemma NothingAdmittedAfterStop(limits: Limits, evs: seq<Event>, more: seq<Event>)
    requires limits.checkWorkers > 0 && Run(New(limits), evs).stopping
    ensures var s := Run(New(limits), evs); Run(s, more).stopping && Run(s, more).sends <= s.sends
  {
    hide Run;
    RunKeeps(New(limits), evs);
    StoppedRun(Run(New(limits), evs), more);
  }

  lemma {:induction false} StoppedRun(s: Sys, evs: seq<Event>)
    requires Inv(s) && s.stopping
    ensures Run(s, evs).stopping && Run(s, evs).sends <= s.sends
    decreases |evs|
  {
    hide Inv, Next;
    if evs != [] {
      NextKeeps(s, evs[0]);
      StoppedRun(Next(s, evs[0]), evs[1..]);
    }
  }

  /** Once the backend is closed it stays so: no further run revives anything. */
  lemma ClosedIsFinal(limits: Limits, evs: seq<Event>, more: seq<Event>)
    requires limits.checkWorkers > 0 && Run(New(limits), evs).backendCloses == 1
    ensures var s := Run(Run(New(limits), evs), more); s.backendCloses == 1 && s.sends == 0 && s.pool.busy == 0 && s.pool.queued == 0 && !s.maintaining
  {
    hide Run;
    RunKeeps(New(limits), evs);
    FinalRun(Run(New(limits), evs), more);
  }

  lemma {:induction false} FinalRun(s: Sys, evs: seq<Event>)
    requires Inv(s) && s.backendCloses == 1
    ensures var t := Run(s, evs); t.backendCloses == 1 && t.sends == 0 && t.pool.busy == 0 && t.pool.queued == 0 && !t.maintaining
    decreases |evs|
  {
    if evs != [] {
      NextKeeps(s, evs[0]);
      hide Next;
      FinalRun(Next(s, evs[0]), evs[1..]);
    }
  }

  // ---- Progress ---------------------------------------------------------------------------

  /** The step a pending shutdown waits for, once Start and all sends are over. */
  function Pending(s: Sys): Event
    requires 0 < Rank(s.closer) < 8
  {
    match s.closer
    case Spawned => Closing(CloserReads)
    case AwaitStart(_) => Closing(StartDone)
    case AwaitSends => Closing(SendsDone)
    case AwaitMaintenance => Closing(if s.maintaining then MaintenanceExits else MaintenanceDone)
    case AwaitChecks =>
      if s.pool.workers == 0 then Closing(ChecksDone)
      else Working(Check(if s.pool.busy > 0 then WorkerDone else if s.pool.queued > 0 then WorkerTakes else WorkerExits))
    case ClosingBackend => Closing(CloseBackend)
    case BackendClosed => Closing(CloserEnds)
  }

  predicate Quiet(s: Sys) { Inv(s) && Rank(s.closer) > 0 && s.startDone && s.sends == 0 }

  function Load(p: Pool): nat { 3 * p.queued + 2 * p.busy + p.workers }

  /** The shutdown is past a phase, or nearer to its end. */
  predicate Nearer(s: Sys, t: Sys) {
    || Rank(t.closer) > Rank(s.closer)
    || (t.closer == s.closer && s.maintaining && !t.maintaining)
    || (t.closer == s.closer && s.maintaining == t.maintaining && Load(t.pool) < Load(s.pool))
  }

  lemma CloserMoves(s: Sys)
    requires Quiet(s) && Rank(s.closer) < 8 && Pending(s).Closing?
    ensures Quiet(CloseNext(s, Pending(s).close)) && Nearer(s, CloseNext(s, Pending(s).close))
  {
    CloseKeeps(s, Pending(s).close);
    hide Inv;
  }

  lemma WorkerMoves(s: Sys)
    requires Quiet(s) && Rank(s.closer) < 8 && Pending(s).Working?
    ensures Quiet(WorkNext(s, Pending(s).work)) && Nearer(s, WorkNext(s, Pending(s).work))
  {
    WorkKeeps(s, Pending(s).work);
    hide Inv;
  }

  /** Shutdown never gets stuck: from every state in which it has begun, Start has
      returned and the admitted sends are done, its own steps reach the stopped state. */
  lemma {:induction false} ShutdownCompletes(s: Sys) returns (evs: seq<Event>)
    requires Quiet(s)
    ensures Run(s, evs).stopped && (s.backend ==> Run(s, evs).backendCloses == 1)
    decreases 8 - Rank(s.closer), s.maintaining, Load(s.pool)
  {
    if Rank(s.closer) >= 8 {
      evs := [];
    } else {
      NextKeeps(s, Pending(s));
      if Pending(s).Closing? { CloserMoves(s); } else { WorkerMoves(s); }
      hide CloseNext, WorkNext, StartNext, Inv;
      var rest := ShutdownCompletes(Next(s, Pending(s)));
      evs := [Pending(s)] + rest;
      assert evs[1..] == rest;
    }
  }

  // ---- The object -------------------------------------------------------------------------

  /** The fields the mutex guards; the ghost core adds where each goroutine stands. */
  class Sender {
    const limits: Limits
    var everStarted: bool
    var started: bool
    var stopping: bool
    var healthy: bool
    var checksClosing: bool
    var sends: nat
    ghost var core: Sys

    ghost predicate Valid()
      reads this
    {
      && Inv(core) && core.limits == limits && core.everStarted == everStarted && core.started == started
      && core.stopping == stopping && core.healthy == healthy && core.checksClosing == checksClosing && core.sends == sends
    }

    constructor (limits: Limits)
      requires limits.checkWorkers > 0
      ensures Valid() && core == New(limits)
    {
      this.limits := limits;
      everStarted, started, stopping, healthy, checksClosing, sends := false, false, false, false, false, 0;
      core := New(limits);
    }

    /** The first section of Start: one call ever gets past it, none once stopping. */
    method BeginStart() returns (ok: bool)
      requires Valid()
      modifies this
      ensures Valid() && core == StartNext(old(core), Start)
      ensures ok <==> core.starter == Validating && !old(core).everStarted
    {
      StartKeeps(core, Start);
      hide Inv;
      core := StartNext(core, Start);
      if everStarted || stopping {
        return false;
      }
      everStarted := true;
      return true;
    }

    /** The last section of Start; the maintenance loop runs only if nobody has stopped
        admission meanwhile. */
    method EndStart(ok: bool) returns (maintain: bool)
      requires Valid() && core.starter == Finishing(ok)
      modifies this
      ensures Valid() && core == StartNext(old(core), StartEnds)
      ensures maintain == core.maintaining && (maintain <==> ok && !stopping)
    {
      StartKeeps(core, StartEnds);
      hide Inv;
      core := StartNext(core, StartEnds);
      started, healthy := ok, ok;
      return ok && !stopping;
    }

    method StopAdmissions()
      requires Valid()
      modifies this
      ensures Valid() && core == CloseNext(old(core), StopAdmission)
    {
      CloseKeeps(core, StopAdmission);
      hide Inv;
      core := CloseNext(core, StopAdmission);
      if !stopping {
        stopping := true;
      }
    }

    /** admit, once a slot is held. */
    method AdmitSection(counted: nat, queued: nat) returns (ready: bool)
      requires Valid() && queued == core.pool.queued && counted <= core.pool.busy
      modifies this
      ensures Valid() && core == WorkNext(old(core), Admit(counted))
      ensures ready <==> sends == old(sends) + 1
      ensures ready ==> !stopping && core.backendCloses == 0
    {
      WorkKeeps(core, Admit(counted));
      assert !stopping ==> core.backendCloses == 0;
      hide Inv;
      core := WorkNext(core, Admit(counted));
      ready := started && !stopping && healthy && counted + queued < limits.checkWorkers + limits.checkQueue;
      if !ready {
        return;
      }
      sends := sends + 1;
    }

    /** The closer's section that closes the check channel. */
    method CloseChecks()
      requires Valid() && core.closer == AwaitMaintenance && !core.maintaining
      modifies this
      ensures Valid() && core == CloseNext(old(core), MaintenanceDone) && checksClosing
    {
      CloseKeeps(core, MaintenanceDone);
      hide Inv;
      core := CloseNext(core, MaintenanceDone);
      checksClosing := true;
    }
  }
}
