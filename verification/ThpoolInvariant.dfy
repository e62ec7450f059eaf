/** The whole-run invariant of thpool.c. */
module ThpoolInvariant {
  import opened Runs
  import opened Counting
  import opened ThpoolProtocol

  ghost function Alive(w: Worker): int {
    if w.Starting? || w.Exited? then 0 else 1
  }

  ghost function Busy(w: Worker): int {
    if w.Pulling? || w.Reposting? || w.Running? || w.Lowering? then 1 else 0
  }

  /** The worker has a token and will pull. */
  ghost function Bound(w: Worker): int {
    if w.HasToken? || w.Raising? || w.Pulling? then 1 else 0
  }

  ghost function Sleeping(w: Worker): int {
    if w.Asleep? then 1 else 0
  }

  ghost function Has(x: Job): Worker -> int {
    w => if w == Running(x) || w == Reposting(x) then 1 else 0
  }

  ghost predicate Counters(s: State) {
    |s.workers| == s.n && s.pool.alive == Sum(Alive, s.workers) && s.pool.working == Sum(Busy, s.workers)
  }

  /** Jobs leave the queue in the order they were added. */
  ghost predicate Fifo(s: State) {
    && s.jobs.added == s.jobs.pulled + s.jobs.cleared + s.pool.queue
    && (s.owner != Cleared ==> s.jobs.cleared == [])
    && (s.owner == Cleared ==> s.pool.queue == [])
  }

  /** As often as a job was pulled, it is finished or with a worker. */
  ghost predicate Conserved(s: State, x: Job) {
    multiset(s.jobs.pulled)[x] == multiset(s.jobs.finished)[x] + Sum(Has(x), s.workers)
  }

  ghost predicate QueueLocked(s: State) {
    && (s.pool.lock.WorkerHolds? ==> s.pool.lock.i < s.n)
    && (forall i: nat :: i < |s.workers| ==> (s.workers[i].Reposting? <==> s.pool.lock == WorkerHolds(i)))
  }

  /** A queued job is announced by the semaphore, by a post under way or by a worker bound to pull. */
  ghost predicate Announced(s: State) {
    s.pool.keepalive && s.pool.queue != [] ==> s.pool.token || !s.pool.lock.Unlocked? || 0 < Sum(Bound, s.workers)
  }

  /** While the semaphore is up, not every worker sleeps. */
  ghost predicate Attended(s: State) {
    s.pool.keepalive && s.pool.token && s.n > 0 ==> Sum(Sleeping, s.workers) < s.n
  }

  ghost predicate Phases(s: State) {
    && (s.pool.keepalive <==> s.owner == Creating || s.owner == Serving)
    && (s.owner == Creating ==> s.jobs.added == [] && !s.pool.lock.PusherHolds? && s.waiter.Away?)
    && (forall i: nat :: i < |s.workers| ==> WorkerPhase(s.owner, s.pool.keepalive, s.workers[i]))
  }

  ghost predicate WorkerPhase(owner: Owner, keepalive: bool, w: Worker) {
    && (keepalive ==> !w.Leaving? && !w.Exited?)
    && (owner != Creating ==> !w.Starting?)
    && (owner == Cleared ==> w.Exited?)
  }

  /** What a waiter saw: after a zero length, all jobs added by then had been pulled; when it returns,
      they have finished. */
  ghost predicate Waits(s: State) {
    match s.waiter
    case SawEmpty(loop, seen) => seen <= |s.jobs.pulled| && 1 <= loop <= 3
    case Polling(loop) => 1 <= loop <= 3
    case Returned(seen) =>
      seen <= |s.jobs.pulled| &&
      forall x: Job :: multiset(s.jobs.pulled[..seen])[x] <= multiset(s.jobs.finished)[x]
    case Away => true
  }

  ghost predicate Inv(s: State) {
    && Counters(s) && Fifo(s) && QueueLocked(s) && Announced(s) && Attended(s) && Phases(s) && Waits(s)
    && forall x: Job :: Conserved(s, x)
  }

  lemma InitInv(n: nat)
    ensures Inv(Init(n))
  {
    var ws := Init(n).workers;
    SumConstant(Alive, ws, 0);
    SumConstant(Busy, ws, 0);
    forall x: Job ensures Conserved(Init(n), x) {
      SumConstant(Has(x), ws, 0);
    }
  }

  // ----- Steps as changes of one worker, after waking one or all

  /** The worker whose own step this is, if any. */
  predicate Own(a: Action) {
    a.WorkerStep? || a.Repost? || a.WakeSpuriously?
  }

  lemma WakeSums(f: Worker -> int, ws: seq<Worker>, woken: nat)
    requires CanWake(ws, woken) && f(Asleep) == f(AtSemaphore)
    ensures Sum(f, Wake(ws, woken)) == Sum(f, ws)
    ensures Sum(f, WakeAll(ws)) == Sum(f, ws)
  {
    if !NoneAsleep(ws) { SumUpdate(f, ws, woken, AtSemaphore); }
    SumEqual(f, WakeAll(ws), f, ws);
  }

  lemma WakeAllSums(f: Worker -> int, ws: seq<Worker>)
    requires f(Asleep) == f(AtSemaphore)
    ensures Sum(f, WakeAll(ws)) == Sum(f, ws)
  {
    SumEqual(f, WakeAll(ws), f, ws);
  }

  /** A sum that does not tell a sleeper from a woken worker changes by the worker that steps. */
  lemma StepSum(f: Worker -> int, s: State, a: Action)
    requires CanStep(s, a) && f(Asleep) == f(AtSemaphore)
    ensures |Step(s, a).workers| == |s.workers| && (Own(a) ==> a.i < |s.workers|)
    ensures Sum(f, Step(s, a).workers) ==
              Sum(f, s.workers) + (if Own(a) then f(Step(s, a).workers[a.i]) - f(s.workers[a.i]) else 0)
  {
    match a
    case WorkerStep(i) => SumUpdate(f, s.workers, i, Step(s, a).workers[i]);
    case Repost(i, w) =>
      WakeSums(f, s.workers, w);
      SumUpdate(f, Wake(s.workers, w), i, Running(s.workers[i].job));
    case WakeSpuriously(i) => SumUpdate(f, s.workers, i, AtSemaphore);
    case PostPush(w) => WakeSums(f, s.workers, w);
    case PostAll => WakeAllSums(f, s.workers);
    case _ =>
  }

  lemma WorkerKeepsCounters(s: State, i: nat)
    requires Counters(s) && CanStep(s, WorkerStep(i))
    ensures Counters(WorkerAdvance(s, i))
  {
    var w := WorkerAdvance(s, i).workers[i];
    SumUpdate(Alive, s.workers, i, w);
    SumUpdate(Busy, s.workers, i, w);
  }

  lemma StepKeepsCounters(s: State, a: Action)
    requires Counters(s) && CanStep(s, a)
    ensures Counters(Step(s, a))
  {
    hide WorkerAdvance;
    if a.WorkerStep? {
      WorkerKeepsCounters(s, a.i);
    } else {
      StepSum(Alive, s, a);
      StepSum(Busy, s, a);
    }
  }

  lemma StepKeepsFifo(s: State, a: Action)
    requires Fifo(s) && CanStep(s, a)
    ensures Fifo(Step(s, a))
  {
  }

  /** How often job `x` was pulled and is neither finished nor with worker `i`. */
  ghost function WithOthers(s: State, i: nat, x: Job): int
    requires i < |s.workers|
  {
    multiset(s.jobs.pulled)[x] - multiset(s.jobs.finished)[x] - Has(x)(s.workers[i])
  }

  /** A worker's step moves a job from the queue to itself, from itself to the finished ones, or none. */
  lemma WorkerJobEffect(s: State, i: nat, x: Job)
    requires CanStep(s, WorkerStep(i))
    ensures var t := WorkerAdvance(s, i);
            i < |t.workers| && t.workers == s.workers[i := t.workers[i]] && WithOthers(t, i, x) == WithOthers(s, i, x)
  {
    hide WithOthers, WorkerAdvance;
    match s.workers[i]
    case Pulling => PullJobEffect(s, i, x);
    case Running(_) => RunJobEffect(s, i, x);
    case _ => NoJobEffect(s, i, x);
  }

  lemma PullJobEffect(s: State, i: nat, x: Job)
    requires CanStep(s, WorkerStep(i)) && s.workers[i] == Pulling
    ensures var t := WorkerAdvance(s, i);
            i < |t.workers| && t.workers == s.workers[i := t.workers[i]] && WithOthers(t, i, x) == WithOthers(s, i, x)
  {
  }

  lemma RunJobEffect(s: State, i: nat, x: Job)
    requires CanStep(s, WorkerStep(i)) && s.workers[i].Running?
    ensures var t := WorkerAdvance(s, i);
            i < |t.workers| && t.workers == s.workers[i := t.workers[i]] && WithOthers(t, i, x) == WithOthers(s, i, x)
  {
  }

  lemma NoJobEffect(s: State, i: nat, x: Job)
    requires CanStep(s, WorkerStep(i)) && s.workers[i] != Pulling && !s.workers[i].Running?
    ensures var t := WorkerAdvance(s, i);
            i < |t.workers| && t.workers == s.workers[i := t.workers[i]] && WithOthers(t, i, x) == WithOthers(s, i, x)
  {
  }

  lemma WorkerKeepsJob(s: State, i: nat, x: Job)
    requires Conserved(s, x) && CanStep(s, WorkerStep(i))
    ensures Conserved(WorkerAdvance(s, i), x)
  {
    hide WorkerAdvance;
    WorkerJobEffect(s, i, x);
    SumUpdate(Has(x), s.workers, i, WorkerAdvance(s, i).workers[i]);
  }

  lemma StepKeepsJob(s: State, a: Action, x: Job)
    requires Conserved(s, x) && CanStep(s, a)
    ensures Conserved(Step(s, a), x)
  {
    hide WorkerAdvance;
    if a.WorkerStep? {
      WorkerKeepsJob(s, a.i, x);
    } else {
      StepSum(Has(x), s, a);
    }
  }

  lemma StepKeepsQueueLocked(s: State, a: Action)
    requires |s.workers| == s.n && QueueLocked(s) && CanStep(s, a)
    ensures QueueLocked(Step(s, a))
  {
  }

  lemma StepKeepsAnnounced(s: State, a: Action)
    requires QueueLocked(s) && Phases(s) && Announced(s) && CanStep(s, a)
    ensures Announced(Step(s, a))
  {
    hide NoneAsleep, WakeAll;
    StepSum(Bound, s, a);
    SumNonNegative(Bound, s.workers);
  }

  /** After a signal not every worker sleeps. */
  lemma SignalWakes(ws: seq<Worker>, woken: nat)
    requires ws != [] && CanWake(ws, woken)
    ensures Sum(Sleeping, Wake(ws, woken)) < |ws| && Sum(Sleeping, WakeAll(ws)) < |ws|
  {
    SumAtMost(Sleeping, ws, 1);
    SumConstant(Sleeping, WakeAll(ws), 0);
    if NoneAsleep(ws) {
      SumConstant(Sleeping, ws, 0);
    } else {
      SumUpdate(Sleeping, ws, woken, AtSemaphore);
    }
  }

  lemma StepKeepsAttended(s: State, a: Action)
    requires |s.workers| == s.n && Attended(s) && CanStep(s, a)
    ensures Attended(Step(s, a))
  {
    hide NoneAsleep, WakeAll;
    if s.n > 0 {
      match a
      case WorkerStep(i) => SumUpdate(Sleeping, s.workers, i, Step(s, a).workers[i]);
      case Repost(i, w) =>
        SignalWakes(s.workers, w);
        SumUpdate(Sleeping, Wake(s.workers, w), i, Running(s.workers[i].job));
      case WakeSpuriously(i) => SumUpdate(Sleeping, s.workers, i, AtSemaphore);
      case PostPush(w) => SignalWakes(s.workers, w);
      case PostAll => AllWake(s.workers);
      case _ =>
    }
  }

  lemma AllWake(ws: seq<Worker>)
    ensures Sum(Sleeping, WakeAll(ws)) == 0
  {
    SumConstant(Sleeping, WakeAll(ws), 0);
  }

  /** thpool_init returns only when every worker has started; jobqueue_destroy runs only when every
      worker has left. */
  lemma AliveMeans(s: State, i: nat)
    requires Counters(s) && i < s.n
    ensures s.pool.alive == s.n ==> !s.workers[i].Starting?
    ensures s.pool.alive == 0 ==> s.workers[i].Starting? || s.workers[i].Exited?
  {
    if s.pool.alive == s.n { SumFull(Alive, s.workers, i); }
    SumAtLeast(Alive, s.workers, i);
  }

  lemma StepKeepsPhases(s: State, a: Action)
    requires Counters(s) && Phases(s) && CanStep(s, a)
    ensures Phases(Step(s, a))
  {
    var t := Step(s, a);
    forall j: nat | j < |t.workers| ensures WorkerPhase(t.owner, t.pool.keepalive, t.workers[j]) {
      StepSum(Alive, s, a);
      StepKeepsWorkerPhase(s, a, j);
    }
  }

  lemma StepKeepsWorkerPhase(s: State, a: Action, j: nat)
    requires Counters(s) && Phases(s) && CanStep(s, a) && j < |s.workers| && j < |Step(s, a).workers|
    ensures WorkerPhase(Step(s, a).owner, Step(s, a).pool.keepalive, Step(s, a).workers[j])
  {
    assert WorkerPhase(s.owner, s.pool.keepalive, s.workers[j]);
    AliveMeans(s, j);
  }

  /** A zero count of working threads means that every pulled job has finished. */
  lemma NothingWorking(s: State, x: Job)
    requires Counters(s) && Conserved(s, x) && s.pool.working == 0
    ensures multiset(s.jobs.pulled)[x] == multiset(s.jobs.finished)[x]
  {
    forall i | 0 <= i < |s.workers| ensures Has(x)(s.workers[i]) == 0 {
      SumAtLeast(Busy, s.workers, i);
    }
    SumConstant(Has(x), s.workers, 0);
  }

  lemma StepKeepsHistory(s: State, a: Action)
    requires CanStep(s, a)
    ensures var t := Step(s, a);
            && s.jobs.pulled <= t.jobs.pulled
            && forall x: Job :: multiset(s.jobs.finished)[x] <= multiset(t.jobs.finished)[x]
  {
  }

  /** A return from thpool_wait: what was pulled when the length was read has finished. */
  lemma ReturnIsJustified(s: State, seen: nat)
    requires Counters(s) && (forall x: Job :: Conserved(s, x)) && seen <= |s.jobs.pulled| && s.pool.working == 0
    ensures forall x: Job :: multiset(s.jobs.pulled[..seen])[x] <= multiset(s.jobs.finished)[x]
  {
    assert s.jobs.pulled == s.jobs.pulled[..seen] + s.jobs.pulled[seen..];
    forall x: Job ensures multiset(s.jobs.pulled[..seen])[x] <= multiset(s.jobs.finished)[x] {
      assert Conserved(s, x);
      NothingWorking(s, x);
    }
  }

  lemma WorkersDoNotWait(s: State, a: Action)
    requires CanStep(s, a) && !a.BeginWait? && !a.TimeOut? && !a.ReadLength? && !a.ReadWorking?
    ensures Step(s, a).waiter == s.waiter
  {
  }

  lemma StepKeepsWaits(s: State, a: Action)
    requires Counters(s) && Fifo(s) && Waits(s) && (forall x: Job :: Conserved(s, x)) && CanStep(s, a)
    ensures Waits(Step(s, a))
  {
    hide WorkerAdvance;
    StepKeepsHistory(s, a);
    if !a.BeginWait? && !a.TimeOut? && !a.ReadLength? && !a.ReadWorking? { WorkersDoNotWait(s, a); }
    var t := Step(s, a);
    if a.ReadWorking? {
      if t.waiter.Returned? { ReturnIsJustified(s, s.waiter.seen); }
    } else if t.waiter.Returned? {
      assert t.jobs.pulled[..s.waiter.seen] == s.jobs.pulled[..s.waiter.seen];
    }
  }

  lemma StepKeepsInv(s: State, a: Action)
    requires Inv(s) && CanStep(s, a)
    ensures Inv(Step(s, a))
  {
    StepKeepsCounters(s, a);
    StepKeepsFifo(s, a);
    StepKeepsQueueLocked(s, a);
    StepKeepsAnnounced(s, a);
    StepKeepsAttended(s, a);
    StepKeepsPhases(s, a);
    StepKeepsWaits(s, a);
    forall x: Job ensures Conserved(Step(s, a), x) {
      StepKeepsJob(s, a, x);
    }
  }

  lemma RunKeepsInv(s: State, acts: seq<Action>, t: State)
    requires Inv(s) && Run(Next, s, acts, t)
    ensures Inv(t)
  {
    forall x, a | Inv(x) && Next(x, a).Some? ensures Inv(Next(x, a).value) {
      StepKeepsInv(x, a);
    }
    Invariance(Next, Inv, s, acts, t);
  }
}
