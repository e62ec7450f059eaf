/** The pool of thpool.c at work: `n` workers, any threads that add jobs, the thread that creates and
    destroys the pool, and a thread in thpool_wait. The queue has one lock and its binary semaphore
    another, so a push and a pull that leaves jobs behind are two steps: the queue, then the post. */
module ThpoolProtocol {
  import opened Runs

  /** A job, by the address of its node. */
  type Job = nat

  datatype Worker =
    | Starting              // 345
    | LoopTest              // 349
    | AtSemaphore           // 545-546
    | Asleep                // 547, in the wait set of the semaphore
    | HasToken              // 353
    | Raising               // 355
    | Pulling               // 363
    | Reposting(job: Job)   // 487, holds the queue lock
    | Running(job: Job)     // 369
    | Lowering              // 373
    | Leaving               // 379
    | Exited                // 383

  datatype QueueLock = Unlocked | PusherHolds | WorkerHolds(i: nat)

  datatype Owner =
    | Creating     // 158
    | Serving      // after thpool_init, before thpool_destroy
    | Destroying   // 245 and 252
    | Cleared      // 259

  /** A caller of thpool_wait: `loop` is the first, second or third polling loop; `seen` is the number
      of jobs added when it read a zero length. */
  datatype Waiter =
    | Away
    | Polling(loop: nat)
    | SawEmpty(loop: nat, seen: nat)
    | Returned(seen: nat)

  /** What the threads share; `token` is the semaphore. */
  datatype Pool = Pool(keepalive: bool, alive: int, working: int, queue: seq<Job>, lock: QueueLock, token: bool)

  /** The history of the jobs; `cleared` are those that jobqueue_clear frees. */
  datatype Jobs = Jobs(added: seq<Job>, pulled: seq<Job>, finished: seq<Job>, cleared: seq<Job>)

  datatype State = State(n: nat, owner: Owner, waiter: Waiter, pool: Pool, workers: seq<Worker>, jobs: Jobs)

  /** `woken` is the worker that a signal wakes, if any sleeps. */
  datatype Action =
    | WorkerStep(i: nat)
    | Repost(i: nat, woken: nat)
    | WakeSpuriously(i: nat)
    | BeginPush(job: Job)
    | PostPush(woken: nat)
    | DoneCreating
    | BeginDestroy
    | PostAll
    | Clear
    | BeginWait
    | TimeOut
    | ReadLength
    | ReadWorking

  function Init(n: nat): State {
    State(n, Creating, Away, Pool(true, 0, 0, [], Unlocked, false), seq(n, i => Starting), Jobs([], [], [], []))
  }

  predicate NoneAsleep(ws: seq<Worker>) {
    forall i | 0 <= i < |ws| :: ws[i] != Asleep
  }

  /** pthread_cond_signal wakes one sleeper if there is one. */
  predicate CanWake(ws: seq<Worker>, woken: nat) {
    NoneAsleep(ws) || (woken < |ws| && ws[woken] == Asleep)
  }

  function Wake(ws: seq<Worker>, woken: nat): seq<Worker>
    requires CanWake(ws, woken)
  {
    if NoneAsleep(ws) then ws else ws[woken := AtSemaphore]
  }

  function WakeAll(ws: seq<Worker>): seq<Worker> {
    seq(|ws|, i requires 0 <= i < |ws| => if ws[i] == Asleep then AtSemaphore else ws[i])
  }

  predicate CanStep(s: State, a: Action) {
    match a
    case WorkerStep(i) =>
      i < |s.workers| && !s.workers[i].Asleep? && !s.workers[i].Reposting? && !s.workers[i].Exited? &&
      (s.workers[i].Pulling? ==> s.pool.lock.Unlocked?)
    case Repost(i, w) => i < |s.workers| && s.workers[i].Reposting? && CanWake(s.workers, w)
    case WakeSpuriously(i) => i < |s.workers| && s.workers[i] == Asleep
    case BeginPush(_) => (s.owner == Serving || s.owner == Destroying) && s.pool.lock.Unlocked?
    case PostPush(w) => s.pool.lock.PusherHolds? && CanWake(s.workers, w)
    case DoneCreating => s.owner == Creating && s.pool.alive == s.n
    case BeginDestroy => s.owner == Serving
    case PostAll => s.owner == Destroying
    case Clear => s.owner == Destroying && s.pool.alive == 0 && s.pool.lock.Unlocked?
    case BeginWait => s.owner == Serving && (s.waiter.Away? || s.waiter.Returned?)
    // A waiter polls a pool that has not been freed.
    case TimeOut => s.owner != Cleared && s.waiter.Polling? && s.waiter.loop < 3
    case ReadLength => s.owner != Cleared && s.waiter.Polling?
    case ReadWorking => s.owner != Cleared && s.waiter.SawEmpty?
  }

  function WorkerAdvance(s: State, i: nat): State
    requires CanStep(s, WorkerStep(i))
  {
    var p, ws := s.pool, s.workers;
    match ws[i]
    case Starting => s.(pool := p.(alive := p.alive + 1), workers := ws[i := LoopTest])
    case LoopTest => s.(workers := ws[i := if p.keepalive then AtSemaphore else Leaving])
    case AtSemaphore =>
      if p.token then s.(pool := p.(token := false), workers := ws[i := HasToken])
      else s.(workers := ws[i := Asleep])
    case HasToken => s.(workers := ws[i := if p.keepalive then Raising else LoopTest])
    case Raising => s.(pool := p.(working := p.working + 1), workers := ws[i := Pulling])
    case Pulling =>
      if p.queue == [] then s.(workers := ws[i := Lowering])
      else
        var job, rest := p.queue[0], p.queue[1..];
        s.(pool := p.(queue := rest, lock := if rest == [] then Unlocked else WorkerHolds(i)),
           workers := ws[i := if rest == [] then Running(job) else Reposting(job)],
           jobs := s.jobs.(pulled := s.jobs.pulled + [job]))
    case Running(job) => s.(workers := ws[i := Lowering], jobs := s.jobs.(finished := s.jobs.finished + [job]))
    case Lowering => s.(pool := p.(working := p.working - 1), workers := ws[i := LoopTest])
    case Leaving => s.(pool := p.(alive := p.alive - 1), workers := ws[i := Exited])
    case _ => s
  }

  function Step(s: State, a: Action): State
    requires CanStep(s, a)
  {
    match a
    case WorkerStep(i) => WorkerAdvance(s, i)
    case Repost(i, w) =>
      s.(pool := s.pool.(token := true, lock := Unlocked),
         workers := Wake(s.workers, w)[i := Running(s.workers[i].job)])
    case WakeSpuriously(i) => s.(workers := s.workers[i := AtSemaphore])
    case BeginPush(job) =>
      s.(pool := s.pool.(queue := s.pool.queue + [job], lock := PusherHolds),
         jobs := s.jobs.(added := s.jobs.added + [job]))
    case PostPush(w) => s.(pool := s.pool.(token := true, lock := Unlocked), workers := Wake(s.workers, w))
    case DoneCreating => s.(owner := Serving)
    case BeginDestroy => s.(owner := Destroying, pool := s.pool.(keepalive := false))
    case PostAll => s.(pool := s.pool.(token := true), workers := WakeAll(s.workers))
    case Clear => 
      s.(owner := Cleared, pool := s.pool.(queue := [], token := false), jobs := s.jobs.(cleared := s.pool.queue))
    case BeginWait => s.(waiter := Polling(1))
    case TimeOut => s.(waiter := Polling(s.waiter.loop + 1))
    case ReadLength => if s.pool.queue != [] then s else s.(waiter := SawEmpty(s.waiter.loop, |s.jobs.added|))
    case ReadWorking =>
      if s.pool.working != 0 then s.(waiter := Polling(s.waiter.loop))
      else if s.waiter.loop < 3 then s.(waiter := Polling(s.waiter.loop + 1))
      else s.(waiter := Returned(s.waiter.seen))
  }

  function Next(s: State, a: Action): Option<State> {
    if CanStep(s, a) then Some(Step(s, a)) else None
  }
}
