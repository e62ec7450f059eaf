/** The pool of threadpool.c at work: the thread that creates and destroys it, any number of threads
    that add tasks, and the workers. Everything shared is touched under one lock, so each critical
    section is one step; the wait set of `notify` is the set of sleeping workers. */
module RingProtocol {
  import opened Runs
  import opened RingSpec

  datatype Worker =
    | WantsLock            // at line 270, or out of the wait set at line 275
    | Asleep               // 275, in the wait set of notify
    | Running(task: Task)  // 295
    | Exited               // 301

  /** Where the thread that creates, and later destroys, the pool is. */
  datatype Owner =
    | Creating          // 127
    | Spawned           // 133, a thread was started and not yet counted
    | Serving           // after threadpool_create, before threadpool_destroy
    | Joining(k: nat)   // 226
    | Freed             // 259
    | Refused           // 243, threadpool_free gave up

  /** `goal` is the thread_count asked for. The last three fields are the history of the tasks. */
  datatype State = State(
    pool: Pool, goal: nat, owner: Owner, workers: seq<Worker>,
    accepted: seq<Task>, taken: seq<Task>, finished: seq<Task>)

  datatype Action =
    | Spawn
    | SpawnFails                     // and threadpool_destroy(pool, 0) shuts down
    | CountSpawned
    | DoneCreating
    | AddTask(task: Task, woken: nat)  // `woken` is the sleeper the signal wakes, if any sleeps
    | Destroy(flags: int)
    | Join
    | Free
    | TakeLock(i: nat)
    | Finish(i: nat)
    | WakeSpuriously(i: nat)

  function Init(size: nat, goal: nat): State {
    State(NewPool(size), goal, Creating, [], [], [], [])
  }

  function WakeAll(ws: seq<Worker>): seq<Worker> {
    seq(|ws|, i requires 0 <= i < |ws| => if ws[i] == Asleep then WantsLock else ws[i])
  }

  predicate NoneAsleep(ws: seq<Worker>) {
    forall i | 0 <= i < |ws| :: ws[i] != Asleep
  }

  predicate CanStep(s: State, a: Action) {
    match a
    case Spawn | SpawnFails => s.owner == Creating && |s.workers| < s.goal
    case CountSpawned => s.owner == Spawned
    case DoneCreating => s.owner == Creating && |s.workers| == s.goal
    case AddTask(t, w) =>
      (s.owner == Serving || s.owner.Joining?) &&
      (AddCode(s.pool, t) == 0 && !NoneAsleep(s.workers) ==> w < |s.workers| && s.workers[w] == Asleep)
    case Destroy(_) => s.owner == Serving
    case Join =>
      s.owner.Joining? && s.owner.k < |s.workers| && s.owner.k < s.pool.threads && s.workers[s.owner.k] == Exited
    case Free => s.owner == Joining(s.pool.threads)
    case TakeLock(i) => i < |s.workers| && s.workers[i] == WantsLock
    case Finish(i) => i < |s.workers| && s.workers[i].Running?
    case WakeSpuriously(i) => i < |s.workers| && s.workers[i] == Asleep
  }

  function Step(s: State, a: Action): State
    requires CanStep(s, a)
  {
    match a
    case Spawn => s.(owner := Spawned, workers := s.workers + [WantsLock])
    case SpawnFails => s.(owner := Joining(0), pool := BeginShutdown(s.pool, 0), workers := WakeAll(s.workers))
    case CountSpawned =>
      s.(owner := Creating, pool := s.pool.(threads := s.pool.threads + 1, started := s.pool.started + 1))
    case DoneCreating => s.(owner := Serving)
    case AddTask(t, w) =>
      if AddCode(s.pool, t) != 0 then s
      else s.(pool := Add(s.pool, t), accepted := s.accepted + [t],
              workers := if NoneAsleep(s.workers) then s.workers else s.workers[w := WantsLock])
    case Destroy(flags) =>
      s.(owner := Joining(0), pool := BeginShutdown(s.pool, flags), workers := WakeAll(s.workers))
    case Join => s.(owner := Joining(s.owner.k + 1))
    case Free => s.(owner := if s.pool.started > 0 then Refused else Freed)
    case TakeLock(i) =>
      (match WorkerTurn(s.pool)
       case Wait => s.(workers := s.workers[i := Asleep])
       case Leave => s.(pool := AfterTurn(s.pool), workers := s.workers[i := Exited])
       case Take => s.(pool := AfterTurn(s.pool), workers := s.workers[i := Running(s.pool.queue[0])],
                       taken := s.taken + [s.pool.queue[0]]))
    case Finish(i) => s.(workers := s.workers[i := WantsLock], finished := s.finished + [s.workers[i].task])
    case WakeSpuriously(i) => s.(workers := s.workers[i := WantsLock])
  }

  function Next(s: State, a: Action): Option<State> {
    if CanStep(s, a) then Some(Step(s, a)) else None
  }
}
