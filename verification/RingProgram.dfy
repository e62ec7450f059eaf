/** threadpool.c as a program: the ring in place, and threads that enter its critical sections in the
    order of a schedule. */
module RingProgram {
  import opened Runs
  import opened RingSpec
  import opened RingPool
  import opened RingProtocol
  import opened RingInvariant
  import opened RingTheorems

  class Program {
    const pool: ThreadPool
    const goal: nat
    var owner: Owner
    var workers: seq<Worker>
    var accepted: seq<Task>
    var taken: seq<Task>
    var finished: seq<Task>

    ghost predicate Valid()
      reads this, pool, pool.queue
    {
      pool.Valid() && !pool.locked && Inv(View())
    }

    function View(): State
      reads this, pool, pool.queue
      requires pool.Valid()
    {
      State(pool.View(), goal, owner, workers, accepted, taken, finished)
    }

    constructor (size: nat, goal: nat)
      ensures Valid() && View() == Init(size, goal)
      ensures fresh(pool) && fresh(pool.queue)
    {
      pool := new ThreadPool(size);
      this.goal := goal;
      owner, workers, accepted, taken, finished := Creating, [], [], [], [];
      new;
      InitInv(size, goal);
    }

    /** One action of the protocol, by the critical section that performs it. The lock is never left
        held: only a second threadpool_destroy would do that. */
    method Perform(a: Action)
      requires Valid() && CanStep(View(), a)
      modifies this, pool, pool.queue
      ensures Valid() && View() == Step(old(View()), a)
    {
      hide Fifo, Places, Conserving, Conserved, NoneAsleep, WakeAll;
      StepKeepsInv(View(), a);
      match a {
        case Spawn =>
          workers := workers + [WantsLock];
          owner := Spawned;
        case SpawnFails =>
          Shut(0);
        case CountSpawned =>
          pool.CountWorker();
          owner := Creating;
        case DoneCreating =>
          owner := Serving;
        case AddTask(t, w) =>
          Offer(t, w);
        case Destroy(flags) =>
          Shut(flags);
        case Join =>
          owner := Joining(owner.k + 1);
        case Free =>
          var r := pool.Free();
          owner := if r != 0 then Refused else Freed;
        case TakeLock(i) =>
          EnterSection(i);
        case Finish(i) =>
          finished := finished + [workers[i].task];
          workers := workers[i := WantsLock];
        case WakeSpuriously(i) =>
          workers := workers[i := WantsLock];
      }
    }

    method Offer(t: Task, w: nat)
      requires pool.Valid() && !pool.locked && CanStep(View(), AddTask(t, w))
      modifies this, pool, pool.queue
      ensures pool.Valid() && !pool.locked && View() == Step(old(View()), AddTask(t, w))
    {
      var err, signals := pool.AddTask(t);
      if err == 0 {
        accepted := accepted + [t];
      }
      if signals && !NoneAsleep(workers) {
        workers := workers[w := WantsLock];
      }
    }

    method Shut(flags: int)
      requires pool.Valid() && !pool.locked && pool.View().mode == Open
      modifies this, pool
      ensures pool.Valid() && !pool.locked
      ensures View() == old(View()).(owner := Joining(0), pool := BeginShutdown(old(pool.View()), flags),
                                     workers := WakeAll(old(workers)))
    {
      var err, broadcasts := pool.ShutDown(flags);
      if broadcasts {
        workers := WakeAll(workers);
      }
      owner := Joining(0);
    }

    method EnterSection(i: nat)
      requires pool.Valid() && !pool.locked && CanStep(View(), TakeLock(i))
      modifies this, pool
      ensures pool.Valid() && !pool.locked && View() == Step(old(View()), TakeLock(i))
    {
      var turn, task := pool.WorkerSection();
      match turn {
        case Wait =>
          workers := workers[i := Asleep];
        case Leave =>
          workers := workers[i := Exited];
        case Take =>
          taken := taken + [task];
          workers := workers[i := Running(task)];
      }
    }

    /** Performs each action of the schedule that is possible at its turn. */
    method Play(schedule: seq<Action>)
      requires Valid()
      modifies this, pool, pool.queue
      ensures Valid() && View() == Replay(Next, old(View()), schedule)
    {
      for k := 0 to |schedule|
        invariant Valid() && Replay(Next, View(), schedule[k..]) == Replay(Next, old(View()), schedule)
      {
        assert schedule[k..][1..] == schedule[k + 1..];
        if CanStep(View(), schedule[k]) {
          Perform(schedule[k]);
        }
      }
    }
  }

  /** A pool under any schedule of adds, worker steps and shutdown: when all workers have left after a
      graceful shutdown, there were workers, and the ring is empty with every accepted task run. */
  method RunPool(size: nat, goal: nat, schedule: seq<Action>) returns (p: Program)
    ensures fresh(p) && fresh(p.pool) && p.pool.Valid() && p.owner != Refused
    ensures p.accepted == p.taken + p.pool.Contents()
    ensures p.pool.shutdown == 2 && AllExited(p.View()) && p.workers != [] ==>
              p.pool.count == 0 && multiset(p.finished) == multiset(p.accepted)
  {
    p := new Program(size, goal);
    p.Play(schedule);
    ghost var acts := ReplayIsRun(Next, Init(size, goal), schedule);
    TeardownPasses(size, goal, acts, p.View());
    if p.View().pool.mode == Graceful && AllExited(p.View()) {
      GracefulShutdownRunsEverything(size, goal, acts, p.View());
    }
  }
}
