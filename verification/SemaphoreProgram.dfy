/** ThreadPool.cpp as a program: the counters and the list in place, and threads that enter the
    critical sections in the order of a schedule. */
module SemaphoreProgram {
  import opened Runs
  import opened Counting
  import opened SemaphoreSpec
  import opened SemaphorePool
  import opened SemaphoreProtocol
  import opened SemaphoreInvariant
  import opened SemaphoreTheorems

  class Program {
    const pool: ThreadPool
    var workers: seq<Worker>
    var posted: seq<Request>
    var popped: seq<Request>
    var executed: seq<Request>
    var dropped: nat
    var nulls: nat
    var wraps: nat
    var skipped: nat
    var failed: nat

    function View(): State
      reads this, pool
    {
      State(pool.View(), workers, posted, popped, executed, dropped, nulls, wraps, skipped, failed)
    }

    constructor (threads: nat)
      requires 1 <= threads <= 64
      ensures View() == Init(threads) && pool.created && fresh(pool)
    {
      pool := new ThreadPool();
      workers := seq(threads, i => Waiting);
      posted, popped, executed := [], [], [];
      dropped, nulls, wraps, skipped, failed := 0, 0, 0, 0, 0;
      new;
      var ok := pool.Create(threads);
    }

    /** One action of the protocol, by the critical section that performs it. */
    method Perform(a: Action)
      requires pool.created && CanStep(View(), a)
      modifies this, pool
      ensures pool.created && View() == Step(old(View()), a)
    {
      match a {
        case PostRequest(r) =>
          if !(pool.semaphoreCount < pool.threadCount && pool.kernelCount < pool.threadCount) {
            wraps := wraps + (pool.pendingReqCount + 1) / WIDTH;
          }
          var ok := pool.PostRequest(r);
          posted := posted + [r];
          skipped := WhileBacklog(pool.View(), skipped);
        case TakeToken(i) =>
          pool.kernelCount := pool.kernelCount - 1;
          workers := workers[i := HasToken];
        case Decrement(i) =>
          pool.CountWait();
          workers := workers[i := Entering];
        case Enter(i) =>
          pool.activeThread := Inc(pool.activeThread);
          workers := workers[i := Popping];
        case PopRequest(i) =>
          PopFor(i);
        case Return(i, ok) =>
          executed := executed + [workers[i].r];
          workers := workers[i := if ok then Promoting else Leaving];
          if !ok {
            skipped := WhileBacklog(pool.View(), skipped + 1);
            failed := failed + 1;
          }
        case PromotePending(i) =>
          pool.PromotePending();
          skipped := WhileBacklog(pool.View(), skipped);
          workers := workers[i := Leaving];
        case Leave(i) =>
          pool.activeThread := Dec(pool.activeThread);
          workers := workers[i := Waiting];
      }
    }

    method PopFor(i: nat)
      requires pool.created && CanStep(View(), PopRequest(i))
      modifies this, pool
      ensures pool.created && View() == Step(old(View()), PopRequest(i))
    {
      var queued := pool.requestQueue;
      var r := pool.PopRequest();
      match r {
        case None =>
          nulls := nulls + 1;
          skipped := WhileBacklog(pool.View(), skipped + 1);
          workers := workers[i := Leaving];
        case Some(front) =>
          popped := popped + [front];
          dropped := dropped + (multiset(queued)[front] - 1);
          workers := workers[i := Executing(front)];
      }
    }

    /** Performs each action of the schedule that is possible at its turn. */
    method Play(schedule: seq<Action>)
      requires pool.created
      modifies this, pool
      ensures pool.created && View() == Replay(Next, old(View()), schedule)
    {
      for k := 0 to |schedule|
        invariant pool.created
        invariant Replay(Next, View(), schedule[k..]) == Replay(Next, old(View()), schedule)
      {
        assert schedule[k..][1..] == schedule[k + 1..];
        if CanStep(View(), schedule[k]) {
          Perform(schedule[k]);
        }
      }
    }

    /** Performs each action of the schedule that is possible and clean at its turn. */
    method PlayClean(schedule: seq<Action>)
      requires pool.created
      modifies this, pool
      ensures View() == Replay(CleanNext, old(View()), schedule)
    {
      for k := 0 to |schedule|
        invariant pool.created
        invariant Replay(CleanNext, View(), schedule[k..]) == Replay(CleanNext, old(View()), schedule)
      {
        assert schedule[k..][1..] == schedule[k + 1..];
        if CanStep(View(), schedule[k]) && Clean(View(), schedule[k]) {
          Perform(schedule[k]);
        }
      }
    }
  }

  /** A pool under any schedule: the counters balance, a release that the shadow count allows succeeds,
      and unless something was dropped requests come off the list in the order posted; if in the end no
      worker can go on, a few losses leave nothing queued. */
  method RunAnyPool(threads: nat, schedule: seq<Action>) returns (p: Program)
    requires 1 <= threads <= 64
    ensures fresh(p) && fresh(p.pool)
    ensures p.pool.semaphoreCount == p.pool.kernelCount + Sum(Late, p.workers) <= threads
    ensures |p.pool.requestQueue| + p.dropped ==
            p.pool.semaphoreCount + p.pool.pendingReqCount + Sum(Unpopped, p.workers) + p.nulls + 65536 * p.wraps
    ensures PostOk(p.pool.View())
    ensures |p.posted| <= 65535 ==> p.wraps == 0
    ensures p.dropped == 0 ==> p.posted == p.popped + p.pool.requestQueue
    ensures Blocked(p.View()) && p.wraps == 0 && p.failed + p.dropped < threads ==> p.pool.requestQueue == []
  {
    p := new Program(threads);
    p.Play(schedule);
    ghost var acts := ReplayIsRun(Next, Init(threads), schedule);
    AccountingIsExact(threads, acts, p.View());
    if |p.posted| <= 65535 { FewPostsDoNotWrap(threads, acts, p.View()); }
    if p.dropped == 0 { UndroppedRunsAreFifo(threads, acts, p.View()); }
    if Blocked(p.View()) && p.wraps == 0 && p.failed + p.dropped < threads {
      FewLossesStrandNothing(threads, acts, p.View());
    }
  }

  /** A pool under any clean schedule: requests come off the list in the order posted; if in the end no
      worker can go on, all have been executed. */
  method RunPool(threads: nat, schedule: seq<Action>) returns (p: Program)
    requires 1 <= threads <= 64
    ensures fresh(p) && fresh(p.pool)
    ensures p.posted == p.popped + p.pool.requestQueue
    ensures (forall a: Action :: !a.PostRequest? ==> !CanStep(p.View(), a)) ==>
              p.pool.requestQueue == [] && multiset(p.executed) == multiset(p.posted)
  {
    p := new Program(threads);
    p.PlayClean(schedule);
    ghost var acts := ReplayIsRun(CleanNext, Init(threads), schedule);
    CleanRunsAreFifo(threads, acts, p.View());
    if forall a: Action :: !a.PostRequest? ==> !CanStep(p.View(), a) {
      CleanRunsExecuteEverything(threads, acts, p.View());
    }
  }
}
