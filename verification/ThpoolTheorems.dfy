/** What every run of thpool.c does. */
module ThpoolTheorems {
  import opened Runs
  import opened Counting
  import opened ThpoolProtocol
  import opened ThpoolInvariant

  // ----- No job is lost

  /** While the pool is alive and nobody holds the queue lock, a queued job is announced by the
      semaphore or by a worker that has the token; and some worker is not asleep. */
  lemma NoJobIsLost(n: nat, acts: seq<Action>, t: State)
    requires n > 0 && Run(Next, Init(n), acts, t)
    requires t.pool.keepalive && t.pool.queue != [] && t.pool.lock.Unlocked?
    ensures t.pool.token || exists i: nat :: i < |t.workers| && Bound(t.workers[i]) == 1
    ensures exists i: nat :: i < |t.workers| && t.workers[i] != Asleep
  {
    InitInv(n);
    RunKeepsInv(Init(n), acts, t);
    RunKeepsSize(n, acts, t);
    if t.pool.token {
      if forall i: nat :: i < |t.workers| ==> t.workers[i] == Asleep {
        SumConstant(Sleeping, t.workers, 1);
      }
    } else {
      var i := SumWitness(Bound, t.workers, 0);
    }
  }

  lemma RunKeepsSize(n: nat, acts: seq<Action>, t: State)
    requires Run(Next, Init(n), acts, t)
    ensures t.n == n
  {
    var inv := (x: State) => x.n == n;
    forall x, a | inv(x) && Next(x, a).Some? ensures inv(Next(x, a).value) {
      StepKeepsSize(x, a);
    }
    Invariance(Next, inv, Init(n), acts, t);
  }

  lemma StepKeepsSize(s: State, a: Action)
    requires CanStep(s, a)
    ensures Step(s, a).n == s.n
  {
  }

  /** No worker and no pusher can take a step, spurious wake-ups apart. */
  ghost predicate Quiet(s: State) {
    && (forall i: nat :: !CanStep(s, WorkerStep(i)))
    && (forall i: nat, w: nat :: !CanStep(s, Repost(i, w)))
    && (forall w: nat :: !CanStep(s, PostPush(w)))
  }

  /** Some sleeper is a possible choice for every signal. */
  lemma SignalHasChoice(ws: seq<Worker>) returns (woken: nat)
    ensures CanWake(ws, woken)
  {
    woken := 0;
    if !NoneAsleep(ws) {
      woken :| woken < |ws| && ws[woken] == Asleep;
    }
  }

  /** A worker that holds the queue lock can post. */
  lemma HolderCanRepost(s: State, w: nat)
    requires QueueLocked(s) && |s.workers| == s.n && s.pool.lock.WorkerHolds? && CanWake(s.workers, w)
    ensures CanStep(s, Repost(s.pool.lock.i, w))
  {
    assert s.workers[s.pool.lock.i].Reposting?;
  }

  lemma QuietMeansAtRest(s: State)
    requires Inv(s) && Quiet(s)
    ensures s.pool.lock.Unlocked?
    ensures forall i: nat :: i < |s.workers| ==> s.workers[i] == Asleep || s.workers[i] == Exited
  {
    var w := SignalHasChoice(s.workers);
    if s.pool.lock.WorkerHolds? {
      HolderCanRepost(s, w);
      assert false;
    }
    assert !CanStep(s, PostPush(w));
    forall i: nat | i < |s.workers| ensures s.workers[i] == Asleep || s.workers[i] == Exited {
      assert !CanStep(s, WorkerStep(i)) && !CanStep(s, Repost(i, w));
    }
  }

  /** A pool with workers that has come to rest before its destruction has run every job added, each
      exactly as often as it was added, and in the order of the additions the jobs were pulled. */
  lemma QuietPoolIsDone(n: nat, acts: seq<Action>, t: State)
    requires n > 0 && Run(Next, Init(n), acts, t) && t.pool.keepalive && Quiet(t)
    ensures t.pool.queue == [] && t.jobs.pulled == t.jobs.added && multiset(t.jobs.finished) == multiset(t.jobs.added)
  {
    InitInv(n);
    RunKeepsInv(Init(n), acts, t);
    RunKeepsSize(n, acts, t);
    AllAsleepAtRest(t);
    if t.pool.queue != [] {
      NoJobIsLost(n, acts, t);
      assert false;
    }
    forall x: Job ensures multiset(t.jobs.finished)[x] == multiset(t.jobs.pulled)[x] {
      assert Conserved(t, x);
      SumConstant(Has(x), t.workers, 0);
    }
  }

  lemma AllAsleepAtRest(s: State)
    requires Inv(s) && Quiet(s) && s.pool.keepalive
    ensures s.pool.lock.Unlocked? && forall i: nat :: i < |s.workers| ==> s.workers[i] == Asleep
  {
    hide Counters, Fifo, QueueLocked, Announced, Attended, Waits;
    QuietMeansAtRest(s);
    forall i: nat | i < |s.workers| ensures s.workers[i] == Asleep {
      assert WorkerPhase(s.owner, s.pool.keepalive, s.workers[i]);
    }
  }

  // ----- How many steps it takes to come to rest

  ghost function Rank(w: Worker): int {
    match w
    case Asleep | Exited => 0
    case AtSemaphore | Leaving => 1
    case LoopTest => 2
    case Starting | Lowering => 3
    case Running(_) | Pulling => 4
    case Raising => 5
    case HasToken => 6
    case Reposting(_) => 12
  }

  /** A raised semaphore is worth the steps from the token to the pull, a queued job those from the
      pull to the next post. */
  ghost function Work(s: State): int {
    9 * |s.pool.queue| + (if s.pool.token then 6 else 0) + (if s.pool.lock.PusherHolds? then 8 else 0) +
    Sum(Rank, s.workers)
  }

  ghost function Outlook(s: State): int {
    Work(s) - 17 * |s.jobs.added|
  }

  ghost function WorkCost(s: State, a: Action): int {
    if a.WorkerStep? || a.Repost? || a.PostPush? then 1 else 0
  }

  /** What gives workers more to do without a job: a spurious wake-up, and a post to all, which raises the
      semaphore and wakes the sleepers. */
  ghost function Disturbance(s: State, a: Action): int {
    if a.WakeSpuriously? then 1 else if a.PostAll? then 6 + |s.workers| else 0
  }

  lemma WakeRank(ws: seq<Worker>, woken: nat)
    requires CanWake(ws, woken)
    ensures Sum(Rank, Wake(ws, woken)) <= Sum(Rank, ws) + 1
  {
    if !NoneAsleep(ws) { SumUpdate(Rank, ws, woken, AtSemaphore); }
  }

  lemma WorkerStepWorks(s: State, i: nat)
    requires CanStep(s, WorkerStep(i))
    ensures Work(WorkerAdvance(s, i)) + 1 <= Work(s) && WorkerAdvance(s, i).jobs.added == s.jobs.added
  {
    SumUpdate(Rank, s.workers, i, WorkerAdvance(s, i).workers[i]);
  }

  lemma {:induction false} WakeAllRank(ws: seq<Worker>)
    ensures Sum(Rank, WakeAll(ws)) <= Sum(Rank, ws) + |ws|
    decreases |ws|
  {
    if ws != [] {
      assert WakeAll(ws)[1..] == WakeAll(ws[1..]);
      WakeAllRank(ws[1..]);
    }
  }

  lemma StepWorks(s: State, a: Action)
    requires CanStep(s, a)
    ensures Outlook(Step(s, a)) + WorkCost(s, a) - Disturbance(s, a) <= Outlook(s)
  {
    hide WorkerAdvance, NoneAsleep, WakeAll;
    match a
    case WorkerStep(i) => WorkerStepWorks(s, i);
    case Repost(i, w) =>
      WakeRank(s.workers, w);
      SumUpdate(Rank, Wake(s.workers, w), i, Running(s.workers[i].job));
    case PostPush(w) => WakeRank(s.workers, w);
    case WakeSpuriously(i) => SumUpdate(Rank, s.workers, i, AtSemaphore);
    case PostAll => WakeAllRank(s.workers);
    case _ =>
  }

  /** In every run workers and posts take at most three steps a worker, seventeen a job, one a spurious
      wake-up and `6 + n` a post to all; so when these stop the pool comes to rest. */
  lemma StepsAreBounded(n: nat, acts: seq<Action>, t: State)
    requires Run(Next, Init(n), acts, t)
    ensures Cost(Next, WorkCost, Init(n), acts) + Work(t) <=
              3 * n + 17 * |t.jobs.added| + Cost(Next, Disturbance, Init(n), acts)
    ensures 0 <= Work(t)
  {
    hide Outlook, WorkCost, Disturbance, CanStep, Step;
    var inv := (x: State) => true;
    var net := (x: State, a: Action) => WorkCost(x, a) - Disturbance(x, a);
    forall x, a | inv(x) && Next(x, a).Some?
      ensures inv(Next(x, a).value) && Outlook(Next(x, a).value) + net(x, a) <= Outlook(x)
    {
      StepWorks(x, a);
    }
    BoundedCost(Next, inv, Outlook, net, Init(n), acts, t);
    CostDifference(Next, net, WorkCost, Disturbance, Init(n), acts);
    OutlookOf(n, t);
  }

  lemma OutlookOf(n: nat, t: State)
    ensures Outlook(Init(n)) == 3 * n && Outlook(t) == Work(t) - 17 * |t.jobs.added| && 0 <= Work(t)
  {
    SumConstant(Rank, Init(n).workers, 3);
    SumNonNegative(Rank, t.workers);
  }

  // ----- thpool_wait

  /** When thpool_wait returns, every job added before it last read a zero length has finished,
      whatever was pushed between its two reads. */
  lemma WaitReturnsAfterJobs(n: nat, acts: seq<Action>, t: State, x: Job)
    requires Run(Next, Init(n), acts, t) && t.waiter.Returned?
    ensures t.waiter.seen <= |t.jobs.pulled| <= |t.jobs.added|
    ensures multiset(t.jobs.added[..t.waiter.seen])[x] <= multiset(t.jobs.finished)[x]
  {
    InitInv(n);
    RunKeepsInv(Init(n), acts, t);
    assert t.jobs.added[..t.waiter.seen] == t.jobs.pulled[..t.waiter.seen];
  }

  /** At the return itself every job added has finished if and only if the queue is still empty. */
  lemma WaitReturnIsCompleteIff(n: nat, acts: seq<Action>, t: State)
    requires Run(Next, Init(n), acts, t) && CanStep(t, ReadWorking) && t.waiter.loop == 3
    requires Step(t, ReadWorking).waiter.Returned?
    ensures multiset(t.jobs.finished) == multiset(t.jobs.added) <==> t.pool.queue == []
  {
    InitInv(n);
    RunKeepsInv(Init(n), acts, t);
    forall x: Job ensures multiset(t.jobs.pulled)[x] == multiset(t.jobs.finished)[x] {
      assert Conserved(t, x);
      NothingWorking(t, x);
    }
    assert multiset(t.jobs.pulled) == multiset(t.jobs.finished);
    assert t.jobs.added == t.jobs.pulled + t.pool.queue;
    if t.pool.queue != [] {
      assert |multiset(t.jobs.added)| == |t.jobs.pulled| + |t.pool.queue|;
      assert |multiset(t.jobs.finished)| == |multiset(t.jobs.pulled)| == |t.jobs.pulled|;
    }
  }

  /** If no job was added since the zero length was last read, all jobs added have finished. */
  lemma WaitWithoutLatePushIsComplete(n: nat, acts: seq<Action>, t: State)
    requires Run(Next, Init(n), acts, t) && t.waiter.Returned? && |t.jobs.added| == t.waiter.seen
    ensures multiset(t.jobs.finished) == multiset(t.jobs.added)
    ensures t.jobs.pulled == t.jobs.added
  {
    InitInv(n);
    RunKeepsInv(Init(n), acts, t);
    assert t.jobs.added[..t.waiter.seen] == t.jobs.added;
    assert t.jobs.pulled == t.jobs.added;
    forall x: Job ensures multiset(t.jobs.finished)[x] == multiset(t.jobs.added)[x] {
      WaitReturnsAfterJobs(n, acts, t, x);
      FinishedAtMostPulled(t, x);
    }
  }

  lemma FinishedAtMostPulled(s: State, x: Job)
    requires Conserved(s, x)
    ensures multiset(s.jobs.finished)[x] <= multiset(s.jobs.pulled)[x]
  {
    SumNonNegative(Has(x), s.workers);
  }

  /** One worker at the top of its loop, and a waiter. */
  ghost function Waited(waiter: Waiter, lock: QueueLock, token: bool, added: seq<Job>): State {
    State(1, Serving, waiter, Pool(true, 1, 0, added, lock, token), [LoopTest], Jobs(added, [], [], []))
  }

  lemma WaiterReads() returns (acts: seq<Action>)
    ensures Run(Next, Waited(Away, Unlocked, false, []), acts, Waited(SawEmpty(3, 0), Unlocked, false, []))
  {
    var t := Waited(SawEmpty(3, 0), Unlocked, false, []);
    RunCons(Next, t.(waiter := Polling(3)), ReadLength, [], t);
    acts := [ReadLength];
    RunCons(Next, t.(waiter := Polling(2)), TimeOut, acts, t);
    acts := [TimeOut] + acts;
    RunCons(Next, t.(waiter := Polling(1)), TimeOut, acts, t);
    acts := [TimeOut] + acts;
    RunCons(Next, t.(waiter := Away), BeginWait, acts, t);
    acts := [BeginWait] + acts;
  }

  lemma WaitBegins() returns (acts: seq<Action>)
    ensures Run(Next, Init(1), acts, Waited(SawEmpty(3, 0), Unlocked, false, []))
  {
    var t := Waited(SawEmpty(3, 0), Unlocked, false, []);
    var s2 := Waited(Away, Unlocked, false, []);
    var s1 := s2.(owner := Creating);
    assert Init(1).workers[0 := LoopTest] == [LoopTest];
    assert Next(Init(1), WorkerStep(0)) == Some(s1);
    assert Next(s1, DoneCreating) == Some(s2);
    acts := WaiterReads();
    RunCons(Next, s1, DoneCreating, acts, t);
    RunCons(Next, Init(1), WorkerStep(0), [DoneCreating] + acts, t);
    acts := [WorkerStep(0)] + ([DoneCreating] + acts);
  }

  /** A job pushed between the two reads is not waited for. */
  lemma LatePushEscapesWait(job: Job) returns (acts: seq<Action>, t: State)
    ensures Run(Next, Init(1), acts, t)
    ensures t.waiter == Returned(0) && t.jobs.added == [job] && t.jobs.finished == []
  {
    var first := WaitBegins();
    var s := Waited(SawEmpty(3, 0), Unlocked, false, []);
    var s1 := Waited(SawEmpty(3, 0), PusherHolds, false, [job]);
    var s2 := Waited(SawEmpty(3, 0), Unlocked, true, [job]);
    t := Waited(Returned(0), Unlocked, true, [job]);
    assert [] + [job] == [job];
    assert Next(s, BeginPush(job)) == Some(s1);
    assert Next(s1, PostPush(0)) == Some(s2);
    RunCons(Next, s2, ReadWorking, [], t);
    RunCons(Next, s1, PostPush(0), [ReadWorking], t);
    RunCons(Next, s, BeginPush(job), [PostPush(0)] + [ReadWorking], t);
    acts := first + ([BeginPush(job)] + ([PostPush(0)] + [ReadWorking]));
    RunConcat(Next, Init(1), first, s, [BeginPush(job)] + ([PostPush(0)] + [ReadWorking]), t);
  }

  // ----- thpool_destroy

  ghost predicate ShuttingDown(s: State) {
    Inv(s) && !s.pool.keepalive
  }

  lemma StepKeepsShutdown(s: State, a: Action)
    requires ShuttingDown(s) && CanStep(s, a)
    ensures ShuttingDown(Step(s, a))
  {
    StepKeepsInv(s, a);
    StepKeepsDead(s, a);
  }

  lemma StepKeepsDead(s: State, a: Action)
    requires CanStep(s, a) && !s.pool.keepalive
    ensures !Step(s, a).pool.keepalive
  {
  }

  /** Steps a worker has left once `threads_keepalive` is cleared, waits and wake-ups apart. */
  ghost function StepsToExit(w: Worker): int {
    match w
    case Exited => 0
    case Leaving => 1
    case LoopTest => 2
    case HasToken | Lowering | Starting => 3
    case AtSemaphore | Asleep | Running(_) => 4
    case Reposting(_) => 5
    case Pulling => 6
    case Raising => 7
  }

  /** A step of worker `i` that is not going to sleep. */
  ghost predicate Moves(s: State, a: Action, i: nat) {
    || (a.Repost? && a.i == i)
    || (a == WorkerStep(i) && !(i < |s.workers| && s.workers[i] == AtSemaphore && !s.pool.token))
  }

  /** Worker `i` pulls a job. */
  ghost predicate Pulls(s: State, a: Action, i: nat) {
    a == WorkerStep(i) && i < |s.workers| && s.workers[i] == Pulling && s.pool.queue != []
  }

  /** One more job can reach the worker. */
  ghost function MayPull(w: Worker): int {
    if w.Raising? || w.Pulling? then 1 else 0
  }

  lemma ShutdownStep(s: State, a: Action, i: nat)
    requires ShuttingDown(s) && CanStep(s, a) && i < |s.workers|
    ensures i < |Step(s, a).workers|
    ensures StepsToExit(Step(s, a).workers[i]) + (if Moves(s, a, i) then 1 else 0) <= StepsToExit(s.workers[i])
    ensures MayPull(Step(s, a).workers[i]) + (if Pulls(s, a, i) then 1 else 0) <= MayPull(s.workers[i])
  {
    assert WorkerPhase(s.owner, s.pool.keepalive, s.workers[i]);
    if a == WorkerStep(i) {
      OwnShutdownStep(s, i);
    } else {
      OtherShutdownStep(s, a, i);
    }
  }

  lemma OwnShutdownStep(s: State, i: nat)
    requires !s.pool.keepalive && CanStep(s, WorkerStep(i))
    ensures var t := Step(s, WorkerStep(i));
            && i < |t.workers|
            && StepsToExit(t.workers[i]) + (if Moves(s, WorkerStep(i), i) then 1 else 0) <= StepsToExit(s.workers[i])
            && MayPull(t.workers[i]) + (if Pulls(s, WorkerStep(i), i) then 1 else 0) <= MayPull(s.workers[i])
  {
  }

  /** A step of somebody else can only wake the worker, or is its post. */
  lemma OtherShutdownStep(s: State, a: Action, i: nat)
    requires CanStep(s, a) && i < |s.workers| && a != WorkerStep(i)
    ensures var t := Step(s, a);
            && i < |t.workers|
            && StepsToExit(t.workers[i]) + (if Moves(s, a, i) then 1 else 0) <= StepsToExit(s.workers[i])
            && MayPull(t.workers[i]) <= MayPull(s.workers[i]) && !Pulls(s, a, i)
  {
  }

  ghost function MoveCost(i: nat): (State, Action) -> int {
    (s, a) => if Moves(s, a, i) then 1 else 0
  }

  ghost function PullCost(i: nat): (State, Action) -> int {
    (s, a) => if Pulls(s, a, i) then 1 else 0
  }

  ghost predicate WorkerOf(s: State, i: nat) {
    ShuttingDown(s) && i < |s.workers|
  }

  /** Once `threads_keepalive` is cleared a worker takes at most seven more steps, sleeping and waking
      apart, and pulls at most one more job. */
  lemma EachWorkerLeavesSoon(s: State, acts: seq<Action>, t: State, i: nat)
    requires ShuttingDown(s) && i < s.n && Run(Next, s, acts, t)
    ensures ShuttingDown(t)
    ensures Cost(Next, MoveCost(i), s, acts) <= 7
    ensures Cost(Next, PullCost(i), s, acts) <= 1
  {
    hide Moves, Pulls;
    EachWorkerMoves(s, acts, t, i);
    EachWorkerPulls(s, acts, t, i);
  }

  lemma EachWorkerMoves(s: State, acts: seq<Action>, t: State, i: nat)
    requires WorkerOf(s, i) && Run(Next, s, acts, t)
    ensures ShuttingDown(t)
    ensures Cost(Next, MoveCost(i), s, acts) <= 7
  {
    hide ShuttingDown, Moves, CanStep, Step;
    var inv := (x: State) => WorkerOf(x, i);
    var steps := (x: State) => if i < |x.workers| then StepsToExit(x.workers[i]) else 0;
    var cost := MoveCost(i);
    forall x, a | inv(x) && Next(x, a).Some?
      ensures inv(Next(x, a).value) && steps(Next(x, a).value) + cost(x, a) <= steps(x)
    {
      StepKeepsShutdown(x, a);
      ShutdownStep(x, a, i);
    }
    BoundedCost(Next, inv, steps, cost, s, acts, t);
  }

  lemma EachWorkerPulls(s: State, acts: seq<Action>, t: State, i: nat)
    requires WorkerOf(s, i) && Run(Next, s, acts, t)
    ensures Cost(Next, PullCost(i), s, acts) <= 1
  {
    hide ShuttingDown, Pulls, CanStep, Step;
    var inv := (x: State) => WorkerOf(x, i);
    var pulls := (x: State) => if i < |x.workers| then MayPull(x.workers[i]) else 0;
    var cost := PullCost(i);
    forall x, a | inv(x) && Next(x, a).Some?
      ensures inv(Next(x, a).value) && pulls(Next(x, a).value) + cost(x, a) <= pulls(x)
    {
      StepKeepsShutdown(x, a);
      ShutdownStep(x, a, i);
    }
    BoundedCost(Next, inv, pulls, cost, s, acts, t);
  }

  /** Past its last wait for the semaphore; four own steps at most from the exit. */
  ghost predicate OnTheWayOut(w: Worker) {
    w.Starting? || w.HasToken? || w.Running? || w.Lowering? || w.LoopTest? || w.Leaving? || w.Exited?
  }

  /** After `threads_keepalive` is cleared, a worker with a token, or one that runs a job, leaves by its next
      three or four steps, which nobody can block, without waiting again and without another job. */
  lemma TokenLeadsToExit(s: State, acts: seq<Action>, t: State, i: nat)
    requires ShuttingDown(s) && i < s.n && OnTheWayOut(s.workers[i]) && Run(Next, s, acts, t)
    ensures i < |t.workers| && OnTheWayOut(t.workers[i])
    ensures Cost(Next, OwnCost(i), s, acts) + StepsToExit(t.workers[i]) == StepsToExit(s.workers[i])
    ensures t.workers[i] != Exited ==> CanStep(t, WorkerStep(i))
  {
    OwnStepsLeadOut(s, acts, t, i);
  }

  ghost function OwnCost(i: nat): (State, Action) -> int {
    (s, a) => if a == WorkerStep(i) then 1 else 0
  }

  ghost predicate GoesOut(s: State, i: nat) {
    !s.pool.keepalive && i < |s.workers| && OnTheWayOut(s.workers[i])
  }

  lemma OwnStepsLeadOut(s: State, acts: seq<Action>, t: State, i: nat)
    requires GoesOut(s, i) && Run(Next, s, acts, t)
    ensures GoesOut(t, i)
    ensures Cost(Next, OwnCost(i), s, acts) + StepsToExit(t.workers[i]) == StepsToExit(s.workers[i])
  {
    hide Step, CanStep, StepsToExit, OnTheWayOut;
    var inv := (x: State) => GoesOut(x, i);
    var steps := (x: State) => if i < |x.workers| then StepsToExit(x.workers[i]) else 0;
    var cost := OwnCost(i);
    forall x, a | inv(x) && Next(x, a).Some?
      ensures inv(Next(x, a).value) && steps(Next(x, a).value) + cost(x, a) == steps(x)
    {
      StepKeepsDead(x, a);
      StepOut(x, a, i);
    }
    ExactCost(Next, inv, steps, cost, s, acts, t);
  }

  lemma StepOut(s: State, a: Action, i: nat)
    requires CanStep(s, a) && !s.pool.keepalive && i < |s.workers| && OnTheWayOut(s.workers[i])
    ensures i < |Step(s, a).workers| && OnTheWayOut(Step(s, a).workers[i])
    ensures StepsToExit(Step(s, a).workers[i]) + (if a == WorkerStep(i) then 1 else 0) == StepsToExit(s.workers[i])
  {
  }

  /** Posting to all gets the pool on: unless every worker has left, afterwards a worker or a pusher
      can take a step that is not going to sleep. */
  lemma PostAllUnblocks(s: State)
    requires ShuttingDown(s) && s.owner == Destroying && s.pool.alive != 0
    ensures CanStep(s, PostAll)
    ensures var t := Step(s, PostAll);
            (exists w: nat :: CanStep(t, PostPush(w))) ||
            (exists i: nat, a: Action :: CanStep(t, a) && Moves(t, a, i))
  {
    var t := Step(s, PostAll);
    StepKeepsInv(s, PostAll);
    var w := SignalHasChoice(t.workers);
    if t.pool.lock.PusherHolds? {
      assert CanStep(t, PostPush(w));
    } else if t.pool.lock.WorkerHolds? {
      HolderCanRepost(t, w);
      assert Moves(t, Repost(t.pool.lock.i, w), t.pool.lock.i);
    } else {
      SumNonNegative(Alive, t.workers);
      var i := SumWitness(Alive, t.workers, 0);
      assert CanStep(t, WorkerStep(i)) && Moves(t, WorkerStep(i), i);
    }
  }

  /** When the count of living threads is zero after creation, no worker touches the pool again. */
  lemma NoneAliveMeansAllExited(n: nat, acts: seq<Action>, t: State, i: nat)
    requires Run(Next, Init(n), acts, t) && t.owner != Creating && t.pool.alive == 0 && i < n
    ensures i < |t.workers| && t.workers[i] == Exited
    ensures !CanStep(t, WorkerStep(i)) && forall w: nat :: !CanStep(t, Repost(i, w))
  {
    InitInv(n);
    RunKeepsInv(Init(n), acts, t);
    RunKeepsSize(n, acts, t);
    assert WorkerPhase(t.owner, t.pool.keepalive, t.workers[i]);
    AliveMeans(t, i);
  }

  /** When the queue has been cleared, each job node has been freed exactly as often as it was added:
      by the worker that ran it, or by jobqueue_clear. */
  lemma EachNodeFreedOnce(n: nat, acts: seq<Action>, t: State, x: Job)
    requires Run(Next, Init(n), acts, t) && t.owner == Cleared
    ensures multiset(t.jobs.added)[x] == multiset(t.jobs.finished)[x] + multiset(t.jobs.cleared)[x]
    ensures t.jobs.added == t.jobs.pulled + t.jobs.cleared
  {
    InitInv(n);
    RunKeepsInv(Init(n), acts, t);
    assert Conserved(t, x);
    forall i | 0 <= i < |t.workers| ensures Has(x)(t.workers[i]) == 0 {
      assert WorkerPhase(t.owner, t.pool.keepalive, t.workers[i]);
    }
    SumConstant(Has(x), t.workers, 0);
    assert t.jobs.added == t.jobs.pulled + t.jobs.cleared;
  }

  /** Once the queue has been cleared it is empty and every worker has exited. */
  lemma ClearedMeans(n: nat, acts: seq<Action>, t: State)
    requires Run(Next, Init(n), acts, t) && t.owner == Cleared
    ensures t.pool.queue == [] && forall i: nat :: i < |t.workers| ==> t.workers[i] == Exited
  {
    InitInv(n);
    RunKeepsInv(Init(n), acts, t);
    forall i: nat | i < |t.workers| ensures t.workers[i] == Exited {
      assert WorkerPhase(t.owner, t.pool.keepalive, t.workers[i]);
    }
  }
}
