/** What the threads that use a pool of thpool.c can always get done: creating it, pushing, waiting and
    destroying it. */
module ThpoolProgress {
  import opened Runs
  import opened Counting
  import opened ThpoolProtocol
  import opened ThpoolInvariant
  import opened ThpoolTheorems

  // ----- Creating and pushing

  /** thpool_init returns once every worker has started. */
  lemma CreationCompletes(n: nat, acts: seq<Action>, t: State)
    requires Run(Next, Init(n), acts, t) && t.owner == Creating
    ensures |t.workers| == n
    ensures CanStep(t, DoneCreating) <==> forall i: nat :: i < n ==> t.workers[i] != Starting
    ensures forall i: nat :: i < n && t.workers[i] == Starting ==> CanStep(t, WorkerStep(i))
  {
    InitInv(n);
    RunKeepsInv(Init(n), acts, t);
    RunKeepsSize(n, acts, t);
    if t.pool.alive == n {
      forall i: nat | i < n ensures t.workers[i] != Starting { AliveMeans(t, i); }
    }
    if forall i: nat :: i < n ==> t.workers[i] != Starting {
      forall i | 0 <= i < |t.workers| ensures Alive(t.workers[i]) == 1 {
        assert WorkerPhase(t.owner, t.pool.keepalive, t.workers[i]);
      }
      SumConstant(Alive, t.workers, 1);
    }
  }

  /** thpool_add_work: with the queue lock free the job goes behind the queue, and the post that follows is
      never blocked, raises the semaphore and leaves no worker asleep if only one was. */
  lemma PushCompletes(s: State, job: Job) returns (woken: nat)
    requires (s.owner == Serving || s.owner == Destroying) && s.pool.lock.Unlocked?
    ensures CanStep(s, BeginPush(job)) && CanStep(Step(s, BeginPush(job)), PostPush(woken))
    ensures var t := Step(Step(s, BeginPush(job)), PostPush(woken));
            && t.pool.queue == s.pool.queue + [job] && t.jobs.added == s.jobs.added + [job]
            && t.pool.token && t.pool.lock.Unlocked?
            && (NoneAsleep(s.workers) || (s.workers[woken] == Asleep && t.workers == s.workers[woken := AtSemaphore]))
  {
    woken := SignalHasChoice(s.workers);
  }

  /** What the environment may do at any time: a sleeper may wake without a signal, a wait may begin, and a
      poll may time out, unless it is in the last loop. */
  lemma AnythingMayHappen(s: State)
    ensures forall i: nat :: i < |s.workers| && s.workers[i] == Asleep ==> CanStep(s, WakeSpuriously(i))
    ensures s.owner == Serving ==> CanStep(s, BeginDestroy)
    ensures s.owner == Serving && (s.waiter.Away? || s.waiter.Returned?) ==> CanStep(s, BeginWait)
    ensures s.owner != Cleared && (s.waiter == Polling(1) || s.waiter == Polling(2)) ==> CanStep(s, TimeOut)
    ensures s.owner == Destroying ==> CanStep(s, PostAll)
  {
  }

  /** Only a taken queue lock and the wait set of the semaphore block a worker. */
  lemma WhatBlocks(s: State, i: nat)
    requires i < |s.workers| && !CanStep(s, WorkerStep(i)) && forall w: nat :: !CanStep(s, Repost(i, w))
    ensures s.workers[i] in {Asleep, Exited} || (s.workers[i] == Pulling && !s.pool.lock.Unlocked?)
  {
    var w := SignalHasChoice(s.workers);
    assert !CanStep(s, Repost(i, w));
  }

  /** What was added, pulled and finished stays so, in that order. */
  lemma HistoryGrows(s: State, acts: seq<Action>, t: State)
    requires Run(Next, s, acts, t)
    ensures s.jobs.added <= t.jobs.added && s.jobs.pulled <= t.jobs.pulled && s.jobs.finished <= t.jobs.finished
  {
    var inv := (x: State) =>
      s.jobs.added <= x.jobs.added && s.jobs.pulled <= x.jobs.pulled && s.jobs.finished <= x.jobs.finished;
    forall x, a | inv(x) && Next(x, a).Some? ensures inv(Next(x, a).value) {
      StepGrows(x, a);
    }
    Invariance(Next, inv, s, acts, t);
  }

  lemma StepGrows(s: State, a: Action)
    requires CanStep(s, a)
    ensures var t := Step(s, a);
            s.jobs.added <= t.jobs.added && s.jobs.pulled <= t.jobs.pulled && s.jobs.finished <= t.jobs.finished
  {
  }

  // ----- Waiting

  ghost function Loop(w: Waiter): nat {
    match w
    case Away => 0
    case Polling(loop) => loop
    case SawEmpty(loop, _) => loop
    case Returned(_) => 4
  }

  /** thpool_wait goes through its three loops in order, and stays in a loop while it reads a working thread. */
  lemma WaiterGoesForward(s: State, a: Action)
    requires Waits(s) && CanStep(s, a) && !a.BeginWait?
    ensures Loop(s.waiter) <= Loop(Step(s, a).waiter) <= Loop(s.waiter) + 1
    ensures a.ReadWorking? && s.pool.working != 0 ==> Step(s, a).waiter == Polling(Loop(s.waiter))
    ensures a.ReadLength? && s.pool.queue != [] ==> Step(s, a) == s
    ensures !Polls(a) ==> Step(s, a).waiter == s.waiter
  {
  }

  predicate Polls(a: Action) {
    a.ReadLength? || a.ReadWorking? || a.TimeOut?
  }

  /** The waiter polls, and nobody else moves. */
  function PollNext(s: State, a: Action): Option<State> {
    if Polls(a) then Next(s, a) else None
  }

  ghost predicate Idle(s: State) {
    s.pool.queue == [] && s.pool.working == 0
  }

  /** Reads that a waiter takes until it returns, if the pool is idle. */
  ghost function ReadsLeft(w: Waiter): int {
    match w
    case Polling(loop) => 8 - 2 * loop
    case SawEmpty(loop, _) => 7 - 2 * loop
    case _ => 0
  }

  /** In an idle pool a waiter returns by its next reads, and what it has seen are all jobs added. */
  lemma {:induction false} ReadsReturn(s: State) returns (acts: seq<Action>)
    requires Idle(s) && s.owner != Cleared
    requires (s.waiter.Polling? || (s.waiter.SawEmpty? && s.waiter.seen == |s.jobs.added|)) && 1 <= s.waiter.loop <= 3
    ensures Run(PollNext, s, acts, s.(waiter := Returned(|s.jobs.added|)))
    ensures |acts| == ReadsLeft(s.waiter)
    decreases ReadsLeft(s.waiter)
  {
    var t := s.(waiter := Returned(|s.jobs.added|));
    var a := if s.waiter.Polling? then ReadLength else ReadWorking;
    var rest: seq<Action> := [];
    if s.waiter.Polling? || s.waiter.loop < 3 {
      rest := ReadsReturn(Step(s, a));
    }
    RunCons(PollNext, s, a, rest, t);
    acts := [a] + rest;
  }

  /** Polls change only the waiter; in a pool that is not idle they never return. */
  lemma PollsOnlyPoll(s: State, acts: seq<Action>, t: State)
    requires s.waiter.Polling? && Run(PollNext, s, acts, t)
    ensures t == s.(waiter := t.waiter)
    ensures !Idle(s) ==> !t.waiter.Returned?
  {
    var inv := (x: State) =>
      && x == s.(waiter := x.waiter)
      && (!Idle(s) ==> x.waiter.Polling? || (x.waiter.SawEmpty? && s.pool.queue == []));
    forall x, a | inv(x) && PollNext(x, a).Some? ensures inv(PollNext(x, a).value) {}
    Invariance(PollNext, inv, s, acts, t);
  }

  ghost predicate ReturnsBy(s: State, acts: seq<Action>, t: State) {
    Run(PollNext, s, acts, t) && t.waiter.Returned?
  }

  /** In any reachable state a polling waiter can return by its own steps if and only if the queue is empty
      and no worker is working; then six reads are enough, and it has seen every job added. */
  lemma WaitReturnsIffIdle(n: nat, before: seq<Action>, s: State)
    requires Run(Next, Init(n), before, s) && s.waiter.Polling? && s.owner != Cleared
    ensures (exists acts, t :: ReturnsBy(s, acts, t)) <==> s.pool.queue == [] && s.pool.working == 0
    ensures s.pool.queue == [] && s.pool.working == 0 ==>
              exists acts: seq<Action> :: |acts| <= 6 && Run(PollNext, s, acts, s.(waiter := Returned(|s.jobs.added|)))
  {
    InitInv(n);
    RunKeepsInv(Init(n), before, s);
    if Idle(s) {
      var acts := ReadsReturn(s);
      var t := s.(waiter := Returned(|s.jobs.added|));
      assert |acts| <= 6 && ReturnsBy(s, acts, t);
    } else {
      forall acts, t | Run(PollNext, s, acts, t) ensures !ReturnsBy(s, acts, t) {
        PollsOnlyPoll(s, acts, t);
      }
    }
  }

  lemma {:induction false} PollRunIsRun(s: State, acts: seq<Action>, t: State)
    requires Run(PollNext, s, acts, t)
    ensures Run(Next, s, acts, t)
    decreases |acts|
  {
    if acts != [] {
      PollRunIsRun(Next(s, acts[0]).value, acts[1..], t);
    }
  }

  lemma QuietPoolIsIdle(n: nat, before: seq<Action>, s: State)
    requires n > 0 && Run(Next, Init(n), before, s) && s.pool.keepalive && Quiet(s)
    ensures Idle(s) && multiset(s.jobs.finished) == multiset(s.jobs.added)
  {
    QuietPoolIsDone(n, before, s);
    InitInv(n);
    RunKeepsInv(Init(n), before, s);
    AllAsleepAtRest(s);
    SumConstant(Busy, s.workers, 0);
  }

  /** A call of thpool_wait on a pool that has come to rest returns after seven steps of its own, with every
      job added finished. */
  lemma WaitOnQuietPoolReturns(n: nat, before: seq<Action>, s: State) returns (acts: seq<Action>, t: State)
    requires n > 0 && Run(Next, Init(n), before, s) && s.owner == Serving && s.waiter.Away? && Quiet(s)
    ensures Run(Next, s, acts, t) && |acts| == 7 && t.waiter == Returned(|t.jobs.added|)
    ensures t.jobs == s.jobs && multiset(t.jobs.finished) == multiset(t.jobs.added)
  {
    InitInv(n);
    RunKeepsInv(Init(n), before, s);
    QuietPoolIsIdle(n, before, s);
    var u := Step(s, BeginWait);
    t := u.(waiter := Returned(|s.jobs.added|));
    var polls := ReadsReturn(u);
    PollRunIsRun(u, polls, t);
    RunCons(Next, s, BeginWait, polls, t);
    acts := [BeginWait] + polls;
  }

  // ----- Destroying

  /** After a post to all, if no worker and no pusher can move any more, every worker has exited and the
      queue can be cleared. */
  lemma DestructionEnds(s: State)
    requires ShuttingDown(s) && s.owner == Destroying && Quiet(Step(s, PostAll))
    ensures CanStep(s, Clear) && Step(s, Clear).owner == Cleared
    ensures forall i: nat :: i < |s.workers| ==> s.workers[i] == Exited
  {
    if s.pool.alive != 0 {
      PostAllUnblocks(s);
      QuietHasNoMove(Step(s, PostAll));
      assert false;
    }
    StepKeepsInv(s, PostAll);
    QuietMeansAtRest(Step(s, PostAll));
    forall i: nat | i < |s.workers| ensures s.workers[i] == Exited {
      assert WorkerPhase(s.owner, s.pool.keepalive, s.workers[i]);
      AliveMeans(s, i);
    }
  }

  lemma QuietHasNoMove(s: State)
    requires Quiet(s)
    ensures forall w: nat :: !CanStep(s, PostPush(w))
    ensures forall i: nat, a: Action :: CanStep(s, a) ==> !Moves(s, a, i)
  {
  }

  /** Steps that the workers have left, waits and wake-ups apart. */
  ghost function Remaining(s: State): int {
    Sum(StepsToExit, s.workers)
  }

  lemma PostAllKeepsRemaining(s: State)
    requires CanStep(s, PostAll)
    ensures Remaining(Step(s, PostAll)) == Remaining(s)
  {
    StepSum(StepsToExit, s, PostAll);
  }

  lemma PostPushKeepsRemaining(s: State, w: nat)
    requires CanStep(s, PostPush(w))
    ensures Remaining(Step(s, PostPush(w))) == Remaining(s)
  {
    StepSum(StepsToExit, s, PostPush(w));
  }

  lemma MoveLowersRemaining(s: State, a: Action)
    requires ShuttingDown(s) && CanStep(s, a) && (a.WorkerStep? || a.Repost?) && Moves(s, a, a.i)
    ensures Remaining(Step(s, a)) < Remaining(s)
  {
    StepSum(StepsToExit, s, a);
    ShutdownStep(s, a, a.i);
  }

  /** The next move of some worker, after a post to all. */
  lemma MoveAfterPostAll(s: State) returns (a: Action)
    requires ShuttingDown(s) && s.owner == Destroying && s.pool.alive != 0 && !s.pool.lock.PusherHolds?
    ensures CanStep(s, PostAll) && CanStep(Step(s, PostAll), a) && (a.WorkerStep? || a.Repost?)
    ensures Moves(Step(s, PostAll), a, a.i)
  {
    var t := Step(s, PostAll);
    StepKeepsInv(s, PostAll);
    if t.pool.lock.WorkerHolds? {
      var w := SignalHasChoice(t.workers);
      HolderCanRepost(t, w);
      a := Repost(t.pool.lock.i, w);
    } else {
      SumNonNegative(Alive, t.workers);
      var i := SumWitness(Alive, t.workers, 0);
      a := WorkerStep(i);
    }
  }

  lemma NoneAliveFreesLock(s: State)
    requires Inv(s) && s.pool.alive == 0
    ensures !s.pool.lock.WorkerHolds?
  {
    if s.pool.lock.WorkerHolds? {
      assert s.workers[s.pool.lock.i].Reposting?;
      AliveMeans(s, s.pool.lock.i);
      assert false;
    }
  }

  lemma OwnerStays(s: State, a: Action)
    requires CanStep(s, a) && (a.WorkerStep? || a.Repost? || a.PostPush? || a.PostAll?)
    ensures Step(s, a).owner == s.owner
  {
  }

  /** The thread that destroys a pool can always get to the end: from any state of a shutdown there is a way
      on which all workers exit and the queue is cleared. */
  lemma {:induction false} DestructionCompletes(s: State) returns (acts: seq<Action>, t: State)
    requires ShuttingDown(s) && s.owner == Destroying
    ensures Run(Next, s, acts, t) && t.owner == Cleared
    decreases Remaining(s), if s.pool.lock.PusherHolds? then 1 else 0
  {
    hide ShuttingDown, Step, CanStep, Remaining, Moves;
    DyingMeans(s);
    if s.pool.lock.PusherHolds? {
      var a, u := PushEnds(s);
      acts, t := DestructionCompletes(u);
      RunCons(Next, s, a, acts, t);
      acts := [a] + acts;
    } else if s.pool.alive == 0 {
      acts, t := ClearNow(s);
    } else {
      var a := MoveAfterPostAll(s);
      var u := Step(s, PostAll);
      var v := Step(u, a);
      StepKeepsShutdown(s, PostAll);
      StepKeepsShutdown(u, a);
      OwnerStays(s, PostAll);
      OwnerStays(u, a);
      PostAllKeepsRemaining(s);
      MoveLowersRemaining(u, a);
      DyingMeans(v);
      acts, t := DestructionCompletes(v);
      RunCons(Next, u, a, acts, t);
      RunCons(Next, s, PostAll, [a] + acts, t);
      acts := [PostAll] + ([a] + acts);
    }
  }

  lemma DyingMeans(s: State)
    requires ShuttingDown(s)
    ensures 0 <= Remaining(s)
  {
    SumNonNegative(StepsToExit, s.workers);
  }

  lemma PushEnds(s: State) returns (a: Action, u: State)
    requires ShuttingDown(s) && s.owner == Destroying && s.pool.lock.PusherHolds?
    ensures CanStep(s, a) && u == Step(s, a) && ShuttingDown(u) && u.owner == Destroying
    ensures Remaining(u) == Remaining(s) && !u.pool.lock.PusherHolds?
  {
    var w := SignalHasChoice(s.workers);
    a := PostPush(w);
    u := Step(s, a);
    StepKeepsShutdown(s, a);
    PostPushKeepsRemaining(s, w);
  }

  lemma ClearNow(s: State) returns (acts: seq<Action>, t: State)
    requires ShuttingDown(s) && s.owner == Destroying && s.pool.alive == 0 && !s.pool.lock.PusherHolds?
    ensures Run(Next, s, acts, t) && t.owner == Cleared
  {
    NoneAliveFreesLock(s);
    t := Step(s, Clear);
    RunCons(Next, s, Clear, [], t);
    acts := [Clear] + [];
  }
}
