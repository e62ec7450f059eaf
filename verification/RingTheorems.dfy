/** What every run of the ring pool does. */
module RingTheorems {
  import opened Runs
  import opened Counting
  import opened RingSpec
  import opened RingProtocol
  import opened RingInvariant

  ghost predicate AllExited(s: State) {
    forall i: nat :: i < |s.workers| ==> s.workers[i] == Exited
  }

  /** No worker can take a step of its own. */
  ghost predicate WorkersStuck(s: State) {
    forall i: nat :: !CanStep(s, TakeLock(i)) && !CanStep(s, Finish(i))
  }

  lemma StuckWorkers(s: State)
    requires WorkersStuck(s)
    ensures forall i: nat :: i < |s.workers| ==> s.workers[i] == Asleep || s.workers[i] == Exited
  {
    forall i: nat | i < |s.workers| ensures s.workers[i] == Asleep || s.workers[i] == Exited {
      assert !CanStep(s, TakeLock(i)) && !CanStep(s, Finish(i));
    }
  }

  // ----- Conservation

  /** The tasks accepted, in order, are the tasks taken followed by the queue; and every accepted task
      is queued, with a worker or finished, as often as it was accepted. */
  lemma TasksAreConserved(size: nat, goal: nat, acts: seq<Action>, t: State, x: Task)
    requires Run(Next, Init(size, goal), acts, t)
    ensures t.accepted == t.taken + t.pool.queue && |t.pool.queue| <= t.pool.size
    ensures multiset(t.accepted)[x] ==
            multiset(t.pool.queue)[x] + Sum(Holding(x), t.workers) + multiset(t.finished)[x]
  {
    InitInv(size, goal);
    RunKeepsInv(Init(size, goal), acts, t);
    assert Conserved(t, x);
  }

  /** When no worker can move, nothing is running: what was taken is finished. */
  lemma NothingRunning(s: State)
    requires Inv(s) && WorkersStuck(s)
    ensures multiset(s.taken) == multiset(s.finished)
  {
    StuckWorkers(s);
    forall x: Task ensures multiset(s.taken)[x] == multiset(s.finished)[x] {
      assert Conserved(s, x);
      SumConstant(Holding(x), s.workers, 0);
    }
  }

  // ----- Work conservation while the pool is open

  /** If a worker sleeps, at least as many workers are on their way to the queue as there are tasks in it. */
  lemma SleepersAreNotNeeded(size: nat, goal: nat, acts: seq<Action>, t: State)
    requires Run(Next, Init(size, goal), acts, t) && t.pool.mode == Open && !NoneAsleep(t.workers)
    ensures |t.pool.queue| <= Sum(Awake, t.workers)
    ensures t.pool.queue != [] ==> exists i: nat :: i < |t.workers| && t.workers[i] == WantsLock
  {
    InitInv(size, goal);
    RunKeepsInv(Init(size, goal), acts, t);
    if t.pool.queue != [] {
      var i := SumWitness(Awake, t.workers, 0);
    }
  }

  /** An open pool with workers, none of which can move, has run every accepted task. */
  lemma IdlePoolIsDone(size: nat, goal: nat, acts: seq<Action>, t: State)
    requires Run(Next, Init(size, goal), acts, t) && t.pool.mode == Open && t.workers != [] && WorkersStuck(t)
    ensures t.pool.queue == [] && multiset(t.finished) == multiset(t.accepted)
  {
    InitInv(size, goal);
    RunKeepsInv(Init(size, goal), acts, t);
    StuckWorkers(t);
    assert t.workers[0] == Asleep;
    SumConstant(Awake, t.workers, 0);
    NothingRunning(t);
    assert t.accepted == t.taken;
  }

  /** What was accepted, taken and finished stays so, in that order. */
  lemma HistoryGrows(s: State, acts: seq<Action>, t: State)
    requires Run(Next, s, acts, t)
    ensures s.accepted <= t.accepted && s.taken <= t.taken && s.finished <= t.finished
  {
    var inv := (x: State) => s.accepted <= x.accepted && s.taken <= x.taken && s.finished <= x.finished;
    forall x, a | inv(x) && Next(x, a).Some? ensures inv(Next(x, a).value) {
      StepGrows(x, a);
    }
    Invariance(Next, inv, s, acts, t);
  }

  /** And threadpool_free frees the pool exactly if no started thread is left. */
  lemma StepGrows(s: State, a: Action)
    requires CanStep(s, a)
    ensures var t := Step(s, a);
            s.accepted <= t.accepted && s.taken <= t.taken && s.finished <= t.finished
    ensures a.Free? ==> (Step(s, a).owner == Freed <==> s.pool.started <= 0)
  {
  }

  // ----- Creation, adds and the steps of the workers

  /** The creation of a pool goes on until all threads asked for are started and counted, or one could not
      be started. */
  lemma CreationCompletes(size: nat, goal: nat, acts: seq<Action>, t: State)
    requires Run(Next, Init(size, goal), acts, t)
    requires !CanStep(t, Spawn) && !CanStep(t, CountSpawned) && !CanStep(t, DoneCreating)
    ensures t.owner.Serving? || t.pool.mode != Open
    ensures t.owner.Serving? ==> t.pool.threads == t.pool.started == goal && forall flags :: CanStep(t, Destroy(flags))
  {
    InitInv(size, goal);
    RunKeepsInv(Init(size, goal), acts, t);
    RunKeepsGoal(size, goal, acts, t);
    SumConstantUnexited(t);
  }

  /** What the environment may do at any time: a thread may start or not, a shutdown has any flags, and a
      sleeper may wake without a signal. */
  lemma AnythingMayHappen(size: nat, goal: nat, acts: seq<Action>, t: State)
    requires Run(Next, Init(size, goal), acts, t)
    ensures t.owner == Creating && t.pool.threads < goal ==> CanStep(t, Spawn) && CanStep(t, SpawnFails)
    ensures t.owner == Serving ==> forall flags :: CanStep(t, Destroy(flags))
    ensures forall i: nat :: i < |t.workers| && t.workers[i] == Asleep ==> CanStep(t, WakeSpuriously(i))
  {
    hide Fifo, Places, Conserving, Conserved;
    InitInv(size, goal);
    RunKeepsInv(Init(size, goal), acts, t);
    RunKeepsGoal(size, goal, acts, t);
  }

  lemma RunKeepsGoal(size: nat, goal: nat, acts: seq<Action>, t: State)
    requires Run(Next, Init(size, goal), acts, t)
    ensures t.goal == goal && t.pool.size == size
  {
    var inv := (x: State) => x.goal == goal && x.pool.size == size;
    forall x, a | inv(x) && Next(x, a).Some? ensures inv(Next(x, a).value) {}
    Invariance(Next, inv, Init(size, goal), acts, t);
  }

  lemma SumConstantUnexited(s: State)
    requires Places(s)
    ensures s.pool.mode == Open ==> Sum(Unexited, s.workers) == |s.workers|
  {
    if s.pool.mode == Open { SumConstant(Unexited, s.workers, 1); }
  }

  /** From the end of the creation until the pool is freed an add is always answered: the task goes behind
      the queue if it has a routine, the queue has room and the pool is open; otherwise nothing happens. */
  lemma AddIsAnswered(s: State, task: Task) returns (woken: nat)
    requires s.owner.Serving? || s.owner.Joining?
    ensures CanStep(s, AddTask(task, woken))
    ensures var t := Step(s, AddTask(task, woken));
            if !task.routine.Null? && |s.pool.queue| != s.pool.size && s.pool.mode == Open
            then t.pool.queue == s.pool.queue + [task] && t.accepted == s.accepted + [task]
            else t == s
  {
    woken := 0;
    if !NoneAsleep(s.workers) {
      woken :| woken < |s.workers| && s.workers[woken] == Asleep;
    }
  }

  /** Steps that each worker and each queued task still cause. */
  ghost function Turns(w: Worker): int {
    match w
    case WantsLock => 1
    case Running(_) => 2
    case _ => 0
  }

  ghost function Work(s: State): int {
    2 * |s.pool.queue| + Sum(Turns, s.workers)
  }

  ghost function Outlook(s: State): int {
    Work(s) - |s.workers| - 3 * |s.accepted|
  }

  /** What wakes workers without a task: a spurious wake-up, and the broadcast of a shutdown. */
  ghost function Disturbance(s: State, a: Action): int {
    if a.WakeSpuriously? then 1 else if a.Destroy? || a.SpawnFails? then |s.workers| else 0
  }

  lemma {:induction false} WakeAllTurns(ws: seq<Worker>)
    ensures |WakeAll(ws)| == |ws| && Sum(Turns, WakeAll(ws)) <= Sum(Turns, ws) + |ws|
    decreases |ws|
  {
    if ws != [] {
      assert WakeAll(ws)[1..] == WakeAll(ws[1..]);
      WakeAllTurns(ws[1..]);
    }
  }

  lemma StepWorks(s: State, a: Action)
    requires CanStep(s, a)
    ensures Outlook(Step(s, a)) + WorkerCost(s, a) - Disturbance(s, a) <= Outlook(s)
  {
    hide WakeAll;
    match a
    case Spawn => SumAppend(Turns, s.workers, WantsLock);
    case SpawnFails => WakeAllTurns(s.workers);
    case Destroy(_) => WakeAllTurns(s.workers);
    case AddTask(t, w) => if w < |s.workers| { SumUpdate(Turns, s.workers, w, WantsLock); }
    case TakeLock(i) => SumUpdate(Turns, s.workers, i, Step(s, a).workers[i]);
    case Finish(i) => SumUpdate(Turns, s.workers, i, WantsLock);
    case WakeSpuriously(i) => SumUpdate(Turns, s.workers, i, WantsLock);
    case _ =>
  }

  /** In every run the workers take at most one step each, three for each task, one for each spurious
      wake-up and one each for a shutdown; so they do not poll. */
  lemma StepsAreBounded(size: nat, goal: nat, acts: seq<Action>, t: State)
    requires Run(Next, Init(size, goal), acts, t)
    ensures Cost(Next, WorkerCost, Init(size, goal), acts) + Work(t) <=
              |t.workers| + 3 * |t.accepted| + Cost(Next, Disturbance, Init(size, goal), acts)
    ensures 0 <= Work(t)
  {
    hide Outlook, WorkerCost, Disturbance, CanStep, Step;
    var inv := (x: State) => true;
    var net := (x: State, a: Action) => WorkerCost(x, a) - Disturbance(x, a);
    forall x, a | inv(x) && Next(x, a).Some?
      ensures inv(Next(x, a).value) && Outlook(Next(x, a).value) + net(x, a) <= Outlook(x)
    {
      StepWorks(x, a);
    }
    BoundedCost(Next, inv, Outlook, net, Init(size, goal), acts, t);
    CostDifference(Next, net, WorkerCost, Disturbance, Init(size, goal), acts);
    OutlookOf(size, goal, t);
  }

  lemma OutlookOf(size: nat, goal: nat, t: State)
    ensures Outlook(Init(size, goal)) == 0
    ensures Outlook(t) == Work(t) - |t.workers| - 3 * |t.accepted| && 0 <= Work(t)
  {
    SumNonNegative(Turns, t.workers);
  }

  // ----- Shutdown

  /** After a graceful shutdown, once every worker has left, every accepted task has run exactly as
      often as it was accepted, if and only if there was a worker or nothing to do. */
  lemma GracefulShutdownRunsEverything(size: nat, goal: nat, acts: seq<Action>, t: State)
    requires Run(Next, Init(size, goal), acts, t) && t.pool.mode == Graceful && AllExited(t)
    ensures (t.pool.queue == [] && multiset(t.finished) == multiset(t.accepted)) <==>
            (t.workers != [] || t.accepted == [])
  {
    hide Inv, AllExited;
    InitInv(size, goal);
    RunKeepsInv(Init(size, goal), acts, t);
    GracefulEnd(t);
  }

  lemma GracefulEnd(s: State)
    requires Inv(s) && s.pool.mode == Graceful && AllExited(s)
    ensures (s.pool.queue == [] && multiset(s.finished) == multiset(s.accepted)) <==>
            (s.workers != [] || s.accepted == [])
  {
    hide Counters, Conserving, Conserved;
    NothingRunning(s);
    if s.workers != [] {
      assert s.workers[0] == Exited;
      assert s.accepted == s.taken;
    }
  }

  /** Steps a worker takes before it leaves, its share of the queue apart. */
  ghost function TurnsToLeave(w: Worker): int {
    match w
    case Exited => 0
    case Running(_) => 2
    case _ => 1
  }

  ghost function TurnsLeft(s: State): int {
    (if s.pool.mode == Graceful then 2 * |s.pool.queue| else 0) + Sum(TurnsToLeave, s.workers)
  }

  ghost function WorkerCost(s: State, a: Action): int {
    if a.TakeLock? || a.Finish? then 1 else 0
  }

  ghost predicate ShuttingDown(s: State) {
    Inv(s) && s.pool.mode != Open
  }

  /** After an immediate shutdown no run takes or accepts another task. */
  lemma ImmediateShutdownFreezesQueue(s: State, acts: seq<Action>, t: State)
    requires ShuttingDown(s) && s.pool.mode == Immediate && Run(Next, s, acts, t)
    ensures t.taken == s.taken && t.accepted == s.accepted && t.pool.queue == s.pool.queue
  {
    hide CanStep, Step;
    var inv := (x: State) => Frozen(x, s);
    forall x, a | inv(x) && Next(x, a).Some? ensures inv(Next(x, a).value) {
      FrozenStep(x, a, s);
    }
    ShutdownIsFrozen(s);
    Invariance(Next, inv, s, acts, t);
  }

  /** Shut down at once, with the tasks as in `s`. */
  ghost predicate Frozen(x: State, s: State) {
    && x.pool.mode == Immediate && x.taken == s.taken && x.accepted == s.accepted && x.pool.queue == s.pool.queue
    && (x.owner.Joining? || x.owner.Freed? || x.owner.Refused?)
  }

  lemma ShutdownIsFrozen(s: State)
    requires ShuttingDown(s) && s.pool.mode == Immediate
    ensures Frozen(s, s)
  {
  }

  lemma FrozenStep(x: State, a: Action, s: State)
    requires Frozen(x, s) && CanStep(x, a)
    ensures Frozen(Step(x, a), s)
  {
  }

  lemma ShutdownStepCounts(s: State, a: Action)
    requires ShuttingDown(s) && CanStep(s, a)
    ensures ShuttingDown(Step(s, a))
    ensures TurnsLeft(Step(s, a)) + WorkerCost(s, a) == TurnsLeft(s)
  {
    StepKeepsInv(s, a);
    match a
    case TakeLock(i) => SumUpdate(TurnsToLeave, s.workers, i, Step(s, a).workers[i]);
    case Finish(i) => SumUpdate(TurnsToLeave, s.workers, i, WantsLock);
    case _ =>
  }

  /** From shutdown on no worker ever sleeps, and a run makes exactly as many worker steps as it
      brings the workers forward: two for each task still to run, one for each worker to leave, and
      one for each task running. */
  lemma ShutdownCountsSteps(s: State, acts: seq<Action>, t: State)
    requires ShuttingDown(s) && Run(Next, s, acts, t)
    ensures ShuttingDown(t) && NoneAsleep(t.workers)
    ensures Cost(Next, WorkerCost, s, acts) + TurnsLeft(t) == TurnsLeft(s)
    ensures 0 <= TurnsLeft(t)
  {
    forall x, a | ShuttingDown(x) && Next(x, a).Some?
      ensures ShuttingDown(Next(x, a).value) && TurnsLeft(Next(x, a).value) + WorkerCost(x, a) == TurnsLeft(x)
    {
      ShutdownStepCounts(x, a);
    }
    ExactCost(Next, ShuttingDown, TurnsLeft, WorkerCost, s, acts, t);
    SumNonNegative(TurnsToLeave, t.workers);
  }

  /** A shutdown in which no worker, join or free can go on is complete: the workers have left in
      exactly `TurnsLeft(s)` steps, the counter is zero and the pool is freed. */
  lemma ShutdownCompletes(s: State, acts: seq<Action>, t: State)
    requires ShuttingDown(s) && Run(Next, s, acts, t)
    requires !CanStep(t, Join) && !CanStep(t, Free)
    requires forall i: nat :: !CanStep(t, TakeLock(i)) && !CanStep(t, Finish(i))
    ensures AllExited(t) && t.pool.started == 0 && t.owner == Freed
    ensures t.workers != [] || s.pool.queue == [] || s.pool.mode == Immediate ==>
              Cost(Next, WorkerCost, s, acts) == TurnsLeft(s)
  {
    ShutdownCountsSteps(s, acts, t);
    NothingEnabledMeansOut(t);
    SumConstant(TurnsToLeave, t.workers, 0);
    ShutdownKeepsMode(s, acts, t);
    if t.workers != [] {
      assert t.workers[0] == Exited;
    }
  }

  lemma NothingEnabledMeansOut(s: State)
    requires ShuttingDown(s) && !CanStep(s, Join) && !CanStep(s, Free)
    requires forall i: nat :: !CanStep(s, TakeLock(i)) && !CanStep(s, Finish(i))
    ensures AllExited(s) && s.pool.started == 0 && s.owner == Freed
  {
    hide Conserved, Fifo, Conserving;
    StuckWorkers(s);
    SumConstant(Unexited, s.workers, 0);
  }

  lemma ShutdownKeepsMode(s: State, acts: seq<Action>, t: State)
    requires ShuttingDown(s) && Run(Next, s, acts, t)
    ensures t.pool.mode == s.pool.mode
    ensures s.pool.queue == [] ==> t.pool.queue == []
  {
    var inv := (x: State) =>
      ShuttingDown(x) && x.pool.mode == s.pool.mode && (s.pool.queue == [] ==> x.pool.queue == []);
    forall x, a | inv(x) && Next(x, a).Some? ensures inv(Next(x, a).value) {
      StepKeepsInv(x, a);
    }
    Invariance(Next, inv, s, acts, t);
  }

  /** In every run, also one in which a thread could not be started: `started` is the number of
      workers that have not left, and once all are joined threadpool_free passes its guard. */
  lemma TeardownPasses(size: nat, goal: nat, acts: seq<Action>, t: State)
    requires Run(Next, Init(size, goal), acts, t)
    ensures t.owner != Refused
    ensures t.owner != Spawned ==> t.pool.started == Sum(Unexited, t.workers) && t.pool.threads == |t.workers|
    ensures t.owner == Joining(t.pool.threads) ==>
              t.pool.started == 0 && AllExited(t) && Step(t, Free).owner == Freed
  {
    InitInv(size, goal);
    RunKeepsInv(Init(size, goal), acts, t);
    if t.owner == Joining(t.pool.threads) {
      AllLeft(t);
    }
  }

  // ----- Shutdown by the flags of threadpool_destroy

  lemma DestroyStarts(s: State, a: Action)
    requires Inv(s) && CanStep(s, a) && (a.Destroy? || a.SpawnFails?)
    ensures var t := Step(s, a);
            && ShuttingDown(t) && t.workers == WakeAll(s.workers) && t.pool.queue == s.pool.queue
            && t.accepted == s.accepted && t.taken == s.taken && |t.workers| == |s.workers|
            && t.pool.mode == if a.Destroy? && a.flags % 2 == 1 then Graceful else Immediate
  {
    StepKeepsInv(s, a);
  }

  /** threadpool_destroy with the low bit of the flags set: once all workers have left, everything
      accepted has run, if there was a worker or nothing to do. */
  lemma GracefulFlagRunsEverything(
      size: nat, goal: nat, acts: seq<Action>, s: State, flags: int, more: seq<Action>, t: State)
    requires Run(Next, Init(size, goal), acts, s) && CanStep(s, Destroy(flags)) && flags % 2 == 1
    requires Run(Next, Step(s, Destroy(flags)), more, t) && AllExited(t)
    ensures (t.pool.queue == [] && multiset(t.finished) == multiset(s.accepted)) <==>
            (s.workers != [] || s.accepted == [])
  {
    hide Inv, Step, CanStep, AllExited;
    InitInv(size, goal);
    RunKeepsInv(Init(size, goal), acts, s);
    DestroyStarts(s, Destroy(flags));
    var u := Step(s, Destroy(flags));
    ShutdownKeepsMode(u, more, t);
    ShutdownAccepts(u, more, t);
    RunCons(Next, s, Destroy(flags), more, t);
    RunConcat(Next, Init(size, goal), acts, s, [Destroy(flags)] + more, t);
    GracefulShutdownRunsEverything(size, goal, acts + ([Destroy(flags)] + more), t);
  }

  /** With the low bit clear, and after a thread could not be started, no task is taken or accepted any
      more. */
  lemma OtherFlagsFreezeQueue(
      size: nat, goal: nat, acts: seq<Action>, s: State, a: Action, more: seq<Action>, t: State)
    requires Run(Next, Init(size, goal), acts, s) && CanStep(s, a)
    requires (a.Destroy? && a.flags % 2 == 0) || a.SpawnFails?
    requires Run(Next, Step(s, a), more, t)
    ensures t.taken == s.taken && t.accepted == s.accepted && t.pool.queue == s.pool.queue
  {
    InitInv(size, goal);
    RunKeepsInv(Init(size, goal), acts, s);
    DestroyStarts(s, a);
    ImmediateShutdownFreezesQueue(Step(s, a), more, t);
  }

  lemma ShutdownAccepts(s: State, acts: seq<Action>, t: State)
    requires ShuttingDown(s) && Run(Next, s, acts, t)
    ensures t.accepted == s.accepted && |t.workers| == |s.workers|
  {
    hide Inv;
    var inv := (x: State) => ShuttingDown(x) && x.accepted == s.accepted && |x.workers| == |s.workers|;
    forall x, a | inv(x) && Next(x, a).Some? ensures inv(Next(x, a).value) {
      StepKeepsInv(x, a);
      ShutdownStepAccepts(x, a);
    }
    Invariance(Next, inv, s, acts, t);
  }

  lemma ShutdownStepAccepts(s: State, a: Action)
    requires ShuttingDown(s) && CanStep(s, a)
    ensures var t := Step(s, a);
            t.pool.mode != Open && t.accepted == s.accepted && |t.workers| == |s.workers|
  {
  }
}
