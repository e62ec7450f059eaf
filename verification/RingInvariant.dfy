/** The whole-run invariant of the ring pool. */
module RingInvariant {
  import opened Runs
  import opened Counting
  import opened RingSpec
  import opened RingProtocol

  ghost function Unexited(w: Worker): int {
    if w.Exited? then 0 else 1
  }

  ghost function Awake(w: Worker): int {
    if w.WantsLock? then 1 else 0
  }

  ghost function Holding(x: Task): Worker -> int {
    w => if w == Running(x) then 1 else 0
  }

  /** First in, first out, within the size; without workers nothing is taken. */
  ghost predicate Fifo(s: State) {
    && |s.pool.queue| <= s.pool.size
    && s.accepted == s.taken + s.pool.queue
    && (s.workers == [] ==> s.taken == [])
  }

  /** As often as a task was taken, it is finished or with a worker. */
  ghost predicate Conserved(s: State, x: Task) {
    multiset(s.taken)[x] == Sum(Holding(x), s.workers) + multiset(s.finished)[x]
  }

  /** `started` is the number of workers that have not left, but for one just being counted. */
  ghost predicate Counters(s: State) {
    && s.pool.started + (if s.owner.Spawned? then 1 else 0) == Sum(Unexited, s.workers)
    && s.pool.threads + (if s.owner.Spawned? then 1 else 0) == |s.workers|
    && (s.owner.Creating? || s.owner.Spawned? || s.owner.Serving? <==> s.pool.mode == Open)
    && |s.workers| <= s.goal
    && (s.owner.Serving? ==> |s.workers| == s.goal)
    && (s.owner.Creating? || s.owner.Spawned? ==> s.accepted == [])
  }

  /** Who sleeps and who has left. */
  ghost predicate Places(s: State) {
    && (s.pool.mode == Open ==> forall i: nat :: i < |s.workers| ==> s.workers[i] != Exited)
    && (s.pool.mode != Open ==> NoneAsleep(s.workers))
    && (s.pool.mode == Graceful ==> forall i: nat :: i < |s.workers| && s.workers[i] == Exited ==> s.pool.queue == [])
    && (s.owner.Joining? ==> s.owner.k <= |s.workers| && forall i: nat :: i < s.owner.k ==> s.workers[i] == Exited)
    && (s.owner.Freed? ==> forall i: nat :: i < |s.workers| ==> s.workers[i] == Exited)
    && !s.owner.Refused?
  }

  /** While the pool is open, a worker sleeps only if enough others are on their way to the queue. */
  ghost predicate Conserving(s: State) {
    s.pool.mode == Open && !NoneAsleep(s.workers) ==> |s.pool.queue| <= Sum(Awake, s.workers)
  }

  ghost predicate Inv(s: State) {
    Fifo(s) && Counters(s) && Places(s) && Conserving(s) && forall x :: Conserved(s, x)
  }

  lemma InitInv(size: nat, goal: nat)
    ensures Inv(Init(size, goal))
  {
  }

  /** A step that moves one worker changes the sums by that worker. */
  lemma MoveWorker(ws: seq<Worker>, i: nat, w: Worker)
    requires i < |ws|
    ensures Sum(Unexited, ws[i := w]) == Sum(Unexited, ws) - Unexited(ws[i]) + Unexited(w)
    ensures Sum(Awake, ws[i := w]) == Sum(Awake, ws) - Awake(ws[i]) + Awake(w)
  {
    SumUpdate(Unexited, ws, i, w);
    SumUpdate(Awake, ws, i, w);
  }

  /** When every worker has been joined, `started` is zero. */
  lemma AllLeft(s: State)
    requires Counters(s) && Places(s) && s.owner == Joining(s.pool.threads)
    ensures s.pool.started == 0
  {
    SumConstant(Unexited, s.workers, 0);
  }

  /** What a step does to the sums and to the bag of running tasks. */
  lemma StepSums(s: State, a: Action)
    requires CanStep(s, a)
    ensures var t := Step(s, a);
            && Sum(Unexited, t.workers) == Sum(Unexited, s.workers) + (
                 if a.Spawn? then 1
                 else if a.TakeLock? && WorkerTurn(s.pool) == Leave then -1
                 else 0)
            && (a.SpawnFails? || a.Destroy? || Sum(Awake, t.workers) == Sum(Awake, s.workers) + (
                 if a.TakeLock? then -1
                 else if a.Spawn? || a.Finish? || a.WakeSpuriously? then 1
                 else if a.AddTask? && AddCode(s.pool, a.task) == 0 && !NoneAsleep(s.workers) then 1
                 else 0))
  {
    match a
    case Spawn =>
      SumAppend(Unexited, s.workers, WantsLock);
      SumAppend(Awake, s.workers, WantsLock);
    case SpawnFails => SumEqual(Unexited, WakeAll(s.workers), Unexited, s.workers);
    case Destroy(_) => SumEqual(Unexited, WakeAll(s.workers), Unexited, s.workers);
    case AddTask(t, w) => if w < |s.workers| { MoveWorker(s.workers, w, WantsLock); }
    case TakeLock(i) => MoveWorker(s.workers, i, Step(s, a).workers[i]);
    case Finish(i) => MoveWorker(s.workers, i, WantsLock);
    case WakeSpuriously(i) => MoveWorker(s.workers, i, WantsLock);
    case _ =>
  }

  lemma StepKeepsCounters(s: State, a: Action)
    requires Counters(s) && CanStep(s, a)
    ensures Counters(Step(s, a))
  {
    StepSums(s, a);
  }

  lemma StepKeepsConserving(s: State, a: Action)
    requires Counters(s) && Conserving(s) && CanStep(s, a)
    ensures Conserving(Step(s, a))
  {
    StepSums(s, a);
    SumNonNegative(Awake, Step(s, a).workers);
  }

  lemma StepKeepsPlaces(s: State, a: Action)
    requires Counters(s) && Places(s) && CanStep(s, a)
    ensures Places(Step(s, a))
  {
    if a.Free? { AllLeft(s); }
  }

  lemma StepKeepsFifo(s: State, a: Action)
    requires Fifo(s) && CanStep(s, a)
    ensures Fifo(Step(s, a))
  {
    if a.TakeLock? && WorkerTurn(s.pool) == Take {
      assert s.taken + s.pool.queue == (s.taken + [s.pool.queue[0]]) + s.pool.queue[1..];
    }
  }

  lemma TakeLockKeepsTask(s: State, i: nat, x: Task)
    requires Conserved(s, x) && CanStep(s, TakeLock(i))
    ensures Conserved(Step(s, TakeLock(i)), x)
  {
    SumUpdate(Holding(x), s.workers, i, Step(s, TakeLock(i)).workers[i]);
  }

  lemma StepKeepsTask(s: State, a: Action, x: Task)
    requires Conserved(s, x) && CanStep(s, a)
    ensures Conserved(Step(s, a), x)
  {
    match a
    case TakeLock(i) => TakeLockKeepsTask(s, i, x);
    case Finish(i) => SumUpdate(Holding(x), s.workers, i, WantsLock);
    case _ => QuietStepKeepsTask(s, a, x);
  }

  /** The other actions take and finish no task. */
  lemma QuietStepKeepsTask(s: State, a: Action, x: Task)
    requires Conserved(s, x) && CanStep(s, a) && !a.TakeLock? && !a.Finish?
    ensures Conserved(Step(s, a), x)
  {
    match a
    case Spawn => SumAppend(Holding(x), s.workers, WantsLock);
    case SpawnFails => SumEqual(Holding(x), WakeAll(s.workers), Holding(x), s.workers);
    case Destroy(_) => SumEqual(Holding(x), WakeAll(s.workers), Holding(x), s.workers);
    case AddTask(t, w) => if w < |s.workers| { SumUpdate(Holding(x), s.workers, w, WantsLock); }
    case WakeSpuriously(i) => SumUpdate(Holding(x), s.workers, i, WantsLock);
    case _ =>
  }

  lemma StepKeepsInv(s: State, a: Action)
    requires Inv(s) && CanStep(s, a)
    ensures Inv(Step(s, a))
  {
    StepKeepsFifo(s, a);
    StepKeepsCounters(s, a);
    StepKeepsPlaces(s, a);
    StepKeepsConserving(s, a);
    forall x ensures Conserved(Step(s, a), x) {
      StepKeepsTask(s, a, x);
    }
  }

  lemma RunKeepsInv(s: State, acts: seq<Action>, t: State)
    requires Inv(s) && Run(Next, s, acts, t)
    ensures Inv(t)
  {
    forall x, a | Inv(x) && Next(x, a).Some? ensures Inv(Next(x, a).value) {
      StepKeepsInv(x, a);
    }
    Invariance(Next, Inv, s, acts, t);
  }
}
