/** The whole-run invariant of the semaphore pool, for all posts and all results of Execute. */
module SemaphoreInvariant {
  import opened Runs
  import opened Counting
  import opened SemaphoreSpec
  import opened SemaphoreProtocol

  /** The worker took a token and has not yet decremented the shadow count. */
  ghost function Late(w: Worker): int {
    if w.HasToken? then 1 else 0
  }

  /** The worker decremented the shadow count and has not yet popped. */
  ghost function Unpopped(w: Worker): int {
    if w.Entering? || w.Popping? then 1 else 0
  }

  /** The worker decremented the shadow count and may yet promote a backlog request. */
  ghost function Engaged(w: Worker): int {
    if w.Entering? || w.Popping? || w.Executing? || w.Promoting? then 1 else 0
  }

  ghost function Active(w: Worker): int {
    if w.Popping? || w.Executing? || w.Promoting? || w.Leaving? then 1 else 0
  }

  ghost function RunsRequest(x: Request): Worker -> int {
    w => if w == Executing(x) then 1 else 0
  }

  ghost predicate Counters(s: State) {
    && |s.workers| == s.pool.threads && 1 <= s.pool.threads <= 64
    && s.pool.shadow == s.pool.kernel + Sum(Late, s.workers)
    && s.pool.shadow <= s.pool.threads
    && s.pool.pending < WIDTH
    && s.pool.active == Sum(Active, s.workers)
  }

  /** Every queued request has a token, a place in the backlog or a worker on its way to pop it, but
      for what `remove` dropped, what pops found missing and what the backlog counter lost. */
  ghost predicate Balance(s: State) {
    |s.pool.queue| + s.dropped ==
      s.pool.shadow + s.pool.pending + Sum(Unpopped, s.workers) + s.nulls + WIDTH * s.wraps
  }

  /** A backlog implies that all tokens are out or accounted for by workers that may promote it, but for
      the promotions skipped since the backlog arose. */
  ghost predicate Backlog(s: State) {
    s.pool.pending > 0 ==> s.pool.threads <= s.pool.shadow + Sum(Engaged, s.workers) + s.skipped
  }

  ghost predicate History(s: State) {
    |s.posted| == |s.popped| + |s.pool.queue| + s.dropped
  }

  /** Pops find nothing only for what was dropped, promotions are skipped only by failures and by empty
      pops while there is a backlog, and unless something was dropped requests leave the queue in the order posted. */
  ghost predicate Losses(s: State) {
    && s.nulls <= s.dropped
    && s.skipped <= s.failed + s.nulls
    && (s.pool.pending == 0 ==> s.skipped == 0)
    && (s.dropped == 0 ==> s.posted == s.popped + s.pool.queue)
  }

  ghost predicate Executed(s: State, x: Request) {
    multiset(s.popped)[x] == multiset(s.executed)[x] + Sum(RunsRequest(x), s.workers)
  }

  ghost predicate Inv(s: State) {
    Counters(s) && Balance(s) && Backlog(s) && History(s) && Losses(s) && forall x: Request :: Executed(s, x)
  }

  lemma InitInv(threads: nat)
    requires 1 <= threads <= 64
    ensures Inv(Init(threads))
  {
    var ws := Init(threads).workers;
    SumConstant(Late, ws, 0);
    SumConstant(Unpopped, ws, 0);
    SumConstant(Active, ws, 0);
    forall x: Request ensures Executed(Init(threads), x) {
      SumConstant(RunsRequest(x), ws, 0);
    }
  }

  /** What a worker's step does to the sums. */
  lemma StepSums(s: State, a: Action)
    requires CanStep(s, a) && !a.PostRequest?
    ensures a.i < |s.workers| && |Step(s, a).workers| == |s.workers|
    ensures var w, t := s.workers[a.i], Step(s, a).workers;
            && Sum(Late, t) == Sum(Late, s.workers) - Late(w) + Late(t[a.i])
            && Sum(Unpopped, t) == Sum(Unpopped, s.workers) - Unpopped(w) + Unpopped(t[a.i])
            && Sum(Engaged, t) == Sum(Engaged, s.workers) - Engaged(w) + Engaged(t[a.i])
            && Sum(Active, t) == Sum(Active, s.workers) - Active(w) + Active(t[a.i])
    ensures Late(s.workers[a.i]) <= Sum(Late, s.workers)
    ensures Active(s.workers[a.i]) <= Sum(Active, s.workers) <= |s.workers|
    ensures 0 <= Sum(Late, s.workers)
  {
    var w := Step(s, a).workers[a.i];
    SumUpdate(Late, s.workers, a.i, w);
    SumUpdate(Unpopped, s.workers, a.i, w);
    SumUpdate(Engaged, s.workers, a.i, w);
    SumUpdate(Active, s.workers, a.i, w);
    SumAtLeast(Late, s.workers, a.i);
    SumAtLeast(Active, s.workers, a.i);
    SumAtMost(Active, s.workers, 1);
    SumNonNegative(Late, s.workers);
  }

  lemma StepKeepsCounters(s: State, a: Action)
    requires Counters(s) && CanStep(s, a)
    ensures Counters(Step(s, a))
  {
    match a
    case PostRequest(r) => PostKeepsCounters(s, r);
    case Decrement(i) => DecrementKeepsCounters(s, i);
    case _ => OtherKeepsCounters(s, a);
  }

  lemma PostKeepsCounters(s: State, r: Request)
    requires Counters(s)
    ensures Counters(Step(s, PostRequest(r)))
  {
    SumNonNegative(Late, s.workers);
  }

  lemma DecrementKeepsCounters(s: State, i: nat)
    requires Counters(s) && CanStep(s, Decrement(i))
    ensures Counters(Step(s, Decrement(i)))
  {
    StepSums(s, Decrement(i));
  }

  lemma OtherKeepsCounters(s: State, a: Action)
    requires Counters(s) && CanStep(s, a) && !a.PostRequest? && !a.Decrement?
    ensures Counters(Step(s, a))
  {
    StepSums(s, a);
  }

  lemma StepKeepsBalance(s: State, a: Action)
    requires Counters(s) && Balance(s) && CanStep(s, a)
    ensures Balance(Step(s, a))
  {
    if a.PostRequest? {
      PostKeepsBalance(s, a.r);
    } else {
      StepSums(s, a);
      if a.PopRequest? && s.pool.queue != [] {
        RemoveAllShrinks(s.pool.queue, s.pool.queue[0]);
      }
    }
  }

  lemma PostKeepsBalance(s: State, r: Request)
    requires Counters(s) && Balance(s)
    ensures Balance(Step(s, PostRequest(r)))
  {
    SumNonNegative(Late, s.workers);
  }

  lemma StepKeepsBacklog(s: State, a: Action)
    requires Counters(s) && Backlog(s) && CanStep(s, a)
    ensures Backlog(Step(s, a))
  {
    SumNonNegative(Engaged, Step(s, a).workers);
    if a.PostRequest? {
      SumNonNegative(Late, s.workers);
    } else {
      StepSums(s, a);
    }
  }

  lemma StepKeepsHistory(s: State, a: Action)
    requires History(s) && CanStep(s, a)
    ensures History(Step(s, a))
  {
    if a.PopRequest? && s.pool.queue != [] {
      RemoveAllShrinks(s.pool.queue, s.pool.queue[0]);
    }
  }

  lemma EmptyPopFollowsDrop(s: State, i: nat)
    requires Counters(s) && Balance(s) && CanStep(s, PopRequest(i)) && s.pool.queue == []
    ensures s.nulls < s.dropped
  {
    SumNonNegative(Late, s.workers);
    SumAtLeast(Unpopped, s.workers, i);
  }

  lemma StepKeepsLosses(s: State, a: Action)
    requires Counters(s) && Balance(s) && Losses(s) && CanStep(s, a)
    ensures Losses(Step(s, a))
  {
    hide Counters, Balance;
    match a
    case PostRequest(r) =>
      assert s.dropped == 0 ==> s.posted + [r] == s.popped + (s.pool.queue + [r]);
    case PopRequest(i) =>
      if s.pool.queue == [] {
        EmptyPopFollowsDrop(s, i);
      } else if Step(s, a).dropped == 0 {
        FrontOnce(s.pool.queue);
        assert s.popped + s.pool.queue == (s.popped + [s.pool.queue[0]]) + s.pool.queue[1..];
      }
    case _ =>
  }

  /** A front request that is queued once leaves the rest of the queue as it is. */
  lemma FrontOnce(q: seq<Request>)
    requires q != [] && multiset(q)[q[0]] == 1
    ensures RemoveAll(q, q[0]) == q[1..]
  {
    assert q == [q[0]] + q[1..];
    PopTakesOneIffDistinct(q);
  }

  lemma StepKeepsExecuted(s: State, a: Action, x: Request)
    requires Executed(s, x) && CanStep(s, a)
    ensures Executed(Step(s, a), x)
  {
    if !a.PostRequest? {
      SumUpdate(RunsRequest(x), s.workers, a.i, Step(s, a).workers[a.i]);
    }
  }

  lemma StepKeepsInv(s: State, a: Action)
    requires Inv(s) && CanStep(s, a)
    ensures Inv(Step(s, a))
  {
    StepKeepsCounters(s, a);
    StepKeepsBalance(s, a);
    StepKeepsBacklog(s, a);
    StepKeepsHistory(s, a);
    StepKeepsLosses(s, a);
    forall x: Request ensures Executed(Step(s, a), x) {
      StepKeepsExecuted(s, a, x);
    }
  }

  lemma RunKeepsInv(s: State, acts: seq<Action>, t: State)
    requires Inv(s) && Run(Next, s, acts, t)
    ensures Inv(t)
  {
    forall x, a | Inv(x) && Next(x, a).Some? ensures Inv(Next(x, a).value) {
      StepKeepsInv(x, a);
    }
    Invariance(Next, Inv, s, acts, t);
  }
}
