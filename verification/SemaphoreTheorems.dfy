/** What every run of the semaphore pool does: in general, and when callers keep to `Clean`. */
module SemaphoreTheorems {
  import opened Runs
  import opened Counting
  import opened SemaphoreSpec
  import opened SemaphoreProtocol
  import opened SemaphoreInvariant

  // ----- All runs

  /** The shadow count is the kernel count plus the workers late to decrement it, so a release that
      the shadow count allows never exceeds the maximum of the semaphore; and queue, counters and
      workers balance, whatever is posted and whatever Execute returns. */
  lemma AccountingIsExact(threads: nat, acts: seq<Action>, t: State)
    requires 1 <= threads <= 64 && Run(Next, Init(threads), acts, t)
    ensures t.pool.shadow == t.pool.kernel + Sum(Late, t.workers) <= threads
    ensures t.pool.shadow < threads ==> NotifyOk(t.pool)
    ensures PostOk(t.pool)
    ensures |t.pool.queue| + t.dropped ==
            t.pool.shadow + t.pool.pending + Sum(Unpopped, t.workers) + t.nulls + 65536 * t.wraps
    ensures t.pool.pending < 65536
    ensures |t.posted| == |t.popped| + |t.pool.queue| + t.dropped
    ensures t.pool.active == Sum(Active, t.workers)
  {
    InitInv(threads);
    RunKeepsInv(Init(threads), acts, t);
    RunKeepsThreads(threads, acts, t);
    SumNonNegative(Late, t.workers);
  }

  lemma RunKeepsThreads(threads: nat, acts: seq<Action>, t: State)
    requires Run(Next, Init(threads), acts, t)
    ensures t.pool.threads == threads
  {
    var inv := (x: State) => x.pool.threads == threads;
    forall x, a | inv(x) && Next(x, a).Some? ensures inv(Next(x, a).value) {}
    Invariance(Next, inv, Init(threads), acts, t);
  }

  /** A worker finds the queue empty only if `remove` dropped more than pops have found missing. */
  lemma PopFindsRequestUnlessDropped(threads: nat, acts: seq<Action>, t: State, i: nat)
    requires 1 <= threads <= 64 && Run(Next, Init(threads), acts, t) && CanStep(t, PopRequest(i))
    ensures t.dropped <= t.nulls ==> t.pool.queue != []
  {
    InitInv(threads);
    RunKeepsInv(Init(threads), acts, t);
    SumNonNegative(Late, t.workers);
    SumNonNegative(Unpopped, t.workers);
    SumAtLeast(Unpopped, t.workers, i);
  }

  /** Every worker is blocked in the wait. */
  ghost predicate Blocked(s: State) {
    s.pool.kernel == 0 && forall i: nat :: i < |s.workers| ==> s.workers[i] == Waiting
  }

  lemma BlockedSums(s: State)
    requires Blocked(s)
    ensures Sum(Late, s.workers) == Sum(Unpopped, s.workers) == Sum(Engaged, s.workers) == 0
    ensures forall x: Request :: Sum(RunsRequest(x), s.workers) == 0
  {
    SumConstant(Late, s.workers, 0);
    SumConstant(Unpopped, s.workers, 0);
    SumConstant(Engaged, s.workers, 0);
    forall x: Request ensures Sum(RunsRequest(x), s.workers) == 0 {
      SumConstant(RunsRequest(x), s.workers, 0);
    }
  }

  /** Blocked workers leave a backlog behind if and only if, since it arose, at least as many promotions were
      skipped as there are threads. */
  lemma BacklogNeedsSkips(threads: nat, acts: seq<Action>, t: State)
    requires 1 <= threads <= 64 && Run(Next, Init(threads), acts, t) && Blocked(t)
    ensures t.skipped < threads <==> t.pool.pending == 0
    ensures t.skipped < threads ==> |t.pool.queue| + t.dropped == t.nulls + 65536 * t.wraps
  {
    InitInv(threads);
    RunKeepsInv(Init(threads), acts, t);
    RunKeepsThreads(threads, acts, t);
    BlockedSums(t);
  }

  /** The 16-bit backlog counter does not wrap before 65536 requests have been posted; until then it counts
      exactly the queued requests that have no token and no worker on its way to them. */
  lemma FewPostsDoNotWrap(threads: nat, acts: seq<Action>, t: State)
    requires 1 <= threads <= 64 && Run(Next, Init(threads), acts, t) && |t.posted| <= 65535
    ensures t.wraps == 0
    ensures t.pool.pending == |t.pool.queue| + t.dropped - t.pool.shadow - Sum(Unpopped, t.workers) - t.nulls
  {
    AccountingIsExact(threads, acts, t);
    InitInv(threads);
    RunKeepsInv(Init(threads), acts, t);
    SumNonNegative(Unpopped, t.workers);
  }

  /** Callers that post no queued request again, and few requests, lose nothing to fewer failures than threads: when
      no worker can move, everything posted has been executed. */
  lemma FewPostsAreExecuted(threads: nat, acts: seq<Action>, t: State)
    requires 1 <= threads <= 64 && Run(DistinctNext, Init(threads), acts, t) && |t.posted| <= 65535
    requires t.failed < threads && forall a: Action :: !a.PostRequest? ==> !CanStep(t, a)
    ensures t.pool.queue == [] && t.popped == t.posted && multiset(t.executed) == multiset(t.posted)
  {
    DistinctPostsDropNothing(threads, acts, t);
    DistinctRunIsRun(Init(threads), acts, t);
    FewPostsDoNotWrap(threads, acts, t);
    InitInv(threads);
    RunKeepsInv(Init(threads), acts, t);
    StuckMeansBlocked(t);
    FewLossesStrandNothing(threads, acts, t);
  }

  lemma {:induction false} DistinctRunIsRun(s: State, acts: seq<Action>, t: State)
    requires Run(DistinctNext, s, acts, t)
    ensures Run(Next, s, acts, t)
    decreases |acts|
  {
    if acts != [] {
      DistinctRunIsRun(Next(s, acts[0]).value, acts[1..], t);
    }
  }

  lemma HistoryGrows(s: State, acts: seq<Action>, t: State)
    requires Run(Next, s, acts, t)
    ensures s.posted <= t.posted && s.popped <= t.popped && s.executed <= t.executed
  {
    var inv := (x: State) => s.posted <= x.posted && s.popped <= x.popped && s.executed <= x.executed;
    forall x, a | inv(x) && Next(x, a).Some? ensures inv(Next(x, a).value) {
      StepGrows(x, a);
    }
    Invariance(Next, inv, s, acts, t);
  }

  lemma StepGrows(s: State, a: Action)
    requires CanStep(s, a)
    ensures var t := Step(s, a); s.posted <= t.posted && s.popped <= t.popped && s.executed <= t.executed
  {
  }

  /** What the environment may do at any time: post anything, and let an execution succeed or fail. */
  lemma AnythingMayHappen(s: State, i: nat, r: Request)
    ensures CanStep(s, PostRequest(r))
    ensures i < |s.workers| && s.workers[i].Executing? ==> CanStep(s, Return(i, true)) && CanStep(s, Return(i, false))
  {
  }

  /** Unless `remove` dropped something, requests are popped in the order posted and no pop comes back
      empty, whatever Execute returns. */
  lemma UndroppedRunsAreFifo(threads: nat, acts: seq<Action>, t: State)
    requires 1 <= threads <= 64 && Run(Next, Init(threads), acts, t) && t.dropped == 0
    ensures t.posted == t.popped + t.pool.queue && t.nulls == 0
  {
    InitInv(threads);
    RunKeepsInv(Init(threads), acts, t);
  }

  /** Steps when no request is posted while it is queued. */
  function DistinctNext(s: State, a: Action): Option<State> {
    if a.PostRequest? && a.r in s.pool.queue then None else Next(s, a)
  }

  /** Then nothing is dropped. */
  lemma DistinctPostsDropNothing(threads: nat, acts: seq<Action>, t: State)
    requires Run(DistinctNext, Init(threads), acts, t)
    ensures Distinct(t.pool.queue) && t.dropped == 0
  {
    var inv := (x: State) => Distinct(x.pool.queue) && x.dropped == 0;
    forall x, a | inv(x) && DistinctNext(x, a).Some? ensures inv(DistinctNext(x, a).value) {
      if a.PopRequest? && x.pool.queue != [] {
        DistinctOnce(x.pool.queue, x.pool.queue[0]);
        FrontOnce(x.pool.queue);
      }
    }
    Invariance(DistinctNext, inv, Init(threads), acts, t);
  }

  /** With all workers blocked, nothing dropped and fewer promotions skipped than there are threads, what
      is left in the queue is what the 16-bit backlog counter lost: a full turn for each wrap. */
  lemma BlockedQueueIsEmptyIffNoWrap(threads: nat, acts: seq<Action>, t: State)
    requires 1 <= threads <= 64 && Run(Next, Init(threads), acts, t) && Blocked(t)
    requires t.dropped == 0 && t.skipped < threads
    ensures |t.pool.queue| == 65536 * t.wraps
    ensures t.pool.queue == [] <==> t.wraps == 0
  {
    BacklogNeedsSkips(threads, acts, t);
    UndroppedRunsAreFifo(threads, acts, t);
  }

  /** With all workers blocked, no wrap and fewer failures of Execute and drops than there are threads,
      the queue is empty; if nothing was dropped, everything posted has been executed. */
  lemma FewLossesStrandNothing(threads: nat, acts: seq<Action>, t: State)
    requires 1 <= threads <= 64 && Run(Next, Init(threads), acts, t) && Blocked(t)
    requires t.wraps == 0 && t.failed + t.dropped < threads
    ensures t.pool.queue == []
    ensures t.dropped == 0 ==> t.popped == t.posted && multiset(t.executed) == multiset(t.posted)
  {
    InitInv(threads);
    RunKeepsInv(Init(threads), acts, t);
    BacklogNeedsSkips(threads, acts, t);
    BlockedSums(t);
    forall x: Request ensures multiset(t.executed)[x] == multiset(t.popped)[x] {
      assert Executed(t, x);
    }
  }

  // ----- Clean runs

  ghost predicate CleanInv(s: State) {
    && Inv(s)
    && Distinct(s.pool.queue)
    && s.dropped == s.wraps == s.failed == 0
  }

  lemma CleanPop(s: State, i: nat)
    requires CleanInv(s) && CanStep(s, PopRequest(i))
    ensures s.pool.queue != []
    ensures Pop(s.pool).queue == s.pool.queue[1..] && multiset(s.pool.queue)[s.pool.queue[0]] == 1
  {
    SumNonNegative(Late, s.workers);
    SumNonNegative(Unpopped, s.workers);
    SumAtLeast(Unpopped, s.workers, i);
    DistinctOnce(s.pool.queue, s.pool.queue[0]);
    PopTakesOneIffDistinct(s.pool.queue);
  }

  lemma CleanStepKeepsInv(s: State, a: Action)
    requires CleanInv(s) && CanStep(s, a) && Clean(s, a)
    ensures CleanInv(Step(s, a))
  {
    StepKeepsInv(s, a);
    if a.PopRequest? {
      CleanPop(s, a.i);
    }
  }

  lemma CleanRunKeepsInv(threads: nat, acts: seq<Action>, t: State)
    requires 1 <= threads <= 64 && Run(CleanNext, Init(threads), acts, t)
    ensures CleanInv(t)
  {
    InitInv(threads);
    forall x, a | CleanInv(x) && CleanNext(x, a).Some? ensures CleanInv(CleanNext(x, a).value) {
      CleanStepKeepsInv(x, a);
    }
    Invariance(CleanNext, CleanInv, Init(threads), acts, t);
  }

  /** In a clean run requests are popped in the order posted, each once, and no pop comes back empty. */
  lemma CleanRunsAreFifo(threads: nat, acts: seq<Action>, t: State)
    requires 1 <= threads <= 64 && Run(CleanNext, Init(threads), acts, t)
    ensures t.posted == t.popped + t.pool.queue && t.nulls == 0 && t.dropped == 0
    ensures |t.pool.queue| == t.pool.shadow + t.pool.pending + Sum(Unpopped, t.workers)
    ensures forall i: nat :: CanStep(t, PopRequest(i)) ==> t.pool.queue != []
  {
    CleanRunKeepsInv(threads, acts, t);
    forall i: nat | CanStep(t, PopRequest(i)) ensures t.pool.queue != [] {
      CleanPop(t, i);
    }
  }

  /** Steps from a worker's place to the wait. */
  ghost function StepsToWait(w: Worker): int {
    match w
    case Waiting => 0
    case HasToken => 6
    case Entering => 5
    case Popping => 4
    case Executing(_) => 3
    case Promoting => 2
    case Leaving => 1
  }

  ghost function StepsLeft(s: State): int {
    7 * (s.pool.kernel + s.pool.pending) + Sum(StepsToWait, s.workers)
  }

  /** The steps left, less the seven that each post has brought. */
  ghost function Ahead(s: State): int {
    StepsLeft(s) - 7 * |s.posted|
  }

  ghost function WorkerStep(s: State, a: Action): int {
    if a.PostRequest? then 0 else 1
  }

  lemma CleanStepCounts(s: State, a: Action)
    requires CleanInv(s) && CanStep(s, a) && Clean(s, a)
    ensures Ahead(Step(s, a)) + WorkerStep(s, a) == Ahead(s)
  {
    match a
    case PostRequest(r) => PostCounts(s, r);
    case PopRequest(i) =>
      CleanPop(s, i);
      SumUpdate(StepsToWait, s.workers, i, Executing(s.pool.queue[0]));
    case _ => OtherStepCounts(s, a);
  }

  lemma OtherStepCounts(s: State, a: Action)
    requires Counters(s) && CanStep(s, a) && Clean(s, a) && !a.PostRequest? && !a.PopRequest?
    ensures Ahead(Step(s, a)) + WorkerStep(s, a) == Ahead(s)
  {
    SumNonNegative(Late, s.workers);
    SumUpdate(StepsToWait, s.workers, a.i, Step(s, a).workers[a.i]);
  }

  lemma PostCounts(s: State, r: Request)
    requires Counters(s) && Clean(s, PostRequest(r))
    ensures Ahead(Step(s, PostRequest(r))) == Ahead(s)
  {
    SumNonNegative(Late, s.workers);
  }

  /** In a clean run the workers have made exactly seven steps for each request posted, but for the
      steps still to come. */
  lemma CleanRunsCountSteps(threads: nat, acts: seq<Action>, t: State)
    requires 1 <= threads <= 64 && Run(CleanNext, Init(threads), acts, t)
    ensures Cost(CleanNext, WorkerStep, Init(threads), acts) + StepsLeft(t) == 7 * |t.posted|
    ensures 0 <= StepsLeft(t)
  {
    hide CleanInv, Ahead, Step, CanStep, Clean;
    forall x, a | CleanInv(x) && CleanNext(x, a).Some?
      ensures CleanInv(CleanNext(x, a).value) && Ahead(CleanNext(x, a).value) + WorkerStep(x, a) == Ahead(x)
    {
      CleanStepKeepsInv(x, a);
      CleanStepCounts(x, a);
    }
    CleanRunKeepsInv(threads, [], Init(threads));
    ExactCost(CleanNext, CleanInv, Ahead, WorkerStep, Init(threads), acts, t);
    AheadOf(threads, t);
  }

  lemma AheadOf(threads: nat, t: State)
    ensures Ahead(Init(threads)) == 0 && Ahead(t) == StepsLeft(t) - 7 * |t.posted| && 0 <= StepsLeft(t)
  {
    SumConstant(StepsToWait, Init(threads).workers, 0);
    SumNonNegative(StepsToWait, t.workers);
  }

  /** No worker can step in a clean run only if every request posted has been popped in order and
      executed, after exactly seven steps each; then nothing is queued and nothing is pending. */
  lemma CleanRunsExecuteEverything(threads: nat, acts: seq<Action>, t: State)
    requires 1 <= threads <= 64 && Run(CleanNext, Init(threads), acts, t)
    requires forall a: Action :: !a.PostRequest? ==> !CanStep(t, a)
    ensures t.pool.queue == [] && t.pool.pending == t.pool.shadow == t.pool.kernel == 0
    ensures t.popped == t.posted && multiset(t.executed) == multiset(t.posted)
    ensures Cost(CleanNext, WorkerStep, Init(threads), acts) == 7 * |t.posted|
  {
    CleanRunKeepsInv(threads, acts, t);
    StuckMeansBlocked(t);
    BlockedSums(t);
    forall x: Request ensures multiset(t.executed)[x] == multiset(t.popped)[x] {
      assert Executed(t, x);
    }
    CleanRunsCountSteps(threads, acts, t);
    SumConstant(StepsToWait, t.workers, 0);
  }

  lemma StuckMeansBlocked(s: State)
    requires Inv(s) && forall a: Action :: !a.PostRequest? ==> !CanStep(s, a)
    ensures Blocked(s)
  {
    forall i: nat | i < |s.workers| ensures s.workers[i] == Waiting {
      assert !CanStep(s, Decrement(i)) && !CanStep(s, Enter(i)) && !CanStep(s, PopRequest(i)) &&
             !CanStep(s, Return(i, true)) && !CanStep(s, PromotePending(i)) && !CanStep(s, Leave(i));
    }
    assert !CanStep(s, TakeToken(0));
  }
}
