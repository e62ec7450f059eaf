/** Runs in which callers do not keep to `Clean`, and what then gets lost. */
module SemaphoreLosses {
  import opened Runs
  import opened SemaphoreSpec
  import opened SemaphoreProtocol
  import opened SemaphoreTheorems

  /** A waiting worker, a token for it and a request. */
  ghost predicate Ready(s: State, i: nat) {
    && At(s, i, Waiting) && s.pool.queue != []
    && s.pool.kernel > 0 && 0 < s.pool.shadow < WIDTH && s.pool.active + 1 < WIDTH
  }

  /** The worker has popped the front request and is about to execute it. */
  ghost function Popped(s: State, i: nat): State
    requires Ready(s, i)
  {
    var front := s.pool.queue[0];
    s.(pool := s.pool.(kernel := s.pool.kernel - 1, shadow := s.pool.shadow - 1, active := s.pool.active + 1,
                       queue := RemoveAll(s.pool.queue, front)),
       workers := s.workers[i := Executing(front)], popped := s.popped + [front],
       dropped := s.dropped + (multiset(s.pool.queue)[front] - 1))
  }

  function ToPop(i: nat): seq<Action> {
    [TakeToken(i), Decrement(i), Enter(i), PopRequest(i)]
  }

  lemma WorkerPops(s: State, i: nat)
    requires Ready(s, i)
    ensures Run(Next, s, ToPop(i), Popped(s, i))
  {
    hide RemoveAll;
    var t := Popped(s, i);
    var p1 := s.pool.(kernel := s.pool.kernel - 1);
    var s1 := s.(pool := p1, workers := s.workers[i := HasToken]);
    var p2 := p1.(shadow := s.pool.shadow - 1);
    var s2 := s.(pool := p2, workers := s.workers[i := Entering]);
    var s3 := s.(pool := p2.(active := s.pool.active + 1), workers := s.workers[i := Popping]);
    assert s1.workers[i := Entering] == s2.workers;
    assert s2.workers[i := Popping] == s3.workers;
    assert s3.workers[i := Executing(s.pool.queue[0])] == t.workers;
    assert Next(s, TakeToken(i)) == Some(s1);
    assert Next(s1, Decrement(i)) == Some(s2);
    assert Next(s2, Enter(i)) == Some(s3);
    assert Next(s3, PopRequest(i)) == Some(t);
    RunCons(Next, s3, PopRequest(i), [], t);
    RunCons(Next, s2, Enter(i), [PopRequest(i)], t);
    RunCons(Next, s1, Decrement(i), [Enter(i)] + [PopRequest(i)], t);
    RunCons(Next, s, TakeToken(i), [Decrement(i)] + ([Enter(i)] + [PopRequest(i)]), t);
    assert [TakeToken(i)] + ([Decrement(i)] + ([Enter(i)] + [PopRequest(i)])) == ToPop(i);
  }

  // ----- A request posted while it is still queued

  ghost function PostedTwice(r: Request): State {
    Init(2).(pool := Pool(2, 2, 2, 0, 0, [r, r]), posted := [r, r])
  }

  lemma PostTwice(r: Request)
    ensures Run(Next, Init(2), [PostRequest(r), PostRequest(r)], PostedTwice(r))
  {
    var s1 := Init(2).(pool := Pool(2, 1, 1, 0, 0, [r]), posted := [r]);
    assert [] + [r] == [r] && [r] + [r] == [r, r];
    assert Next(Init(2), PostRequest(r)) == Some(s1);
    assert Next(s1, PostRequest(r)) == Some(PostedTwice(r));
    RunCons(Next, s1, PostRequest(r), [], PostedTwice(r));
    RunCons(Next, Init(2), PostRequest(r), [PostRequest(r)], PostedTwice(r));
    assert [PostRequest(r)] + [PostRequest(r)] == [PostRequest(r), PostRequest(r)];
  }

  /** The first pop drops both entries: a token is left without a request, and the second post is
      never executed. */
  lemma SameRequestTwiceIsDropped(r: Request) returns (acts: seq<Action>, t: State)
    ensures acts == [PostRequest(r), PostRequest(r)] + ToPop(0) && Run(Next, Init(2), acts, t)
    ensures t.posted == [r, r] && t.popped == [r] && t.pool.queue == [] && t.pool.kernel == 1 && t.dropped == 1
  {
    PostTwice(r);
    var s := PostedTwice(r);
    WorkerPops(s, 0);
    t := Popped(s, 0);
    acts := [PostRequest(r), PostRequest(r)] + ToPop(0);
    RunConcat(Next, Init(2), [PostRequest(r), PostRequest(r)], s, ToPop(0), t);
    assert [r, r][1..] == [r] && [r][1..] == [];
    RemoveAllShrinks([r, r], r);
  }

  // ----- As many failed executions as threads, and a full turn of the backlog counter

  /** The requests `lo`, ..., `hi - 1`. */
  ghost function Range(lo: nat, hi: nat): seq<Request>
    requires lo <= hi
  {
    seq(hi - lo, k requires 0 <= k => lo + k)
  }

  /** `k` requests posted before any worker moves; those beyond the number of threads are backlog. */
  ghost function AfterPosts(threads: nat, k: nat): State {
    var tokens := if k <= threads then k else threads;
    Init(threads).(pool := Pool(threads, tokens, tokens, (k - tokens) % WIDTH, 0, Range(0, k)),
                   posted := Range(0, k), wraps := (k - tokens) / WIDTH)
  }

  lemma OnePost(threads: nat, k: nat)
    requires 1 <= threads <= 64
    ensures Next(AfterPosts(threads, k), PostRequest(k)) == Some(AfterPosts(threads, k + 1))
  {
    assert Range(0, k) + [k] == Range(0, k + 1);
  }

  lemma {:induction false} Posts(threads: nat, k: nat, total: nat) returns (acts: seq<Action>)
    requires 1 <= threads <= 64 && k <= total
    ensures Run(Next, AfterPosts(threads, k), acts, AfterPosts(threads, total))
    decreases total - k
  {
    hide Next, AfterPosts;
    if k == total {
      acts := [];
    } else {
      acts := Posts(threads, k + 1, total);
      OnePost(threads, k);
      RunCons(Next, AfterPosts(threads, k), PostRequest(k), acts, AfterPosts(threads, total));
      acts := [PostRequest(k)] + acts;
    }
  }

  /** After `threads + backlog` posts, the first `i` requests popped and executed, all with success or all
      without. */
  ghost function AfterServing(threads: nat, backlog: nat, ok: bool, i: nat): State
    requires i <= threads
  {
    var total, pending := threads + backlog, backlog % WIDTH;
    Init(threads).(pool := Pool(threads, threads - i, threads - i, pending, 0, Range(i, total)),
                   posted := Range(0, total), popped := Range(0, i), executed := Range(0, i),
                   wraps := backlog / WIDTH, skipped := if ok || pending == 0 then 0 else i,
                   failed := if ok then 0 else i)
  }

  /** A worker has executed its request and goes back to the wait. */
  ghost function Served(s: State, i: nat, ok: bool): State
    requires i < |s.workers| && s.workers[i].Executing? && s.pool.active > 0
  {
    s.(pool := s.pool.(active := s.pool.active - 1), workers := s.workers[i := Waiting],
       executed := s.executed + [s.workers[i].r],
       skipped := WhileBacklog(s.pool, if ok then s.skipped else s.skipped + 1),
       failed := if ok then s.failed else s.failed + 1)
  }

  function ToServe(i: nat, ok: bool): seq<Action> {
    if ok then [Return(i, true), PromotePending(i), Leave(i)] else [Return(i, false), Leave(i)]
  }

  /** A success would promote a backlog request; here the counter shows none. */
  lemma WorkerServes(s: State, i: nat, ok: bool)
    requires i < |s.workers| && s.workers[i].Executing? && 0 < s.pool.active < WIDTH && (ok ==> s.pool.pending == 0)
    ensures Run(Next, s, ToServe(i, ok), Served(s, i, ok))
  {
    var t := Served(s, i, ok);
    var s2 := t.(pool := s.pool, workers := s.workers[i := Leaving]);
    assert s2.workers[i := Waiting] == t.workers;
    assert Next(s2, Leave(i)) == Some(t);
    RunCons(Next, s2, Leave(i), [], t);
    if ok {
      var s1 := s2.(workers := s.workers[i := Promoting], skipped := s.skipped);
      assert s1.workers[i := Leaving] == s2.workers;
      assert Next(s, Return(i, true)) == Some(s1);
      assert Next(s1, PromotePending(i)) == Some(s2);
      RunCons(Next, s1, PromotePending(i), [Leave(i)], t);
      RunCons(Next, s, Return(i, true), [PromotePending(i)] + [Leave(i)], t);
      assert [Return(i, true)] + ([PromotePending(i)] + [Leave(i)]) == ToServe(i, ok);
    } else {
      assert Next(s, Return(i, false)) == Some(s2);
      RunCons(Next, s, Return(i, false), [Leave(i)], t);
      assert [Return(i, false)] + [Leave(i)] == ToServe(i, ok);
    }
  }

  lemma ServingAdvances(threads: nat, backlog: nat, ok: bool, i: nat)
    requires 1 <= threads <= 64 && i < threads && (ok ==> backlog % WIDTH == 0)
    ensures Ready(AfterServing(threads, backlog, ok, i), i)
    ensures Served(Popped(AfterServing(threads, backlog, ok, i), i), i, ok) == AfterServing(threads, backlog, ok, i + 1)
  {
    hide RemoveAll;
    var s := AfterServing(threads, backlog, ok, i);
    FirstOfRange(i, threads + backlog);
    assert Range(0, i) + [i] == Range(0, i + 1);
    assert s.workers[i := Executing(i)][i := Waiting] == s.workers;
  }

  lemma FirstOfRange(lo: nat, hi: nat)
    requires lo < hi
    ensures Range(lo, hi)[0] == lo && RemoveAll(Range(lo, hi), lo) == Range(lo + 1, hi)
    ensures multiset(Range(lo, hi))[lo] == 1
  {
    var q := Range(lo, hi);
    assert q[0] == lo && q[1..] == Range(lo + 1, hi);
    PopTakesOneIffDistinct(q);
    RemoveAllShrinks(q, lo);
  }

  lemma OneServing(threads: nat, backlog: nat, ok: bool, i: nat)
    requires 1 <= threads <= 64 && i < threads && (ok ==> backlog % WIDTH == 0)
    ensures Run(Next, AfterServing(threads, backlog, ok, i), ToPop(i) + ToServe(i, ok),
                AfterServing(threads, backlog, ok, i + 1))
  {
    hide Next, RemoveAll, Range;
    var s := AfterServing(threads, backlog, ok, i);
    ServingAdvances(threads, backlog, ok, i);
    WorkerPops(s, i);
    WorkerServes(Popped(s, i), i, ok);
    RunConcat(Next, s, ToPop(i), Popped(s, i), ToServe(i, ok), AfterServing(threads, backlog, ok, i + 1));
  }

  lemma {:induction false} Servings(threads: nat, backlog: nat, ok: bool, i: nat) returns (acts: seq<Action>)
    requires 1 <= threads <= 64 && i <= threads && (ok ==> backlog % WIDTH == 0)
    ensures Run(Next, AfterServing(threads, backlog, ok, i), acts, AfterServing(threads, backlog, ok, threads))
    decreases threads - i
  {
    hide AfterServing;
    if i == threads {
      acts := [];
    } else {
      OneServing(threads, backlog, ok, i);
      var rest := Servings(threads, backlog, ok, i + 1);
      RunConcat(Next, AfterServing(threads, backlog, ok, i), ToPop(i) + ToServe(i, ok),
                AfterServing(threads, backlog, ok, i + 1), rest, AfterServing(threads, backlog, ok, threads));
      acts := (ToPop(i) + ToServe(i, ok)) + rest;
    }
  }

  /** All requests are posted first and then each worker serves one: a run that leaves the backlog queued
      with every worker blocked. */
  lemma ServeAfterPosts(threads: nat, backlog: nat, ok: bool) returns (acts: seq<Action>, t: State)
    requires 1 <= threads <= 64 && (ok ==> backlog % WIDTH == 0)
    ensures Run(Next, Init(threads), acts, t) && Blocked(t)
    ensures |t.posted| == threads + backlog && |t.pool.queue| == backlog
    ensures t.pool.pending == backlog % WIDTH && t.wraps == backlog / WIDTH
    ensures t.dropped == t.nulls == 0 && t.failed == if ok then 0 else threads
  {
    var posts := Posts(threads, 0, threads + backlog);
    assert Range(0, 0) == [];
    assert AfterPosts(threads, 0) == Init(threads);
    assert AfterPosts(threads, threads + backlog) == AfterServing(threads, backlog, ok, 0);
    var servings := Servings(threads, backlog, ok, 0);
    t := AfterServing(threads, backlog, ok, threads);
    acts := posts + servings;
    RunConcat(Next, Init(threads), posts, AfterPosts(threads, threads + backlog), servings, t);
  }

  /** For every number of threads, that many failed executions can leave a request queued with every
      worker blocked, without a drop or a wrap; fewer failures and drops never leave one without a wrap. */
  lemma StrandingTakesOneFailurePerThread(threads: nat)
    requires 1 <= threads <= 64
    ensures exists acts, t :: Run(Next, Init(threads), acts, t) && Blocked(t) && t.pool.queue != [] &&
                              t.failed == threads && t.dropped == t.wraps == 0
    ensures forall acts, t ::
              Run(Next, Init(threads), acts, t) && Blocked(t) && t.wraps == 0 && t.failed + t.dropped < threads ==>
                t.pool.queue == []
  {
    hide Blocked;
    var acts, t := ServeAfterPosts(threads, 1, false);
    forall acts, u | Run(Next, Init(threads), acts, u) && Blocked(u) && u.wraps == 0 && u.failed + u.dropped < threads
      ensures u.pool.queue == []
    {
      FewLossesStrandNothing(threads, acts, u);
    }
  }

  /** For every number of threads, a backlog that fills the 16-bit counter is forgotten: without a failure
      or a drop, a full turn of requests can stay queued with every worker blocked. */
  lemma WrapStrandsBacklog(threads: nat) returns (acts: seq<Action>, t: State)
    requires 1 <= threads <= 64
    ensures Run(Next, Init(threads), acts, t) && Blocked(t)
    ensures |t.posted| == threads + 65536 && |t.pool.queue| == 65536
    ensures t.pool.pending == t.failed == t.dropped == t.nulls == 0 && t.wraps == 1
  {
    acts, t := ServeAfterPosts(threads, 65536, true);
  }
}
