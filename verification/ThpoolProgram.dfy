/** thpool.c as a program: the linked queue and the counters in place, and threads that take their
    steps in the order of a schedule. Workers hold pointers to the nodes they run and free. */
module ThpoolProgram {
  import opened Runs
  import opened Counting
  import opened JobQueue
  import opened ThpoolProtocol
  import opened ThpoolTheorems

  type Node = JobQueue.Job
  type NodePointer = JobQueue.Job?

  // ----- The nodes that workers hold

  ghost function One(x: NodePointer): multiset<Node> {
    if x == null then multiset{} else multiset{x}
  }

  ghost function Held(h: seq<NodePointer>): multiset<Node> {
    if h == [] then multiset{} else One(h[0]) + Held(h[1..])
  }

  lemma Regroup<T>(a: multiset<T>, b: multiset<T>, c: multiset<T>)
    ensures (a + b) + c == a + (b + c) == b + (a + c) == (a + c) + b
  {
  }

  lemma {:induction false} HeldUpdate(h: seq<NodePointer>, i: nat, x: NodePointer)
    requires i < |h|
    ensures Held(h[i := x]) + One(h[i]) == Held(h) + One(x)
    decreases |h|
  {
    if i == 0 {
      assert h[i := x][1..] == h[1..];
      Regroup(Held(h[1..]), One(x), One(h[0]));
    } else {
      var u := h[1..];
      assert h[i := x][1..] == u[i - 1 := x];
      HeldUpdate(u, i - 1, x);
      Regroup(One(h[0]), Held(u[i - 1 := x]), One(h[i]));
      Regroup(One(h[0]), Held(u), One(x));
    }
  }

  lemma {:induction false} HeldNone(h: seq<NodePointer>)
    requires forall i :: 0 <= i < |h| ==> h[i] == null
    ensures Held(h) == multiset{}
    decreases |h|
  {
    if h != [] {
      HeldNone(h[1..]);
    }
  }

  /** A worker holds a node from its pull until it has run the job, and no other time. */
  ghost predicate Carries(w: Worker, x: NodePointer) {
    if w.Reposting? || w.Running? then x != null && x.number == w.job else x == null
  }

  ghost predicate AllCarry(ws: seq<Worker>, h: seq<NodePointer>) {
    |h| == |ws| && forall i :: 0 <= i < |h| ==> Carries(ws[i], h[i])
  }

  /** Every node pushed is queued or has been taken off; every node taken off is held or freed. */
  ghost predicate Accounted(
      pushed: seq<Node>, taken: seq<Node>, queued: seq<Node>, h: seq<NodePointer>, freed: seq<Node>)
  {
    && Distinct(pushed)
    && pushed == taken + queued
    && multiset(taken) == multiset(freed) + Held(h)
  }

  /** At any time a node is in one place: in the queue, with one worker, or freed, and that once. */
  lemma NodeInOnePlace(
      pushed: seq<Node>, taken: seq<Node>, queued: seq<Node>, h: seq<NodePointer>, freed: seq<Node>, x: Node)
    requires Accounted(pushed, taken, queued, h, freed) && x in pushed
    ensures multiset(queued)[x] + Held(h)[x] + multiset(freed)[x] == 1
  {
    DistinctOnce(pushed, x);
  }

  lemma TakingKeepsAccount(
      pushed: seq<Node>, taken: seq<Node>, queued: seq<Node>, h: seq<NodePointer>, freed: seq<Node>, i: nat)
    requires Accounted(pushed, taken, queued, h, freed) && queued != [] && i < |h| && h[i] == null
    ensures Accounted(pushed, taken + [queued[0]], queued[1..], h[i := queued[0]], freed)
  {
    assert taken + queued == (taken + [queued[0]]) + queued[1..];
    HeldUpdate(h, i, queued[0]);
    Regroup(multiset(freed), Held(h), One(queued[0]));
  }

  lemma FreeingKeepsAccount(
      pushed: seq<Node>, taken: seq<Node>, queued: seq<Node>, h: seq<NodePointer>, freed: seq<Node>, i: nat)
    requires Accounted(pushed, taken, queued, h, freed) && i < |h| && h[i] != null
    ensures Accounted(pushed, taken, queued, h[i := null], freed + [h[i]])
  {
    HeldUpdate(h, i, null);
    Regroup(multiset(freed), Held(h[i := null]), One(h[i]));
  }

  lemma PushingKeepsAccount(
      pushed: seq<Node>, taken: seq<Node>, queued: seq<Node>, h: seq<NodePointer>, freed: seq<Node>, x: Node)
    requires Accounted(pushed, taken, queued, h, freed) && x !in pushed
    ensures Accounted(pushed + [x], taken, queued + [x], h, freed)
  {
    assert pushed + [x] == taken + (queued + [x]);
  }

  lemma CarryUpdate(ws: seq<Worker>, h: seq<NodePointer>, i: nat, w: Worker, x: NodePointer)
    requires AllCarry(ws, h) && i < |ws| && Carries(w, x)
    ensures AllCarry(ws[i := w], h[i := x])
    ensures x == h[i] ==> h[i := x] == h
  {
  }

  lemma HoldersCarry(ws: seq<Worker>, h: seq<NodePointer>)
    requires AllCarry(ws, h)
    ensures |h| == |ws| && forall i :: 0 <= i < |h| ==> Carries(ws[i], h[i])
  {
  }

  lemma WakeCarries(ws: seq<Worker>, h: seq<NodePointer>, woken: nat)
    requires AllCarry(ws, h) && CanWake(ws, woken)
    ensures AllCarry(Wake(ws, woken), h) && AllCarry(WakeAll(ws), h)
  {
  }

  ghost predicate Numbered(nodes: seq<Node>, numbers: seq<nat>) {
    |nodes| == |numbers| && forall k :: 0 <= k < |nodes| ==> nodes[k].number == numbers[k]
  }

  class Program {
    const n: nat
    const queue: Queue
    var owner: Owner
    var waiter: Waiter
    var keepalive: bool
    var alive: int
    var working: int
    var lock: QueueLock
    var workers: seq<Worker>
    var held: seq<NodePointer>    // job_p of each worker
    var jobs: Jobs
    ghost var pushed: seq<Node>   // every node in the order of the pushes
    ghost var taken: seq<Node>    // those that have left the queue
    ghost var freed: seq<Node>    // those passed to free, in order

    ghost predicate Valid()
      reads this, queue, queue.jobs
    {
      && queue.Valid()
      && AllCarry(workers, held)
      && Accounted(pushed, taken, queue.jobs, held, freed)
      && Numbered(pushed, jobs.added)
    }

    /** The numbers of the queued nodes, from front to rear. */
    ghost function Queued(): (q: seq<nat>)
      reads this, queue
      ensures |q| == |queue.jobs|
    {
      seq(|queue.jobs|, k requires 0 <= k < |queue.jobs| reads this, queue => queue.jobs[k].number)
    }

    ghost function View(): State
      reads this, queue
    {
      State(n, owner, waiter, Pool(keepalive, alive, working, Queued(), lock, queue.hasJobs == 1), workers, jobs)
    }

    /** Whether a thread can step does not depend on what is queued. */
    predicate IsPossible(a: Action)
      reads this, queue
      ensures IsPossible(a) <==> CanStep(View(), a)
    {
      CanStep(State(n, owner, waiter, Pool(keepalive, alive, working, [], lock, false), workers, jobs), a)
    }

    constructor (n: nat)
      ensures Valid() && View() == Init(n) && fresh(queue) && queue.jobs == []
    {
      this.n := n;
      queue := new Queue();
      owner, waiter, keepalive, alive, working, lock := Creating, Away, true, 0, 0, Unlocked;
      workers := seq(n, i => Starting);
      held := seq(n, i => null);
      jobs := Jobs([], [], [], []);
      pushed, taken, freed := [], [], [];
      new;
      HeldNone(held);
    }

    method TakeTurn(i: nat)
      requires Valid() && CanStep(View(), WorkerStep(i))
      modifies this, queue
      ensures Valid() && View() == Step(old(View()), WorkerStep(i))
      ensures queue.jobs == old(queue.jobs) || (old(queue.jobs) != [] && queue.jobs == old(queue.jobs)[1..])
    {
      hide WorkerAdvance, AllCarry, Accounted, Numbered;
      match workers[i] {
        case AtSemaphore => WaitFor(i);
        case Pulling => PullFor(i);
        case Running(_) => RunFor(i);
        case Starting | LoopTest | HasToken | Raising | Lowering | Leaving => CountFor(i);
      }
    }

    /** The steps that only test `threads_keepalive` and move the counters */
    method CountFor(i: nat)
      requires Valid() && CanStep(View(), WorkerStep(i))
      requires workers[i] != AtSemaphore && workers[i] != Pulling && !workers[i].Running?
      modifies `alive, `working, `workers
      ensures Valid() && View() == Step(old(View()), WorkerStep(i))
    {
      hide Accounted, Numbered;
      assert Queued() == old(Queued());
      match workers[i] {
        case Starting =>
          alive := alive + 1;
          workers := workers[i := LoopTest];
        case LoopTest =>
          workers := workers[i := if keepalive then AtSemaphore else Leaving];
        case HasToken =>
          workers := workers[i := if keepalive then Raising else LoopTest];
        case Raising =>
          working := working + 1;
          workers := workers[i := Pulling];
        case Lowering =>
          working := working - 1;
          workers := workers[i := LoopTest];
        case Leaving =>
          alive := alive - 1;
          workers := workers[i := Exited];
      }
    }

    method WaitFor(i: nat)
      requires Valid() && CanStep(View(), WorkerStep(i)) && workers[i] == AtSemaphore
      modifies `workers, queue`hasJobs
      ensures Valid() && View() == Step(old(View()), WorkerStep(i))
    {
      hide Accounted, Numbered;
      var tookToken := queue.TryWait();
      workers := workers[i := if tookToken then HasToken else Asleep];
      assert Queued() == old(Queued());
    }

    /** The worker runs its job and frees the node. */
    method RunFor(i: nat)
      requires Valid() && CanStep(View(), WorkerStep(i)) && workers[i].Running?
      modifies `workers, `held, `jobs, `freed
      ensures Valid() && View() == Step(old(View()), WorkerStep(i))
      ensures old(held[i]) != null && freed == old(freed) + [old(held[i])]
    {
      hide Accounted, AllCarry, Numbered;
      HoldersCarry(workers, held);
      var job := held[i];
      FreeingKeepsAccount(pushed, taken, queue.jobs, held, freed, i);
      CarryUpdate(workers, held, i, Lowering, null);
      jobs := jobs.(finished := jobs.finished + [job.number]);
      freed := freed + [job];
      held := held[i := null];
      workers := workers[i := Lowering];
      assert Queued() == old(Queued());
    }

    method PullFor(i: nat)
      requires Valid() && CanStep(View(), WorkerStep(i)) && workers[i] == Pulling
      modifies this, queue
      ensures Valid() && View() == Step(old(View()), WorkerStep(i))
      ensures queue.jobs == old(queue.jobs) || (old(queue.jobs) != [] && queue.jobs == old(queue.jobs)[1..])
    {
      hide Accounted, AllCarry, Numbered;
      HoldersCarry(workers, held);
      var job := queue.Unlink();
      if job == null {
        CarryUpdate(workers, held, i, Lowering, null);
        workers := workers[i := Lowering];
      } else {
        assert [job] + queue.jobs == old(queue.jobs);
        TakeNode(i, job);
        assert Queued() == old(Queued())[1..];
      }
    }

    /** What a worker does with the node it has just unlinked */
    method TakeNode(i: nat, job: Node)
      requires queue.Valid() && i < |workers| && workers[i] == Pulling && AllCarry(workers, held)
      requires Accounted(pushed, taken, [job] + queue.jobs, held, freed)
      modifies `lock, `workers, `held, `jobs, `taken
      ensures AllCarry(workers, held) && Accounted(pushed, taken, queue.jobs, held, freed)
      ensures jobs == old(jobs).(pulled := old(jobs.pulled) + [job.number])
      ensures lock == (if queue.jobs == [] then old(lock) else WorkerHolds(i))
      ensures workers == old(workers)[i := if queue.jobs == [] then Running(job.number) else Reposting(job.number)]
    {
      hide Accounted, AllCarry;
      HoldersCarry(workers, held);
      TakingKeepsAccount(pushed, taken, [job] + queue.jobs, held, freed, i);
      assert ([job] + queue.jobs)[1..] == queue.jobs;
      taken := taken + [job];
      jobs := jobs.(pulled := jobs.pulled + [job.number]);
      if queue.len > 0 {
        CarryUpdate(workers, held, i, Reposting(job.number), job);
        lock := WorkerHolds(i);
        workers := workers[i := Reposting(job.number)];
      } else {
        CarryUpdate(workers, held, i, Running(job.number), job);
        workers := workers[i := Running(job.number)];
      }
      held := held[i := job];
    }

    method BeginPushOf(number: nat)
      requires Valid() && CanStep(View(), BeginPush(number))
      modifies this, queue, queue.jobs
      ensures Valid() && View() == Step(old(View()), BeginPush(number)) && fresh(queue.jobs[|queue.jobs| - 1])
      ensures queue.jobs[..|queue.jobs| - 1] == old(queue.jobs)
    {
      hide Accounted, AllCarry;
      var job := new JobQueue.Job(number);
      PushingKeepsAccount(pushed, taken, queue.jobs, held, freed, job);
      queue.Link(job);
      pushed := pushed + [job];
      jobs := jobs.(added := jobs.added + [number]);
      lock := PusherHolds;
      assert Queued() == old(Queued()) + [number];
    }

    method ClearQueue()
      requires Valid() && CanStep(View(), Clear)
      modifies this, queue
      ensures Valid() && View() == Step(old(View()), Clear)
      ensures freed == old(freed) + old(queue.jobs)
    {
      var nodes := queue.Clear();
      jobs := jobs.(cleared := seq(|nodes|, k requires 0 <= k < |nodes| => nodes[k].number));
      assert jobs.cleared == old(Queued());
      taken, freed := taken + nodes, freed + nodes;
      owner := Cleared;
    }

    /** bsem_post in a push or a pull, and bsem_post_all */
    method PostFor(a: Action)
      requires Valid() && CanStep(View(), a) && (a.Repost? || a.PostPush? || a.PostAll?)
      modifies `lock, `workers, queue`hasJobs
      ensures Valid() && View() == Step(old(View()), a)
    {
      hide Accounted, Numbered;
      queue.Post();
      assert Queued() == old(Queued());
      ghost var w := SignalHasChoice(workers);
      WakeCarries(workers, held, if a.PostAll? then w else a.woken);
      match a {
        case Repost(i, woken) =>
          lock := Unlocked;
          workers := Wake(workers, woken)[i := Running(workers[i].job)];
        case PostPush(woken) =>
          lock := Unlocked;
          workers := Wake(workers, woken);
        case PostAll =>
          workers := WakeAll(workers);
      }
    }

    /** The polls of thpool_wait */
    method Poll(a: Action)
      requires Valid() && CanStep(View(), a) && (a.BeginWait? || a.TimeOut? || a.ReadLength? || a.ReadWorking?)
      modifies `waiter
      ensures Valid() && View() == Step(old(View()), a)
    {
      assert Queued() == old(Queued());
      match a {
        case BeginWait => waiter := Polling(1);
        case TimeOut => waiter := Polling(waiter.loop + 1);
        case ReadLength =>
          if queue.len == 0 {
            waiter := SawEmpty(waiter.loop, |jobs.added|);
          }
        case ReadWorking =>
          if working != 0 {
            waiter := Polling(waiter.loop);
          } else if waiter.loop < 3 {
            waiter := Polling(waiter.loop + 1);
          } else {
            waiter := Returned(waiter.seen);
          }
      }
    }

    /** One action of the protocol. */
    method Perform(a: Action)
      requires Valid() && CanStep(View(), a)
      modifies this, queue, queue.jobs
      ensures Valid() && View() == Step(old(View()), a)
      ensures forall k :: 0 <= k < |queue.jobs| ==> queue.jobs[k] in old(queue.jobs) || fresh(queue.jobs[k])
    {
      hide WorkerAdvance, Wake, WakeAll, NoneAsleep, Accounted, Numbered;
      match a {
        case WorkerStep(i) => TakeTurn(i);
        case BeginPush(number) => BeginPushOf(number);
        case Clear => ClearQueue();
        case WakeSpuriously(i) => workers := workers[i := AtSemaphore];
        case DoneCreating => owner := Serving;
        case BeginDestroy =>
          owner := Destroying;
          keepalive := false;
        case Repost(_, _) => PostFor(a);
        case PostPush(_) => PostFor(a);
        case PostAll => PostFor(a);
        case _ => Poll(a);
      }
    }

    /** Performs each action of the schedule that is possible at its turn. */
    method Play(schedule: seq<Action>)
      requires Valid()
      modifies this, queue, queue.jobs
      ensures Valid() && View() == Replay(Next, old(View()), schedule)
    {
      hide AllCarry, Accounted, Numbered;
      for k := 0 to |schedule|
        invariant Valid() && Replay(Next, View(), schedule[k..]) == Replay(Next, old(View()), schedule)
        invariant forall j :: 0 <= j < |queue.jobs| ==> queue.jobs[j] in old(queue.jobs) || fresh(queue.jobs[j])
      {
        assert schedule[k..][1..] == schedule[k + 1..];
        if IsPossible(schedule[k]) {
          Perform(schedule[k]);
        }
      }
    }
  }

  /** A pool under any schedule: every node pushed is at any time queued, with one worker or freed, and
      that once; when the queue has been cleared every node has been freed exactly once, by a worker or by
      the clearing; when thpool_wait has returned, what it saw has finished. */
  method RunPool(n: nat, schedule: seq<Action>) returns (p: Program)
    ensures fresh(p) && fresh(p.queue) && p.Valid()
    ensures Numbered(p.pushed, p.jobs.added)
    ensures forall x :: x in p.pushed ==> multiset(p.queue.jobs)[x] + Held(p.held)[x] + multiset(p.freed)[x] == 1
    ensures p.owner == Cleared ==> Distinct(p.pushed) && multiset(p.freed) == multiset(p.pushed)
    ensures p.owner == Cleared ==>
              forall x: nat :: multiset(p.jobs.added)[x] == multiset(p.jobs.finished)[x] + multiset(p.jobs.cleared)[x]
    ensures p.waiter.Returned? ==> p.waiter.seen <= |p.jobs.added|
    ensures p.waiter.Returned? ==>
              forall x: nat :: multiset(p.jobs.added[..p.waiter.seen])[x] <= multiset(p.jobs.finished)[x]
  {
    p := new Program(n);
    p.Play(schedule);
    ghost var acts := ReplayIsRun(Next, Init(n), schedule);
    RunOutcome(n, acts, p.View());
    forall x | x in p.pushed ensures multiset(p.queue.jobs)[x] + Held(p.held)[x] + multiset(p.freed)[x] == 1 {
      NodeInOnePlace(p.pushed, p.taken, p.queue.jobs, p.held, p.freed, x);
    }
    if p.owner == Cleared {
      HeldNone(p.held);
      assert p.taken == p.pushed;
    }
  }

  lemma RunOutcome(n: nat, acts: seq<Action>, t: State)
    requires Run(Next, Init(n), acts, t)
    ensures t.owner == Cleared ==> t.pool.queue == [] && forall i: nat :: i < |t.workers| ==> t.workers[i] == Exited
    ensures t.owner == Cleared ==>
              forall x: nat :: multiset(t.jobs.added)[x] == multiset(t.jobs.finished)[x] + multiset(t.jobs.cleared)[x]
    ensures t.waiter.Returned? ==> t.waiter.seen <= |t.jobs.added|
    ensures t.waiter.Returned? ==>
              forall x: nat :: multiset(t.jobs.added[..t.waiter.seen])[x] <= multiset(t.jobs.finished)[x]
  {
    if t.owner == Cleared {
      ClearedMeans(n, acts, t);
      forall x: nat ensures multiset(t.jobs.added)[x] == multiset(t.jobs.finished)[x] + multiset(t.jobs.cleared)[x] {
        EachNodeFreedOnce(n, acts, t, x);
      }
    }
    if t.waiter.Returned? {
      WaitReturnsAfterJobs(n, acts, t, 0);
      forall x: nat ensures multiset(t.jobs.added[..t.waiter.seen])[x] <= multiset(t.jobs.finished)[x] {
        WaitReturnsAfterJobs(n, acts, t, x);
      }
    }
  }
}
