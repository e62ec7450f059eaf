/** The pool of threadpool.c in place: an array used as a ring, and the critical sections over it. */
module RingPool {
  import opened RingSpec

  class ThreadPool {
    const queue: array<Task>
    const queueSize: nat
    var head: nat
    var tail: nat
    var count: nat
    var shutdown: int
    var threadCount: nat
    var started: int
    var locked: bool
    var freed: bool

    /** `tail` is `count` places after `head`, round the ring. */
    ghost predicate Valid()
      reads `head, `tail, `count, `shutdown
    {
      && queue.Length == queueSize
      && count <= queueSize
      && (if queueSize == 0 then head == 0 else head < queueSize)
      && tail == Slot(head, count)
      && 0 <= shutdown <= 2
    }

    /** The slot `k` places after slot `i`, for `k` at most the size of the ring. */
    function Slot(i: nat, k: nat): int {
      if i + k >= queueSize then i + k - queueSize else i + k
    }

    function Contents(): (s: seq<Task>)
      reads `head, `tail, `count, `shutdown, queue
      requires Valid()
      ensures |s| == count
    {
      var first := head;
      seq(count, (k: nat) requires 0 <= Slot(first, k) < queue.Length reads queue => queue[Slot(first, k)])
    }

    function View(): Pool
      reads this, queue
      requires Valid()
    {
      Pool(queueSize, Contents(), if shutdown == 0 then Open else if shutdown == 1 then Immediate else Graceful,
           threadCount, started)
    }

    /** threadpool_create up to the thread-starting loop */
    constructor (queueSize: nat)
      ensures Valid() && fresh(queue) && View() == NewPool(queueSize) && !locked && !freed
    {
      this.queueSize := queueSize;
      queue := new Task[queueSize](i => Task(Null, 0));
      head, tail, count, shutdown := 0, 0, 0, 0;
      threadCount, started, locked, freed := 0, 0, false, false;
    }

    /** Lines 177-180: the task goes to the tail of the ring. */
    method Enqueue(t: Task, next: int)
      requires Valid() && count < queueSize && next == (if tail + 1 == queueSize then 0 else tail + 1)
      modifies `tail, `count, queue
      ensures Valid() && count == old(count) + 1
      ensures Contents() == old(Contents()) + [t]
    {
      queue[tail] := t;
      tail := next;
      count := count + 1;
      assert Contents()[..count - 1] == old(Contents());
      assert Contents() == old(Contents()) + [t];
    }

    /** Lines 285-289: the task at the head of the ring leaves it. */
    method Dequeue() returns (task: Task)
      requires Valid() && count > 0
      modifies `head, `count
      ensures Valid() && count == old(count) - 1
      ensures [task] + Contents() == old(Contents())
    {
      task := queue[head];
      head := head + 1;
      head := if head == queueSize then 0 else head;
      count := count - 1;
      assert Contents() == old(Contents())[1..];
    }

    /** threadpool_add; `signals` says whether it signals `notify`. A refused add changes nothing. */
    method AddTask(t: Task) returns (err: int, signals: bool)
      requires Valid() && !locked
      modifies this, queue
      ensures Valid() && !locked
      ensures err == AddCode(old(View()), t)
      ensures View() == Add(old(View()), t)
      ensures err == -1 <==> t.routine.Null?
      ensures err == -3 <==> !t.routine.Null? && old(count) == queueSize
      ensures err == -4 <==> !t.routine.Null? && old(count) != queueSize && old(shutdown) != 0
      ensures err == 0 <==> !t.routine.Null? && old(count) != queueSize && old(shutdown) == 0
      ensures err == 0 ==> Contents() == old(Contents()) + [t] && count == old(count) + 1 && shutdown == 0
      ensures signals <==> err == 0
      ensures err != 0 ==> unchanged(this) && unchanged(queue)
    {
      signals := false;
      if t.routine.Null? {
        return INVALID, false;
      }
      locked := true;
      err := 0;
      var next := tail + 1;
      next := if next == queueSize then 0 else next;
      if count == queueSize {
        err := QUEUE_FULL;
      } else if shutdown != 0 {
        err := SHUTDOWN;
      } else {
        Enqueue(t, next);
        signals := true;
      }
      locked := false;
    }

    /** The critical section of threadpool_thread, from getting the lock to waiting or unlocking. */
    method WorkerSection() returns (turn: Turn, task: Task)
      requires Valid() && !locked
      modifies this
      ensures Valid() && !locked
      ensures turn == WorkerTurn(old(View()))
      ensures View() == AfterTurn(old(View()))
      ensures turn == Wait <==> old(count) == 0 && old(shutdown) == 0
      ensures turn == Leave <==> old(shutdown) == 1 || (old(shutdown) == 2 && old(count) == 0)
      ensures turn == Take ==> old(count) > 0 && [task] + Contents() == old(Contents()) && started == old(started)
      ensures turn == Leave ==> started == old(started) - 1 && Contents() == old(Contents())
      ensures turn == Wait ==> started == old(started) && Contents() == old(Contents())
      ensures shutdown == old(shutdown)
    {
      task := Task(Null, 0);
      locked := true;
      if count == 0 && shutdown == 0 {
        locked := false;
        return Wait, task;
      }
      if shutdown == 1 || (shutdown == 2 && count == 0) {
        started := started - 1;
        locked := false;
        return Leave, task;
      }
      turn := Take;
      task := Dequeue();
      locked := false;
      assert Contents() == old(Contents())[1..];
    }

    /** The critical section of threadpool_destroy. A pool that is already shutting down is reported,
        and then the lock is kept. */
    method ShutDown(flags: int) returns (err: int, broadcasts: bool)
      requires Valid() && !locked
      modifies this
      ensures Valid()
      ensures err == ShutdownCode(old(View()))
      ensures View() == BeginShutdown(old(View()), flags)
      ensures old(shutdown) == 0 ==> err == 0 && shutdown == (if flags % 2 == 1 then 2 else 1)
      ensures old(shutdown) != 0 ==> err == -4 && shutdown == old(shutdown)
      ensures Contents() == old(Contents()) && started == old(started) && threadCount == old(threadCount)
      ensures broadcasts <==> err == 0
      ensures locked <==> err != 0
    {
      locked := true;
      if shutdown != 0 {
        return SHUTDOWN, false;
      }
      shutdown := if flags % 2 == 1 then 2 else 1;
      locked := false;
      return 0, true;
    }

    /** The thread-starting loop of threadpool_create: `created[k]` tells whether the k-th
        pthread_create succeeds. The first failure shuts the pool down at once. */
    method StartWorkers(created: seq<bool>) returns (ok: bool)
      requires Valid() && !locked && View() == NewPool(queueSize)
      modifies this
      ensures Valid() && !locked
      ensures ok <==> forall k :: 0 <= k < |created| ==> created[k]
      ensures ok ==> View() == NewPool(queueSize).(threads := |created|, started := |created|)
      ensures ok ==> shutdown == 0 && threadCount == started == |created|
      ensures !ok ==> shutdown == 1 && threadCount == started < |created| && !created[started]
      ensures !ok ==> exists k :: 0 <= k < |created| && !created[k] && (forall j :: 0 <= j < k ==> created[j]) &&
                        View() == BeginShutdown(NewPool(queueSize).(threads := k, started := k), 0)
    {
      for i := 0 to |created|
        invariant Valid() && !locked
        invariant View() == NewPool(queueSize).(threads := i, started := i)
        invariant forall j :: 0 <= j < i ==> created[j]
      {
        if !created[i] {
          var err, broadcasts := ShutDown(0);
          return false;
        }
        CountWorker();
      }
      return true;
    }

    /** What the loop does after a successful pthread_create, without the lock */
    method CountWorker()
      requires Valid()
      modifies `threadCount, `started
      ensures Valid()
      ensures View() == old(View()).(threads := old(threadCount) + 1, started := old(started) + 1)
    {
      threadCount := threadCount + 1;
      started := started + 1;
      assert Contents() == old(Contents());
    }

    /** threadpool_free */
    method Free() returns (r: int)
      requires Valid()
      modifies `freed
      ensures Valid() && View() == old(View())
      ensures r == if started > 0 then -1 else 0
      ensures freed <==> r == 0 || old(freed)
    {
      if started > 0 {
        return -1;
      }
      freed := true;
      assert Contents() == old(Contents());
      return 0;
    }
  }
}
