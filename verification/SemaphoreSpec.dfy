/** The pool of ThreadPool.cpp as its critical sections see it. Requests are pointers; the counters
    are unsigned short and wrap. */
module SemaphoreSpec {

  type Request = nat

  /** `kernel` is the count of the Windows semaphore, whose maximum is `threads`. */
  datatype Pool = Pool(threads: nat, kernel: nat, shadow: nat, pending: nat, active: nat, queue: seq<Request>)

  const WIDTH: nat := 0x1_0000

  function Inc(x: nat): nat { (x + 1) % WIDTH }

  function Dec(x: nat): nat { (x + WIDTH - 1) % WIDTH }

  function NewPool(threads: nat): Pool {
    Pool(threads, 0, 0, 0, 0, [])
  }

  /** ReleaseSemaphore succeeds if it does not exceed the maximum. */
  predicate NotifyOk(p: Pool) {
    p.kernel < p.threads
  }

  function Notify(p: Pool): Pool {
    if NotifyOk(p) then p.(kernel := p.kernel + 1, shadow := Inc(p.shadow)) else p
  }

  predicate PostOk(p: Pool) {
    p.shadow < p.threads ==> NotifyOk(p)
  }

  function Post(p: Pool, r: Request): Pool {
    var q := p.(queue := p.queue + [r]);
    if q.shadow < q.threads && NotifyOk(q) then Notify(q) else q.(pending := Inc(q.pending))
  }

  /** std::list::remove: every equal element goes. */
  function RemoveAll(q: seq<Request>, r: Request): seq<Request> {
    if q == [] then [] else (if q[0] == r then [] else [q[0]]) + RemoveAll(q[1..], r)
  }

  function Pop(p: Pool): Pool {
    if p.queue == [] then p else p.(queue := RemoveAll(p.queue, p.queue[0]))
  }

  /** At most one backlog request for each request executed. */
  function Promote(p: Pool): Pool {
    if p.pending > 0 && p.shadow < p.threads && NotifyOk(p) then Notify(p).(pending := Dec(p.pending)) else p
  }

  // ----- Removing the front request

  lemma RemoveAllEnds(q: seq<Request>, r: Request)
    ensures RemoveAll(q[..0], r) == RemoveAll(q[|q|..], r) == [] && q[0..] == q
  {
  }

  lemma RemoveAllUnfolds(q: seq<Request>, r: Request, i: nat)
    requires i < |q|
    ensures RemoveAll(q[i..], r) == (if q[i] == r then [] else [q[i]]) + RemoveAll(q[i + 1..], r)
  {
    assert q[i..][0] == q[i] && q[i..][1..] == q[i + 1..];
  }

  lemma {:induction false} RemoveAllAbsent(q: seq<Request>, r: Request)
    requires r !in q
    ensures RemoveAll(q, r) == q
    decreases |q|
  {
    if q != [] {
      RemoveAllAbsent(q[1..], r);
    }
  }

  lemma {:induction false} RemoveAllShrinks(q: seq<Request>, r: Request)
    ensures |RemoveAll(q, r)| + multiset(q)[r] == |q|
    ensures forall x: Request :: multiset(RemoveAll(q, r))[x] == if x == r then 0 else multiset(q)[x]
    decreases |q|
  {
    if q != [] {
      assert q == [q[0]] + q[1..];
      RemoveAllShrinks(q[1..], r);
    }
  }

  /** Popping takes exactly the front request if and only if it is not queued a second time. */
  lemma PopTakesOneIffDistinct(q: seq<Request>)
    requires q != []
    ensures RemoveAll(q, q[0]) == q[1..] <==> q[0] !in q[1..]
  {
    assert q == [q[0]] + q[1..];
    RemoveAllShrinks(q[1..], q[0]);
    if q[0] !in q[1..] {
      RemoveAllAbsent(q[1..], q[0]);
    }
  }
}
