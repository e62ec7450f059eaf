/** The pool of ThreadPool.cpp in place: its counters, its list and its critical sections. */
module SemaphorePool {
  import opened Runs
  import opened SemaphoreSpec

  class ThreadPool {
    var threadCount: nat
    var kernelCount: nat      // the count of m_hSemaphore
    var semaphoreCount: nat
    var activeThread: nat
    var pendingReqCount: nat
    var requestQueue: seq<Request>
    var created: bool         // m_phThreadList is not null

    function View(): Pool
      reads this
    {
      Pool(threadCount, kernelCount, semaphoreCount, pendingReqCount, activeThread, requestQueue)
    }

    constructor ()
      ensures View() == NewPool(0) && !created
    {
      threadCount, kernelCount, semaphoreCount, activeThread, pendingReqCount := 0, 0, 0, 0, 0;
      requestQueue, created := [], false;
    }

    /** Create, with the semaphore and the threads created without error */
    method Create(usThreadCount: nat) returns (ok: bool)
      modifies this
      ensures ok <==> !old(created) && 1 <= usThreadCount <= 64
      ensures ok ==> created && View() == NewPool(usThreadCount).(queue := old(requestQueue))
      ensures ok ==> threadCount == usThreadCount && kernelCount == semaphoreCount == 0
      ensures ok ==> activeThread == pendingReqCount == 0
      ensures !ok ==> unchanged(this)
    {
      if created || usThreadCount == 0 || usThreadCount > 64 {
        return false;
      }
      activeThread, semaphoreCount, pendingReqCount, threadCount := 0, 0, 0, usThreadCount;
      kernelCount := 0;
      created := true;
      return true;
    }

    /** A pool that is not created refuses the request and keeps its state. */
    method PostRequest(r: Request) returns (ok: bool)
      modifies this
      ensures ok <==> old(created) && PostOk(old(View()))
      ensures View() == if old(created) then Post(old(View()), r) else old(View())
      ensures created == old(created) && threadCount == old(threadCount) && activeThread == old(activeThread)
      ensures requestQueue == if old(created) then old(requestQueue) + [r] else old(requestQueue)
      ensures var released := old(created) && old(semaphoreCount) < threadCount && old(kernelCount) < threadCount;
              && kernelCount == (if released then old(kernelCount) + 1 else old(kernelCount))
              && semaphoreCount == (if released then (old(semaphoreCount) + 1) % 65536 else old(semaphoreCount))
              && pendingReqCount == (if old(created) && !released then (old(pendingReqCount) + 1) % 65536
                                     else old(pendingReqCount))
    {
      if !created {
        return false;
      }
      requestQueue := requestQueue + [r];
      if semaphoreCount < threadCount {
        var notified := NotifyThread();
        if !notified {
          pendingReqCount := Inc(pendingReqCount);
          return false;
        }
      } else {
        pendingReqCount := Inc(pendingReqCount);
      }
      return true;
    }

    method NotifyThread() returns (ok: bool)
      modifies `kernelCount, `semaphoreCount
      ensures ok == NotifyOk(old(View()))
      ensures View() == Notify(old(View()))
      ensures ok <==> old(kernelCount) < threadCount
      ensures kernelCount == old(kernelCount) + (if ok then 1 else 0)
      ensures semaphoreCount == if ok then (old(semaphoreCount) + 1) % 65536 else old(semaphoreCount)
    {
      if kernelCount >= threadCount {
        return false;
      }
      kernelCount := kernelCount + 1;
      semaphoreCount := Inc(semaphoreCount);
      return true;
    }

    /** The critical section of WaitForRequest, after the wait has taken a token */
    method CountWait()
      modifies `semaphoreCount
      ensures View() == old(View()).(shadow := Dec(old(semaphoreCount)))
      ensures old(semaphoreCount) > 0 && old(semaphoreCount) < 65536 ==> semaphoreCount == old(semaphoreCount) - 1
      ensures old(semaphoreCount) == 0 ==> semaphoreCount == 65535
    {
      semaphoreCount := Dec(semaphoreCount);
    }

    method PopRequest() returns (r: Option<Request>)
      modifies `requestQueue
      ensures View() == Pop(old(View()))
      ensures r == if old(requestQueue) == [] then None else Some(old(requestQueue)[0])
      ensures r.Some? ==> r.value !in requestQueue
      ensures forall x: Request :: r != Some(x) ==> multiset(requestQueue)[x] == multiset(old(requestQueue))[x]
    {
      if requestQueue != [] {
        var front := requestQueue[0];
        RemoveAllShrinks(requestQueue, front);
        requestQueue := Remove(requestQueue, front);
        return Some(front);
      }
      return None;
    }

    /** std::list::remove */
    static method Remove(q: seq<Request>, r: Request) returns (kept: seq<Request>)
      ensures kept == RemoveAll(q, r)
    {
      kept := [];
      hide RemoveAll;
      RemoveAllEnds(q, r);
      for i := 0 to |q|
        invariant kept + RemoveAll(q[i..], r) == RemoveAll(q, r)
      {
        RemoveAllUnfolds(q, r, i);
        if q[i] != r {
          kept := kept + [q[i]];
        }
      }
    }

    /** The last critical section of the loop of ProcessRequests */
    method PromotePending()
      modifies `kernelCount, `semaphoreCount, `pendingReqCount
      ensures View() == Promote(old(View()))
      ensures var promoted :=
                old(pendingReqCount) > 0 && old(semaphoreCount) < threadCount && old(kernelCount) < threadCount;
              && kernelCount == old(kernelCount) + (if promoted then 1 else 0)
              && semaphoreCount == (if promoted then (old(semaphoreCount) + 1) % 65536 else old(semaphoreCount))
              && (old(pendingReqCount) < 65536 ==>
                    pendingReqCount == old(pendingReqCount) - (if promoted then 1 else 0))
    {
      if pendingReqCount > 0 {
        if semaphoreCount < threadCount {
          var notified := NotifyThread();
          if !notified {
            return;
          }
          pendingReqCount := Dec(pendingReqCount);
        }
      }
    }
  }
}
