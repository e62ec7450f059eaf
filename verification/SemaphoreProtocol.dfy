/** The pool of ThreadPool.cpp at work in its steady state: any number of threads post requests, and
    `threads` workers take tokens of the kernel semaphore. The token is taken outside the lock, so
    the shadow count lags behind the kernel count. */
module SemaphoreProtocol {
  import opened Runs
  import opened SemaphoreSpec

  datatype Worker =
    | Waiting                 // 440
    | HasToken                // 446
    | Entering                // 377, the shadow count is decremented
    | Popping                 // 386, counted as active
    | Executing(r: Request)   // 393
    | Promoting               // 405
    | Leaving                 // 420, about to be counted as inactive

  /** The fields after `workers` are history: the requests posted, popped and executed; how many requests
      `remove` dropped with an equal one, how often a pop found nothing and how often the pending
      counter wrapped; the promotions skipped since the backlog was last empty; and the failures of
      Execute. */
  datatype State = State(
    pool: Pool, workers: seq<Worker>,
    posted: seq<Request>, popped: seq<Request>, executed: seq<Request>, dropped: nat,
    nulls: nat, wraps: nat, skipped: nat, failed: nat)

  datatype Action =
    | PostRequest(r: Request)
    | TakeToken(i: nat)
    | Decrement(i: nat)
    | Enter(i: nat)
    | PopRequest(i: nat)
    | Return(i: nat, ok: bool)   // Execute returned, with zero or not
    | PromotePending(i: nat)
    | Leave(i: nat)

  function Init(threads: nat): State {
    State(NewPool(threads), seq(threads, i => Waiting), [], [], [], 0, 0, 0, 0, 0)
  }

  /** The count of skipped promotions starts over when the backlog is empty. */
  function WhileBacklog(p: Pool, count: nat): nat {
    if p.pending == 0 then 0 else count
  }

  predicate At(s: State, i: nat, w: Worker) {
    i < |s.workers| && s.workers[i] == w
  }

  predicate CanStep(s: State, a: Action) {
    match a
    case PostRequest(_) => true
    case TakeToken(i) => At(s, i, Waiting) && s.pool.kernel > 0
    case Decrement(i) => At(s, i, HasToken)
    case Enter(i) => At(s, i, Entering)
    case PopRequest(i) => At(s, i, Popping)
    case Return(i, _) => i < |s.workers| && s.workers[i].Executing?
    case PromotePending(i) => At(s, i, Promoting)
    case Leave(i) => At(s, i, Leaving)
  }

  function Step(s: State, a: Action): State
    requires CanStep(s, a)
  {
    match a
    case PostRequest(r) =>
      s.(pool := Post(s.pool, r), posted := s.posted + [r],
         wraps := if s.pool.shadow < s.pool.threads && NotifyOk(s.pool) then s.wraps
                  else s.wraps + (s.pool.pending + 1) / WIDTH,
         skipped := WhileBacklog(Post(s.pool, r), s.skipped))
    case TakeToken(i) =>
      s.(pool := s.pool.(kernel := s.pool.kernel - 1), workers := s.workers[i := HasToken])
    case Decrement(i) =>
      s.(pool := s.pool.(shadow := Dec(s.pool.shadow)), workers := s.workers[i := Entering])
    case Enter(i) =>
      s.(pool := s.pool.(active := Inc(s.pool.active)), workers := s.workers[i := Popping])
    case PopRequest(i) =>
      if s.pool.queue == [] then
        s.(workers := s.workers[i := Leaving], nulls := s.nulls + 1, skipped := WhileBacklog(s.pool, s.skipped + 1))
      else
        s.(pool := Pop(s.pool), workers := s.workers[i := Executing(s.pool.queue[0])],
           popped := s.popped + [s.pool.queue[0]], dropped := s.dropped + (multiset(s.pool.queue)[s.pool.queue[0]] - 1))
    case Return(i, ok) =>
      s.(workers := s.workers[i := if ok then Promoting else Leaving],
         executed := s.executed + [s.workers[i].r],
         skipped := if ok then s.skipped else WhileBacklog(s.pool, s.skipped + 1),
         failed := if ok then s.failed else s.failed + 1)
    case PromotePending(i) =>
      s.(pool := Promote(s.pool), workers := s.workers[i := Leaving],
         skipped := WhileBacklog(Promote(s.pool), s.skipped))
    case Leave(i) =>
      s.(pool := s.pool.(active := Dec(s.pool.active)), workers := s.workers[i := Waiting])
  }

  function Next(s: State, a: Action): Option<State> {
    if CanStep(s, a) then Some(Step(s, a)) else None
  }

  /** What a caller can see to: the request is not already queued, the backlog stays below the width
      of its counter, and Execute returns zero. */
  predicate Clean(s: State, a: Action) {
    match a
    case PostRequest(r) => r !in s.pool.queue && s.pool.pending + 1 < WIDTH
    case Return(_, ok) => ok
    case _ => true
  }

  function CleanNext(s: State, a: Action): Option<State> {
    if Clean(s, a) then Next(s, a) else None
  }
}
