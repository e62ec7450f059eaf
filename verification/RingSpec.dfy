/** The pool of threadpool.c as its critical sections see it: a bounded queue of tasks, the shutdown
    mode and two thread counters. One function for each critical section. */
module RingSpec {

  /** A function pointer; the pool refuses the null one. */
  datatype Routine = Null | Routine(id: nat)

  datatype Task = Task(routine: Routine, argument: int)

  /** `shutdown`: 0, immediate_shutdown, graceful_shutdown */
  datatype Mode = Open | Immediate | Graceful

  datatype Pool = Pool(size: nat, queue: seq<Task>, mode: Mode, threads: nat, started: int)

  const INVALID := -1
  const QUEUE_FULL := -3
  const SHUTDOWN := -4

  /** What threadpool_add returns. A full queue is reported before a shutdown. */
  function AddCode(p: Pool, t: Task): int {
    if t.routine.Null? then INVALID
    else if |p.queue| == p.size then QUEUE_FULL
    else if p.mode != Open then SHUTDOWN
    else 0
  }

  function Add(p: Pool, t: Task): Pool {
    if AddCode(p, t) == 0 then p.(queue := p.queue + [t]) else p
  }

  /** What a worker does once it holds the lock. */
  datatype Turn = Wait | Leave | Take

  function WorkerTurn(p: Pool): Turn {
    if p.queue == [] && p.mode == Open then Wait
    else if p.mode == Immediate || (p.mode == Graceful && p.queue == []) then Leave
    else Take
  }

  function AfterTurn(p: Pool): Pool {
    match WorkerTurn(p)
    case Wait => p
    case Leave => p.(started := p.started - 1)
    case Take => p.(queue := p.queue[1..])
  }

  function ShutdownCode(p: Pool): int {
    if p.mode != Open then SHUTDOWN else 0
  }

  /** The low bit of the flags asks for a graceful shutdown. */
  function BeginShutdown(p: Pool, flags: int): Pool {
    if p.mode != Open then p else p.(mode := if flags % 2 == 1 then Graceful else Immediate)
  }

  function NewPool(size: nat): Pool {
    Pool(size, [], Open, 0, 0)
  }
}
