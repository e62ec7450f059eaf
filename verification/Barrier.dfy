/** The round barrier of WorkerThreads.c: main and `n` workers, two mutexes, two condition
    variables and a one-slot mailbox. One action is one step of one thread; the step a thread
    takes is determined by its program counter and the shared state. */
module Barrier {
  import opened Runs

  datatype Lock = Free | HeldByMain | HeldBy(worker: nat)

  /** Program counter of a worker; the comment gives the next statement and the locks held. */
  datatype Worker =
    | BeforeFirstLock  // 50
    | BeforeFirstWait  // 51, Start
    | Asleep           // 51 or 88, in the wait set of StartWorkCondition
    | Woken            // 51 or 88, out of the wait set, not yet holding Start
    | Deciding         // 54, Start
    | Working          // 63
    | Polling          // 71
    | Posting          // 79, Complete, the flag is cleared
    | WantsStart       // 82, Complete
    | Signalling       // 83-84, Start and Complete
    | Releasing        // 85, Start and Complete
    | Parking          // 88, Start
    | Exited           // 60

  /** Program counter of the main thread. */
  datatype Main =
    | Sleeping         // 116
    | RoundTop         // 121 or, after the last round, 143
    | Announcing       // 123-125, Start
    | WantsComplete    // 127, Start
    | Broadcasting     // 128, Start and Complete
    | ReleasingStart   // 129, Start and Complete
    | LoopTop          // 131, 134 or 139, Complete
    | EnteringWait     // 135, Complete
    | InWait           // 135, in the wait set of CompleteCondition
    | WokenUp          // 135, out of the wait set, not yet holding Complete
    | Reading          // 136, Complete
    | Terminating      // 145-147, Start
    | ReleasingLast    // 148, Start
    | Joining          // 151

  /** What the program prints. */
  datatype Event =
    | Started(round: nat)                // 125
    | Begun(worker: nat, round: nat)     // 55
    | Finished(worker: nat, round: nat)  // 83
    | Received(worker: nat)              // 136
    | Terminated                         // 146
    | Joined(worker: nat)                // 153

  datatype State = State(
    n: nat, rounds: nat,
    start: Lock, complete: Lock,
    workOn: bool, round: nat, mainWaiting: bool, batch: nat,
    main: Main, x: nat, y: nat, joined: nat,
    workers: seq<Worker>,
    log: seq<Event>)

  datatype Thread = MainThread | WorkerThread(worker: nat)

  const BOGUS: nat := 99

  function Init(n: nat, rounds: nat): State {
    State(n, rounds, Free, Free, false, 0, false, BOGUS, Sleeping, 0, 0, 0, seq(n, i => BeforeFirstLock), [])
  }

  /** pthread_cond_broadcast(&StartWorkCondition) */
  function WakeAll(ws: seq<Worker>): seq<Worker> {
    seq(|ws|, i requires 0 <= i < |ws| => if ws[i] == Asleep then Woken else ws[i])
  }

  // ----- When a thread can step, and what its step does

  predicate MainCanStep(s: State) {
    match s.main
    // The one-second sleep is taken to be long enough for every worker to be waiting.
    case Sleeping => forall i | 0 <= i < |s.workers| :: s.workers[i] == Asleep
    case RoundTop => s.start == Free
    case WantsComplete | WokenUp => s.complete == Free
    case InWait => false
    case Joining => s.joined < |s.workers| && s.workers[s.joined] == Exited
    case _ => true
  }

  function MainStep(s: State): State {
    match s.main
    case Sleeping => s.(main := RoundTop)
    case RoundTop => s.(start := HeldByMain, main := if s.x < s.rounds then Announcing else Terminating)
    case Announcing =>
      s.(workOn := true, round := s.round + 1, log := s.log + [Started(s.round + 1)], main := WantsComplete)
    case WantsComplete => s.(complete := HeldByMain, main := Broadcasting)
    case Broadcasting => s.(workers := WakeAll(s.workers), main := ReleasingStart)
    case ReleasingStart => s.(start := Free, y := 0, main := LoopTop)
    case LoopTop =>
      if s.y < s.n then s.(mainWaiting := true, main := EnteringWait)
      else s.(complete := Free, x := s.x + 1, main := RoundTop)
    case EnteringWait => s.(complete := Free, main := InWait)
    case InWait => s
    case WokenUp => s.(complete := HeldByMain, main := Reading)
    case Reading => s.(log := s.log + [Received(s.batch)], y := s.y + 1, main := LoopTop)
    case Terminating =>
      s.(workOn := false, log := s.log + [Terminated], workers := WakeAll(s.workers), main := ReleasingLast)
    case ReleasingLast => s.(start := Free, main := Joining)
    case Joining => s.(log := s.log + [Joined(s.joined)], joined := s.joined + 1)
  }

  predicate WorkerCanStep(s: State, i: nat)
    requires i < |s.workers|
  {
    match s.workers[i]
    case BeforeFirstLock | Woken | WantsStart => s.start == Free
    case Polling => s.complete == Free
    case Asleep | Exited => false
    case _ => true
  }

  function WorkerStep(s: State, i: nat): State
    requires i < |s.workers|
  {
    match s.workers[i]
    case BeforeFirstLock => s.(workers := s.workers[i := BeforeFirstWait], start := HeldBy(i))
    case BeforeFirstWait => s.(workers := s.workers[i := Asleep], start := Free)
    case Asleep => s
    case Woken => s.(workers := s.workers[i := Deciding], start := HeldBy(i))
    case Deciding =>
      if s.workOn
      then s.(workers := s.workers[i := Working], start := Free, log := s.log + [Begun(i, s.round)])
      else s.(workers := s.workers[i := Exited], start := Free)
    case Working => s.(workers := s.workers[i := Polling])
    case Polling =>
      if s.mainWaiting
      then s.(workers := s.workers[i := Posting], complete := HeldBy(i), mainWaiting := false)
      else s  // lock, failed test and unlock
    case Posting => s.(workers := s.workers[i := WantsStart], batch := i)
    case WantsStart => s.(workers := s.workers[i := Signalling], start := HeldBy(i))
    case Signalling =>
      // The signal wakes main if it is in the wait set and is lost otherwise.
      s.(workers := s.workers[i := Releasing], log := s.log + [Finished(i, s.round)],
         main := if s.main == InWait then WokenUp else s.main)
    case Releasing => s.(workers := s.workers[i := Parking], complete := Free)
    case Parking => s.(workers := s.workers[i := Asleep], start := Free)
    case Exited => s
  }

  predicate CanStep(s: State, t: Thread) {
    match t
    case MainThread => MainCanStep(s)
    case WorkerThread(i) => i < |s.workers| && WorkerCanStep(s, i)
  }

  function Step(s: State, t: Thread): State
    requires CanStep(s, t)
  {
    match t
    case MainThread => MainStep(s)
    case WorkerThread(i) => WorkerStep(s, i)
  }

  function Next(s: State, t: Thread): Option<State> {
    if CanStep(s, t) then Some(Step(s, t)) else None
  }

  /** A failed test of the mailbox flag. */
  predicate Spins(s: State, t: Thread) {
    t.WorkerThread? && t.worker < |s.workers| && s.workers[t.worker] == Polling && !s.mainWaiting
  }

  predicate AllJoined(s: State) {
    s.main == Joining && s.joined == s.n
  }

  // ----- What the printed log says

  /** The workers main received a completion from, one list for each round started. */
  ghost function Batches(log: seq<Event>): seq<seq<nat>> {
    if log == [] then []
    else
      var front, last := Batches(log[..|log| - 1]), log[|log| - 1];
      match last
      case Started(_) => front + [[]]
      case Received(i) => if front == [] then [] else front[..|front| - 1] + [front[|front| - 1] + [i]]
      case _ => front
  }

  /** The rounds worker `i` printed at its begin points. */
  ghost function BegunBy(log: seq<Event>, i: nat): seq<nat> {
    if log == [] then []
    else
      var front, last := BegunBy(log[..|log| - 1], i), log[|log| - 1];
      if last.Begun? && last.worker == i then front + [last.round] else front
  }

  /** The rounds worker `i` printed at its completion points. */
  ghost function FinishedBy(log: seq<Event>, i: nat): seq<nat> {
    if log == [] then []
    else
      var front, last := FinishedBy(log[..|log| - 1], i), log[|log| - 1];
      if last.Finished? && last.worker == i then front + [last.round] else front
  }

  /** The rounds main announced. */
  ghost function Announced(log: seq<Event>): seq<nat> {
    if log == [] then []
    else
      var front, last := Announced(log[..|log| - 1]), log[|log| - 1];
      if last.Started? then front + [last.round] else front
  }

  /** The workers main joined. */
  ghost function JoinedIds(log: seq<Event>): seq<nat> {
    if log == [] then []
    else
      var front, last := JoinedIds(log[..|log| - 1]), log[|log| - 1];
      if last.Joined? then front + [last.worker] else front
  }

  /** The lines main printed, without those of the workers. */
  ghost function MainLines(log: seq<Event>): seq<Event> {
    if log == [] then []
    else
      var front, last := MainLines(log[..|log| - 1]), log[|log| - 1];
      if last.Begun? || last.Finished? then front else front + [last]
  }

  /** The lines for some batches: for each the announcement of its round and then its receipts. */
  ghost function RoundLines(batches: seq<seq<nat>>): seq<Event> {
    if batches == [] then []
    else
      var k := |batches|;
      RoundLines(batches[..k - 1]) + ([Started(k)] + Receipts(batches[k - 1]))
  }

  ghost function Receipts(batch: seq<nat>): seq<Event> {
    seq(|batch|, i requires 0 <= i < |batch| => Received(batch[i]))
  }

  /** The lines after the last round, when `joined` workers have been joined. */
  ghost function LastLines(joined: nat): seq<Event> {
    [Terminated] + seq(joined, k requires 0 <= k => Joined(k))
  }

  /** The ids 0, 1, ..., k - 1. */
  ghost function FirstIds(k: nat): seq<nat> {
    seq(k, j requires 0 <= j => j)
  }

  /** The rounds 1, 2, ..., k. */
  ghost function UpTo(k: nat): seq<nat> {
    seq(k, j requires 0 <= j => j + 1)
  }

  /** Every worker id below `n` occurs exactly once in the batch, and nothing else does. */
  ghost predicate ExactlyOnceEach(batch: seq<nat>, n: nat) {
    |batch| == n && forall i: nat :: i < n ==> multiset(batch)[i] == 1
  }
}
