/** The whole-run invariant of the round barrier. */
module BarrierInvariant {
  import opened Runs
  import opened Counting
  import opened Barrier

  predicate HoldsStart(w: Worker) {
    (w.BeforeFirstWait? || w.Deciding? || w.Signalling? || w.Releasing? || w.Parking?)
  }

  predicate HoldsComplete(w: Worker) {
    (w.Posting? || w.WantsStart? || w.Signalling? || w.Releasing?)
  }

  predicate MainHoldsStart(m: Main) {
    (m.Announcing? || m.WantsComplete? || m.Broadcasting? || m.ReleasingStart? || m.Terminating? || m.ReleasingLast?)
  }

  predicate MainHoldsComplete(m: Main) {
    (m.Broadcasting? || m.ReleasingStart? || m.LoopTop? || m.EnteringWait? || m.Reading?)
  }

  /** Between the broadcast of a round and main's last receipt. */
  predicate InRound(m: Main) {
    (m.LoopTop? || m.EnteringWait? || m.InWait? || m.WokenUp? || m.Reading?)
  }

  /** Between the announcement of a round and the release of Start. */
  predicate Opening(m: Main) {
    (m.WantsComplete? || m.Broadcasting? || m.ReleasingStart?)
  }

  /** Between the signal and main's read of the mailbox. */
  predicate Delivered(m: Main) {
    (m.WokenUp? || m.Reading?)
  }

  /** The worker cleared the flag and has not yet signalled. */
  predicate Committed(w: Worker) {
    (w.Posting? || w.WantsStart? || w.Signalling?)
  }

  predicate Reported(w: Worker) {
    (w.Releasing? || w.Parking? || w.Asleep?)
  }

  /** The ids main has read in the latest round. */
  ghost function Got(s: State): seq<nat> {
    var b := Batches(s.log);
    if b == [] then [] else b[|b| - 1]
  }

  /** Mutual exclusion: the owner fields agree with the program counter `w` of worker `j`. */
  ghost predicate WorkerLocks(start: Lock, complete: Lock, j: nat, w: Worker) {
    && (start == HeldBy(j) <==> HoldsStart(w))
    && (complete == HeldBy(j) <==> HoldsComplete(w))
  }

  /** Where worker `j` may be, given where main is. */
  ghost predicate WorkerAt(main: Main, joined: nat, j: nat, w: Worker) {
    match main
    case Sleeping => w.BeforeFirstLock? || w.BeforeFirstWait? || w.Asleep?
    case RoundTop => w.Parking? || w.Asleep?
    case Announcing | WantsComplete | Broadcasting | Terminating => w.Asleep?
    case ReleasingStart | ReleasingLast => w.Woken?
    case Joining => w.Exited? || (joined <= j && (w.Woken? || w.Deciding?))
    case _ => !w.BeforeFirstLock? && !w.BeforeFirstWait? && !w.Exited?
  }

  /** The mailbox during a round, as it concerns worker `j`: it has reported exactly if main has
      read its id or is about to; it is between clearing the flag and signalling only while main
      is in the wait set. */
  ghost predicate WorkerMailbox(main: Main, waiting: bool, batch: nat, got: seq<nat>, j: nat, w: Worker) {
    InRound(main) ==>
      && (Reported(w) <==> j in got || (Delivered(main) && j == batch))
      && (Committed(w) ==> main == InWait && !waiting)
      && (w.WantsStart? || w.Signalling? ==> batch == j)
      && (w.Releasing? ==> main == WokenUp)
  }

  /** The worker has not yet begun the announced round. */
  ghost predicate Behind(workOn: bool, main: Main, w: Worker) {
    workOn && (Opening(main) || w.Woken? || w.Deciding?)
  }

  /** The worker has not yet printed its completion of the announced round. */
  ghost predicate Unfinished(workOn: bool, main: Main, w: Worker) {
    Behind(workOn, main, w) || w.Working? || w.Polling? || Committed(w)
  }

  /** The rounds the worker printed are 1, 2, ... up to the announced one, or to the one before. */
  ghost predicate WorkerLog(workOn: bool, main: Main, round: nat, begun: seq<nat>, finished: seq<nat>, w: Worker) {
    && (Unfinished(workOn, main, w) ==> round > 0)
    && begun == UpTo(if Behind(workOn, main, w) then round - 1 else round)
    && finished == UpTo(if Unfinished(workOn, main, w) then round - 1 else round)
  }

  ghost predicate Placed(s: State, j: nat)
    requires j < |s.workers|
  {
    WorkerLocks(s.start, s.complete, j, s.workers[j]) && WorkerAt(s.main, s.joined, j, s.workers[j])
  }

  ghost predicate Mailed(s: State, j: nat)
    requires j < |s.workers|
  {
    WorkerMailbox(s.main, s.mainWaiting, s.batch, Got(s), j, s.workers[j])
  }

  ghost predicate Logged(s: State, j: nat)
    requires j < |s.workers|
  {
    WorkerLog(s.workOn, s.main, s.round, BegunBy(s.log, j), FinishedBy(s.log, j), s.workers[j])
  }

  ghost predicate WorkerInv(s: State, j: nat)
    requires j < |s.workers|
  {
    Placed(s, j) && Mailed(s, j) && Logged(s, j)
  }

  ghost predicate LocksOfMain(s: State) {
    && (s.start == HeldByMain <==> MainHoldsStart(s.main))
    && (s.complete == HeldByMain <==> MainHoldsComplete(s.main))
    && (s.start.HeldBy? ==> s.start.worker < s.n)
    && (s.complete.HeldBy? ==> s.complete.worker < s.n)
  }

  ghost predicate Mailbox(s: State) {
    && (s.mainWaiting ==> s.main.EnteringWait? || s.main.InWait?)
    && (s.main.EnteringWait? ==> s.mainWaiting)
    && (s.main.InWait? && !s.mainWaiting ==> s.complete.HeldBy?)
    && (Delivered(s.main) ==> s.batch < s.n && s.batch !in Got(s))
    && (InRound(s.main) && !s.main.LoopTop? ==> s.y < s.n)
    && (InRound(s.main) ==> s.y == |Got(s)|)
  }

  ghost predicate Rounds(s: State) {
    && s.x <= s.rounds
    && (Opening(s.main) || InRound(s.main) || s.main.Announcing? ==> s.x < s.rounds)
    && (s.main.Terminating? || s.main.ReleasingLast? || s.main.Joining? ==> s.x == s.rounds)
    && (s.main.Sleeping? ==> s.x == 0)
    && s.round == s.x + (if Opening(s.main) || InRound(s.main) then 1 else 0)
    && (s.workOn <==> s.round > 0 && !s.main.ReleasingLast? && !s.main.Joining?)
    && s.joined <= s.n
    && (!s.main.Joining? ==> s.joined == 0)
  }

  ghost predicate Log(s: State) {
    && |Batches(s.log)| == s.round
    && (forall r: nat :: r < s.x && r < s.round ==> ExactlyOnceEach(Batches(s.log)[r], s.n))
    && (Opening(s.main) ==> Got(s) == [])
    && (InRound(s.main) ==> Distinct(Got(s)) && forall i :: i in Got(s) ==> i < s.n)
  }

  ghost predicate Globals(s: State) {
    |s.workers| == s.n && LocksOfMain(s) && Mailbox(s) && Rounds(s) && Log(s)
  }

  ghost predicate Inv(s: State) {
    Globals(s) && forall j: nat :: j < s.n ==> WorkerInv(s, j)
  }

  lemma InitInv(n: nat, rounds: nat)
    ensures Inv(Init(n, rounds))
  {
  }

  lemma LogAppend(log: seq<Event>, e: Event)
    ensures Batches(log + [e]) ==
            (match e
             case Started(_) => Batches(log) + [[]]
             case Received(i) =>
               if Batches(log) == [] then []
               else Batches(log)[..|Batches(log)| - 1] + [Batches(log)[|Batches(log)| - 1] + [i]]
             case _ => Batches(log))
    ensures forall i: nat :: BegunBy(log + [e], i) ==
              if e.Begun? && e.worker == i then BegunBy(log, i) + [e.round] else BegunBy(log, i)
    ensures forall i: nat :: FinishedBy(log + [e], i) ==
              if e.Finished? && e.worker == i then FinishedBy(log, i) + [e.round] else FinishedBy(log, i)
  {
    assert (log + [e])[..|log|] == log;
  }

  lemma UpToNext(k: nat)
    ensures UpTo(k) + [k + 1] == UpTo(k + 1)
  {
  }

  // ----- Steps of main

  /** What a read does to the batches: the last one grows, the earlier ones stay. */
  lemma ReceiptExtendsBatch(s: State)
    requires |Batches(s.log)| == s.round == s.x + 1 && s.main == Reading
    ensures var t := MainStep(s);
            && Got(t) == Got(s) + [s.batch]
            && |Batches(t.log)| == |Batches(s.log)|
            && forall r: nat :: r < s.x ==> Batches(t.log)[r] == Batches(s.log)[r]
  {
    LogAppend(s.log, Received(s.batch));
    var t := MainStep(s);
    var b := Batches(s.log);
    assert Batches(t.log)[..|b| - 1] == b[..|b| - 1];
    forall r: nat | r < s.x ensures Batches(t.log)[r] == b[r] {
      assert Batches(t.log)[r] == Batches(t.log)[..|b| - 1][r];
    }
  }

  /** When main has counted `n` receipts, every worker is in the batch exactly once. */
  lemma FullBatch(s: State)
    requires Mailbox(s) && Log(s) && s.main == LoopTop
    ensures s.y <= s.n
    ensures s.y == s.n ==> ExactlyOnceEach(Got(s), s.n) && forall j: nat :: j < s.n ==> j in Got(s)
  {
    Pigeonhole(Got(s), s.n);
  }

  /** Main's other steps print nothing that counts as a receipt, a begin or a completion. */
  lemma MainLogEffect(s: State)
    requires MainCanStep(s)
    ensures var t := MainStep(s);
            && (s.main == Announcing ==> Batches(t.log) == Batches(s.log) + [[]])
            && (s.main != Announcing && s.main != Reading ==> Batches(t.log) == Batches(s.log))
            && forall j: nat :: BegunBy(t.log, j) == BegunBy(s.log, j) && FinishedBy(t.log, j) == FinishedBy(s.log, j)
  {
    hide Batches, BegunBy, FinishedBy;
    match s.main
    case Announcing => LogAppend(s.log, Started(s.round + 1));
    case Terminating => LogAppend(s.log, Terminated);
    case Joining => LogAppend(s.log, Joined(s.joined));
    case Reading => LogAppend(s.log, Received(s.batch));
    case _ =>
  }

  lemma MainKeepsControl(s: State)
    requires Inv(s) && MainCanStep(s)
    ensures var t := MainStep(s);
            |t.workers| == t.n && LocksOfMain(t) && Rounds(t)
  {
    hide Batches, BegunBy, FinishedBy;
  }

  lemma MainKeepsMailbox(s: State)
    requires Inv(s) && MainCanStep(s)
    ensures Mailbox(MainStep(s))
  {
    hide Batches, BegunBy, FinishedBy;
    MainLogEffect(s);
    if s.main == Reading {
      ReceiptExtendsBatch(s);
    }
  }

  lemma ReadingKeepsLog(s: State)
    requires Mailbox(s) && Rounds(s) && Log(s) && s.main == Reading
    ensures Log(MainStep(s))
  {
    hide Batches;
    ReceiptExtendsBatch(s);
  }

  lemma LoopTopKeepsLog(s: State)
    requires Mailbox(s) && Rounds(s) && Log(s) && s.main == LoopTop
    ensures Log(MainStep(s))
  {
    hide Batches;
    FullBatch(s);
  }

  lemma MainKeepsLog(s: State)
    requires Inv(s) && MainCanStep(s)
    ensures Log(MainStep(s))
  {
    hide Batches, BegunBy, FinishedBy, WorkerInv, ExactlyOnceEach, LocksOfMain;
    match s.main
    case Reading => ReadingKeepsLog(s);
    case LoopTop => LoopTopKeepsLog(s);
    case _ => MainLogEffect(s);
  }

  lemma MainKeepsPlace(s: State, j: nat)
    requires Globals(s) && j < s.n && WorkerInv(s, j) && MainCanStep(s)
    ensures j < |MainStep(s).workers| && Placed(MainStep(s), j)
  {
    hide Batches, BegunBy, FinishedBy, Logged;
    if s.main == LoopTop {
      FullBatch(s);
    }
  }

  lemma MainKeepsMailed(s: State, j: nat)
    requires Globals(s) && j < s.n && WorkerInv(s, j) && MainCanStep(s)
    ensures j < |MainStep(s).workers| && Mailed(MainStep(s), j)
  {
    hide Batches, BegunBy, FinishedBy, Logged;
    MainLogEffect(s);
    if s.main == Reading {
      ReceiptExtendsBatch(s);
    }
  }

  lemma MainKeepsLogged(s: State, j: nat)
    requires Globals(s) && j < s.n && WorkerInv(s, j) && MainCanStep(s)
    ensures j < |MainStep(s).workers| && Logged(MainStep(s), j)
  {
    hide Batches, BegunBy, FinishedBy, UpTo, Mailbox;
    MainLogEffect(s);
    if s.main == LoopTop {
      FullBatch(s);
    }
  }

  // ----- Steps of worker `i`

  /** The next place of a worker, and the mutexes after its step. */
  ghost function PlaceAfter(w: Worker, workOn: bool, waiting: bool): Worker {
    match w
    case BeforeFirstLock => BeforeFirstWait
    case BeforeFirstWait | Parking | Asleep => Asleep
    case Woken => Deciding
    case Deciding => if workOn then Working else Exited
    case Working => Polling
    case Polling => if waiting then Posting else Polling
    case Posting => WantsStart
    case WantsStart => Signalling
    case Signalling => Releasing
    case Releasing => Parking
    case Exited => Exited
  }

  ghost function StartAfter(w: Worker, i: nat, start: Lock): Lock {
    if w.BeforeFirstLock? || w.Woken? || w.WantsStart? then HeldBy(i)
    else if w.BeforeFirstWait? || w.Deciding? || w.Parking? then Free
    else start
  }

  ghost function CompleteAfter(w: Worker, i: nat, waiting: bool, complete: Lock): Lock {
    if w.Polling? && waiting then HeldBy(i) else if w.Releasing? then Free else complete
  }

  lemma WorkerStepMoves(s: State, i: nat)
    requires i < |s.workers|
    ensures var w, t := s.workers[i], WorkerStep(s, i);
            && t.workers == s.workers[i := PlaceAfter(w, s.workOn, s.mainWaiting)]
            && t.start == StartAfter(w, i, s.start)
            && t.complete == CompleteAfter(w, i, s.mainWaiting, s.complete)
  {
    hide WorkerStep, PlaceAfter, StartAfter, CompleteAfter;
    WorkerStepPlaces(s, i);
    WorkerStepLocks(s, i);
  }

  lemma WorkerStepPlaces(s: State, i: nat)
    requires i < |s.workers|
    ensures WorkerStep(s, i).workers == s.workers[i := PlaceAfter(s.workers[i], s.workOn, s.mainWaiting)]
  {
    assert s.workers[i := s.workers[i]] == s.workers;
    match s.workers[i]
    case Deciding =>
    case Polling =>
    case _ =>
  }

  lemma WorkerStepLocks(s: State, i: nat)
    requires i < |s.workers|
    ensures WorkerStep(s, i).start == StartAfter(s.workers[i], i, s.start)
    ensures WorkerStep(s, i).complete == CompleteAfter(s.workers[i], i, s.mainWaiting, s.complete)
  {
  }

  lemma WorkerLogEffect(s: State, i: nat)
    requires i < |s.workers| && WorkerCanStep(s, i)
    ensures var t := WorkerStep(s, i); var w := s.workers[i];
            && Batches(t.log) == Batches(s.log)
            && (forall j: nat :: BegunBy(t.log, j) ==
                  if j == i && w == Deciding && s.workOn then BegunBy(s.log, j) + [s.round] else BegunBy(s.log, j))
            && (forall j: nat :: FinishedBy(t.log, j) ==
                  if j == i && w == Signalling then FinishedBy(s.log, j) + [s.round] else FinishedBy(s.log, j))
  {
    hide Batches, BegunBy, FinishedBy;
    LogAppend(s.log, if s.workers[i] == Deciding then Begun(i, s.round) else Finished(i, s.round));
  }

  lemma WorkerKeepsLocksOfMain(s: State, i: nat)
    requires LocksOfMain(s) && |s.workers| == s.n && i < s.n && Placed(s, i) && WorkerCanStep(s, i)
    ensures |WorkerStep(s, i).workers| == s.n && LocksOfMain(WorkerStep(s, i))
  {
    hide WorkerStep, WorkerAt;
    WorkerStepMoves(s, i);
    WorkerLeavesRounds(s, i);
  }

  /** A worker leaves the variables of the rounds alone; of main it changes at most its wait. */
  lemma WorkerLeavesRounds(s: State, i: nat)
    requires i < |s.workers|
    ensures var t := WorkerStep(s, i);
            && t.n == s.n && t.rounds == s.rounds && t.x == s.x && t.round == s.round
            && t.workOn == s.workOn && t.joined == s.joined
            && (t.main == s.main || (s.main == InWait && t.main == WokenUp))
  {
  }

  lemma WorkerKeepsRounds(s: State, i: nat)
    requires Rounds(s) && i < |s.workers| && WorkerCanStep(s, i)
    ensures Rounds(WorkerStep(s, i))
  {
    hide WorkerStep;
    WorkerLeavesRounds(s, i);
  }

  lemma WorkerKeepsMailbox(s: State, i: nat)
    requires LocksOfMain(s) && Mailbox(s) && i < |s.workers| && i < s.n
    requires Placed(s, i) && Mailed(s, i) && WorkerCanStep(s, i)
    ensures Mailbox(WorkerStep(s, i))
  {
    hide Batches, BegunBy, FinishedBy, UpTo, Log, Logged, Rounds;
    WorkerLogEffect(s, i);
  }

  lemma WorkerKeepsLog(s: State, i: nat)
    requires Rounds(s) && Log(s) && i < |s.workers| && WorkerCanStep(s, i)
    ensures Log(WorkerStep(s, i))
  {
    hide Batches, BegunBy, FinishedBy;
    WorkerLogEffect(s, i);
  }

  lemma WorkerKeepsItsPlace(s: State, i: nat)
    requires LocksOfMain(s) && Rounds(s) && i < |s.workers| && Placed(s, i) && Mailed(s, i) && WorkerCanStep(s, i)
    ensures i < |WorkerStep(s, i).workers| && Placed(WorkerStep(s, i), i)
  {
    hide WorkerStep, WorkerAt, WorkerLocks, WorkerCanStep, Mailed, Rounds, LocksOfMain;
    WorkerKeepsItsLocks(s, i);
    WorkerKeepsItsPosition(s, i);
  }

  lemma WorkerKeepsItsLocks(s: State, i: nat)
    requires LocksOfMain(s) && i < |s.workers| && Placed(s, i) && WorkerCanStep(s, i)
    ensures var t := WorkerStep(s, i);
            i < |t.workers| && WorkerLocks(t.start, t.complete, i, t.workers[i])
  {
    hide WorkerStep, WorkerAt;
    WorkerStepMoves(s, i);
  }

  lemma WorkerKeepsItsPosition(s: State, i: nat)
    requires LocksOfMain(s) && Rounds(s) && i < |s.workers| && Placed(s, i) && Mailed(s, i) && WorkerCanStep(s, i)
    ensures var t := WorkerStep(s, i);
            i < |t.workers| && WorkerAt(t.main, t.joined, i, t.workers[i])
  {
    hide Batches, BegunBy, FinishedBy, UpTo, WorkerStep;
    WorkerStepMoves(s, i);
    WorkerLeavesRounds(s, i);
  }

  /** What a worker's step does to the mailbox. */
  lemma WorkerMailboxEffect(s: State, i: nat)
    requires i < |s.workers|
    ensures var w, t := s.workers[i], WorkerStep(s, i);
            && t.mainWaiting == (s.mainWaiting && w != Polling)
            && t.batch == (if w == Posting then i else s.batch)
            && t.main == (if w == Signalling && s.main == InWait then WokenUp else s.main)
  {
  }

  lemma WorkerKeepsItsMailbox(s: State, i: nat)
    requires LocksOfMain(s) && Mailbox(s) && i < |s.workers| && Placed(s, i) && Mailed(s, i) && WorkerCanStep(s, i)
    ensures i < |WorkerStep(s, i).workers| && Mailed(WorkerStep(s, i), i)
  {
    hide Batches, BegunBy, FinishedBy, WorkerStep;
    WorkerLogEffect(s, i);
    WorkerStepMoves(s, i);
    WorkerMailboxEffect(s, i);
  }

  lemma WorkerKeepsItsLog(s: State, i: nat)
    requires Rounds(s) && i < |s.workers| && Placed(s, i) && Logged(s, i) && WorkerCanStep(s, i)
    ensures i < |WorkerStep(s, i).workers| && Logged(WorkerStep(s, i), i)
  {
    hide Batches, BegunBy, FinishedBy, UpTo, WorkerStep, WorkerLocks;
    WorkerLogEffect(s, i);
    WorkerStepMoves(s, i);
    WorkerLeavesRounds(s, i);
    if s.round > 0 {
      UpToNext(s.round - 1);
    }
  }

  lemma WorkerKeepsOtherPlace(s: State, i: nat, j: nat)
    requires LocksOfMain(s) && i < |s.workers| && j < |s.workers| && i != j
    requires Placed(s, i) && Placed(s, j) && WorkerCanStep(s, i)
    ensures j < |WorkerStep(s, i).workers| && Placed(WorkerStep(s, i), j)
  {
    hide WorkerStep;
    WorkerStepMoves(s, i);
    WorkerLeavesRounds(s, i);
  }

  lemma WorkerKeepsOtherMailbox(s: State, i: nat, j: nat)
    requires LocksOfMain(s) && i < |s.workers| && j < |s.workers| && i != j
    requires Placed(s, i) && Placed(s, j) && Mailed(s, i) && Mailed(s, j) && Mailbox(s) && WorkerCanStep(s, i)
    ensures j < |WorkerStep(s, i).workers| && Mailed(WorkerStep(s, i), j)
  {
    hide Batches, BegunBy, FinishedBy, Log, Logged, Rounds;
    WorkerLogEffect(s, i);
  }

  lemma WorkerKeepsOtherLog(s: State, i: nat, j: nat)
    requires i < |s.workers| && j < |s.workers| && i != j && Logged(s, j) && WorkerCanStep(s, i)
    ensures j < |WorkerStep(s, i).workers| && Logged(WorkerStep(s, i), j)
  {
    hide Batches, BegunBy, FinishedBy, UpTo, Mailbox, Log, Mailed;
    WorkerLogEffect(s, i);
  }

  // ----- All steps, and runs

  lemma MainStepKeepsInv(s: State)
    requires Inv(s) && MainCanStep(s)
    ensures Inv(MainStep(s))
  {
    hide Batches, BegunBy, FinishedBy, LocksOfMain, Mailbox, Rounds, Log, Placed, Mailed, Logged;
    var t := MainStep(s);
    MainKeepsControl(s);
    MainKeepsMailbox(s);
    MainKeepsLog(s);
    forall j: nat | j < t.n ensures WorkerInv(t, j) {
      MainKeepsPlace(s, j);
      MainKeepsMailed(s, j);
      MainKeepsLogged(s, j);
    }
  }

  lemma WorkerStepKeepsInv(s: State, i: nat)
    requires Inv(s) && i < s.n && WorkerCanStep(s, i)
    ensures Inv(WorkerStep(s, i))
  {
    hide Batches, BegunBy, FinishedBy, LocksOfMain, Mailbox, Rounds, Log, Placed, Mailed, Logged;
    var t := WorkerStep(s, i);
    assert WorkerInv(s, i);
    WorkerKeepsLocksOfMain(s, i);
    WorkerKeepsRounds(s, i);
    WorkerKeepsMailbox(s, i);
    WorkerKeepsLog(s, i);
    forall j: nat | j < t.n ensures WorkerInv(t, j) {
      assert WorkerInv(s, j);
      if j == i {
        WorkerKeepsItsPlace(s, i);
        WorkerKeepsItsMailbox(s, i);
        WorkerKeepsItsLog(s, i);
      } else {
        WorkerKeepsOtherPlace(s, i, j);
        WorkerKeepsOtherMailbox(s, i, j);
        WorkerKeepsOtherLog(s, i, j);
      }
    }
  }

  lemma StepKeepsInv(s: State, th: Thread)
    requires Inv(s) && Next(s, th).Some?
    ensures Inv(Next(s, th).value)
  {
    match th
    case MainThread => MainStepKeepsInv(s);
    case WorkerThread(i) => WorkerStepKeepsInv(s, i);
  }

  lemma RunKeepsInv(s: State, acts: seq<Thread>, t: State)
    requires Inv(s) && Run(Next, s, acts, t)
    ensures Inv(t)
  {
    forall x, a | Inv(x) && Next(x, a).Some? ensures Inv(Next(x, a).value) {
      StepKeepsInv(x, a);
    }
    Invariance(Next, Inv, s, acts, t);
  }
}
