/** What every run of the round barrier does. */
module BarrierTheorems {
  import opened Runs
  import opened Counting
  import opened Barrier
  import opened BarrierInvariant
  import opened BarrierOutput

  // ----- Reports

  /** In every run, each finished round's batch holds every worker id exactly once, and the batch of
      the round in progress never repeats an id. */
  lemma EachWorkerReportsOncePerRound(n: nat, rounds: nat, acts: seq<Thread>, t: State)
    requires Run(Next, Init(n, rounds), acts, t)
    ensures t.x <= |Batches(t.log)| <= t.x + 1 <= rounds + 1
    ensures forall r: nat :: r < t.x ==> ExactlyOnceEach(Batches(t.log)[r], n)
    ensures t.x < |Batches(t.log)| ==>
              Distinct(Batches(t.log)[t.x]) && forall i :: i in Batches(t.log)[t.x] ==> i < n
  {
    InitInv(n, rounds);
    RunKeepsInv(Init(n, rounds), acts, t);
    RunKeepsSize(n, rounds, acts, t);
  }

  lemma RunKeepsSize(n: nat, rounds: nat, acts: seq<Thread>, t: State)
    requires Run(Next, Init(n, rounds), acts, t)
    ensures t.n == n && t.rounds == rounds
  {
    var inv := (x: State) => x.n == n && x.rounds == rounds;
    forall x, a | inv(x) && Next(x, a).Some? ensures inv(Next(x, a).value) {
      StepKeepsSize(x, a);
    }
    Invariance(Next, inv, Init(n, rounds), acts, t);
  }

  lemma StepKeepsSize(s: State, th: Thread)
    requires CanStep(s, th)
    ensures Step(s, th).n == s.n && Step(s, th).rounds == s.rounds
  {
  }

  /** A worker that holds Complete and sees the flag finds main in the wait set; so does every
      signal. At most one worker is between clearing the flag and main's read of its id. */
  lemma MailboxHandoff(n: nat, rounds: nat, acts: seq<Thread>, t: State, i: nat)
    requires Run(Next, Init(n, rounds), acts, t) && i < |t.workers|
    ensures t.workers[i] == Polling && t.complete == Free && t.mainWaiting ==> t.main == InWait
    ensures Committed(t.workers[i]) ==> t.main == InWait && !t.mainWaiting && t.complete == HeldBy(i)
    ensures t.workers[i] == Signalling ==> t.batch == i
    ensures forall j: nat :: j < |t.workers| && Committed(t.workers[i]) && Committed(t.workers[j]) ==> i == j
    ensures t.main == WokenUp || t.main == Reading ==> !Committed(t.workers[i]) && t.batch !in Got(t)
  {
    InitInv(n, rounds);
    RunKeepsInv(Init(n, rounds), acts, t);
    assert WorkerInv(t, i);
    forall j: nat | j < |t.workers| && Committed(t.workers[i]) && Committed(t.workers[j]) ensures i == j {
      assert WorkerInv(t, j);
    }
  }

  // ----- Barrier safety

  /** Both broadcasts find every worker in the wait set. What a worker printed is round 1, 2, ... at
      its begin points and the same rounds at its completion points; no worker is a round ahead of
      another one's completions by more than one; and main receives a worker's completion of a round
      only after the worker has printed it. */
  lemma BarrierSafety(n: nat, rounds: nat, acts: seq<Thread>, t: State, i: nat, j: nat)
    requires Run(Next, Init(n, rounds), acts, t) && i < n && j < n
    ensures |t.workers| == n
    ensures t.main == Broadcasting || t.main == Terminating ==> t.workers[i] == Asleep
    ensures BegunBy(t.log, i) == UpTo(|BegunBy(t.log, i)|)
    ensures FinishedBy(t.log, i) <= BegunBy(t.log, i)
    ensures |BegunBy(t.log, i)| <= |FinishedBy(t.log, j)| + 1
    ensures forall r: nat :: r < |Batches(t.log)| && i in Batches(t.log)[r] ==> r < |FinishedBy(t.log, i)|
  {
    hide Batches, BegunBy, FinishedBy, Mailbox, Mailed, LocksOfMain;
    InitInv(n, rounds);
    RunKeepsInv(Init(n, rounds), acts, t);
    RunKeepsSize(n, rounds, acts, t);
    assert WorkerInv(t, i) && WorkerInv(t, j);
    ReceivedAfterFinished(t, i);
  }

  lemma ReceivedAfterFinished(s: State, i: nat)
    requires Globals(s) && i < s.n && WorkerInv(s, i)
    ensures forall r: nat :: r < |Batches(s.log)| && i in Batches(s.log)[r] ==> r < |FinishedBy(s.log, i)|
  {
    hide Batches, BegunBy, FinishedBy, WorkerLocks, LocksOfMain;
    forall r: nat | r < |Batches(s.log)| && i in Batches(s.log)[r] ensures r < |FinishedBy(s.log, i)| {
      if r == s.round - 1 {
        assert i in Got(s);
      }
    }
  }

  // ----- No deadlock

  /** Until every worker is joined, some thread can take a step that is not a failed poll. */
  lemma NoDeadlock(s: State)
    requires Inv(s) && !AllJoined(s)
    ensures exists th :: CanStep(s, th) && !Spins(s, th)
  {
    if MainCanStep(s) {
      assert CanStep(s, MainThread) && !Spins(s, MainThread);
    } else {
      var i := BlockingWorker(s);
      assert CanStep(s, WorkerThread(i)) && !Spins(s, WorkerThread(i));
    }
  }

  /** A polling worker can try at any time the mutex is free; a failed try changes nothing. */
  lemma PollIsFree(s: State, i: nat)
    requires i < |s.workers| && s.workers[i] == Polling && s.complete == Free
    ensures CanStep(s, WorkerThread(i)) && (!s.mainWaiting ==> Step(s, WorkerThread(i)) == s)
    ensures s.mainWaiting ==> Step(s, WorkerThread(i)).workers[i] == Posting
  {
  }

  /** Only a mutex that is taken, a wait, a join and the sleep block a thread. */
  lemma WhatBlocks(s: State, i: nat)
    ensures !CanStep(s, MainThread) ==>
              || (s.main == RoundTop && s.start != Free)
              || ((s.main == WantsComplete || s.main == WokenUp) && s.complete != Free)
              || s.main == InWait
              || (s.main == Joining && (s.joined >= |s.workers| || s.workers[s.joined] != Exited))
              || (s.main == Sleeping && exists j :: 0 <= j < |s.workers| && s.workers[j] != Asleep)
    ensures i < |s.workers| && !CanStep(s, WorkerThread(i)) ==>
              || (s.workers[i] in {BeforeFirstLock, Woken, WantsStart} && s.start != Free)
              || (s.workers[i] == Polling && s.complete != Free)
              || s.workers[i] in {Asleep, Exited}
  {
  }

  /** When main is blocked, this worker can step. */
  lemma BlockingWorker(s: State) returns (i: nat)
    requires Inv(s) && !AllJoined(s) && !MainCanStep(s)
    ensures i < s.n && WorkerCanStep(s, i) && !Spins(s, WorkerThread(i))
  {
    hide Batches, BegunBy, FinishedBy, UpTo, Logged;
    if s.start.HeldBy? {
      i := s.start.worker;
      assert WorkerInv(s, i);
    } else if s.complete.HeldBy? {
      i := s.complete.worker;
      assert WorkerInv(s, i);
    } else {
      i := UnlockedWorker(s);
    }
  }

  /** No worker holds a lock and main is blocked: main waits for a worker that can move. */
  lemma UnlockedWorker(s: State) returns (i: nat)
    requires Inv(s) && !AllJoined(s) && !MainCanStep(s) && !s.start.HeldBy? && !s.complete.HeldBy?
    ensures i < s.n && WorkerCanStep(s, i) && !Spins(s, WorkerThread(i))
  {
    hide Batches, BegunBy, FinishedBy, UpTo, Logged;
    i := 0;
    match s.main
    case Sleeping =>
      i :| i < |s.workers| && s.workers[i] != Asleep;
      assert WorkerInv(s, i);
    case InWait =>
      Pigeonhole(Got(s), s.n);
      i :| i < s.n && i !in Got(s);
      assert WorkerInv(s, i);
    case Joining =>
      i := s.joined;
      assert WorkerInv(s, i);
    case _ =>
      assert false;
  }

  // ----- The number of steps

  /** What one round costs, and what `k` rounds cost. */
  ghost function RoundSteps(n: nat): nat {
    13 * n + 6
  }

  ghost function RoundsSteps(k: nat, n: nat): nat {
    if k == 0 then 0 else RoundSteps(n) + RoundsSteps(k - 1, n)
  }

  /** Steps from the top of the round loop with `k` rounds to go. */
  ghost function FromRoundTop(k: nat, n: nat): nat {
    RoundsSteps(k, n) + 3 + 3 * n
  }

  ghost function TotalSteps(n: nat, rounds: nat): nat {
    2 * n + 1 + FromRoundTop(rounds, n)
  }

  lemma {:induction false} TotalStepsClosedForm(n: nat, rounds: nat)
    ensures TotalSteps(n, rounds) == rounds * (13 * n + 6) + 5 * n + 4
  {
    if rounds > 0 {
      TotalStepsClosedForm(n, rounds - 1);
      assert rounds * (13 * n + 6) == (rounds - 1) * (13 * n + 6) + (13 * n + 6);
    }
  }

  /** Steps a worker has left before it waits for the next broadcast, or exits. */
  ghost function StepsWhileOn(w: Worker): int {
    match w
    case BeforeFirstLock => 2
    case BeforeFirstWait => 1
    case Asleep => 0
    case Woken => 9
    case Deciding => 8
    case Working => 7
    case Polling => 6
    case Posting => 5
    case WantsStart => 4
    case Signalling => 3
    case Releasing => 2
    case Parking => 1
    case Exited => 0
  }

  ghost function StepsWhileOff(w: Worker): int {
    match w
    case Woken => 2
    case Deciding => 1
    case _ => StepsWhileOn(w)
  }

  ghost function WorkerSteps(s: State): int {
    Sum(if s.workOn then StepsWhileOn else StepsWhileOff, s.workers)
  }

  /** Steps of main, and of the workers it has still to wake. */
  ghost function MainSteps(s: State): int {
    var rest := if s.x < s.rounds then FromRoundTop(s.rounds - s.x - 1, s.n) else 0;
    match s.main
    case Sleeping => 1 + FromRoundTop(s.rounds, s.n)
    case RoundTop => if s.x <= s.rounds then FromRoundTop(s.rounds - s.x, s.n) else 0
    case Announcing => rest + 5 + 13 * s.n
    case WantsComplete => rest + 4 + 13 * s.n
    case Broadcasting => rest + 3 + 13 * s.n
    case ReleasingStart => rest + 2 + 4 * s.n
    case LoopTop => rest + 1 + 4 * (s.n - s.y)
    case EnteringWait => rest + 4 * (s.n - s.y)
    case InWait | WokenUp => rest + 4 * (s.n - s.y) - 1
    case Reading => rest + 4 * (s.n - s.y) - 2
    case Terminating => 2 + 3 * s.n
    case ReleasingLast => 1 + s.n
    case Joining => s.n - s.joined
  }

  ghost function StepsLeft(s: State): int {
    MainSteps(s) + WorkerSteps(s)
  }

  ghost function StepCost(s: State, th: Thread): int {
    if Spins(s, th) then 0 else 1
  }

  /** The worker steps a broadcast sets going. */
  ghost function Released(s: State): int {
    if s.main == Broadcasting then 9 * s.n else if s.main == Terminating then 2 * s.n else 0
  }

  lemma MainSpendsMainSteps(s: State)
    requires Rounds(s) && (s.main == LoopTop ==> s.y <= s.n) && MainCanStep(s)
    ensures MainSteps(MainStep(s)) + Released(s) + 1 == MainSteps(s)
  {
    hide Rounds, MainSteps, MainStep, Released;
    if s.main == Sleeping || s.main == RoundTop {
      MainSpendsOnStarting(s);
    } else if InRound(s.main) {
      MainSpendsInRound(s);
    } else {
      MainSpendsElsewhere(s);
    }
  }

  lemma MainSpendsOnStarting(s: State)
    requires Rounds(s) && (s.main == Sleeping || s.main == RoundTop)
    ensures MainSteps(MainStep(s)) + Released(s) + 1 == MainSteps(s)
  {
  }

  lemma MainSpendsInRound(s: State)
    requires Rounds(s) && (s.main == LoopTop ==> s.y <= s.n) && InRound(s.main) && s.main != InWait
    ensures MainSteps(MainStep(s)) + Released(s) + 1 == MainSteps(s)
  {
    hide FromRoundTop;
  }

  lemma MainSpendsElsewhere(s: State)
    requires Rounds(s) && !InRound(s.main) && s.main != Sleeping && s.main != RoundTop
    ensures MainSteps(MainStep(s)) + Released(s) + 1 == MainSteps(s)
  {
    hide FromRoundTop, WakeAll;
  }

  lemma MainReleasesWorkerSteps(s: State)
    requires Inv(s) && MainCanStep(s)
    ensures WorkerSteps(MainStep(s)) == WorkerSteps(s) + Released(s)
  {
    hide Batches, BegunBy, FinishedBy, UpTo, Logged, Mailed, MainCanStep, Mailbox, Log;
    var t := MainStep(s);
    if s.main == Announcing || s.main == Broadcasting || s.main == Terminating {
      forall j | 0 <= j < |s.workers| ensures s.workers[j] == Asleep { assert WorkerInv(s, j); }
      SumConstant(if s.workOn then StepsWhileOn else StepsWhileOff, s.workers, 0);
      SumConstant(if t.workOn then StepsWhileOn else StepsWhileOff, t.workers,
                  match s.main case Announcing => 0 case Broadcasting => 9 case _ => 2);
    }
  }

  lemma WorkerSpendsItsSteps(s: State, i: nat)
    requires Rounds(s) && i < |s.workers| && Placed(s, i) && Mailed(s, i) && WorkerCanStep(s, i)
    ensures var f := if s.workOn then StepsWhileOn else StepsWhileOff;
            f(WorkerStep(s, i).workers[i]) + StepCost(s, WorkerThread(i)) == f(s.workers[i])
  {
  }

  lemma WorkerLeavesMainSteps(s: State, i: nat)
    requires i < |s.workers| && WorkerCanStep(s, i)
    ensures MainSteps(WorkerStep(s, i)) == MainSteps(s) && WorkerStep(s, i).workOn == s.workOn
    ensures WorkerStep(s, i).workers == s.workers[i := WorkerStep(s, i).workers[i]]
  {
    hide FromRoundTop;
  }

  lemma StepCounts(s: State, th: Thread)
    requires Inv(s) && CanStep(s, th)
    ensures StepsLeft(Step(s, th)) + StepCost(s, th) == StepsLeft(s)
  {
    hide Batches, BegunBy, FinishedBy, UpTo, Placed, Mailed, Logged, MainSteps, MainStep, WorkerStep;
    match th
    case MainThread =>
      if s.main == LoopTop { FullBatch(s); }
      MainSpendsMainSteps(s);
      MainReleasesWorkerSteps(s);
    case WorkerThread(i) =>
      assert WorkerInv(s, i);
      WorkerSpendsItsSteps(s, i);
      WorkerLeavesMainSteps(s, i);
      SumUpdate(if s.workOn then StepsWhileOn else StepsWhileOff, s.workers, i, WorkerStep(s, i).workers[i]);
  }

  /** Every run makes exactly as many steps, failed polls apart, as it brings the program forward. */
  lemma RunCountsSteps(n: nat, rounds: nat, acts: seq<Thread>, t: State)
    requires Run(Next, Init(n, rounds), acts, t)
    ensures Cost(Next, StepCost, Init(n, rounds), acts) + StepsLeft(t) == TotalSteps(n, rounds)
  {
    InitInv(n, rounds);
    forall x, a | Inv(x) && Next(x, a).Some?
      ensures Inv(Next(x, a).value) && StepsLeft(Next(x, a).value) + StepCost(x, a) == StepsLeft(x)
    {
      StepKeepsInv(x, a);
      StepCounts(x, a);
    }
    ExactCost(Next, Inv, StepsLeft, StepCost, Init(n, rounds), acts, t);
    SumConstant(StepsWhileOff, Init(n, rounds).workers, 2);
  }

  lemma StepsLeftNonNegative(s: State)
    requires Inv(s)
    ensures 0 <= StepsLeft(s)
    ensures AllJoined(s) ==> StepsLeft(s) == 0
  {
    hide Batches, BegunBy, FinishedBy, UpTo, Logged;
    SumNonNegative(if s.workOn then StepsWhileOn else StepsWhileOff, s.workers);
    if s.main == LoopTop {
      FullBatch(s);
    }
    if AllJoined(s) {
      forall j | 0 <= j < |s.workers| ensures s.workers[j] == Exited { assert WorkerInv(s, j); }
      SumConstant(if s.workOn then StepsWhileOn else StepsWhileOff, s.workers, 0);
    }
  }

  /** What a finished program has printed. */
  lemma FinishedMeans(s: State)
    requires Inv(s) && Printed(s) && AllJoined(s)
    ensures |Batches(s.log)| == s.rounds
    ensures forall r: nat :: r < s.rounds ==> ExactlyOnceEach(Batches(s.log)[r], s.n)
    ensures forall i: nat :: i < s.n ==> BegunBy(s.log, i) == FinishedBy(s.log, i) == UpTo(s.rounds)
    ensures Announced(s.log) == UpTo(s.rounds) && JoinedIds(s.log) == FirstIds(s.n)
    ensures MainLines(s.log) == RoundLines(Batches(s.log)) + LastLines(s.n)
  {
    hide Batches, BegunBy, FinishedBy, Announced, JoinedIds, MainLines, RoundLines, LastLines, UpTo, Mailed;
    forall i: nat | i < s.n ensures BegunBy(s.log, i) == FinishedBy(s.log, i) == UpTo(s.rounds) {
      assert WorkerInv(s, i);
    }
  }

  /** A run that cannot go on, failed polls apart, has joined every worker, has made exactly
      `TotalSteps` steps, and has printed every round of every worker and every report; main has announced
      every round and joined every worker, in order. */
  lemma MaximalRunCompletes(n: nat, rounds: nat, acts: seq<Thread>, t: State)
    requires Run(Next, Init(n, rounds), acts, t)
    requires forall th :: CanStep(t, th) ==> Spins(t, th)
    ensures AllJoined(t)
    ensures Cost(Next, StepCost, Init(n, rounds), acts) == TotalSteps(n, rounds)
    ensures |Batches(t.log)| == rounds && forall r: nat :: r < rounds ==> ExactlyOnceEach(Batches(t.log)[r], n)
    ensures forall i: nat :: i < n ==> BegunBy(t.log, i) == FinishedBy(t.log, i) == UpTo(rounds)
    ensures Announced(t.log) == UpTo(rounds) && JoinedIds(t.log) == FirstIds(n)
    ensures MainLines(t.log) == RoundLines(Batches(t.log)) + LastLines(n)
  {
    hide Printed, Batches, BegunBy, FinishedBy, UpTo;
    RunPrints(n, rounds, acts, t);
    InitInv(n, rounds);
    RunKeepsInv(Init(n, rounds), acts, t);
    RunKeepsSize(n, rounds, acts, t);
    if !AllJoined(t) { NoDeadlock(t); }
    RunCountsSteps(n, rounds, acts, t);
    StepsLeftNonNegative(t);
    FinishedMeans(t);
  }

  /** No run makes more steps than that, failed polls apart. */
  lemma StepsAreBounded(n: nat, rounds: nat, acts: seq<Thread>, t: State)
    requires Run(Next, Init(n, rounds), acts, t)
    ensures Cost(Next, StepCost, Init(n, rounds), acts) <= rounds * (13 * n + 6) + 5 * n + 4
  {
    InitInv(n, rounds);
    RunKeepsInv(Init(n, rounds), acts, t);
    RunCountsSteps(n, rounds, acts, t);
    StepsLeftNonNegative(t);
    TotalStepsClosedForm(n, rounds);
  }
}
