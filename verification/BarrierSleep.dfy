/** The one-second sleep of main (line 116), without the assumption that it is long enough: main may
    go on at any time. Whether the program can still finish is decided when main first takes Start. */
module BarrierSleep {
  import opened Runs
  import opened Barrier
  import opened BarrierInvariant
  import opened BarrierOutput
  import opened BarrierTheorems

  /** Steps of the program when the sleep may be over at any time. */
  function EarlyNext(s: State, th: Thread): Option<State> {
    if th == MainThread && s.main == Sleeping then Some(MainStep(s)) else Next(s, th)
  }

  /** Main has just locked Start for the first time. */
  predicate FirstLock(s: State) {
    s.x == 0 && (s.main == Announcing || s.main == Terminating)
  }

  ghost predicate AllWait(s: State) {
    forall i: nat :: i < |s.workers| ==> s.workers[i] == Asleep
  }

  // ----- Up to the first lock

  ghost predicate Arriving(w: Worker) {
    w.BeforeFirstLock? || w.BeforeFirstWait? || w.Asleep?
  }

  /** Nothing but the workers' arrival has happened. */
  ghost predicate Early(s: State, n: nat, rounds: nat) {
    && (s.main.Sleeping? || s.main.RoundTop? || FirstLock(s))
    && s == Init(n, rounds).(main := s.main, start := s.start, workers := s.workers)
    && |s.workers| == n
    && (forall i: nat :: i < n ==>
          Arriving(s.workers[i]) && (s.start == HeldBy(i) <==> s.workers[i] == BeforeFirstWait))
    && (s.start == HeldByMain <==> FirstLock(s))
    && (s.start.HeldBy? ==> s.start.worker < n)
    && (FirstLock(s) ==> (s.main == Announcing <==> rounds > 0))
  }

  /** The state before main's first step past the lock. */
  ghost predicate EarlyOrPast(s: State, n: nat, rounds: nat) {
    Early(s, n, rounds) || s.x > 0 || !(s.main.Sleeping? || s.main.RoundTop? || FirstLock(s))
  }

  lemma EarlyStep(s: State, th: Thread, n: nat, rounds: nat)
    requires EarlyOrPast(s, n, rounds) && EarlyNext(s, th).Some?
    ensures EarlyOrPast(EarlyNext(s, th).value, n, rounds)
  {
    match th
    case MainThread => EarlyMainStep(s, n, rounds);
    case WorkerThread(i) =>
      if Early(s, n, rounds) {
        EarlyWorkerStep(s, i, n, rounds);
      } else {
        WorkerLeavesRounds(s, i);
      }
  }

  lemma EarlyMainStep(s: State, n: nat, rounds: nat)
    requires EarlyOrPast(s, n, rounds) && EarlyNext(s, MainThread).Some?
    ensures EarlyOrPast(EarlyNext(s, MainThread).value, n, rounds)
  {
  }

  lemma EarlyWorkerStep(s: State, i: nat, n: nat, rounds: nat)
    requires Early(s, n, rounds) && CanStep(s, WorkerThread(i))
    ensures Early(WorkerStep(s, i), n, rounds)
  {
  }

  lemma FirstLockIsEarly(n: nat, rounds: nat, acts: seq<Thread>, s: State)
    requires Run(EarlyNext, Init(n, rounds), acts, s) && FirstLock(s)
    ensures Early(s, n, rounds)
  {
    var inv := (x: State) => EarlyOrPast(x, n, rounds);
    forall x, a | inv(x) && EarlyNext(x, a).Some? ensures inv(EarlyNext(x, a).value) {
      EarlyStep(x, a, n, rounds);
    }
    Invariance(EarlyNext, inv, Init(n, rounds), acts, s);
  }

  // ----- When every worker waits

  lemma AllWaitingIsSafe(s: State, n: nat, rounds: nat)
    requires Early(s, n, rounds) && FirstLock(s) && AllWait(s)
    ensures Inv(s)
  {
  }

  /** From a state of the invariant past the sleep, the program can finish. */
  lemma {:induction false} CanFinish(s: State) returns (acts: seq<Thread>, t: State)
    requires Inv(s) && s.main != Sleeping
    ensures Run(EarlyNext, s, acts, t) && AllJoined(t)
    decreases StepsLeft(s)
  {
    hide Inv, StepsLeft, CanStep, Step;
    if AllJoined(s) {
      acts, t := [], s;
    } else {
      NoDeadlock(s);
      var th :| CanStep(s, th) && !Spins(s, th);
      StepKeepsInv(s, th);
      StepCounts(s, th);
      StepsLeftNonNegative(s);
      StaysAwake(s, th);
      acts, t := CanFinish(Step(s, th));
      RunCons(EarlyNext, s, th, acts, t);
      acts := [th] + acts;
    }
  }

  lemma StaysAwake(s: State, th: Thread)
    requires CanStep(s, th) && s.main != Sleeping
    ensures Step(s, th).main != Sleeping
  {
  }

  // ----- When some worker does not

  /** Main will yet broadcast for the first time. */
  predicate BeforeBroadcast(m: Main) {
    m.Announcing? || m.WantsComplete? || m.Broadcasting? || m.Terminating?
  }

  /** The workers that miss the broadcast as the others see them: waiting for it, and then woken and never
      getting the lock. */
  ghost function SeemingWorkers(ws: seq<Worker>, missed: set<nat>, before: bool): (r: seq<Worker>)
    ensures |r| == |ws|
    ensures forall i :: 0 <= i < |ws| ==>
              r[i] == if i !in missed then ws[i] else if before then Asleep else Woken
  {
    seq(|ws|, i requires 0 <= i < |ws| => if i !in missed then ws[i] else if before then Asleep else Woken)
  }

  ghost function Seeming(s: State, missed: set<nat>): State {
    s.(start := if s.start.HeldBy? && s.start.worker in missed then Free else s.start,
       workers := SeemingWorkers(s.workers, missed, BeforeBroadcast(s.main)))
  }

  /** The workers in `missed` arrive too late for the only broadcast there will be. */
  ghost predicate Late(s: State, missed: set<nat>) {
    && s.x == 0 && s.main != Sleeping && s.main != RoundTop
    && forall k: nat :: k in missed ==>
         && k < |s.workers| && Arriving(s.workers[k])
         && (s.start == HeldBy(k) <==> s.workers[k] == BeforeFirstWait)
         && (BeforeBroadcast(s.main) ==> s.workers[k] == BeforeFirstLock)
  }

  ghost predicate Missing(s: State, missed: set<nat>) {
    Late(s, missed) && Inv(Seeming(s, missed))
  }

  ghost function NotWaiting(s: State): set<nat> {
    set k: nat | k < |s.workers| && s.workers[k] != Asleep
  }

  lemma NotWaitingMiss(s: State, n: nat, rounds: nat)
    requires Early(s, n, rounds) && FirstLock(s)
    ensures Missing(s, NotWaiting(s))
  {
    var t := Seeming(s, NotWaiting(s));
    assert Early(t, n, rounds) && AllWait(t);
    AllWaitingIsSafe(t, n, rounds);
  }

  /** While main has not yet broadcast it holds Start. */
  lemma MainHoldsStartBefore(s: State, missed: set<nat>)
    requires Missing(s, missed) && BeforeBroadcast(s.main)
    ensures s.start == HeldByMain
  {
    assert LocksOfMain(Seeming(s, missed));
  }

  /** A step of a late worker changes nothing that the others see. */
  lemma LateWorkerStep(s: State, missed: set<nat>, k: nat)
    requires Missing(s, missed) && k in missed && CanStep(s, WorkerThread(k))
    ensures Missing(WorkerStep(s, k), missed)
  {
    hide Inv;
    var t := WorkerStep(s, k);
    if BeforeBroadcast(s.main) { MainHoldsStartBefore(s, missed); }
    assert Seeming(t, missed).workers == Seeming(s, missed).workers;
    assert Seeming(t, missed) == Seeming(s, missed);
  }

  lemma SeemingSize(s: State, missed: set<nat>)
    requires Missing(s, missed)
    ensures |s.workers| == s.n
  {
    assert Globals(Seeming(s, missed));
  }

  lemma UpdateSeems(ws: seq<Worker>, missed: set<nat>, before: bool, i: nat, w: Worker)
    requires i < |ws| && i !in missed
    ensures SeemingWorkers(ws, missed, before)[i := w] == SeemingWorkers(ws[i := w], missed, before)
  {
    hide SeemingWorkers;
  }

  /** A broadcast wakes all but the missing workers, and that is what is seen. */
  lemma BroadcastSeems(ws: seq<Worker>, missed: set<nat>)
    requires forall k: nat :: k in missed && k < |ws| ==> ws[k] == BeforeFirstLock
    ensures WakeAll(SeemingWorkers(ws, missed, true)) == SeemingWorkers(WakeAll(ws), missed, false)
  {
    hide SeemingWorkers;
  }

  /** What a worker's step does to the shared state, apart from its place, does not depend on `missed`. */
  lemma OtherStepSeems(s: State, missed: set<nat>, i: nat)
    requires i !in missed && CanStep(s, WorkerThread(i)) && Placed(Seeming(s, missed), i)
    ensures CanStep(Seeming(s, missed), WorkerThread(i))
    ensures WorkerStep(Seeming(s, missed), i) == Seeming(WorkerStep(s, i), missed)
  {
    hide Batches, BegunBy, FinishedBy, UpTo, WorkerAt, SeemingWorkers;
    UpdateSeems(s.workers, missed, BeforeBroadcast(s.main), i, WorkerStep(s, i).workers[i]);
    assert WorkerStep(s, i).workers == s.workers[i := WorkerStep(s, i).workers[i]];
  }

  lemma OtherKeepsLate(s: State, missed: set<nat>, i: nat)
    requires Late(s, missed) && i !in missed && CanStep(s, WorkerThread(i)) && Placed(Seeming(s, missed), i)
    ensures Late(WorkerStep(s, i), missed)
  {
    hide Batches, BegunBy, FinishedBy, UpTo, WorkerAt, SeemingWorkers;
  }

  /** A step of any other worker looks the same. */
  lemma OtherWorkerStep(s: State, missed: set<nat>, i: nat)
    requires Missing(s, missed) && i !in missed && CanStep(s, WorkerThread(i))
    ensures Missing(WorkerStep(s, i), missed)
  {
    hide Batches, BegunBy, FinishedBy, UpTo, Globals, Logged, Mailed, Placed, Late, WorkerStep, WorkerCanStep;
    var seen := Seeming(s, missed);
    SeemingSize(s, missed);
    assert WorkerInv(seen, i);
    OtherStepSeems(s, missed, i);
    WorkerStepKeepsInv(seen, i);
    OtherKeepsLate(s, missed, i);
  }

  /** A step of main looks the same too, as long as it does not end the round. */
  lemma MainStepSeems(s: State, missed: set<nat>)
    requires Late(s, missed) && LocksOfMain(Seeming(s, missed)) && MainCanStep(s)
    requires s.main == LoopTop ==> s.y < s.n
    requires |s.workers| == s.n
    ensures MainCanStep(Seeming(s, missed))
    ensures MainStep(Seeming(s, missed)) == Seeming(MainStep(s), missed)
  {
    hide SeemingWorkers, WakeAll;
    if s.main == Broadcasting || s.main == Terminating {
      BroadcastSeems(s.workers, missed);
    }
  }

  lemma MainKeepsLate(s: State, missed: set<nat>)
    requires Late(s, missed) && LocksOfMain(Seeming(s, missed)) && MainCanStep(s)
    requires s.main == LoopTop ==> s.y < s.n
    ensures Late(MainStep(s), missed)
  {
    hide SeemingWorkers;
  }

  /** Main never receives from a worker that seems woken but never begins, so it stays in the round. */
  lemma RoundGoesOn(s: State, missed: set<nat>)
    requires Missing(s, missed) && missed != {} && s.main == LoopTop
    ensures s.y < s.n
  {
    hide Batches, BegunBy, FinishedBy, UpTo, Logged;
    var seen := Seeming(s, missed);
    SeemingSize(s, missed);
    var k :| k in missed;
    assert WorkerInv(seen, k);
    FullBatch(seen);
  }

  lemma MainStepKeepsMissing(s: State, missed: set<nat>)
    requires Missing(s, missed) && missed != {} && MainCanStep(s)
    ensures Missing(MainStep(s), missed)
  {
    hide Mailbox, Log, Rounds, LocksOfMain, WorkerInv, Late, MainStep, MainCanStep, Seeming;
    SeemingSize(s, missed);
    if s.main == LoopTop { RoundGoesOn(s, missed); }
    assert Globals(Seeming(s, missed));
    MainStepSeems(s, missed);
    MainStepKeepsInv(Seeming(s, missed));
    MainKeepsLate(s, missed);
  }

  lemma StepKeepsMissing(s: State, missed: set<nat>, th: Thread)
    requires Missing(s, missed) && missed != {} && EarlyNext(s, th).Some?
    ensures Missing(EarlyNext(s, th).value, missed)
  {
    hide Missing;
    assert s.main != Sleeping by { assert Late(s, missed) by { MissingIsLate(s, missed); } }
    match th
    case MainThread => MainStepKeepsMissing(s, missed);
    case WorkerThread(k) => if k in missed { LateWorkerStep(s, missed, k); } else { OtherWorkerStep(s, missed, k); }
  }

  lemma MissingIsLate(s: State, missed: set<nat>)
    requires Missing(s, missed)
    ensures Late(s, missed)
  {
  }

  /** A missing worker is never joined and never begins a round. */
  lemma MissingNeverFinishes(s: State, missed: set<nat>, k: nat)
    requires Missing(s, missed) && k in missed
    ensures !AllJoined(s) && BegunBy(s.log, k) == []
  {
    hide Batches, BegunBy, FinishedBy, Mailed;
    SeemingSize(s, missed);
    assert WorkerInv(Seeming(s, missed), k);
  }

  // ----- The exact condition

  /** However long main sleeps: from its first lock of Start on the program can finish if and only if
      every worker is then in the wait set, and otherwise no schedule finishes it. */
  lemma FinishesIffAllWait(n: nat, rounds: nat, acts: seq<Thread>, s: State)
    requires Run(EarlyNext, Init(n, rounds), acts, s) && FirstLock(s)
    ensures (exists more, t :: Run(EarlyNext, s, more, t) && AllJoined(t)) <==> AllWait(s)
  {
    FirstLockIsEarly(n, rounds, acts, s);
    if AllWait(s) {
      AllWaitingIsSafe(s, n, rounds);
      var more, t := CanFinish(s);
    } else {
      forall more, t | Run(EarlyNext, s, more, t) ensures !AllJoined(t) {
        var k: nat :| k < |s.workers| && s.workers[k] != Asleep;
        LateWorkerNeverBegins(n, rounds, acts, s, k, more, t);
      }
    }
  }

  /** A worker that is not in the wait set at that moment never begins a round, and main never joins
      all workers. */
  lemma LateWorkerNeverBegins(n: nat, rounds: nat, acts: seq<Thread>, s: State, k: nat, more: seq<Thread>, t: State)
    requires Run(EarlyNext, Init(n, rounds), acts, s) && FirstLock(s) && k < |s.workers| && s.workers[k] != Asleep
    requires Run(EarlyNext, s, more, t)
    ensures BegunBy(t.log, k) == [] && !AllJoined(t)
  {
    hide Missing, BegunBy;
    FirstLockIsEarly(n, rounds, acts, s);
    var missed := NotWaiting(s);
    NotWaitingMiss(s, n, rounds);
    assert k in missed;
    var inv := (x: State) => Missing(x, missed);
    forall x, a | inv(x) && EarlyNext(x, a).Some? ensures inv(EarlyNext(x, a).value) {
      StepKeepsMissing(x, missed, a);
    }
    Invariance(EarlyNext, inv, s, more, t);
    MissingNeverFinishes(t, missed, k);
  }

  /** Nothing is printed before the first lock. */
  lemma EarlyPrinted(s: State, n: nat, rounds: nat)
    requires Early(s, n, rounds)
    ensures Printed(s)
  {
  }

  lemma AwakeRunKeepsInv(s: State, more: seq<Thread>, t: State)
    requires Inv(s) && Printed(s) && s.main != Sleeping && Run(EarlyNext, s, more, t)
    ensures Inv(t) && Printed(t) && t.main != Sleeping && t.n == s.n && t.rounds == s.rounds
  {
    hide Inv, Printed, CanStep, Step;
    var inv := (x: State) => Inv(x) && Printed(x) && x.main != Sleeping && x.n == s.n && x.rounds == s.rounds;
    forall x, a | inv(x) && EarlyNext(x, a).Some? ensures inv(EarlyNext(x, a).value) {
      StepKeepsInv(x, a);
      StepPrints(x, a);
      StaysAwake(x, a);
      StepKeepsSize(x, a);
    }
    Invariance(EarlyNext, inv, s, more, t);
  }

  /** If they all wait, every schedule that goes on as far as it can, failed polls apart, joins all
      workers after the work of every round. */
  lemma AllWaitAlwaysFinishes(n: nat, rounds: nat, acts: seq<Thread>, s: State, more: seq<Thread>, t: State)
    requires Run(EarlyNext, Init(n, rounds), acts, s) && FirstLock(s) && AllWait(s)
    requires Run(EarlyNext, s, more, t) && forall th :: EarlyNext(t, th).Some? ==> Spins(t, th)
    ensures AllJoined(t)
    ensures |Batches(t.log)| == rounds && forall r: nat :: r < rounds ==> ExactlyOnceEach(Batches(t.log)[r], n)
    ensures forall i: nat :: i < n ==> BegunBy(t.log, i) == FinishedBy(t.log, i) == UpTo(rounds)
    ensures MainLines(t.log) == RoundLines(Batches(t.log)) + LastLines(n)
  {
    hide Inv, Printed, Step, CanStep, Batches, BegunBy, FinishedBy, UpTo;
    FirstLockIsEarly(n, rounds, acts, s);
    AllWaitingIsSafe(s, n, rounds);
    EarlyPrinted(s, n, rounds);
    AwakeRunKeepsInv(s, more, t);
    if !AllJoined(t) {
      NoDeadlock(t);
      assert false;
    }
    FinishedMeans(t);
  }

  // ----- A schedule that hangs

  /** Main in the wait set of CompleteCondition in round 1, when no worker had reached its first lock at
      the broadcast; the first `k` workers have come to their wait since. */
  ghost function MissedBroadcast(n: nat, rounds: nat, k: nat): State {
    Init(n, rounds).(workOn := true, round := 1, mainWaiting := true, main := InWait,
                     workers := seq(n, i => if i < k then Asleep else BeforeFirstLock), log := [Started(1)])
  }

  lemma MainMissesWorkers(n: nat, rounds: nat)
    requires n > 0 && rounds > 0
    ensures Run(EarlyNext, Init(n, rounds), seq(8, _ => MainThread), MissedBroadcast(n, rounds, 0))
  {
    hide Batches, BegunBy, FinishedBy, UpTo;
    var ws := seq(n, i => BeforeFirstLock);
    assert WakeAll(ws) == ws;
    var s := Init(n, rounds);
    var s1 := s.(main := RoundTop);
    var s2 := s1.(start := HeldByMain, main := Announcing);
    var s3 := s2.(workOn := true, round := 1, log := [Started(1)], main := WantsComplete);
    var s4 := s3.(complete := HeldByMain, main := Broadcasting);
    var s5 := s4.(main := ReleasingStart);
    var s6 := s5.(start := Free, main := LoopTop);
    var s7 := s6.(mainWaiting := true, main := EnteringWait);
    var s8 := s7.(complete := Free, main := InWait);
    assert s8.workers == MissedBroadcast(n, rounds, 0).workers;
    assert s2.log + [Started(1)] == [Started(1)];
    MainRun([s, s1, s2, s3, s4, s5, s6, s7, s8]);
    assert seq(8, _ => MainThread) == seq(|[s, s1, s2, s3, s4, s5, s6, s7, s8]| - 1, _ => MainThread);
  }

  /** States linked by main's steps make a run. */
  lemma {:induction false} MainRun(states: seq<State>)
    requires states != []
    requires forall k :: 0 <= k < |states| - 1 ==> EarlyNext(states[k], MainThread) == Some(states[k + 1])
    ensures Run(EarlyNext, states[0], seq(|states| - 1, _ => MainThread), states[|states| - 1])
    decreases |states|
  {
    hide EarlyNext;
    if |states| > 1 {
      MainRun(states[1..]);
      RunCons(EarlyNext, states[0], MainThread, seq(|states| - 2, _ => MainThread), states[|states| - 1]);
      assert [MainThread] + seq(|states| - 2, _ => MainThread) == seq(|states| - 1, _ => MainThread);
    }
  }

  lemma {:induction false} WorkersComeLate(n: nat, rounds: nat, k: nat) returns (acts: seq<Thread>)
    requires k <= n
    ensures Run(EarlyNext, MissedBroadcast(n, rounds, k), acts, MissedBroadcast(n, rounds, n))
    decreases n - k
  {
    if k == n {
      acts := [];
    } else {
      var rest := WorkersComeLate(n, rounds, k + 1);
      var s, t := MissedBroadcast(n, rounds, k), MissedBroadcast(n, rounds, n);
      var s1 := WorkerStep(s, k);
      assert s1.workers[k := Asleep] == MissedBroadcast(n, rounds, k + 1).workers;
      assert WorkerStep(s1, k) == MissedBroadcast(n, rounds, k + 1);
      RunCons(EarlyNext, s1, WorkerThread(k), rest, t);
      RunCons(EarlyNext, s, WorkerThread(k), [WorkerThread(k)] + rest, t);
      acts := [WorkerThread(k)] + ([WorkerThread(k)] + rest);
    }
  }

  /** For any number of workers and of rounds: if main does not sleep long enough, all threads can end up
      waiting for each other for ever, after the first broadcast. */
  lemma ShortSleepDeadlocks(n: nat, rounds: nat) returns (acts: seq<Thread>, t: State)
    requires n > 0 && rounds > 0
    ensures Run(EarlyNext, Init(n, rounds), acts, t)
    ensures t.main == InWait && AllWait(t) && t.log == [Started(1)]
    ensures forall th :: EarlyNext(t, th).None?
  {
    MainMissesWorkers(n, rounds);
    var rest := WorkersComeLate(n, rounds, 0);
    t := MissedBroadcast(n, rounds, n);
    acts := seq(8, _ => MainThread) + rest;
    RunConcat(EarlyNext, Init(n, rounds), seq(8, _ => MainThread), MissedBroadcast(n, rounds, 0), rest, t);
  }
}
