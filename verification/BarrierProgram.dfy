/** WorkerThreads.c as a program over its globals. The pthread operations are methods that demand what
    pthreads demands: only the owner unlocks a mutex or waits with it. A turn runs one thread from its
    program counter to its next synchronization point. */
module BarrierProgram {
  import opened Runs
  import opened Barrier
  import opened BarrierInvariant
  import opened BarrierTheorems

  /** What worker `i` owns at its program counter, and that its signal finds main waiting. */
  lemma WorkerOwns(s: State, i: nat)
    requires Inv(s) && i < s.n
    ensures |s.workers| == s.n
    ensures HoldsStart(s.workers[i]) ==> s.start == HeldBy(i)
    ensures HoldsComplete(s.workers[i]) ==> s.complete == HeldBy(i)
    ensures s.workers[i] == Signalling ==> s.main == InWait
  {
    hide Batches, BegunBy, FinishedBy, UpTo, Logged;
    assert WorkerInv(s, i);
  }

  /** What main owns at its program counter, and that its broadcasts find every worker waiting. */
  lemma MainOwns(s: State)
    requires Inv(s)
    ensures |s.workers| == s.n
    ensures MainHoldsStart(s.main) ==> s.start == HeldByMain
    ensures MainHoldsComplete(s.main) ==> s.complete == HeldByMain
    ensures s.main == Broadcasting || s.main == Terminating ==>
              forall i :: 0 <= i < |s.workers| ==> s.workers[i] == Asleep
  {
    hide Batches, BegunBy, FinishedBy, UpTo, Logged, Mailed;
    if s.main == Broadcasting || s.main == Terminating {
      forall i | 0 <= i < |s.workers| ensures s.workers[i] == Asleep {
        assert WorkerInv(s, i);
      }
    }
  }

  class Program {
    const rounds: nat
    const workers: array<Worker>
    // The globals of the program, and the owners of its two mutexes.
    var startOwner: Lock
    var completeOwner: Lock
    var workOn: bool
    var round: nat
    var mainThreadWaiting: bool
    var theCompletedBatch: nat
    // The locals of main.
    var main: Main
    var x: nat
    var y: nat
    var joined: nat
    var log: seq<Event>

    function View(): State
      reads this, workers
    {
      State(workers.Length, rounds, startOwner, completeOwner, workOn, round, mainThreadWaiting,
            theCompletedBatch, main, x, y, joined, workers[..], log)
    }

    ghost predicate Valid()
      reads this, workers
    {
      Inv(View())
    }

    constructor (n: nat, rounds: nat)
      ensures Valid() && View() == Init(n, rounds) && fresh(workers)
      ensures !workOn && round == 0 && !mainThreadWaiting && theCompletedBatch == 99
    {
      this.rounds := rounds;
      workers := new Worker[n](i => BeforeFirstLock);
      startOwner, completeOwner, workOn, round := Free, Free, false, 0;
      mainThreadWaiting, theCompletedBatch := false, BOGUS;
      main, x, y, joined, log := Sleeping, 0, 0, 0, [];
      new;
      assert workers[..] == seq(n, i => BeforeFirstLock);
      InitInv(n, rounds);
    }

    // ----- The pthread operations

    /** pthread_mutex_lock(&StartWorkMutex), when it can go on */
    method LockStart(owner: Lock)
      requires startOwner == Free && owner != Free
      modifies `startOwner
      ensures View() == old(View()).(start := owner)
    {
      startOwner := owner;
    }

    /** pthread_mutex_unlock(&StartWorkMutex), by its owner */
    method UnlockStart(owner: Lock)
      requires startOwner == owner && owner != Free
      modifies `startOwner
      ensures View() == old(View()).(start := Free)
    {
      startOwner := Free;
    }

    method LockComplete(owner: Lock)
      requires completeOwner == Free && owner != Free
      modifies `completeOwner
      ensures View() == old(View()).(complete := owner)
    {
      completeOwner := owner;
    }

    method UnlockComplete(owner: Lock)
      requires completeOwner == owner && owner != Free
      modifies `completeOwner
      ensures View() == old(View()).(complete := Free)
    {
      completeOwner := Free;
    }

    /** pthread_cond_wait(&StartWorkCondition, &StartWorkMutex): leaves the mutex and joins the wait set. */
    method WaitForStart(i: nat)
      requires i < workers.Length && startOwner == HeldBy(i)
      modifies `startOwner, workers
      ensures View() == old(View()).(start := Free, workers := old(workers[..])[i := Asleep])
    {
      UnlockStart(HeldBy(i));
      workers[i] := Asleep;
    }

    /** pthread_cond_wait(&CompleteCondition, &CompleteMutex), which only main does */
    method WaitForComplete()
      requires completeOwner == HeldByMain
      modifies `completeOwner, `main
      ensures View() == old(View()).(complete := Free, main := InWait)
    {
      UnlockComplete(HeldByMain);
      main := InWait;
    }

    /** pthread_cond_signal(&CompleteCondition): lost if main is not in the wait set. */
    method SignalComplete()
      modifies `main
      ensures View() == old(View()).(main := if old(main) == InWait then WokenUp else old(main))
    {
      if main == InWait {
        main := WokenUp;
      }
    }

    /** pthread_cond_broadcast(&StartWorkCondition) */
    method Broadcast()
      modifies workers
      ensures View() == old(View()).(workers := WakeAll(old(workers[..])))
    {
      for i := 0 to workers.Length
        invariant forall k :: 0 <= k < i ==> workers[k] == WakeAll(old(workers[..]))[k]
        invariant forall k :: i <= k < workers.Length ==> workers[k] == old(workers[k])
      {
        if workers[i] == Asleep {
          workers[i] := Woken;
        }
      }
      assert workers[..] == WakeAll(old(workers[..]));
    }

    // ----- The sections of a worker

    /** Lines 54-61: begins the announced round, or exits. */
    method Decide(i: nat)
      requires i < workers.Length && startOwner == HeldBy(i)
      modifies `startOwner, `log, workers
      ensures View() == old(View()).(
                start := Free, workers := old(workers[..])[i := if workOn then Working else Exited],
                log := if workOn then old(log) + [Begun(i, round)] else old(log))
    {
      if workOn {
        log := log + [Begun(i, round)];
        UnlockStart(HeldBy(i));
        workers[i] := Working;
      } else {
        UnlockStart(HeldBy(i));
        workers[i] := Exited;
      }
    }

    /** Lines 71-77: keeps Complete exactly if main was waiting, and then takes the flag away. */
    method TestMailbox(i: nat)
      requires i < workers.Length && completeOwner == Free && workers[i] == Polling
      modifies `completeOwner, `mainThreadWaiting, workers
      ensures !mainThreadWaiting
      ensures if old(mainThreadWaiting)
              then View() == old(View()).(complete := HeldBy(i), mainWaiting := false,
                                          workers := old(workers[..])[i := Posting])
              else View() == old(View())
    {
      LockComplete(HeldBy(i));
      if mainThreadWaiting {
        mainThreadWaiting := false;
        workers[i] := Posting;
      } else {
        UnlockComplete(HeldBy(i));
      }
    }

    /** Lines 83-84: the signal finds main in the wait set. */
    method Report(i: nat)
      requires i < workers.Length && main == InWait
      modifies `log, `main, workers
      ensures View() == old(View()).(
                log := old(log) + [Finished(i, round)], main := WokenUp, workers := old(workers[..])[i := Releasing])
    {
      log := log + [Finished(i, round)];
      SignalComplete();
      workers[i] := Releasing;
    }

    /** A turn of worker `i` that takes a mutex */
    method TakeStart(i: nat)
      requires i < workers.Length && startOwner == Free
      requires workers[i] == BeforeFirstLock || workers[i] == Woken || workers[i] == WantsStart
      modifies `startOwner, workers
      ensures View() == WorkerStep(old(View()), i)
    {
      LockStart(HeldBy(i));
      workers[i] := if workers[i] == BeforeFirstLock then BeforeFirstWait
                    else if workers[i] == Woken then Deciding
                    else Signalling;
    }

    method WorkerTurn(i: nat)
      requires Valid() && i < workers.Length && WorkerCanStep(View(), i)
      modifies this, workers
      ensures Valid() && View() == WorkerStep(old(View()), i)
    {
      hide Inv;
      WorkerOwns(View(), i);
      WorkerStepKeepsInv(View(), i);
      match workers[i] {
        case BeforeFirstLock | Woken | WantsStart => TakeStart(i);
        case BeforeFirstWait | Parking => WaitForStart(i);
        case Deciding => Decide(i);
        case Working => workers[i] := Polling;
        case Polling => TestMailbox(i);
        case Posting =>
          theCompletedBatch := i;
          workers[i] := WantsStart;
        case Signalling => Report(i);
        case Releasing =>
          UnlockComplete(HeldBy(i));
          workers[i] := Parking;
      }
    }

    // ----- The sections of main

    /** Lines 123-125 */
    method Announce()
      requires startOwner == HeldByMain
      modifies `workOn, `round, `log, `main
      ensures View() == old(View()).(workOn := true, round := old(round) + 1,
                                     log := old(log) + [Started(old(round) + 1)], main := WantsComplete)
    {
      workOn := true;
      round := round + 1;
      log := log + [Started(round)];
      main := WantsComplete;
    }

    /** Line 128: every worker waits for the broadcast, so every worker is woken. */
    method StartRound()
      requires forall i :: 0 <= i < workers.Length ==> workers[i] == Asleep
      modifies `main, workers
      ensures forall i :: 0 <= i < workers.Length ==> workers[i] == Woken
      ensures View() == old(View()).(workers := WakeAll(old(workers[..])), main := ReleasingStart)
    {
      Broadcast();
      main := ReleasingStart;
      assert forall i :: 0 <= i < workers.Length ==> workers[i] == View().workers[i];
    }

    /** Lines 129-131 */
    method BeginReceipts()
      requires startOwner == HeldByMain
      modifies `startOwner, `y, `main
      ensures View() == old(View()).(start := Free, y := 0, main := LoopTop)
    {
      UnlockStart(HeldByMain);
      y := 0;
      main := LoopTop;
    }

    /** Line 136 */
    method Receive()
      modifies `log, `y, `main
      ensures View() == old(View()).(log := old(log) + [Received(theCompletedBatch)], y := old(y) + 1, main := LoopTop)
    {
      log := log + [Received(theCompletedBatch)];
      y := y + 1;
      main := LoopTop;
    }

    /** Lines 131-134, and 139 after the last receipt */
    method NextReceipt()
      requires completeOwner == HeldByMain
      modifies `mainThreadWaiting, `main, `completeOwner, `x
      ensures View() == if y < workers.Length then old(View()).(mainWaiting := true, main := EnteringWait)
                        else old(View()).(complete := Free, x := old(x) + 1, main := RoundTop)
    {
      if y < workers.Length {
        mainThreadWaiting := true;
        main := EnteringWait;
      } else {
        UnlockComplete(HeldByMain);
        x := x + 1;
        main := RoundTop;
      }
    }

    /** Lines 145-147 */
    method Terminate()
      requires startOwner == HeldByMain && forall i :: 0 <= i < workers.Length ==> workers[i] == Asleep
      modifies `workOn, `log, `main, workers
      ensures forall i :: 0 <= i < workers.Length ==> workers[i] == Woken
      ensures View() == old(View()).(workOn := false, log := old(log) + [Terminated],
                                     workers := WakeAll(old(workers[..])), main := ReleasingLast)
    {
      workOn := false;
      log := log + [Terminated];
      Broadcast();
      main := ReleasingLast;
      assert forall i :: 0 <= i < workers.Length ==> workers[i] == View().workers[i];
    }

    method MainTurn()
      requires Valid() && MainCanStep(View())
      modifies this, workers
      ensures Valid() && View() == MainStep(old(View()))
    {
      hide Inv, WakeAll;
      MainOwns(View());
      MainStepKeepsInv(View());
      match main {
        case Sleeping => main := RoundTop;
        case RoundTop =>
          LockStart(HeldByMain);
          main := if x < rounds then Announcing else Terminating;
        case Announcing => Announce();
        case WantsComplete =>
          LockComplete(HeldByMain);
          main := Broadcasting;
        case Broadcasting => StartRound();
        case ReleasingStart => BeginReceipts();
        case LoopTop => NextReceipt();
        case EnteringWait => WaitForComplete();
        case WokenUp =>
          LockComplete(HeldByMain);
          main := Reading;
        case Reading => Receive();
        case Terminating => Terminate();
        case ReleasingLast =>
          UnlockStart(HeldByMain);
          main := Joining;
        case Joining =>
          log := log + [Joined(joined)];
          joined := joined + 1;
      }
    }

    /** Offers each thread of the schedule its turn; a blocked thread loses it. */
    method Play(schedule: seq<Thread>)
      requires Valid()
      modifies this, workers
      ensures Valid() && View() == Replay(Next, old(View()), schedule)
    {
      hide Inv;
      for k := 0 to |schedule|
        invariant Valid() && Replay(Next, View(), schedule[k..]) == Replay(Next, old(View()), schedule)
      {
        assert schedule[k..][1..] == schedule[k + 1..];
        if CanStep(View(), schedule[k]) {
          match schedule[k] {
            case MainThread => MainTurn();
            case WorkerThread(i) => WorkerTurn(i);
          }
        }
      }
    }
  }

  /** The whole program under any schedule: what it prints, and that it is done if it cannot go on. */
  method RunProgram(n: nat, rounds: nat, schedule: seq<Thread>) returns (p: Program)
    ensures fresh(p) && fresh(p.workers)
    ensures forall r: nat :: r < p.x ==> r < |Batches(p.log)| && ExactlyOnceEach(Batches(p.log)[r], n)
    ensures (forall th :: CanStep(p.View(), th) ==> Spins(p.View(), th)) ==>
              && |Batches(p.log)| == rounds
              && (forall r: nat :: r < rounds ==> ExactlyOnceEach(Batches(p.log)[r], n))
              && (forall i: nat :: i < n ==> BegunBy(p.log, i) == FinishedBy(p.log, i) == UpTo(rounds))
              && Announced(p.log) == UpTo(rounds) && JoinedIds(p.log) == FirstIds(n)
              && MainLines(p.log) == RoundLines(Batches(p.log)) + LastLines(n)
  {
    hide Inv, Batches, BegunBy, FinishedBy, UpTo;
    p := new Program(n, rounds);
    p.Play(schedule);
    ghost var taken := ReplayIsRun(Next, Init(n, rounds), schedule);
    EachWorkerReportsOncePerRound(n, rounds, taken, p.View());
    if forall th :: CanStep(p.View(), th) ==> Spins(p.View(), th) {
      MaximalRunCompletes(n, rounds, taken, p.View());
    }
  }
}
