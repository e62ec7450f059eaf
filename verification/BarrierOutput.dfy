/** What main prints, line by line: it is determined by the batches and the number of joined workers. */
module BarrierOutput {
  import opened Runs
  import opened Barrier
  import opened BarrierInvariant

  /** Main has left the round loop for good. */
  predicate Over(m: Main) {
    m.ReleasingLast? || m.Joining?
  }

  ghost predicate Printed(s: State) {
    && Announced(s.log) == UpTo(s.round)
    && JoinedIds(s.log) == FirstIds(s.joined)
    && MainLines(s.log) == RoundLines(Batches(s.log)) + (if Over(s.main) then LastLines(s.joined) else [])
  }

  lemma Append(log: seq<Event>, e: Event)
    ensures Announced(log + [e]) == if e.Started? then Announced(log) + [e.round] else Announced(log)
    ensures JoinedIds(log + [e]) == if e.Joined? then JoinedIds(log) + [e.worker] else JoinedIds(log)
    ensures MainLines(log + [e]) == if e.Begun? || e.Finished? then MainLines(log) else MainLines(log) + [e]
  {
    assert (log + [e])[..|log|] == log;
  }

  lemma LastRoundLines(front: seq<seq<nat>>, last: seq<nat>)
    ensures RoundLines(front + [last]) == RoundLines(front) + ([Started(|front| + 1)] + Receipts(last))
  {
    var b := front + [last];
    assert b[..|b| - 1] == front && b[|b| - 1] == last;
  }

  lemma NewBatch(b: seq<seq<nat>>)
    ensures RoundLines(b + [[]]) == RoundLines(b) + [Started(|b| + 1)]
  {
    hide RoundLines;
    LastRoundLines(b, []);
    assert Receipts([]) == [];
    assert [Started(|b| + 1)] + [] == [Started(|b| + 1)];
  }

  lemma LongerBatch(b: seq<seq<nat>>, i: nat)
    requires b != []
    ensures RoundLines(b[..|b| - 1] + [b[|b| - 1] + [i]]) == RoundLines(b) + [Received(i)]
  {
    hide RoundLines;
    var front, last := b[..|b| - 1], b[|b| - 1];
    var started, before := [Started(|b|)], RoundLines(front);
    assert b == front + [last];
    LastRoundLines(front, last);
    LastRoundLines(front, last + [i]);
    ReceiptsNext(last, i);
    Regroup(before, started, Receipts(last), [Received(i)]);
  }

  lemma Regroup<T>(a: seq<T>, b: seq<T>, c: seq<T>, d: seq<T>)
    ensures a + (b + (c + d)) == (a + (b + c)) + d
  {
  }

  lemma ReceiptsNext(batch: seq<nat>, i: nat)
    ensures Receipts(batch + [i]) == Receipts(batch) + [Received(i)]
  {
  }

  /** Main's steps that print, one by one. */
  lemma AnnouncementPrints(s: State)
    requires Printed(s) && |Batches(s.log)| == s.round && s.main == Announcing
    ensures Printed(MainStep(s))
  {
    hide Announced, JoinedIds, MainLines, Batches, RoundLines, BegunBy, FinishedBy;
    Append(s.log, Started(s.round + 1));
    LogAppend(s.log, Started(s.round + 1));
    NewBatch(Batches(s.log));
    UpToNext(s.round);
  }

  lemma ReceiptPrints(s: State)
    requires Printed(s) && Batches(s.log) != [] && s.main == Reading
    ensures Printed(MainStep(s))
  {
    hide Announced, JoinedIds, MainLines, Batches, RoundLines, BegunBy, FinishedBy;
    Append(s.log, Received(s.batch));
    LogAppend(s.log, Received(s.batch));
    LongerBatch(Batches(s.log), s.batch);
  }

  lemma TerminationPrints(s: State)
    requires Printed(s) && s.main == Terminating && s.joined == 0
    ensures Printed(MainStep(s))
  {
    hide Announced, JoinedIds, MainLines, Batches, RoundLines, BegunBy, FinishedBy, WakeAll;
    Append(s.log, Terminated);
    LogAppend(s.log, Terminated);
    assert LastLines(0) == [Terminated];
  }

  lemma JoinPrints(s: State)
    requires Printed(s) && s.main == Joining
    ensures Printed(MainStep(s))
  {
    hide Announced, JoinedIds, MainLines, Batches, RoundLines, BegunBy, FinishedBy;
    Append(s.log, Joined(s.joined));
    LogAppend(s.log, Joined(s.joined));
    assert FirstIds(s.joined + 1) == FirstIds(s.joined) + [s.joined];
    assert LastLines(s.joined + 1) == LastLines(s.joined) + [Joined(s.joined)];
  }

  /** The other steps of main print nothing, and the workers print nothing that counts here. */
  lemma MainStepPrints(s: State)
    requires Inv(s) && Printed(s) && MainCanStep(s)
    ensures Printed(MainStep(s))
  {
    hide Announced, JoinedIds, MainLines, Batches, RoundLines, BegunBy, FinishedBy, Mailbox, WorkerInv, WakeAll;
    match s.main
    case Announcing => AnnouncementPrints(s);
    case Reading => ReceiptPrints(s);
    case Terminating => TerminationPrints(s);
    case Joining => JoinPrints(s);
    case _ =>
  }

  lemma WorkerStepPrints(s: State, i: nat)
    requires Printed(s) && i < |s.workers| && WorkerCanStep(s, i)
    ensures Printed(WorkerStep(s, i))
  {
    hide Announced, JoinedIds, MainLines, Batches, RoundLines, BegunBy, FinishedBy;
    WorkerLogEffect(s, i);
    WorkerLeavesRounds(s, i);
    Append(s.log, if s.workers[i] == Deciding then Begun(i, s.round) else Finished(i, s.round));
  }

  lemma StepPrints(s: State, th: Thread)
    requires Inv(s) && Printed(s) && CanStep(s, th)
    ensures Printed(Step(s, th))
  {
    hide Inv, Printed, MainStep, WorkerStep;
    match th
    case MainThread => MainStepPrints(s);
    case WorkerThread(i) => WorkerStepPrints(s, i);
  }

  lemma InitPrinted(n: nat, rounds: nat)
    ensures Printed(Init(n, rounds))
  {
  }

  lemma RunPrints(n: nat, rounds: nat, acts: seq<Thread>, t: State)
    requires Run(Next, Init(n, rounds), acts, t)
    ensures Inv(t) && Printed(t)
  {
    hide Inv, Printed, CanStep, Step;
    InitInv(n, rounds);
    InitPrinted(n, rounds);
    var inv := (x: State) => Inv(x) && Printed(x);
    forall x, a | inv(x) && Next(x, a).Some? ensures inv(Next(x, a).value) {
      StepKeepsInv(x, a);
      StepPrints(x, a);
    }
    Invariance(Next, inv, Init(n, rounds), acts, t);
  }

  /** In every run main has announced the rounds 1, 2, ... in order, joined the workers 0, 1, ... in order,
      and printed each round's announcement, then its receipts, and after the last round the line of the
      termination and the joins. */
  lemma MainPrintsInOrder(n: nat, rounds: nat, acts: seq<Thread>, t: State)
    requires Run(Next, Init(n, rounds), acts, t)
    ensures Announced(t.log) == UpTo(t.round) && t.round == |Batches(t.log)|
    ensures JoinedIds(t.log) == FirstIds(t.joined)
    ensures MainLines(t.log) == RoundLines(Batches(t.log)) + (if Over(t.main) then LastLines(t.joined) else [])
  {
    hide Announced, JoinedIds, MainLines, RoundLines, Batches;
    RunPrints(n, rounds, acts, t);
    assert Log(t);
  }
}
