/** Runs of a step system: a finite sequence of actions, each enabled when it is taken.
    A step system is a partial function `next` from a state and an action to a state. */
module Runs {

  datatype Option<+T> = None | Some(value: T)

  ghost predicate Run<S, A>(next: (S, A) -> Option<S>, s: S, acts: seq<A>, t: S)
    decreases |acts|
  {
    if acts == [] then s == t
    else next(s, acts[0]).Some? && Run(next, next(s, acts[0]).value, acts[1..], t)
  }

  lemma RunCons<S, A>(next: (S, A) -> Option<S>, s: S, a: A, acts: seq<A>, t: S)
    requires next(s, a).Some? && Run(next, next(s, a).value, acts, t)
    ensures Run(next, s, [a] + acts, t)
  {
    assert ([a] + acts)[1..] == acts;
  }

  lemma {:induction false} RunConcat<S, A>(
      next: (S, A) -> Option<S>, s: S, first: seq<A>, u: S, second: seq<A>, t: S)
    requires Run(next, s, first, u) && Run(next, u, second, t)
    ensures Run(next, s, first + second, t)
    decreases |first|
  {
    if first == [] {
      assert first + second == second;
    } else {
      RunConcat(next, next(s, first[0]).value, first[1..], u, second, t);
      assert (first + second)[1..] == first[1..] + second;
    }
  }

  /** What a run costs when action `a` in state `x` costs `cost(x, a)`. */
  ghost function Cost<S, A>(next: (S, A) -> Option<S>, cost: (S, A) -> int, s: S, acts: seq<A>): int
    decreases |acts|
  {
    if acts == [] || next(s, acts[0]).None? then 0
    else cost(s, acts[0]) + Cost(next, cost, next(s, acts[0]).value, acts[1..])
  }

  /** A predicate that every step keeps holds at the end of every run. */
  lemma {:induction false} Invariance<S(!new), A(!new)>(
      next: (S, A) -> Option<S>, inv: S -> bool, s: S, acts: seq<A>, t: S)
    requires forall x, a :: inv(x) && next(x, a).Some? ==> inv(next(x, a).value)
    requires inv(s) && Run(next, s, acts, t)
    ensures inv(t)
    decreases |acts|
  {
    if acts != [] {
      Invariance(next, inv, next(s, acts[0]).value, acts[1..], t);
    }
  }

  /** If every step lowers the measure by at least its cost, so does every run. */
  lemma {:induction false} BoundedCost<S(!new), A(!new)>(
      next: (S, A) -> Option<S>, inv: S -> bool, measure: S -> int, cost: (S, A) -> int,
      s: S, acts: seq<A>, t: S)
    requires forall x, a :: inv(x) && next(x, a).Some? ==>
               inv(next(x, a).value) && measure(next(x, a).value) + cost(x, a) <= measure(x)
    requires inv(s) && Run(next, s, acts, t)
    ensures inv(t)
    ensures measure(t) + Cost(next, cost, s, acts) <= measure(s)
    decreases |acts|
  {
    if acts != [] {
      BoundedCost(next, inv, measure, cost, next(s, acts[0]).value, acts[1..], t);
    }
  }

  /** If every step lowers the measure by exactly its cost, so does every run. */
  lemma {:induction false} ExactCost<S(!new), A(!new)>(
      next: (S, A) -> Option<S>, inv: S -> bool, measure: S -> int, cost: (S, A) -> int,
      s: S, acts: seq<A>, t: S)
    requires forall x, a :: inv(x) && next(x, a).Some? ==>
               inv(next(x, a).value) && measure(next(x, a).value) + cost(x, a) == measure(x)
    requires inv(s) && Run(next, s, acts, t)
    ensures inv(t)
    ensures measure(t) + Cost(next, cost, s, acts) == measure(s)
    decreases |acts|
  {
    if acts != [] {
      ExactCost(next, inv, measure, cost, next(s, acts[0]).value, acts[1..], t);
    }
  }

  lemma {:induction false} CostDifference<S(!new), A(!new)>(
      next: (S, A) -> Option<S>, net: (S, A) -> int, cost: (S, A) -> int, gain: (S, A) -> int, s: S, acts: seq<A>)
    requires forall x, a :: net(x, a) == cost(x, a) - gain(x, a)
    ensures Cost(next, net, s, acts) == Cost(next, cost, s, acts) - Cost(next, gain, s, acts)
    decreases |acts|
  {
    if acts != [] && next(s, acts[0]).Some? {
      CostDifference(next, net, cost, gain, next(s, acts[0]).value, acts[1..]);
    }
  }

  /** Where a schedule leads when every action that is not enabled at its turn is skipped. */
  ghost function Replay<S, A>(next: (S, A) -> Option<S>, s: S, schedule: seq<A>): S
    decreases |schedule|
  {
    if schedule == [] then s
    else Replay(next, if next(s, schedule[0]).Some? then next(s, schedule[0]).value else s, schedule[1..])
  }

  /** The actions that were not skipped are a run. */
  lemma {:induction false} ReplayIsRun<S, A>(next: (S, A) -> Option<S>, s: S, schedule: seq<A>) returns (taken: seq<A>)
    ensures Run(next, s, taken, Replay(next, s, schedule))
    decreases |schedule|
  {
    taken := [];
    if schedule != [] {
      var a := schedule[0];
      if next(s, a).Some? {
        var rest := ReplayIsRun(next, next(s, a).value, schedule[1..]);
        taken := [a] + rest;
        assert taken[1..] == rest;
      } else {
        taken := ReplayIsRun(next, s, schedule[1..]);
      }
    }
  }
}
