/** Runs of a transition system given by its step function: None where a step is
    not enabled. */
module Runs {
  import opened Basics

  /** The state after these steps, if each was enabled in its turn. */
  function RunOf<S, T>(next: (S, T) -> Option<S>, s: S, steps: seq<T>): Option<S>
    decreases |steps|
  {
    if steps == [] then Some(s)
    else
      var one := next(s, steps[0]);
      if one.Some? then RunOf(next, one.value, steps[1..]) else None
  }

  /** What every step keeps, every run keeps. */
  lemma {:induction false} RunsKeep<S(!new), T(!new)>(next: (S, T) -> Option<S>, inv: S -> bool, s: S, steps: seq<T>)
    requires inv(s) && forall x, t :: inv(x) && next(x, t).Some? ==> inv(next(x, t).value)
    requires RunOf(next, s, steps).Some?
    ensures inv(RunOf(next, s, steps).value)
    decreases |steps|
  {
    if steps != [] { RunsKeep(next, inv, next(s, steps[0]).value, steps[1..]); }
  }

  lemma {:induction false} RunsJoin<S, T>(next: (S, T) -> Option<S>, s: S, first: seq<T>, rest: seq<T>)
    requires RunOf(next, s, first).Some?
    ensures RunOf(next, s, first + rest) == RunOf(next, RunOf(next, s, first).value, rest)
    decreases |first|
  {
    if first == [] {
      assert first + rest == rest;
    } else {
      assert (first + rest)[1..] == first[1..] + rest;
      RunsJoin(next, next(s, first[0]).value, first[1..], rest);
    }
  }

  /** From a start where init holds a run leads here. */
  ghost predicate Reachable<S(!new), T(!new)>(init: S -> bool, next: (S, T) -> Option<S>, s: S) {
    exists start, steps :: init(start) && RunOf(next, start, steps) == Some(s)
  }

  lemma StartReachable<S(!new), T(!new)>(init: S -> bool, next: (S, T) -> Option<S>, s: S)
    requires init(s)
    ensures Reachable(init, next, s)
  {
    var none: seq<T> := [];
    assert RunOf(next, s, none) == Some(s);
  }

  /** One step further. */
  lemma Reach<S(!new), T(!new)>(init: S -> bool, next: (S, T) -> Option<S>, s: S, t: T) returns (z: S)
    requires Reachable(init, next, s) && next(s, t).Some?
    ensures z == next(s, t).value && Reachable(init, next, z)
  {
    z := next(s, t).value;
    assert [t][1..] == [];
    RunsOn(init, next, s, [t]);
  }

  /** A run further. */
  lemma RunsOn<S(!new), T(!new)>(init: S -> bool, next: (S, T) -> Option<S>, s: S, steps: seq<T>)
    requires Reachable(init, next, s) && RunOf(next, s, steps).Some?
    ensures Reachable(init, next, RunOf(next, s, steps).value)
  {
    var start, before :| init(start) && RunOf(next, start, before) == Some(s);
    RunsJoin(next, start, before, steps);
    assert RunOf(next, start, before + steps) == RunOf(next, s, steps);
  }

  lemma ReachableKeeps<S(!new), T(!new)>(init: S -> bool, next: (S, T) -> Option<S>, inv: S -> bool, s: S)
    requires Reachable(init, next, s)
    requires forall x :: init(x) ==> inv(x)
    requires forall x, t :: inv(x) && next(x, t).Some? ==> inv(next(x, t).value)
    ensures inv(s)
  {
    var start, steps :| init(start) && RunOf(next, start, steps) == Some(s);
    RunsKeep(next, inv, start, steps);
  }
}
