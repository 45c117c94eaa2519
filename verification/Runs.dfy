/** Runs of a transition system, and the induction principle every protocol in this
    project uses: what holds initially and is kept by each step holds along every run. */
module Runs {

  ghost predicate IsRun<S(!new)>(init: S -> bool, next: (S, S) -> bool, run: seq<S>)
  {
    && |run| > 0
    && init(run[0])
    && forall i :: 0 <= i < |run| - 1 ==> StepsAt(next, run, i)
  }

  ghost predicate StepsAt<S(!new)>(next: (S, S) -> bool, run: seq<S>, i: int)
  {
    0 <= i < |run| - 1 && next(run[i], run[i + 1])
  }

  /** Each step of a run is one of the system's. */
  lemma NextAt<S(!new)>(init: S -> bool, next: (S, S) -> bool, run: seq<S>, i: nat)
    requires IsRun(init, next, run) && i + 1 < |run|
    ensures next(run[i], run[i + 1])
  {
    assert StepsAt(next, run, i);
  }

  ghost predicate Inductive<S(!new)>(init: S -> bool, next: (S, S) -> bool, inv: S -> bool)
  {
    && (forall s :: init(s) ==> inv(s))
    && (forall s, s' :: inv(s) && next(s, s') ==> inv(s'))
  }

  lemma {:induction false} Invariance<S(!new)>(init: S -> bool, next: (S, S) -> bool, inv: S -> bool, run: seq<S>)
    requires IsRun(init, next, run)
    requires Inductive(init, next, inv)
    ensures forall i :: 0 <= i < |run| ==> inv(run[i])
  {
    if |run| > 1 {
      var shorter := run[..|run| - 1];
      forall i | 0 <= i < |shorter| - 1 ensures StepsAt(next, shorter, i) {
        NextAt(init, next, run, i);
      }
      Invariance(init, next, inv, shorter);
      NextAt(init, next, run, |run| - 2);
      assert inv(shorter[|shorter| - 1]);
    }
  }

  /** Runs that start in s. */
  ghost function From<S(!new)>(s: S): S -> bool
  {
    x => x == s
  }

  /** A stretch of a run is a run from where it starts. */
  lemma Stretch<S(!new)>(init: S -> bool, next: (S, S) -> bool, run: seq<S>, a: nat, b: nat)
    requires IsRun(init, next, run) && a <= b < |run|
    ensures IsRun(From(run[a]), next, run[a..b + 1])
  {
    var part := run[a..b + 1];
    forall i | 0 <= i < |part| - 1 ensures StepsAt(next, part, i) {
      NextAt(init, next, run, a + i);
      assert part[i] == run[a + i] && part[i + 1] == run[a + i + 1];
    }
  }

  /** What holds at i and is kept from each index to the next holds at j. */
  lemma {:induction false} Along(p: nat -> bool, i: nat, j: nat)
    requires i <= j && p(i) && forall k: nat, l: nat :: i <= k < j && l == k + 1 && p(k) ==> p(l)
    ensures p(j)
  {
    if i < j {
      Along(p, i, j - 1);
      assert p(j - 1);
    }
  }

  /** Some run ends in s. */
  ghost predicate Reachable<S(!new)>(init: S -> bool, next: (S, S) -> bool, s: S)
  {
    exists run :: IsRun(init, next, run) && run[|run| - 1] == s
  }

  lemma ReachableInit<S(!new)>(init: S -> bool, next: (S, S) -> bool, s: S)
    requires init(s)
    ensures Reachable(init, next, s)
  {
    assert IsRun(init, next, [s]);
  }

  lemma ReachableNext<S(!new)>(init: S -> bool, next: (S, S) -> bool, s: S, s': S)
    requires Reachable(init, next, s) && next(s, s')
    ensures Reachable(init, next, s')
  {
    var run :| IsRun(init, next, run) && run[|run| - 1] == s;
    var longer := run + [s'];
    forall i | 0 <= i < |longer| - 1 ensures StepsAt(next, longer, i) {
      if i < |run| - 1 { NextAt(init, next, run, i); }
    }
    assert IsRun(init, next, longer) && longer[|longer| - 1] == s';
  }
}
