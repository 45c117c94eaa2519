/** When no wake-up is lost: exactly which numbers of queues, uses of queue pauses and strategies keep
    an idle worker from waiting beside a pending job. */
module WakeupLimits {
  import opened Runs
  import opened Wakeup

  ghost predicate Reach(s: State)
  {
    Reachable(Init, Next, s)
  }

  /** One queue; or several that are never paused, and under MaxLen never emptied by others. */
  predicate Safe(n: nat, setup: Setup)
  {
    n <= 1 || (!setup.pausing && !(setup.shrinking && setup.strategy.MaxLen?))
  }

  ghost predicate Has(s: State, n: nat, setup: Setup)
  {
    |s.queues| == n && s.setup == setup
  }

  lemma Go(s: State, s': State)
    requires Reach(s) && Next(s, s')
    ensures Reach(s')
  {
    ReachableNext(Init, Next, s, s');
  }

  lemma GoLoop(s: State, s': State)
    requires Reach(s) && LoopStep(s, s')
    ensures Reach(s')
  {
    Go(s, s');
  }

  /** Two queues have a job each, the rest none, and nothing is parked or paused. */
  ghost predicate TwoJobs(s: State)
  {
    && |s.queues| >= 2 && s.queues[0] == s.queues[1] == Queue(1, 0, false)
    && forall k :: 2 <= k < |s.queues| ==> s.queues[k] == Queue(0, 0, false)
  }

  /** A started worker with one idle goroutine and nothing on the way. */
  ghost predicate Calm(s: State, idle: nat)
  {
    && !s.signal && s.active && s.limit == 1 && s.workers == [] && s.owing == 0 && s.start.NoStart?
    && s.len == s.idle == idle && s.busy == 1 - idle
  }

  /** Start, then a job for each of two queues; all three notifies come before the loop looks. */
  lemma Begin(n: nat, setup: Setup) returns (s: State)
    requires n >= 2
    ensures Reach(s) && Has(s, n, setup) && TwoJobs(s) && Calm(s, 1)
    ensures s.loop == Look(CheckActive)
  {
    var none := seq(n, _ => Queue(0, 0, false));
    var s0 := State(setup, none, false, false, 1, 0, 0, 0, Ended, [], 0, NoStart, NoExcuse);
    ReachableInit(Init, Next, s0);
    var s1 := s0.(loop := Select, start := StartCount);
    Go(s0, s1);
    var s2 := s1.(len := 1, start := StartLand);
    Go(s1, s2);
    var s3 := s2.(idle := 1, start := StartStore);
    Go(s2, s3);
    var s4 := s3.(active := true, owing := 1, start := NoStart);
    Go(s3, s4);
    var s6 := Added(s4);
    var s7 := s6.(owing := 2, signal := true);
    Go(s6, s7);
    var s8 := s7.(owing := 1);
    Go(s7, s8);
    var s9 := s8.(owing := 0);
    Go(s8, s9);
    s := s9.(signal := false, excuse := NoExcuse, loop := Look(CheckActive));
    GoLoop(s9, s);
  }

  lemma Added(s: State) returns (s': State)
    requires Reach(s) && |s.queues| >= 2 && s.owing == 1
    requires forall k :: 0 <= k < |s.queues| ==> s.queues[k] == Queue(0, 0, false)
    ensures Reach(s') && s' == s.(queues := s'.queues, owing := 3) && TwoJobs(s') && |s'.queues| == |s.queues|
  {
    var one := s.queues[0 := Queue(1, 0, false)];
    var s1 := s.(queues := one, owing := 2);
    assert SetQueue(s.(owing := 2), 0, s.queues[0].(queued := 1), s1);
    Go(s, s1);
    s' := s1.(queues := one[1 := Queue(1, 0, false)], owing := 3);
    assert SetQueue(s1.(owing := 3), 1, s1.queues[1].(queued := 1), s');
    Go(s1, s');
  }

  /** The loop reads the lengths that are left, and has seen the first queue's. */
  lemma ReadsAll(s: State, some: bool, left: set<nat>) returns (s': State)
    requires Reach(s) && TwoJobs(s) && s.loop == Look(LoadLen(some, left)) && (some || 0 in left)
    requires forall k :: k in left ==> k < |s.queues|
    ensures Reach(s') && s' == s.(loop := Look(LoadLen(true, {})))
    decreases left
  {
    if left == {} {
      s' := s;
    } else {
      var k :| k in left;
      var some' := some || Len(s.queues[k]) > 0;
      var s1 := s.(loop := Look(LoadLen(some', left - {k})));
      assert ReadStep(s, LoadLen(some, left), s1);
      GoLoop(s, s1);
      s' := ReadsAll(s1, some', left - {k});
    }
  }

  /** From the signal to the pick of a queue. */
  lemma Plans(s: State) returns (s': State)
    requires Reach(s) && TwoJobs(s) && Calm(s, 1) && s.loop == Look(CheckActive)
    ensures Reach(s') && s' == s.(idle := 0, len := 0, busy := 1, loop := Picking(0, Pick(All(s), NoBest)))
  {
    var s1 := s.(loop := Look(LoadBusy));
    GoLoop(s, s1);
    var s2 := s1.(loop := Look(LoadLimit(0)));
    GoLoop(s1, s2);
    var s3 := s2.(loop := Look(LoadParked));
    GoLoop(s2, s3);
    assert NoneParked(s3);
    var s4 := s3.(loop := Look(LoadLen(false, All(s))));
    GoLoop(s3, s4);
    var s5 := ReadsAll(s4, false, All(s));
    var s6 := s5.(loop := Look(PlanBusy));
    GoLoop(s5, s6);
    var s7 := s6.(loop := Look(PlanPool(0)));
    GoLoop(s6, s7);
    s' := Hires(s7);
  }

  lemma Hires(s: State) returns (s': State)
    requires Reach(s) && TwoJobs(s) && Calm(s, 1) && s.loop == Look(PlanPool(0))
    ensures Reach(s') && s' == s.(idle := 0, len := 0, busy := 1, loop := Picking(0, Pick(All(s), NoBest)))
  {
    var s1 := s.(loop := Look(PlanPop(true)));
    GoLoop(s, s1);
    var s2 := s1.(idle := 0, loop := Look(PlanUncount));
    GoLoop(s1, s2);
    var s3 := s2.(len := 0, loop := AddBusy);
    GoLoop(s2, s3);
    var s4 := s3.(busy := 1, loop := Hand(Reserve));
    GoLoop(s3, s4);
    var s5 := s4.(loop := Hand(AskParked));
    GoLoop(s4, s5);
    assert !AnyParked(s5);
    var s6 := s5.(loop := Hand(Fill(0)));
    GoLoop(s5, s6);
    s' := s6.(loop := Picking(0, Pick(All(s), NoBest)));
    GoLoop(s6, s');
  }

  /** The first queue stays the best of those read. */
  lemma ComparesAll(s: State, left: set<nat>) returns (s': State)
    requires Reach(s) && !s.setup.strategy.FirstFound? && s.loop == Picking(0, Pick(left, Best(0)))
    requires forall k :: k in left ==> k < |s.queues|
    ensures Reach(s') && s' == s.(loop := Picking(0, Pick({}, Best(0))))
    decreases left
  {
    if left == {} {
      s' := s;
    } else {
      var k :| k in left;
      var s1 := s.(loop := Picking(0, Pick(left - {k}, Best(0))));
      assert ReadLen(s, 0, left, Best(0), k, s1);
      GoLoop(s, s1);
      s' := ComparesAll(s1, left - {k});
    }
  }

  /** The first queue is picked: to be taken from, or by MaxLen to be read once more. */
  lemma Picks(s: State) returns (s': State)
    requires Reach(s) && TwoJobs(s) && s.loop == Picking(0, Pick(All(s), NoBest))
    ensures Reach(s') && s' == s.(loop := Picking(0, if s.setup.strategy.MaxLen? then Recheck(0) else Take(0)))
  {
    assert 0 in All(s);
    if s.setup.strategy.FirstFound? {
      s' := s.(loop := Picking(0, Take(0)));
      assert ReadLen(s, 0, All(s), NoBest, 0, s');
      GoLoop(s, s');
    } else {
      var s1 := s.(loop := Picking(0, Pick(All(s) - {0}, Best(0))));
      assert ReadLen(s, 0, All(s), NoBest, 0, s1);
      GoLoop(s, s1);
      var s2 := ComparesAll(s1, All(s) - {0});
      s' := s2.(loop := Picking(0, if s.setup.strategy.MaxLen? then Recheck(0) else Take(0)));
      GoLoop(s2, s');
    }
  }

  /** The picked queue shrinks before it is taken from, and the loop gives up on all of them. */
  lemma GivesUp(s: State) returns (s': State)
    requires Reach(s) && TwoJobs(s) && (s.setup.pausing || (s.setup.shrinking && s.setup.strategy.MaxLen?))
    requires s.loop == Picking(0, if s.setup.strategy.MaxLen? then Recheck(0) else Take(0))
    ensures Reach(s') && s' == s.(loop := Hand(BackCount(false)), excuse := Refused, queues := s'.queues)
    ensures |s'.queues| == |s.queues| && s'.queues[1] == s.queues[1]
  {
    if s.setup.strategy.MaxLen? {
      var q := if s.setup.pausing then Queue(1, 0, true) else Queue(0, 0, false);
      var s1 := s.(queues := s.queues[0 := q]);
      assert Shrinks(s.setup, s.queues[0], q) && SetQueue(s, 0, q, s1);
      Go(s, s1);
      s' := s1.(loop := Hand(BackCount(false)), excuse := Refused);
      GoLoop(s1, s');
    } else {
      var s1 := s.(queues := s.queues[0 := Queue(1, 0, true)]);
      assert Shrinks(s.setup, s.queues[0], Queue(1, 0, true));
      assert SetQueue(s, 0, Queue(1, 0, true), s1);
      Go(s, s1);
      s' := s1.(loop := Hand(BackCount(false)), excuse := Refused);
      assert TakeStep(s1, 0, 0, s');
      GoLoop(s1, s');
    }
  }

  lemma GoesBack(s: State) returns (s': State)
    requires Reach(s) && Calm(s, 0) && s.loop == Hand(BackCount(false))
    ensures Reach(s') && s' == s.(len := 1, idle := 1, busy := 0, loop := Select)
  {
    var s1 := s.(len := 1, loop := Hand(BackLand(false)));
    GoLoop(s, s1);
    var s2 := s1.(idle := 1, loop := Hand(BackUnbusy(false)));
    GoLoop(s1, s2);
    s' := s2.(busy := 0, loop := Select);
    GoLoop(s2, s');
  }

  /** A worker that is active and idle waits beside a job nobody will wake it for. */
  lemma LosesOne(n: nat, setup: Setup) returns (s: State)
    requires !Safe(n, setup)
    ensures Reach(s) && Has(s, n, setup) && AtRest(s) && !NothingPending(s) && !Unsignalled(s)
  {
    var s1 := Begin(n, setup);
    var s2 := Plans(s1);
    var s3 := Picks(s2);
    var s4 := GivesUp(s3);
    s := GoesBack(s4);
    assert Len(s.queues[1]) == 1;
  }

  /** An active worker with nothing on the way has nothing pending or a batch that will signal, in all
      runs, if and only if it has at most one queue, or its queues are never paused and under MaxLen
      never emptied by others. Otherwise a queue that is paused, or under MaxLen emptied, between being
      picked and being dequeued makes the loop wait, though another queue has jobs. */
  lemma NoLostWakeupIff(n: nat, setup: Setup)
    requires n <= 1 ==> setup.strategy.FirstFound?
    ensures Safe(n, setup) <==>
      forall s :: Reach(s) && Has(s, n, setup) && AtRest(s) ==> NothingPending(s) || Unsignalled(s)
  {
    if Safe(n, setup) {
      forall s | Reach(s) && Has(s, n, setup) && AtRest(s) ensures NothingPending(s) || Unsignalled(s) {
        var run :| IsRun(Init, Next, run) && run[|run| - 1] == s;
        NoLostWakeup(run, |run| - 1);
      }
    } else {
      var s := LosesOne(n, setup);
    }
  }
}
