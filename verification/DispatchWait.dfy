/** Wait reads the park counter, the queue and the processing count one after another. */
module DispatchWait {
  import opened Runs
  import opened Phases
  import opened Dispatcher
  import opened DispatchConservation
  import opened DispatchOrder

  /** The worker has been active since the Wait was called. */
  predicate StayedActive(s: State, v: Waiter)
  {
    v.since == Since(s.halts)
  }

  /** What a Wait knows at its program point, if the worker stayed active. */
  predicate Knows(s: State, v: Waiter)
  {
    && v.target <= s.head
    && (v.since.Since? ==> v.since.halts <= s.halts)
    && (StayedActive(s, v) && !v.at.Back? ==> s.phase.Active?)
    && (StayedActive(s, v) && (v.at.SawNoParked? || v.at.LoadedHead? || v.at.SawEmpty?) ==> s.parked == [])
    && (v.at.LoadedHead? ==> v.target <= v.at.h)
    && (v.at.SawEmpty? ==> v.target <= s.off)
  }

  ghost predicate Waits(s: State)
  {
    forall v :: 0 <= v < |s.waiters| ==> Knows(s, s.waiters[v])
  }

  ghost predicate WaitInv(s: State)
  {
    FullInv(s) && Waits(s)
  }

  /** Nothing is parked while the worker is active. */
  lemma NobodyParks(s: State)
    requires Phased(s) && s.phase.Active?
    ensures forall w :: 0 <= w < |s.workers| ==> !Parking(s.workers[w])
  {
  }

  /** A step of the loop, a worker or a purge: an active worker's empty park stays empty. */
  lemma KnowsFrame(s: State, s': State, v: Waiter)
    requires Knows(s, v) && s.head <= s'.head && s.off <= s'.off && s'.halts == s.halts && s'.phase == s.phase
    requires s.phase.Active? && s.parked == [] ==> s'.parked == []
    ensures Knows(s', v)
  {
  }

  lemma LoopUnparksOnly(s: State, s': State)
    requires LoopStep(s, s') && s.parked == []
    ensures s'.parked == []
  {
  }

  lemma WorkerParksOnlyParking(s: State, w: nat, s': State)
    requires w < |s.workers| && WorkerShape(s.workers[w]) && !Parking(s.workers[w]) && WorkerStep(s, w, s')
    ensures s'.parked == s.parked
  {
  }

  lemma PurgeFrame(s: State, k: nat, s': State)
    requires s.off <= s.head && k < |s.purges| && PurgeStep(s, k, s')
    ensures s'.head == s.head && s.off <= s'.off && s'.halts == s.halts && s'.phase == s.phase
    ensures s'.waiters == s.waiters
    ensures s.parked == [] ==> s'.parked == []
  {
  }

  /** The waiter that moves: each check it passes tells it one more thing. */
  lemma WaiterKnows(s: State, v: nat, s': State)
    requires FullInv(s) && Waits(s) && v < |s.waiters| && WaitStep(s, v, s')
    ensures Waits(s')
  {
    var x, x' := s.waiters[v], s'.waiters[v];
    assert Knows(s, x);
    if x.at.Called? && s.nParked == 0 && StayedActive(s, x) {
      NobodyParks(s);
      EmptyPark(s);
    }
    assert Knows(s', x');
    forall u | 0 <= u < |s'.waiters| ensures Knows(s', s'.waiters[u]) {
      if u != v {
        assert Knows(s, s.waiters[u]);
      }
    }
  }

  lemma OutsideWaits(s: State, s': State)
    requires Waits(s)
    requires || Enqueue(s, s') || (exists j: Job :: UserClose(s, j, s'))
             || MovePhase(s, s') || PurgeBegin(s, s') || WaitBegin(s, s') || Tune(s, s')
    ensures Waits(s')
  {
    forall u | 0 <= u < |s'.waiters| ensures Knows(s', s'.waiters[u]) {
      if u < |s.waiters| {
        assert Knows(s, s.waiters[u]);
      }
    }
  }

  lemma WorkerWaits(s: State, w: nat, s': State)
    requires FullInv(s) && Waits(s) && w < |s.workers| && WorkerStep(s, w, s')
    ensures Waits(s')
  {
    WorkerPlain(s, w, s');
    WorkerNumbers(s, w, s');
    if s.phase.Active? {
      NobodyParks(s);
      WorkerParksOnlyParking(s, w, s');
    }
    forall v | 0 <= v < |s.waiters| ensures Knows(s', s.waiters[v]) {
      KnowsFrame(s, s', s.waiters[v]);
    }
  }

  lemma NextWaits(s: State, s': State)
    requires WaitInv(s) && Next(s, s')
    ensures WaitInv(s')
  {
    NextFull(s, s');
    if LoopStep(s, s') {
      LoopHistory(s, s');
      if s.parked == [] { LoopUnparksOnly(s, s'); }
      forall v | 0 <= v < |s.waiters| ensures Knows(s', s.waiters[v]) {
        KnowsFrame(s, s', s.waiters[v]);
      }
    } else if w: nat :| WorkerActs(s, w, s') {
      WorkerWaits(s, w, s');
    } else if k: nat :| PurgeActs(s, k, s') {
      PurgeFrame(s, k, s');
      forall v | 0 <= v < |s.waiters| ensures Knows(s', s.waiters[v]) {
        KnowsFrame(s, s', s.waiters[v]);
      }
    } else if v: nat :| WaiterActs(s, v, s') {
      WaiterKnows(s, v, s');
    } else {
      OutsideWaits(s, s');
    }
  }

  lemma RunWaits(run: seq<State>)
    requires IsRun(Init, Next, run)
    ensures forall i :: 0 <= i < |run| ==> WaitInv(run[i])
  {
    assert Inductive(Init, Next, WaitInv) by {
      forall s | Init(s) ensures WaitInv(s) {
        InitFull(s);
      }
      forall s, s' | WaitInv(s) && Next(s, s') ensures WaitInv(s') {
        NextWaits(s, s');
      }
    }
    Invariance(Init, Next, WaitInv, run);
  }

  /** No granted reservation: no batch, and nothing in the loop's buffer. */
  lemma {:induction false} NothingInHand(workers: seq<Worker>, j: Job)
    requires InBatches(workers) == 0 && forall w :: 0 <= w < |workers| ==> WorkerShape(workers[w])
    ensures InHand(workers, j) == 0
  {
    if workers != [] {
      NothingInHand(workers[1..], j);
    }
  }

  ghost predicate WaitReturns(s: State, s': State, v: nat)
  {
    && WaiterActs(s, v, s') && |s'.waiters| == |s.waiters|
    && !s.waiters[v].at.Back? && s'.waiters[v].at.Back? && StayedActive(s, s.waiters[v])
  }

  /** In every run, when a Wait returns on a worker that stayed active since the call, every job
      accepted before the call is closed, or was taken by a Purge that has not returned. */
  lemma WaitSound(s: State, s': State, v: nat, j: Job)
    requires Reach(s) && WaitReturns(s, s', v) && j < s.waiters[v].target
    ensures j in s.closed || exists k :: 0 <= k < |s.purges| && s.purges[k].Taken? && j in s.purges[k].jobs
  {
    var run :| IsRun(Init, Next, run) && run[|run| - 1] == s;
    RunWaits(run);
    assert Knows(s, s.waiters[v]);
    assert s.waiters[v].at.SawEmpty? && s.processing == 0;
    NothingInHand(s.workers, j);
    assert Places(s, j) == 1;
    if Times(s.gone, j) > 0 {
      TimesIn(s.gone, j);
    } else {
      TakenSomewhere(s.purges, j);
    }
  }

  lemma {:induction false} TakenSomewhere(purges: seq<PurgeAt>, j: Job)
    requires InPurge(purges, j) > 0
    ensures exists k :: 0 <= k < |purges| && purges[k].Taken? && j in purges[k].jobs
  {
    TimesIn(TakenBy(purges[0]), j);
    if Times(TakenBy(purges[0]), j) == 0 {
      TakenSomewhere(purges[1..], j);
      var k :| 0 <= k < |purges[1..]| && purges[1..][k].Taken? && j in purges[1..][k].jobs;
      assert purges[k + 1] == purges[1..][k];
    }
  }

  // ---------------------------------------------------------------- a Wait beside a Purge

  lemma WaiterStep(s: State, at: WaitAt) returns (s': State)
    requires Reach(s) && |s.waiters| == 1 && WaitStep(s, 0, s.(waiters := [s.waiters[0].(at := at)]))
    ensures Reach(s') && Next(s, s') && s' == s.(waiters := [s.waiters[0].(at := at)])
  {
    s' := s.(waiters := [s.waiters[0].(at := at)]);
    assert WaiterActs(s, 0, s');
    Step(s, s');
  }

  lemma PurgeTakes(conc: nat) returns (s: State)
    requires conc > 0
    ensures Reach(s)
    ensures s == State(conc, conc, Active, 1, 1, 1, 0, 0, 0, [], false, 0, Free, {}, [], [], [], 0, Waiting,
                       [], [Taken([0])], [])
  {
    s := State(conc, conc, Halted, 0, 0, 0, 0, 0, 0, [], false, 0, Free, {}, [], [], [], 0, Waiting, [], [], []);
    ReachableInit(Init, Next, s);
    var s1 := s.(phase := Active);
    assert MovePhase(s, s1);
    Step(s, s1);
    var s2 := s1.(head := 1);
    Step(s1, s2);
    var s3 := s2.(gen := 1, purges := [] + [Bumped]);
    assert PurgeBegin(s2, s3);
    Step(s2, s3);
    var s4 := s3.(purges := [Dropped]);
    assert (set j | j in AllJobs([])) == {} && AllJobs([]) == [];
    assert s4 == s3.(parked := [], nParked := 0, closed := {} + (set j | j in AllJobs([])),
                     gone := [] + AllJobs([]), purges := s3.purges[0 := Dropped]);
    assert PurgeActs(s3, 0, s4);
    Step(s3, s4);
    var s5 := s4.(off := 1, purges := [Taken([0])]);
    assert Range(0, 1) == [0];
    assert PurgeActs(s4, 0, s5);
    Step(s4, s5);
    s := s5;
  }

  lemma WaitBesidePurge(conc: nat) returns (s: State, s': State)
    requires conc > 0
    ensures Reach(s) && WaitReturns(s, s', 0) && s.conc == conc && TakenCount(s.purges) == 1
    ensures s.waiters[0].target == 1 && 0 !in s.closed && 0 !in s'.closed
  {
    var s0 := PurgeTakes(conc);
    var s1 := s0.(waiters := [] + [Waiter(1, Since(0), Called)]);
    assert WaitBegin(s0, s1);
    Step(s0, s1);
    var s2 := WaiterStep(s1, SawNoParked);
    var s3 := WaiterStep(s2, LoadedHead(1));
    s := WaiterStep(s3, SawEmpty);
    s' := WaiterStep(s, Back);
    assert s.purges == [Taken([0])] && s.purges[1..] == [];
  }

  /** The exception is real: a Wait that begins and returns while a Purge has emptied the queue and
      not closed its jobs yet leaves an accepted job open, on a worker active throughout. */
  lemma WaitMissesPurged(conc: nat)
    requires conc > 0
    ensures exists s, s' :: Reach(s) && WaitReturns(s, s', 0) && s.waiters[0].target == 1 && 0 !in s'.closed
  {
    var s, s' := WaitBesidePurge(conc);
  }

  /** Purges that have emptied the queue and not returned. */
  function TakenCount(purges: seq<PurgeAt>): nat
  {
    if purges == [] then 0 else (if purges[0].Taken? then 1 else 0) + TakenCount(purges[1..])
  }

  lemma {:induction false} NoneTaken(purges: seq<PurgeAt>, k: nat)
    requires k < |purges| && purges[k].Taken?
    ensures TakenCount(purges) > 0
  {
    if k > 0 {
      NoneTaken(purges[1..], k - 1);
    }
  }

  /** A Wait on a worker with this concurrency, active throughout, returns beside at most limit such
      purges. */
  ghost predicate ReturnsBeside(s: State, s': State, v: nat, conc: nat, limit: nat)
  {
    Reach(s) && s.conc == conc && TakenCount(s.purges) <= limit && WaitReturns(s, s', v)
  }

  /** With at most limit purges between emptying the queue and returning, a Wait that returns on a
      worker active throughout has every job accepted before it closed, in all runs, exactly when
      limit is 0: when no Purge is under way. */
  lemma WaitSoundIffNoPurge(conc: nat, limit: nat)
    requires conc > 0
    ensures limit == 0 <==> forall s, s', v: nat, j: Job ::
      ReturnsBeside(s, s', v, conc, limit) && j < s.waiters[v].target ==> j in s.closed
  {
    if limit == 0 {
      forall s, s', v: nat, j: Job | ReturnsBeside(s, s', v, conc, limit) && j < s.waiters[v].target
        ensures j in s.closed
      {
        WaitSound(s, s', v, j);
        if k: nat :| k < |s.purges| && s.purges[k].Taken? {
          NoneTaken(s.purges, k);
        }
      }
    } else {
      var s, s' := WaitBesidePurge(conc);
      assert ReturnsBeside(s, s', 0, conc, limit);
      assert 0 < s.waiters[0].target && 0 !in s.closed;
    }
  }
}
