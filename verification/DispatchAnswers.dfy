/** What the batch loop, the event loop, Purge and Wait achieve: a halt stops starts, an undisturbed batch
    runs all its jobs, no job is skipped without a reason, a purge empties the queue, and a Wait with
    nothing left to wait for returns. */
module DispatchAnswers {
  import opened Runs
  import opened Phases
  import opened Dispatcher
  import opened DispatchConservation
  import opened DispatchOrder

  // ---------------------------------------------------------------- a halt stops starts

  /** 1 while the batch may still start a job though the worker halts: its first, or the one past its
      halt check. */
  function Budget(x: Worker): nat
  {
    if x.at.StartJob? || (x.i == 0 && (x.at.StaleCheck? || x.at.HaltCheck?)) then 1 else 0
  }

  /** The budget of batch w, which may not have been handed out yet. */
  function BudgetAt(s: State, w: nat): nat
  {
    if w < |s.workers| then Budget(s.workers[w]) else 1
  }

  /** Batch w starts a job. */
  ghost predicate Starts(s: State, w: nat, s': State)
  {
    WorkerActs(s, w, s') && s'.started != s.started
  }

  /** How many jobs batch w starts from i to j. */
  ghost function StartsBy(run: seq<State>, i: nat, j: nat, w: nat): nat
    requires i <= j < |run|
    decreases j
  {
    if i == j then 0 else StartsBy(run, i, j - 1, w) + (if Starts(run[j - 1], w, run[j]) then 1 else 0)
  }

  lemma WorkerSpends(s: State, w: nat, s': State)
    requires w < |s.workers| && WorkerShape(s.workers[w]) && WorkerStep(s, w, s') && !s.phase.Active?
    ensures |s'.workers| == |s.workers| && s'.workers == s.workers[w := s'.workers[w]]
    ensures |s'.started| - |s.started| + Budget(s'.workers[w]) <= Budget(s.workers[w])
    ensures |s.started| <= |s'.started| && (|s'.started| == |s.started| ==> s'.started == s.started)
  {
  }

  lemma OthersStartNothing(s: State, s': State)
    requires PurgeMade(s, s') || OutsideStep(s, s')
    ensures s'.workers == s.workers && s'.started == s.started && s'.loop == s.loop
  {
  }

  ghost predicate PurgeMade(s: State, s': State)
  {
    exists k: nat :: PurgeActs(s, k, s')
  }

  lemma BudgetNext(s: State, s': State, w: nat)
    requires Shape(s) && Next(s, s') && !s.phase.Active?
    ensures BudgetAt(s', w) + (if Starts(s, w, s') then 1 else 0) <= BudgetAt(s, w)
  {
    if LoopStep(s, s') {
      LoopHistory(s, s');
      NewBatch(s, s');
    } else if u: nat :| WorkerActs(s, u, s') {
      WorkerSpends(s, u, s');
    } else {
      OthersStartNothing(s, s');
    }
    if Starts(s, w, s') { WorkerSpends(s, w, s'); }
  }

  lemma NewBatch(s: State, s': State)
    requires LoopStep(s, s')
    ensures |s'.workers| > |s.workers| ==> s.loop.Sending? && |s'.workers| == |s.workers| + 1
    ensures |s'.workers| > |s.workers| ==> Budget(s'.workers[|s.workers|]) == 1
    ensures |s'.workers| == |s.workers| ==> s'.workers == s.workers
  {
  }

  lemma BatchSpends(run: seq<State>, k: nat, w: nat)
    requires IsRun(Init, Next, run) && k + 1 < |run| && !run[k].phase.Active?
    ensures BudgetAt(run[k + 1], w) + (if Starts(run[k], w, run[k + 1]) then 1 else 0) <= BudgetAt(run[k], w)
  {
    RunKeeps(run);
    NextAt(Init, Next, run, k);
    BudgetNext(run[k], run[k + 1], w);
  }

  /** In every run, as long as the worker is not active, each batch starts at most one more job: its
      first, or the one that was past its halt check; a batch past both starts none. */
  lemma {:induction false} HaltStopsBatch(run: seq<State>, i: nat, j: nat, w: nat)
    requires IsRun(Init, Next, run) && i <= j < |run|
    requires forall k :: i <= k < j ==> !run[k].phase.Active?
    ensures StartsBy(run, i, j, w) + BudgetAt(run[j], w) <= BudgetAt(run[i], w) <= 1
    decreases j
  {
    if i < j {
      HaltStopsBatch(run, i, j - 1, w);
      BatchSpends(run, j - 1, w);
    }
  }

  /** The batch loop, if the event loop was granted a reservation and has not handed it out. */
  function LoopBudget(loop: Loop): nat
  {
    if loop.Granted? || loop.Unparking? || loop.Filling? || loop.TrimUnparked? || loop.TrimFilled? || loop.Stamping?
       || loop.Sending? then 1 else 0
  }

  function Budgets(workers: seq<Worker>): nat
  {
    if workers == [] then 0 else Budget(workers[0]) + Budgets(workers[1..])
  }

  lemma {:induction false} BudgetsMove(workers: seq<Worker>, w: nat, x: Worker)
    requires w < |workers|
    ensures Budgets(workers[w := x]) == Budgets(workers) - Budget(workers[w]) + Budget(x)
  {
    if w == 0 {
      assert workers[w := x][1..] == workers[1..];
    } else {
      assert workers[w := x][1..] == workers[1..][w - 1 := x];
      BudgetsMove(workers[1..], w - 1, x);
    }
  }

  lemma {:induction false} BudgetsJoin(workers: seq<Worker>, x: Worker)
    ensures Budgets(workers + [x]) == Budgets(workers) + Budget(x)
  {
    if workers == [] {
      assert workers + [x] == [x];
    } else {
      assert (workers + [x])[1..] == workers[1..] + [x];
      BudgetsJoin(workers[1..], x);
    }
  }

  lemma LoopSpends(s: State, s': State)
    requires LoopStep(s, s') && !s.phase.Active?
    ensures s'.started == s.started
    ensures !s.loop.Sending? ==> s'.workers == s.workers && LoopBudget(s'.loop) <= LoopBudget(s.loop)
    ensures s.loop.Sending? ==> LoopBudget(s'.loop) == 0
    ensures s.loop.Sending? ==> s'.workers == s.workers + [Worker(s.loop.buf, 0, s.loop.stamp, StaleCheck)]
  {
  }

  lemma BudgetsNext(s: State, s': State)
    requires Shape(s) && Next(s, s') && !s.phase.Active?
    ensures |s'.started| + Budgets(s'.workers) + LoopBudget(s'.loop)
         <= |s.started| + Budgets(s.workers) + LoopBudget(s.loop)
  {
    if LoopStep(s, s') {
      LoopSpends(s, s');
      if s.loop.Sending? { BudgetsJoin(s.workers, Worker(s.loop.buf, 0, s.loop.stamp, StaleCheck)); }
    } else if w: nat :| WorkerActs(s, w, s') {
      WorkerSpends(s, w, s');
      WorkerPlain(s, w, s');
      BudgetsMove(s.workers, w, s'.workers[w]);
    } else {
      OthersStartNothing(s, s');
    }
  }

  lemma AllSpend(run: seq<State>, k: nat)
    requires IsRun(Init, Next, run) && k + 1 < |run| && !run[k].phase.Active?
    ensures |run[k + 1].started| + Budgets(run[k + 1].workers) + LoopBudget(run[k + 1].loop)
         <= |run[k].started| + Budgets(run[k].workers) + LoopBudget(run[k].loop)
  {
    RunKeeps(run);
    NextAt(Init, Next, run, k);
    BudgetsNext(run[k], run[k + 1]);
  }

  /** In every run, as long as the worker is not active, no more jobs start than there were batches at
      their first job or past a halt check, and one if the loop had been granted a batch. */
  lemma {:induction false} HaltStopsStarts(run: seq<State>, i: nat, j: nat)
    requires IsRun(Init, Next, run) && i <= j < |run|
    requires forall k :: i <= k < j ==> !run[k].phase.Active?
    ensures |run[j].started| + Budgets(run[j].workers) + LoopBudget(run[j].loop)
         <= |run[i].started| + Budgets(run[i].workers) + LoopBudget(run[i].loop)
    decreases j
  {
    if i < j {
      HaltStopsStarts(run, i, j - 1);
      AllSpend(run, j - 1);
    }
  }

  // ---------------------------------------------------------------- no job is skipped without a reason

  /** A purge has this job, or has reached where it is. */
  ghost predicate Purging(s: State, j: Job)
  {
    || (exists w :: 0 <= w < |s.workers| && j in Rest(s.workers[w]) && s.workers[w].stamp.epoch != s.gen)
    || (j in AllJobs(s.parked) && exists k :: 0 <= k < |s.purges| && s.purges[k].Bumped?)
    || (exists k :: 0 <= k < |s.purges| && s.purges[k].Taken? && j in s.purges[k].jobs)
  }

  lemma WorkerSkips(s: State, w: nat, s': State, j: Job)
    requires w < |s.workers| && WorkerShape(s.workers[w]) && WorkerStep(s, w, s') && j in s'.gone && j !in s.gone
    ensures j in Rest(s.workers[w])
    ensures j in s.closed || s.workers[w].stamp.epoch != s.gen || (s.workers[w].at.RunJob? && Executes(s.workers[w], j))
  {
    var x := s.workers[w];
    if x.i < |x.jobs| { assert Rest(x)[0] == x.jobs[x.i]; }
  }

  ghost predicate RunningStarted(s: State)
  {
    forall w :: 0 <= w < |s.workers| && s.workers[w].at.RunJob? && s.workers[w].i < |s.workers[w].jobs| ==>
      s.workers[w].jobs[s.workers[w].i] in s.started
  }

  lemma RunningNext(s: State, s': State)
    requires Shape(s) && RunningStarted(s) && Next(s, s')
    ensures RunningStarted(s')
  {
    if LoopStep(s, s') {
      LoopHistory(s, s');
      NewBatch(s, s');
      assert forall w :: |s.workers| <= w < |s'.workers| ==> !s'.workers[w].at.RunJob? by { LoopSends(s, s'); }
    } else if w: nat :| WorkerActs(s, w, s') {
      WorkerPlain(s, w, s');
      WorkerRuns(s, w, s');
    } else {
      OthersStartNothing(s, s');
    }
  }

  lemma LoopSends(s: State, s': State)
    requires LoopStep(s, s')
    ensures |s'.workers| <= |s.workers| + 1 && (|s'.workers| > |s.workers| ==> s'.workers[|s.workers|].at.StaleCheck?)
  {
  }

  lemma WorkerRuns(s: State, w: nat, s': State)
    requires w < |s.workers| && WorkerShape(s.workers[w]) && WorkerStep(s, w, s') && |s'.workers| == |s.workers|
    ensures s.started <= s'.started
    ensures s'.workers[w].at.RunJob? ==> s'.workers[w].i < |s'.workers[w].jobs|
    ensures s'.workers[w].at.RunJob? ==> s'.workers[w].jobs[s'.workers[w].i] in s'.started
  {
  }

  lemma RunRuns(run: seq<State>)
    requires IsRun(Init, Next, run)
    ensures forall i :: 0 <= i < |run| ==> Shape(run[i]) && RunningStarted(run[i])
  {
    RunKeeps(run);
    ghost var inv: State -> bool := s => FullInv(s) && RunningStarted(s);
    forall s, s' | inv(s) && Next(s, s') ensures inv(s') {
      NextFull(s, s');
      RunningNext(s, s');
    }
    forall s | Init(s) ensures inv(s) {
      InitFull(s);
    }
    assert Inductive(Init, Next, inv);
    Invariance(Init, Next, inv, run);
    forall i | 0 <= i < |run| ensures Shape(run[i]) && RunningStarted(run[i]) {
      assert inv(run[i]);
    }
  }

  /** In every run, a job that leaves was started, or had been closed before it left, or a purge had
      reached it: nothing else makes the batch loop or the event loop skip a job. */
  lemma NoJobIsSkipped(run: seq<State>, i: nat, j: Job)
    requires IsRun(Init, Next, run) && i + 1 < |run| && j in run[i + 1].gone && j !in run[i].gone
    ensures j in run[i].started || j in run[i].closed || Purging(run[i], j)
  {
    RunRuns(run);
    NextAt(Init, Next, run, i);
    var s, s' := run[i], run[i + 1];
    if LoopStep(s, s') {
      LoopHistory(s, s');
    } else if w: nat :| WorkerActs(s, w, s') {
      WorkerSkips(s, w, s', j);
    } else if k: nat :| PurgeActs(s, k, s') {
      PurgeTakesAway(s, k, s', j);
    } else {
      OutsideFrame(s, s');
    }
  }

  lemma PurgeTakesAway(s: State, k: nat, s': State, j: Job)
    requires PurgeActs(s, k, s') && j in s'.gone && j !in s.gone
    ensures Purging(s, j)
  {
    match s.purges[k]
    case Bumped => assert j in AllJobs(s.parked);
    case Dropped =>
    case Taken(jobs) => assert j in jobs;
    case Returned(_) =>
  }

  // ---------------------------------------------------------------- an undisturbed batch runs all its jobs

  /** The jobs from p on that are not closed. */
  function Unclosed(jobs: seq<Job>, p: nat, closed: set<Job>): seq<Job>
    decreases |jobs| - p
  {
    if p >= |jobs| then [] else (if jobs[p] in closed then [] else [jobs[p]]) + Unclosed(jobs, p + 1, closed)
  }

  lemma {:induction false} ClosingOthers(jobs: seq<Job>, p: nat, closed: set<Job>, closed': set<Job>)
    requires forall q :: p <= q < |jobs| ==> (jobs[q] in closed <==> jobs[q] in closed')
    ensures Unclosed(jobs, p, closed') == Unclosed(jobs, p, closed)
    decreases |jobs| - p
  {
    if p < |jobs| { ClosingOthers(jobs, p + 1, closed, closed'); }
  }

  /** What the batch has still to start. */
  function ToStart(x: Worker, closed: set<Job>): seq<Job>
  {
    Unclosed(x.jobs, Position(x), closed)
  }

  /** The jobs batch w starts from i to j, in order. */
  ghost function StartedBy(run: seq<State>, i: nat, j: nat, w: nat): seq<Job>
    requires i <= j < |run|
    decreases j
  {
    if i == j then [] else StartedBy(run, i, j - 1, w) + StartedNow(run[j - 1], w, run[j])
  }

  ghost function StartedNow(s: State, w: nat, s': State): seq<Job>
  {
    if Starts(s, w, s') && s'.started != [] then [s'.started[|s'.started| - 1]] else []
  }

  /** The worker is active, no purge has reached batch w, and nobody else closes a job it has to start. */
  ghost predicate Undisturbed(s: State, w: nat, s': State)
  {
    && w < |s.workers| && w < |s'.workers| && s.phase.Active? && s.gen == s.workers[w].stamp.epoch
    && (WorkerActs(s, w, s')
        || (s'.workers[w] == s.workers[w]
            && forall p :: Position(s.workers[w]) <= p < |s.workers[w].jobs| ==>
                 (s.workers[w].jobs[p] in s'.closed <==> s.workers[w].jobs[p] in s.closed)))
  }

  lemma {:induction false} TwiceInHand(workers: seq<Worker>, w: nat, j: Job)
    requires w < |workers|
    ensures InHand(workers, j) >= Times(Rest(workers[w]), j)
  {
    if w > 0 { TwiceInHand(workers[1..], w - 1, j); }
  }

  /** The job that runs is not in the batch a second time. */
  lemma FrontOnce(s: State, w: nat)
    requires Conserved(s) && w < |s.workers| && s.workers[w].i < |s.workers[w].jobs|
    ensures forall p :: s.workers[w].i < p < |s.workers[w].jobs| ==>
      s.workers[w].jobs[p] != s.workers[w].jobs[s.workers[w].i]
  {
    var x := s.workers[w];
    var j, rest := x.jobs[x.i], x.jobs[x.i + 1..];
    assert Places(s, j) <= 1;
    TwiceInHand(s.workers, w, j);
    assert Rest(x)[1..] == rest;
    TimesIn(rest, j);
    forall p | x.i < p < |x.jobs| ensures x.jobs[p] != j {
      assert rest[p - x.i - 1] == x.jobs[p];
    }
  }

  lemma BatchGoes(s: State, w: nat, s': State)
    requires Conserved(s) && w < |s.workers| && WorkerShape(s.workers[w]) && WorkerStep(s, w, s')
    requires s.phase.Active? && s.gen == s.workers[w].stamp.epoch && !Parking(s.workers[w])
    ensures w < |s'.workers|
    ensures StartedNow(s, w, s') + ToStart(s'.workers[w], s'.closed) == ToStart(s.workers[w], s.closed)
  {
    var x, x' := s.workers[w], s'.workers[w];
    WorkerHistory(s, w, s');
    assert WorkerActs(s, w, s');
    if x.at.StartJob? && x.jobs[x.i] !in s.closed {
      assert |s'.started| == |s.started| + 1 && s'.started[|s.started|] == x.jobs[x.i];
      assert StartedNow(s, w, s') == [x.jobs[x.i]];
    } else if x.at.RunJob? {
      FrontOnce(s, w);
      ClosingOthers(x.jobs, x.i + 1, s.closed, s'.closed);
    }
  }

  lemma BatchNext(run: seq<State>, k: nat, w: nat)
    requires IsRun(Init, Next, run) && k + 1 < |run| && Undisturbed(run[k], w, run[k + 1])
    ensures StartedNow(run[k], w, run[k + 1]) + ToStart(run[k + 1].workers[w], run[k + 1].closed)
         == ToStart(run[k].workers[w], run[k].closed)
  {
    RunKeeps(run);
    var s, s' := run[k], run[k + 1];
    if WorkerActs(s, w, s') {
      BatchGoes(s, w, s');
    } else {
      ClosingOthers(s.workers[w].jobs, Position(s.workers[w]), s.closed, s'.closed);
    }
  }

  /** What batch w has started from i to k, and what it has still to start. */
  ghost predicate Accounted(run: seq<State>, i: nat, k: nat, w: nat, all: seq<Job>)
  {
    && i <= k < |run| && w < |run[k].workers|
    && StartedBy(run, i, k, w) + ToStart(run[k].workers[w], run[k].closed) == all
  }

  ghost predicate UndisturbedAt(run: seq<State>, k: nat, w: nat)
  {
    k + 1 < |run| && Undisturbed(run[k], w, run[k + 1])
  }

  lemma AccountedNext(run: seq<State>, i: nat, k: nat, w: nat, all: seq<Job>)
    requires IsRun(Init, Next, run) && UndisturbedAt(run, k, w) && Accounted(run, i, k, w, all)
    ensures Accounted(run, i, k + 1, w, all)
  {
    BatchNext(run, k, w);
    var before, now := StartedBy(run, i, k, w), StartedNow(run[k], w, run[k + 1]);
    var rest := ToStart(run[k + 1].workers[w], run[k + 1].closed);
    assert (before + now) + rest == before + (now + rest);
  }

  /** In every run, while the worker stays active, no purge reaches the batch and nobody closes its jobs, a
      batch starts exactly its unclosed jobs, in order: what it has started so far and what it has
      still to start is what it had to start at first. When it is done, that is all of them. */
  lemma BatchRunsAll(run: seq<State>, i: nat, j: nat, w: nat)
    requires IsRun(Init, Next, run) && i <= j < |run| && w < |run[i].workers|
    requires forall k :: i <= k < j ==> UndisturbedAt(run, k, w)
    ensures Accounted(run, i, j, w, ToStart(run[i].workers[w], run[i].closed))
    ensures run[j].workers[w].at.Done? ==> StartedBy(run, i, j, w) == ToStart(run[i].workers[w], run[i].closed)
  {
    var all := ToStart(run[i].workers[w], run[i].closed);
    var p := (k: nat) => Accounted(run, i, k, w, all);
    forall k: nat, l: nat | i <= k < j && l == k + 1 && p(k) ensures p(l) {
      assert UndisturbedAt(run, k, w);
      AccountedNext(run, i, k, w, all);
    }
    AccountedFirst(run, i, w);
    Along(p, i, j);
    AccountedLast(run, i, j, w, all);
  }

  lemma AccountedFirst(run: seq<State>, i: nat, w: nat)
    requires i < |run| && w < |run[i].workers|
    ensures Accounted(run, i, i, w, ToStart(run[i].workers[w], run[i].closed))
  {
  }

  lemma AccountedLast(run: seq<State>, i: nat, j: nat, w: nat, all: seq<Job>)
    requires IsRun(Init, Next, run) && Accounted(run, i, j, w, all)
    ensures run[j].workers[w].at.Done? ==> StartedBy(run, i, j, w) == all
  {
    DoneHasNone(run, j, w);
  }

  lemma DoneHasNone(run: seq<State>, j: nat, w: nat)
    requires IsRun(Init, Next, run) && j < |run|
    ensures w < |run[j].workers| && run[j].workers[w].at.Done? ==> ToStart(run[j].workers[w], run[j].closed) == []
  {
    RunKeeps(run);
    assert w < |run[j].workers| ==> WorkerShape(run[j].workers[w]);
  }

  // ---------------------------------------------------------------- the event loop

  /** The loop has not been refused. */
  ghost predicate Unrefused(run: seq<State>, k: nat)
  {
    k < |run| && !(run[k].loop.Return? && !run[k].loop.granted) && !(run[k].loop.Uncount? && !run[k].loop.granted)
  }

  lemma UnrefusedNext(run: seq<State>, k: nat)
    requires IsRun(Init, Next, run) && k + 1 < |run| && Unrefused(run, k) && run[k].phase.Active?
    ensures Unrefused(run, k + 1)
  {
    RunKeeps(run);
    NextAt(Init, Next, run, k);
    var s, s' := run[k], run[k + 1];
    if s'.loop != s.loop { OnlyLoopMovesLoop(s, s'); }
  }

  /** In every run, no reservation is refused as long as the worker is active. */
  lemma GrantedIfActive(run: seq<State>, i: nat, j: nat)
    requires IsRun(Init, Next, run) && i <= j < |run| && run[i].loop.Waiting?
    requires forall k :: i <= k < j ==> run[k].phase.Active?
    ensures run[j].loop.Return? ==> run[j].loop.granted
  {
    var p := (k: nat) => Unrefused(run, k);
    forall k: nat, l: nat | i <= k < j && l == k + 1 && p(k) ensures p(l) {
      UnrefusedNext(run, k);
    }
    Along(p, i, j);
  }

  /** In every run: a batch smaller than planned means that the queue was empty, and what is not filled is
      given back. */
  lemma FilledFull(run: seq<State>, i: nat)
    requires IsRun(Init, Next, run) && i + 1 < |run| && run[i].loop.Filling?
    requires LoopStep(run[i], run[i + 1]) && !run[i + 1].loop.Filling?
    ensures run[i + 1].loop.TrimFilled? || run[i + 1].loop.Return?
    ensures run[i + 1].loop.TrimFilled? ==>
      && run[i + 1].loop.buf == run[i].loop.buf && run[i + 1].loop.m == run[i].loop.k - |run[i].loop.buf|
      && (|run[i].loop.buf| < run[i].loop.k ==> run[i].off == run[i].head)
    ensures run[i + 1].loop.Return? ==>
      run[i].off == run[i].head && run[i].loop.buf == [] && run[i + 1].loop.k == run[i].loop.k
  {
    RunKeeps(run);
  }

  ghost function LoopOnly(): (State, State) -> bool
  {
    (s, s') => LoopStep(s, s')
  }

  /** The event loop alone gets from s to s'. */
  ghost predicate ByLoop(s: State, s': State)
  {
    Reachable(From(s), LoopOnly(), s')
  }

  lemma LoopTakes(s0: State, s: State, s': State)
    requires ByLoop(s0, s) && LoopStep(s, s')
    ensures ByLoop(s0, s')
  {
    assert LoopOnly()(s, s');
    ReachableNext(From(s0), LoopOnly(), s, s');
  }

  lemma Reserves(s: State) returns (s': State)
    requires s.loop.Waiting? && s.phase.Active? && s.busy < s.conc
    ensures ByLoop(s, s') && s' == s.(loop := Granted(1), busy := s.busy + 1, processing := s.processing + 1)
  {
    ReachableInit(From(s), LoopOnly(), s);
    var s1 := s.(loop := Admitted);
    LoopTakes(s, s, s1);
    var s2 := s1.(loop := Busy(1), busy := s.busy + 1);
    LoopTakes(s, s1, s2);
    var s3 := s2.(loop := Counted(1), processing := s.processing + 1);
    LoopTakes(s, s2, s3);
    s' := s3.(loop := Granted(1));
    LoopTakes(s, s3, s');
  }

  /** From any state, a waiting event loop of an active worker below its limit, with nothing parked, can
      go on alone to hand the first queued job, if it is not closed, to a goroutine. */
  lemma QueueIsServed(s: State)
    requires s.loop.Waiting? && s.phase.Active? && s.busy < s.conc && s.nParked <= 0
    requires s.off < s.head && s.off !in s.closed
    ensures exists s' ::
      ByLoop(s, s') && s'.workers == s.workers + [Worker([s.off], 0, Stamp(s.gen, s.dispatched), StaleCheck)]
  {
    var s1 := Reserves(s);
    var s2 := s1.(loop := Filling(1, []));
    LoopTakes(s, s1, s2);
    var s3 := s2.(off := s.off + 1, loop := Filling(1, [] + [s.off]));
    LoopTakes(s, s2, s3);
    assert [] + [s.off] == [s.off];
    var s4 := s3.(loop := TrimFilled(0, [s.off]));
    LoopTakes(s, s3, s4);
    var s5 := s4.(loop := Stamping([s.off]));
    LoopTakes(s, s4, s5);
    var s6 := s5.(loop := Sending([s.off], Stamp(s.gen, s.dispatched)), dispatched := s.dispatched + 1,
                  order := s.order + [s.off]);
    LoopTakes(s, s5, s6);
    var s7 := s6.(loop := Waiting, workers := s.workers + [Worker([s.off], 0, Stamp(s.gen, s.dispatched), StaleCheck)]);
    LoopTakes(s, s6, s7);
  }

  /** With parked jobs and parkMx free it hands out the earliest of them instead. */
  lemma ParkIsServed(s: State)
    requires s.loop.Waiting? && s.phase.Active? && s.busy < s.conc && s.nParked > 0 && s.parkMx.Free?
    requires s.parked != [] && forall b :: b in s.parked ==> b.jobs != []
    ensures |Sorted(s)| > 0
    ensures var b := Sorted(s)[0];
      b.jobs != [] && exists s' ::
        ByLoop(s, s') && s'.workers == s.workers + [Worker([b.jobs[0]], 0, b.stamp, StaleCheck)]
  {
    SortKeeps(s.parked, 0);
    var b := Sorted(s)[0];
    assert b in s.parked;
    var s1 := Reserves(s);
    var s2 := s1.(loop := Unparking(1));
    LoopTakes(s, s1, s2);
    var s3 := s2.(parked := AfterTake(Sorted(s), 1), unsorted := false, nParked := s.nParked - 1,
                  loop := TrimUnparked(0, b.jobs[..1], b.stamp));
    LoopTakes(s, s2, s3);
    assert b.jobs[..1] == [b.jobs[0]];
    var s4 := s3.(loop := Sending(b.jobs[..1], b.stamp));
    LoopTakes(s, s3, s4);
    var s5 := s4.(loop := Waiting, workers := s.workers + [Worker(b.jobs[..1], 0, b.stamp, StaleCheck)]);
    LoopTakes(s, s4, s5);
  }

  // ---------------------------------------------------------------- Purge and Wait

  /** Purge p has emptied the queue of what was in it at index a. */
  ghost predicate Emptied(s: State, p: nat, head: nat)
  {
    && head <= s.head
    && (p < |s.purges| && (s.purges[p].Taken? || s.purges[p].Returned?) ==> head <= s.off)
  }

  lemma EmptiedNext(s: State, s': State, p: nat, head: nat)
    requires Shape(s) && Next(s, s') && Emptied(s, p, head)
    ensures Emptied(s', p, head)
  {
    if LoopStep(s, s') {
      LoopHistory(s, s');
    } else if w: nat :| WorkerActs(s, w, s') {
      WorkerPlain(s, w, s');
      WorkerNumbers(s, w, s');
    } else if k: nat :| PurgeActs(s, k, s') {
      PurgeEmpties1(s, k, s', p, head);
    } else {
      OutsideFrame(s, s');
    }
  }

  lemma PurgeEmpties1(s: State, k: nat, s': State, p: nat, head: nat)
    requires PurgeActs(s, k, s') && Emptied(s, p, head)
    ensures Emptied(s', p, head)
  {
  }

  lemma EmptiedStep(run: seq<State>, k: nat, p: nat, head: nat)
    requires IsRun(Init, Next, run) && k + 1 < |run| && Emptied(run[k], p, head)
    ensures Emptied(run[k + 1], p, head)
  {
    RunKeeps(run);
    NextAt(Init, Next, run, k);
    EmptiedNext(run[k], run[k + 1], p, head);
  }

  ghost predicate EmptiedAt(run: seq<State>, k: nat, p: nat, head: nat)
  {
    k < |run| && Emptied(run[k], p, head)
  }

  /** In every run, once a purge has emptied the queue, no job accepted before the purge began is left in
      it; and once it has returned, every such job is closed, or was dequeued before. */
  lemma PurgeEmptiesQueue(run: seq<State>, a: nat, b: nat, p: nat)
    requires IsRun(Init, Next, run) && a <= b < |run| && |run[a].purges| <= p < |run[b].purges|
    requires run[b].purges[p].Taken? || run[b].purges[p].Returned?
    ensures run[a].head <= run[b].off
  {
    var head := run[a].head;
    var q := (k: nat) => EmptiedAt(run, k, p, head);
    forall k: nat, l: nat | a <= k < b && l == k + 1 && q(k) ensures q(l) {
      EmptiedStep(run, k, p, head);
    }
    assert q(a);
    Along(q, a, b);
  }

  ghost function WaitsOnly(v: nat): (State, State) -> bool
  {
    (s, s') => WaiterActs(s, v, s')
  }

  lemma WaitTakes(s0: State, s: State, v: nat, at: WaitAt) returns (s': State)
    requires v < |s.waiters| && Reachable(From(s0), WaitsOnly(v), s)
    requires WaitStep(s, v, s.(waiters := s.waiters[v := s.waiters[v].(at := at)]))
    ensures s' == s.(waiters := s.waiters[v := s.waiters[v].(at := at)]) && Reachable(From(s0), WaitsOnly(v), s')
  {
    s' := s.(waiters := s.waiters[v := s.waiters[v].(at := at)]);
    assert WaitsOnly(v)(s, s');
    ReachableNext(From(s0), WaitsOnly(v), s, s');
  }

  /** From any state, a Wait that begins when nothing is parked, queued or processing can go on alone to its
      return. */
  lemma WaitFinishes(s: State, v: nat)
    requires v < |s.waiters| && s.waiters[v].at.Called? && s.nParked == 0 && s.off >= s.head && s.processing == 0
    ensures exists s' :: Reachable(From(s), WaitsOnly(v), s') && v < |s'.waiters| && s'.waiters[v].at.Back?
  {
    ReachableInit(From(s), WaitsOnly(v), s);
    var s1 := WaitTakes(s, s, v, SawNoParked);
    var s2 := WaitTakes(s, s1, v, LoadedHead(s.head));
    var s3 := WaitTakes(s, s2, v, SawEmpty);
    var s4 := WaitTakes(s, s3, v, Back);
  }
}
