/** Purge against batches in flight and parked. The k-th Purge makes the counter k + 1, so a batch
    stamped with epoch e is older than the bumps of purges e, e + 1, ... and of no others. */
module DispatchPurge {
  import opened Runs
  import opened Dispatcher
  import opened DispatchConservation
  import opened DispatchOrder

  /** Every purge that bumped the counter after this epoch has still to drop what is parked. */
  predicate OnlyBumped(purges: seq<PurgeAt>, epoch: nat)
  {
    forall k :: epoch <= k < |purges| ==> purges[k].Bumped?
  }

  /** A batch with a job added after purge k returned was stamped after k's bump. */
  predicate Unaffected(purges: seq<PurgeAt>, jobs: seq<Job>, epoch: nat)
  {
    forall k, j :: 0 <= k < |purges| && purges[k].Returned? && j in jobs && purges[k].head <= j ==> epoch > k
  }

  predicate Current(s: State, jobs: seq<Job>, epoch: nat)
  {
    epoch <= |s.purges| && Unaffected(s.purges, jobs, epoch)
  }

  ghost predicate Purged(s: State)
  {
    && s.gen == |s.purges|
    && (s.loop.TrimUnparked? || s.loop.Sending? ==> Current(s, s.loop.buf, s.loop.stamp.epoch))
    && (forall w :: 0 <= w < |s.workers| ==> Current(s, s.workers[w].jobs, s.workers[w].stamp.epoch))
    && (forall b :: b in s.parked ==> Current(s, b.jobs, b.stamp.epoch) && OnlyBumped(s.purges, b.stamp.epoch))
    && (forall w :: 0 <= w < |s.workers| && s.workers[w].at.ParkAppend? ==>
          OnlyBumped(s.purges, s.workers[w].stamp.epoch))
  }

  ghost predicate PurgeInv(s: State)
  {
    OrderInv(s) && Purged(s)
  }

  lemma UnparkStamps(s: State, s': State)
    requires s.loop.Unparking? && s.parked != [] && Unpark(s, s.loop.k, s')
    ensures exists b :: b in s.parked && s'.loop.stamp.epoch == b.stamp.epoch
                        && (forall j :: j in s'.loop.buf ==> j in b.jobs)
    ensures forall c :: c in s'.parked ==>
      exists b :: b in s.parked && c.stamp.epoch == b.stamp.epoch && (forall j :: j in c.jobs ==> j in b.jobs)
    ensures s'.loop.TrimUnparked? && s'.workers == s.workers && s'.purges == s.purges && s'.gen == s.gen
  {
    SortKeeps(s.parked, 0);
    var b := Sorted(s)[0];
    assert b in s.parked;
    forall c | c in s'.parked
      ensures exists b :: b in s.parked && c.stamp.epoch == b.stamp.epoch && (forall j :: j in c.jobs ==> j in b.jobs)
    {
      assert c == s'.parked[0] || c in s.parked;
    }
  }

  lemma LoopPurged(s: State, s': State)
    requires Inv(s) && Purged(s) && LoopStep(s, s')
    ensures Purged(s')
  {
    LoopHistory(s, s');
    if s.loop.Unparking? && s.parked != [] {
      UnparkStamps(s, s');
    } else if s.loop.Filling? {
      FillPurged(s, s');
    } else if !s.loop.Stamping? {
      LoopRest(s, s');
    }
  }

  lemma FillPurged(s: State, s': State)
    requires s.loop.Filling? && LoopStep(s, s')
    ensures s'.workers == s.workers && s'.parked == s.parked && !s'.loop.TrimUnparked? && !s'.loop.Sending?
  {
  }

  /** park checks the stamp under parkMx. */
  lemma ParkChecks(s: State, w: nat, s': State)
    requires w < |s.workers| && WorkerShape(s.workers[w]) && WorkerStep(s, w, s') && |s'.workers| == |s.workers|
    ensures s'.workers[w].at.ParkAppend? ==> s.gen == s.workers[w].stamp.epoch
  {
  }

  lemma WorkerPurged(s: State, w: nat, s': State)
    requires Inv(s) && Purged(s) && w < |s.workers| && WorkerStep(s, w, s')
    ensures Purged(s')
  {
    WorkerPlain(s, w, s');
    WorkerNumbers(s, w, s');
    ParkChecks(s, w, s');
    var x := s.workers[w];
    if s'.parked != s.parked {
      var rest := x.jobs[x.i..];
      assert forall j :: j in rest ==> j in x.jobs;
    }
  }

  /** Every stamped job was taken from the queue, so it lies below the head. */
  lemma StampedBelowHead(s: State, jobs: seq<Job>, n: nat)
    requires Stamped(s) && s.off <= s.head && Numbered(s.order, jobs, n)
    ensures AllBelow(jobs, s.head)
  {
    forall j | j in jobs ensures j < s.head {
      var i :| 0 <= i < |jobs| && jobs[i] == j;
      var whole := s.order + Unstamped(s.loop);
      assert whole[n + i] == j && j in whole;
    }
  }

  lemma ReturnIsLate(s: State, k: nat, jobs: seq<Job>, epoch: nat)
    requires k < |s.purges| && Current(s, jobs, epoch) && AllBelow(jobs, s.head)
    ensures Unaffected(s.purges[k := Returned(s.head)], jobs, epoch)
  {
  }

  lemma StepIsEarly(purges: seq<PurgeAt>, k: nat, p: PurgeAt, jobs: seq<Job>, epoch: nat)
    requires k < |purges| && Unaffected(purges, jobs, epoch) && !p.Returned?
    ensures Unaffected(purges[k := p], jobs, epoch)
  {
  }

  lemma PurgePurged(s: State, k: nat, s': State)
    requires PurgeInv(s) && k < |s.purges| && PurgeStep(s, k, s')
    ensures Purged(s')
  {
    forall w | 0 <= w < |s.workers| ensures Current(s', s.workers[w].jobs, s.workers[w].stamp.epoch) {
      StampedBelowHead(s, s.workers[w].jobs, s.workers[w].stamp.seqNo);
      CurrentAfter(s, k, s', s.workers[w].jobs, s.workers[w].stamp.epoch);
    }
    ParkedPurged(s, k, s');
    if s.loop.TrimUnparked? || s.loop.Sending? {
      StampedBelowHead(s, s.loop.buf, s.loop.stamp.seqNo);
      CurrentAfter(s, k, s', s.loop.buf, s.loop.stamp.epoch);
    }
  }

  lemma ParkedPurged(s: State, k: nat, s': State)
    requires PurgeInv(s) && k < |s.purges| && PurgeStep(s, k, s')
    ensures forall b :: b in s'.parked ==>
      Current(s', b.jobs, b.stamp.epoch) && OnlyBumped(s'.purges, b.stamp.epoch)
  {
    forall b | b in s'.parked ensures Current(s', b.jobs, b.stamp.epoch) && OnlyBumped(s'.purges, b.stamp.epoch) {
      StampedBelowHead(s, b.jobs, b.stamp.seqNo);
      CurrentAfter(s, k, s', b.jobs, b.stamp.epoch);
    }
  }

  lemma CurrentAfter(s: State, k: nat, s': State, jobs: seq<Job>, epoch: nat)
    requires k < |s.purges| && s.off <= s.head && PurgeStep(s, k, s') && Current(s, jobs, epoch)
    requires AllBelow(jobs, s.head)
    ensures Current(s', jobs, epoch)
  {
    if s.purges[k].Taken? {
      ReturnIsLate(s, k, jobs, epoch);
    } else {
      StepIsEarly(s.purges, k, s'.purges[k], jobs, epoch);
    }
  }

  lemma OutsidePurged(s: State, s': State)
    requires Purged(s) && OutsideStep(s, s')
    ensures Purged(s')
  {
    OutsideFrame(s, s');
    OutsideGen(s, s');
  }

  lemma OutsideGen(s: State, s': State)
    requires OutsideStep(s, s')
    ensures (s'.gen == s.gen && s'.purges == s.purges) || (s'.gen == s.gen + 1 && s'.purges == s.purges + [Bumped])
  {
  }

  lemma NextPurge(s: State, s': State)
    requires PurgeInv(s) && Next(s, s')
    ensures PurgeInv(s')
  {
    NextOrder(s, s');
    if LoopStep(s, s') {
      LoopPurged(s, s');
    } else if w: nat :| WorkerActs(s, w, s') {
      WorkerPurged(s, w, s');
    } else if k: nat :| PurgeActs(s, k, s') {
      PurgePurged(s, k, s');
    } else {
      OutsidePurged(s, s');
    }
  }

  lemma RunPurged(run: seq<State>)
    requires IsRun(Init, Next, run)
    ensures forall i :: 0 <= i < |run| ==> PurgeInv(run[i])
  {
    assert Inductive(Init, Next, PurgeInv) by {
      forall s | Init(s) ensures PurgeInv(s) {
        InitOrder(s);
      }
      forall s, s' | PurgeInv(s) && Next(s, s') ensures PurgeInv(s') {
        NextPurge(s, s');
      }
    }
    Invariance(Init, Next, PurgeInv, run);
  }

  /** In every run, a parked batch is stale only while a purge is between its bump and its drop:
      all purges begun since the batch was stamped are. */
  lemma StaleParkedOnlyMidPurge(run: seq<State>, i: nat, b: Batch, k: nat)
    requires IsRun(Init, Next, run) && i < |run| && b in run[i].parked
    ensures b.stamp.epoch <= run[i].gen == |run[i].purges|
    ensures b.stamp.epoch <= k < |run[i].purges| ==> run[i].purges[k].Bumped?
  {
    RunPurged(run);
  }

  /** In every run, a job of a batch stamped before purge k's bump never passes a stale check made
      after the bump, neither on its way to start nor on its way into the park. */
  lemma PurgedNeverPasses(run: seq<State>, i: nat, w: nat, k: nat)
    requires IsRun(Init, Next, run) && i + 1 < |run| && w < |run[i].workers| && k < |run[i].purges|
    requires w < |run[i + 1].workers| && run[i].workers[w].stamp.epoch <= k
    ensures run[i].workers[w].at.StaleCheck? ==> !run[i + 1].workers[w].at.HaltCheck?
    ensures run[i].workers[w].at.ParkLock? ==> !run[i + 1].workers[w].at.ParkAppend?
  {
    RunPurged(run);
    var s, s' := run[i], run[i + 1];
    NextAt(Init, Next, run, i);
    if s'.workers[w] != s.workers[w] {
      OnlyWorkerMovesWorker(s, s', w);
      PassesFresh(s, w, s');
    }
  }

  lemma OnlyWorkerMovesWorker(s: State, s': State, w: nat)
    requires Next(s, s') && forall u :: 0 <= u < |s.workers| ==> WorkerShape(s.workers[u])
    requires w < |s.workers| && w < |s'.workers| && s'.workers[w] != s.workers[w]
    ensures WorkerActs(s, w, s') && |s'.workers| == |s.workers|
  {
    if LoopStep(s, s') {
      LoopHistory(s, s');
    } else if u: nat :| WorkerActs(s, u, s') {
      WorkerPlain(s, u, s');
    } else {
      OthersKeepWorkers(s, s');
    }
  }

  lemma OthersKeepWorkers(s: State, s': State)
    requires (exists k: nat :: PurgeActs(s, k, s')) || OutsideStep(s, s')
    ensures s'.workers == s.workers
  {
  }

  lemma PassesFresh(s: State, u: nat, s': State)
    requires u < |s.workers| && WorkerShape(s.workers[u]) && WorkerStep(s, u, s') && |s'.workers| == |s.workers|
    ensures s.workers[u].at.StaleCheck? && s'.workers[u].at.HaltCheck? ==> s.gen == s.workers[u].stamp.epoch
    ensures s.workers[u].at.ParkLock? && s'.workers[u].at.ParkAppend? ==> s.gen == s.workers[u].stamp.epoch
  {
  }

  /** In every run, a job added after purge k returned is in no batch that k's bump made stale,
      wherever the batch is: a worker, the loop's hand, or the park. */
  lemma LaterJobsUnaffected(run: seq<State>, i: nat, k: nat, j: Job)
    requires IsRun(Init, Next, run) && i < |run| && k < |run[i].purges|
    requires run[i].purges[k].Returned? && run[i].purges[k].head <= j
    ensures forall w :: 0 <= w < |run[i].workers| && j in run[i].workers[w].jobs ==> run[i].workers[w].stamp.epoch > k
    ensures forall b :: b in run[i].parked && j in b.jobs ==> b.stamp.epoch > k
    ensures run[i].loop.Sending? && j in run[i].loop.buf ==> run[i].loop.stamp.epoch > k
  {
    RunPurged(run);
  }
}
