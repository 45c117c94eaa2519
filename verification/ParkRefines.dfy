/** The parked list as a class (module ParkLists) does what the dispatch protocol (module Dispatcher)
    takes its park, unpark and drop steps to do, when there is one purge counter and no queue is
    paused; and in every run of the protocol the list's own preconditions hold. */
module ParkRefines {
  import opened Basics
  import opened Runs
  import C = DispatchConservation
  import O = DispatchOrder
  import D = Dispatcher
  import P = ParkLists

  function StampOf(s: P.Stamp): D.Stamp
  {
    D.Stamp(s.epoch, s.seqNo)
  }

  function BatchOf(b: P.Batch): D.Batch
  {
    D.Batch(b.jobs, StampOf(b.stamp))
  }

  function BatchesOf(batches: seq<P.Batch>): (r: seq<D.Batch>)
    ensures |r| == |batches| && forall i :: 0 <= i < |r| ==> r[i] == BatchOf(batches[i])
  {
    MapAll(batches, BatchOf)
  }

  /** Both sort alike. */
  lemma SortAgrees(batches: seq<P.Batch>)
    ensures BatchesOf(P.BySeq(batches)) == D.SortBySeq(BatchesOf(batches))
  {
    SortMaps(batches, P.SeqNoOf, BatchOf, D.SeqNoOf);
  }

  lemma TakeAgrees(sorted: seq<P.Batch>, n: nat)
    requires sorted != [] && n <= |sorted[0].jobs|
    ensures BatchesOf(P.AfterTake(sorted, 0, n)) == D.AfterTake(BatchesOf(sorted), n)
  {
  }

  /** What ParkList.Unpark promises is the protocol's unpark step. */
  lemma UnparkRefines(s: D.State, batches: seq<P.Batch>, k: nat, i: nat,
                      out: seq<P.Job>, stamp: P.Stamp, left: seq<P.Batch>)
    requires s.parked == BatchesOf(batches) && s.loop == D.Unparking(k)
    requires P.TakenAt(P.Sorted(batches, s.unsorted), i, k, {}, out, stamp, left)
    ensures |out| <= k
    ensures D.Unpark(s, k, s.(parked := BatchesOf(left), unsorted := false, nParked := s.nParked - |out|,
                              loop := D.TrimUnparked(k - |out|, out, StampOf(stamp))))
  {
    var sorted := P.Sorted(batches, s.unsorted);
    assert i == 0 by {
      assert i > 0 ==> P.Held(sorted[0].stamp, {});
    }
    SortAgrees(batches);
    assert BatchesOf(sorted) == if s.unsorted then D.SortBySeq(s.parked) else s.parked;
    assert s.parked != [] by {
      assert batches == [] ==> sorted == [];
    }
    TakeAgrees(sorted, |out|);
  }

  lemma {:induction false} AllJobsLast(init: seq<D.Batch>, b: D.Batch)
    ensures D.AllJobs(init + [b]) == D.AllJobs(init) + b.jobs
  {
    if init == [] {
      assert init + [b] == [b];
    } else {
      AllJobsLast(init[1..], b);
      assert (init + [b])[1..] == init[1..] + [b];
    }
  }

  /** With one purge counter, what ParkList.Drop promises is the protocol's drop: all jobs are closed and
      nothing stays. */
  lemma {:induction false} DropRefines(batches: seq<P.Batch>, gen: nat)
    requires forall b :: b in batches ==> b.stamp.gen == gen
    ensures P.Of(batches, gen, false) == []
    ensures P.Jobs(P.Of(batches, gen, true)) == D.AllJobs(BatchesOf(batches))
  {
    if batches != [] {
      var init, b := batches[..|batches| - 1], batches[|batches| - 1];
      DropRefines(init, gen);
      assert b in batches;
      P.JobsLast(P.Of(init, gen, true), b);
      assert BatchesOf(batches) == BatchesOf(init) + [BatchOf(b)];
      AllJobsLast(BatchesOf(init), BatchOf(b));
    }
  }

  // ---------------------------------------------------------------- the list in a run

  predicate After(a: D.Batch, b: D.Batch)
  {
    a.stamp.seqNo >= b.stamp.seqNo + |b.jobs|
  }

  /** Batches whose ranges of dispatch numbers overlap have a job in common. */
  lemma Overlap(order: seq<D.Job>, a: D.Batch, b: D.Batch) returns (j: D.Job)
    requires O.Numbered(order, a.jobs, a.stamp.seqNo) && O.Numbered(order, b.jobs, b.stamp.seqNo)
    requires a.jobs != [] && b.jobs != [] && !After(a, b) && !After(b, a)
    ensures j in a.jobs && j in b.jobs
  {
    var n := if a.stamp.seqNo <= b.stamp.seqNo then b.stamp.seqNo else a.stamp.seqNo;
    j := order[n];
    assert a.jobs[n - a.stamp.seqNo] == j == b.jobs[n - b.stamp.seqNo];
  }

  lemma ParkedApart(s: D.State, p: nat, q: nat)
    requires O.OrderInv(s) && p < q < |s.parked|
    ensures After(s.parked[p], s.parked[q]) || After(s.parked[q], s.parked[p])
  {
    var a, b := s.parked[p], s.parked[q];
    assert a in s.parked && b in s.parked;
    if !After(a, b) && !After(b, a) {
      var j := Overlap(s.order, a, b);
      assert C.Places(s, j) <= 1;
      O.TwiceParked(s.parked, p, q, j);
    }
  }

  /** Pairwise apart, and in order if sorted, is what the list asks for. */
  lemma {:induction false} RangedIf(batches: seq<P.Batch>, unsorted: bool)
    requires forall p :: 0 <= p < |batches| ==> batches[p].jobs != []
    requires forall p, q :: 0 <= p < q < |batches| ==>
      P.Before(batches[p], batches[q]) || (unsorted && P.Before(batches[q], batches[p]))
    ensures P.Ranged(batches, unsorted)
  {
    if batches != [] {
      RangedIf(batches[1..], unsorted);
      forall y | y in batches[1..] ensures P.Before(batches[0], y) || (unsorted && P.Before(y, batches[0])) {
        var q :| 0 <= q < |batches[1..]| && batches[1..][q] == y;
        assert batches[q + 1] == y;
      }
    }
  }

  lemma {:induction false} TotalIsAll(batches: seq<P.Batch>)
    ensures P.Total(batches) == |D.AllJobs(BatchesOf(batches))|
  {
    if batches != [] {
      TotalIsAll(batches[1..]);
      assert BatchesOf(batches)[1..] == BatchesOf(batches[1..]);
    }
  }

  /** In every run, whenever nobody holds parkMx, the parked batches are a valid list: the counter is
      exact, no ranges overlap, and they are in dispatch order unless marked unsorted. */
  lemma ListIsValid(run: seq<D.State>, i: nat, batches: seq<P.Batch>)
    requires IsRun(D.Init, D.Next, run) && i < |run| && run[i].parkMx.Free? && run[i].parked == BatchesOf(batches)
    ensures P.Ranged(batches, run[i].unsorted) && run[i].nParked == P.Total(batches)
  {
    O.RunOrdered(run);
    var s := run[i];
    TotalIsAll(batches);
    forall p | 0 <= p < |batches| ensures batches[p].jobs != [] {
      assert s.parked[p] in s.parked;
    }
    forall p, q | 0 <= p < q < |batches|
      ensures P.Before(batches[p], batches[q]) || (s.unsorted && P.Before(batches[q], batches[p]))
    {
      ParkedApart(s, p, q);
      assert s.parked[p] in s.parked && s.parked[p].jobs != [];
    }
    RangedIf(batches, s.unsorted);
  }

  // ---------------------------------------------------------------- park

  /** What worker x is about to park. */
  function RestOf(x: D.Worker): D.Batch
    requires x.i <= |x.jobs|
  {
    D.Batch(x.jobs[x.i..], x.stamp.(seqNo := x.stamp.seqNo + x.i))
  }

  /** Nothing parked is in a batch of a worker. */
  lemma RestNotParked(s: D.State, w: nat, p: nat, j: D.Job)
    requires O.OrderInv(s) && w < |s.workers| && p < |s.parked| && j in C.Rest(s.workers[w])
    ensures j !in s.parked[p].jobs
  {
    if j in s.parked[p].jobs {
      assert C.Places(s, j) <= 1;
      C.TimesIn(C.Rest(s.workers[w]), j);
      C.HolderCounts(s.workers, w, j);
      O.InAllJobs(s.parked, p, j);
    }
  }

  /** In every run, what a worker parks is not empty, and its range of dispatch numbers is apart from
      every parked batch, from before it takes parkMx until it appends. */
  lemma RestFits(run: seq<D.State>, i: nat, w: nat, batches: seq<P.Batch>, rest: P.Batch)
    requires IsRun(D.Init, D.Next, run) && i < |run| && w < |run[i].workers| && run[i].parked == BatchesOf(batches)
    requires run[i].workers[w].at.ParkLock? || run[i].workers[w].at.ParkAppend?
    requires run[i].workers[w].i <= |run[i].workers[w].jobs| && BatchOf(rest) == RestOf(run[i].workers[w])
    ensures rest.jobs != [] && P.ApartFrom(rest, batches)
  {
    O.RunOrdered(run);
    var s, x := run[i], run[i].workers[w];
    assert C.WorkerShape(x);
    O.NumberedTail(s.order, x.jobs, x.stamp.seqNo, x.i);
    forall y | y in batches ensures P.Before(rest, y) || P.Before(y, rest) {
      var p: nat :| p < |batches| && batches[p] == y;
      assert s.parked[p] == BatchOf(y) && s.parked[p] in s.parked;
      if !After(BatchOf(rest), BatchOf(y)) && !After(BatchOf(y), BatchOf(rest)) {
        var j := Overlap(s.order, BatchOf(rest), BatchOf(y));
        RestNotParked(s, w, p, j);
      }
    }
  }

  /** Parked and back on its way, with these jobs closed. */
  function Parked(s: D.State, w: nat, left: seq<D.Batch>, kept: bool, closed: seq<D.Job>): D.State
    requires w < |s.workers| && s.workers[w].i <= |s.workers[w].jobs|
  {
    var x := s.workers[w];
    var s' := s.(workers := s.workers[w := x.(i := |x.jobs|, at := D.FreeNode)], parked := left);
    if kept then s'.(unsorted := true, nParked := s.nParked + |x.jobs| - x.i)
    else s'.(closed := s.closed + (set j | j in closed), gone := s.gone + closed)
  }

  /** The three steps of a park that is not stale: lock, append, count. */
  ghost predicate ThreeSteps(s: D.State, w: nat, s': D.State)
  {
    exists a, b :: D.WorkerActs(s, w, a) && D.WorkerActs(a, w, b) && D.WorkerActs(b, w, s')
  }

  /** What ParkList.Park promises is what the protocol's park does, from the lock on: one step for a
      stale batch, else lock, append and count. In every run Park's preconditions hold there. */
  lemma ParkRefinesSteps(run: seq<D.State>, i: nat, w: nat, batches: seq<P.Batch>, rest: P.Batch,
                         current: map<nat, nat>, closed: seq<P.Job>, left: seq<P.Batch>)
    requires IsRun(D.Init, D.Next, run) && i < |run| && w < |run[i].workers| && run[i].parkMx.Free?
    requires run[i].parked == BatchesOf(batches) && run[i].workers[w].at.ParkLock?
    requires run[i].workers[w].i <= |run[i].workers[w].jobs| && BatchOf(rest) == RestOf(run[i].workers[w])
    requires rest.stamp.gen in current && current[rest.stamp.gen] == run[i].gen
    requires P.ParkedAs(batches, rest.jobs, rest.stamp, current, closed, left)
    ensures P.Ranged(batches, run[i].unsorted) && run[i].nParked == P.Total(batches)
    ensures rest.jobs != [] && P.ApartFrom(rest, batches)
    ensures var stale := P.Stale(rest.stamp, current);
      var s' := Parked(run[i], w, BatchesOf(left), !stale, closed);
      if stale then D.WorkerActs(run[i], w, s') else ThreeSteps(run[i], w, s')
  {
    ListIsValid(run, i, batches);
    RestFits(run, i, w, batches, rest);
    var s, x := run[i], run[i].workers[w];
    var s' := Parked(s, w, BatchesOf(left), !P.Stale(rest.stamp, current), closed);
    if P.Stale(rest.stamp, current) {
      assert D.WorkerActs(s, w, s');
    } else {
      assert BatchesOf(left) == s.parked + [RestOf(x)];
      var a := s.(parkMx := D.HeldBy(w), workers := s.workers[w := x.(at := D.ParkAppend)]);
      assert D.WorkerActs(s, w, a);
      var x' := x.(i := |x.jobs|, at := D.ParkCount(|x.jobs| - x.i));
      var b := a.(parked := BatchesOf(left), unsorted := true, workers := a.workers[w := x']);
      assert D.WorkerActs(a, w, b);
      assert b.workers[w := x'.(at := D.FreeNode)] == s'.workers;
      assert D.WorkerActs(b, w, s');
    }
  }

  /** Nobody else touches the list between the lock and the count, so a park is one step to others. */
  lemma OnlyHolderParks(run: seq<D.State>, i: nat, w: nat)
    requires IsRun(D.Init, D.Next, run) && i + 1 < |run| && run[i].parkMx == D.HeldBy(w)
    ensures w < |run[i].workers| && w < |run[i + 1].workers|
    ensures
      || D.WorkerActs(run[i], w, run[i + 1])
      || (var s, s' := run[i], run[i + 1];
          && s'.parked == s.parked && s'.unsorted == s.unsorted && s'.nParked == s.nParked
          && s'.parkMx == s.parkMx && s'.workers[w] == s.workers[w])
  {
    O.RunOrdered(run);
    var s, s' := run[i], run[i + 1];
    NextAt(D.Init, D.Next, run, i);
    if !D.WorkerActs(s, w, s') {
      HolderStays(s, w, s');
    }
  }

  lemma HolderStays(s: D.State, w: nat, s': D.State)
    requires C.Shape(s) && D.Next(s, s') && s.parkMx == D.HeldBy(w) && !D.WorkerActs(s, w, s')
    ensures s'.parked == s.parked && s'.unsorted == s.unsorted && s'.nParked == s.nParked && s'.parkMx == s.parkMx
    ensures w < |s.workers| && w < |s'.workers| && s'.workers[w] == s.workers[w]
  {
    if D.LoopStep(s, s') {
      LoopLeaves(s, s');
    } else if u: nat :| D.WorkerActs(s, u, s') {
      OthersLeave(s, u, s');
    } else if k: nat :| D.PurgeActs(s, k, s') {
      PurgeLeaves(s, k, s');
    } else {
      C.OutsideFrame(s, s');
    }
  }

  lemma PurgeLeaves(s: D.State, k: nat, s': D.State)
    requires D.PurgeActs(s, k, s') && s.parkMx.HeldBy?
    ensures s'.parked == s.parked && s'.unsorted == s.unsorted && s'.nParked == s.nParked && s'.parkMx == s.parkMx
    ensures s'.workers == s.workers
  {
  }

  lemma LoopLeaves(s: D.State, s': D.State)
    requires D.LoopStep(s, s') && s.parkMx.HeldBy?
    ensures s'.parked == s.parked && s'.unsorted == s.unsorted && s'.nParked == s.nParked && s'.parkMx == s.parkMx
    ensures s.workers <= s'.workers
  {
  }

  lemma OthersLeave(s: D.State, u: nat, s': D.State)
    requires D.WorkerActs(s, u, s') && s.parkMx.HeldBy? && !C.Locks(s.workers[u])
    ensures s'.parked == s.parked && s'.unsorted == s.unsorted && s'.nParked == s.nParked && s'.parkMx == s.parkMx
    ensures s'.workers == s.workers[u := s'.workers[u]] && |s'.workers| == |s.workers|
  {
  }
}
