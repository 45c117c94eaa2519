/** Dispatch numbers, the order parked jobs come back in, and the order jobs start in. */
module DispatchOrder {
  import opened Basics
  import opened Runs
  import opened Phases
  import opened Dispatcher
  import opened DispatchConservation

  predicate Ascending(jobs: seq<Job>)
  {
    forall a, b :: 0 <= a < b < |jobs| ==> jobs[a] < jobs[b]
  }

  predicate AllBefore(a: seq<Job>, b: seq<Job>)
  {
    forall x, y :: x in a && y in b ==> x < y
  }

  predicate AllBelow(jobs: seq<Job>, bound: nat)
  {
    forall x :: x in jobs ==> x < bound
  }

  /** The jobs carry the consecutive dispatch numbers n, n+1, ... */
  predicate Numbered(order: seq<Job>, jobs: seq<Job>, n: nat)
  {
    n + |jobs| <= |order| && forall i :: 0 <= i < |jobs| ==> jobs[i] == order[n + i]
  }

  predicate SeqSorted(batches: seq<Batch>)
  {
    forall p, q :: 0 <= p < q < |batches| ==> batches[p].stamp.seqNo <= batches[q].stamp.seqNo
  }

  /** Dequeued and not stamped yet. */
  function Unstamped(loop: Loop): seq<Job>
  {
    if loop.Filling? || loop.TrimFilled? || loop.Stamping? then loop.buf else []
  }

  ghost predicate Stamped(s: State)
  {
    && s.dispatched == |s.order|
    && Ascending(s.order + Unstamped(s.loop))
    && AllBelow(s.order + Unstamped(s.loop), s.off)
    && (s.loop.TrimUnparked? || s.loop.Sending? ==> Numbered(s.order, s.loop.buf, s.loop.stamp.seqNo))
    && (forall w :: 0 <= w < |s.workers| ==> Numbered(s.order, s.workers[w].jobs, s.workers[w].stamp.seqNo))
    && (forall b :: b in s.parked ==> Numbered(s.order, b.jobs, b.stamp.seqNo))
    && (!s.unsorted ==> SeqSorted(s.parked))
  }

  // ---------------------------------------------------------------- sorting

  lemma {:induction false} InsertSorted(b: Batch, sorted: seq<Batch>)
    requires SeqSorted(sorted)
    ensures SeqSorted(Insert(b, sorted, SeqNoOf))
  {
    if !(sorted == [] || b.stamp.seqNo <= sorted[0].stamp.seqNo) {
      InsertSorted(b, sorted[1..]);
      InsertMembers(b, sorted[1..], SeqNoOf);
      var rest := Insert(b, sorted[1..], SeqNoOf);
      forall q | 0 <= q < |rest| ensures sorted[0].stamp.seqNo <= rest[q].stamp.seqNo {
        assert rest[q] in rest;
      }
    }
  }

  lemma {:induction false} SortSorts(batches: seq<Batch>)
    ensures SeqSorted(SortBySeq(batches))
  {
    if batches != [] {
      SortSorts(batches[1..]);
      InsertSorted(batches[0], SortBySeq(batches[1..]));
    }
  }

  // ---------------------------------------------------------------- disjoint ranges

  lemma {:induction false} InAllJobs(batches: seq<Batch>, p: nat, j: Job)
    requires p < |batches| && j in batches[p].jobs
    ensures Times(AllJobs(batches), j) >= 1
  {
    TimesConcat(batches[0].jobs, AllJobs(batches[1..]), j);
    if p == 0 {
      TimesIn(batches[0].jobs, j);
    } else {
      InAllJobs(batches[1..], p - 1, j);
    }
  }

  lemma {:induction false} TwiceParked(batches: seq<Batch>, p: nat, q: nat, j: Job)
    requires p < q < |batches| && j in batches[p].jobs && j in batches[q].jobs
    ensures Times(AllJobs(batches), j) >= 2
  {
    TimesConcat(batches[0].jobs, AllJobs(batches[1..]), j);
    if p == 0 {
      TimesIn(batches[0].jobs, j);
      InAllJobs(batches[1..], q - 1, j);
    } else {
      TwiceParked(batches[1..], p - 1, q - 1, j);
    }
  }

  lemma {:induction false} FromAllJobs(batches: seq<Batch>, j: Job) returns (p: nat)
    requires j in AllJobs(batches)
    ensures p < |batches| && j in batches[p].jobs
  {
    if j in batches[0].jobs {
      p := 0;
    } else {
      p := FromAllJobs(batches[1..], j);
      p := p + 1;
    }
  }

  /** Sorted batches with no job in common have disjoint ascending ranges of dispatch numbers. */
  lemma RangesDisjoint(order: seq<Job>, batches: seq<Batch>, p: nat, q: nat)
    requires SeqSorted(batches) && p < q < |batches| && |batches[q].jobs| > 0
    requires Numbered(order, batches[p].jobs, batches[p].stamp.seqNo)
    requires Numbered(order, batches[q].jobs, batches[q].stamp.seqNo)
    requires forall j :: Times(AllJobs(batches), j) <= 1
    ensures batches[p].stamp.seqNo + |batches[p].jobs| <= batches[q].stamp.seqNo
  {
    var a, b := batches[p], batches[q];
    if a.stamp.seqNo + |a.jobs| > b.stamp.seqNo {
      var j := order[b.stamp.seqNo];
      assert a.jobs[b.stamp.seqNo - a.stamp.seqNo] == j && b.jobs[0] == j;
      TwiceParked(batches, p, q, j);
    }
  }

  lemma LeftAt(batches: seq<Batch>, n: nat, q: nat)
    requires |batches| > 0 && n <= |batches[0].jobs| && q < |AfterTake(batches, n)|
    ensures var b, c := batches[0], AfterTake(batches, n)[q];
      if n == |b.jobs| then q + 1 < |batches| && c == batches[q + 1]
      else q < |batches| && c == if q == 0 then Batch(b.jobs[n..], b.stamp.(seqNo := b.stamp.seqNo + n)) else batches[q]
  {
  }

  /** What is left at q is numbered, and comes after the n jobs taken. */
  lemma LeftNumbered(order: seq<Job>, batches: seq<Batch>, n: nat, q: nat)
    requires SeqSorted(batches) && |batches| > 0 && n <= |batches[0].jobs| && q < |AfterTake(batches, n)|
    requires forall p :: 0 <= p < |batches| ==>
      |batches[p].jobs| > 0 && Numbered(order, batches[p].jobs, batches[p].stamp.seqNo)
    requires forall j :: Times(AllJobs(batches), j) <= 1
    ensures var c := AfterTake(batches, n)[q];
      Numbered(order, c.jobs, c.stamp.seqNo) && batches[0].stamp.seqNo + n <= c.stamp.seqNo
  {
    LeftAt(batches, n, q);
    if n == |batches[0].jobs| {
      RangesDisjoint(order, batches, 0, q + 1);
    } else if q > 0 {
      RangesDisjoint(order, batches, 0, q);
    } else {
      NumberedTail(order, batches[0].jobs, batches[0].stamp.seqNo, n);
    }
  }

  lemma NumberedTail(order: seq<Job>, jobs: seq<Job>, first: nat, n: nat)
    requires Numbered(order, jobs, first) && n <= |jobs|
    ensures Numbered(order, jobs[n..], first + n)
  {
    forall i | 0 <= i < |jobs[n..]| ensures jobs[n..][i] == order[first + n + i] {
      assert jobs[n..][i] == jobs[n + i];
    }
  }

  lemma LeftSorted(order: seq<Job>, batches: seq<Batch>, n: nat, p: nat, q: nat)
    requires SeqSorted(batches) && |batches| > 0 && n <= |batches[0].jobs| && p < q < |AfterTake(batches, n)|
    requires forall p :: 0 <= p < |batches| ==>
      |batches[p].jobs| > 0 && Numbered(order, batches[p].jobs, batches[p].stamp.seqNo)
    requires forall j :: Times(AllJobs(batches), j) <= 1
    ensures AfterTake(batches, n)[p].stamp.seqNo <= AfterTake(batches, n)[q].stamp.seqNo
  {
    LeftAt(batches, n, p);
    LeftAt(batches, n, q);
    if n < |batches[0].jobs| {
      RangesDisjoint(order, batches, 0, q);
    }
  }

  lemma TakeFront(order: seq<Job>, batches: seq<Batch>, n: nat)
    requires Ascending(order) && SeqSorted(batches) && |batches| > 0 && n <= |batches[0].jobs|
    requires forall q :: 0 <= q < |batches| ==>
      |batches[q].jobs| > 0 && Numbered(order, batches[q].jobs, batches[q].stamp.seqNo)
    requires forall j :: Times(AllJobs(batches), j) <= 1
    ensures SeqSorted(AfterTake(batches, n))
    ensures forall c :: c in AfterTake(batches, n) ==> Numbered(order, c.jobs, c.stamp.seqNo)
    ensures AllBefore(batches[0].jobs[..n], AllJobs(AfterTake(batches, n)))
  {
    var left := AfterTake(batches, n);
    forall p, q | 0 <= p < q < |left| ensures left[p].stamp.seqNo <= left[q].stamp.seqNo {
      LeftSorted(order, batches, n, p, q);
    }
    forall c | c in left ensures Numbered(order, c.jobs, c.stamp.seqNo) && batches[0].stamp.seqNo + n <= c.stamp.seqNo {
      var q: nat :| q < |left| && left[q] == c;
      LeftNumbered(order, batches, n, q);
    }
    LaterNumbers(order, batches[0].jobs[..n], batches[0].stamp.seqNo, left);
  }

  lemma SortedFacts(s: State)
    requires Conserved(s) && (!s.unsorted ==> SeqSorted(s.parked))
    ensures SeqSorted(Sorted(s)) && |Sorted(s)| == |s.parked|
    ensures forall j :: Times(AllJobs(Sorted(s)), j) <= 1
    ensures forall q :: 0 <= q < |Sorted(s)| ==> Sorted(s)[q] in s.parked
  {
    SortSorts(s.parked);
    forall j ensures Times(AllJobs(Sorted(s)), j) <= 1 {
      SortKeeps(s.parked, j);
      assert Places(s, j) <= 1;
    }
    SortKeeps(s.parked, 0);
  }

  /** The loop takes the earliest of what is parked: every job it takes comes before every job
      it leaves, and the list stays sorted. */
  lemma UnparkEarliest(s: State, k: nat, s': State)
    requires Conserved(s) && Stamped(s) && forall b :: b in s.parked ==> |b.jobs| > 0
    requires s.loop == Unparking(k) && s.parked != [] && Unpark(s, k, s')
    ensures AllBefore(Buf(s'.loop), AllJobs(s'.parked))
    ensures SeqSorted(s'.parked) && !s'.unsorted
    ensures forall b :: b in s'.parked ==> Numbered(s.order, b.jobs, b.stamp.seqNo)
    ensures Numbered(s.order, Buf(s'.loop), s'.loop.stamp.seqNo)
  {
    SortedFacts(s);
    assert s.order + Unstamped(s.loop) == s.order;
    TakeFront(s.order, Sorted(s), |Buf(s'.loop)|);
  }

  lemma LaterNumbers(order: seq<Job>, jobs: seq<Job>, n: nat, batches: seq<Batch>)
    requires Ascending(order) && Numbered(order, jobs, n)
    requires forall b :: b in batches ==> Numbered(order, b.jobs, b.stamp.seqNo) && n + |jobs| <= b.stamp.seqNo
    ensures AllBefore(jobs, AllJobs(batches))
  {
    forall x, y | x in jobs && y in AllJobs(batches) ensures x < y {
      var p := FromAllJobs(batches, y);
      assert batches[p] in batches;
      var a :| 0 <= a < |jobs| && jobs[a] == x;
      var c :| 0 <= c < |batches[p].jobs| && batches[p].jobs[c] == y;
    }
  }

  // ---------------------------------------------------------------- dispatch numbers are kept

  /** What no step but the loop's can change about numbering. */
  lemma StampedFrame(s: State, s': State)
    requires Stamped(s) && s'.dispatched == s.dispatched && s'.order == s.order && s'.loop == s.loop && s.off <= s'.off
    requires forall w :: 0 <= w < |s'.workers| ==> Numbered(s.order, s'.workers[w].jobs, s'.workers[w].stamp.seqNo)
    requires forall b :: b in s'.parked ==> Numbered(s.order, b.jobs, b.stamp.seqNo)
    requires !s'.unsorted ==> SeqSorted(s'.parked)
    ensures Stamped(s')
  {
  }

  lemma AscendingSnoc(jobs: seq<Job>, j: Job)
    requires Ascending(jobs) && AllBelow(jobs, j)
    ensures Ascending(jobs + [j]) && AllBelow(jobs + [j], j + 1)
  {
    assert forall a :: 0 <= a < |jobs| ==> jobs[a] in jobs;
  }

  lemma FillStamped(s: State, s': State)
    requires Stamped(s) && s.loop.Filling? && LoopStep(s, s')
    ensures Stamped(s')
  {
    if s'.loop.Filling? && s'.loop.buf != s.loop.buf {
      assert s'.order + Unstamped(s'.loop) == (s.order + Unstamped(s.loop)) + [s.off];
      AscendingSnoc(s.order + Unstamped(s.loop), s.off);
    } else {
      assert s'.loop.Return? ==> s.order + Unstamped(s.loop) == s.order == s'.order + Unstamped(s'.loop);
    }
  }

  lemma StampStamped(s: State, s': State)
    requires Stamped(s) && s.loop.Stamping? && LoopStep(s, s')
    ensures Stamped(s')
  {
    assert s'.order + Unstamped(s'.loop) == s.order + Unstamped(s.loop);
    assert s'.workers == s.workers && s'.parked == s.parked && s'.unsorted == s.unsorted && s'.off == s.off;
    forall w | 0 <= w < |s.workers| ensures Numbered(s'.order, s.workers[w].jobs, s.workers[w].stamp.seqNo) {
      NumberedMore(s.order, s.loop.buf, s.workers[w].jobs, s.workers[w].stamp.seqNo);
    }
    forall b | b in s.parked ensures Numbered(s'.order, b.jobs, b.stamp.seqNo) {
      NumberedMore(s.order, s.loop.buf, b.jobs, b.stamp.seqNo);
    }
  }

  lemma NumberedMore(order: seq<Job>, more: seq<Job>, jobs: seq<Job>, n: nat)
    requires Numbered(order, jobs, n)
    ensures Numbered(order + more, jobs, n)
  {
  }

  /** The remaining loop steps leave what is numbered alone. */
  lemma LoopRest(s: State, s': State)
    requires LoopStep(s, s') && !s.loop.Filling? && !s.loop.Stamping? && (s.loop.Unparking? ==> s.parked == [])
    ensures s'.dispatched == s.dispatched && s'.order == s.order && s'.off == s.off && s'.parked == s.parked
    ensures s'.unsorted == s.unsorted && Unstamped(s'.loop) == Unstamped(s.loop)
    ensures s'.loop.TrimUnparked? || s'.loop.Sending? ==>
      s.loop.TrimUnparked? && s'.loop.buf == s.loop.buf && s'.loop.stamp == s.loop.stamp
    ensures s'.workers == s.workers
         || (s.loop.Sending? && s'.workers == s.workers + [Worker(s.loop.buf, 0, s.loop.stamp, StaleCheck)])
  {
  }

  lemma LoopStamped(s: State, s': State)
    requires Inv(s) && Stamped(s) && LoopStep(s, s')
    ensures Stamped(s')
  {
    if s.loop.Filling? {
      FillStamped(s, s');
    } else if s.loop.Stamping? {
      StampStamped(s, s');
    } else if s.loop.Unparking? && s.parked != [] {
      UnparkEarliest(s, s.loop.k, s');
      assert s'.order + Unstamped(s'.loop) == s.order + Unstamped(s.loop);
    } else {
      LoopRest(s, s');
    }
  }

  lemma WorkerStamped(s: State, w: nat, s': State)
    requires Inv(s) && Stamped(s) && w < |s.workers| && WorkerStep(s, w, s')
    ensures Stamped(s')
  {
    WorkerPlain(s, w, s');
    WorkerNumbers(s, w, s');
    StampedFrame(s, s');
  }

  /** A worker keeps its jobs and stamp; a rest it parks carries the numbers it had. */
  lemma WorkerNumbers(s: State, w: nat, s': State)
    requires w < |s.workers| && WorkerShape(s.workers[w]) && WorkerStep(s, w, s')
    ensures |s'.workers| == |s.workers| && s'.dispatched == s.dispatched && s'.order == s.order
    ensures s'.purges == s.purges && s'.gen == s.gen
    ensures s'.workers[w].jobs == s.workers[w].jobs && s'.workers[w].stamp == s.workers[w].stamp
    ensures s'.halts == s.halts && s'.waiters == s.waiters
    ensures
      || (s'.parked == s.parked && s'.unsorted == s.unsorted)
      || (var x := s.workers[w];
          x.at.ParkAppend? && s'.unsorted && Rest(s'.workers[w]) == []
          && s'.parked == s.parked + [Batch(x.jobs[x.i..], x.stamp.(seqNo := x.stamp.seqNo + x.i))])
  {
  }

  // ---------------------------------------------------------------- one worker at a time: jobs start in enqueue order

  function NotStarted(x: Worker): seq<Job>
  {
    if x.at.RunJob? && x.i < |x.jobs| then x.jobs[x.i + 1..] else Rest(x)
  }

  /** What has started lies before everything that has not; what a batch still has to start, and
      what the loop took from the park, lies before what is parked; the loop fills from the queue
      only with an empty park. */
  ghost predicate InOrder(s: State)
  {
    && Ascending(s.started)
    && AllBelow(s.started, s.off)
    && AllBefore(s.started, AllJobs(s.parked))
    && AllBefore(s.started, Buf(s.loop))
    && AllBefore(Buf(s.loop), AllJobs(s.parked))
    && (Unstamped(s.loop) != [] || s.loop.Filling? ==> s.parked == [])
    && (forall w :: 0 <= w < |s.workers| ==> AllBefore(s.started, NotStarted(s.workers[w])))
    && (forall w :: 0 <= w < |s.workers| ==> AllBefore(NotStarted(s.workers[w]), AllJobs(s.parked)))
  }

  lemma {:induction false} ServingCounts(workers: seq<Worker>, w: nat)
    requires w < |workers| && Serving(workers[w])
    ensures BusyCount(workers) >= 1
    ensures forall u :: 0 <= u < |workers| && u != w && Serving(workers[u]) ==> BusyCount(workers) >= 2
  {
    if w == 0 {
      forall u | 0 < u < |workers| && Serving(workers[u]) ensures BusyCount(workers) >= 2 {
        ServingCounts(workers[1..], u - 1);
      }
    } else {
      ServingCounts(workers[1..], w - 1);
    }
  }

  /** With a limit that was never above 1, whoever is busy is alone. */
  lemma Alone(s: State)
    requires Shape(s) && Counters(s) && s.peak == 1
    ensures LoopBusy(s.loop) ==> forall w :: 0 <= w < |s.workers| ==>
      NotStarted(s.workers[w]) == [] && !Parking(s.workers[w])
    ensures forall w, u :: 0 <= w < |s.workers| && 0 <= u < |s.workers| && u != w && Serving(s.workers[w]) ==>
      NotStarted(s.workers[u]) == []
    ensures forall w :: 0 <= w < |s.workers| && Serving(s.workers[w]) ==> Buf(s.loop) == []
  {
    forall w | 0 <= w < |s.workers| && Serving(s.workers[w])
      ensures !LoopBusy(s.loop) && forall u :: 0 <= u < |s.workers| && u != w ==> !Serving(s.workers[u])
    {
      ServingCounts(s.workers, w);
    }
  }

  lemma UnparkMembers(s: State, k: nat, s': State)
    requires s.parked != [] && s.loop == Unparking(k) && k > 0 && Unpark(s, k, s') && forall b :: b in s.parked ==>
      |b.jobs| > 0
    ensures forall j :: j in Buf(s'.loop) || j in AllJobs(s'.parked) ==> j in AllJobs(s.parked)
  {
    forall j | j in Buf(s'.loop) || j in AllJobs(s'.parked) ensures j in AllJobs(s.parked) {
      UnparkConserves(s, k, s', j);
      TimesIn(Buf(s'.loop), j);
      TimesIn(AllJobs(s'.parked), j);
      TimesIn(AllJobs(s.parked), j);
    }
  }

  lemma UnparkInOrder(s: State, s': State)
    requires Inv(s) && Stamped(s) && s.peak == 1 && InOrder(s) && s.loop.Unparking? && s.parked != [] && LoopStep(s, s')
    ensures InOrder(s')
  {
    Alone(s);
    UnparkEarliest(s, s.loop.k, s');
    UnparkMembers(s, s.loop.k, s');
  }

  lemma FillInOrder(s: State, s': State)
    requires Stamped(s) && InOrder(s) && s.loop.Filling? && LoopStep(s, s')
    ensures InOrder(s')
  {
  }

  /** With nothing parked and nobody about to park, an empty counter means an empty park. */
  lemma EmptyPark(s: State)
    requires Shape(s) && Counters(s) && s.nParked <= 0
    requires forall w :: 0 <= w < |s.workers| ==> !Parking(s.workers[w])
    ensures s.parked == []
  {
  }

  lemma LoopInOrder(s: State, s': State)
    requires Inv(s) && Stamped(s) && s.peak == 1 && InOrder(s) && LoopStep(s, s')
    ensures InOrder(s')
  {
    Alone(s);
    if s.loop.Filling? {
      FillInOrder(s, s');
    } else if s.loop.Unparking? && s.parked != [] {
      UnparkInOrder(s, s');
    } else {
      if s.loop.Granted? && s.nParked <= 0 {
        EmptyPark(s);
      }
      RestInOrder(s, s');
    }
  }

  lemma RestInOrder(s: State, s': State)
    requires InOrder(s) && LoopShape(s.loop) && LoopStep(s, s') && !s.loop.Filling?
    requires (s.loop.Unparking? ==> s.parked == [])
    requires s.loop.Granted? && s.nParked <= 0 ==> s.parked == []
    ensures InOrder(s')
  {
    LoopHistory(s, s');
    if s.loop.Stamping? {
      StampInOrder(s, s');
    } else {
      LoopRest(s, s');
      QuietInOrder(s, s');
    }
  }

  lemma StampInOrder(s: State, s': State)
    requires InOrder(s) && LoopShape(s.loop) && LoopStep(s, s') && s.loop.Stamping?
    ensures InOrder(s')
  {
    assert s'.workers == s.workers && s'.parked == s.parked && s'.off == s.off && s'.started == s.started;
    assert Buf(s'.loop) == Buf(s.loop) && Unstamped(s'.loop) == [];
  }

  /** The loop keeps what it holds, or hands it to a new worker. */
  lemma QuietInOrder(s: State, s': State)
    requires InOrder(s) && s'.started == s.started && s'.off == s.off && s'.parked == s.parked
    requires Unstamped(s'.loop) == Unstamped(s.loop) && (s'.loop.Filling? ==> s.parked == [])
    requires Buf(s'.loop) == Buf(s.loop) || Buf(s'.loop) == []
    requires || s'.workers == s.workers
             || exists stamp :: s'.workers == s.workers + [Worker(Buf(s.loop), 0, stamp, StaleCheck)]
    ensures InOrder(s')
  {
    forall w | 0 <= w < |s'.workers|
      ensures AllBefore(s.started, NotStarted(s'.workers[w])) && AllBefore(NotStarted(s'.workers[w]), AllJobs(s.parked))
    {
      if w == |s.workers| {
        assert NotStarted(s'.workers[w]) == Buf(s.loop);
      }
    }
  }

  /** The front of a batch comes before the rest of it, and before everything still queued. */
  lemma FrontIsFirst(s: State, w: nat)
    requires Stamped(s) && w < |s.workers| && WorkerShape(s.workers[w]) && s.workers[w].at.StartJob?
    ensures var x := s.workers[w];
      x.jobs[x.i] < s.off && AllBefore([x.jobs[x.i]], x.jobs[x.i + 1..])
  {
    var x := s.workers[w];
    var whole := s.order + Unstamped(s.loop);
    assert whole[x.stamp.seqNo + x.i] == x.jobs[x.i] && x.jobs[x.i] in whole;
    var later := x.jobs[x.i + 1..];
    forall y | y in later ensures x.jobs[x.i] < y {
      var i :| x.i < i < |x.jobs| && x.jobs[i] == y;
      assert whole[x.stamp.seqNo + i] == y;
    }
  }

  lemma StartInOrder(s: State, w: nat, s': State)
    requires Inv(s) && Stamped(s) && s.peak == 1 && InOrder(s) && w < |s.workers| && WorkerShape(s.workers[w])
    requires s.workers[w].at.StartJob? && s'.started == s.started + [s.workers[w].jobs[s.workers[w].i]]
    requires s'.workers == s.workers[w := s.workers[w].(at := RunJob)] && s'.off == s.off && s'.loop == s.loop
    requires s'.parked == s.parked
    ensures InOrder(s')
  {
    Alone(s);
    FrontIsFirst(s, w);
    StartKeepsOrder(s, w, s');
  }

  lemma StartKeepsOrder(s: State, w: nat, s': State)
    requires InOrder(s) && w < |s.workers| && s.workers[w].i < |s.workers[w].jobs| && s.workers[w].at.StartJob?
    requires Buf(s.loop) == []
    requires forall u :: 0 <= u < |s.workers| && u != w ==> NotStarted(s.workers[u]) == []
    requires var x := s.workers[w];
      && x.jobs[x.i] < s.off && AllBefore([x.jobs[x.i]], x.jobs[x.i + 1..])
      && s'.started == s.started + [x.jobs[x.i]] && s'.workers == s.workers[w := x.(at := RunJob)]
      && s'.off == s.off && s'.loop == s.loop && s'.parked == s.parked
    ensures InOrder(s')
  {
    var x, x' := s.workers[w], s'.workers[w];
    var j := x.jobs[x.i];
    assert NotStarted(x) == [j] + NotStarted(x');
    assert j in NotStarted(x) && j in [j];
    AscendingMore(s.started, j);
    BeforeMore(s.started, j, AllJobs(s.parked));
    BeforeMore(s.started, j, NotStarted(x'));
    forall u | 0 <= u < |s'.workers|
      ensures AllBefore(s'.started, NotStarted(s'.workers[u]))
      ensures AllBefore(NotStarted(s'.workers[u]), AllJobs(s'.parked))
    {
      if u == w {
        assert AllBefore(NotStarted(x), AllJobs(s.parked));
        assert forall y :: y in NotStarted(x') ==> y in NotStarted(x);
      } else {
        assert NotStarted(s'.workers[u]) == NotStarted(s.workers[u]) == [];
      }
    }
  }

  lemma BeforeMore(a: seq<Job>, j: Job, b: seq<Job>)
    requires AllBefore(a, b) && forall y :: y in b ==> j < y
    ensures AllBefore(a + [j], b)
  {
  }

  lemma AscendingMore(jobs: seq<Job>, j: Job)
    requires Ascending(jobs) && AllBefore(jobs, [j])
    ensures Ascending(jobs + [j])
  {
    assert j in [j];
    assert forall a :: 0 <= a < |jobs| ==> jobs[a] in jobs;
  }

  lemma ParkInOrder(s: State, w: nat, s': State)
    requires Inv(s) && s.peak == 1 && InOrder(s) && w < |s.workers| && s.workers[w].at.ParkAppend?
    requires WorkerStep(s, w, s')
    ensures InOrder(s')
  {
    Alone(s);
    var x := s.workers[w];
    var b := Batch(x.jobs[x.i..], x.stamp.(seqNo := x.stamp.seqNo + x.i));
    AllJobsConcat(s.parked, [b]);
    AllJobsOne(b);
    assert b.jobs == NotStarted(x);
    assert NotStarted(s'.workers[w]) == [];
  }

  lemma WorkerInOrder(s: State, w: nat, s': State)
    requires Inv(s) && Stamped(s) && s.peak == 1 && InOrder(s) && w < |s.workers| && WorkerStep(s, w, s')
    ensures InOrder(s')
  {
    WorkerPlain(s, w, s');
    WorkerNumbers(s, w, s');
    WorkerHistory(s, w, s');
    if s.workers[w].at.ParkAppend? {
      ParkInOrder(s, w, s');
    } else if s'.started != s.started {
      StartInOrder(s, w, s');
    } else {
      PositionGrows(s, w, s');
      WorkerShrinks(s.workers[w], s'.workers[w]);
      ShrinkInOrder(s, w, s');
    }
  }

  /** How many jobs of the batch are started or gone. */
  function Position(x: Worker): nat
  {
    x.i + One(x.at.RunJob?)
  }

  lemma PositionGrows(s: State, w: nat, s': State)
    requires w < |s.workers| && WorkerShape(s.workers[w]) && WorkerStep(s, w, s')
    ensures |s'.workers| == |s.workers| && WorkerShape(s'.workers[w])
    ensures s'.workers[w].jobs == s.workers[w].jobs && Position(s.workers[w]) <= Position(s'.workers[w])
  {
  }

  /** Apart from parking, a worker only has fewer jobs to start. */
  lemma WorkerShrinks(x: Worker, x': Worker)
    requires WorkerShape(x) && WorkerShape(x') && x'.jobs == x.jobs && Position(x) <= Position(x')
    ensures forall y :: y in NotStarted(x') ==> y in NotStarted(x)
  {
    assert NotStarted(x) == x.jobs[Position(x)..] && NotStarted(x') == x.jobs[Position(x')..];
    assert forall i :: 0 <= i < |NotStarted(x')| ==> NotStarted(x)[Position(x') - Position(x) + i] == NotStarted(x')[i];
  }

  lemma ShrinkInOrder(s: State, w: nat, s': State)
    requires InOrder(s) && w < |s.workers| == |s'.workers| && s'.workers == s.workers[w := s'.workers[w]]
    requires s'.started == s.started && s'.off == s.off && s'.loop == s.loop && s'.parked == s.parked
    requires forall y :: y in NotStarted(s'.workers[w]) ==> y in NotStarted(s.workers[w])
    ensures InOrder(s')
  {
  }

  lemma PurgeInOrder(s: State, k: nat, s': State)
    requires Inv(s) && InOrder(s) && k < |s.purges| && PurgeStep(s, k, s')
    ensures InOrder(s')
  {
  }

  // ---------------------------------------------------------------- every run

  ghost predicate OrderInv(s: State)
  {
    FullInv(s) && Stamped(s) && (s.peak == 1 ==> InOrder(s))
  }

  lemma NextOrder(s: State, s': State)
    requires OrderInv(s) && Next(s, s')
    ensures OrderInv(s')
  {
    NextFull(s, s');
    if LoopStep(s, s') {
      LoopStamped(s, s');
      LoopPeak(s, s');
      if s.peak == 1 {
        LoopInOrder(s, s');
      }
    } else if w: nat :| WorkerActs(s, w, s') {
      WorkerStamped(s, w, s');
      WorkerPlain(s, w, s');
      if s.peak == 1 {
        WorkerInOrder(s, w, s');
      }
    } else if k: nat :| PurgeActs(s, k, s') {
      StampedFrame(s, s');
      if s.peak == 1 {
        PurgeInOrder(s, k, s');
      }
    } else {
      OutsideFrame(s, s');
      StampedFrame(s, s');
    }
  }

  lemma LoopPeak(s: State, s': State)
    requires LoopStep(s, s')
    ensures s'.peak == s.peak
  {
  }

  lemma RunOrdered(run: seq<State>)
    requires IsRun(Init, Next, run)
    ensures forall i :: 0 <= i < |run| ==> OrderInv(run[i])
  {
    assert Inductive(Init, Next, OrderInv) by {
      forall s | Init(s) ensures OrderInv(s) {
        InitOrder(s);
      }
      forall s, s' | OrderInv(s) && Next(s, s') ensures OrderInv(s') {
        NextOrder(s, s');
      }
    }
    Invariance(Init, Next, OrderInv, run);
  }

  lemma InitOrder(s: State)
    requires Init(s)
    ensures OrderInv(s)
  {
    InitFull(s);
    assert s.order + Unstamped(s.loop) == [] && AllJobs(s.parked) == [] && Buf(s.loop) == [];
  }

  /** In every run of a worker whose concurrency limit was never above 1, jobs start in the order they were enqueued,
      across any number of pauses, resumes, stops and restarts, purges and closed jobs. */
  lemma StartsInEnqueueOrder(run: seq<State>, i: nat)
    requires IsRun(Init, Next, run) && i < |run| && run[i].peak == 1
    ensures Ascending(run[i].started)
    ensures forall j, k :: j in run[i].started && k in AllJobs(run[i].parked) ==> j < k
    ensures forall j :: j in run[i].started ==> j < run[i].off
  {
    RunOrdered(run);
  }

  /** In every run, whatever the concurrency: parked batches carry disjoint ranges of dispatch
      numbers, and a step that takes parked jobs takes the earliest of them. */
  lemma UnparksInDispatchOrder(run: seq<State>, i: nat)
    requires IsRun(Init, Next, run) && i + 1 < |run|
    ensures forall b :: b in run[i].parked ==> Numbered(run[i].order, b.jobs, b.stamp.seqNo)
    ensures SeqSorted(Sorted(run[i]))
    ensures forall p, q :: 0 <= p < q < |Sorted(run[i])| ==>
      Sorted(run[i])[p].stamp.seqNo + |Sorted(run[i])[p].jobs| <= Sorted(run[i])[q].stamp.seqNo
    ensures run[i].loop.Unparking? && run[i + 1].loop.TrimUnparked? ==>
      AllBefore(run[i + 1].loop.buf, AllJobs(run[i + 1].parked))
  {
    RunOrdered(run);
    var s, s' := run[i], run[i + 1];
    SortedFacts(s);
    forall p, q | 0 <= p < q < |Sorted(s)|
      ensures Sorted(s)[p].stamp.seqNo + |Sorted(s)[p].jobs| <= Sorted(s)[q].stamp.seqNo
    {
      assert Sorted(s)[p] in s.parked && Sorted(s)[q] in s.parked;
      RangesDisjoint(s.order, Sorted(s), p, q);
    }
    NextAt(Init, Next, run, i);
    TakesEarliest(s, s');
  }

  lemma TakesEarliest(s: State, s': State)
    requires Inv(s) && Stamped(s) && Next(s, s')
    ensures s.loop.Unparking? && s'.loop.TrimUnparked? ==> AllBefore(s'.loop.buf, AllJobs(s'.parked))
  {
    if s.loop.Unparking? && s'.loop.TrimUnparked? {
      OnlyLoopMovesLoop(s, s');
      UnparkEarliest(s, s.loop.k, s');
    }
  }

  lemma OnlyLoopMovesLoop(s: State, s': State)
    requires Next(s, s') && s'.loop != s.loop && forall w :: 0 <= w < |s.workers| ==> WorkerShape(s.workers[w])
    ensures LoopStep(s, s')
  {
    if !LoopStep(s, s') {
      if w: nat :| WorkerActs(s, w, s') {
        WorkerPlain(s, w, s');
      }
    }
  }

  /** In every run, whatever the concurrency: a loop that goes to the queue while the worker is
      active found nothing parked. */
  lemma QueueOnlyWhenParkEmpty(run: seq<State>, i: nat)
    requires IsRun(Init, Next, run) && i + 1 < |run|
    requires !run[i].loop.Filling? && run[i + 1].loop.Filling? && run[i].phase.Active?
    ensures run[i].parked == []
  {
    RunOrdered(run);
    var s, s' := run[i], run[i + 1];
    NextAt(Init, Next, run, i);
    OnlyLoopMovesLoop(s, s');
    if s.loop.Granted? {
      EmptyPark(s);
    }
  }

  // ---------------------------------------------------------------- more than one worker at a time

  ghost predicate Reach(s: State)
  {
    Reachable(Init, Next, s)
  }

  lemma Step(s: State, s': State)
    requires Reach(s) && Next(s, s')
    ensures Reach(s')
  {
    ReachableNext(Init, Next, s, s');
  }

  lemma LoopGoes(s: State, s': State)
    requires Reach(s) && LoopStep(s, s')
    ensures Reach(s')
  {
    Step(s, s');
  }

  lemma WorkStep(s: State, s': State)
    requires Reach(s) && WorkerActs(s, 0, s')
    ensures Reach(s')
  {
    Step(s, s');
  }

  /** Three jobs are queued and the loop has been granted room for two. */
  lemma Overtaking1(peak: nat) returns (s: State)
    requires peak > 1
    ensures Reach(s)
    ensures s == State(peak, peak, Active, 0, 3, 0, 0, 1, 2, [], false, 0, Free, {}, [], [], [], 0, Granted(2),
                        [], [], [])
  {
    s := State(peak, peak, Halted, 0, 0, 0, 0, 0, 0, [], false, 0, Free, {}, [], [], [], 0, Waiting, [], [], []);
    ReachableInit(Init, Next, s);
    var s1 := s.(phase := Active);
    assert MovePhase(s, s1);
    Step(s, s1);
    var s2 := s1.(head := 1);
    Step(s1, s2);
    var s3 := s2.(head := 2);
    Step(s2, s3);
    var s4 := s3.(head := 3);
    Step(s3, s4);
    var a := s4.(loop := Admitted);
    Step(s4, a);
    var s5 := a.(loop := Busy(2), busy := 1);
    Step(a, s5);
    var s6 := s5.(loop := Counted(2), processing := 2);
    Step(s5, s6);
    s := s6.(loop := Granted(2));
    Step(s6, s);
  }

  /** The first two are on their way to a worker. */
  lemma Overtaking2(s: State) returns (s': State)
    requires Reach(s) && s.conc == s.peak > 1
    requires s == State(s.peak, s.peak, Active, 0, 3, 0, 0, 1, 2, [], false, 0, Free, {}, [], [], [], 0, Granted(2),
                        [], [], [])
    ensures Reach(s')
    ensures s' == State(s.peak, s.peak, Active, 2, 3, 0, 2, 1, 2, [], false, 0, Free, {}, [], [], [0, 1], 0, Waiting,
                        [Worker([0, 1], 0, Stamp(0, 0), StaleCheck)], [], [])
  {
    var s1 := s.(loop := Filling(2, []));
    LoopGoes(s, s1);
    var s2 := s1.(loop := Filling(2, s1.loop.buf + [0]), off := 1);
    LoopGoes(s1, s2);
    var s3 := s2.(loop := Filling(2, s2.loop.buf + [1]), off := 2);
    LoopGoes(s2, s3);
    assert s3.loop.buf == [0, 1];
    var s4 := s3.(loop := TrimFilled(0, [0, 1]));
    LoopGoes(s3, s4);
    var s5 := s4.(loop := Stamping([0, 1]));
    LoopGoes(s4, s5);
    var s6 := s5.(loop := Sending([0, 1], Stamp(0, 0)), dispatched := 2, order := s5.order + [0, 1]);
    LoopGoes(s5, s6);
    assert s6.order == [0, 1];
    s' := s6.(loop := Waiting, workers := s6.workers + [Worker([0, 1], 0, Stamp(0, 0), StaleCheck)]);
    LoopGoes(s6, s');
  }

  /** The loop is granted room for one more. */
  lemma Overtaking3(s: State) returns (s': State)
    requires Reach(s) && s.conc == s.peak > 1
    requires s == State(s.peak, s.peak, Active, 2, 3, 0, 2, 1, 2, [], false, 0, Free, {}, [], [], [0, 1], 0, Waiting,
                        [Worker([0, 1], 0, Stamp(0, 0), StaleCheck)], [], [])
    ensures Reach(s') && s' == s.(loop := Granted(1), busy := 2, processing := 3)
  {
    var s1 := s.(loop := Admitted);
    LoopGoes(s, s1);
    var s2 := s1.(loop := Busy(1), busy := 2);
    LoopGoes(s1, s2);
    var s3 := s2.(loop := Counted(1), processing := 3);
    LoopGoes(s2, s3);
    s' := s3.(loop := Granted(1));
    LoopGoes(s3, s');
  }

  /** The worker runs its first job. */
  lemma Overtaking4(s: State) returns (s': State)
    requires Reach(s) && s.conc == s.peak > 1
    requires s == State(s.peak, s.peak, Active, 2, 3, 0, 2, 2, 3, [], false, 0, Free, {}, [], [], [0, 1], 0,
                        Granted(1), [Worker([0, 1], 0, Stamp(0, 0), StaleCheck)], [], [])
    ensures Reach(s')
    ensures s' == State(s.peak, s.peak, Active, 2, 3, 0, 2, 2, 3, [], false, 0, Free, {0}, [0], [0], [0, 1], 0,
                        Granted(1), [Worker([0, 1], 1, Stamp(0, 0), HaltCheck)], [], [])
  {
    var x := s.workers[0];
    var s1 := s.(workers := s.workers[0 := x.(at := HaltCheck)]);
    WorkStep(s, s1);
    var s2 := s1.(workers := s1.workers[0 := x.(at := StartJob)]);
    WorkStep(s1, s2);
    var s3 := s2.(workers := s2.workers[0 := x.(at := RunJob)], started := [] + [0]);
    WorkStep(s2, s3);
    var s4 := s3.(workers := s3.workers[0 := x.(i := 1)], closed := {} + (set j | j in [0]), gone := [] + [0]);
    WorkStep(s3, s4);
    s' := s4.(workers := s4.workers[0 := x.(i := 1, at := HaltCheck)]);
    WorkStep(s4, s');
    assert (set j | j in [0]) == {0};
  }

  /** The worker is paused; the batch parks its rest, and the loop goes to the queue all the same. */
  lemma Overtaking5(s: State) returns (s': State)
    requires Reach(s) && s.conc == s.peak > 1
    requires s == State(s.peak, s.peak, Active, 2, 3, 0, 2, 2, 3, [], false, 0, Free, {0}, [0], [0], [0, 1], 0,
                        Granted(1), [Worker([0, 1], 1, Stamp(0, 0), HaltCheck)], [], [])
    ensures Reach(s') && s'.peak == s.peak && s'.loop.Filling? && s'.parked != []
  {
    var x := s.workers[0];
    var s1 := s.(phase := Draining, halts := 1);
    assert MovePhase(s, s1);
    Step(s, s1);
    var s2 := s1.(workers := s1.workers[0 := x.(at := ParkLock)]);
    WorkStep(s1, s2);
    var s3 := s2.(parkMx := HeldBy(0), workers := s2.workers[0 := x.(at := ParkAppend)]);
    WorkStep(s2, s3);
    var s4 := s3.(parked := [] + [Batch(x.jobs[1..], Stamp(0, 1))], unsorted := true,
                  workers := s3.workers[0 := x.(i := 2, at := ParkCount(1))]);
    WorkStep(s3, s4);
    s' := s4.(loop := Filling(1, []));
    Step(s4, s');
  }

  /** The loop fills from the queue only while nothing is parked, in all runs whose highest
      concurrency limit is peak, exactly when peak is 1: with more, a batch granted before a pause
      may be filled while another batch parks its rest. */
  lemma QueueBehindParkIffAlone(peak: nat)
    requires peak > 0
    ensures peak == 1 <==> forall s :: Reach(s) && s.peak == peak && s.loop.Filling? ==> s.parked == []
  {
    if peak == 1 {
      forall s | Reach(s) && s.peak == peak && s.loop.Filling? ensures s.parked == [] {
        var run :| IsRun(Init, Next, run) && run[|run| - 1] == s;
        RunOrdered(run);
      }
    } else {
      var s := Overtaking1(peak);
      s := Overtaking2(s);
      s := Overtaking3(s);
      s := Overtaking4(s);
      s := Overtaking5(s);
    }
  }
}
