/** Every accepted job is in exactly one place, the counters are exact, and parking happens only
    while the worker drains. */
module DispatchConservation {
  import opened Basics
  import opened Runs
  import opened Phases
  import opened Dispatcher

  // ---------------------------------------------------------------- sums over workers and purges

  /** What a batch still holds; the front is the running job while RunJob. */
  function Rest(x: Worker): seq<Job>
  {
    if x.i <= |x.jobs| then x.jobs[x.i..] else []
  }

  /** How often j is in a sequence. */
  function Times(jobs: seq<Job>, j: Job): nat
  {
    if jobs == [] then 0 else (if jobs[0] == j then 1 else 0) + Times(jobs[1..], j)
  }

  lemma {:induction false} TimesConcat(a: seq<Job>, b: seq<Job>, j: Job)
    ensures Times(a + b, j) == Times(a, j) + Times(b, j)
  {
    if a == [] {
      assert a + b == b;
    } else {
      assert (a + b)[1..] == a[1..] + b;
      TimesConcat(a[1..], b, j);
    }
  }

  lemma {:induction false} TimesIn(jobs: seq<Job>, j: Job)
    ensures Times(jobs, j) > 0 <==> j in jobs
  {
    if jobs != [] {
      assert jobs == [jobs[0]] + jobs[1..];
      TimesIn(jobs[1..], j);
    }
  }

  /** How often j is in a batch. */
  function InHand(workers: seq<Worker>, j: Job): nat
  {
    if workers == [] then 0 else Times(Rest(workers[0]), j) + InHand(workers[1..], j)
  }

  predicate Serving(x: Worker)
  {
    !x.at.Finish? && !x.at.Done?
  }

  function BusyCount(workers: seq<Worker>): nat
  {
    if workers == [] then 0 else (if Serving(workers[0]) then 1 else 0) + BusyCount(workers[1..])
  }

  function BatchSize(x: Worker): nat
  {
    if x.at.Done? then 0 else |x.jobs|
  }

  lemma {:induction false} WorkerMoves(workers: seq<Worker>, w: nat, x: Worker)
    requires w < |workers|
    ensures BusyCount(workers[w := x])
         == BusyCount(workers) - (if Serving(workers[w]) then 1 else 0) + (if Serving(x) then 1 else 0)
    ensures InBatches(workers[w := x]) == InBatches(workers) - BatchSize(workers[w]) + BatchSize(x)
    ensures InBatches(workers) >= BatchSize(workers[w])
  {
    if w == 0 {
      assert workers[w := x][1..] == workers[1..];
    } else {
      assert workers[w := x][1..] == workers[1..][w - 1 := x];
      WorkerMoves(workers[1..], w - 1, x);
    }
  }

  lemma {:induction false} HandMoves(workers: seq<Worker>, w: nat, x: Worker, j: Job)
    requires w < |workers|
    ensures InHand(workers[w := x], j) == InHand(workers, j) - Times(Rest(workers[w]), j) + Times(Rest(x), j)
    ensures InHand(workers, j) >= Times(Rest(workers[w]), j)
  {
    if w == 0 {
      assert workers[w := x][1..] == workers[1..];
    } else {
      assert workers[w := x][1..] == workers[1..][w - 1 := x];
      HandMoves(workers[1..], w - 1, x, j);
    }
  }

  lemma {:induction false} WorkerJoins(workers: seq<Worker>, x: Worker, j: Job)
    ensures InHand(workers + [x], j) == InHand(workers, j) + Times(Rest(x), j)
    ensures BusyCount(workers + [x]) == BusyCount(workers) + (if Serving(x) then 1 else 0)
    ensures InBatches(workers + [x]) == InBatches(workers) + BatchSize(x)
  {
    if workers == [] {
      assert workers + [x] == [x];
    } else {
      assert (workers + [x])[1..] == workers[1..] + [x];
      WorkerJoins(workers[1..], x, j);
    }
  }

  function TakenBy(p: PurgeAt): seq<Job>
  {
    if p.Taken? then p.jobs else []
  }

  /** How often j is in the hands of a Purge. */
  function InPurge(purges: seq<PurgeAt>, j: Job): nat
  {
    if purges == [] then 0 else Times(TakenBy(purges[0]), j) + InPurge(purges[1..], j)
  }

  lemma {:induction false} PurgeMoves(purges: seq<PurgeAt>, k: nat, p: PurgeAt, j: Job)
    requires k < |purges|
    ensures InPurge(purges[k := p], j) == InPurge(purges, j) - Times(TakenBy(purges[k]), j) + Times(TakenBy(p), j)
  {
    if k == 0 {
      assert purges[k := p][1..] == purges[1..];
    } else {
      assert purges[k := p][1..] == purges[1..][k - 1 := p];
      PurgeMoves(purges[1..], k - 1, p, j);
    }
  }

  lemma {:induction false} PurgeJoins(purges: seq<PurgeAt>, j: Job)
    ensures InPurge(purges + [Bumped], j) == InPurge(purges, j)
  {
    if purges == [] {
      assert purges + [Bumped] == [Bumped];
    } else {
      assert (purges + [Bumped])[1..] == purges[1..] + [Bumped];
      PurgeJoins(purges[1..], j);
    }
  }

  // ---------------------------------------------------------------- parked batches

  lemma {:induction false} AllJobsConcat(a: seq<Batch>, b: seq<Batch>)
    ensures AllJobs(a + b) == AllJobs(a) + AllJobs(b)
  {
    if a == [] {
      assert a + b == b;
    } else {
      assert (a + b)[1..] == a[1..] + b;
      AllJobsConcat(a[1..], b);
    }
  }

  lemma AllJobsOne(b: Batch)
    ensures AllJobs([b]) == b.jobs
  {
    assert [b][1..] == [];
  }

  lemma {:induction false} InsertKeeps(b: Batch, sorted: seq<Batch>, j: Job)
    ensures Times(AllJobs(Insert(b, sorted, SeqNoOf)), j) == Times(b.jobs, j) + Times(AllJobs(sorted), j)
    ensures |AllJobs(Insert(b, sorted, SeqNoOf))| == |b.jobs| + |AllJobs(sorted)|
    ensures |Insert(b, sorted, SeqNoOf)| == 1 + |sorted|
  {
    if sorted == [] || b.stamp.seqNo <= sorted[0].stamp.seqNo {
      assert ([b] + sorted)[1..] == sorted;
      TimesConcat(b.jobs, AllJobs(sorted), j);
    } else {
      InsertKeeps(b, sorted[1..], j);
      assert ([sorted[0]] + Insert(b, sorted[1..], SeqNoOf))[1..] == Insert(b, sorted[1..], SeqNoOf);
      TimesConcat(sorted[0].jobs, AllJobs(sorted[1..]), j);
      TimesConcat(sorted[0].jobs, AllJobs(Insert(b, sorted[1..], SeqNoOf)), j);
    }
  }

  /** Sorting keeps the batches and their jobs. */
  lemma {:induction false} SortKeeps(batches: seq<Batch>, j: Job)
    ensures Times(AllJobs(SortBySeq(batches)), j) == Times(AllJobs(batches), j)
    ensures |AllJobs(SortBySeq(batches))| == |AllJobs(batches)|
    ensures |SortBySeq(batches)| == |batches|
    ensures forall c :: c in SortBySeq(batches) <==> c in batches
  {
    if batches != [] {
      SortKeeps(batches[1..], j);
      InsertKeeps(batches[0], SortBySeq(batches[1..]), j);
      InsertMembers(batches[0], SortBySeq(batches[1..]), SeqNoOf);
      TimesConcat(batches[0].jobs, AllJobs(batches[1..]), j);
      assert batches == [batches[0]] + batches[1..];
    }
  }

  /** The batches unpark looks at. */
  function Sorted(s: State): seq<Batch>
  {
    if s.unsorted then SortBySeq(s.parked) else s.parked
  }

  // ---------------------------------------------------------------- invariant

  function Buf(loop: Loop): seq<Job>
  {
    match loop
    case Filling(_, buf) => buf
    case TrimUnparked(_, buf, _) => buf
    case TrimFilled(_, buf) => buf
    case Stamping(buf) => buf
    case Sending(buf, _) => buf
    case _ => []
  }

  /** Every place a job can be: the queue, the loop's buffer, a batch (waiting or running), the
      park, a Purge that has taken it and not closed it yet, or gone. */
  function Places(s: State, j: Job): nat
  {
    (if s.off <= j < s.head then 1 else 0) + Times(Buf(s.loop), j) + InHand(s.workers, j) + Times(AllJobs(s.parked), j)
    + InPurge(s.purges, j) + Times(s.gone, j)
  }

  predicate LoopShape(loop: Loop)
  {
    match loop
    case Waiting => true
    case Admitted => true
    case Filling(k, buf) => 0 < k && |buf| <= k
    case TrimUnparked(_, buf, _) => |buf| > 0
    case TrimFilled(_, buf) => |buf| > 0
    case Stamping(buf) => |buf| > 0
    case Sending(buf, _) => |buf| > 0
    case _ => loop.k > 0
  }

  predicate WorkerShape(x: Worker)
  {
    && 0 < |x.jobs| && x.i <= |x.jobs|
    && (x.at.HaltCheck? || x.at.StartJob? || x.at.RunJob? || x.at.ParkLock? || x.at.ParkAppend? ==> x.i < |x.jobs|)
    && (x.at.ParkCount? || x.at.FreeNode? || x.at.Finish? || x.at.Done? ==> x.i == |x.jobs|)
  }

  /** Parking a rest: past the halt check, before the park counter is raised. */
  predicate Parking(x: Worker)
  {
    x.at.ParkLock? || x.at.ParkAppend? || x.at.ParkCount?
  }

  ghost predicate Shape(s: State)
  {
    && s.off <= s.head && 0 < s.conc <= s.peak
    && LoopShape(s.loop)
    && (forall w :: 0 <= w < |s.workers| ==> WorkerShape(s.workers[w]))
    && (forall b :: b in s.parked ==> |b.jobs| > 0)
    && (forall w :: 0 <= w < |s.workers| ==>
          (s.parkMx == HeldBy(w) <==> s.workers[w].at.ParkAppend? || s.workers[w].at.ParkCount?))
    && (s.parkMx.HeldBy? ==> s.parkMx.owner < |s.workers|)
  }

  function LoopProcessing(loop: Loop): nat
  {
    match loop
    case Counted(k) => k
    case Return(k, _) => k
    case Uncount(k, _) => k
    case _ => LoopGranted(loop)
  }

  predicate LoopBusy(loop: Loop)
  {
    !loop.Waiting? && !loop.Admitted? && !loop.Uncount?
  }

  /** A batch that is in the list and not in the counter yet. */
  function Uncounted(s: State): nat
  {
    if s.parkMx.HeldBy? && s.parkMx.owner < |s.workers| && s.workers[s.parkMx.owner].at.ParkCount?
    then s.workers[s.parkMx.owner].at.n else 0
  }

  ghost predicate Counters(s: State)
  {
    && s.processing == LoopProcessing(s.loop) + InBatches(s.workers)
    && s.busy == (if LoopBusy(s.loop) then 1 else 0) + BusyCount(s.workers)
    && s.busy + One(s.loop.Admitted?) <= s.peak
    && s.nParked + Uncounted(s) == |AllJobs(s.parked)|
  }

  ghost predicate Phased(s: State)
  {
    && (s.phase.Halted? ==> GrantedCount(s) == 0)
    && (forall w :: 0 <= w < |s.workers| && Parking(s.workers[w]) ==> s.phase.Draining?)
  }

  ghost predicate Conserved(s: State)
  {
    && s.off <= s.head
    && (forall j: Job :: Places(s, j) == if j < s.head then 1 else 0)
    && forall j :: j in s.gone ==> j in s.closed
  }

  ghost predicate Inv(s: State)
  {
    Shape(s) && Counters(s) && Phased(s) && Conserved(s)
  }

  // ---------------------------------------------------------------- conservation

  lemma {:induction false} RangeTimes(a: nat, b: nat, j: Job)
    requires a <= b
    ensures Times(Range(a, b), j) == if a <= j < b then 1 else 0
    decreases b - a
  {
    if a < b {
      assert Range(a, b) == [a] + Range(a + 1, b);
      RangeTimes(a + 1, b, j);
    }
  }

  lemma LoopConserves(s: State, s': State, j: Job)
    requires LoopStep(s, s') && forall b :: b in s.parked ==> |b.jobs| > 0
    requires LoopShape(s.loop)
    ensures Places(s', j) == Places(s, j) && s'.head == s.head
  {
    if s.loop.Sending? {
      WorkerJoins(s.workers, Worker(s.loop.buf, 0, s.loop.stamp, StaleCheck), j);
    } else if s.loop.Filling? {
      FillConserves(s, s.loop.k, s.loop.buf, s', j);
    } else if s.loop.Unparking? && s.parked != [] {
      UnparkConserves(s, s.loop.k, s', j);
    } else {
      BufferStays(s, s');
    }
  }

  lemma BufferStays(s: State, s': State)
    requires LoopStep(s, s') && LoopShape(s.loop) && !s.loop.Sending? && !s.loop.Filling?
    requires (s.loop.Unparking? ==> s.parked == [])
    ensures s'.off == s.off && s'.head == s.head && Buf(s'.loop) == Buf(s.loop) && s'.workers == s.workers
    ensures s'.parked == s.parked && s'.purges == s.purges && s'.gone == s.gone
  {
  }

  lemma FillConserves(s: State, k: nat, buf: seq<Job>, s': State, j: Job)
    requires s.loop == Filling(k, buf) && FillStep(s, k, buf, s')
    ensures Places(s', j) == Places(s, j) && s'.head == s.head
  {
    TimesConcat(buf, [s.off], j);
    TimesConcat(s.gone, [s.off], j);
    assert Times([s.off], j) == if s.off == j then 1 else 0;
  }

  lemma UnparkConserves(s: State, k: nat, s': State, j: Job)
    requires s.parked != [] && s.loop == Unparking(k) && k > 0 && Unpark(s, k, s')
    requires forall b :: b in s.parked ==> |b.jobs| > 0
    ensures Times(Buf(s'.loop), j) + Times(AllJobs(s'.parked), j) == Times(AllJobs(s.parked), j)
    ensures |AllJobs(s'.parked)| + |Buf(s'.loop)| == |AllJobs(s.parked)|
    ensures |Buf(s'.loop)| > 0 && s'.nParked == s.nParked - |Buf(s'.loop)|
  {
    SortKeeps(s.parked, j);
    var batches := Sorted(s);
    var b := batches[0];
    assert b in s.parked;
    var n := |Buf(s'.loop)|;
    TimesConcat(b.jobs, AllJobs(batches[1..]), j);
    if n < |b.jobs| {
      assert s'.parked[1..] == batches[1..];
      assert b.jobs == b.jobs[..n] + b.jobs[n..];
      TimesConcat(b.jobs[..n], b.jobs[n..], j);
      TimesConcat(b.jobs[n..], AllJobs(batches[1..]), j);
    } else {
      assert s'.parked == batches[1..] && b.jobs[..n] == b.jobs;
    }
  }

  lemma LeavesConserves(s: State, w: nat, x': Worker, jobs: seq<Job>, s': State, j: Job)
    requires w < |s.workers| && Leaves(s, w, x', jobs, s') && Rest(s.workers[w]) == jobs + Rest(x')
    ensures Places(s', j) == Places(s, j)
  {
    HandMoves(s.workers, w, x', j);
    TimesConcat(jobs, Rest(x'), j);
    TimesConcat(s.gone, jobs, j);
  }

  lemma AppendKeeps(batches: seq<Batch>, b: Batch, j: Job)
    ensures Times(AllJobs(batches + [b]), j) == Times(AllJobs(batches), j) + Times(b.jobs, j)
  {
    AllJobsConcat(batches, [b]);
    AllJobsOne(b);
    TimesConcat(AllJobs(batches), b.jobs, j);
  }

  lemma ParkConserves(s: State, w: nat, s': State, j: Job)
    requires w < |s.workers| && WorkerShape(s.workers[w]) && s.workers[w].at.ParkAppend? && WorkerStep(s, w, s')
    ensures Places(s', j) == Places(s, j)
  {
    var x := s.workers[w];
    HandMoves(s.workers, w, s'.workers[w], j);
    assert Rest(s'.workers[w]) == [];
    AppendKeeps(s.parked, Batch(Rest(x), x.stamp.(seqNo := x.stamp.seqNo + x.i)), j);
  }

  /** Only the worker's own position moves; no job changes place. */
  ghost predicate StaysPut(s: State, w: nat, s': State)
    requires w < |s.workers|
  {
    && |s'.workers| == |s.workers| && s'.workers == s.workers[w := s'.workers[w]]
    && s'.workers[w].i == s.workers[w].i && s'.workers[w].jobs == s.workers[w].jobs
    && s'.off == s.off && s'.head == s.head && s'.loop == s.loop && s'.parked == s.parked && s'.purges == s.purges
    && s'.gone == s.gone && s'.closed == s.closed
  }

  /** A worker step moves no job, parks a rest, or sees jobs off. */
  lemma WorkerKinds(s: State, w: nat, s': State)
    requires w < |s.workers| && WorkerShape(s.workers[w]) && WorkerStep(s, w, s')
    ensures |s'.workers| == |s.workers| && s'.workers[w].i <= |s'.workers[w].jobs|
    ensures s'.workers[w].jobs == s.workers[w].jobs
    ensures s'.head == s.head && s.workers[w].i <= s'.workers[w].i
    ensures
      || StaysPut(s, w, s')
      || s.workers[w].at.ParkAppend?
      || Leaves(s, w, s'.workers[w], s.workers[w].jobs[s.workers[w].i..s'.workers[w].i], s')
  {
    var x, x' := s.workers[w], s'.workers[w];
    if x.i < |x.jobs| {
      assert x.jobs[x.i..x.i + 1] == [x.jobs[x.i]];
      assert x.jobs[x.i..|x.jobs|] == x.jobs[x.i..];
    }
  }

  lemma WorkerConserves(s: State, w: nat, s': State, j: Job)
    requires w < |s.workers| && WorkerShape(s.workers[w]) && WorkerStep(s, w, s')
    ensures Places(s', j) == Places(s, j) && s'.head == s.head
  {
    WorkerKinds(s, w, s');
    var x, x' := s.workers[w], s'.workers[w];
    if x.at.ParkAppend? {
      ParkConserves(s, w, s', j);
    } else if StaysPut(s, w, s') {
      HandMoves(s.workers, w, x', j);
    } else {
      assert Rest(x) == x.jobs[x.i..x'.i] + Rest(x');
      LeavesConserves(s, w, x', x.jobs[x.i..x'.i], s', j);
    }
  }

  lemma PurgeConserves(s: State, k: nat, s': State, j: Job)
    requires s.off <= s.head && k < |s.purges| && PurgeStep(s, k, s')
    ensures Places(s', j) == Places(s, j) && s'.head == s.head
  {
    PurgeMoves(s.purges, k, s'.purges[k], j);
    match s.purges[k]
    case Bumped => TimesConcat(s.gone, AllJobs(s.parked), j);
    case Dropped => RangeTimes(s.off, s.head, j);
    case Taken(jobs) => TimesConcat(s.gone, jobs, j);
    case Returned(_) =>
  }

  // ---------------------------------------------------------------- shape, counters and phase

  function One(b: bool): nat
  {
    if b then 1 else 0
  }

  /** A loop step other than unpark and the hand-off. */
  ghost predicate PlainStep(s: State, s': State)
  {
    LoopStep(s, s') && LoopShape(s.loop) && !s.loop.Sending? && !s.loop.Unparking?
  }

  lemma PlainFrame(s: State, s': State)
    requires PlainStep(s, s')
    ensures s'.workers == s.workers && s'.parked == s.parked && s'.nParked == s.nParked && s'.parkMx == s.parkMx
    ensures s'.conc == s.conc && s'.peak == s.peak && s'.phase == s.phase && s'.head == s.head
    ensures s.off <= s.head ==> s'.off <= s.head
  {
  }

  lemma PlainShape(s: State, s': State)
    requires PlainStep(s, s')
    ensures LoopShape(s'.loop)
  {
  }

  lemma PlainProcessing(s: State, s': State)
    requires PlainStep(s, s')
    ensures s'.processing - s.processing == LoopProcessing(s'.loop) - LoopProcessing(s.loop)
  {
  }

  lemma PlainBusy(s: State, s': State)
    requires PlainStep(s, s')
    ensures s'.busy - s.busy == One(LoopBusy(s'.loop)) - One(LoopBusy(s.loop))
    ensures s.busy + One(s.loop.Admitted?) <= s.peak && s.conc <= s.peak ==> s'.busy + One(s'.loop.Admitted?) <= s.peak
  {
  }

  lemma PlainGrant(s: State, s': State)
    requires PlainStep(s, s')
    ensures LoopGranted(s'.loop) > LoopGranted(s.loop) ==> s.phase.Active?
  {
  }

  lemma PlainKeeps(s: State, s': State)
    requires Shape(s) && Counters(s) && Phased(s) && PlainStep(s, s')
    requires s'.workers == s.workers && s'.parked == s.parked && s'.nParked == s.nParked && s'.parkMx == s.parkMx
    requires s'.conc == s.conc && s'.peak == s.peak && s'.phase == s.phase && s'.head == s.head && s'.off <= s.head
    ensures Shape(s') && Counters(s') && Phased(s')
  {
    PlainShape(s, s');
    PlainProcessing(s, s');
    PlainBusy(s, s');
    PlainGrant(s, s');
  }

  lemma SendKeeps(s: State, s': State)
    requires Shape(s) && Counters(s) && Phased(s) && s.loop.Sending? && LoopStep(s, s')
    ensures Shape(s') && Counters(s') && Phased(s')
  {
    WorkerJoins(s.workers, Worker(s.loop.buf, 0, s.loop.stamp, StaleCheck), 0);
  }

  lemma LoopKeeps(s: State, s': State)
    requires Shape(s) && Counters(s) && Phased(s) && LoopStep(s, s')
    ensures Shape(s') && Counters(s') && Phased(s')
  {
    if s.loop.Sending? {
      SendKeeps(s, s');
    } else if !s.loop.Unparking? {
      PlainFrame(s, s');
      PlainKeeps(s, s');
    } else if s.parked != [] {
      UnparkKeeps(s, s.loop.k, s');
    }
  }

  lemma UnparkKeeps(s: State, k: nat, s': State)
    requires Shape(s) && Counters(s) && Phased(s) && s.loop == Unparking(k) && s.parked != [] && LoopStep(s, s')
    ensures Shape(s') && Counters(s') && Phased(s')
  {
    UnparkConserves(s, k, s', 0);
    SortKeeps(s.parked, 0);
    assert Sorted(s)[0] in s.parked;
    forall b | b in s'.parked ensures |b.jobs| > 0 {
      assert b in Sorted(s) || s'.parked[0] == b;
    }
  }

  /** A worker step as the counters, the park lock and the phase see it. */
  lemma WorkerPlain(s: State, w: nat, s': State)
    requires w < |s.workers| && WorkerShape(s.workers[w]) && WorkerStep(s, w, s')
    ensures |s'.workers| == |s.workers| && s'.workers == s.workers[w := s'.workers[w]] && WorkerShape(s'.workers[w])
    ensures s'.off == s.off && s'.head == s.head && s'.conc == s.conc && s'.peak == s.peak
    ensures s'.loop == s.loop && s'.phase == s.phase
    ensures s'.processing - s.processing == BatchSize(s'.workers[w]) - BatchSize(s.workers[w])
    ensures s'.busy - s.busy == One(Serving(s'.workers[w])) - One(Serving(s.workers[w]))
    ensures Parking(s'.workers[w]) && !Parking(s.workers[w]) ==> !s.phase.Active?
    ensures Locks(s.workers[w]) == Locks(s'.workers[w]) ==> s'.parkMx == s.parkMx
    ensures !Locks(s.workers[w]) && Locks(s'.workers[w]) ==> s.parkMx.Free? && s'.parkMx == HeldBy(w)
    ensures Locks(s.workers[w]) && !Locks(s'.workers[w]) ==> s'.parkMx.Free?
  {
  }

  /** Holds parkMx between two steps. */
  predicate Locks(x: Worker)
  {
    x.at.ParkAppend? || x.at.ParkCount?
  }

  lemma WorkerShaped(s: State, w: nat, s': State)
    requires Shape(s) && w < |s.workers| && WorkerStep(s, w, s')
    ensures Shape(s')
  {
    WorkerPlain(s, w, s');
  }

  lemma WorkerParked(s: State, w: nat, s': State)
    requires Shape(s) && w < |s.workers| && WorkerStep(s, w, s')
    ensures s'.nParked + Uncounted(s') - |AllJobs(s'.parked)| == s.nParked + Uncounted(s) - |AllJobs(s.parked)|
  {
    var x := s.workers[w];
    if x.at.ParkAppend? {
      var b := Batch(x.jobs[x.i..], x.stamp.(seqNo := x.stamp.seqNo + x.i));
      AllJobsConcat(s.parked, [b]);
      AllJobsOne(b);
    }
  }

  lemma WorkerKeeps(s: State, w: nat, s': State)
    requires Shape(s) && Counters(s) && Phased(s) && w < |s.workers| && WorkerStep(s, w, s')
    ensures Shape(s') && Counters(s') && Phased(s')
  {
    WorkerPlain(s, w, s');
    WorkerShaped(s, w, s');
    WorkerParked(s, w, s');
    WorkerMoves(s.workers, w, s'.workers[w]);
  }

  lemma PurgeKeeps(s: State, k: nat, s': State)
    requires Shape(s) && Counters(s) && Phased(s) && k < |s.purges| && PurgeStep(s, k, s')
    ensures Shape(s') && Counters(s') && Phased(s')
  {
  }

  lemma MovePhaseKeeps(s: State, s': State)
    requires Shape(s) && Phased(s) && MovePhase(s, s')
    ensures Phased(s')
  {
    forall w | 0 <= w < |s'.workers| && Parking(s'.workers[w]) ensures s'.phase.Draining? {
      WorkerMoves(s.workers, w, s.workers[w]);
    }
  }

  // ---------------------------------------------------------------- no job starts twice

  ghost predicate StartedOnce(s: State)
  {
    && (forall j :: j in s.started ==> j in s.gone || IsRunning(s, j))
    && (forall a, b :: 0 <= a < b < |s.started| ==> s.started[a] != s.started[b])
  }

  lemma {:induction false} HolderCounts(workers: seq<Worker>, b: nat, j: Job)
    requires b < |workers| && Times(Rest(workers[b]), j) >= 1
    ensures InHand(workers, j) >= 1
  {
    if b > 0 {
      assert workers[1..][b - 1] == workers[b];
      HolderCounts(workers[1..], b - 1, j);
    }
  }

  lemma {:induction false} HoldersCount(workers: seq<Worker>, a: nat, b: nat, j: Job)
    requires a < b < |workers| && Times(Rest(workers[a]), j) >= 1 && Times(Rest(workers[b]), j) >= 1
    ensures InHand(workers, j) >= 2
  {
    assert workers[1..][b - 1] == workers[b];
    if a == 0 {
      HolderCounts(workers[1..], b - 1, j);
    } else {
      assert workers[1..][a - 1] == workers[a];
      HoldersCount(workers[1..], a - 1, b - 1, j);
    }
  }

  /** A job at the front of a batch that is not running has not been started. */
  lemma FrontIsNew(s: State, w: nat)
    requires Conserved(s) && StartedOnce(s) && w < |s.workers| && WorkerShape(s.workers[w]) && s.workers[w].at.StartJob?
    ensures s.workers[w].jobs[s.workers[w].i] !in s.started
  {
    var x := s.workers[w];
    var j := x.jobs[x.i];
    assert Rest(x)[0] == j;
    TimesIn(Rest(x), j);
    HolderCounts(s.workers, w, j);
    TimesIn(s.gone, j);
    assert Places(s, j) <= 1;
    if IsRunning(s, j) {
      var u: nat :| u < |s.workers| && Executes(s.workers[u], j);
      RunnerHolds(s.workers[u], j);
      HoldersCount(s.workers, if u < w then u else w, if u < w then w else u, j);
    }
  }

  lemma RunnerHolds(x: Worker, j: Job)
    requires Executes(x, j)
    ensures Times(Rest(x), j) >= 1
  {
    assert Rest(x)[0] == j;
  }

  lemma WorkerStarts(s: State, w: nat, s': State)
    requires Shape(s) && Conserved(s) && StartedOnce(s) && w < |s.workers| && WorkerStep(s, w, s')
    ensures StartedOnce(s')
  {
    var x, x' := s.workers[w], s'.workers[w];
    WorkerKinds(s, w, s');
    WorkerPlain(s, w, s');
    WorkerHistory(s, w, s');
    if x.at.StartJob? {
      FrontIsNew(s, w);
    }
    forall j | j in s'.started ensures j in s'.gone || IsRunning(s', j) {
      if j in s.started && IsRunning(s, j) {
        var u :| 0 <= u < |s.workers| && Executes(s.workers[u], j);
        assert u != w ==> Executes(s'.workers[u], j);
      } else if j !in s.started {
        assert Executes(x', j);
      }
    }
  }

  /** The started jobs grow by the front of this batch, exactly when it begins to run. */
  lemma WorkerHistory(s: State, w: nat, s': State)
    requires w < |s.workers| && WorkerShape(s.workers[w]) && WorkerStep(s, w, s')
    ensures |s'.workers| == |s.workers| && s.gone <= s'.gone && s'.order == s.order
    ensures s'.started == s.started
         || (s.workers[w].at.StartJob? && s'.started == s.started + [s.workers[w].jobs[s.workers[w].i]]
             && s'.workers[w] == s.workers[w].(at := RunJob))
    ensures s.workers[w].at.RunJob? ==> s.workers[w].jobs[s.workers[w].i] in s'.gone
  {
  }

  // ---------------------------------------------------------------- every run

  ghost predicate FullInv(s: State)
  {
    Inv(s) && StartedOnce(s)
  }

  lemma ConservedIf(s: State, s': State)
    requires Conserved(s) && s'.off <= s'.head
    requires forall j: Job :: Places(s', j) - One(j < s'.head) == Places(s, j) - One(j < s.head)
    requires forall j :: j in s'.gone ==> j in s'.closed
    ensures Conserved(s')
  {
    forall j: Job ensures Places(s', j) == if j < s'.head then 1 else 0 {
      assert Places(s, j) == if j < s.head then 1 else 0;
    }
  }

  /** Same workers, same history: nothing started. */
  lemma Unstarted(s: State, s': State)
    requires StartedOnce(s) && s'.started == s.started && s.gone <= s'.gone
    requires forall w :: 0 <= w < |s.workers| ==> w < |s'.workers| && s'.workers[w] == s.workers[w]
    ensures StartedOnce(s')
  {
    forall j | j in s'.started ensures j in s'.gone || IsRunning(s', j) {
      if IsRunning(s, j) {
        var u :| 0 <= u < |s.workers| && Executes(s.workers[u], j);
        assert Executes(s'.workers[u], j);
      }
    }
  }

  lemma LoopFull(s: State, s': State)
    requires FullInv(s) && LoopStep(s, s')
    ensures FullInv(s')
  {
    LoopKeeps(s, s');
    LoopHistory(s, s');
    forall j: Job ensures Places(s', j) == Places(s, j) {
      LoopConserves(s, s', j);
    }
    ConservedIf(s, s');
    Unstarted(s, s');
  }

  lemma LoopHistory(s: State, s': State)
    requires LoopStep(s, s')
    ensures s'.started == s.started && s.gone <= s'.gone && s'.closed == s.closed && s'.head == s.head
    ensures s.off <= s'.off
    ensures forall j :: j in s'.gone ==> j in s.gone || j in s.closed
    ensures s.workers <= s'.workers && s'.purges == s.purges && s'.waiters == s.waiters && s'.gen == s.gen
    ensures s'.halts == s.halts
    ensures s'.phase == s.phase
  {
  }

  lemma WorkerFull(s: State, w: nat, s': State)
    requires FullInv(s) && w < |s.workers| && WorkerStep(s, w, s')
    ensures FullInv(s')
  {
    WorkerKeeps(s, w, s');
    WorkerStarts(s, w, s');
    WorkerCloses(s, w, s');
    forall j: Job ensures Places(s', j) == Places(s, j) && s'.head == s.head {
      WorkerConserves(s, w, s', j);
    }
    ConservedIf(s, s');
  }

  lemma WorkerCloses(s: State, w: nat, s': State)
    requires w < |s.workers| && WorkerShape(s.workers[w]) && WorkerStep(s, w, s')
    requires forall j :: j in s.gone ==> j in s.closed
    ensures forall j :: j in s'.gone ==> j in s'.closed
  {
  }

  lemma PurgeFull(s: State, k: nat, s': State)
    requires FullInv(s) && k < |s.purges| && PurgeStep(s, k, s')
    ensures FullInv(s')
  {
    PurgeKeeps(s, k, s');
    forall j: Job ensures Places(s', j) == Places(s, j) && s'.head == s.head {
      PurgeConserves(s, k, s', j);
    }
    ConservedIf(s, s');
    Unstarted(s, s');
  }

  /** Steps of the environment: producers, users, controllers, and new calls. */
  ghost predicate OutsideStep(s: State, s': State)
  {
    || Enqueue(s, s')
    || (exists j: Job :: UserClose(s, j, s'))
    || MovePhase(s, s')
    || PurgeBegin(s, s')
    || WaitBegin(s, s')
    || Tune(s, s')
    || (exists v: nat :: WaiterActs(s, v, s'))
  }

  lemma OutsideFrame(s: State, s': State)
    requires OutsideStep(s, s')
    ensures s'.off == s.off && s'.busy == s.busy && s'.processing == s.processing
    ensures (s'.conc == s.conc && s'.peak == s.peak) || Tune(s, s')
    ensures s'.parked == s.parked
    ensures s'.unsorted == s.unsorted && s'.nParked == s.nParked && s'.parkMx == s.parkMx && s'.gone == s.gone
    ensures s'.started == s.started && s'.order == s.order && s'.dispatched == s.dispatched && s'.loop == s.loop
    ensures s'.workers == s.workers
    ensures s'.head == s.head || s'.head == s.head + 1
    ensures s.closed <= s'.closed
    ensures s'.purges == s.purges || s'.purges == s.purges + [Bumped]
    ensures s'.phase == s.phase || MovePhase(s, s')
  {
  }

  lemma OutsideFull(s: State, s': State)
    requires FullInv(s) && OutsideStep(s, s')
    ensures FullInv(s')
  {
    OutsideFrame(s, s');
    if s'.phase != s.phase {
      MovePhaseKeeps(s, s');
    }
    OutsideConserves(s, s');
    Unstarted(s, s');
  }

  lemma OutsideConserves(s: State, s': State)
    requires Conserved(s) && s'.off == s.off && s'.loop == s.loop && s'.workers == s.workers && s'.parked == s.parked
    requires s'.gone == s.gone && s.closed <= s'.closed && (s'.head == s.head || s'.head == s.head + 1)
    requires s'.purges == s.purges || s'.purges == s.purges + [Bumped]
    ensures Conserved(s')
  {
    forall j: Job ensures Places(s', j) - One(j < s'.head) == Places(s, j) - One(j < s.head) {
      PurgeJoins(s.purges, j);
    }
    ConservedIf(s, s');
  }

  lemma NextFull(s: State, s': State)
    requires FullInv(s) && Next(s, s')
    ensures FullInv(s')
  {
    if LoopStep(s, s') {
      LoopFull(s, s');
    } else if w: nat :| WorkerActs(s, w, s') {
      WorkerFull(s, w, s');
    } else if k: nat :| PurgeActs(s, k, s') {
      PurgeFull(s, k, s');
    } else {
      OutsideFull(s, s');
    }
  }

  lemma RunKeeps(run: seq<State>)
    requires IsRun(Init, Next, run)
    ensures forall i :: 0 <= i < |run| ==> FullInv(run[i])
  {
    assert Inductive(Init, Next, FullInv) by {
      forall s | Init(s) ensures FullInv(s) {
        InitFull(s);
      }
      forall s, s' | FullInv(s) && Next(s, s') ensures FullInv(s') {
        NextFull(s, s');
      }
    }
    Invariance(Init, Next, FullInv, run);
  }

  lemma InitFull(s: State)
    requires Init(s)
    ensures FullInv(s)
  {
  }

  /** In every run, an accepted job is in exactly one place, a job not accepted in none; what has
      left is closed; no job starts twice. */
  lemma JobConservation(run: seq<State>, i: nat, j: Job)
    requires IsRun(Init, Next, run) && i < |run|
    ensures Places(run[i], j) == if j < run[i].head then 1 else 0
    ensures j in run[i].gone ==> j in run[i].closed
    ensures forall a, b :: 0 <= a < b < |run[i].started| ==> run[i].started[a] != run[i].started[b]
  {
    RunKeeps(run);
  }

  /** In every run, curProcessing is the number of slots reserved and not released (so it never
      underflows), busyWorkers respects the highest concurrency limit set so far, and nParked is the
      number of parked jobs but for a park that is about to count its batch. */
  lemma CountersExact(run: seq<State>, i: nat)
    requires IsRun(Init, Next, run) && i < |run|
    ensures run[i].processing == LoopProcessing(run[i].loop) + InBatches(run[i].workers)
    ensures 0 <= run[i].busy <= run[i].peak
    ensures run[i].nParked == |AllJobs(run[i].parked)| - Uncounted(run[i])
  {
    RunKeeps(run);
  }

  /** Busy workers, and the one a loop past its check is about to add. */
  function BusySoon(s: State): int
  {
    s.busy + One(s.loop.Admitted?)
  }

  lemma LoopAdmits(s: State, s': State)
    requires LoopStep(s, s')
    ensures BusySoon(s') <= BusySoon(s) || BusySoon(s') <= s.conc
  {
  }

  lemma WorkersRelease(s: State, w: nat, s': State)
    requires w < |s.workers| && WorkerShape(s.workers[w]) && WorkerStep(s, w, s')
    ensures s'.loop == s.loop && s'.busy <= s.busy
  {
  }

  lemma BusySoonGrows(s: State, s': State)
    requires FullInv(s) && Next(s, s')
    ensures BusySoon(s') <= BusySoon(s) || BusySoon(s') <= s.conc
  {
    if LoopStep(s, s') {
      LoopAdmits(s, s');
    } else if w: nat :| WorkerActs(s, w, s') {
      WorkersRelease(s, w, s');
    } else if k: nat :| PurgeActs(s, k, s') {
      assert s'.loop == s.loop && s'.busy == s.busy;
    } else {
      OutsideFrame(s, s');
    }
  }

  /** In every run, while TunePool leaves the limit at most limit, busyWorkers gets no higher than that
      or than it was, counting the worker a loop past its check has still to add. */
  lemma ShrinkIsRespected(run: seq<State>, i: nat, j: nat, limit: nat)
    requires IsRun(Init, Next, run) && i <= j < |run|
    requires forall k :: i <= k <= j ==> run[k].conc <= limit
    ensures run[j].busy <= limit || run[j].busy <= BusySoon(run[i])
  {
    BusyStays(run, i, j, limit);
  }

  lemma {:induction false} BusyStays(run: seq<State>, i: nat, j: nat, limit: nat)
    requires IsRun(Init, Next, run) && i <= j < |run|
    requires forall k :: i <= k <= j ==> run[k].conc <= limit
    ensures BusySoon(run[j]) <= limit || BusySoon(run[j]) <= BusySoon(run[i])
  {
    if i < j {
      BusyStays(run, i, j - 1, limit);
      RunKeeps(run);
      NextAt(Init, Next, run, j - 1);
      BusySoonGrows(run[j - 1], run[j]);
    }
  }

  /** In every run, jobs are parked only while the worker is Pausing or Stopping, and a worker that
      is Paused or Stopped has no batch left. */
  lemma ParksOnlyDraining(run: seq<State>, i: nat, w: nat)
    requires IsRun(Init, Next, run) && i < |run| && w < |run[i].workers|
    ensures Parking(run[i].workers[w]) ==> run[i].phase.Draining?
    ensures run[i].phase.Halted? ==> run[i].workers[w].at.Done?
  {
    RunKeeps(run);
    WorkerMoves(run[i].workers, w, run[i].workers[w]);
  }
}
