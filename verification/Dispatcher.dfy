/** Dispatch, park, unpark and purge for one worker bound to one in-memory FIFO queue
    (worker_eventloop.go, worker_pool.go, worker_park.go). A job is its enqueue offset. The queue is
    the log seen as a sequence: offsets off..head wait in it. The status is seen through its phase,
    which module Lifecycle shows the real status word to refine. One step is one atomic operation;
    what runs under parkMx and is read only under it is one step, the park counter aside. */
module Dispatcher {
  import opened Basics
  import opened Phases

  type Job = nat

  const MAX_BATCH := 32

  /** The purge counter and dispatch number a batch was stamped with. */
  datatype Stamp = Stamp(epoch: nat, seqNo: nat)

  /** The unstarted rest of a batch, set aside by a halt. */
  datatype Batch = Batch(jobs: seq<Job>, stamp: Stamp)

  /** The loop condition, then processNextJob. k jobs were asked for; m of them have to be given back. */
  datatype Loop =
    | Waiting
    | Admitted
    | Busy(k: nat)
    | Counted(k: nat)
    | Granted(k: nat)
    | Unparking(k: nat)
    | Filling(k: nat, buf: seq<Job>)
    | TrimUnparked(m: nat, buf: seq<Job>, stamp: Stamp)
    | TrimFilled(m: nat, buf: seq<Job>)
    | Stamping(buf: seq<Job>)
    | Sending(buf: seq<Job>, stamp: Stamp)
    | Return(k: nat, granted: bool)
    | Uncount(k: nat, granted: bool)

  /** The batch loop of a pool goroutine. */
  datatype WorkAt =
    | StaleCheck | HaltCheck | ParkLock | ParkAppend | ParkCount(n: nat) | StartJob | RunJob | FreeNode | Finish | Done

  datatype Worker = Worker(jobs: seq<Job>, i: nat, stamp: Stamp, at: WorkAt)

  /** Purge: bump the counter, drop what is parked, empty the storage, close what was in it. */
  datatype PurgeAt = Bumped | Dropped | Taken(jobs: seq<Job>) | Returned(head: nat)

  /** Wait on an active worker: no parked job, then an empty queue, then nothing processing.
      `target` is the queue's head at the call; `since` the halt count, if the worker was active. */
  datatype WaitAt = Called | SawNoParked | LoadedHead(h: nat) | SawEmpty | Back
  datatype SinceHalt = NotActive | Since(halts: nat)
  datatype Waiter = Waiter(target: nat, since: SinceHalt, at: WaitAt)

  datatype Lock = Free | HeldBy(owner: nat)

  /** conc is the concurrency limit now, which TunePool can set below the busy count. peak, gone,
      started, order and halts are history: the highest limit ever set, jobs that left for good, jobs
      in the order they started, jobs by dispatch number, and how often the worker left its active
      phase. */
  datatype State = State(
    conc: nat, peak: nat, phase: Phase, off: nat, head: nat, gen: nat, dispatched: nat, busy: int, processing: int,
    parked: seq<Batch>, unsorted: bool, nParked: int, parkMx: Lock,
    closed: set<Job>, gone: seq<Job>, started: seq<Job>, order: seq<Job>, halts: nat,
    loop: Loop, workers: seq<Worker>, purges: seq<PurgeAt>, waiters: seq<Waiter>)

  ghost predicate Init(s: State)
  {
    && s.conc > 0
    && s == State(s.conc, s.conc, Halted, 0, 0, 0, 0, 0, 0, [], false, 0, Free, {}, [], [], [], 0, Waiting, [], [], [])
  }

  // ---------------------------------------------------------------- sorting the parked batches

  function SeqNoOf(b: Batch): nat
  {
    b.stamp.seqNo
  }

  /** The batches in dispatch order. */
  function SortBySeq(batches: seq<Batch>): seq<Batch>
  {
    SortBy(batches, SeqNoOf)
  }

  // ---------------------------------------------------------------- the event loop

  /** What is left after n jobs of the first batch were taken. */
  function AfterTake(batches: seq<Batch>, n: nat): seq<Batch>
    requires |batches| > 0 && n <= |batches[0].jobs|
  {
    var b := batches[0];
    if n == |b.jobs| then batches[1..]
    else [Batch(b.jobs[n..], b.stamp.(seqNo := b.stamp.seqNo + n))] + batches[1..]
  }

  /** unpark: sort if a batch came in since the last time, then take from the front. */
  ghost predicate Unpark(s: State, k: nat, s': State)
  {
    if s.parked == [] then s' == s.(loop := Filling(k, []))
    else
      var batches := if s.unsorted then SortBySeq(s.parked) else s.parked;
      && |batches| > 0
      && var b := batches[0];
         var n := if k <= |b.jobs| then k else |b.jobs|;
         s' == s.(parked := AfterTake(batches, n), unsorted := false, nParked := s.nParked - n,
                  loop := TrimUnparked(k - n, b.jobs[..n], b.stamp))
  }

  ghost predicate FillStep(s: State, k: nat, buf: seq<Job>, s': State)
  {
    if |buf| >= k then s' == s.(loop := TrimFilled(0, buf))
    else if s.off < s.head then
      if s.off in s.closed then s' == s.(off := s.off + 1, gone := s.gone + [s.off])
      else s' == s.(off := s.off + 1, loop := Filling(k, buf + [s.off]))
    else s' == s.(loop := if buf == [] then Return(k, true) else TrimFilled(k - |buf|, buf))
  }

  ghost predicate LoopStep(s: State, s': State)
  {
    match s.loop
    case Waiting => s.busy < s.conc && s' == s.(loop := Admitted)
    case Admitted =>
      || s' == s.(loop := Waiting)
      || (s'.loop.Busy? && 1 <= s'.loop.k <= MAX_BATCH && s' == s.(loop := s'.loop, busy := s.busy + 1))
    case Busy(k) => s' == s.(loop := Counted(k), processing := s.processing + k)
    case Counted(k) => s' == s.(loop := if s.phase.Active? then Granted(k) else Return(k, false))
    case Granted(k) => s' == s.(loop := if s.nParked > 0 then Unparking(k) else Filling(k, []))
    case Unparking(k) => s.parkMx.Free? && Unpark(s, k, s')
    case Filling(k, buf) => FillStep(s, k, buf, s')
    case TrimUnparked(m, buf, stamp) => s' == s.(loop := Sending(buf, stamp), processing := s.processing - m)
    case TrimFilled(m, buf) => s' == s.(loop := Stamping(buf), processing := s.processing - m)
    case Stamping(buf) =>
      s' == s.(loop := Sending(buf, Stamp(s.gen, s.dispatched)), dispatched := s.dispatched + |buf|,
               order := s.order + buf)
    case Sending(buf, stamp) => s' == s.(loop := Waiting, workers := s.workers + [Worker(buf, 0, stamp, StaleCheck)])
    case Return(k, granted) => s' == s.(loop := Uncount(k, granted), busy := s.busy - 1)
    case Uncount(k, _) => s' == s.(loop := Waiting, processing := s.processing - k)
  }

  // ---------------------------------------------------------------- a pool goroutine

  ghost predicate WorkerStep(s: State, w: nat, s': State)
    requires w < |s.workers| && s.workers[w].i <= |s.workers[w].jobs|
  {
    var x := s.workers[w];
    var stale := s.gen != x.stamp.epoch;
    match x.at
    case StaleCheck =>
      if x.i == |x.jobs| then s' == s.(workers := s.workers[w := x.(at := FreeNode)])
      else if stale then Leaves(s, w, x.(i := x.i + 1), [x.jobs[x.i]], s')
      else s' == s.(workers := s.workers[w := x.(at := HaltCheck)])
    case HaltCheck =>
      s' == s.(workers := s.workers[w := x.(at := if x.i > 0 && !s.phase.Active? then ParkLock else StartJob)])
    case ParkLock =>
      && s.parkMx.Free?
      && if stale then Leaves(s, w, x.(i := |x.jobs|, at := FreeNode), x.jobs[x.i..], s')
         else s' == s.(parkMx := HeldBy(w), workers := s.workers[w := x.(at := ParkAppend)])
    case ParkAppend =>
      s' == s.(parked := s.parked + [Batch(x.jobs[x.i..], x.stamp.(seqNo := x.stamp.seqNo + x.i))], unsorted := true,
               workers := s.workers[w := x.(i := |x.jobs|, at := ParkCount(|x.jobs| - x.i))])
    case ParkCount(n) =>
      s' == s.(nParked := s.nParked + n, parkMx := Free, workers := s.workers[w := x.(at := FreeNode)])
    case StartJob =>
      && x.i < |x.jobs|
      && if x.jobs[x.i] in s.closed then Leaves(s, w, x.(i := x.i + 1, at := StaleCheck), [x.jobs[x.i]], s')
         else s' == s.(started := s.started + [x.jobs[x.i]], workers := s.workers[w := x.(at := RunJob)])
    case RunJob => x.i < |x.jobs| && Leaves(s, w, x.(i := x.i + 1, at := StaleCheck), [x.jobs[x.i]], s')
    case FreeNode => s' == s.(busy := s.busy - 1, workers := s.workers[w := x.(at := Finish)])
    case Finish => s' == s.(processing := s.processing - |x.jobs|, workers := s.workers[w := x.(at := Done)])
    case Done => false
  }

  /** These jobs are closed (again, if the user was faster) and leave the worker. */
  ghost predicate Leaves(s: State, w: nat, x': Worker, jobs: seq<Job>, s': State)
    requires w < |s.workers|
  {
    s' == s.(workers := s.workers[w := x'], closed := s.closed + (set j | j in jobs), gone := s.gone + jobs)
  }

  // ---------------------------------------------------------------- Purge, Wait, producers, controllers

  function Range(a: nat, b: nat): seq<Job>
    requires a <= b
  {
    seq(b - a, i requires 0 <= i => a + i)
  }

  function AllJobs(batches: seq<Batch>): seq<Job>
  {
    if batches == [] then [] else batches[0].jobs + AllJobs(batches[1..])
  }

  ghost predicate PurgeStep(s: State, k: nat, s': State)
    requires k < |s.purges| && s.off <= s.head
  {
    match s.purges[k]
    case Bumped =>
      var jobs := AllJobs(s.parked);
      && s.parkMx.Free?
      && s' == s.(parked := [], nParked := s.nParked - |jobs|, closed := s.closed + (set j | j in jobs),
                  gone := s.gone + jobs, purges := s.purges[k := Dropped])
    case Dropped => s' == s.(off := s.head, purges := s.purges[k := Taken(Range(s.off, s.head))])
    case Taken(jobs) =>
      s' == s.(closed := s.closed + (set j | j in jobs), gone := s.gone + jobs,
               purges := s.purges[k := Returned(s.head)])
    case Returned(_) => false
  }

  ghost predicate WaitStep(s: State, v: nat, s': State)
    requires v < |s.waiters|
  {
    var x := s.waiters[v];
    var at' := match x.at
      case Called => if s.nParked == 0 then SawNoParked else Called
      case SawNoParked => LoadedHead(s.head)
      case LoadedHead(h) => if s.off >= h then SawEmpty else Called
      case SawEmpty => if s.processing == 0 then Back else Called
      case Back => Back;
    s' == s.(waiters := s.waiters[v := x.(at := at')])
  }

  /** Granted and unfinished: what the loop holds, and every batch until its finishJobs. */
  function GrantedCount(s: State): nat
  {
    LoopGranted(s.loop) + InBatches(s.workers)
  }

  function LoopGranted(loop: Loop): nat
  {
    match loop
    case Granted(k) => k
    case Unparking(k) => k
    case Filling(k, _) => k
    case TrimUnparked(m, buf, _) => m + |buf|
    case TrimFilled(m, buf) => m + |buf|
    case Stamping(buf) => |buf|
    case Sending(buf, _) => |buf|
    case Return(k, granted) => if granted then k else 0
    case Uncount(k, granted) => if granted then k else 0
    case _ => 0
  }

  function InBatches(workers: seq<Worker>): nat
  {
    if workers == [] then 0
    else (if workers[0].at.Done? then 0 else |workers[0].jobs|) + InBatches(workers[1..])
  }

  predicate Executes(x: Worker, j: Job)
  {
    x.at.RunJob? && x.i < |x.jobs| && x.jobs[x.i] == j
  }

  ghost predicate IsRunning(s: State, j: Job)
  {
    exists w :: 0 <= w < |s.workers| && Executes(s.workers[w], j)
  }

  /** Add. */
  ghost predicate Enqueue(s: State, s': State)
  {
    s' == s.(head := s.head + 1)
  }

  /** The user closes a job that does not run. */
  ghost predicate UserClose(s: State, j: Job, s': State)
  {
    j < s.head && !IsRunning(s, j) && s' == s.(closed := s.closed + {j})
  }

  /** Pause, Resume, Stop, Start and the flips of finishJobs, as the abstract lifecycle allows them. */
  ghost predicate MovePhase(s: State, s': State)
  {
    && PhaseMove(s.phase, GrantedCount(s), s'.phase)
    && s' == s.(phase := s'.phase, halts := if s.phase.Active? && !s'.phase.Active? then s.halts + 1 else s.halts)
  }

  ghost predicate PurgeBegin(s: State, s': State)
  {
    s' == s.(gen := s.gen + 1, purges := s.purges + [Bumped])
  }

  ghost predicate WaitBegin(s: State, s': State)
  {
    s' == s.(waiters := s.waiters + [Waiter(s.head, if s.phase.Active? then Since(s.halts) else NotActive, Called)])
  }

  /** TunePool: whatever is busy stays so. */
  ghost predicate Tune(s: State, s': State)
  {
    s'.conc > 0 && s' == s.(conc := s'.conc, peak := if s'.conc > s.peak then s'.conc else s.peak)
  }

  ghost predicate WorkerActs(s: State, w: nat, s': State)
  {
    w < |s.workers| && s.workers[w].i <= |s.workers[w].jobs| && WorkerStep(s, w, s')
  }

  ghost predicate PurgeActs(s: State, k: nat, s': State)
  {
    k < |s.purges| && s.off <= s.head && PurgeStep(s, k, s')
  }

  ghost predicate WaiterActs(s: State, v: nat, s': State)
  {
    v < |s.waiters| && WaitStep(s, v, s')
  }

  ghost predicate Next(s: State, s': State)
  {
    || LoopStep(s, s')
    || (exists w: nat :: WorkerActs(s, w, s'))
    || (exists k: nat :: PurgeActs(s, k, s'))
    || (exists v: nat :: WaiterActs(s, v, s'))
    || Enqueue(s, s')
    || (exists j: Job :: UserClose(s, j, s'))
    || MovePhase(s, s')
    || PurgeBegin(s, s')
    || WaitBegin(s, s')
    || Tune(s, s')
  }
}
