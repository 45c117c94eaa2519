/** Waking the event loop (worker_eventloop.go, worker_pool.go, source_manager.go): a one-slot signal,
    changes that are announced only afterwards, and a loop that reads status, busy workers, limit,
    parked jobs, each queue's length and idle workers one after another. Any number of queues are
    bound, each with its own pause. One step is one atomic operation. A queue is the counts of its
    waiting and parked jobs. Nothing but the loop takes idle workers while it runs. */
module Wakeup {
  import opened Runs

  /** How the next queue is picked: the first found with a job (RoundRobin, Priority, or the only
      queue), the shortest with a job, or the longest. */
  datatype Strategy = FirstFound | MinLen | MaxLen

  /** What is fixed: pausing and shrinking say whether queues are ever paused, and ever emptied by a
      Purge or another consumer. */
  datatype Setup = Setup(strategy: Strategy, pausing: bool, shrinking: bool)

  datatype Queue = Queue(queued: nat, parked: nat, paused: bool)

  datatype Best = NoBest | Best(k: nat)

  /** The loop condition and planBatch; b, some and grow are what was read, left the queues still to
      be read. */
  datatype LookAt =
    | CheckActive
    | LoadBusy
    | LoadLimit(b: int)
    | LoadParked
    | LoadLen(some: bool, left: set<nat>)
    | PlanBusy
    | PlanPool(b: int)
    | PlanPop(grow: bool)
    | PlanUncount

  /** The manager's Next, for a batch that has n jobs already; best is the queue it would pick. */
  datatype PickAt =
    | Pick(left: set<nat>, best: Best)
    | Recheck(k: nat)
    | Take(k: nat)

  /** processNextJob, once it has a worker. */
  datatype HandAt =
    | Reserve
    | AskParked
    | Unpark
    | Fill(n: nat)
    | Send(cont: bool)
    | BackCount(cont: bool)
    | BackLand(cont: bool)
    | BackUnbusy(cont: bool)

  datatype Loop = Select | Look(look: LookAt) | AddBusy | Hand(hand: HandAt) | Picking(n: nat, pick: PickAt) | Ended

  /** A pool goroutine with a batch, from the hand-off to its signal. */
  datatype Worker = Working | Freeing | Landing | Unbusy | Signal | Gone

  datatype StartAt = NoStart | StartCount | StartLand | StartStore

  /** Why the loop went back to wait since the last signal, if not for finding nothing to hand out: the
      queue it had picked was refused, or found empty again; or no worker was idle and one more was
      not worth its cost. */
  datatype Excuse = NoExcuse | Refused | NoWorker

  /** owing counts the goroutines between a change and its notify. excuse is history. */
  datatype State = State(
    setup: Setup, queues: seq<Queue>,
    signal: bool, active: bool, limit: nat, busy: int, len: int, idle: nat,
    loop: Loop, workers: seq<Worker>, owing: nat, start: StartAt, excuse: Excuse)

  ghost predicate Init(s: State)
  {
    && s.limit > 0 && (|s.queues| <= 1 ==> s.setup.strategy.FirstFound?)
    && (forall k :: 0 <= k < |s.queues| ==> s.queues[k] == Queue(0, 0, false))
    && s == State(s.setup, s.queues, false, false, s.limit, 0, 0, 0, Ended, [], 0, NoStart, NoExcuse)
  }

  function UpTo(n: nat): (r: set<nat>)
    ensures forall k: nat :: k in r <==> k < n
  {
    if n == 0 then {} else UpTo(n - 1) + {n - 1}
  }

  function All(s: State): set<nat>
  {
    UpTo(|s.queues|)
  }

  /** Len of a queue, as its source reports it: 0 while paused. */
  function Len(q: Queue): nat
  {
    if q.paused then 0 else q.queued
  }

  /** The queue is paused or has nothing parked. */
  predicate Unparked(q: Queue)
  {
    q.paused || q.parked == 0
  }

  ghost predicate AnyParked(s: State)
  {
    exists k :: 0 <= k < |s.queues| && s.queues[k].parked > 0
  }

  ghost predicate NoneParked(s: State)
  {
    forall k :: 0 <= k < |s.queues| ==> Unparked(s.queues[k])
  }

  /** What pending counts is 0: every queue is paused or has neither waiting nor parked jobs. */
  ghost predicate NothingPending(s: State)
  {
    forall k :: 0 <= k < |s.queues| ==> Len(s.queues[k]) == 0 && Unparked(s.queues[k])
  }

  /** The queues already read were empty. */
  ghost predicate ReadEmpty(s: State, left: set<nat>)
  {
    forall k: nat :: k < |s.queues| && k !in left ==> Len(s.queues[k]) == 0
  }

  // ---------------------------------------------------------------- the loop

  /** The loop condition and the reads of planBatch. What it reads for the batch size is left out;
      that and the measured job time leave grow open, save that no live worker means grow. */
  ghost predicate LookStep(s: State, s': State)
  {
    match s.loop
    case Select =>
      || (s.signal && s' == s.(signal := false, excuse := NoExcuse, loop := Look(CheckActive)))
      || (!s.active && s' == s.(loop := Ended))
    case Look(at) => ReadStep(s, at, s')
    case _ => false
  }

  /** Each read, and the pop of an idle worker. */
  ghost predicate ReadStep(s: State, at: LookAt, s': State)
  {
    match at
    case CheckActive => s' == s.(loop := if s.active then Look(LoadBusy) else Select)
    case LoadBusy => s' == s.(loop := Look(LoadLimit(s.busy)))
    case LoadLimit(b) => s' == s.(loop := if b < s.limit then Look(LoadParked) else Select)
    // with the hold flag not yet set, jobs of a paused queue may still be counted
    case LoadParked =>
      || (AnyParked(s) && s' == s.(loop := Look(LoadLen(true, All(s)))))
      || (NoneParked(s) && s' == s.(loop := Look(LoadLen(false, All(s)))))
    case LoadLen(some, left) =>
      if left == {} then s' == s.(loop := if some then Look(PlanBusy) else Select)
      else
        exists k :: k in left && k < |s.queues|
                    && s' == s.(loop := Look(LoadLen(some || Len(s.queues[k]) > 0, left - {k})))
    case PlanBusy => s' == s.(loop := Look(PlanPool(s.busy)))
    case PlanPool(b) =>
      || s' == s.(loop := Look(PlanPop(true)))
      || (b + s.len != 0 && s' == s.(loop := Look(PlanPop(false))))
    case PlanPop(grow) =>
      if s.idle > 0 then s' == s.(idle := s.idle - 1, loop := Look(PlanUncount))
      else if grow then s' == s.(loop := AddBusy)
      else s' == s.(loop := Select, excuse := NoWorker)
    case PlanUncount => s' == s.(len := s.len - 1, loop := AddBusy)
  }

  /** The manager's Next: reads the lengths, in an order that is left open, and takes from the queue it
      picked. MaxLen reads the length of its pick once more. n jobs are in the batch already. */
  ghost predicate PickStep(s: State, n: nat, at: PickAt, s': State)
  {
    match at
    case Pick(left, best) =>
      if left != {} then exists k :: k in left && k < |s.queues| && ReadLen(s, n, left, best, k, s')
      else if best.Best? then
        s' == s.(loop := Picking(n, if s.setup.strategy.MaxLen? then Recheck(best.k) else Take(best.k)))
      else
        || s' == s.(loop := Done(n, false))
        || (s.setup.strategy.MaxLen? && exists k: nat :: k < |s.queues| && s' == s.(loop := Picking(n, Take(k))))
    case Recheck(k) =>
      && k < |s.queues|
      && s' == (if Len(s.queues[k]) > 0 then s.(loop := Picking(n, Take(k)))
                else s.(loop := Done(n, false), excuse := Refused))
    case Take(k) => k < |s.queues| && TakeStep(s, n, k, s')
  }

  /** Dequeue. A failed one is reported and the loop goes on, unless a pause came in between. */
  ghost predicate TakeStep(s: State, n: nat, k: nat, s': State)
    requires k < |s.queues|
  {
    var q := s.queues[k];
    if q.paused then s' == s.(loop := Done(n, false), excuse := Refused)
    else if q.queued == 0 then
      || s' == s.(loop := Done(n, true))
      || (s.setup.pausing && s' == s.(loop := Done(n, false), excuse := Refused))
    else
      var queues := s.queues[k := q.(queued := q.queued - 1)];
      || s' == s.(queues := queues, loop := Hand(Fill(n + 1)))
      || s' == s.(queues := queues, loop := Hand(Fill(n)))      // it was closed meanwhile
  }

  /** The batch is not filled further: it goes out if it has a job, else the worker goes back. */
  function Done(n: nat, cont: bool): Loop
  {
    Hand(if n == 0 then BackCount(cont) else Send(cont))
  }

  /** One queue is read. The first found with a job is taken; the others are compared with the best. */
  ghost predicate ReadLen(s: State, n: nat, left: set<nat>, best: Best, k: nat, s': State)
    requires k < |s.queues|
  {
    if Len(s.queues[k]) == 0 then s' == s.(loop := Picking(n, Pick(left - {k}, best)))
    else if s.setup.strategy.FirstFound? then s' == s.(loop := Picking(n, Take(k)))
    else
      || s' == s.(loop := Picking(n, Pick(left - {k}, Best(k))))
      || (best.Best? && s' == s.(loop := Picking(n, Pick(left - {k}, best))))
  }

  /** unpark: from a queue that is not paused. */
  ghost predicate TakesParked(s: State, k: nat, p: nat, s': State)
  {
    && k < |s.queues| && !s.queues[k].paused && p < s.queues[k].parked
    && s' == s.(queues := s.queues[k := s.queues[k].(parked := p)], loop := Hand(Send(true)))
  }

  ghost predicate HandStep(s: State, at: HandAt, s': State)
  {
    match at
    case Reserve => s' == s.(loop := Hand(if s.active then AskParked else BackCount(false)))
    case AskParked => s' == s.(loop := Hand(if AnyParked(s) then Unpark else Fill(0)))
    case Unpark =>
      if NoneParked(s) then s' == s.(loop := Hand(Fill(0))) else exists k: nat, p: nat :: TakesParked(s, k, p, s')
    case Fill(n) =>
      || s' == s.(loop := Picking(n, Pick(All(s), NoBest)))
      || (n > 0 && s' == s.(loop := Hand(Send(true))))              // the batch is full
    case Send(cont) => s' == s.(workers := s.workers + [Working], loop := if cont then Look(CheckActive) else Select)
    case BackCount(cont) => s' == s.(len := s.len + 1, loop := Hand(BackLand(cont)))
    case BackLand(cont) => s' == s.(idle := s.idle + 1, loop := Hand(BackUnbusy(cont)))
    case BackUnbusy(cont) => s' == s.(busy := s.busy - 1, loop := if cont then Look(CheckActive) else Select)
  }

  ghost predicate LoopStep(s: State, s': State)
  {
    match s.loop
    case AddBusy => s' == s.(busy := s.busy + 1, loop := Hand(Reserve))
    case Hand(at) => HandStep(s, at, s')
    case Picking(n, at) => PickStep(s, n, at, s')
    case _ => LookStep(s, s')
  }

  // ---------------------------------------------------------------- everyone else

  /** Only queue k changes. */
  predicate SetQueue(s: State, k: nat, q: Queue, s': State)
    requires k < |s.queues|
  {
    s' == s.(queues := s.queues[k := q])
  }

  /** The worker parks the rest of its batch. */
  ghost predicate ParksRest(s: State, s': State)
  {
    exists k: nat, p: nat :: k < |s.queues| && SetQueue(s, k, s.queues[k].(parked := p), s')
  }

  /** The worker goes on, in the step from x. */
  ghost predicate WorkerGoes(s: State, w: nat, x: Worker, s': State)
    requires w < |s.workers|
  {
    match x
    case Working => s' == s.(workers := s.workers[w := Freeing])
    case Freeing =>
      || s' == s.(len := s.len + 1, workers := s.workers[w := Landing])
      || s' == s.(workers := s.workers[w := Unbusy])         // enough idle workers: this one ends
    case Landing => s' == s.(idle := s.idle + 1, workers := s.workers[w := Unbusy])
    case Unbusy => s' == s.(busy := s.busy - 1, workers := s.workers[w := Signal])
    case Signal => s' == s.(signal := true, workers := s.workers[w := Gone])
    case Gone => false
  }

  ghost predicate WorkerStep(s: State, w: nat, s': State)
  {
    w < |s.workers| && (WorkerGoes(s, w, s.workers[w], s') || (s.workers[w].Working? && ParksRest(s, s')))
  }

  /** Changes that are announced by a notify afterwards. */
  ghost predicate Announced(s: State, s': State)
  {
    || (exists k: nat :: k < |s.queues|
                         && SetQueue(s.(owing := s.owing + 1), k, s.queues[k].(queued := s.queues[k].queued + 1), s'))
    || (exists k: nat :: k < |s.queues| && SetQueue(s.(owing := s.owing + 1), k, s.queues[k].(paused := false), s'))
    || (!s.loop.Ended? && s.start.NoStart? && s' == s.(active := true, owing := s.owing + 1))    // Resume
    || (s'.limit > s.limit && s' == s.(limit := s'.limit, owing := s.owing + 1))                 // TunePool
  }

  /** What a queue may become without a notify: paused, or emptied by a Purge or another consumer. */
  predicate Shrinks(setup: Setup, q: Queue, q': Queue)
  {
    && q'.queued <= q.queued && q'.parked <= q.parked
    && (setup.shrinking || (q'.queued == q.queued && q'.parked == q.parked))
    && (q'.paused == q.paused || (setup.pausing && q'.paused))
  }

  /** Changes that need no announcement. */
  ghost predicate Unannounced(s: State, s': State)
  {
    || (exists k: nat, q: Queue :: k < |s.queues| && Shrinks(s.setup, s.queues[k], q) && SetQueue(s, k, q, s'))
    || s' == s.(active := false)                                                                 // Pause, Stop
    || (0 < s'.limit < s.limit && s' == s.(limit := s'.limit))                                   // TunePool
    || (s.loop.Ended? && s.idle > 0 && s' == s.(idle := s.idle - 1, len := s.len - 1))           // removeAllWorkers
  }

  ghost predicate Notify(s: State, s': State)
  {
    s.owing > 0 && s' == s.(owing := s.owing - 1, signal := true)
  }

  ghost predicate StartStep(s: State, s': State)
  {
    match s.start
    case NoStart => s.loop.Ended? && !s.active && s' == s.(loop := Select, start := StartCount)
    case StartCount => s' == s.(len := s.len + 1, start := StartLand)
    case StartLand => s' == s.(idle := s.idle + 1, start := StartStore)
    case StartStore => s' == s.(active := true, owing := s.owing + 1, start := NoStart)
  }

  ghost predicate Next(s: State, s': State)
  {
    || LoopStep(s, s')
    || (exists w: nat :: WorkerStep(s, w, s'))
    || Announced(s, s')
    || Unannounced(s, s')
    || Notify(s, s')
    || StartStep(s, s')
  }

  // ---------------------------------------------------------------- what is owed

  /** Some batch has not signalled its end. */
  ghost predicate Unsignalled(s: State)
  {
    exists w :: 0 <= w < |s.workers| && !s.workers[w].Gone?
  }

  /** The loop will be woken. */
  ghost predicate Owed(s: State)
  {
    s.signal || s.owing > 0 || !s.start.NoStart? || Unsignalled(s)
  }

  /** The loop may wait: it is not to run, or there is nothing to hand out. With one queue a refused
      dequeue means as much; with more, the others may have jobs. */
  ghost predicate MayWait(s: State)
  {
    !s.active || NothingPending(s) || (s.excuse.Refused? && |s.queues| > 1)
  }

  /** What each position of the loop knows. */
  ghost predicate Seen(s: State)
  {
    Owed(s) || match s.loop
      case Select => MayWait(s)
      case Look(at) => LookSeen(s, at)
      case Hand(at) => HandSeen(s, at)
      case Picking(n, at) => n > 0 || (NoneParked(s) && (at.Pick? && at.best.NoBest? ==> ReadEmpty(s, at.left)))
      case _ => true
  }

  ghost predicate LookSeen(s: State, at: LookAt)
  {
    match at
    case LoadLimit(b) => b == 0
    case LoadLen(some, left) => some || (NoneParked(s) && ReadEmpty(s, left))
    case PlanPool(b) => b == 0
    case PlanPop(grow) => grow || s.idle > 0
    case _ => true
  }

  ghost predicate HandSeen(s: State, at: HandAt)
  {
    match at
    case Fill(n) => n > 0 || NoneParked(s)
    case BackCount(cont) => cont || MayWait(s)
    case BackLand(cont) => cont || MayWait(s)
    case BackUnbusy(cont) => cont || MayWait(s)
    case _ => true
  }

  /** What is fixed, and when the loop can give up. */
  ghost predicate Fixed(s: State)
  {
    && (|s.queues| <= 1 ==> s.setup.strategy.FirstFound?)
    && (!s.setup.pausing ==> forall k :: 0 <= k < |s.queues| ==> !s.queues[k].paused)
    && (s.loop.Picking? && s.loop.pick.Recheck? ==> s.setup.strategy.MaxLen?)
    && (s.excuse.Refused? ==> s.setup.pausing || (s.setup.shrinking && s.setup.strategy.MaxLen?))
    && (s.loop.Picking? && !s.setup.pausing && !s.setup.shrinking ==> StillHas(s, s.loop.pick))
  }

  /** The best queue read so far, or the one to be read again, has a job. */
  ghost predicate StillHas(s: State, at: PickAt)
  {
    && (at.Pick? && at.best.Best? ==> at.best.k < |s.queues| && Len(s.queues[at.best.k]) > 0)
    && (at.Recheck? ==> at.k < |s.queues| && Len(s.queues[at.k]) > 0)
  }

  function BusyOne(x: Worker): nat
  {
    if x.Signal? || x.Gone? then 0 else 1
  }

  function LandingOne(x: Worker): nat
  {
    if x.Landing? then 1 else 0
  }

  function BusyIn(workers: seq<Worker>): nat
  {
    if workers == [] then 0
    else BusyOne(workers[0]) + BusyIn(workers[1..])
  }

  function LandingIn(workers: seq<Worker>): nat
  {
    if workers == [] then 0 else LandingOne(workers[0]) + LandingIn(workers[1..])
  }

  function LoopBusy(loop: Loop): nat
  {
    if loop.Hand? || loop.Picking? then 1 else 0
  }

  function LoopAhead(loop: Loop): nat
  {
    if loop == Look(PlanUncount) || (loop.Hand? && loop.hand.BackLand?) then 1 else 0
  }

  function StartAhead(start: StartAt): nat
  {
    if start.StartLand? then 1 else 0
  }

  ghost predicate Counts(s: State)
  {
    && s.limit > 0
    && s.busy == LoopBusy(s.loop) + BusyIn(s.workers)
    && s.len == s.idle + LoopAhead(s.loop) + StartAhead(s.start) + LandingIn(s.workers)
  }

  ghost predicate Inv(s: State)
  {
    Counts(s) && Seen(s) && Fixed(s)
  }

  lemma {:induction false} WorkerMoves(workers: seq<Worker>, w: nat, x: Worker)
    requires w < |workers|
    ensures BusyIn(workers[w := x]) - BusyOne(x) == BusyIn(workers) - BusyOne(workers[w])
    ensures LandingIn(workers[w := x]) - LandingOne(x) == LandingIn(workers) - LandingOne(workers[w])
  {
    if w == 0 {
      assert workers[w := x][1..] == workers[1..];
    } else {
      WorkerMoves(workers[1..], w - 1, x);
      assert workers[w := x][1..] == workers[1..][w - 1 := x];
    }
  }

  lemma {:induction false} WorkerJoins(workers: seq<Worker>)
    ensures BusyIn(workers + [Working]) == BusyIn(workers) + 1 && LandingIn(workers + [Working]) == LandingIn(workers)
  {
    if workers == [] {
      assert (workers + [Working])[1..] == [];
    } else {
      WorkerJoins(workers[1..]);
      assert (workers + [Working])[1..] == workers[1..] + [Working];
    }
  }

  /** A busy or landing worker has yet to signal. */
  lemma {:induction false} BusyIsOwed(workers: seq<Worker>)
    requires BusyIn(workers) > 0 || LandingIn(workers) > 0
    ensures exists w :: 0 <= w < |workers| && !workers[w].Gone?
  {
    if workers[0].Gone? {
      BusyIsOwed(workers[1..]);
      var w :| 0 <= w < |workers[1..]| && !workers[1..][w].Gone?;
      assert !workers[w + 1].Gone?;
    } else {
      assert !workers[0].Gone?;
    }
  }

  // ---------------------------------------------------------------- every step keeps it

  /** A step that changes no queue, or not so that jobs appear in one, keeps what was seen of them. */
  ghost predicate Quiet(s: State, s': State)
  {
    && |s'.queues| == |s.queues|
    && forall k :: 0 <= k < |s.queues| ==>
         && (Len(s.queues[k]) == 0 ==> Len(s'.queues[k]) == 0)
         && (Unparked(s.queues[k]) ==> Unparked(s'.queues[k]))
  }

  lemma QuietKeeps(s: State, s': State)
    requires Quiet(s, s')
    ensures NoneParked(s) ==> NoneParked(s')
    ensures NothingPending(s) ==> NothingPending(s')
    ensures forall left :: ReadEmpty(s, left) ==> ReadEmpty(s', left)
  {
    forall left | ReadEmpty(s, left) ensures ReadEmpty(s', left) {
    }
  }

  /** What no step of the loop changes. */
  ghost predicate LoopFrame(s: State, s': State)
  {
    && s'.limit == s.limit && s'.start == s.start && s'.active == s.active && s'.owing == s.owing
    && s'.setup == s.setup && |s'.queues| == |s.queues|
    && forall k :: 0 <= k < |s.queues| ==> s'.queues[k].paused == s.queues[k].paused
  }

  // ---------------------------------------------------------------- the loop's reads

  lemma ReadFrame(s: State, at: LookAt, s': State)
    requires ReadStep(s, at, s')
    ensures s' == s.(loop := s'.loop, idle := s'.idle, len := s'.len, excuse := s'.excuse)
    ensures s'.excuse.Refused? ==> s.excuse.Refused?
    ensures s'.loop.Select? || s'.loop.Look? || s'.loop.AddBusy?
    ensures s'.len - s'.idle - LoopAhead(s'.loop) == s.len - s.idle - LoopAhead(Look(at))
  {
  }

  lemma LenSeen(s: State, some: bool, left: set<nat>, s': State)
    requires s.loop == Look(LoadLen(some, left)) && ReadStep(s, LoadLen(some, left), s') && Seen(s) && !Owed(s)
    ensures Seen(s')
  {
    if left == {} && !some {
      assert forall k: nat :: k < |s.queues| ==> Len(s.queues[k]) == 0;
      assert NothingPending(s');
    }
  }

  lemma ReadSeen(s: State, at: LookAt, s': State)
    requires Counts(s) && s.loop == Look(at) && ReadStep(s, at, s') && Seen(s) && !Owed(s) && !at.LoadLen?
    requires BusyIn(s.workers) == LandingIn(s.workers) == 0
    ensures Seen(s')
  {
    if at.LoadParked? {
      assert forall k: nat :: k < |s.queues| ==> k in All(s);
    }
  }

  lemma ReadKeeps(s: State, at: LookAt, s': State)
    requires Inv(s) && s.loop == Look(at) && ReadStep(s, at, s')
    ensures Inv(s')
  {
    ReadFrame(s, at, s');
    if BusyIn(s.workers) > 0 || LandingIn(s.workers) > 0 {
      BusyIsOwed(s.workers);
    }
    if !Owed(s) {
      if at.LoadLen? { LenSeen(s, at.some, at.left, s'); } else { ReadSeen(s, at, s'); }
    }
  }

  // ---------------------------------------------------------------- the pick

  lemma TakeFrame(s: State, n: nat, k: nat, s': State)
    requires k < |s.queues| && TakeStep(s, n, k, s')
    ensures LoopFrame(s, s') && Quiet(s, s') && s'.workers == s.workers && s'.signal == s.signal
    ensures s'.busy == s.busy && s'.len == s.len && s'.idle == s.idle
    ensures s'.loop.Hand? && !s'.loop.hand.BackLand?
  {
  }

  lemma PickFrame(s: State, n: nat, at: PickAt, s': State)
    requires PickStep(s, n, at, s')
    ensures LoopFrame(s, s') && Quiet(s, s') && s'.workers == s.workers && s'.signal == s.signal
    ensures s'.busy == s.busy && s'.len == s.len && s'.idle == s.idle
    ensures (s'.loop.Hand? && !s'.loop.hand.BackLand?) || s'.loop.Picking?
  {
    if at.Take? {
      TakeFrame(s, n, at.k, s');
    } else {
      ChoiceFrame(s, n, at, s');
    }
  }

  lemma ReadLenFrame(s: State, n: nat, left: set<nat>, best: Best, k: nat, s': State)
    requires k < |s.queues| && ReadLen(s, n, left, best, k, s')
    ensures s' == s.(loop := s'.loop) && s'.loop.Picking?
  {
  }

  lemma ChoiceFrame(s: State, n: nat, at: PickAt, s': State)
    requires PickStep(s, n, at, s') && !at.Take?
    ensures s' == s.(loop := s'.loop, excuse := s'.excuse)
    ensures (s'.loop.Hand? && !s'.loop.hand.BackLand?) || s'.loop.Picking?
  {
    if at.Pick? && at.left != {} {
      var k :| k in at.left && k < |s.queues| && ReadLen(s, n, at.left, at.best, k, s');
      ReadLenFrame(s, n, at.left, at.best, k, s');
    }
  }

  lemma PickGives(s: State, n: nat, at: PickAt, s': State)
    requires Fixed(s) && s.loop == Picking(n, at) && PickStep(s, n, at, s')
    ensures s'.excuse.Refused? ==> s.setup.pausing || (s.setup.shrinking && s.setup.strategy.MaxLen?)
    ensures s'.loop.Picking? && s'.loop.pick.Recheck? ==> s.setup.strategy.MaxLen?
    ensures s'.loop.Picking? && !s.setup.pausing && !s.setup.shrinking ==> StillHas(s', s'.loop.pick)
  {
  }

  lemma PickSeen(s: State, n: nat, left: set<nat>, best: Best, s': State)
    requires s.loop == Picking(n, Pick(left, best)) && PickStep(s, n, Pick(left, best), s') && Seen(s) && !Owed(s)
    ensures Seen(s')
  {
    if left == {} && best.NoBest? && n == 0 {
      assert forall k: nat :: k < |s.queues| ==> Len(s.queues[k]) == 0;
      assert s'.loop.Hand? ==> NothingPending(s');
    }
  }

  /** A refused or failed dequeue from the only queue means that nothing is pending. */
  lemma TakeSeen(s: State, n: nat, at: PickAt, s': State)
    requires s.loop == Picking(n, at) && !at.Pick? && PickStep(s, n, at, s') && Seen(s) && !Owed(s) && Fixed(s)
    ensures Seen(s')
  {
    if n == 0 && s'.loop == Hand(BackCount(false)) && |s.queues| == 1 {
      assert at.k == 0 && Len(s.queues[0]) == 0;
      assert NothingPending(s');
    }
  }

  lemma PickKeeps(s: State, n: nat, at: PickAt, s': State)
    requires Inv(s) && s.loop == Picking(n, at) && PickStep(s, n, at, s')
    ensures Inv(s')
  {
    PickFrame(s, n, at, s');
    PickGives(s, n, at, s');
    if !Owed(s) {
      if at.Pick? { PickSeen(s, n, at.left, at.best, s'); } else { TakeSeen(s, n, at, s'); }
    }
  }

  // ---------------------------------------------------------------- the hand-off

  lemma HandFrame(s: State, at: HandAt, s': State)
    requires HandStep(s, at, s')
    ensures LoopFrame(s, s') && s'.excuse == s.excuse && s'.signal == s.signal
    ensures s'.workers == if at.Send? then s.workers + [Working] else s.workers
    ensures s'.loop.Picking? ==> s'.loop.pick.Pick? && s'.loop.pick.best.NoBest?
  {
  }

  lemma HandCounts(s: State, at: HandAt, s': State)
    requires HandStep(s, at, s')
    ensures !at.Send? ==> s'.busy - LoopBusy(s'.loop) == s.busy - 1
    ensures at.Send? ==> s'.busy == s.busy && LoopBusy(s'.loop) == 0
    ensures s'.len - s'.idle - LoopAhead(s'.loop) == s.len - s.idle - LoopAhead(Hand(at))
  {
  }

  lemma HandSees(s: State, at: HandAt, s': State)
    requires s.loop == Hand(at) && HandStep(s, at, s') && Seen(s) && !Owed(s) && !at.Send?
    ensures Seen(s')
  {
    match at
    case Fill(n) => assert forall k: nat :: k < |s.queues| ==> k in All(s);
    case AskParked => assert !AnyParked(s) ==> NoneParked(s);
    case _ =>
  }

  lemma HandKeeps(s: State, at: HandAt, s': State)
    requires Inv(s) && s.loop == Hand(at) && HandStep(s, at, s')
    ensures Inv(s')
  {
    HandFrame(s, at, s');
    HandCounts(s, at, s');
    if at.Send? {
      WorkerJoins(s.workers);
      assert s'.workers[|s.workers|] == Working;
    } else if !Owed(s) {
      HandSees(s, at, s');
    }
  }

  lemma LoopKeeps(s: State, s': State)
    requires Inv(s) && LoopStep(s, s')
    ensures Inv(s')
  {
    match s.loop
    case Look(at) => ReadKeeps(s, at, s');
    case Hand(at) => HandKeeps(s, at, s');
    case Picking(n, at) => PickKeeps(s, n, at, s');
    case Select => assert s'.workers == s.workers;
    case AddBusy => assert s'.workers == s.workers;
    case Ended =>
  }

  // ---------------------------------------------------------------- everyone else

  /** A worker stays owed until it has signalled. */
  lemma WorkerOwes(s: State, w: nat, s': State)
    requires WorkerStep(s, w, s')
    ensures Owed(s')
  {
    if !s.workers[w].Signal? {
      assert w < |s'.workers| && !s'.workers[w].Gone?;
    }
  }

  lemma WorkerFixed(s: State, w: nat, s': State)
    requires WorkerStep(s, w, s') && Fixed(s)
    ensures Fixed(s')
  {
  }

  lemma WorkerFrame(s: State, w: nat, x: Worker, s': State)
    requires w < |s.workers| && WorkerGoes(s, w, x, s')
    ensures s'.limit == s.limit && s'.loop == s.loop && s'.start == s.start && |s'.workers| == |s.workers|
    ensures s'.workers == s.workers[w := s'.workers[w]]
    ensures s'.busy - BusyOne(s'.workers[w]) == s.busy - BusyOne(x)
    ensures s'.len - s'.idle - LandingOne(s'.workers[w]) == s.len - s.idle - LandingOne(x)
  {
  }

  lemma WorkerCounts(s: State, w: nat, s': State)
    requires WorkerStep(s, w, s') && Counts(s)
    ensures Counts(s')
  {
    if WorkerGoes(s, w, s.workers[w], s') {
      WorkerFrame(s, w, s.workers[w], s');
      WorkerMoves(s.workers, w, s'.workers[w]);
    }
  }

  lemma AnnouncedFrame(s: State, s': State)
    requires Announced(s, s') || Notify(s, s')
    ensures Owed(s') && s'.limit >= s.limit && s'.loop == s.loop && s'.start == s.start && s'.workers == s.workers
    ensures s'.busy == s.busy && s'.len == s.len && s'.idle == s.idle
    ensures s'.setup == s.setup && s'.excuse == s.excuse
  {
  }

  /** No queue is paused, and none is shorter. */
  ghost predicate Grows(s: State, s': State)
  {
    && |s'.queues| == |s.queues|
    && forall k :: 0 <= k < |s.queues| ==>
         && (s'.queues[k].paused ==> s.queues[k].paused)
         && Len(s.queues[k]) <= Len(s'.queues[k])
  }

  lemma AnnouncedGrows(s: State, s': State)
    requires Announced(s, s') || Notify(s, s')
    ensures Grows(s, s')
  {
  }

  lemma AnnouncedFixed(s: State, s': State)
    requires Fixed(s) && Grows(s, s') && s'.loop == s.loop && s'.setup == s.setup && s'.excuse == s.excuse
    ensures Fixed(s')
  {
  }

  lemma AnnouncedKeeps(s: State, s': State)
    requires Inv(s) && (Announced(s, s') || Notify(s, s'))
    ensures Inv(s')
  {
    AnnouncedFrame(s, s');
    AnnouncedGrows(s, s');
    AnnouncedFixed(s, s');
  }

  lemma UnannouncedFrame(s: State, s': State)
    requires Unannounced(s, s')
    ensures s'.workers == s.workers && s'.loop == s.loop && s'.signal == s.signal && s'.owing == s.owing
    ensures s'.start == s.start && s'.excuse == s.excuse && s'.setup == s.setup && (s'.active ==> s.active)
    ensures s'.busy == s.busy && s'.len - s'.idle == s.len - s.idle && (s.limit > 0 ==> s'.limit > 0)
    ensures s'.idle == s.idle || s.loop.Ended?
    ensures Quiet(s, s')
  {
  }

  lemma UnannouncedFixed(s: State, s': State)
    requires Unannounced(s, s') && Fixed(s)
    ensures Fixed(s')
  {
  }

  lemma UnannouncedKeeps(s: State, s': State)
    requires Inv(s) && Unannounced(s, s')
    ensures Inv(s')
  {
    UnannouncedFrame(s, s');
    UnannouncedFixed(s, s');
    QuietKeeps(s, s');
  }

  lemma StartKeeps(s: State, s': State)
    requires Inv(s) && StartStep(s, s')
    ensures Inv(s')
  {
    assert s'.workers == s.workers && Owed(s');
  }

  lemma NextKeeps(s: State, s': State)
    requires Inv(s) && Next(s, s')
    ensures Inv(s')
  {
    if LoopStep(s, s') {
      LoopKeeps(s, s');
    } else if w: nat :| WorkerStep(s, w, s') {
      WorkerOwes(s, w, s');
      WorkerFixed(s, w, s');
      WorkerCounts(s, w, s');
    } else if Unannounced(s, s') {
      UnannouncedKeeps(s, s');
    } else if StartStep(s, s') {
      StartKeeps(s, s');
    } else {
      AnnouncedKeeps(s, s');
    }
  }

  lemma RunKeeps(run: seq<State>)
    requires IsRun(Init, Next, run)
    ensures forall i :: 0 <= i < |run| ==> Inv(run[i])
  {
    forall s, s' | Inv(s) && Next(s, s') ensures Inv(s') {
      NextKeeps(s, s');
    }
    assert Inductive(Init, Next, Inv);
    Invariance(Init, Next, Inv, run);
  }

  // ---------------------------------------------------------------- theorems

  /** The loop waits, the worker is active, and nobody is between a change and its notify. */
  predicate AtRest(s: State)
  {
    s.loop.Select? && !s.signal && s.active && s.owing == 0 && s.start.NoStart?
  }

  /** In every run, whatever the queues, their pauses and the strategy: a loop at rest has nothing
      pending, or a batch has yet to signal its end, or it gave up on a queue it had picked with
      other queues bound; and a batch has yet to signal whenever all slots are busy. */
  lemma NoLostWakeup(run: seq<State>, i: nat)
    requires IsRun(Init, Next, run) && i < |run| && AtRest(run[i])
    ensures NothingPending(run[i]) || Unsignalled(run[i]) || (run[i].excuse.Refused? && |run[i].queues| > 1)
    ensures run[i].excuse.Refused? ==> run[i].setup.pausing || (run[i].setup.shrinking && run[i].setup.strategy.MaxLen?)
    ensures run[i].busy >= run[i].limit ==> Unsignalled(run[i])
  {
    RunKeeps(run);
    if BusyIn(run[i].workers) > 0 {
      BusyIsOwed(run[i].workers);
    }
  }
}
