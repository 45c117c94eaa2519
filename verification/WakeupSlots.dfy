/** The event loop uses its slots: while a queue has waiting jobs it does not go back to wait with a slot
    free unless it has a reason, it keeps to the limit, and it takes from no paused queue. */
module WakeupSlots {
  import opened Runs
  import opened Wakeup

  /** No queue has a waiting job, as its source reports it. */
  ghost predicate AllEmpty(s: State)
  {
    forall k :: 0 <= k < |s.queues| ==> Len(s.queues[k]) == 0
  }

  /** A batch has left its slot and is about to signal. */
  ghost predicate Signalling(s: State)
  {
    exists w :: 0 <= w < |s.workers| && s.workers[w].Signal?
  }

  /** The loop will look again. */
  ghost predicate Told(s: State)
  {
    s.signal || s.owing > 0 || !s.start.NoStart? || Signalling(s)
  }

  ghost predicate MayRest(s: State)
  {
    !s.active || AllEmpty(s) || (s.excuse.Refused? && |s.queues| > 1)
  }

  /** What each position of the loop knows, unless it will look again. */
  ghost predicate Knows(s: State)
  {
    Told(s) || match s.loop
      case Select => MayRest(s) || s.busy >= s.limit || s.excuse.NoWorker?
      case Look(LoadLimit(b)) => b == s.busy
      case Look(LoadLen(some, left)) => some || ReadEmpty(s, left)
      case Hand(Send(cont)) => cont || MayRest(s)
      case Hand(BackCount(cont)) => cont || MayRest(s)
      case Hand(BackLand(cont)) => cont || MayRest(s)
      case Hand(BackUnbusy(cont)) => cont || MayRest(s)
      case Picking(n, Pick(left, NoBest)) => ReadEmpty(s, left)
      case _ => true
  }

  ghost predicate SlotInv(s: State)
  {
    Inv(s) && Knows(s)
  }

  lemma QuietEmpty(s: State, s': State)
    requires Quiet(s, s')
    ensures AllEmpty(s) ==> AllEmpty(s')
  {
  }

  // ---------------------------------------------------------------- the loop

  lemma LookKnows(s: State, at: LookAt, s': State)
    requires s.loop == Look(at) && ReadStep(s, at, s') && Knows(s) && !Told(s)
    ensures Knows(s')
  {
    ReadFrame(s, at, s');
    if at.LoadLen? && at.left == {} && !at.some {
      assert forall k: nat :: k < |s.queues| ==> Len(s.queues[k]) == 0;
      assert AllEmpty(s');
    }
  }

  lemma PickKnows(s: State, n: nat, left: set<nat>, best: Best, s': State)
    requires s.loop == Picking(n, Pick(left, best)) && PickStep(s, n, Pick(left, best), s') && Knows(s) && !Told(s)
    ensures Knows(s')
  {
    if left == {} && best.NoBest? {
      assert forall k: nat :: k < |s.queues| ==> Len(s.queues[k]) == 0;
      assert s'.loop.Hand? ==> AllEmpty(s');
    }
  }

  /** A refused dequeue: with one queue there is nothing to take, with more the loop gives up on it. */
  lemma TakeKnows(s: State, n: nat, at: PickAt, s': State)
    requires s.loop == Picking(n, at) && !at.Pick? && PickStep(s, n, at, s') && Knows(s) && !Told(s) && Fixed(s)
    ensures Knows(s')
  {
    if s'.loop == Done(n, false) && |s.queues| == 1 {
      assert at.k == 0 && Len(s.queues[0]) == 0;
      assert AllEmpty(s');
    }
  }

  lemma HandKnows(s: State, at: HandAt, s': State)
    requires s.loop == Hand(at) && HandStep(s, at, s') && Knows(s) && !Told(s)
    ensures Knows(s')
  {
    match at
    case Fill(n) => assert forall k: nat :: k < |s.queues| ==> k in All(s);
    case Send(cont) => assert s'.queues == s.queues && s'.active == s.active && s'.excuse == s.excuse;
    case _ =>
  }

  lemma LoopTold(s: State, s': State)
    requires LoopStep(s, s') && !s.loop.Select?
    ensures Told(s) ==> Told(s')
  {
    LoopLeaves(s, s');
    if Signalling(s) {
      var w :| 0 <= w < |s.workers| && s.workers[w].Signal?;
      assert s'.workers[w].Signal?;
    }
  }

  /** The loop consumes the signal only where it waits for it. */
  lemma LoopLeaves(s: State, s': State)
    requires LoopStep(s, s') && !s.loop.Select?
    ensures s'.signal == s.signal && s'.owing == s.owing && s'.start == s.start && s.workers <= s'.workers
  {
    match s.loop
    case Look(at) => ReadFrame(s, at, s');
    case Hand(at) => HandFrame(s, at, s');
    case Picking(n, at) => PickFrame(s, n, at, s');
    case _ =>
  }

  lemma LoopKnows(s: State, s': State)
    requires SlotInv(s) && LoopStep(s, s')
    ensures Knows(s')
  {
    if s.loop.Select? {
      assert s'.loop == Look(CheckActive) || s'.loop.Ended?;
    } else if Told(s) {
      LoopTold(s, s');
    } else {
      match s.loop
      case Look(at) => LookKnows(s, at, s');
      case Hand(at) => HandKnows(s, at, s');
      case Picking(n, at) => if at.Pick? { PickKnows(s, n, at.left, at.best, s'); } else { TakeKnows(s, n, at, s'); }
      case _ =>
    }
  }

  // ---------------------------------------------------------------- everyone else

  lemma WorkerKnows(s: State, w: nat, s': State)
    requires Knows(s) && WorkerStep(s, w, s')
    ensures Knows(s')
  {
    if WorkerGoes(s, w, s.workers[w], s') {
      if s.workers[w].Unbusy? {
        assert s'.workers[w].Signal?;
      } else if !s.workers[w].Signal? {
        KeepsSignals(s, w, s');
        assert s'.queues == s.queues;
      }
    } else {
      ParksKeep(s, s');
    }
  }

  lemma KeepsSignals(s: State, w: nat, s': State)
    requires w < |s.workers| == |s'.workers| && s'.workers == s.workers[w := s'.workers[w]] && !s.workers[w].Signal?
    ensures Signalling(s) ==> Signalling(s')
  {
    if Signalling(s) {
      var u :| 0 <= u < |s.workers| && s.workers[u].Signal?;
      assert s'.workers[u].Signal?;
    }
  }

  lemma ParksKeep(s: State, s': State)
    requires Knows(s) && ParksRest(s, s')
    ensures Knows(s')
  {
    assert forall k :: 0 <= k < |s.queues| ==> Len(s'.queues[k]) == Len(s.queues[k]);
    assert AllEmpty(s) ==> AllEmpty(s');
    assert forall left :: ReadEmpty(s, left) ==> ReadEmpty(s', left);
    assert s'.workers == s.workers;
  }

  lemma UnannouncedKnows(s: State, s': State)
    requires Knows(s) && Unannounced(s, s')
    ensures Knows(s')
  {
    UnannouncedFrame(s, s');
    QuietKeeps(s, s');
    QuietEmpty(s, s');
    LimitFalls(s, s');
  }

  lemma LimitFalls(s: State, s': State)
    requires Unannounced(s, s')
    ensures s'.limit <= s.limit && s'.busy == s.busy && |s'.queues| == |s.queues|
  {
  }

  lemma OwedKnows(s: State, s': State)
    requires Announced(s, s') || Notify(s, s') || StartStep(s, s')
    ensures Told(s')
  {
  }

  lemma NextKnows(s: State, s': State)
    requires SlotInv(s) && Next(s, s')
    ensures SlotInv(s')
  {
    NextKeeps(s, s');
    if LoopStep(s, s') {
      LoopKnows(s, s');
    } else if w: nat :| WorkerStep(s, w, s') {
      WorkerKnows(s, w, s');
    } else if Unannounced(s, s') {
      UnannouncedKnows(s, s');
    } else {
      OwedKnows(s, s');
    }
  }

  lemma SlotRun(run: seq<State>)
    requires IsRun(Init, Next, run)
    ensures forall i :: 0 <= i < |run| ==> SlotInv(run[i])
  {
    forall s | Init(s) ensures SlotInv(s) {
      assert Inv(s);
    }
    forall s, s' | SlotInv(s) && Next(s, s') ensures SlotInv(s') {
      NextKnows(s, s');
    }
    Invariance(Init, Next, SlotInv, run);
  }

  /** In every run: if an active worker's loop waits though a queue has a waiting job, with nobody between
      a change and its notify, then every slot is taken, or a batch has just left one and is about to
      signal, or no worker was idle and one more was not worth its cost, or the loop gave up on a
      refused queue with others bound. So as long as workers are worth having, no slot stays free
      beside a waiting job until some batch ends. */
  lemma NoIdleSlot(run: seq<State>, i: nat)
    requires IsRun(Init, Next, run) && i < |run| && AtRest(run[i])
    ensures AllEmpty(run[i]) || run[i].busy >= run[i].limit || Signalling(run[i]) || run[i].excuse.NoWorker?
         || (run[i].excuse.Refused? && |run[i].queues| > 1)
  {
    SlotRun(run);
    assert SlotInv(run[i]);
  }

  // ---------------------------------------------------------------- the limit

  /** The loop has found a slot free and not taken it yet. */
  function Going(loop: Loop): nat
  {
    match loop
    case Look(at) => if at.CheckActive? || at.LoadBusy? || at.LoadLimit? then 0 else 1
    case AddBusy => 1
    case _ => 0
  }

  /** No limit above top was set. */
  ghost predicate Capped(run: seq<State>, k: nat, top: nat)
  {
    && k < |run| && run[k].busy + Going(run[k].loop) <= top
    && (run[k].loop.Look? && run[k].loop.look.LoadLimit? ==> run[k].busy <= run[k].loop.look.b)
  }

  lemma LookCapped(s: State, at: LookAt, s': State, top: nat)
    requires s.loop == Look(at) && ReadStep(s, at, s') && s.limit <= top && s.busy + Going(s.loop) <= top
    requires at.LoadLimit? ==> s.busy <= at.b
    ensures s'.busy + Going(s'.loop) <= top
    ensures s'.loop.Look? && s'.loop.look.LoadLimit? ==> s'.busy <= s'.loop.look.b
  {
  }

  lemma StepCapped(s: State, s': State)
    requires Counts(s) && Next(s, s') && !s.loop.Look?
    ensures s'.busy + Going(s'.loop) <= s.busy + Going(s.loop)
    ensures s'.loop.Look? ==> s'.loop.look.CheckActive?
  {
    if LoopStep(s, s') {
      match s.loop
      case Hand(at) => HandCapped(s, at, s');
      case Picking(n, at) => PickFrame(s, n, at, s');
      case _ =>
    } else if w: nat :| WorkerStep(s, w, s') {
      WorkerCapped(s, w, s');
    } else {
      OthersCapped(s, s');
    }
  }

  lemma HandCapped(s: State, at: HandAt, s': State)
    requires HandStep(s, at, s')
    ensures s'.busy <= s.busy && (s'.loop.Hand? || s'.loop.Picking? || s'.loop.Select? || s'.loop == Look(CheckActive))
  {
  }

  lemma WorkerCapped(s: State, w: nat, s': State)
    requires WorkerStep(s, w, s')
    ensures s'.busy <= s.busy && s'.loop == s.loop
  {
  }

  lemma OthersCapped(s: State, s': State)
    requires Announced(s, s') || Unannounced(s, s') || Notify(s, s') || StartStep(s, s')
    ensures s'.busy == s.busy && (s'.loop == s.loop || s'.loop.Select?)
  {
  }

  lemma CappedNext(run: seq<State>, k: nat, top: nat)
    requires IsRun(Init, Next, run) && k + 1 < |run| && Capped(run, k, top) && run[k].limit <= top
    ensures Capped(run, k + 1, top)
  {
    RunKeeps(run);
    NextAt(Init, Next, run, k);
    var s, s' := run[k], run[k + 1];
    if s.loop.Look? {
      if LoopStep(s, s') {
        LookCapped(s, s.loop.look, s', top);
      } else if w: nat :| WorkerStep(s, w, s') {
        WorkerCapped(s, w, s');
      } else {
        OthersCapped(s, s');
      }
    } else {
      StepCapped(s, s');
    }
  }

  /** In every run, busy workers stay within every bound the limit has stayed within. */
  lemma BusyWithinLimit(run: seq<State>, j: nat, top: nat)
    requires IsRun(Init, Next, run) && j < |run| && forall k :: 0 <= k <= j ==> run[k].limit <= top
    ensures run[j].busy <= top
  {
    var p := (k: nat) => Capped(run, k, top);
    forall k: nat, l: nat | 0 <= k < j && l == k + 1 && p(k) ensures p(l) {
      CappedNext(run, k, top);
    }
    assert p(0);
    Along(p, 0, j);
  }

  // ---------------------------------------------------------------- what is taken

  /** One job is taken from a queue that is not paused. */
  ghost predicate TakesOne(s: State, s': State)
  {
    exists k: nat :: k < |s.queues| && !s.queues[k].paused && s.queues[k].queued > 0
                     && s'.queues == s.queues[k := s.queues[k].(queued := s.queues[k].queued - 1)]
  }

  /** Parked jobs are taken from a queue that is not paused. */
  ghost predicate TakesBack(s: State, s': State)
  {
    exists k: nat :: k < |s.queues| && !s.queues[k].paused && |s'.queues| == |s.queues|
                     && s'.queues[k].parked < s.queues[k].parked
                     && s'.queues == s.queues[k := s.queues[k].(parked := s'.queues[k].parked)]
  }

  /** In every run: a batch gets a job only by taking one off a queue that is not paused, or parked jobs of
      one; no other step of the loop changes a queue; and it reserves only on an active worker. */
  lemma LoopTakesOne(run: seq<State>, i: nat)
    requires IsRun(Init, Next, run) && i + 1 < |run| && LoopStep(run[i], run[i + 1])
    ensures run[i + 1].queues == run[i].queues || TakesOne(run[i], run[i + 1]) || TakesBack(run[i], run[i + 1])
    ensures run[i].loop.Picking? && run[i + 1].loop.Hand? && run[i + 1].loop.hand.Fill? ==>
      && TakesOne(run[i], run[i + 1])
      && run[i].loop.n <= run[i + 1].loop.hand.n <= run[i].loop.n + 1
    ensures run[i].loop == Hand(Unpark) && run[i + 1].loop.Hand? && run[i + 1].loop.hand.Send? ==>
      TakesBack(run[i], run[i + 1])
    ensures run[i].loop == Hand(Reserve) ==>
      run[i + 1].loop == Hand(if run[i].active then AskParked else BackCount(false))
  {
    var s, s' := run[i], run[i + 1];
    match s.loop
    case Look(at) => ReadFrame(s, at, s');
    case Picking(n, at) =>
      if at.Take? {
        TakenOne(s, n, at.k, s');
      } else {
        ChoiceFrame(s, n, at, s');
        ChoiceFills(s, n, at, s');
      }
    case Hand(at) => HandTakes(s, at, s');
    case _ =>
  }

  lemma TakenOne(s: State, n: nat, k: nat, s': State)
    requires k < |s.queues| && TakeStep(s, n, k, s')
    ensures s'.queues == s.queues || TakesOne(s, s')
    ensures s'.loop.Hand? && s'.loop.hand.Fill? ==> TakesOne(s, s') && n <= s'.loop.hand.n <= n + 1
  {
  }

  lemma ChoiceFills(s: State, n: nat, at: PickAt, s': State)
    requires PickStep(s, n, at, s') && !at.Take?
    ensures s'.loop.Hand? ==> !s'.loop.hand.Fill?
  {
    if at.Pick? && at.left != {} {
      var k :| k in at.left && k < |s.queues| && ReadLen(s, n, at.left, at.best, k, s');
      ReadLenFrame(s, n, at.left, at.best, k, s');
    }
  }

  lemma HandTakes(s: State, at: HandAt, s': State)
    requires HandStep(s, at, s')
    ensures s'.queues == s.queues || TakesBack(s, s')
    ensures at.Unpark? && s'.loop.Hand? && s'.loop.hand.Send? ==> TakesBack(s, s')
  {
    if at.Unpark? && !NoneParked(s) {
      var k: nat, p: nat :| TakesParked(s, k, p, s');
      assert s'.queues[k].parked == p;
    }
  }
}
