/** The abstract lifecycle the dispatch protocol relies on: what a worker's status means for
    the jobs that were granted a reservation and are not finished yet. */
module Phases {

  /** Active: Idle or Running. Draining: Pausing or Stopping. Halted: Initiated, Paused or Stopped. */
  datatype Phase = Active | Draining | Halted

  /** The phase moves freely from Active to Draining; every other move needs all granted
      reservations finished. */
  predicate PhaseMove(phase: Phase, granted: nat, phase': Phase)
  {
    phase == phase' || (phase.Active? && phase'.Draining?) || granted == 0
  }

  /** One step as seen from outside: the phase moves, a reservation is granted (only while
      Active), or granted jobs finish. */
  predicate PhaseStep(phase: Phase, granted: nat, phase': Phase, granted': nat)
  {
    || (granted == granted' && PhaseMove(phase, granted, phase'))
    || (granted < granted' && phase.Active? && phase'.Active?)
    || (granted > granted' && phase == phase')
  }
}

/** The worker's status word and processing count (worker_eventloop.go, worker_lifecycle.go,
    worker_wait.go). Goroutine 0 is the event loop; the others are pool goroutines and callers of
    Pause, Resume, Stop and Start. One step is one atomic operation, or one lock or unlock of mx. */
module Lifecycle {
  import opened Runs
  import opened Phases

  datatype Status = Initiated | Idle | Running | Pausing | Paused | Stopping | Stopped

  /** Program points of finishJobs after its decrement, through releaseWaiters. */
  datatype FinAt = Locking | Loading | ToIdle | Recheck | Restore | ToPaused | Unlocking

  /** Program points of Pause, of Start, and of the event loop shutting down. */
  datatype PauseAt = PauseLock | PauseLoad | PauseIdle | PauseRunning | PauseCheck | PauseFlip | PauseUnlock
  datatype StartAt = StartLock | StartCheck | StartStore | StartUnlock
  datatype ShutAt = ShutStore | ShutLock | ShutStatus | ShutCount(seen: Status) | ShutRemove | ShutStopped

  /** A goroutine's program counter. `hand` counts jobs granted to it and not passed on yet. */
  datatype Pc =
    | Dead
    | Dispatch(hand: nat)
    | ReserveLoad(n: nat)
    | ReserveCas(n: nat)
    | Shut(shut: ShutAt)
    | FinDec(m: nat, hand: nat, granted: bool)
    | Fin(fin: FinAt, hand: nat)
    | Working(hand: nat)
    | Rest
    | Resume
    | Pause(pause: PauseAt)
    | StopLoad
    | StopCas(attempt: nat)
    | StopCancel
    | Start(start: StartAt)

  datatype Lock = Free | HeldBy(owner: nat)

  /** What goroutines share: the status, curProcessing, mx, whether the context is done, and
      whether an event loop was launched and has not returned. */
  datatype Shared = Shared(status: Status, processing: nat, mx: Lock, cancelled: bool, alive: bool)

  datatype State = State(sh: Shared, pcs: seq<Pc>)

  ghost predicate Init(s: State)
  {
    s == State(Shared(Initiated, 0, Free, false, false), [Dead])
  }

  // ---------------------------------------------------------------- steps

  /** Where a goroutine goes when finishJobs returns. */
  function AfterFinish(t: nat, hand: nat): Pc
  {
    if t == 0 then Dispatch(hand) else Rest
  }

  function StopFrom(attempt: nat): Status
  {
    if attempt == 0 then Running else if attempt == 1 then Idle else if attempt == 2 then Pausing else Paused
  }

  predicate DispatchStep(sh: Shared, pc: Pc, sh': Shared, pc': Pc)
  {
    match pc
    case Dead => sh.alive && pc' == Dispatch(0) && sh' == sh
    case Dispatch(hand) =>
      // reserve counts first and reads the status afterwards
      || (hand == 0 && pc'.ReserveLoad? && pc'.n > 0 && sh' == sh.(processing := sh.processing + pc'.n))
      // the context is done
      || (hand == 0 && sh.cancelled && pc' == Shut(ShutStore) && sh' == sh)
      // more was reserved than could be filled
      || (pc'.FinDec? && pc'.granted && pc'.m > 0 && pc'.m + pc'.hand == hand && sh' == sh)
    case ReserveLoad(n) =>
      && sh' == sh
      && pc' == (if sh.status.Running? then Dispatch(n)
                 else if sh.status.Idle? then ReserveCas(n) else FinDec(n, 0, false))
    case ReserveCas(n) =>
      if sh.status.Idle? then pc' == Dispatch(n) && sh' == sh.(status := Running)
      else pc' == ReserveLoad(n) && sh' == sh
    case _ => false
  }

  /** The event loop once its context is done: store Stopping, wait, store Stopped, return. */
  predicate ShutdownStep(sh: Shared, pc: Pc, sh': Shared, pc': Pc)
  {
    match pc
    case Shut(ShutStore) => pc' == Shut(ShutLock) && sh' == sh.(status := Stopping)
    case Shut(ShutLock) => sh.mx.Free? && pc' == Shut(ShutStatus) && sh' == sh.(mx := HeldBy(0))
    case Shut(ShutStatus) => pc' == Shut(ShutCount(sh.status)) && sh' == sh
    case Shut(ShutCount(seen)) =>
      // Wait goes round again, or returns: with the count seen at zero, unless the worker never started
      && sh' == sh.(mx := Free)
      && (pc' == Shut(ShutLock) || (pc' == Shut(ShutRemove) && (seen.Initiated? || sh.processing == 0)))
    case Shut(ShutRemove) => sh.mx.Free? && pc' == Shut(ShutStopped) && sh' == sh.(mx := HeldBy(0))
    case Shut(ShutStopped) => pc' == Dead && sh' == sh.(status := Stopped, mx := Free, alive := false)
    case _ => false
  }

  predicate FinishStep(sh: Shared, t: nat, pc: Pc, sh': Shared, pc': Pc)
  {
    match pc
    case Working(hand) => pc' == FinDec(hand, 0, true) && sh' == sh
    case FinDec(m, hand, _) =>
      // the machine subtracts without a check; TotalCounted shows there is always enough
      && sh' == sh.(processing := if m <= sh.processing then sh.processing - m else 0)
      && pc' == (if sh'.processing == 0 then Fin(Locking, hand) else AfterFinish(t, hand))
    case Fin(Locking, hand) => sh.mx.Free? && pc' == Fin(Loading, hand) && sh' == sh.(mx := HeldBy(t))
    case Fin(Loading, hand) =>
      pc' == (if sh.processing == 0 then Fin(ToIdle, hand) else Fin(Unlocking, hand)) && sh' == sh
    case Fin(ToIdle, hand) =>
      if sh.status.Running? then pc' == Fin(Recheck, hand) && sh' == sh.(status := Idle)
      else pc' == Fin(ToPaused, hand) && sh' == sh
    case Fin(Recheck, hand) =>
      pc' == (if sh.processing != 0 then Fin(Restore, hand) else Fin(Unlocking, hand)) && sh' == sh
    case Fin(Restore, hand) =>
      pc' == Fin(Unlocking, hand) && sh' == sh.(status := if sh.status.Idle? then Running else sh.status)
    case Fin(ToPaused, hand) =>
      pc' == Fin(Unlocking, hand) && sh' == sh.(status := if sh.status.Pausing? then Paused else sh.status)
    case Fin(Unlocking, hand) => pc' == AfterFinish(t, hand) && sh' == sh.(mx := Free)
    case _ => false
  }

  predicate PauseStep(sh: Shared, t: nat, pc: Pc, sh': Shared, pc': Pc)
  {
    match pc
    case Pause(PauseLock) => sh.mx.Free? && pc' == Pause(PauseLoad) && sh' == sh.(mx := HeldBy(t))
    case Pause(PauseLoad) =>
      pc' == (if sh.status.Paused? || sh.status.Pausing? then Pause(PauseUnlock) else Pause(PauseIdle)) && sh' == sh
    case Pause(PauseIdle) =>
      if sh.status.Idle? then pc' == Pause(PauseUnlock) && sh' == sh.(status := Paused)
      else pc' == Pause(PauseRunning) && sh' == sh
    case Pause(PauseRunning) =>
      if sh.status.Running? then pc' == Pause(PauseCheck) && sh' == sh.(status := Pausing)
      else pc' == Pause(PauseUnlock) && sh' == sh
    case Pause(PauseCheck) => pc' == (if sh.processing == 0 then Pause(PauseFlip) else Pause(PauseUnlock)) && sh' == sh
    case Pause(PauseFlip) =>
      pc' == Pause(PauseUnlock) && sh' == sh.(status := if sh.status.Pausing? then Paused else sh.status)
    case Pause(PauseUnlock) => pc' == Rest && sh' == sh.(mx := Free)
    case _ => false
  }

  predicate StopStartStep(sh: Shared, t: nat, pc: Pc, sh': Shared, pc': Pc)
  {
    match pc
    case Rest =>
      (pc' == Pause(PauseLock) || pc' == Resume || pc' == StopLoad || pc' == Start(StartLock)) && sh' == sh
    case Resume => pc' == Rest && sh' == (if sh.status.Paused? then sh.(status := Idle) else sh)
    case StopLoad => pc' == (if sh.status.Stopped? || sh.status.Stopping? then Rest else StopCas(0)) && sh' == sh
    case StopCas(attempt) =>
      if attempt < 4 && sh.status == StopFrom(attempt) then pc' == StopCancel && sh' == sh.(status := Stopping)
      else pc' == (if attempt < 4 then StopCas(attempt + 1) else Rest) && sh' == sh
    case StopCancel => sh.mx.Free? && pc' == Rest && sh' == sh.(cancelled := true)
    case Start(StartLock) => sh.mx.Free? && pc' == Start(StartCheck) && sh' == sh.(mx := HeldBy(t))
    case Start(StartCheck) =>
      // goEventLoop; a restart makes a new context, already done if its parent is
      if Down(sh.status) then pc' == Start(StartStore) && sh' == sh.(alive := true, cancelled := sh'.cancelled)
      else pc' == Start(StartUnlock) && sh' == sh
    case Start(StartStore) => pc' == Start(StartUnlock) && sh' == sh.(status := Idle)
    case Start(StartUnlock) => pc' == Rest && sh' == sh.(mx := Free)
    case _ => false
  }

  /** Goroutine t makes its next step; goroutine 0 is the event loop. */
  predicate GoStep(sh: Shared, t: nat, pc: Pc, sh': Shared, pc': Pc)
  {
    match pc
    case FinDec(_, _, _) => FinishStep(sh, t, pc, sh', pc')
    case Fin(_, _) => FinishStep(sh, t, pc, sh', pc')
    case Working(_) => FinishStep(sh, t, pc, sh', pc')
    case Shut(_) => t == 0 && ShutdownStep(sh, pc, sh', pc')
    case Pause(_) => t > 0 && PauseStep(sh, t, pc, sh', pc')
    case _ => if t == 0 then DispatchStep(sh, pc, sh', pc') else StopStartStep(sh, t, pc, sh', pc')
  }

  /** SendBatch or Send: m of the granted jobs now belong to a pool goroutine. */
  ghost predicate HandOff(s: State, m: nat, s': State)
  {
    && |s.pcs| > 0 && s.pcs[0].Dispatch? && 0 < m <= s.pcs[0].hand
    && s' == s.(pcs := s.pcs[0 := Dispatch(s.pcs[0].hand - m)] + [Working(m)])
  }

  ghost predicate Moves(s: State, t: nat, s': State)
  {
    && t < |s.pcs| == |s'.pcs|
    && s'.pcs == s.pcs[t := s'.pcs[t]]
    && GoStep(s.sh, t, s.pcs[t], s'.sh, s'.pcs[t])
  }

  ghost predicate Next(s: State, s': State)
  {
    || (exists t: nat :: Moves(s, t, s'))
    || (exists m: nat :: HandOff(s, m, s'))
    || s' == s.(pcs := s.pcs + [Rest])                 // one more caller
    || s' == s.(sh := s.sh.(cancelled := true))        // the parent context is cancelled
  }

  // ---------------------------------------------------------------- counting

  /** Jobs this goroutine has counted in `processing`. */
  function Counted(pc: Pc): nat
  {
    match pc
    case Dispatch(hand) => hand
    case ReserveLoad(n) => n
    case ReserveCas(n) => n
    case FinDec(m, hand, _) => m + hand
    case Fin(_, hand) => hand
    case Working(hand) => hand
    case _ => 0
  }

  /** The counted jobs whose reservation was granted. */
  function GrantedOf(pc: Pc): nat
  {
    match pc
    case Dispatch(hand) => hand
    case FinDec(m, hand, granted) => hand + (if granted then m else 0)
    case Fin(_, hand) => hand
    case Working(hand) => hand
    case _ => 0
  }

  function TotalCounted(pcs: seq<Pc>): nat
  {
    if pcs == [] then 0 else Counted(pcs[0]) + TotalCounted(pcs[1..])
  }

  function TotalGranted(pcs: seq<Pc>): nat
  {
    if pcs == [] then 0 else GrantedOf(pcs[0]) + TotalGranted(pcs[1..])
  }

  lemma {:induction false} TotalsUpdate(pcs: seq<Pc>, t: nat, pc: Pc)
    requires t < |pcs|
    ensures TotalCounted(pcs[t := pc]) == TotalCounted(pcs) - Counted(pcs[t]) + Counted(pc)
    ensures TotalGranted(pcs[t := pc]) == TotalGranted(pcs) - GrantedOf(pcs[t]) + GrantedOf(pc)
  {
    if t > 0 {
      assert pcs[t := pc][1..] == pcs[1..][t - 1 := pc];
      TotalsUpdate(pcs[1..], t - 1, pc);
    } else {
      assert pcs[t := pc][1..] == pcs[1..];
    }
  }

  lemma {:induction false} TotalsAppend(pcs: seq<Pc>, pc: Pc)
    ensures TotalCounted(pcs + [pc]) == TotalCounted(pcs) + Counted(pc)
    ensures TotalGranted(pcs + [pc]) == TotalGranted(pcs) + GrantedOf(pc)
  {
    if pcs == [] {
      assert pcs + [pc] == [pc];
    } else {
      assert (pcs + [pc])[1..] == pcs[1..] + [pc];
      TotalsAppend(pcs[1..], pc);
    }
  }

  lemma {:induction false} GrantedAtMostCounted(pcs: seq<Pc>)
    ensures TotalGranted(pcs) <= TotalCounted(pcs)
  {
    if pcs != [] {
      GrantedAtMostCounted(pcs[1..]);
    }
  }

  lemma {:induction false} OneAtMostTotal(pcs: seq<Pc>, t: nat)
    requires t < |pcs|
    ensures Counted(pcs[t]) <= TotalCounted(pcs)
    ensures GrantedOf(pcs[t]) <= TotalGranted(pcs)
  {
    if t > 0 {
      OneAtMostTotal(pcs[1..], t - 1);
    }
  }

  // ---------------------------------------------------------------- invariant

  predicate InLock(pc: Pc)
  {
    match pc
    case Shut(at) => at.ShutStatus? || at.ShutCount? || at.ShutStopped?
    case Fin(at, _) => !at.Locking?
    case Pause(at) => !at.PauseLock?
    case Start(at) => !at.StartLock?
    case _ => false
  }

  /** releaseWaiters has moved Running to Idle and not yet repaired it. */
  predicate InWindow(pc: Pc)
  {
    pc.Fin? && (pc.fin.Recheck? || pc.fin.Restore?)
  }

  /** Never started, or stopped: Start may run. */
  predicate Down(status: Status)
  {
    status.Initiated? || status.Stopped?
  }

  predicate WellFormed(t: nat, pc: Pc)
  {
    match pc
    case Dead => t == 0
    case Dispatch(_) => t == 0
    case ReserveLoad(n) => t == 0 && n > 0
    case ReserveCas(n) => t == 0 && n > 0
    case Shut(_) => t == 0
    case FinDec(m, hand, _) => m > 0 && (t > 0 ==> hand == 0)
    case Fin(_, hand) => t > 0 ==> hand == 0
    case Working(hand) => t > 0 && hand > 0
    case _ => t > 0
  }

  /** What a goroutine may rely on at its program counter, with `granted` jobs granted and
      unfinished. */
  predicate Assertion(sh: Shared, granted: nat, pc: Pc)
  {
    match pc
    case Fin(at, _) => (at.ToIdle? || at.ToPaused?) && sh.status.Pausing? ==> granted == 0
    case Pause(at) => at.PauseFlip? && sh.status.Pausing? ==> granted == 0
    case Start(at) => at.StartStore? ==> sh.alive && granted == 0 && (Down(sh.status) || sh.status.Stopping?)
    case Shut(at) =>
      && (!at.ShutStore? && !sh.status.Stopping? ==> granted == 0)
      && (at.ShutRemove? || at.ShutStopped? ==> granted == 0)
      && (at.ShutCount? && !at.seen.Stopping? ==> granted == 0)
    case _ => true
  }

  predicate Local(sh: Shared, granted: nat, t: nat, pc: Pc)
  {
    && WellFormed(t, pc)
    && Assertion(sh, granted, pc)
    && (InLock(pc) <==> sh.mx == HeldBy(t))
    && (sh.mx == HeldBy(t) && sh.status.Idle? && granted > 0 ==> InWindow(pc))
    && (sh.mx == HeldBy(t) && Down(sh.status) && sh.alive ==> pc == Start(StartStore))
    && (t == 0 && !sh.alive ==> pc.Dead?)
  }

  predicate Global(sh: Shared, granted: nat)
  {
    && granted <= sh.processing
    && (sh.status.Paused? || Down(sh.status) ==> granted == 0)
    && (sh.status.Idle? && granted > 0 ==> sh.mx.HeldBy?)
    && (Down(sh.status) && sh.alive ==> sh.mx.HeldBy?)
    && (!sh.alive ==> Down(sh.status))
  }

  ghost predicate Inv(s: State)
  {
    var granted := TotalGranted(s.pcs);
    && |s.pcs| > 0
    && s.sh.processing == TotalCounted(s.pcs)
    && (s.sh.mx.HeldBy? ==> s.sh.mx.owner < |s.pcs|)
    && Global(s.sh, granted)
    && forall t: nat :: t < |s.pcs| ==> Local(s.sh, granted, t, s.pcs[t])
  }

  // ---------------------------------------------------------------- preservation

  /** What one step of goroutine t does to what the others can see. */
  predicate Effect(sh: Shared, g: nat, t: nat, sh': Shared, g': nat)
  {
    && (sh'.mx == sh.mx || (sh.mx.Free? && sh'.mx == HeldBy(t)) || (sh.mx == HeldBy(t) && sh'.mx.Free?))
    && (g' > g ==> t == 0 && sh'.status.Running?)
    && (sh'.status != sh.status ==>
          || (sh.status.Running? && sh'.status.Idle? && sh.mx == HeldBy(t))
          || (sh.status.Idle? && sh'.status.Running?)
          || (sh'.status.Paused? && g == 0 && sh.mx == HeldBy(t))
          || (sh.status.Running? && sh'.status.Pausing? && sh.mx == HeldBy(t))
          || sh'.status.Stopping?
          || (sh'.status.Stopped? && g == 0 && sh.mx == HeldBy(t))
          || (sh'.status.Idle? && g == 0 && g' == 0 && (sh.mx == HeldBy(t) || sh.status.Paused?)))
    && (sh'.alive != sh.alive ==> sh.mx == HeldBy(t))
    && (sh.alive && !sh'.alive ==> t == 0)
  }

  lemma DispatchKeeps(sh: Shared, g: nat, pc: Pc, sh': Shared, g': nat, pc': Pc)
    requires Global(sh, g) && Local(sh, g, 0, pc) && DispatchStep(sh, pc, sh', pc')
    requires g' == g - GrantedOf(pc) + GrantedOf(pc') && GrantedOf(pc) <= g && g' <= sh'.processing
    ensures Global(sh', g') && Local(sh', g', 0, pc') && Effect(sh, g, 0, sh', g')
  {
  }

  lemma ShutdownKeeps(sh: Shared, g: nat, pc: Pc, sh': Shared, pc': Pc)
    requires Global(sh, g) && Local(sh, g, 0, pc) && ShutdownStep(sh, pc, sh', pc')
    ensures Global(sh', g) && Local(sh', g, 0, pc') && Effect(sh, g, 0, sh', g)
  {
  }

  lemma FinishKeeps(sh: Shared, g: nat, t: nat, pc: Pc, sh': Shared, g': nat, pc': Pc)
    requires Global(sh, g) && Local(sh, g, t, pc) && FinishStep(sh, t, pc, sh', pc')
    requires g' == g - GrantedOf(pc) + GrantedOf(pc') && GrantedOf(pc) <= g
    requires Counted(pc) <= sh.processing && g' <= sh'.processing
    ensures Global(sh', g') && Local(sh', g', t, pc')
  {
  }

  lemma FinishEffect(sh: Shared, g: nat, t: nat, pc: Pc, sh': Shared, g': nat, pc': Pc)
    requires Global(sh, g) && Local(sh, g, t, pc) && FinishStep(sh, t, pc, sh', pc')
    requires g' == g - GrantedOf(pc) + GrantedOf(pc') && GrantedOf(pc) <= g
    requires Counted(pc) <= sh.processing && g' <= sh'.processing
    ensures Effect(sh, g, t, sh', g')
  {
  }

  lemma PauseKeeps(sh: Shared, g: nat, t: nat, pc: Pc, sh': Shared, pc': Pc)
    requires t > 0 && Global(sh, g) && Local(sh, g, t, pc) && PauseStep(sh, t, pc, sh', pc')
    ensures Global(sh', g) && Local(sh', g, t, pc') && Effect(sh, g, t, sh', g)
  {
  }

  lemma StopStartKeeps(sh: Shared, g: nat, t: nat, pc: Pc, sh': Shared, pc': Pc)
    requires t > 0 && Global(sh, g) && Local(sh, g, t, pc) && StopStartStep(sh, t, pc, sh', pc')
    ensures Global(sh', g) && Local(sh', g, t, pc') && Effect(sh, g, t, sh', g)
  {
  }

  /** Interference: the assertion of any other goroutine survives the step. */
  lemma OtherKeeps(sh: Shared, g: nat, t: nat, sh': Shared, g': nat, u: nat, pc: Pc)
    requires Effect(sh, g, t, sh', g')
    requires u != t && Local(sh, g, u, pc)
    ensures Local(sh', g', u, pc)
  {
  }

  /** The totals follow the one goroutine that moves; the decrement in finishJobs never underflows. */
  lemma CountsFollow(s: State, t: nat, s': State)
    requires Inv(s) && Moves(s, t, s')
    ensures Counted(s.pcs[t]) <= s.sh.processing == TotalCounted(s.pcs)
    ensures GrantedOf(s.pcs[t]) <= TotalGranted(s.pcs)
    ensures TotalGranted(s'.pcs) == TotalGranted(s.pcs) - GrantedOf(s.pcs[t]) + GrantedOf(s'.pcs[t])
    ensures s'.sh.processing == TotalCounted(s'.pcs)
    ensures TotalGranted(s'.pcs) <= s'.sh.processing
  {
    TotalsUpdate(s.pcs, t, s'.pcs[t]);
    OneAtMostTotal(s.pcs, t);
    GrantedAtMostCounted(s'.pcs);
    assert Local(s.sh, TotalGranted(s.pcs), t, s.pcs[t]);
    CountStep(s.sh, t, s.pcs[t], s'.sh, s'.pcs[t]);
  }

  lemma CountStep(sh: Shared, t: nat, pc: Pc, sh': Shared, pc': Pc)
    requires WellFormed(t, pc) && GoStep(sh, t, pc, sh', pc') && Counted(pc) <= sh.processing
    ensures sh'.processing == sh.processing - Counted(pc) + Counted(pc')
  {
  }

  lemma MoverKeeps(sh: Shared, g: nat, t: nat, pc: Pc, sh': Shared, g': nat, pc': Pc)
    requires Global(sh, g) && Local(sh, g, t, pc) && GoStep(sh, t, pc, sh', pc')
    requires g' == g - GrantedOf(pc) + GrantedOf(pc') && GrantedOf(pc) <= g
    requires Counted(pc) <= sh.processing && g' <= sh'.processing
    ensures Global(sh', g') && Local(sh', g', t, pc') && Effect(sh, g, t, sh', g')
  {
    if pc.FinDec? || pc.Fin? || pc.Working? {
      FinishKeeps(sh, g, t, pc, sh', g', pc');
      FinishEffect(sh, g, t, pc, sh', g', pc');
    } else if pc.Shut? {
      ShutdownKeeps(sh, g, pc, sh', pc');
    } else if pc.Pause? {
      PauseKeeps(sh, g, t, pc, sh', pc');
    } else if t == 0 {
      DispatchKeeps(sh, g, pc, sh', g', pc');
    } else {
      StopStartKeeps(sh, g, t, pc, sh', pc');
    }
  }

  lemma MoveKeeps(s: State, t: nat, s': State)
    requires Inv(s) && Moves(s, t, s')
    ensures Inv(s')
    ensures Effect(s.sh, TotalGranted(s.pcs), t, s'.sh, TotalGranted(s'.pcs))
  {
    var g, g' := TotalGranted(s.pcs), TotalGranted(s'.pcs);
    var pc, pc' := s.pcs[t], s'.pcs[t];
    CountsFollow(s, t, s');
    assert Local(s.sh, g, t, pc);
    MoverKeeps(s.sh, g, t, pc, s'.sh, g', pc');
    forall u: nat | u < |s'.pcs| ensures Local(s'.sh, g', u, s'.pcs[u]) {
      if u != t {
        OtherKeeps(s.sh, g, t, s'.sh, g', u, s.pcs[u]);
      }
    }
  }

  lemma HandOffKeeps(s: State, m: nat, s': State)
    requires Inv(s) && HandOff(s, m, s')
    ensures Inv(s') && TotalGranted(s'.pcs) == TotalGranted(s.pcs)
  {
    var rest := Dispatch(s.pcs[0].hand - m);
    TotalsUpdate(s.pcs, 0, rest);
    TotalsAppend(s.pcs[0 := rest], Working(m));
  }

  lemma CallerJoins(s: State)
    requires Inv(s)
    ensures Inv(s.(pcs := s.pcs + [Rest])) && TotalGranted(s.pcs + [Rest]) == TotalGranted(s.pcs)
  {
    TotalsAppend(s.pcs, Rest);
  }

  lemma NextKeeps(s: State, s': State)
    requires Inv(s) && Next(s, s')
    ensures Inv(s')
  {
    if t: nat :| Moves(s, t, s') {
      MoveKeeps(s, t, s');
    } else if m: nat :| HandOff(s, m, s') {
      HandOffKeeps(s, m, s');
    } else if s' == s.(pcs := s.pcs + [Rest]) {
      CallerJoins(s);
    } else {
      forall u: nat | u < |s.pcs| ensures Local(s'.sh, TotalGranted(s.pcs), u, s.pcs[u]) {
        assert Local(s.sh, TotalGranted(s.pcs), u, s.pcs[u]);
      }
    }
  }

  // ---------------------------------------------------------------- no stuck status

  /** A finisher that saw the count reach zero and will still try Running to Idle. */
  predicate WillIdle(pc: Pc)
  {
    pc.Fin? && (pc.fin.Locking? || pc.fin.Loading? || pc.fin.ToIdle?)
  }

  /** A finisher, or the Pause holding mx, that will still try Pausing to Paused. */
  predicate WillPause(pc: Pc)
  {
    WillIdle(pc) || (pc.Fin? && pc.fin.ToPaused?) || pc == Pause(PauseCheck) || pc == Pause(PauseFlip)
  }

  ghost predicate NotStuck(s: State)
  {
    && (s.sh.status.Running? && s.sh.processing == 0 ==> exists t :: 0 <= t < |s.pcs| && WillIdle(s.pcs[t]))
    && (s.sh.status.Pausing? && s.sh.processing == 0 ==> exists t :: 0 <= t < |s.pcs| && WillPause(s.pcs[t]))
    && (forall u :: 0 <= u < |s.pcs| && Restoring(s.pcs[u]) && s.sh.processing == 0 ==>
          exists t :: 0 <= t < |s.pcs| && Queueing(s.pcs[t]))
  }

  predicate Restoring(pc: Pc)
  {
    pc.Fin? && pc.fin.Restore?
  }

  /** A finisher that saw zero and waits for mx. */
  predicate Queueing(pc: Pc)
  {
    pc.Fin? && pc.fin.Locking?
  }

  /** Whoever makes a Running or Pausing worker's count zero, or makes a worker without work
      Running or Pausing, takes the duty to flip the status with it. */
  lemma DutyMoves(sh: Shared, g: nat, t: nat, pc: Pc, sh': Shared, pc': Pc)
    requires Local(sh, g, t, pc) && GoStep(sh, t, pc, sh', pc') && Counted(pc) <= sh.processing
    ensures sh'.status.Running? && sh'.processing == 0 ==>
      || WillIdle(pc')
      || (sh.status.Running? && sh.processing == 0 && !WillIdle(pc))
      || (Restoring(pc) && sh.processing == 0)
    ensures sh'.status.Pausing? && sh'.processing == 0 ==>
      WillPause(pc') || (sh.status.Pausing? && sh.processing == 0 && !WillPause(pc))
    ensures sh'.processing == 0 && sh.processing != 0 ==> Queueing(pc')
    ensures sh'.processing == 0 ==> !Restoring(pc')
    ensures Queueing(pc) ==> sh.mx.Free?
  {
  }

  lemma MoveNotStuck(s: State, t: nat, s': State)
    requires Inv(s) && NotStuck(s) && Moves(s, t, s')
    ensures NotStuck(s')
  {
    var pc, pc' := s.pcs[t], s'.pcs[t];
    CountsFollow(s, t, s');
    assert Local(s.sh, TotalGranted(s.pcs), t, pc);
    DutyMoves(s.sh, TotalGranted(s.pcs), t, pc, s'.sh, pc');
    if s'.sh.status.Running? && s'.sh.processing == 0 && !WillIdle(pc') {
      var u :| 0 <= u < |s.pcs| && WillIdle(s.pcs[u]) && u != t;
      assert WillIdle(s'.pcs[u]);
    }
    if s'.sh.status.Pausing? && s'.sh.processing == 0 && !WillPause(pc') {
      var u :| 0 <= u < |s.pcs| && WillPause(s.pcs[u]) && u != t;
      assert WillPause(s'.pcs[u]);
    }
    forall u | 0 <= u < |s'.pcs| && Restoring(s'.pcs[u]) && s'.sh.processing == 0
      ensures exists w :: 0 <= w < |s'.pcs| && Queueing(s'.pcs[w])
    {
      assert Local(s.sh, TotalGranted(s.pcs), u, s.pcs[u]);
      if !Queueing(pc') {
        var w :| 0 <= w < |s.pcs| && Queueing(s.pcs[w]);
        assert Queueing(s'.pcs[w]);
      }
    }
  }

  lemma AppendNotStuck(s: State, s': State)
    requires |s.pcs| > 0 && NotStuck(s) && s'.sh.status == s.sh.status && s'.sh.processing == s.sh.processing
    requires |s'.pcs| >= |s.pcs| && forall u :: 0 < u < |s.pcs| ==> s'.pcs[u] == s.pcs[u]
    requires s'.pcs[0] == s.pcs[0] || (s.pcs[0].Dispatch? && s'.pcs[0].Dispatch?)
    requires forall u :: |s.pcs| <= u < |s'.pcs| ==> !Restoring(s'.pcs[u])
    ensures NotStuck(s')
  {
    if t :| 0 <= t < |s.pcs| && WillIdle(s.pcs[t]) { assert WillIdle(s'.pcs[t]); }
    if t :| 0 <= t < |s.pcs| && WillPause(s.pcs[t]) { assert WillPause(s'.pcs[t]); }
    if t :| 0 <= t < |s.pcs| && Queueing(s.pcs[t]) { assert Queueing(s'.pcs[t]); }
    forall u | 0 <= u < |s'.pcs| && Restoring(s'.pcs[u]) && s'.sh.processing == 0
      ensures exists w :: 0 <= w < |s'.pcs| && Queueing(s'.pcs[w])
    {
      assert Restoring(s.pcs[u]);
    }
  }

  ghost predicate FullInv(s: State)
  {
    Inv(s) && NotStuck(s)
  }

  lemma StepKeeps(s: State, s': State)
    requires FullInv(s) && Next(s, s')
    ensures FullInv(s')
  {
    NextKeeps(s, s');
    if t: nat :| Moves(s, t, s') {
      MoveNotStuck(s, t, s');
    } else {
      AppendNotStuck(s, s');
    }
  }

  lemma RunKeeps(run: seq<State>)
    requires IsRun(Init, Next, run)
    ensures forall i :: 0 <= i < |run| ==> FullInv(run[i])
  {
    forall s | Init(s) ensures FullInv(s) {
      assert TotalCounted(s.pcs) == 0 && TotalGranted(s.pcs) == 0;
    }
    forall s, s' | FullInv(s) && Next(s, s') ensures FullInv(s') {
      StepKeeps(s, s');
    }
    Invariance(Init, Next, FullInv, run);
  }

  // ---------------------------------------------------------------- theorems

  /** In every run, Paused and Stopped mean that no granted reservation is unfinished, and an
      Idle worker has one only while releaseWaiters, holding mx, is about to repair the status. */
  lemma PauseStopSafety(run: seq<State>, i: nat)
    requires IsRun(Init, Next, run) && i < |run|
    ensures run[i].sh.status.Paused? || run[i].sh.status.Stopped? ==> TotalGranted(run[i].pcs) == 0
    ensures run[i].sh.status.Idle? && TotalGranted(run[i].pcs) > 0 ==>
      && run[i].sh.mx.HeldBy? && run[i].sh.mx.owner < |run[i].pcs|
      && InWindow(run[i].pcs[run[i].sh.mx.owner])
  {
    RunKeeps(run);
    var s := run[i];
    if s.sh.mx.HeldBy? {
      assert Local(s.sh, TotalGranted(s.pcs), s.sh.mx.owner, s.pcs[s.sh.mx.owner]);
    }
  }

  /** In every run, a Running or Pausing worker with nothing counted has somebody on the way to
      flip it: once no call is in flight, Running means work and Pausing has become Paused. */
  lemma NoStuckStatus(run: seq<State>, i: nat)
    requires IsRun(Init, Next, run) && i < |run| && run[i].sh.processing == 0
    ensures run[i].sh.status.Running? ==> exists t :: 0 <= t < |run[i].pcs| && WillIdle(run[i].pcs[t])
    ensures run[i].sh.status.Pausing? ==> exists t :: 0 <= t < |run[i].pcs| && WillPause(run[i].pcs[t])
  {
    RunKeeps(run);
  }

  /** In every run the processing count is exactly what goroutines hold, so finishJobs never
      takes it below zero, and Start launches an event loop only when none lives. */
  lemma CountsAndLoops(run: seq<State>, i: nat, t: nat)
    requires IsRun(Init, Next, run) && i < |run| && t < |run[i].pcs|
    ensures run[i].sh.processing == TotalCounted(run[i].pcs)
    ensures run[i].pcs[t].FinDec? ==> run[i].pcs[t].m <= run[i].sh.processing
    ensures run[i].pcs[t] == Start(StartCheck) && Down(run[i].sh.status) ==> !run[i].sh.alive && run[i].pcs[0].Dead?
  {
    RunKeeps(run);
    OneAtMostTotal(run[i].pcs, t);
    assert Local(run[i].sh, TotalGranted(run[i].pcs), t, run[i].pcs[t]);
    assert Local(run[i].sh, TotalGranted(run[i].pcs), 0, run[i].pcs[0]);
  }

  function PhaseOf(status: Status): Phase
  {
    match status
    case Idle => Active
    case Running => Active
    case Pausing => Draining
    case Stopping => Draining
    case _ => Halted
  }

  /** Every step of every run refines one step of the abstract lifecycle. */
  lemma RefinesPhases(run: seq<State>, i: nat)
    requires IsRun(Init, Next, run) && i + 1 < |run|
    ensures PhaseStep(PhaseOf(run[i].sh.status), TotalGranted(run[i].pcs),
                      PhaseOf(run[i + 1].sh.status), TotalGranted(run[i + 1].pcs))
  {
    RunKeeps(run);
    var s, s' := run[i], run[i + 1];
    NextAt(Init, Next, run, i);
    if t: nat :| Moves(s, t, s') {
      MoveKeeps(s, t, s');
      CountsFollow(s, t, s');
      assert Local(s.sh, TotalGranted(s.pcs), t, s.pcs[t]);
      GrantIsActive(s.sh, TotalGranted(s.pcs), t, s.pcs[t], s'.sh, s'.pcs[t]);
    } else if m: nat :| HandOff(s, m, s') {
      HandOffKeeps(s, m, s');
    } else if s' == s.(pcs := s.pcs + [Rest]) {
      CallerJoins(s);
    }
  }

  lemma GrantIsActive(sh: Shared, g: nat, t: nat, pc: Pc, sh': Shared, pc': Pc)
    requires Global(sh, g) && Local(sh, g, t, pc) && GoStep(sh, t, pc, sh', pc')
    ensures GrantedOf(pc') > GrantedOf(pc) ==> PhaseOf(sh.status).Active? && PhaseOf(sh'.status).Active?
    ensures GrantedOf(pc') < GrantedOf(pc) ==> sh'.status == sh.status
    ensures GrantedOf(pc') == GrantedOf(pc) ==> PhaseMove(PhaseOf(sh.status), g, PhaseOf(sh'.status))
  {
  }
}
