/** What the calls on the status word leave behind: Pause, Resume, Stop, Start, reserve, finishJobs and
    the event loop's shutdown. */
module LifecycleAnswers {
  import opened Runs
  import opened Phases
  import opened Lifecycle

  // ---------------------------------------------------------------- a Pause among others

  predicate Halting(s: State)
  {
    s.sh.status.Paused? || s.sh.status.Pausing? || s.sh.status.Stopping?
  }

  ghost predicate HaltedSince(run: seq<State>, i: nat, k: nat)
  {
    exists h :: i <= h <= k && h < |run| && Halting(run[h])
  }

  /** What a Pause that met an active worker knows at its program point. */
  ghost predicate PauseKnows(run: seq<State>, i: nat, k: nat, t: nat)
  {
    && k < |run| && t < |run[k].pcs| && run[k].pcs[t].Pause?
    && (HaltedSince(run, i, k) || match run[k].pcs[t].pause
        case PauseLoad => run[k].sh.status.Idle? || run[k].sh.status.Running?
        case PauseIdle => run[k].sh.status.Idle? || run[k].sh.status.Running?
        case PauseRunning => run[k].sh.status.Running?
        case _ => false)
  }

  /** While t holds mx, another step leaves an active status active, or stops the worker. */
  lemma OthersBeside(s: State, s': State, t: nat)
    requires Inv(s) && Next(s, s') && s.sh.mx == HeldBy(t) && t < |s.pcs|
    requires s'.pcs[t] != s.pcs[t] ==> Moves(s, t, s')
    requires t < |s'.pcs| && !Moves(s, t, s') && (s.sh.status.Idle? || s.sh.status.Running?)
    ensures s'.sh.status == s.sh.status || s'.sh.status.Running? || s'.sh.status.Stopping?
  {
    if u: nat :| Moves(s, u, s') {
      MoveKeeps(s, u, s');
    }
  }

  lemma OwnStep(s: State, s': State, t: nat)
    requires Next(s, s') && 0 < t < |s.pcs|
    ensures t < |s'.pcs| && (s'.pcs[t] == s.pcs[t] || Moves(s, t, s'))
  {
  }

  lemma PauseMoves(s: State, s': State, t: nat)
    requires 0 < t && Moves(s, t, s') && s.pcs[t].Pause? && s'.pcs[t].Pause? && !Halting(s) && !Halting(s')
    ensures match s.pcs[t].pause
      case PauseLoad => s'.pcs[t].pause.PauseIdle? && s'.sh == s.sh
      case PauseIdle => s'.pcs[t].pause.PauseRunning? && s'.sh == s.sh && !s.sh.status.Idle?
      case PauseRunning => s'.pcs[t].pause.PauseUnlock? && !s.sh.status.Running?
      case _ => true
  {
  }

  lemma PauseNext(run: seq<State>, i: nat, k: nat, t: nat)
    requires IsRun(Init, Next, run) && i <= k && k + 1 < |run| && 0 < t && PauseKnows(run, i, k, t)
    requires t < |run[k + 1].pcs| && run[k + 1].pcs[t].Pause? && !run[k].pcs[t].pause.PauseLock?
    ensures PauseKnows(run, i, k + 1, t)
  {
    RunKeeps(run);
    NextAt(Init, Next, run, k);
    var s, s' := run[k], run[k + 1];
    OwnStep(s, s', t);
    if !HaltedSince(run, i, k + 1) {
      assert !HaltedSince(run, i, k) && !Halting(s) && !Halting(s');
      assert Local(s.sh, TotalGranted(s.pcs), t, s.pcs[t]);
      if Moves(s, t, s') { PauseMoves(s, s', t); } else { OthersBeside(s, s', t); }
    }
  }

  lemma PauseReturns(s: State, s': State, t: nat)
    requires 0 < t && Moves(s, t, s') && s.pcs[t].Pause? && !s'.pcs[t].Pause?
    ensures s.pcs[t].pause.PauseUnlock?
  {
  }

  /** In every run: a Pause that finds the worker Idle or Running when it loads the status does not
      return before the worker was Paused, Pausing or Stopping, whatever others do meanwhile. */
  lemma PauseHalts(run: seq<State>, i: nat, j: nat, t: nat)
    requires IsRun(Init, Next, run) && i <= j && j + 1 < |run| && 0 < t < |run[i].pcs|
    requires forall k :: i <= k <= j ==> InPause(run, k, t)
    requires run[i].pcs[t] == Pause(PauseLoad) && (run[i].sh.status.Idle? || run[i].sh.status.Running?)
    requires Moves(run[j], t, run[j + 1]) && !run[j + 1].pcs[t].Pause?
    ensures HaltedSince(run, i, j)
  {
    var p := (k: nat) => PauseKnows(run, i, k, t);
    forall k: nat, l: nat | i <= k < j && l == k + 1 && p(k) ensures p(l) {
      assert InPause(run, k, t) && InPause(run, l, t);
      PauseNext(run, i, k, t);
    }
    Along(p, i, j);
    assert InPause(run, j, t);
    PauseReturns(run[j], run[j + 1], t);
  }

  /** Goroutine t is in a Pause, past its lock. */
  ghost predicate InPause(run: seq<State>, k: nat, t: nat)
  {
    k < |run| && t < |run[k].pcs| && run[k].pcs[t].Pause? && !run[k].pcs[t].pause.PauseLock?
  }

  // ---------------------------------------------------------------- a call that nobody disturbs

  /** The status after the last job of a Running or Pausing worker. */
  function Settled(status: Status): Status
  {
    if status.Running? then Idle else if status.Pausing? then Paused else status
  }

  function AfterPause(status: Status, processing: nat): Status
  {
    if status.Idle? then Paused
    else if status.Running? then (if processing == 0 then Paused else Pausing)
    else status
  }

  predicate Stoppable(status: Status)
  {
    status.Running? || status.Idle? || status.Pausing? || status.Paused?
  }

  /** The status a call will leave, at its program point. */
  function Will(sh: Shared, pc: Pc): Status
  {
    match pc
    case Pause(PauseLock) => AfterPause(sh.status, sh.processing)
    case Pause(PauseLoad) => AfterPause(sh.status, sh.processing)
    case Pause(PauseIdle) => AfterPause(sh.status, sh.processing)
    case Pause(PauseRunning) => if sh.status.Running? then AfterPause(sh.status, sh.processing) else sh.status
    case Pause(PauseCheck) => if sh.processing == 0 && sh.status.Pausing? then Paused else sh.status
    case Pause(PauseFlip) => if sh.status.Pausing? then Paused else sh.status
    case Resume => if sh.status.Paused? then Idle else sh.status
    case StopLoad => if Stoppable(sh.status) then Stopping else sh.status
    case StopCas(attempt) => if WillStop(sh.status, attempt) then Stopping else sh.status
    case Start(StartLock) => if Down(sh.status) then Idle else sh.status
    case Start(StartCheck) => if Down(sh.status) then Idle else sh.status
    case Start(StartStore) => Idle
    case FinDec(m, _, _) => if m == sh.processing then Settled(sh.status) else sh.status
    case Fin(Locking, _) => if sh.processing == 0 then Settled(sh.status) else sh.status
    case Fin(Loading, _) => if sh.processing == 0 then Settled(sh.status) else sh.status
    case Fin(ToIdle, _) => if sh.processing == 0 || sh.status.Pausing? then Settled(sh.status) else sh.status
    case Fin(Recheck, _) => if sh.processing != 0 && sh.status.Idle? then Running else sh.status
    case Fin(Restore, _) => if sh.status.Idle? then Running else sh.status
    case Fin(ToPaused, _) => if sh.status.Pausing? then Paused else sh.status
    case _ => sh.status
  }

  /** One of the CASes still to come succeeds. */
  predicate WillStop(status: Status, attempt: nat)
  {
    || (attempt == 0 && status.Running?) || (attempt <= 1 && status.Idle?)
    || (attempt <= 2 && status.Pausing?) || (attempt <= 3 && status.Paused?)
  }

  predicate WillCancel(sh: Shared, pc: Pc)
  {
    match pc
    case StopLoad => Stoppable(sh.status)
    case StopCas(attempt) => WillStop(sh.status, attempt)
    case StopCancel => true
    case _ => sh.cancelled
  }

  /** In a call of its own, or in finishJobs with something to take off. */
  predicate Calling(sh: Shared, pc: Pc)
  {
    || pc.Pause? || pc.Resume? || pc.StopLoad? || pc.StopCas? || pc.StopCancel? || pc.Start? || pc.Fin?
    || (pc.FinDec? && pc.m <= sh.processing)
  }

  lemma PauseWill(sh: Shared, t: nat, pc: Pc, sh': Shared, pc': Pc)
    requires PauseStep(sh, t, pc, sh', pc')
    ensures Will(sh', pc') == Will(sh, pc) && (pc'.Pause? || pc' == Rest)
  {
  }

  lemma FinishWill(sh: Shared, t: nat, pc: Pc, sh': Shared, pc': Pc)
    requires t > 0 && FinishStep(sh, t, pc, sh', pc') && (pc.Fin? || (pc.FinDec? && pc.m <= sh.processing))
    ensures Will(sh', pc') == Will(sh, pc) && (pc'.Fin? || pc' == Rest)
  {
  }

  lemma StopStartWill(sh: Shared, t: nat, pc: Pc, sh': Shared, pc': Pc)
    requires StopStartStep(sh, t, pc, sh', pc') && !pc.Rest?
    ensures Will(sh', pc') == Will(sh, pc) && (pc' == Rest || InStop(pc') || pc'.Start?)
    ensures InStop(pc) && WillCancel(sh, pc) ==> (InStop(pc') || pc' == Rest) && WillCancel(sh', pc')
  {
  }

  lemma WillStays(sh: Shared, t: nat, pc: Pc, sh': Shared, pc': Pc)
    requires t > 0 && GoStep(sh, t, pc, sh', pc') && Calling(sh, pc)
    ensures Will(sh', pc') == Will(sh, pc) && (Calling(sh', pc') || pc' == Rest)
    ensures InStop(pc) && WillCancel(sh, pc) ==> (InStop(pc') || pc' == Rest) && WillCancel(sh', pc')
  {
    if pc.Pause? {
      PauseWill(sh, t, pc, sh', pc');
    } else if pc.Fin? || pc.FinDec? {
      FinishWill(sh, t, pc, sh', pc');
    } else {
      StopStartWill(sh, t, pc, sh', pc');
    }
  }

  /** The others leave the status and the count alone. */
  ghost predicate Undisturbed(run: seq<State>, k: nat, t: nat)
  {
    && k + 1 < |run| && t < |run[k].pcs| && t < |run[k + 1].pcs| && Calling(run[k].sh, run[k].pcs[t])
    && (Moves(run[k], t, run[k + 1])
        || (run[k + 1].sh.status == run[k].sh.status && run[k + 1].sh.processing == run[k].sh.processing
            && run[k + 1].pcs[t] == run[k].pcs[t]))
  }

  /** At k the call will still leave this status, and cancel if it was to. */
  ghost predicate Promised(run: seq<State>, k: nat, t: nat, status: Status, cancels: bool)
  {
    && k < |run| && t < |run[k].pcs| && Will(run[k].sh, run[k].pcs[t]) == status
    && (cancels ==>
          || (InStop(run[k].pcs[t]) && WillCancel(run[k].sh, run[k].pcs[t]))
          || (run[k].pcs[t] == Rest && run[k].sh.cancelled))
  }

  predicate InStop(pc: Pc)
  {
    pc.StopLoad? || pc.StopCas? || pc.StopCancel?
  }

  lemma PromisedNext(run: seq<State>, k: nat, t: nat, status: Status, cancels: bool)
    requires 0 < t && Undisturbed(run, k, t) && Promised(run, k, t, status, cancels)
    ensures Promised(run, k + 1, t, status, cancels)
  {
    if Moves(run[k], t, run[k + 1]) {
      WillStays(run[k].sh, t, run[k].pcs[t], run[k + 1].sh, run[k + 1].pcs[t]);
    }
  }

  /** What each call does to a status and a count nobody else changes. */
  function Result(call: Pc, status: Status, processing: nat): Status
  {
    match call
    case Pause(_) =>
      if status.Idle? || (status.Running? && processing == 0) then Paused
      else if status.Running? then Pausing else status
    case Resume => if status.Paused? then Idle else status
    case StopLoad => if status.Initiated? || status.Stopped? then status else Stopping
    case Start(_) => if status.Initiated? || status.Stopped? then Idle else status
    case FinDec(m, _, _) =>
      if m == processing && status.Running? then Idle
      else if m == processing && status.Pausing? then Paused else status
    case _ => status
  }

  predicate Begins(pc: Pc)
  {
    pc == Pause(PauseLock) || pc.Resume? || pc.StopLoad? || pc == Start(StartLock) || pc.FinDec?
  }

  lemma IdleIsAlive(run: seq<State>, j: nat)
    requires IsRun(Init, Next, run) && j < |run|
    ensures run[j].sh.status.Idle? ==> run[j].sh.alive
  {
    RunKeeps(run);
  }

  /** In every run, when nobody else changes the status or the count during the call: a Pause leaves an
      Idle worker Paused and a Running one Pausing, or Paused with nothing counted; Resume makes Paused
      Idle; Stop makes every worker that is up Stopping and cancels its loop's context; Start makes
      one that is down Idle, with an event loop; the finishJobs that takes the last job off makes
      Running Idle and Pausing Paused. In any other status the call changes nothing. */
  lemma CallResult(run: seq<State>, i: nat, j: nat, t: nat)
    requires IsRun(Init, Next, run) && i <= j < |run| && 0 < t < |run[i].pcs|
    requires Begins(run[i].pcs[t]) && forall k :: i <= k < j ==> Undisturbed(run, k, t)
    requires t < |run[j].pcs| && run[j].pcs[t] == Rest
    ensures run[j].sh.status == Result(run[i].pcs[t], run[i].sh.status, run[i].sh.processing)
    ensures run[i].pcs[t].StopLoad? && Stoppable(run[i].sh.status) ==> run[j].sh.cancelled
    ensures run[i].pcs[t].Start? && Down(run[i].sh.status) ==> run[j].sh.alive
  {
    var status := Will(run[i].sh, run[i].pcs[t]);
    var cancels := run[i].pcs[t].StopLoad? && Stoppable(run[i].sh.status);
    var p := (k: nat) => Promised(run, k, t, status, cancels);
    forall k: nat, l: nat | i <= k < j && l == k + 1 && p(k) ensures p(l) {
      assert Undisturbed(run, k, t);
      PromisedNext(run, k, t, status, cancels);
    }
    Along(p, i, j);
    IdleIsAlive(run, j);
  }

  // ---------------------------------------------------------------- reserve

  predicate Active(status: Status)
  {
    status.Idle? || status.Running?
  }

  /** The event loop is in reserve for n jobs, or reserve has granted them, or refused them for a reason. */
  ghost predicate ReserveKnows(run: seq<State>, i: nat, k: nat, n: nat)
  {
    && i <= k < |run| && |run[k].pcs| > 0
    && match run[k].pcs[0]
       case ReserveLoad(m) => m == n
       case ReserveCas(m) => m == n
       case Dispatch(m) => m == n
       case FinDec(m, hand, granted) => m == n && hand == 0 && !granted && InactiveSince(run, i, k)
       case _ => false
  }

  ghost predicate InactiveSince(run: seq<State>, i: nat, k: nat)
  {
    exists h :: i <= h <= k && h < |run| && !Active(run[h].sh.status)
  }

  ghost predicate Reserving(run: seq<State>, k: nat)
  {
    k < |run| && |run[k].pcs| > 0 && (run[k].pcs[0].ReserveLoad? || run[k].pcs[0].ReserveCas?)
  }

  lemma LoopOwn(s: State, s': State)
    requires Next(s, s') && |s.pcs| > 0 && !s.pcs[0].Dispatch?
    ensures |s'.pcs| > 0 && (s'.pcs[0] == s.pcs[0] || Moves(s, 0, s'))
  {
  }

  lemma ReserveNext(run: seq<State>, i: nat, k: nat, n: nat)
    requires IsRun(Init, Next, run) && k + 1 < |run| && Reserving(run, k) && ReserveKnows(run, i, k, n)
    ensures ReserveKnows(run, i, k + 1, n)
    ensures run[k + 1].pcs[0].Dispatch? ==> run[k + 1].sh.status.Running?
  {
    NextAt(Init, Next, run, k);
    LoopOwn(run[k], run[k + 1]);
    if run[k + 1].pcs[0].FinDec? { assert !Active(run[k].sh.status); }
  }

  /** In every run: reserve refuses only if at some moment since it began the worker was neither Idle nor
      Running, and when it grants, the worker is Running. */
  lemma ReserveAnswers(run: seq<State>, i: nat, j: nat, n: nat)
    requires IsRun(Init, Next, run) && i < j < |run| && |run[i].pcs| > 0 && run[i].pcs[0] == ReserveLoad(n)
    requires forall k :: i <= k < j ==> Reserving(run, k)
    requires |run[j].pcs| > 0 && !Reserving(run, j)
    ensures run[j].pcs[0] == Dispatch(n) || run[j].pcs[0] == FinDec(n, 0, false)
    ensures run[j].pcs[0].FinDec? ==> InactiveSince(run, i, j)
    ensures run[j].pcs[0].Dispatch? ==> run[j].sh.status.Running?
  {
    var p := (k: nat) => ReserveKnows(run, i, k, n);
    forall k: nat, l: nat | i <= k < j && l == k + 1 && p(k) ensures p(l) {
      assert Reserving(run, k);
      ReserveNext(run, i, k, n);
    }
    Along(p, i, j - 1);
    assert Reserving(run, j - 1);
    ReserveNext(run, i, j - 1, n);
  }

  /** In every run, a reserve that goes on alone is granted exactly when the worker is Idle or Running. */
  lemma ReserveFinishes(run: seq<State>, i: nat, n: nat)
    requires IsRun(Init, Next, run) && i < |run| && |run[i].pcs| > 0 && run[i].pcs[0] == ReserveLoad(n)
    ensures exists s' ::
      && Alone(run[i], 0, s') && |s'.pcs| > 0
      && s'.pcs[0] == if Active(run[i].sh.status) then Dispatch(n) else FinDec(n, 0, false)
  {
    var s := run[i];
    ReachableInit(From(s), OnlyBy(0), s);
    if s.sh.status.Running? {
      var s1 := Goes(s, s, 0, s.sh, Dispatch(n));
    } else if s.sh.status.Idle? {
      var s1 := Goes(s, s, 0, s.sh, ReserveCas(n));
      var s2 := Goes(s, s1, 0, s.sh.(status := Running), Dispatch(n));
    } else {
      var s1 := Goes(s, s, 0, s.sh, FinDec(n, 0, false));
    }
  }

  // ---------------------------------------------------------------- a call that goes on alone returns

  ghost function OnlyBy(t: nat): (State, State) -> bool
  {
    (s, s') => Moves(s, t, s')
  }

  /** t alone gets from s to s'. */
  ghost predicate Alone(s: State, t: nat, s': State)
  {
    Reachable(From(s), OnlyBy(t), s')
  }

  lemma Goes(s0: State, s: State, t: nat, sh': Shared, pc': Pc) returns (s': State)
    requires t < |s.pcs| && Alone(s0, t, s) && GoStep(s.sh, t, s.pcs[t], sh', pc')
    ensures s' == State(sh', s.pcs[t := pc']) && Alone(s0, t, s')
  {
    s' := State(sh', s.pcs[t := pc']);
    assert Moves(s, t, s') && OnlyBy(t)(s, s');
    ReachableNext(From(s0), OnlyBy(t), s, s');
  }

  /** The call has mx, needs none, or can have it. */
  predicate LockOpen(s: State, t: nat)
    requires t < |s.pcs|
  {
    s.sh.mx.Free? || InLock(s.pcs[t])
  }

  function Steps(at: PauseAt): nat
  {
    match at
    case PauseLock => 6
    case PauseLoad => 5
    case PauseIdle => 4
    case PauseRunning => 3
    case PauseCheck => 2
    case PauseFlip => 1
    case PauseUnlock => 0
  }

  lemma PauseGoes(s0: State, s: State, t: nat) returns (s': State)
    requires 0 < t < |s.pcs| && Alone(s0, t, s) && s.pcs[t].Pause? && !s.pcs[t].pause.PauseUnlock? && LockOpen(s, t)
    ensures Alone(s0, t, s') && t < |s'.pcs| && s'.pcs[t].Pause? && LockOpen(s', t)
    ensures Steps(s'.pcs[t].pause) < Steps(s.pcs[t].pause)
  {
    var sh := s.sh;
    var (sh', at') := match s.pcs[t].pause
      case PauseLock => (sh.(mx := HeldBy(t)), PauseLoad)
      case PauseLoad => (sh, if sh.status.Paused? || sh.status.Pausing? then PauseUnlock else PauseIdle)
      case PauseIdle => if sh.status.Idle? then (sh.(status := Paused), PauseUnlock) else (sh, PauseRunning)
      case PauseRunning => if sh.status.Running? then (sh.(status := Pausing), PauseCheck) else (sh, PauseUnlock)
      case PauseCheck => (sh, if sh.processing == 0 then PauseFlip else PauseUnlock)
      case _ => (sh.(status := if sh.status.Pausing? then Paused else sh.status), PauseUnlock);
    s' := Goes(s0, s, t, sh', Pause(at'));
  }

  lemma {:induction false} PauseAlone(s0: State, s: State, t: nat) returns (s': State)
    requires 0 < t < |s.pcs| && Alone(s0, t, s) && s.pcs[t].Pause? && LockOpen(s, t)
    ensures Alone(s0, t, s') && t < |s'.pcs| && s'.pcs[t] == Rest
    decreases Steps(s.pcs[t].pause)
  {
    if s.pcs[t].pause.PauseUnlock? {
      s' := Goes(s0, s, t, s.sh.(mx := Free), Rest);
    } else {
      var s1 := PauseGoes(s0, s, t);
      s' := PauseAlone(s0, s1, t);
    }
  }

  function FinSteps(at: FinAt): nat
  {
    match at
    case Locking => 6
    case Loading => 5
    case ToIdle => 4
    case Recheck => 3
    case Restore => 2
    case ToPaused => 2
    case Unlocking => 0
  }

  lemma FinGoes(s0: State, s: State, t: nat) returns (s': State)
    requires 0 < t < |s.pcs| && Alone(s0, t, s) && s.pcs[t].Fin? && !s.pcs[t].fin.Unlocking? && LockOpen(s, t)
    ensures Alone(s0, t, s') && t < |s'.pcs| && s'.pcs[t].Fin? && LockOpen(s', t)
    ensures FinSteps(s'.pcs[t].fin) < FinSteps(s.pcs[t].fin)
  {
    var sh := s.sh;
    var (sh', at') := match s.pcs[t].fin
      case Locking => (sh.(mx := HeldBy(t)), Loading)
      case Loading => (sh, if sh.processing == 0 then ToIdle else Unlocking)
      case ToIdle => if sh.status.Running? then (sh.(status := Idle), Recheck) else (sh, ToPaused)
      case Recheck => (sh, if sh.processing != 0 then Restore else Unlocking)
      case Restore => (sh.(status := if sh.status.Idle? then Running else sh.status), Unlocking)
      case _ => (sh.(status := if sh.status.Pausing? then Paused else sh.status), Unlocking);
    s' := Goes(s0, s, t, sh', Fin(at', s.pcs[t].hand));
  }

  lemma {:induction false} FinAlone(s0: State, s: State, t: nat) returns (s': State)
    requires 0 < t < |s.pcs| && Alone(s0, t, s) && s.pcs[t].Fin? && LockOpen(s, t)
    ensures Alone(s0, t, s') && t < |s'.pcs| && s'.pcs[t] == Rest
    decreases FinSteps(s.pcs[t].fin)
  {
    if s.pcs[t].fin.Unlocking? {
      s' := Goes(s0, s, t, s.sh.(mx := Free), Rest);
    } else {
      var s1 := FinGoes(s0, s, t);
      s' := FinAlone(s0, s1, t);
    }
  }

  lemma DecAlone(s0: State, s: State, t: nat) returns (s': State)
    requires 0 < t < |s.pcs| && Alone(s0, t, s) && s.pcs[t].FinDec? && LockOpen(s, t)
    ensures Alone(s0, t, s') && t < |s'.pcs| && s'.pcs[t] == Rest
  {
    var sh, pc := s.sh, s.pcs[t];
    var sh' := sh.(processing := if pc.m <= sh.processing then sh.processing - pc.m else 0);
    if sh'.processing == 0 {
      var s1 := Goes(s0, s, t, sh', Fin(Locking, pc.hand));
      s' := FinAlone(s0, s1, t);
    } else {
      s' := Goes(s0, s, t, sh', Rest);
    }
  }

  lemma {:induction false} StopAlone(s0: State, s: State, t: nat) returns (s': State)
    requires 0 < t < |s.pcs| && Alone(s0, t, s) && InStop(s.pcs[t]) && s.sh.mx.Free?
    ensures Alone(s0, t, s') && t < |s'.pcs| && s'.pcs[t] == Rest
    decreases if s.pcs[t].StopLoad? then 6 else if s.pcs[t].StopCas? && s.pcs[t].attempt < 4 then 5 - s.pcs[t].attempt
              else if s.pcs[t].StopCas? then 1 else 0
  {
    var sh := s.sh;
    match s.pcs[t]
    case StopLoad =>
      if sh.status.Stopped? || sh.status.Stopping? {
        s' := Goes(s0, s, t, sh, Rest);
      } else {
        var s1 := Goes(s0, s, t, sh, StopCas(0));
        s' := StopAlone(s0, s1, t);
      }
    case StopCas(attempt) =>
      if attempt < 4 && sh.status == StopFrom(attempt) {
        var s1 := Goes(s0, s, t, sh.(status := Stopping), StopCancel);
        s' := StopAlone(s0, s1, t);
      } else if attempt < 4 {
        var s1 := Goes(s0, s, t, sh, StopCas(attempt + 1));
        s' := StopAlone(s0, s1, t);
      } else {
        s' := Goes(s0, s, t, sh, Rest);
      }
    case StopCancel => s' := Goes(s0, s, t, sh.(cancelled := true), Rest);
  }

  lemma StartAlone(s0: State, s: State, t: nat) returns (s': State)
    requires 0 < t < |s.pcs| && Alone(s0, t, s) && s.pcs[t].Start? && LockOpen(s, t)
    ensures Alone(s0, t, s') && t < |s'.pcs| && s'.pcs[t] == Rest
  {
    var s1 := s;
    if s1.pcs[t].start.StartLock? { s1 := Goes(s0, s1, t, s1.sh.(mx := HeldBy(t)), Start(StartCheck)); }
    if s1.pcs[t].start.StartCheck? {
      if Down(s1.sh.status) {
        s1 := Goes(s0, s1, t, s1.sh.(alive := true), Start(StartStore));
      } else {
        s1 := Goes(s0, s1, t, s1.sh, Start(StartUnlock));
      }
    }
    if s1.pcs[t].start.StartStore? { s1 := Goes(s0, s1, t, s1.sh.(status := Idle), Start(StartUnlock)); }
    s' := Goes(s0, s1, t, s1.sh.(mx := Free), Rest);
  }

  /** In every run, a Pause, Resume, Stop, Start or finishJobs that goes on alone returns, unless somebody
      else holds mx. */
  lemma CallFinishes(run: seq<State>, i: nat, t: nat)
    requires IsRun(Init, Next, run) && i < |run| && 0 < t < |run[i].pcs| && LockOpen(run[i], t)
    requires run[i].pcs[t].Pause? || run[i].pcs[t].Resume? || InStop(run[i].pcs[t]) || run[i].pcs[t].Start?
          || run[i].pcs[t].FinDec? || run[i].pcs[t].Fin?
    ensures exists s' :: Alone(run[i], t, s') && t < |s'.pcs| && s'.pcs[t] == Rest
  {
    var s := run[i];
    ReachableInit(From(s), OnlyBy(t), s);
    var s';
    if s.pcs[t].Pause? {
      s' := PauseAlone(s, s, t);
    } else if s.pcs[t].Resume? {
      s' := Goes(s, s, t, if s.sh.status.Paused? then s.sh.(status := Idle) else s.sh, Rest);
    } else if s.pcs[t].Start? {
      s' := StartAlone(s, s, t);
    } else if s.pcs[t].FinDec? {
      s' := DecAlone(s, s, t);
    } else if s.pcs[t].Fin? {
      s' := FinAlone(s, s, t);
    } else {
      s' := StopAlone(s, s, t);
    }
  }

  /** In every run, an event loop whose context is done, with nothing processing and mx free, can go on
      alone to its return, and leaves the worker Stopped. */
  lemma ShutdownFinishes(run: seq<State>, i: nat)
    requires IsRun(Init, Next, run) && i < |run| && |run[i].pcs| > 0 && run[i].pcs[0] == Dispatch(0)
    requires run[i].sh.cancelled && run[i].sh.processing == 0 && run[i].sh.mx.Free?
    ensures exists s' ::
      Alone(run[i], 0, s') && |s'.pcs| > 0 && s'.pcs[0].Dead? && s'.sh.status.Stopped? && !s'.sh.alive
  {
    var s := run[i];
    ReachableInit(From(s), OnlyBy(0), s);
    var s1 := Goes(s, s, 0, s.sh, Shut(ShutStore));
    var s2 := Goes(s, s1, 0, s1.sh.(status := Stopping), Shut(ShutLock));
    var s3 := Goes(s, s2, 0, s2.sh.(mx := HeldBy(0)), Shut(ShutStatus));
    var s4 := Goes(s, s3, 0, s3.sh, Shut(ShutCount(Stopping)));
    var s5 := Goes(s, s4, 0, s4.sh.(mx := Free), Shut(ShutRemove));
    var s6 := Goes(s, s5, 0, s5.sh.(mx := HeldBy(0)), Shut(ShutStopped));
    var s7 := Goes(s, s6, 0, s6.sh.(status := Stopped, mx := Free, alive := false), Dead);
  }

  // ---------------------------------------------------------------- why a worker stops

  ghost predicate ShutInv(s: State)
  {
    FullInv(s) && (s.pcs[0].Shut? ==> s.sh.cancelled)
  }

  lemma ShutMoves(s: State, t: nat, s': State)
    requires ShutInv(s) && Moves(s, t, s') && s'.pcs[0].Shut?
    ensures s'.sh.cancelled
  {
    assert Local(s.sh, TotalGranted(s.pcs), t, s.pcs[t]);
    assert Local(s.sh, TotalGranted(s.pcs), 0, s.pcs[0]);
    if t == 0 {
      LoopShuts(s.sh, s.pcs[0], s'.sh, s'.pcs[0]);
    } else if !s'.sh.cancelled {
      OthersUncancel(s.sh, t, s.pcs[t], s'.sh, s'.pcs[t]);
    }
  }

  lemma LoopShuts(sh: Shared, pc: Pc, sh': Shared, pc': Pc)
    requires GoStep(sh, 0, pc, sh', pc') && pc'.Shut?
    ensures sh'.cancelled == sh.cancelled && (!pc.Shut? ==> sh.cancelled)
  {
  }

  lemma OthersUncancel(sh: Shared, t: nat, pc: Pc, sh': Shared, pc': Pc)
    requires t > 0 && GoStep(sh, t, pc, sh', pc') && sh.cancelled && !sh'.cancelled
    ensures pc == Start(StartCheck) && Down(sh.status)
  {
  }

  lemma ShutRun(run: seq<State>)
    requires IsRun(Init, Next, run)
    ensures forall i :: 0 <= i < |run| ==> ShutInv(run[i])
  {
    forall s, s' | ShutInv(s) && Next(s, s') ensures ShutInv(s') {
      ShutNext(s, s');
    }
    forall s | Init(s) ensures ShutInv(s) {
      assert TotalCounted(s.pcs) == 0 && TotalGranted(s.pcs) == 0;
    }
    Invariance(Init, Next, ShutInv, run);
  }

  lemma ShutNext(s: State, s': State)
    requires ShutInv(s) && Next(s, s')
    ensures ShutInv(s')
  {
    StepKeeps(s, s');
    if t: nat :| Moves(s, t, s') {
      if s'.pcs[0].Shut? { ShutMoves(s, t, s'); }
    }
  }

  /** In every run, an event loop that shuts down has its context done: Stop, or the parent, cancelled it. */
  lemma ShutsOnlyIfCancelled(run: seq<State>, i: nat)
    requires IsRun(Init, Next, run) && i < |run|
    ensures |run[i].pcs| > 0 && (run[i].pcs[0].Shut? ==> run[i].sh.cancelled)
  {
    ShutRun(run);
    assert ShutInv(run[i]);
  }
}
