/** Closing a job (job.go): any number of goroutines may call Close while one worker takes, runs and
    closes the job. One step is one atomic operation or one storage call. Storage may refuse an
    acknowledgement. */
module JobClose {
  import opened Runs

  datatype Status = Created | Queued | Processing | Finished | Closed

  /** What ackRef holds: nothing to acknowledge, or the ack with whether the run failed. */
  datatype Ack = NoAck | Ack(failed: bool)

  /** Close: closeOnce (the ack first, then the claim), then the release of Wait. */
  datatype Closer =
    | LoadAck
    | Check
    | Swap
    | Ask(ack: Ack)
    | PutBack(ack: Ack)
    | LoadStatus
    | Claim(seen: Status)
    | Release
    | Won
    | Lost

  /** The worker the job is handed to; its Close is one of the closers. */
  datatype Worker = InStorage | SetAck | Load | Start(seen: Status) | Running | Failing | Finishing | Done | Skipped

  /** accepted counts the acks and rejects storage accepted, acked those that were not rejects, releases
      the wg.Done calls, runs the starts; claimedFirst says that a Close won before any start. */
  datatype State = State(
    status: Status, ack: Ack, closers: seq<Closer>, worker: Worker,
    accepted: nat, acked: nat, releases: nat, runs: nat, claimedFirst: bool)

  ghost predicate Init(s: State)
  {
    s == State(Created, NoAck, [], InStorage, 0, 0, 0, 0, false)
  }

  predicate Closeable(status: Status)
  {
    !status.Processing? && !status.Closed?
  }

  // ---------------------------------------------------------------- steps

  ghost predicate CloserStep(s: State, c: nat, s': State)
  {
    && c < |s.closers| == |s'.closers|
    && var x := s.closers[c];
       match x
       case LoadAck => s' == s.(closers := s.closers[c := if s.ack.NoAck? then LoadStatus else Check])
       case Check => s' == s.(closers := s.closers[c := if Closeable(s.status) then Swap else Lost])
       case Swap => s' == s.(ack := NoAck, closers := s.closers[c := if s.ack.NoAck? then LoadStatus else Ask(s.ack)])
       case Ask(a) =>
         || s' == s.(accepted := s.accepted + 1, acked := s.acked + (if a.Ack? && a.failed then 0 else 1),
                     closers := s.closers[c := LoadStatus])
         || s' == s.(closers := s.closers[c := PutBack(a)])
       case PutBack(a) => s' == s.(ack := a, closers := s.closers[c := Lost])
       case LoadStatus => s' == s.(closers := s.closers[c := if Closeable(s.status) then Claim(s.status) else Lost])
       case Claim(seen) =>
         if s.status == seen then
           s' == s.(status := Closed, closers := s.closers[c := Release], claimedFirst := s.claimedFirst || s.runs == 0)
         else s' == s.(closers := s.closers[c := LoadStatus])
       case Release => s' == s.(releases := s.releases + 1, closers := s.closers[c := Won])
       case _ => false
  }

  ghost predicate WorkerStep(s: State, s': State)
  {
    match s.worker
    case InStorage => s' == s.(worker := if s.status.Closed? then Skipped else SetAck)
    case SetAck =>
      || s' == s.(worker := Load)                                                   // nothing to acknowledge
      || s' == s.(ack := Ack(false), worker := Load)
    case Load => s' == s.(worker := if s.status.Closed? then Skipped else Start(s.status))
    case Start(seen) =>
      if s.status == seen then s' == s.(status := Processing, worker := Running, runs := s.runs + 1)
      else s' == s.(worker := Load)
    case Running =>
      || s' == s.(worker := Finishing)                                              // it succeeded
      || s' == s.(worker := if s.ack.NoAck? then Finishing else Failing)            // fail: load
    case Failing => s' == s.(ack := Ack(true), worker := Finishing)                 // fail: store
    case Finishing => s' == s.(status := Finished, worker := Done, closers := s.closers + [LoadAck])
    case _ => false
  }

  ghost predicate Next(s: State, s': State)
  {
    || (exists c: nat :: CloserStep(s, c, s'))
    || WorkerStep(s, s')
    || s' == s.(closers := s.closers + [LoadAck])
    || (s.status.Created? && s' == s.(status := Queued))                            // markQueued
  }

  // ---------------------------------------------------------------- one Close wins

  predicate HasWon(x: Closer)
  {
    x.Release? || x.Won?
  }

  function Winners(closers: seq<Closer>): nat
  {
    if closers == [] then 0 else (if HasWon(closers[0]) then 1 else 0) + Winners(closers[1..])
  }

  function Released(closers: seq<Closer>): nat
  {
    if closers == [] then 0 else (if closers[0].Won? then 1 else 0) + Released(closers[1..])
  }

  /** Closers that have the ack in their hands. */
  function Holding(closers: seq<Closer>): nat
  {
    if closers == [] then 0 else (if closers[0].Ask? || closers[0].PutBack? then 1 else 0) + Holding(closers[1..])
  }

  lemma {:induction false} CountsMove(closers: seq<Closer>, c: nat, x: Closer)
    requires c < |closers|
    ensures Winners(closers[c := x]) - Winners([x]) == Winners(closers) - Winners([closers[c]])
    ensures Released(closers[c := x]) - Released([x]) == Released(closers) - Released([closers[c]])
    ensures Holding(closers[c := x]) - Holding([x]) == Holding(closers) - Holding([closers[c]])
  {
    if c == 0 {
      assert closers[c := x][1..] == closers[1..];
    } else {
      CountsMove(closers[1..], c - 1, x);
      assert closers[c := x][1..] == closers[1..][c - 1 := x];
    }
  }

  lemma {:induction false} CountsJoin(closers: seq<Closer>)
    ensures Winners(closers + [LoadAck]) == Winners(closers) && Released(closers + [LoadAck]) == Released(closers)
    ensures Holding(closers + [LoadAck]) == Holding(closers)
  {
    if closers == [] {
      assert (closers + [LoadAck])[1..] == [];
    } else {
      CountsJoin(closers[1..]);
      assert (closers + [LoadAck])[1..] == closers[1..] + [LoadAck];
    }
  }

  lemma {:induction false} ReleasedAreWinners(closers: seq<Closer>)
    ensures Released(closers) <= Winners(closers)
    ensures (forall c :: 0 <= c < |closers| ==> !closers[c].Release?) ==> Released(closers) == Winners(closers)
  {
    if closers != [] {
      ReleasedAreWinners(closers[1..]);
      if forall c :: 0 <= c < |closers| ==> !closers[c].Release? {
        assert !closers[0].Release?;
        assert forall c :: 0 <= c < |closers[1..]| ==> closers[1..][c] == closers[c + 1];
      }
    }
  }

  predicate Active(w: Worker)
  {
    w.Running? || w.Failing? || w.Finishing?
  }

  ghost predicate CloseInv(s: State)
  {
    && Winners(s.closers) == (if s.status.Closed? then 1 else 0) && Released(s.closers) == s.releases
    && (forall c :: 0 <= c < |s.closers| && s.closers[c].Claim? ==> Closeable(s.closers[c].seen))
    && (s.worker.Start? ==> !s.worker.seen.Closed?) && (s.worker.Skipped? ==> s.status.Closed?)
    && (Active(s.worker) ==> s.status.Processing?)
    && s.runs == (if Active(s.worker) || s.worker.Done? then 1 else 0)
    && (s.claimedFirst ==> s.status.Closed? && s.runs == 0)
    && (s.status.Closed? && s.runs == 0 ==> s.claimedFirst)
  }

  lemma CloserCounts(s: State, c: nat, s': State)
    requires CloseInv(s) && CloserStep(s, c, s')
    ensures Winners(s'.closers) == (if s'.status.Closed? then 1 else 0) && Released(s'.closers) == s'.releases
  {
    CountsMove(s.closers, c, s'.closers[c]);
  }

  lemma CloserSees(s: State, c: nat, s': State)
    requires CloserStep(s, c, s')
    requires forall d :: 0 <= d < |s.closers| && s.closers[d].Claim? ==> Closeable(s.closers[d].seen)
    ensures forall d :: 0 <= d < |s'.closers| && s'.closers[d].Claim? ==> Closeable(s'.closers[d].seen)
  {
    assert forall d :: 0 <= d < |s.closers| && d != c ==> s'.closers[d] == s.closers[d];
  }

  lemma CloserKeeps(s: State, c: nat, s': State)
    requires CloseInv(s) && CloserStep(s, c, s')
    ensures CloseInv(s')
  {
    CloserCounts(s, c, s');
    CloserSees(s, c, s');
  }

  lemma WorkerKeeps(s: State, s': State)
    requires CloseInv(s) && WorkerStep(s, s')
    ensures CloseInv(s')
  {
    if s'.closers != s.closers {
      CountsJoin(s.closers);
    }
  }

  lemma CloseKeeps(s: State, s': State)
    requires CloseInv(s) && Next(s, s')
    ensures CloseInv(s')
  {
    if c: nat :| CloserStep(s, c, s') {
      CloserKeeps(s, c, s');
    } else if WorkerStep(s, s') {
      WorkerKeeps(s, s');
    } else if s'.closers != s.closers {
      CountsJoin(s.closers);
    }
  }

  lemma CloseRun(run: seq<State>)
    requires IsRun(Init, Next, run)
    ensures forall i :: 0 <= i < |run| ==> CloseInv(run[i])
  {
    forall s, s' | CloseInv(s) && Next(s, s') ensures CloseInv(s') {
      CloseKeeps(s, s');
    }
    assert Inductive(Init, Next, CloseInv);
    Invariance(Init, Next, CloseInv, run);
  }

  /** In every run of any number of closers and the worker, at most one Close has won, exactly one
      when the job is closed; Wait is released at most once, and has been when the job is closed and
      no Close is on its way to the release. */
  lemma OneCloseWins(run: seq<State>, i: nat)
    requires IsRun(Init, Next, run) && i < |run|
    ensures Winners(run[i].closers) == (if run[i].status.Closed? then 1 else 0)
    ensures run[i].releases <= Winners(run[i].closers)
    ensures (forall c :: 0 <= c < |run[i].closers| ==> !run[i].closers[c].Release?) ==>
      run[i].releases == Winners(run[i].closers)
  {
    CloseRun(run);
    ReleasedAreWinners(run[i].closers);
  }

  /** In every run, a job closed before it started never runs, and no job runs twice or is closed
      while it runs; the worker skips only a closed job. */
  lemma ClosedNeverRuns(run: seq<State>, i: nat)
    requires IsRun(Init, Next, run) && i < |run|
    ensures run[i].claimedFirst ==> run[i].runs == 0 && run[i].status.Closed?
    ensures run[i].status.Closed? && run[i].runs == 0 ==> run[i].claimedFirst
    ensures run[i].worker.Skipped? ==> run[i].status.Closed?
    ensures run[i].runs <= 1 && (Active(run[i].worker) ==> !run[i].status.Closed?)
  {
    CloseRun(run);
  }

  // ---------------------------------------------------------------- each ack is accepted once

  /** Acks that may still be accepted: in the job, or in a closer's hands. */
  function Tokens(s: State): nat
  {
    (if s.ack.NoAck? then 0 else 1) + Holding(s.closers)
  }

  ghost predicate Handed(s: State)
  {
    forall c :: 0 <= c < |s.closers| && (s.closers[c].Ask? || s.closers[c].PutBack?) ==> s.closers[c].ack.Ack?
  }

  ghost predicate Swapping(s: State)
  {
    exists c :: 0 <= c < |s.closers| && s.closers[c].Swap?
  }

  /** Until the run is over, and before it can put an ack back. */
  ghost predicate AckInv(s: State)
  {
    && CloseInv(s) && Handed(s)
    && (s.worker.InStorage? || s.worker.SetAck? ==> s.accepted + Tokens(s) == 0)
    && (!s.worker.Failing? && !s.worker.Finishing? && !s.worker.Done? ==> s.accepted + Tokens(s) <= 1)
  }

  lemma {:induction false} HoldingAny(closers: seq<Closer>, c: nat)
    requires c < |closers| && (closers[c].Ask? || closers[c].PutBack?)
    ensures Holding(closers) > 0
  {
    if c > 0 {
      HoldingAny(closers[1..], c - 1);
    }
  }

  lemma TokensMove(s: State, c: nat, s': State)
    requires CloserStep(s, c, s') && Handed(s)
    ensures s'.accepted + Tokens(s') <= s.accepted + Tokens(s) && Handed(s')
    ensures Tokens(s') > 0 ==> Tokens(s) > 0
    ensures s'.worker == s.worker
  {
    CountsMove(s.closers, c, s'.closers[c]);
    if s.closers[c].Ask? || s.closers[c].PutBack? {
      HoldingAny(s.closers, c);
    }
  }

  lemma AckKeeps(s: State, s': State)
    requires AckInv(s) && Next(s, s')
    ensures AckInv(s')
  {
    CloseKeeps(s, s');
    if c: nat :| CloserStep(s, c, s') {
      TokensMove(s, c, s');
    } else if s'.closers != s.closers {
      CountsJoin(s.closers);
    }
  }

  lemma AckReachable(s: State)
    requires Reachable(Init, Next, s)
    ensures AckInv(s)
  {
    forall s, s' | AckInv(s) && Next(s, s') ensures AckInv(s') {
      AckKeeps(s, s');
    }
    assert Inductive(Init, Next, AckInv);
    var run :| IsRun(Init, Next, run) && run[|run| - 1] == s;
    Invariance(Init, Next, AckInv, run);
  }

  /** From a start that no closer's pending Swap can harm: storage accepts at most once. */
  ghost predicate Safe(s: State)
  {
    && CloseInv(s) && Handed(s) && s.accepted + Tokens(s) <= 1
    && (Active(s.worker) || s.worker.Done?)
    && (s.worker.Running? || s.worker.Failing? ==> Tokens(s) == 0 || !Swapping(s))
    && (s.worker.Failing? ==> s.ack.Ack?)
  }

  /** While the job runs no closer gets past its check. */
  lemma NoNewSwap(s: State, c: nat, s': State)
    requires CloserStep(s, c, s') && s.status.Processing? && !Swapping(s)
    ensures !Swapping(s')
  {
  }

  /** While the run is failing, no closer can take the ack it is about to overwrite. */
  lemma AckStays(s: State, c: nat, s': State)
    requires CloserStep(s, c, s') && Handed(s) && s.ack.Ack? && !Swapping(s)
    ensures s'.ack.Ack?
  {
  }

  lemma SafeKeeps(s: State, s': State)
    requires Safe(s) && Next(s, s')
    ensures Safe(s')
  {
    CloseKeeps(s, s');
    if c: nat :| CloserStep(s, c, s') {
      TokensMove(s, c, s');
      if !Swapping(s) && s.status.Processing? {
        NoNewSwap(s, c, s');
      }
      if s.worker.Failing? {
        AckStays(s, c, s');
      }
    } else {
      if s'.closers != s.closers {
        CountsJoin(s.closers);
      }
      assert s'.worker.Running? || s'.worker.Failing? ==> (Swapping(s') ==> Swapping(s)) by {
        if Swapping(s') {
          var c :| 0 <= c < |s'.closers| && s'.closers[c].Swap?;
          assert c < |s.closers| && s.closers[c].Swap?;
        }
      }
    }
  }

  lemma Go(s0: State, s: State, s': State)
    requires Reachable(From(s0), Next, s) && Next(s, s')
    ensures Reachable(From(s0), Next, s')
  {
    ReachableNext(From(s0), Next, s, s');
  }

  lemma GoCloser(s0: State, s: State, c: nat, s': State)
    requires Reachable(From(s0), Next, s) && CloserStep(s, c, s')
    ensures Reachable(From(s0), Next, s')
  {
    Go(s0, s, s');
  }

  lemma {:induction false} Holder(closers: seq<Closer>) returns (h: nat)
    requires Holding(closers) > 0
    ensures h < |closers| && (closers[h].Ask? || closers[h].PutBack?)
  {
    if closers[0].Ask? || closers[0].PutBack? {
      h := 0;
    } else {
      var k := Holder(closers[1..]);
      h := k + 1;
    }
  }

  /** Storage refuses the closer that holds the ack, so the ack is back in the job. */
  lemma PutsBack(s0: State, s: State, c: nat) returns (s1: State)
    requires Reachable(From(s0), Next, s) && Handed(s) && s.worker.Running? && s.status.Processing? && Tokens(s) > 0
    requires c < |s.closers| && s.closers[c].Swap?
    ensures Reachable(From(s0), Next, s1) && s1.worker.Running? && s1.status.Processing? && s1.ack.Ack?
    ensures c < |s1.closers| && s1.closers[c].Swap?
  {
    s1 := s;
    if s.ack.NoAck? {
      var h := Holder(s.closers);
      if s.closers[h].Ask? {
        var next := s.(closers := s.closers[h := PutBack(s.closers[h].ack)]);
        GoCloser(s0, s, h, next);
        s1 := next;
      }
      var last := s1.(ack := s1.closers[h].ack, closers := s1.closers[h := Lost]);
      GoCloser(s0, s1, h, last);
      s1 := last;
    }
  }

  /** The closer takes the ack and storage accepts it, while the failing run puts it back. */
  lemma FailsOver(s0: State, s: State, c: nat) returns (s4: State)
    requires Reachable(From(s0), Next, s) && s.worker.Running? && s.ack.Ack? && c < |s.closers| && s.closers[c].Swap?
    ensures Reachable(From(s0), Next, s4) && s4.worker.Finishing? && s4.ack.Ack? && s4.accepted == s.accepted + 1
  {
    var s1 := s.(worker := Failing);
    Go(s0, s, s1);
    var s2 := s1.(ack := NoAck, closers := s1.closers[c := Ask(s1.ack)]);
    GoCloser(s0, s1, c, s2);
    var s3 := s2.(accepted := s2.accepted + 1, acked := s2.acked + (if s1.ack.failed then 0 else 1),
                  closers := s2.closers[c := LoadStatus]);
    GoCloser(s0, s2, c, s3);
    s4 := s3.(ack := Ack(true), worker := Finishing);
    Go(s0, s3, s4);
  }

  /** The worker's own Close then has it accepted again. */
  lemma AcksAgain(s0: State, s: State) returns (s5: State)
    requires Reachable(From(s0), Next, s) && s.worker.Finishing? && s.ack.Ack?
    ensures Reachable(From(s0), Next, s5) && s5.accepted == s.accepted + 1
    ensures s5.acked == s.acked + (if s.ack.failed then 0 else 1)
  {
    var n := |s.closers|;
    var s1 := s.(status := Finished, worker := Done, closers := s.closers + [LoadAck]);
    Go(s0, s, s1);
    var s2 := s1.(closers := s1.closers[n := Check]);
    GoCloser(s0, s1, n, s2);
    var s3 := s2.(closers := s2.closers[n := Swap]);
    GoCloser(s0, s2, n, s3);
    var s4 := s3.(ack := NoAck, closers := s3.closers[n := Ask(s3.ack)]);
    GoCloser(s0, s3, n, s4);
    s5 := s4.(accepted := s4.accepted + 1, acked := s4.acked + (if s.ack.failed then 0 else 1),
              closers := s4.closers[n := LoadStatus]);
    GoCloser(s0, s4, n, s5);
  }

  /** Acknowledging at most once holds of a run that starts in s unless, and fails if, a closer that
      passed its check before the start has still to swap the ack out while the ack is unreported:
      a failing run then stores it back after storage accepted it. */
  lemma DoubleAckIff(s: State)
    requires Reachable(Init, Next, s) && s.worker.Running?
    ensures (exists s' :: Reachable(From(s), Next, s') && s'.accepted > 1) <==> Swapping(s) && Tokens(s) > 0
  {
    AckReachable(s);
    if Swapping(s) && Tokens(s) > 0 {
      var c: nat :| c < |s.closers| && s.closers[c].Swap?;
      ReachableInit(From(s), Next, s);
      var s1 := PutsBack(s, s, c);
      var s4 := FailsOver(s, s1, c);
      var s5 := AcksAgain(s, s4);
      assert Reachable(From(s), Next, s5) && s5.accepted > 1;
    } else {
      forall s' | Reachable(From(s), Next, s') ensures s'.accepted <= 1 {
        SafeFrom(s, s');
      }
    }
  }

  /** A Close passes its check on a job just taken, and the worker starts it: such a start is reached. */
  lemma StartsBesideSwap() returns (s: State)
    ensures Reachable(Init, Next, s) && s.worker.Running? && Swapping(s) && Tokens(s) > 0 && s.ack.Ack?
  {
    var s0 := State(Created, NoAck, [], InStorage, 0, 0, 0, 0, false);
    ReachableInit(Init, Next, s0);
    var s1 := s0.(worker := SetAck);
    ReachableNext(Init, Next, s0, s1);
    var s2 := s1.(ack := Ack(false), worker := Load);
    ReachableNext(Init, Next, s1, s2);
    var s3 := s2.(closers := [] + [LoadAck]);
    ReachableNext(Init, Next, s2, s3);
    var s4 := s3.(closers := s3.closers[0 := Check]);
    assert CloserStep(s3, 0, s4);
    ReachableNext(Init, Next, s3, s4);
    var s5 := s4.(closers := s4.closers[0 := Swap]);
    assert CloserStep(s4, 0, s5);
    ReachableNext(Init, Next, s4, s5);
    var s6 := s5.(worker := Start(Created));
    ReachableNext(Init, Next, s5, s6);
    s := s6.(status := Processing, worker := Running, runs := 1);
    ReachableNext(Init, Next, s6, s);
    assert s.closers[0].Swap?;
  }

  /** Storage can accept twice: once from the closer, once from the worker's own Close. */
  lemma DoubleAckHappens()
    ensures exists s :: Reachable(Init, Next, s) && s.accepted > 1
  {
    var s := StartsBesideSwap();
    DoubleAckIff(s);
    var s' :| Reachable(From(s), Next, s') && s'.accepted > 1;
    ReachableOn(s, s');
  }

  /** What a reachable state reaches is reachable. */
  lemma ReachableOn(s: State, s': State)
    requires Reachable(Init, Next, s) && Reachable(From(s), Next, s')
    ensures Reachable(Init, Next, s')
  {
    var reached: State -> bool := x => Reachable(Init, Next, x);
    forall x, y | reached(x) && Next(x, y) ensures reached(y) {
      ReachableNext(Init, Next, x, y);
    }
    assert Inductive(From(s), Next, reached);
    var run :| IsRun(From(s), Next, run) && run[|run| - 1] == s';
    Invariance(From(s), Next, reached, run);
  }

  lemma SafeFrom(s: State, s': State)
    requires Safe(s) && Reachable(From(s), Next, s')
    ensures s'.accepted <= 1
  {
    forall x, y | Safe(x) && Next(x, y) ensures Safe(y) {
      SafeKeeps(x, y);
    }
    assert Inductive(From(s), Next, Safe);
    var run :| IsRun(From(s), Next, run) && run[|run| - 1] == s';
    Invariance(From(s), Next, Safe, run);
  }

  /** In every run, storage accepts at most once until the job has run, however many Close it. */
  lemma AckedOnceBeforeRun(s: State)
    requires Reachable(Init, Next, s) && s.runs == 0
    ensures s.accepted <= 1
  {
    AckReachable(s);
  }

  // ---------------------------------------------------------------- a failed run is rejected

  /** A closer has the ack as it was before the run failed, or is past its check and will take it. */
  ghost predicate FailureAtRisk(s: State)
  {
    Holding(s.closers) > 0 || (Swapping(s) && s.ack.Ack?)
  }

  /** Before the failing run has stored its reason, every ack is a plain one. */
  ghost predicate PlainAcks(s: State)
  {
    && (s.ack.Ack? ==> !s.ack.failed)
    && forall c :: 0 <= c < |s.closers| && (s.closers[c].Ask? || s.closers[c].PutBack?) ==>
         s.closers[c].ack == Ack(false)
  }

  ghost predicate PlainInv(s: State)
  {
    AckInv(s) && (!s.worker.Finishing? && !s.worker.Done? ==> PlainAcks(s))
  }

  lemma PlainCloser(s: State, c: nat, s': State)
    requires CloserStep(s, c, s') && PlainAcks(s)
    ensures PlainAcks(s')
  {
  }

  lemma PlainInit(s: State)
    requires Init(s)
    ensures PlainInv(s)
  {
    assert Winners(s.closers) == Released(s.closers) == Holding(s.closers) == 0;
  }

  lemma PlainKeeps(s: State, s': State)
    requires PlainInv(s) && Next(s, s')
    ensures PlainInv(s')
  {
    AckKeeps(s, s');
    if c: nat :| CloserStep(s, c, s') {
      TokensMove(s, c, s');
      if PlainAcks(s) { PlainCloser(s, c, s'); }
    }
  }

  lemma PlainReachable(s: State)
    requires Reachable(Init, Next, s)
    ensures PlainInv(s)
  {
    forall s, s' | PlainInv(s) && Next(s, s') ensures PlainInv(s') {
      PlainKeeps(s, s');
    }
    forall s | Init(s) ensures PlainInv(s) {
      PlainInit(s);
    }
    assert Inductive(Init, Next, PlainInv);
    var run :| IsRun(Init, Next, run) && run[|run| - 1] == s;
    Invariance(Init, Next, PlainInv, run);
  }

  /** From a failing run that no closer's ack can harm: whatever is accepted carries the failure. */
  ghost predicate Rejects(s: State, acked: nat)
  {
    && CloseInv(s) && s.acked == acked && (s.worker.Failing? || s.worker.Finishing? || s.worker.Done?)
    && (s.worker.Failing? ==> !FailureAtRisk(s))
    && (!s.worker.Failing? ==> s.ack.Ack? ==> s.ack.failed)
    && forall c :: 0 <= c < |s.closers| && (s.closers[c].Ask? || s.closers[c].PutBack?) ==>
         s.closers[c].ack == Ack(true)
  }

  lemma RejectsCloser(s: State, c: nat, s': State, acked: nat)
    requires Rejects(s, acked) && CloserStep(s, c, s')
    ensures Rejects(s', acked)
  {
    CloserKeeps(s, c, s');
    if s.worker.Failing? {
      NoHolder(s, c);
      CountsMove(s.closers, c, s'.closers[c]);
      if !Swapping(s) { NoNewSwap(s, c, s'); }
    }
  }

  lemma NoHolder(s: State, c: nat)
    requires c < |s.closers| && Holding(s.closers) == 0
    ensures !s.closers[c].Ask? && !s.closers[c].PutBack?
  {
    if s.closers[c].Ask? || s.closers[c].PutBack? { HoldingAny(s.closers, c); }
  }

  lemma NoneHold(s: State)
    requires Holding(s.closers) == 0
    ensures forall c :: 0 <= c < |s.closers| ==> !s.closers[c].Ask? && !s.closers[c].PutBack?
  {
    forall c | 0 <= c < |s.closers| ensures !s.closers[c].Ask? && !s.closers[c].PutBack? {
      NoHolder(s, c);
    }
  }

  lemma RejectsKeeps(s: State, s': State, acked: nat)
    requires Rejects(s, acked) && Next(s, s')
    ensures Rejects(s', acked)
  {
    CloseKeeps(s, s');
    if c: nat :| CloserStep(s, c, s') {
      RejectsCloser(s, c, s', acked);
    } else {
      if s'.closers != s.closers { CountsJoin(s.closers); }
      if s'.worker.Failing? && Swapping(s') {
        var c :| 0 <= c < |s'.closers| && s'.closers[c].Swap?;
        assert c < |s.closers| && s.closers[c].Swap?;
      }
    }
  }

  lemma RejectsFrom(s: State, s': State)
    requires Rejects(s, s.acked) && Reachable(From(s), Next, s')
    ensures s'.acked == s.acked
  {
    var kept: State -> bool := x => Rejects(x, s.acked);
    forall x, y | kept(x) && Next(x, y) ensures kept(y) {
      RejectsKeeps(x, y, s.acked);
    }
    assert Inductive(From(s), Next, kept);
    var run :| IsRun(From(s), Next, run) && run[|run| - 1] == s';
    Invariance(From(s), Next, kept, run);
  }

  lemma AckedDespite(s: State) returns (s': State)
    requires Reachable(Init, Next, s) && s.worker.Failing? && FailureAtRisk(s)
    ensures Reachable(From(s), Next, s') && s'.acked > s.acked
  {
    PlainReachable(s);
    ReachableInit(From(s), Next, s);
    if Holding(s.closers) > 0 {
      var h := Holder(s.closers);
      if s.closers[h].Ask? {
        s' := s.(accepted := s.accepted + 1, acked := s.acked + 1, closers := s.closers[h := LoadStatus]);
        GoCloser(s, s, h, s');
      } else {
        s' := PutBackAcked(s, h);
      }
    } else {
      var c: nat :| c < |s.closers| && s.closers[c].Swap?;
      var s1 := s.(ack := NoAck, closers := s.closers[c := Ask(s.ack)]);
      GoCloser(s, s, c, s1);
      s' := s1.(accepted := s.accepted + 1, acked := s.acked + 1, closers := s1.closers[c := LoadStatus]);
      GoCloser(s, s1, c, s');
    }
  }

  /** The failing run stores its reason, the refused closer overwrites it, and the worker's own Close
      reports the old ack. */
  lemma PutBackAcked(s: State, h: nat) returns (s': State)
    requires Reachable(Init, Next, s) && Reachable(From(s), Next, s) && s.worker.Failing?
    requires h < |s.closers| && s.closers[h] == PutBack(Ack(false))
    ensures Reachable(From(s), Next, s') && s'.acked > s.acked
  {
    var s1 := s.(ack := Ack(true), worker := Finishing);
    Go(s, s, s1);
    var s2 := s1.(ack := Ack(false), closers := s1.closers[h := Lost]);
    GoCloser(s, s1, h, s2);
    s' := AcksAgain(s, s2);
  }

  /** When a run fails, every report storage accepts from then on carries the failure, in all runs, if and
      only if no closer that passed its check before the start still has the ack or will take it. */
  lemma FailureLostIff(s: State)
    requires Reachable(Init, Next, s) && s.worker.Failing?
    ensures (exists s' :: Reachable(From(s), Next, s') && s'.acked > s.acked) <==> FailureAtRisk(s)
  {
    PlainReachable(s);
    if FailureAtRisk(s) {
      var s' := AckedDespite(s);
    } else {
      NoneHold(s);
      assert Rejects(s, s.acked);
      forall s' | Reachable(From(s), Next, s') ensures s'.acked == s.acked {
        RejectsFrom(s, s');
      }
    }
  }

  /** Such a failing run is reached. */
  lemma FailureLostHappens()
    ensures exists s, s' ::
      Reachable(Init, Next, s) && s.worker.Failing? && Reachable(From(s), Next, s') && s'.acked > s.acked
  {
    var s0 := StartsBesideSwap();
    var s := s0.(worker := Failing);
    ReachableNext(Init, Next, s0, s);
    var c :| 0 <= c < |s0.closers| && s0.closers[c].Swap?;
    assert s.closers[c].Swap?;
    FailureLostIff(s);
    var s' :| Reachable(From(s), Next, s') && s'.acked > s.acked;
  }

  // ---------------------------------------------------------------- what a Close answers

  /** In every run, a Close loses only to a job that is running or closed, or to a storage that refused. */
  lemma LostHasReason(run: seq<State>, i: nat, c: nat)
    requires IsRun(Init, Next, run) && i + 1 < |run| && CloserStep(run[i], c, run[i + 1])
    requires run[i + 1].closers[c].Lost?
    ensures run[i].status.Processing? || run[i].status.Closed? || run[i].closers[c].PutBack?
  {
  }

  ghost function CloserOnly(c: nat): (State, State) -> bool
  {
    (s, s') => CloserStep(s, c, s')
  }

  lemma CloserGoes(s0: State, s: State, c: nat, s': State)
    requires Reachable(From(s0), CloserOnly(c), s) && CloserStep(s, c, s')
    ensures Reachable(From(s0), CloserOnly(c), s')
  {
    assert CloserOnly(c)(s, s');
    ReachableNext(From(s0), CloserOnly(c), s, s');
  }

  /** From any state, a Close of a job that is neither running nor closed, that goes on alone and that
      storage does not refuse, wins: it reports the ack there is, closes the job and releases Wait. */
  lemma CloseAloneWins(s: State, c: nat)
    requires c < |s.closers| && s.closers[c].LoadAck? && Closeable(s.status)
    ensures exists s' ::
      && Reachable(From(s), CloserOnly(c), s') && c < |s'.closers| && s'.closers[c].Won?
      && s'.status.Closed? && s'.releases == s.releases + 1 && s'.ack.NoAck?
      && s'.accepted == s.accepted + (if s.ack.Ack? then 1 else 0)
      && s'.acked == s.acked + (if s.ack.Ack? && !s.ack.failed then 1 else 0)
  {
    ReachableInit(From(s), CloserOnly(c), s);
    var s4 := s;
    if s.ack.Ack? {
      s4 := ReportsAlone(s, c);
    } else {
      s4 := s.(closers := s.closers[c := LoadStatus]);
      CloserGoes(s, s, c, s4);
    }
    var s5 := s4.(closers := s4.closers[c := Claim(s4.status)]);
    CloserGoes(s, s4, c, s5);
    var s6 := s5.(status := Closed, closers := s5.closers[c := Release],
                  claimedFirst := s5.claimedFirst || s5.runs == 0);
    CloserGoes(s, s5, c, s6);
    var s7 := s6.(releases := s6.releases + 1, closers := s6.closers[c := Won]);
    CloserGoes(s, s6, c, s7);
  }

  lemma ReportsAlone(s: State, c: nat) returns (s': State)
    requires Reachable(From(s), CloserOnly(c), s)
    requires c < |s.closers| && s.closers[c].LoadAck? && Closeable(s.status) && s.ack.Ack?
    ensures Reachable(From(s), CloserOnly(c), s')
    ensures s' == s.(ack := NoAck, accepted := s.accepted + 1, acked := s.acked + (if s.ack.failed then 0 else 1),
                     closers := s.closers[c := LoadStatus])
  {
    var s1 := s.(closers := s.closers[c := Check]);
    CloserGoes(s, s, c, s1);
    var s2 := s1.(closers := s1.closers[c := Swap]);
    CloserGoes(s, s1, c, s2);
    var s3 := s2.(ack := NoAck, closers := s2.closers[c := Ask(s.ack)]);
    CloserGoes(s, s2, c, s3);
    var s4 := s3.(accepted := s.accepted + 1, acked := s.acked + (if s.ack.failed then 0 else 1),
                  closers := s3.closers[c := LoadStatus]);
    CloserGoes(s, s3, c, s4);
    assert s4.closers == s.closers[c := LoadStatus];
    s' := s4;
  }

  ghost function WorkerOnly(): (State, State) -> bool
  {
    (s, s') => WorkerStep(s, s')
  }

  lemma WorkerGoes(s0: State, s: State, s': State)
    requires Reachable(From(s0), WorkerOnly(), s) && WorkerStep(s, s')
    ensures Reachable(From(s0), WorkerOnly(), s')
  {
    assert WorkerOnly()(s, s');
    ReachableNext(From(s0), WorkerOnly(), s, s');
  }

  /** From any state, a worker that goes on alone with a job starts it, unless it is closed already. */
  lemma WorkerAloneStarts(s: State)
    requires s.worker.InStorage? || s.worker.Load?
    ensures exists s' ::
      && Reachable(From(s), WorkerOnly(), s')
      && if s.status.Closed? then s'.worker.Skipped? && s'.runs == s.runs
         else s'.worker.Running? && s'.status.Processing? && s'.runs == s.runs + 1
  {
    ReachableInit(From(s), WorkerOnly(), s);
    var s1 := s;
    if s.worker.InStorage? {
      s1 := s.(worker := if s.status.Closed? then Skipped else SetAck);
      WorkerGoes(s, s, s1);
    }
    if s1.worker.SetAck? {
      var s2 := s1.(worker := Load);
      WorkerGoes(s, s1, s2);
      s1 := s2;
    }
    if s1.worker.Load? {
      var s3 := s1.(worker := if s.status.Closed? then Skipped else Start(s.status));
      WorkerGoes(s, s1, s3);
      s1 := s3;
    }
    if s1.worker.Start? {
      var s4 := s1.(status := Processing, worker := Running, runs := s.runs + 1);
      WorkerGoes(s, s1, s4);
    }
  }
}
