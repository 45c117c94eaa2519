/** A purge shared by any number of workers bound to one storage (worker_park.go). Workers register,
    take batches, park and unpark them while purges run; a discarded worker's hook is collected. One
    step is one atomic operation, or what one lock covers: mx for the hook list, parkMx for a drop.
    A batch is the epoch it was stamped with. */
module PurgeShared {
  import opened Runs

  /** park: the check and the append, with parkMx held from the first to the second. */
  datatype ParkAt = Out | Checking(e: nat) | Appending(e: nat)

  /** hand are the batches it took and has not finished; parked the ones set aside. */
  datatype Worker = Worker(registered: bool, gone: bool, hand: seq<nat>, parked: seq<nat>, at: ParkAt)

  /** todo are the hooks of the snapshot that are still to be called. */
  datatype PurgeAt = Bumped | Dropping(todo: seq<nat>) | Returned

  /** bump is the counter's value after this purge's bump. */
  datatype Purge = Purge(bump: nat, at: PurgeAt)

  datatype State = State(gen: nat, hooks: seq<nat>, workers: seq<Worker>, purges: seq<Purge>)

  ghost predicate Init(s: State)
  {
    s == State(0, [], [], [])
  }

  function Without(batches: seq<nat>, k: nat): seq<nat>
    requires k < |batches|
  {
    batches[..k] + batches[k + 1..]
  }

  // ---------------------------------------------------------------- a worker

  /** What a worker does by itself; gen is the counter as it reads it. */
  ghost predicate WorkerStep(gen: nat, x: Worker, x': Worker)
  {
    && !x.gone
    && (|| (x.registered && x' == x.(hand := x.hand + [gen]))                                   // a batch, stamped
        || (exists k: nat :: k < |x.hand| && x' == x.(hand := Without(x.hand, k)))              // it ends
        || (exists k: nat :: k < |x.hand| && x.at.Out?
                             && x' == x.(hand := Without(x.hand, k), at := Checking(x.hand[k])))
        || (x.at.Checking? && x' == x.(at := if gen != x.at.e then Out else Appending(x.at.e)))
        || (x.at.Appending? && x' == x.(parked := x.parked + [x.at.e], at := Out))
        || (exists k: nat :: k < |x.parked| && x.at.Out?
                             && x' == x.(parked := Without(x.parked, k), hand := x.hand + [x.parked[k]]))
        || (x.hand == [] && x.at.Out? && x' == x.(gone := true, parked := [])))                 // collected
  }

  ghost predicate WorkerActs(s: State, w: nat, s': State)
  {
    && w < |s.workers| == |s'.workers| && s' == s.(workers := s.workers[w := s'.workers[w]])
    && WorkerStep(s.gen, s.workers[w], s'.workers[w])
  }

  /** register, at bind time and again for every further handle. */
  ghost predicate Registers(s: State, w: nat, s': State)
  {
    && w < |s.workers| && !s.workers[w].gone
    && s' == s.(workers := s.workers[w := s.workers[w].(registered := true)],
                hooks := if w in s.hooks then s.hooks else s.hooks + [w])
  }

  // ---------------------------------------------------------------- purge

  /** The hooks of the workers not collected, in order. */
  function Live(hooks: seq<nat>, workers: seq<Worker>): seq<nat>
  {
    if hooks == [] then []
    else
      var last := hooks[|hooks| - 1];
      Live(hooks[..|hooks| - 1], workers) + (if last < |workers| && !workers[last].gone then [last] else [])
  }

  ghost predicate PurgeStep(s: State, p: nat, s': State)
  {
    && p < |s.purges|
    && match s.purges[p].at
       case Bumped =>
         var live := Live(s.hooks, s.workers);
         s' == s.(hooks := live, purges := s.purges[p := s.purges[p].(at := Dropping(live))])
       case Dropping(todo) =>
         if todo == [] then s' == s.(purges := s.purges[p := s.purges[p].(at := Returned)])
         else
           var w := todo[0];
           && w < |s.workers| && s.workers[w].at.Out?
           && s' == s.(workers := s.workers[w := s.workers[w].(parked := [])],
                       purges := s.purges[p := s.purges[p].(at := Dropping(todo[1..]))])
       case Returned => false
  }

  ghost predicate Next(s: State, s': State)
  {
    || (exists w: nat :: WorkerActs(s, w, s'))
    || (exists w: nat :: Registers(s, w, s'))
    || (exists p: nat :: PurgeStep(s, p, s'))
    || s' == s.(workers := s.workers + [Worker(false, false, [], [], Out)])
    || s' == s.(gen := s.gen + 1, purges := s.purges + [Purge(s.gen + 1, Bumped)])
  }

  // ---------------------------------------------------------------- what holds

  /** A worker with batches is registered and alive, and no batch is from the future. */
  ghost predicate WorkerOk(s: State, w: nat)
    requires w < |s.workers|
  {
    var x := s.workers[w];
    && (x.registered && !x.gone ==> w in s.hooks)
    && (!x.registered || x.gone ==> x.hand == [] && x.parked == [] && x.at.Out?)
    && (forall e :: e in x.hand || e in x.parked ==> e <= s.gen)
    && (!x.at.Out? ==> x.at.e <= s.gen)
  }

  /** The purge is still to drop what w has parked. */
  predicate Reaches(p: Purge, w: nat)
  {
    p.at.Bumped? || (p.at.Dropping? && w in p.at.todo)
  }

  /** What w has parked, or is appending, from before the bump, the purge is still to drop. */
  ghost predicate Covered(p: Purge, w: nat, x: Worker)
  {
    && (forall e :: e in x.parked && e < p.bump ==> Reaches(p, w))
    && (x.at.Appending? && x.at.e < p.bump ==> Reaches(p, w))
  }

  ghost predicate Inv(s: State)
  {
    && (forall w: nat :: w < |s.workers| ==> WorkerOk(s, w))
    && (forall p :: 0 <= p < |s.purges| ==> s.purges[p].bump <= s.gen)
    && (forall p: nat, w: nat :: p < |s.purges| && w < |s.workers| ==> Covered(s.purges[p], w, s.workers[w]))
  }

  lemma WorkerKeeps(s: State, w: nat, s': State)
    requires WorkerActs(s, w, s') && WorkerOk(s, w)
    ensures WorkerOk(s', w)
  {
    var x, x' := s.workers[w], s'.workers[w];
    forall e | e in x'.hand || e in x'.parked ensures e <= s.gen {
      if e in x'.hand { HandFrom(s.gen, x, x', e); } else { ParkedFrom(s.gen, x, x', e); }
    }
    if !x'.at.Out? && x'.at != x.at && x.at.Out? {
      var k: nat :| k < |x.hand| && x' == x.(hand := Without(x.hand, k), at := Checking(x.hand[k]));
      assert x.hand[k] in x.hand;
    }
  }

  lemma WithoutMembers(batches: seq<nat>, k: nat)
    requires k < |batches|
    ensures batches[k] in batches && forall e :: e in Without(batches, k) ==> e in batches
  {
  }

  lemma HandFrom(gen: nat, x: Worker, x': Worker, e: nat)
    requires WorkerStep(gen, x, x') && e in x'.hand
    ensures e in x.hand || e in x.parked || e == gen
  {
    if k: nat :| k < |x.hand| && x'.hand == Without(x.hand, k) {
      WithoutMembers(x.hand, k);
    }
  }

  lemma ParkedFrom(gen: nat, x: Worker, x': Worker, e: nat)
    requires WorkerStep(gen, x, x') && e in x'.parked
    ensures e in x.parked || (x.at.Appending? && e == x.at.e)
  {
    if k: nat :| k < |x.parked| && x'.parked == Without(x.parked, k) {
      WithoutMembers(x.parked, k);
    }
  }

  /** A worker parks only what is not stale, so nothing older than a bump made before. */
  lemma WorkerCovered(p: Purge, gen: nat, w: nat, x: Worker, x': Worker)
    requires WorkerStep(gen, x, x') && Covered(p, w, x) && p.bump <= gen
    ensures Covered(p, w, x')
  {
    forall e | e in x'.parked && e < p.bump ensures Reaches(p, w) {
      ParkedFrom(gen, x, x', e);
    }
  }

  lemma {:induction false} LiveMembers(hooks: seq<nat>, workers: seq<Worker>)
    ensures forall w :: w in Live(hooks, workers) <==> w in hooks && w < |workers| && !workers[w].gone
  {
    if hooks != [] {
      var last := |hooks| - 1;
      LiveMembers(hooks[..last], workers);
      assert hooks == hooks[..last] + [hooks[last]];
    }
  }

  lemma ActsKeeps(s: State, w: nat, s': State)
    requires Inv(s) && WorkerActs(s, w, s')
    ensures Inv(s')
  {
    forall v: nat | v < |s'.workers| ensures WorkerOk(s', v) {
      assert WorkerOk(s, v);
      if v == w { WorkerKeeps(s, w, s'); }
    }
    forall p: nat, v: nat | p < |s'.purges| && v < |s'.workers| ensures Covered(s'.purges[p], v, s'.workers[v]) {
      assert Covered(s.purges[p], v, s.workers[v]);
      if v == w { WorkerCovered(s.purges[p], s.gen, w, s.workers[w], s'.workers[w]); }
    }
  }

  /** The snapshot has every worker that can have parked something before the bump. */
  lemma SnapshotKeeps(s: State, p: nat, s': State)
    requires Inv(s) && PurgeStep(s, p, s') && s.purges[p].at.Bumped?
    ensures Inv(s')
  {
    LiveMembers(s.hooks, s.workers);
    forall v: nat | v < |s'.workers| ensures WorkerOk(s', v) {
      assert WorkerOk(s, v);
    }
    forall q: nat, v: nat | q < |s'.purges| && v < |s'.workers| ensures Covered(s'.purges[q], v, s'.workers[v]) {
      assert Covered(s.purges[q], v, s.workers[v]) && WorkerOk(s, v);
    }
  }

  lemma DropKeeps(s: State, p: nat, s': State)
    requires Inv(s) && PurgeStep(s, p, s') && s.purges[p].at.Dropping?
    ensures Inv(s')
  {
    var todo := s.purges[p].at.todo;
    forall v: nat | v < |s'.workers| ensures WorkerOk(s', v) {
      assert WorkerOk(s, v);
    }
    forall q: nat, v: nat | q < |s'.purges| && v < |s'.workers| ensures Covered(s'.purges[q], v, s'.workers[v]) {
      assert Covered(s.purges[q], v, s.workers[v]);
      assert todo != [] ==> todo == [todo[0]] + todo[1..];
    }
  }

  lemma RestKeeps(s: State, s': State)
    requires Inv(s)
    requires || s' == s.(workers := s.workers + [Worker(false, false, [], [], Out)])
             || s' == s.(gen := s.gen + 1, purges := s.purges + [Purge(s.gen + 1, Bumped)])
             || exists w: nat :: Registers(s, w, s')
    ensures Inv(s')
  {
    forall v: nat | v < |s'.workers| ensures WorkerOk(s', v) {
      assert v < |s.workers| ==> WorkerOk(s, v);
    }
    forall q: nat, v: nat | q < |s'.purges| && v < |s'.workers| ensures Covered(s'.purges[q], v, s'.workers[v]) {
      assert q < |s.purges| && v < |s.workers| ==> Covered(s.purges[q], v, s.workers[v]);
    }
  }

  lemma NextKeeps(s: State, s': State)
    requires Inv(s) && Next(s, s')
    ensures Inv(s')
  {
    if w: nat :| WorkerActs(s, w, s') {
      ActsKeeps(s, w, s');
    } else if p: nat :| PurgeStep(s, p, s') {
      if s.purges[p].at.Bumped? { SnapshotKeeps(s, p, s'); } else { DropKeeps(s, p, s'); }
    } else {
      RestKeeps(s, s');
    }
  }

  lemma RunKeeps(run: seq<State>)
    requires IsRun(Init, Next, run)
    ensures forall i :: 0 <= i < |run| ==> Inv(run[i])
  {
    forall s, s' | Inv(s) && Next(s, s') ensures Inv(s') {
      NextKeeps(s, s');
    }
    assert Inductive(Init, Next, Inv);
    Invariance(Init, Next, Inv, run);
  }

  // ---------------------------------------------------------------- theorems

  /** In every run, with any number of workers registering, parking and being collected meanwhile:
      once a purge has returned, no worker has parked, or is about to park, a batch stamped before its
      bump. */
  lemma ReturnedPurgeLeavesNothing(run: seq<State>, i: nat, p: nat, w: nat)
    requires IsRun(Init, Next, run) && i < |run| && p < |run[i].purges| && w < |run[i].workers|
    requires run[i].purges[p].at.Returned?
    ensures forall e :: e in run[i].workers[w].parked ==> e >= run[i].purges[p].bump
    ensures run[i].workers[w].at.Appending? ==> run[i].workers[w].at.e >= run[i].purges[p].bump
  {
    RunKeeps(run);
    assert Covered(run[i].purges[p], w, run[i].workers[w]);
  }

  /** In every run, a stale parked batch is one that every purge since its stamp is still to drop: from
      its bump to its call of the one hook that reaches it. */
  lemma StaleIsReached(run: seq<State>, i: nat, p: nat, w: nat, e: nat)
    requires IsRun(Init, Next, run) && i < |run| && p < |run[i].purges| && w < |run[i].workers|
    requires e in run[i].workers[w].parked && e < run[i].purges[p].bump
    ensures Reaches(run[i].purges[p], w) && w in run[i].hooks
  {
    RunKeeps(run);
    assert Covered(run[i].purges[p], w, run[i].workers[w]) && WorkerOk(run[i], w);
  }

  /** In every run, a park ends with the batch in the list, and drops it only if a purge has bumped the
      counter since its stamp. */
  lemma OnlyStaleIsDropped(run: seq<State>, i: nat, w: nat)
    requires IsRun(Init, Next, run) && i + 1 < |run| && WorkerActs(run[i], w, run[i + 1])
    requires !run[i].workers[w].at.Out? && run[i + 1].workers[w].at.Out?
    ensures var x, x' := run[i].workers[w], run[i + 1].workers[w];
      if x.at.Appending? then x'.parked == x.parked + [x.at.e]
      else x.at.e < run[i].gen && x'.parked == x.parked
  {
    RunKeeps(run);
    assert WorkerOk(run[i], w);
  }
}
