/** A queue's pause and its hooks (internal/queues/pause.go), and the hold flag a worker keeps over its
    parked batches with their help (worker_park.go, source.go). One step is one atomic operation;
    what runs under mu alone is one step. Every Pause or Resume that takes effect flips the pause, so
    the number of changes tells the state. */
module PauseHooks {
  import opened Runs

  /** The worker's own hook on each queue it is bound to. */
  const WORKER := 0

  /** The notify whose turn it is: cnt is the change count its read of Paused saw. */
  datatype Turn =
    | NoTurn
    | Locked
    | Read(cnt: nat)
    | Calling(cnt: nat, todo: set<nat>)
    | Live(cnt: nat, todo: set<nat>, h: nat)

  /** waiting counts the changes whose notify has not locked notifyMu yet. since and told are history:
      the change count when a hook was registered, and the one its last call was about. A queue that
      does not notify can pause but tells no one. */
  datatype Queue = Queue(
    notifies: bool, changes: nat, waiting: nat, turn: Turn,
    hooks: set<nat>, since: map<nat, nat>, told: map<nat, nat>)

  /** unheld and park, under parkMx. */
  datatype Section =
    | Outside
    | Scanning(i: nat, held: bool)
    | Parking

  /** A parked batch is its queue. */
  datatype State = State(queues: seq<Queue>, parked: seq<nat>, parkHeld: bool, section: Section)

  predicate PausedAt(changes: nat)
  {
    changes % 2 == 1
  }

  predicate Paused(q: Queue)
  {
    PausedAt(q.changes)
  }

  ghost predicate Init(s: State)
  {
    && s == State(s.queues, [], false, Outside)
    && forall k :: 0 <= k < |s.queues| ==>
         s.queues[k] == Queue(s.queues[k].notifies, 0, 0, NoTurn, {WORKER}, map[WORKER := 0], map[])
  }

  // ---------------------------------------------------------------- one queue

  /** The steps of one queue that touch nothing of the worker. */
  predicate Quiet(q: Queue, q': Queue)
  {
    || q' == q.(changes := q.changes + 1, waiting := if q.notifies then q.waiting + 1 else 0)    // Pause, Resume
    || (q.waiting > 0 && q.turn.NoTurn? && q' == q.(waiting := q.waiting - 1, turn := Locked))
    || (q.turn.Locked? && q' == q.(turn := Read(q.changes)))
    || (q.turn.Read? && q' == q.(turn := Calling(q.turn.cnt, q.hooks)))
    || (q.turn.Calling? && q.turn.todo == {} && q' == q.(turn := NoTurn))
  }

  /** Picking the next hook, registering one, cancelling one. */
  predicate Hooking(q: Queue, h: nat, q': Queue)
  {
    || (q.turn.Calling? && h in q.turn.todo
        && q' == q.(turn := if h in q.hooks then Live(q.turn.cnt, q.turn.todo - {h}, h)
                            else Calling(q.turn.cnt, q.turn.todo - {h})))
    || (h !in q.since && q' == q.(hooks := q.hooks + {h}, since := q.since[h := q.changes]))
    || (h != WORKER && q' == q.(hooks := q.hooks - {h}))
  }

  predicate CallHook(q: Queue, q': Queue)
  {
    q.turn.Live? && q' == q.(turn := Calling(q.turn.cnt, q.turn.todo), told := q.told[q.turn.h := q.turn.cnt])
  }

  ghost predicate QueueStep(s: State, k: nat, s': State)
  {
    && k < |s.queues| == |s'.queues| && s'.queues == s.queues[k := s'.queues[k]]
    && var q, q' := s.queues[k], s'.queues[k];
       || ((Quiet(q, q') || exists h: nat :: Hooking(q, h, q')) && s' == s.(queues := s'.queues))
       || (CallHook(q, q')
           && s' == s.(queues := s'.queues, parkHeld := s.parkHeld || (q.turn.h == WORKER && PausedAt(q.turn.cnt))))
  }

  // ---------------------------------------------------------------- the worker

  predicate Holds(q: Queue)
  {
    Paused(q) || !q.notifies
  }

  ghost predicate ParkStep(s: State, s': State)
  {
    match s.section
    case Outside =>
      || s' == s.(section := Scanning(0, false), parkHeld := false)
      || (exists k: nat :: k < |s.queues| && s' == s.(parked := s.parked + [k], section := Parking))
      // unpark, dropParked
      || (exists i: nat :: i < |s.parked| && s' == s.(parked := s.parked[..i] + s.parked[i + 1..]))
    case Scanning(i, held) =>
      if i < |s.parked| then
        s.parked[i] < |s.queues| && s' == s.(section := Scanning(i + 1, held || Holds(s.queues[s.parked[i]])))
      else s' == s.(section := Outside, parkHeld := s.parkHeld || held)
    case Parking =>
      && s.parked != [] && s.parked[|s.parked| - 1] < |s.queues|
      && s' == s.(section := Outside, parkHeld := s.parkHeld || Holds(s.queues[s.parked[|s.parked| - 1]]))
  }

  ghost predicate Next(s: State, s': State)
  {
    (exists k: nat :: QueueStep(s, k, s')) || ParkStep(s, s')
  }

  // ---------------------------------------------------------------- what is owed

  /** A call of h is still to come, and it will tell the state as it is now or later. */
  predicate Owes(q: Queue, h: nat)
  {
    q.waiting > 0 || match q.turn
      case NoTurn => false
      case Locked => true
      case Read(_) => true
      case Calling(_, todo) => h in todo
      case Live(_, todo, h') => h in todo || h == h'
  }

  ghost predicate TurnOk(q: Queue)
  {
    && (!q.notifies ==> q.waiting == 0 && q.turn.NoTurn?)
    && WORKER in q.hooks && q.hooks <= q.since.Keys && q.told.Keys <= q.since.Keys
    && (q.turn.Calling? || q.turn.Live? ==> q.turn.todo <= q.since.Keys) && (q.turn.Live? ==> q.turn.h in q.since)
    && (forall h :: h in q.since ==> q.since[h] <= q.changes)
    && (q.turn.Read? || q.turn.Calling? || q.turn.Live? ==>
          q.turn.cnt <= q.changes && (q.turn.cnt < q.changes ==> q.waiting > 0))
  }

  ghost predicate HookOk(q: Queue, h: nat)
  {
    h in q.hooks && h in q.since ==>
      || Owes(q, h)
      || (if h in q.told then q.told[h] == q.changes else q.since[h] == q.changes)
  }

  ghost predicate QueueInv(q: Queue)
  {
    TurnOk(q) && (q.notifies ==> forall h :: HookOk(q, h))
  }

  lemma QueueKeeps(q: Queue, h: nat, q': Queue)
    requires QueueInv(q) && (Quiet(q, q') || Hooking(q, h, q') || CallHook(q, q'))
    ensures QueueInv(q') && q'.notifies == q.notifies
  {
    assert TurnOk(q');
    forall g | q'.notifies ensures HookOk(q', g) {
      assert HookOk(q, g);
    }
  }

  /** The batch at i is not forgotten: its queue does not hold it, or the flag says so, or a call that
      will set the flag is owed, or the scan has seen it held. */
  predicate Covered(s: State, i: nat)
  {
    i < |s.parked| && s.parked[i] < |s.queues| &&
    var q := s.queues[s.parked[i]];
    || !Holds(q) || s.parkHeld || (q.notifies && Owes(q, WORKER))
    || match s.section
       case Outside => false
       case Scanning(j, held) => held || i >= j
       case Parking => i == |s.parked| - 1
  }

  ghost predicate Inv(s: State)
  {
    && (forall k :: 0 <= k < |s.queues| ==> QueueInv(s.queues[k]))
    && (s.section.Parking? ==> s.parked != [])
    && (forall i: nat :: i < |s.parked| ==> Covered(s, i))
  }

  /** A step of a queue uncovers no batch. */
  lemma QueueCovers(s: State, k: nat, s': State, i: nat)
    requires QueueStep(s, k, s') && QueueInv(s.queues[k]) && Covered(s, i)
    ensures Covered(s', i)
  {
    var q, q' := s.queues[k], s'.queues[k];
    if s.parked[i] == k && q.notifies {
      assert Owes(q', WORKER) || !Owes(q, WORKER) || (CallHook(q, q') && q.turn.h == WORKER) || WORKER !in q.hooks;
    }
  }

  lemma QueueStepKeeps(s: State, k: nat, s': State)
    requires Inv(s) && QueueStep(s, k, s')
    ensures Inv(s')
  {
    var q, q' := s.queues[k], s'.queues[k];
    if h: nat :| Hooking(q, h, q') {
      QueueKeeps(q, h, q');
    } else {
      QueueKeeps(q, 0, q');
    }
    forall i: nat | i < |s'.parked| ensures Covered(s', i) {
      QueueCovers(s, k, s', i);
    }
  }

  lemma ParkKeeps(s: State, s': State)
    requires Inv(s) && ParkStep(s, s')
    ensures Inv(s')
  {
    if s.section.Outside? && s'.section.Outside? {
      var j: nat :| j < |s.parked| && s' == s.(parked := s.parked[..j] + s.parked[j + 1..]);
      forall i: nat | i < |s'.parked| ensures Covered(s', i) {
        assert Covered(s, if i < j then i else i + 1);
      }
    } else {
      forall i: nat | i < |s'.parked| ensures Covered(s', i) {
        assert i < |s.parked| ==> Covered(s, i);
      }
    }
  }

  lemma RunKeeps(run: seq<State>)
    requires IsRun(Init, Next, run)
    ensures forall i :: 0 <= i < |run| ==> Inv(run[i])
  {
    forall s, s' | Inv(s) && Next(s, s') ensures Inv(s') {
      if k: nat :| QueueStep(s, k, s') {
        QueueStepKeeps(s, k, s');
      } else {
        ParkKeeps(s, s');
      }
    }
    assert Inductive(Init, Next, Inv);
    Invariance(Init, Next, Inv, run);
  }

  // ---------------------------------------------------------------- theorems

  /** In every run: once no notify is waiting or under way, every hook still registered that a change
      came after, or that was ever called, was last told the state the queue is in. */
  lemma LastCallIsState(run: seq<State>, i: nat, k: nat, h: nat)
    requires IsRun(Init, Next, run) && i < |run| && k < |run[i].queues|
    requires var q := run[i].queues[k];
      q.notifies && q.waiting == 0 && q.turn.NoTurn? && h in q.hooks
    ensures var q := run[i].queues[k];
      h in q.since && (h in q.told || q.since[h] < q.changes ==> h in q.told && PausedAt(q.told[h]) == Paused(q))
  {
    RunKeeps(run);
    assert HookOk(run[i].queues[k], h);
  }

  /** In every run, however unheld's clear-then-scan races park and the hooks: outside the two
      critical sections, if the hold flag is clear then every parked batch is of a queue that
      notifies, and is of a paused one only while that queue owes the worker's hook a call. */
  lemma ClearFlagHoldsNothing(run: seq<State>, i: nat, b: nat)
    requires IsRun(Init, Next, run) && i < |run| && b < |run[i].parked|
    requires run[i].section.Outside? && !run[i].parkHeld
    ensures run[i].parked[b] < |run[i].queues|
    ensures var q := run[i].queues[run[i].parked[b]];
      q.notifies && (Paused(q) ==> Owes(q, WORKER))
  {
    RunKeeps(run);
    assert Covered(run[i], b);
  }

  // ---------------------------------------------------------------- a notify that goes on alone is done

  ghost function QueueOnly(k: nat): (State, State) -> bool
  {
    (s, s') => QueueStep(s, k, s')
  }

  ghost predicate ByQueue(s: State, k: nat, s': State)
  {
    Reachable(From(s), QueueOnly(k), s')
  }

  /** A step of the queue that does not touch the flag. */
  lemma Turns(s0: State, s: State, k: nat, q: Queue) returns (s': State)
    requires ByQueue(s0, k, s) && k < |s.queues|
    requires Quiet(s.queues[k], q) || exists h: nat :: Hooking(s.queues[k], h, q)
    ensures ByQueue(s0, k, s') && s' == s.(queues := s.queues[k := q])
  {
    s' := s.(queues := s.queues[k := q]);
    assert QueueOnly(k)(s, s');
    ReachableNext(From(s0), QueueOnly(k), s, s');
  }

  lemma {:induction false} CallsAll(s0: State, s: State, k: nat) returns (s': State)
    requires ByQueue(s0, k, s) && k < |s.queues|
    requires s.queues[k].turn.Calling? && s.queues[k].turn.todo <= s.queues[k].hooks
    ensures ByQueue(s0, k, s') && k < |s'.queues|
    ensures var q, q' := s.queues[k], s'.queues[k];
      && q' == q.(turn := NoTurn, told := q'.told)
      && (forall h :: h in q.turn.todo ==> h in q'.told && q'.told[h] == q.turn.cnt)
      && (forall h :: h in q.told && h !in q.turn.todo ==> h in q'.told && q'.told[h] == q.told[h])
    decreases |s.queues[k].turn.todo|
  {
    var q := s.queues[k];
    var cnt, todo := q.turn.cnt, q.turn.todo;
    if todo == {} {
      s' := Turns(s0, s, k, q.(turn := NoTurn));
    } else {
      var h :| h in todo;
      var q1 := q.(turn := Live(cnt, todo - {h}, h));
      assert Hooking(q, h, q1);
      var s1 := Turns(s0, s, k, q1);
      var q2 := q1.(turn := Calling(cnt, todo - {h}), told := q1.told[h := cnt]);
      var s2 := s1.(queues := s1.queues[k := q2], parkHeld := s1.parkHeld || (h == WORKER && PausedAt(cnt)));
      assert CallHook(q1, q2);
      assert QueueOnly(k)(s1, s2);
      ReachableNext(From(s0), QueueOnly(k), s1, s2);
      s' := CallsAll(s0, s2, k);
    }
  }

  /** From any state, a change whose notify has not begun can be notified by its queue alone: every hook
      there is has then been told the state the queue is in. */
  lemma NotifyFinishes(s: State, k: nat)
    requires k < |s.queues| && s.queues[k].waiting > 0 && s.queues[k].turn.NoTurn?
    ensures exists s' ::
      && ByQueue(s, k, s') && k < |s'.queues| && s'.queues[k].turn.NoTurn?
      && s'.queues[k].waiting == s.queues[k].waiting - 1
      && forall h :: h in s.queues[k].hooks ==> h in s'.queues[k].told && s'.queues[k].told[h] == s.queues[k].changes
  {
    ReachableInit(From(s), QueueOnly(k), s);
    var q := s.queues[k];
    var q1 := q.(waiting := q.waiting - 1, turn := Locked);
    var s1 := Turns(s, s, k, q1);
    var q2 := q1.(turn := Read(q.changes));
    var s2 := Turns(s, s1, k, q2);
    var q3 := q2.(turn := Calling(q.changes, q.hooks));
    var s3 := Turns(s, s2, k, q3);
    var s4 := CallsAll(s, s3, k);
  }
}
