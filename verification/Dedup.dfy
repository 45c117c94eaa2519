/** EnqueueOnce on the FIFO queue (internal/queues/queue.go, internal/queues/idset.go): an id set
    striped over shard locks, kept in step with a log that Dequeue takes from without any of them.
    One step is one atomic operation, one lock or unlock, or one log operation (module TopicLog shows
    the log to be a sequence). An item is the id its ID method returns, 0 for none. Plain items carry
    no id that EnqueueOnce is used with, and no Purge overlaps a Dequeue. */
module Dedup {
  import opened Runs

  const SHARDS := 64

  datatype Lock = Free | HeldBy(who: nat)

  /** Why an id is in the set: its item is stored, or a call is between its two effects. */
  datatype Owner = Stored | Adding(who: nat) | Taken(who: nat) | Purged(who: nat)

  /** own is history. onceIds are the ids EnqueueOnce is used with. */
  datatype Shared = Shared(
    onceIds: set<nat>, store: seq<nat>, made: bool, idsOn: bool, ids: set<nat>, locks: seq<Lock>, own: map<nat, Owner>)

  datatype OnceAt = MakeSet | SetOn | LockShard | Add | Append | Undo | Unlock(ok: bool)
  datatype DequeueAt = ReadOn | LockId | Remove
  datatype PurgeAt = MakeToPurge | LockAll(k: nat) | TakeAll | Reset(k: nat)

  datatype Pc = Idle | Once(id: nat, once: OnceAt) | Deq(x: nat, deq: DequeueAt) | Purge(purge: PurgeAt)

  datatype State = State(sh: Shared, pcs: seq<Pc>)

  /** Stands for the hash of the id. */
  function Shard(id: nat): (k: nat)
    ensures k < SHARDS
  {
    id % SHARDS
  }

  ghost predicate Init(s: State)
  {
    && 0 !in s.sh.onceIds
    && s == State(Shared(s.sh.onceIds, [], false, false, {}, seq(SHARDS, _ => Free), map[]), [])
  }

  // ---------------------------------------------------------------- steps

  predicate OnceStep(sh: Shared, t: nat, id: nat, at: OnceAt, sh': Shared, pc': Pc)
  {
    && |sh.locks| == SHARDS
    && match at
       case MakeSet => sh' == sh.(made := true) && pc' == Once(id, SetOn)
       case SetOn => sh' == sh.(idsOn := true) && pc' == Once(id, LockShard)
       case LockShard =>
         sh.locks[Shard(id)].Free? && sh' == sh.(locks := sh.locks[Shard(id) := HeldBy(t)]) && pc' == Once(id, Add)
       case Add =>
         if id in sh.ids then sh' == sh && pc' == Once(id, Unlock(false))
         else sh' == sh.(ids := sh.ids + {id}, own := sh.own[id := Adding(t)]) && pc' == Once(id, Append)
       case Append =>
         || (sh' == sh.(store := sh.store + [id], own := sh.own[id := Stored]) && pc' == Once(id, Unlock(true)))
         || (sh' == sh && pc' == Once(id, Undo))                       // full or closed
       case Undo => sh' == sh.(ids := sh.ids - {id}, own := sh.own - {id}) && pc' == Once(id, Unlock(false))
       case Unlock(_) => sh' == sh.(locks := sh.locks[Shard(id) := Free]) && pc' == Idle
  }

  predicate DequeueStep(sh: Shared, t: nat, x: nat, at: DequeueAt, sh': Shared, pc': Pc)
  {
    && |sh.locks| == SHARDS
    && match at
       case ReadOn => sh' == sh && pc' == (if sh.idsOn && x != 0 then Deq(x, LockId) else Idle)
       case LockId =>
         && sh.made && sh.locks[Shard(x)].Free?
         && sh' == sh.(locks := sh.locks[Shard(x) := HeldBy(t)]) && pc' == Deq(x, Remove)
       case Remove =>
         sh' == sh.(ids := sh.ids - {x}, own := sh.own - {x}, locks := sh.locks[Shard(x) := Free]) && pc' == Idle
  }

  /** The stored items leave; their ids stay in the set until their shard is reset. */
  function PurgedBy(own: map<nat, Owner>, t: nat): map<nat, Owner>
  {
    map id | id in own :: if own[id].Stored? then Purged(t) else own[id]
  }

  predicate PurgeStep(sh: Shared, t: nat, at: PurgeAt, sh': Shared, pc': Pc)
  {
    && |sh.locks| == SHARDS
    && match at
       case MakeToPurge => sh' == sh.(made := true) && pc' == Purge(LockAll(0))
       case LockAll(k) =>
         if k >= SHARDS then sh' == sh && pc' == Purge(TakeAll)
         else sh.locks[k].Free? && sh' == sh.(locks := sh.locks[k := HeldBy(t)]) && pc' == Purge(LockAll(k + 1))
       case TakeAll => sh' == sh.(store := [], own := PurgedBy(sh.own, t)) && pc' == Purge(Reset(0))
       case Reset(k) =>
         if k >= SHARDS then sh' == sh && pc' == Idle
         else
           var out := set id | id in sh.ids && Shard(id) == k;
           && sh' == sh.(ids := sh.ids - out, own := sh.own - out, locks := sh.locks[k := Free])
           && pc' == Purge(Reset(k + 1))
  }

  /** A call begins; Dequeue's first step takes the front item, a plain Enqueue is one step. */
  predicate Begins(sh: Shared, t: nat, sh': Shared, pc': Pc)
  {
    || (pc'.Once? && pc'.once.MakeSet? && pc'.id in sh.onceIds && sh' == sh)
    || (pc' == Purge(MakeToPurge) && sh' == sh)
    || (pc' == Idle && sh'.store != [] && sh'.store[|sh'.store| - 1] !in sh.onceIds
        && sh' == sh.(store := sh.store + [sh'.store[|sh'.store| - 1]]))
    || (sh.store != [] && pc' == Deq(sh.store[0], ReadOn)
        && sh' == sh.(store := sh.store[1..],
                      own := if sh.store[0] in sh.onceIds then sh.own[sh.store[0] := Taken(t)] else sh.own))
  }

  predicate GoStep(sh: Shared, t: nat, pc: Pc, sh': Shared, pc': Pc)
  {
    match pc
    case Idle => Begins(sh, t, sh', pc')
    case Once(id, at) => OnceStep(sh, t, id, at, sh', pc')
    case Deq(x, at) => DequeueStep(sh, t, x, at, sh', pc')
    case Purge(at) => PurgeStep(sh, t, at, sh', pc')
  }

  ghost predicate Moves(s: State, t: nat, s': State)
  {
    && t < |s.pcs| == |s'.pcs| && s'.pcs == s.pcs[t := s'.pcs[t]]
    && GoStep(s.sh, t, s.pcs[t], s'.sh, s'.pcs[t])
  }

  /** No Purge overlaps a Dequeue. */
  ghost predicate Apart(s: State)
  {
    (exists t :: 0 <= t < |s.pcs| && s.pcs[t].Purge?) ==> forall u :: 0 <= u < |s.pcs| ==> !s.pcs[u].Deq?
  }

  ghost predicate Next(s: State, s': State)
  {
    && ((exists t: nat :: Moves(s, t, s')) || s' == s.(pcs := s.pcs + [Idle]))
    && Apart(s')
  }

  // ---------------------------------------------------------------- the set is the stored ids

  ghost predicate Listed(sh: Shared)
  {
    && 0 !in sh.onceIds && sh.own.Keys == sh.ids && sh.ids <= sh.onceIds && |sh.locks| == SHARDS
    && (sh.ids != {} ==> sh.made && sh.idsOn) && (sh.idsOn ==> sh.made)
  }

  ghost predicate StoreOk(sh: Shared)
  {
    && (forall i :: 0 <= i < |sh.store| && sh.store[i] in sh.onceIds ==>
          sh.store[i] in sh.own && sh.own[sh.store[i]].Stored?)
    && (forall i, j :: 0 <= i < j < |sh.store| && sh.store[i] in sh.onceIds ==> sh.store[i] != sh.store[j])
    && (forall id :: id in sh.own && sh.own[id].Stored? ==> id in sh.store)
  }

  ghost predicate Guarded(sh: Shared)
  {
    |sh.locks| == SHARDS && forall id :: id in sh.own && (sh.own[id].Adding? || sh.own[id].Purged?) ==>
      sh.locks[Shard(id)] == HeldBy(sh.own[id].who)
  }

  ghost predicate Global(sh: Shared)
  {
    Listed(sh) && StoreOk(sh) && Guarded(sh)
  }

  predicate Owned(sh: Shared, id: nat, o: Owner)
  {
    id in sh.own && sh.own[id] == o
  }

  predicate HasLock(sh: Shared, t: nat, k: nat)
  {
    k < |sh.locks| && sh.locks[k] == HeldBy(t)
  }

  /** The call is between the two effects this owner stands for. */
  predicate Explains(pc: Pc, id: nat, o: Owner)
  {
    match o
    case Stored => true
    case Adding(_) => pc.Once? && pc.id == id && (pc.once.Append? || pc.once.Undo?)
    case Taken(_) => pc.Deq? && pc.x == id
    case Purged(_) => pc.Purge? && pc.purge.Reset? && pc.purge.k <= Shard(id)
  }

  ghost predicate Knows(sh: Shared, t: nat, pc: Pc)
  {
    match pc
    case Idle => true
    case Once(id, at) =>
      && id in sh.onceIds && (at.MakeSet? || sh.made) && (at.MakeSet? || at.SetOn? || sh.idsOn)
      && (at.Add? || at.Append? || at.Undo? || at.Unlock? ==> HasLock(sh, t, Shard(id)))
      && (at.Append? || at.Undo? ==> Owned(sh, id, Adding(t)))
    case Deq(x, at) =>
      && (x in sh.onceIds ==> Owned(sh, x, Taken(t)))
      && (!at.ReadOn? ==> sh.made && x != 0) && (at.Remove? ==> HasLock(sh, t, Shard(x)))
    case Purge(LockAll(k)) => sh.made && k <= SHARDS && forall j :: 0 <= j < k ==> HasLock(sh, t, j)
    case Purge(TakeAll) => sh.made && forall j :: 0 <= j < SHARDS ==> HasLock(sh, t, j)
    case Purge(Reset(k)) =>
      && (forall j :: k <= j < SHARDS ==> HasLock(sh, t, j))
      && (forall id :: id in sh.own && k <= Shard(id) ==> sh.own[id] == Purged(t))
    case Purge(MakeToPurge) => true
  }

  predicate By(o: Owner, t: nat)
  {
    !o.Stored? && o.who == t
  }

  ghost predicate Local(sh: Shared, t: nat, pc: Pc)
  {
    Knows(sh, t, pc) && forall id :: id in sh.own && By(sh.own[id], t) ==> Explains(pc, id, sh.own[id])
  }

  // ---------------------------------------------------------------- what one goroutine does to the others

  ghost predicate Rely(sh: Shared, t: nat, sh': Shared)
  {
    && sh'.onceIds == sh.onceIds && (sh.made ==> sh'.made) && (sh.idsOn ==> sh'.idsOn)
    && |sh'.locks| == |sh.locks| == SHARDS
    && (forall k :: 0 <= k < SHARDS && sh'.locks[k] != sh.locks[k] ==>
          (sh.locks[k].Free? || sh.locks[k] == HeldBy(t)) && (sh'.locks[k].Free? || sh'.locks[k] == HeldBy(t)))
    && (forall id :: id in sh.own && !sh.own[id].Stored? && sh.own[id].who != t ==>
          id in sh'.own && sh'.own[id] == sh.own[id])
    && (forall id :: id in sh'.own && !sh'.own[id].Stored? && sh'.own[id].who != t ==>
          id in sh.own && sh'.own[id] == sh.own[id])
    && (forall id :: id in sh'.own && id !in sh.own ==> HasLock(sh, t, Shard(id)))
  }

  lemma OtherKeeps(sh: Shared, t: nat, sh': Shared, u: nat, pc: Pc)
    requires Rely(sh, t, sh') && u != t && Local(sh, u, pc)
    ensures Local(sh', u, pc)
  {
    forall k | 0 <= k < SHARDS && HasLock(sh, u, k) ensures HasLock(sh', u, k) {
    }
    if pc.Purge? && pc.purge.Reset? {
      forall id | id in sh'.own && pc.purge.k <= Shard(id) ensures sh'.own[id] == Purged(u) {
        assert HasLock(sh, u, Shard(id));
        assert id in sh.own;
      }
    }
  }

  // ---------------------------------------------------------------- the mover

  lemma BeginKeeps(sh: Shared, t: nat, sh': Shared, pc': Pc)
    requires Global(sh) && Local(sh, t, Idle) && Begins(sh, t, sh', pc')
    ensures Global(sh') && Rely(sh, t, sh') && Local(sh', t, pc')
  {
    if |sh'.store| < |sh.store| {
      TakesFront(sh, t, sh', pc');
    } else if |sh'.store| > |sh.store| {
      assert sh.store <= sh'.store;
    }
  }

  lemma TakesFront(sh: Shared, t: nat, sh': Shared, pc': Pc)
    requires Global(sh) && Local(sh, t, Idle) && Begins(sh, t, sh', pc') && |sh'.store| < |sh.store|
    ensures Global(sh') && Rely(sh, t, sh') && Local(sh', t, pc')
  {
    assert forall i :: 0 <= i < |sh'.store| ==> sh'.store[i] == sh.store[i + 1];
    forall id | id in sh'.own && sh'.own[id].Stored? ensures id in sh'.store {
      assert id in sh.store && sh.store == [sh.store[0]] + sh'.store;
    }
  }

  lemma OnceKeeps(sh: Shared, t: nat, id: nat, at: OnceAt, sh': Shared, pc': Pc)
    requires Global(sh) && Local(sh, t, Once(id, at)) && OnceStep(sh, t, id, at, sh', pc')
    ensures Global(sh') && Rely(sh, t, sh') && Local(sh', t, pc')
  {
    if |sh'.store| > |sh.store| {
      assert sh'.store[|sh.store|] == id;
      forall i | 0 <= i < |sh.store| ensures sh.store[i] != id {
      }
      assert forall d :: d in sh'.store <==> d in sh.store || d == id;
    }
  }

  lemma DequeueKeeps(sh: Shared, t: nat, x: nat, at: DequeueAt, sh': Shared, pc': Pc)
    requires Global(sh) && Local(sh, t, Deq(x, at)) && DequeueStep(sh, t, x, at, sh', pc')
    ensures Global(sh') && Rely(sh, t, sh') && Local(sh', t, pc')
  {
  }

  /** Only what a Dequeue took could still be in the set when a Purge resets it. */
  ghost predicate NoneTaken(sh: Shared)
  {
    forall id :: id in sh.own ==> !sh.own[id].Taken?
  }

  lemma LockAllKeeps(sh: Shared, t: nat, at: PurgeAt, sh': Shared, pc': Pc)
    requires Global(sh) && Local(sh, t, Purge(at)) && PurgeStep(sh, t, at, sh', pc') && (at.MakeToPurge? || at.LockAll?)
    ensures Global(sh') && Rely(sh, t, sh') && Local(sh', t, pc')
  {
    if at.LockAll? {
      forall j | 0 <= j < at.k ensures HasLock(sh', t, j) {
        assert HasLock(sh, t, j);
      }
    }
  }

  /** With every shard locked, no EnqueueOnce and no other Purge has an id in its hands. */
  lemma TakeAllKeeps(sh: Shared, t: nat, sh': Shared, pc': Pc)
    requires Global(sh) && Local(sh, t, Purge(TakeAll)) && PurgeStep(sh, t, TakeAll, sh', pc') && NoneTaken(sh)
    ensures Global(sh') && Rely(sh, t, sh') && Local(sh', t, pc')
  {
    forall id | id in sh.own ensures sh'.own[id] == Purged(t) {
      assert HasLock(sh, t, Shard(id));
      assert By(sh.own[id], t) ==> Explains(Purge(TakeAll), id, sh.own[id]);
    }
    forall id | id in sh'.own ensures HasLock(sh', t, Shard(id)) {
      assert HasLock(sh, t, Shard(id));
    }
    forall j | 0 <= j < SHARDS ensures HasLock(sh', t, j) {
      assert HasLock(sh, t, j);
    }
  }

  lemma ResetKeeps(sh: Shared, t: nat, k: nat, sh': Shared, pc': Pc)
    requires Global(sh) && Local(sh, t, Purge(Reset(k))) && PurgeStep(sh, t, Reset(k), sh', pc')
    ensures Global(sh') && Rely(sh, t, sh') && Local(sh', t, pc')
  {
    if k < SHARDS {
      assert HasLock(sh, t, k);
      forall id | id in sh'.own ensures id in sh.own && Shard(id) != k && sh'.own[id] == sh.own[id] {
      }
      forall j | k + 1 <= j < SHARDS ensures HasLock(sh', t, j) {
        assert HasLock(sh, t, j);
      }
      forall id | id in sh.own && Shard(id) == k ensures sh.own[id] == Purged(t) {
      }
    }
  }

  lemma PurgeKeeps(sh: Shared, t: nat, at: PurgeAt, sh': Shared, pc': Pc)
    requires Global(sh) && Local(sh, t, Purge(at)) && PurgeStep(sh, t, at, sh', pc') && NoneTaken(sh)
    ensures Global(sh') && Rely(sh, t, sh') && Local(sh', t, pc')
  {
    match at
    case TakeAll => TakeAllKeeps(sh, t, sh', pc');
    case Reset(k) => ResetKeeps(sh, t, k, sh', pc');
    case _ => LockAllKeeps(sh, t, at, sh', pc');
  }

  // ---------------------------------------------------------------- all goroutines together

  ghost predicate Inv(s: State)
  {
    && Global(s.sh) && Apart(s)
    && (forall t: nat :: t < |s.pcs| ==> Local(s.sh, t, s.pcs[t]))
    && (forall id :: id in s.sh.own && !s.sh.own[id].Stored? ==> s.sh.own[id].who < |s.pcs|)
  }

  lemma MoverKeeps(s: State, t: nat, s': State)
    requires Inv(s) && Moves(s, t, s')
    ensures Global(s'.sh) && Rely(s.sh, t, s'.sh) && Local(s'.sh, t, s'.pcs[t])
  {
    var pc, pc' := s.pcs[t], s'.pcs[t];
    assert Local(s.sh, t, pc);
    match pc
    case Idle => BeginKeeps(s.sh, t, s'.sh, pc');
    case Once(id, at) => OnceKeeps(s.sh, t, id, at, s'.sh, pc');
    case Deq(x, at) => DequeueKeeps(s.sh, t, x, at, s'.sh, pc');
    case Purge(at) =>
      forall id | id in s.sh.own ensures !s.sh.own[id].Taken? {
        if s.sh.own[id].Taken? {
          var u := s.sh.own[id].who;
          assert Local(s.sh, u, s.pcs[u]);
          assert By(s.sh.own[id], u);
        }
      }
      PurgeKeeps(s.sh, t, at, s'.sh, pc');
  }

  lemma NextKeeps(s: State, s': State)
    requires Inv(s) && Next(s, s')
    ensures Inv(s')
  {
    if t: nat :| Moves(s, t, s') {
      MoverKeeps(s, t, s');
      forall u: nat | u < |s'.pcs| ensures Local(s'.sh, u, s'.pcs[u]) {
        if u != t { OtherKeeps(s.sh, t, s'.sh, u, s.pcs[u]); }
      }
    } else {
      forall u: nat | u < |s'.pcs| ensures Local(s'.sh, u, s'.pcs[u]) {
        if u < |s.pcs| { assert Local(s.sh, u, s.pcs[u]); }
      }
    }
  }

  lemma RunKeeps(run: seq<State>)
    requires IsRun(Init, Next, run)
    ensures forall i :: 0 <= i < |run| ==> Inv(run[i])
  {
    forall s, s' | Inv(s) && Next(s, s') ensures Inv(s') {
      NextKeeps(s, s');
    }
    assert Inductive(Init, Next, Inv);
    Invariance(Init, Next, Inv, run);
  }

  // ---------------------------------------------------------------- theorems

  /** In every run, no two stored EnqueueOnce items share an id, and the set has each one's id. */
  lemma StoredIdsDiffer(run: seq<State>, i: nat, a: nat, b: nat)
    requires IsRun(Init, Next, run) && i < |run| && a < b < |run[i].sh.store| && run[i].sh.store[a] in run[i].sh.onceIds
    ensures run[i].sh.store[a] != run[i].sh.store[b] && run[i].sh.store[a] in run[i].sh.ids
  {
    RunKeeps(run);
  }

  /** In every run, an id in the set is that of a stored EnqueueOnce item, or of an EnqueueOnce between
      its add and its Append or undo, of a Dequeue that has taken the item, or of a Purge that has
      and still holds the shard. */
  lemma SetIsStoredOrInFlight(run: seq<State>, i: nat, id: nat)
    requires IsRun(Init, Next, run) && i < |run| && id in run[i].sh.ids
    ensures id in run[i].sh.onceIds
    ensures || id in run[i].sh.store
            || exists t :: 0 <= t < |run[i].pcs| && InFlight(run[i].pcs[t], id)
  {
    RunKeeps(run);
    var s := run[i];
    assert id in s.sh.own;
    if !s.sh.own[id].Stored? {
      var t := s.sh.own[id].who;
      assert Local(s.sh, t, s.pcs[t]);
      assert By(s.sh.own[id], t);
      assert InFlight(s.pcs[t], id);
    }
  }

  predicate InFlight(pc: Pc, id: nat)
  {
    || (pc.Once? && pc.id == id && (pc.once.Append? || pc.once.Undo?))
    || (pc.Deq? && pc.x == id)
    || (pc.Purge? && pc.purge.Reset? && pc.purge.k <= Shard(id))
  }

  /** In every run, whenever no call is under way, the set is exactly the ids of the stored
      EnqueueOnce items: no refused append, dequeue or purge has left an id behind. */
  lemma QuietSetIsExact(run: seq<State>, i: nat)
    requires IsRun(Init, Next, run) && i < |run| && forall t :: 0 <= t < |run[i].pcs| ==> run[i].pcs[t].Idle?
    ensures forall id :: id in run[i].sh.ids <==> id in run[i].sh.store && id in run[i].sh.onceIds
  {
    RunKeeps(run);
    var s := run[i];
    forall id ensures id in s.sh.ids <==> id in s.sh.store && id in s.sh.onceIds {
      if id in s.sh.ids {
        SetIsStoredOrInFlight(run, i, id);
      }
    }
  }

  /** In every run, a Dequeue that has taken an EnqueueOnce item finds the flag and the set there, so
      it frees the id. */
  lemma TakenIdIsFreed(run: seq<State>, i: nat, t: nat)
    requires IsRun(Init, Next, run) && i < |run| && t < |run[i].pcs|
    requires run[i].pcs[t].Deq? && run[i].pcs[t].x in run[i].sh.onceIds
    ensures run[i].sh.idsOn && run[i].sh.made && run[i].pcs[t].x in run[i].sh.ids && run[i].pcs[t].x !in run[i].sh.store
  {
    RunKeeps(run);
    assert Local(run[i].sh, t, run[i].pcs[t]);
  }

  /** In every run, a Dequeue or Purge that is about to lock a shard finds the set made. */
  lemma SetIsMade(run: seq<State>, i: nat, t: nat)
    requires IsRun(Init, Next, run) && i < |run| && t < |run[i].pcs|
    ensures run[i].pcs[t].Deq? && !run[i].pcs[t].deq.ReadOn? ==> run[i].sh.made
    ensures run[i].pcs[t].Once? && !run[i].pcs[t].once.MakeSet? ==> run[i].sh.made
    ensures run[i].pcs[t].Purge? && run[i].pcs[t].purge.LockAll? ==> run[i].sh.made
    ensures |run[i].sh.locks| == SHARDS
  {
    RunKeeps(run);
    assert Local(run[i].sh, t, run[i].pcs[t]);
  }

  // ---------------------------------------------------------------- what EnqueueOnce answers

  /** Goroutine t is in the EnqueueOnce of id. */
  predicate InOnce(run: seq<State>, k: nat, t: nat, id: nat)
  {
    k < |run| && t < |run[k].pcs| && run[k].pcs[t].Once? && run[k].pcs[t].id == id
  }

  /** t's step at h stores the item at the end of the queue. */
  predicate StoresAt(run: seq<State>, h: nat, t: nat, id: nat)
  {
    && h + 1 < |run| && t < |run[h].pcs| && t < |run[h + 1].pcs| && run[h].pcs[t] != run[h + 1].pcs[t]
    && run[h + 1].sh.store == run[h].sh.store + [id]
  }

  /** At h the set has the id, or the queue, full or closed, refuses t's append. */
  predicate TurnsDown(run: seq<State>, h: nat, t: nat, id: nat)
  {
    && h < |run|
    && (id in run[h].sh.ids
        || (h + 1 < |run| && InOnce(run, h, t, id) && run[h].pcs[t].once.Append? && InOnce(run, h + 1, t, id)
            && run[h + 1].pcs[t] != run[h].pcs[t] && run[h + 1].sh.store == run[h].sh.store))
  }

  ghost predicate HasStored(run: seq<State>, i: nat, k: nat, t: nat, id: nat)
  {
    exists h :: i <= h < k && StoresAt(run, h, t, id)
  }

  ghost predicate TurnedDown(run: seq<State>, i: nat, k: nat, t: nat, id: nat)
  {
    exists h :: i <= h < k && TurnsDown(run, h, t, id)
  }

  /** What the call has done since i, at its program point. */
  ghost predicate OnceKnows(run: seq<State>, i: nat, k: nat, t: nat, id: nat)
  {
    && i <= k && InOnce(run, k, t, id)
    && match run[k].pcs[t].once
       case Undo => !HasStored(run, i, k, t, id) && TurnedDown(run, i, k, t, id)
       case Unlock(ok) => HasStored(run, i, k, t, id) == ok && (!ok ==> TurnedDown(run, i, k, t, id))
       case _ => !HasStored(run, i, k, t, id)
  }

  lemma OnceEffect(sh: Shared, t: nat, id: nat, at: OnceAt, sh': Shared, pc': Pc)
    requires OnceStep(sh, t, id, at, sh', pc')
    ensures sh'.store == sh.store || sh'.store == sh.store + [id]
    ensures sh'.store != sh.store <==> at.Append? && pc' == Once(id, Unlock(true))
    ensures pc'.Once? && pc'.once == Unlock(true) ==> at.Append?
    ensures pc'.Once? && pc'.once == Unlock(false) ==> at.Undo? || (at.Add? && id in sh.ids)
    ensures pc'.Once? && pc'.once.Undo? ==> at.Append?
    ensures at.Append? ==> pc' == Once(id, Unlock(true)) || pc' == Once(id, Undo)
    ensures at.Undo? ==> pc' == Once(id, Unlock(false))
    ensures at.Unlock? ==> pc'.Idle?
  {
  }

  lemma OnceNext(run: seq<State>, i: nat, k: nat, t: nat, id: nat)
    requires IsRun(Init, Next, run) && k + 1 < |run| && OnceKnows(run, i, k, t, id) && InOnce(run, k + 1, t, id)
    ensures OnceKnows(run, i, k + 1, t, id)
  {
    NextAt(Init, Next, run, k);
    var s, s' := run[k], run[k + 1];
    if s'.pcs[t] != s.pcs[t] {
      assert Moves(s, t, s');
      OnceEffect(s.sh, t, id, s.pcs[t].once, s'.sh, s'.pcs[t]);
      assert StoresAt(run, k, t, id) <==> s'.sh.store != s.sh.store;
      assert TurnsDown(run, k, t, id) <==> id in s.sh.ids || (s.pcs[t].once.Append? && s'.sh.store == s.sh.store);
    } else {
      assert !StoresAt(run, k, t, id);
    }
    StoredMore(run, i, k, t, id);
  }

  lemma StoredMore(run: seq<State>, i: nat, k: nat, t: nat, id: nat)
    requires i <= k
    ensures HasStored(run, i, k + 1, t, id) <==> HasStored(run, i, k, t, id) || StoresAt(run, k, t, id)
    ensures TurnedDown(run, i, k + 1, t, id) <==> TurnedDown(run, i, k, t, id) || TurnsDown(run, k, t, id)
  {
  }

  /** In every run, EnqueueOnce reports true exactly when it has stored its item, and false only when the id
      was in the set at some moment of the call or the queue refused the item. */
  lemma OnceAnswers(run: seq<State>, i: nat, j: nat, t: nat, id: nat)
    requires IsRun(Init, Next, run) && i <= j < |run|
    requires InOnce(run, i, t, id) && run[i].pcs[t].once.MakeSet?
    requires forall k :: i <= k <= j ==> InOnce(run, k, t, id)
    requires InOnce(run, j, t, id) && run[j].pcs[t].once.Unlock?
    ensures run[j].pcs[t].once.ok <==> HasStored(run, i, j, t, id)
    ensures !run[j].pcs[t].once.ok ==> TurnedDown(run, i, j, t, id)
  {
    var p := (k: nat) => OnceKnows(run, i, k, t, id);
    forall k: nat, l: nat | i <= k < j && l == k + 1 && p(k) ensures p(l) {
      assert InOnce(run, l, t, id);
      OnceNext(run, i, k, t, id);
    }
    assert !HasStored(run, i, i, t, id);
    Along(p, i, j);
  }

  ghost function OnlyBy(t: nat): (State, State) -> bool
  {
    (s, s') => Moves(s, t, s')
  }

  lemma Goes(s0: State, s: State, t: nat, sh': Shared, pc': Pc) returns (s': State)
    requires t < |s.pcs| && Reachable(From(s0), OnlyBy(t), s) && GoStep(s.sh, t, s.pcs[t], sh', pc')
    ensures s' == State(sh', s.pcs[t := pc']) && Reachable(From(s0), OnlyBy(t), s')
  {
    s' := State(sh', s.pcs[t := pc']);
    assert Moves(s, t, s') && OnlyBy(t)(s, s');
    ReachableNext(From(s0), OnlyBy(t), s, s');
  }

  /** From any state, an EnqueueOnce whose shard is free and that goes on alone can store its item if the id
      is not in the set, and is turned down if it is. */
  lemma OnceAlone(s: State, t: nat)
    requires t < |s.pcs| && s.pcs[t].Once? && s.pcs[t].once.LockShard? && |s.sh.locks| == SHARDS
    requires s.sh.locks[Shard(s.pcs[t].id)].Free?
    ensures exists s' ::
      && Reachable(From(s), OnlyBy(t), s') && t < |s'.pcs| && s'.pcs[t].Idle?
      && s'.sh.store == s.sh.store + (if s.pcs[t].id in s.sh.ids then [] else [s.pcs[t].id])
      && s'.sh.ids == s.sh.ids + {s.pcs[t].id}
  {
    var id, sh := s.pcs[t].id, s.sh;
    ReachableInit(From(s), OnlyBy(t), s);
    var s1 := Goes(s, s, t, sh.(locks := sh.locks[Shard(id) := HeldBy(t)]), Once(id, Add));
    if id in sh.ids {
      var s2 := Goes(s, s1, t, s1.sh, Once(id, Unlock(false)));
      var s3 := Goes(s, s2, t, s2.sh.(locks := s2.sh.locks[Shard(id) := Free]), Idle);
      assert s3.sh.ids == sh.ids + {id};
    } else {
      var s2 := Goes(s, s1, t, s1.sh.(ids := sh.ids + {id}, own := sh.own[id := Adding(t)]), Once(id, Append));
      var sh3 := s2.sh.(store := sh.store + [id], own := s2.sh.own[id := Stored]);
      var s3 := Goes(s, s2, t, sh3, Once(id, Unlock(true)));
      var s4 := Goes(s, s3, t, s3.sh.(locks := s3.sh.locks[Shard(id) := Free]), Idle);
    }
  }

  /** In every run, a Dequeue that took an EnqueueOnce item, whose shard is free, and that goes on alone
      frees the id. */
  lemma DequeueAloneFrees(run: seq<State>, i: nat, t: nat)
    requires IsRun(Init, Next, run) && i < |run| && t < |run[i].pcs|
    requires run[i].pcs[t].Deq? && run[i].pcs[t].deq.ReadOn? && run[i].pcs[t].x in run[i].sh.onceIds
    requires |run[i].sh.locks| == SHARDS && run[i].sh.locks[Shard(run[i].pcs[t].x)].Free?
    ensures exists s' ::
      && Reachable(From(run[i]), OnlyBy(t), s') && t < |s'.pcs| && s'.pcs[t].Idle?
      && s'.sh.ids == run[i].sh.ids - {run[i].pcs[t].x}
  {
    TakenIdIsFreed(run, i, t);
    RunKeeps(run);
    var s, x, sh := run[i], run[i].pcs[t].x, run[i].sh;
    assert Listed(sh) && x != 0;
    ReachableInit(From(s), OnlyBy(t), s);
    var s1 := Goes(s, s, t, sh, Deq(x, LockId));
    var s2 := Goes(s, s1, t, sh.(locks := sh.locks[Shard(x) := HeldBy(t)]), Deq(x, Remove));
    var s3 := Goes(s, s2, t, s2.sh.(ids := sh.ids - {x}, own := sh.own - {x}, locks := s2.sh.locks[Shard(x) := Free]),
                   Idle);
  }

  // ---------------------------------------------------------------- idMap

  const ID_SHARD_SHRINK_PEAK := 16

  /** idMap: m is nil until the first add, and again once a burst drains. */
  class IdMap {
    var made: bool
    var m: set<nat>
    var peak: nat

    /** peak bounds the size since m was made, and a drained map that is kept was never large. */
    ghost predicate Valid()
      reads this
    {
      |m| <= peak && (!made ==> m == {} && peak == 0) && (m == {} ==> peak <= ID_SHARD_SHRINK_PEAK)
    }

    constructor ()
      ensures Valid() && m == {} && !made
    {
      made, m, peak := false, {}, 0;
    }

    /** add reports whether id was new, by the size alone. */
    method AddId(id: nat) returns (isNew: bool)
      requires Valid()
      modifies this
      ensures Valid() && m == old(m) + {id} && (isNew <==> id !in old(m))
    {
      if !made {
        made := true;
      }
      var n := |m|;
      m := m + {id};
      SizeTells(old(m), id);
      if |m| == n {
        return false;
      }
      peak := if peak >= n + 1 then peak else n + 1;
      return true;
    }

    method RemoveId(id: nat)
      requires Valid()
      modifies this
      ensures Valid() && m == old(m) - {id}
    {
      m := m - {id};
      SizeTells(old(m) - {id}, id);
      if |m| == 0 && peak > ID_SHARD_SHRINK_PEAK {
        made, m, peak := false, {}, 0;
      }
    }
  }

  lemma SizeTells(m: set<nat>, id: nat)
    ensures |m + {id}| == if id in m then |m| else |m| + 1
    ensures |m - {id}| <= |m|
  {
    if id in m {
      assert m + {id} == m;
      assert m == (m - {id}) + {id};
    } else {
      assert m - {id} == m;
    }
  }
}
