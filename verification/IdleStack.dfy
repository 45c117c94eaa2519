/** The stack of idle workers (internal/pool/pool.go): lock-free pushes racing one remover that
    holds popMx, for PopBack or for a Prune that splices nodes out of the middle. One step is one
    atomic operation. stack (bottom first), where, a Prune's record and the depths d are history: no
    step computes a real field from them, and the guards that read them always hold (NothingIsNil). */
module IdleStack {
  import opened Runs

  datatype Ref = Nil | At(id: nat)
  datatype Lock = Free | HeldBy(owner: nat)

  /** Where a node is: with nobody in particular (a worker owns it), on the stack, or in the hands of
      a call on the pool. */
  datatype Place = Out | OnStack | With(who: nat)

  datatype Shared = Shared(head: Ref, next: seq<Ref>, len: int, mx: Lock, stack: seq<nat>, where: seq<Place>)

  datatype PushAt = PushCount | PushLoad | PushStore(h: Ref) | PushCas(h: Ref)
  datatype PopAt =
    | PopLock
    | PopLoad
    | PopNext(h: nat, d: nat)
    | PopCas(h: nat, d: nat, nx: Ref)
    | PopCount(h: nat)
    | Popped(got: Ref)


  /** The snapshot a Prune works on, what drop said of the nodes above the one it is at, and what
      became of those, all bottom first. */
  datatype Record = Record(keep: int, snapshot: seq<nat>, seen: seq<Seen>, kept: seq<nat>, dropped: seq<nat>)
  datatype Seen = Seen(node: nat, picked: bool)

  datatype PruneAt =
    | PruneLock
    | PruneTop
    | CountNodes(top: Ref, cur: Ref, n: nat)
    | Visit(n: nat, cur: Ref, prev: Ref)
    | Ask(n: nat, e: nat, nx: Ref, prev: Ref)
    | TryHead(n: nat, e: nat, nx: Ref)
    | FindHead(n: nat, e: nat, nx: Ref)
    | FindNext(n: nat, e: nat, nx: Ref, p: nat, d: nat)
    | Splice(n: nat, e: nat, nx: Ref, pred: nat)
    | Uncount(n: nat, e: nat, nx: Ref, prev: Ref)
    | Pruned(n: nat)

  datatype Pc =
    | Idle
    | Push(e: nat, push: PushAt)
    | Pop(pop: PopAt)
    | Prune(rec: Record, prune: PruneAt)

  datatype State = State(sh: Shared, pcs: seq<Pc>)

  ghost predicate Init(s: State)
  {
    s == State(Shared(Nil, [], 0, Free, [], []), [])
  }

  // ---------------------------------------------------------------- steps

  predicate PushStep(sh: Shared, t: nat, e: nat, at: PushAt, sh': Shared, pc': Pc)
  {
    && e < |sh.next| && e < |sh.where|
    && match at
       case PushCount => sh' == sh.(len := sh.len + 1) && pc' == Push(e, PushLoad)
       case PushLoad => sh' == sh && pc' == Push(e, PushStore(sh.head))
       case PushStore(h) => sh' == sh.(next := sh.next[e := h]) && pc' == Push(e, PushCas(h))
       case PushCas(h) =>
         if sh.head == h then
           && sh' == sh.(head := At(e), stack := sh.stack + [e], where := sh.where[e := OnStack])
           && pc' == Idle
         else sh' == sh && pc' == Push(e, PushLoad)
  }

  /** h left the stack and is in the hands of t. */
  function Taken(sh: Shared, h: nat, t: nat, head: Ref, stack: seq<nat>): Shared
    requires h < |sh.where|
  {
    sh.(head := head, stack := stack, where := sh.where[h := With(t)])
  }

  predicate PopStep(sh: Shared, t: nat, at: PopAt, sh': Shared, pc': Pc)
  {
    match at
    case PopLock => sh.mx.Free? && sh' == sh.(mx := HeldBy(t)) && pc' == Pop(PopLoad)
    case PopLoad =>
      if sh.head.Nil? then sh' == sh.(mx := Free) && pc' == Pop(Popped(Nil))
      else sh' == sh && sh.stack != [] && pc' == Pop(PopNext(sh.head.id, |sh.stack| - 1))
    case PopNext(h, d) => h < |sh.next| && sh' == sh && pc' == Pop(PopCas(h, d, sh.next[h]))
    case PopCas(h, d, nx) =>
      if sh.head == At(h) then
        && h < |sh.where| && sh.stack != []
        && sh' == Taken(sh, h, t, nx, Cut(sh.stack, |sh.stack| - 1)) && pc' == Pop(PopCount(h))
      else sh' == sh && pc' == Pop(PopLoad)
    case PopCount(h) =>
      && h < |sh.where|
      && sh' == sh.(len := sh.len - 1, mx := Free, where := sh.where[h := Out]) && pc' == Pop(Popped(At(h)))
    case Popped(_) => false
  }

  /** The stack without the node at index i. */
  function Cut(stack: seq<nat>, i: int): seq<nat>
  {
    if 0 <= i < |stack| then
      seq(|stack| - 1, k requires 0 <= k < |stack| - 1 => if k < i then stack[k] else stack[k + 1])
    else stack
  }

  /** The index of the node the Prune is at, -1 past the bottom. */
  function Idx(rec: Record): int
  {
    |rec.snapshot| - 1 - |rec.seen|
  }

  function Released(where: seq<Place>, nodes: seq<nat>): seq<Place>
  {
    seq(|where|, (x: nat) requires x < |where| => if x in nodes then Out else where[x])
  }

  predicate PruneStep(sh: Shared, t: nat, rec: Record, at: PruneAt, sh': Shared, pc': Pc)
  {
    && pc'.Prune?
    && var rec', at' := pc'.rec, pc'.prune;
       match at
       case PruneLock => sh.mx.Free? && sh' == sh.(mx := HeldBy(t)) && rec' == rec && at' == PruneTop
       case PruneTop => sh' == sh && rec' == rec.(snapshot := sh.stack) && at' == CountNodes(sh.head, sh.head, 0)
       case CountNodes(top, e, n) =>
         && sh' == sh && rec' == rec
         && if e.Nil? then at' == Visit(n, top, Nil)
            else e.id < |sh.next| && at' == CountNodes(top, sh.next[e.id], n + 1)
       case Visit(n, e, prev) =>
         && rec' == rec
         && if e.Nil? || |rec.seen| >= n - rec.keep then
              sh' == sh.(mx := Free, where := Released(sh.where, rec.dropped)) && at' == Pruned(n)
            else e.id < |sh.next| && sh' == sh && at' == Ask(n, e.id, sh.next[e.id], prev)
       case Ask(n, e, nx, prev) =>
         && sh' == sh
         && (|| (rec' == rec.(seen := [Seen(e, false)] + rec.seen, kept := [e] + rec.kept)
                 && at' == Visit(n, nx, At(e)))
             || (rec' == rec && at' == (if prev.Nil? then TryHead(n, e, nx) else Splice(n, e, nx, prev.id))))
       case TryHead(n, e, nx) =>
         && rec' == rec
         && if sh.head == At(e) then
              e < |sh.where| && sh' == Taken(sh, e, t, nx, Cut(sh.stack, Idx(rec))) && at' == Uncount(n, e, nx, Nil)
            else sh' == sh && at' == FindHead(n, e, nx)
       case FindHead(n, e, nx) =>
         && sh' == sh && rec' == rec && sh.head.At? && sh.stack != []
         && at' == FindNext(n, e, nx, sh.head.id, |sh.stack| - 1)
       case FindNext(n, e, nx, p, d) =>
         && sh' == sh && rec' == rec && p < |sh.next|
         && if sh.next[p] == At(e) then at' == Splice(n, e, nx, p)
            else sh.next[p].At? && d > 0 && at' == FindNext(n, e, nx, sh.next[p].id, d - 1)
       case Splice(n, e, nx, prev) =>
         && rec' == rec && e < |sh.where| && prev < |sh.next|
         && sh' == Taken(sh, e, t, sh.head, Cut(sh.stack, Idx(rec))).(next := sh.next[prev := nx])
         && at' == Uncount(n, e, nx, At(prev))
       case Uncount(n, e, nx, prev) =>
         && sh' == sh.(len := sh.len - 1)
         && rec' == rec.(seen := [Seen(e, true)] + rec.seen, dropped := [e] + rec.dropped) && at' == Visit(n, nx, prev)
       case Pruned(_) => false
  }

  predicate GoStep(sh: Shared, t: nat, pc: Pc, sh': Shared, pc': Pc)
  {
    match pc
    case Idle => false
    case Push(e, at) => PushStep(sh, t, e, at, sh', pc')
    case Pop(at) => PopStep(sh, t, at, sh', pc')
    case Prune(rec, at) => PruneStep(sh, t, rec, at, sh', pc')
  }

  predicate Returned(pc: Pc)
  {
    pc.Idle? || (pc.Pop? && pc.pop.Popped?) || (pc.Prune? && pc.prune.Pruned?)
  }

  /** A call begins. A worker pushes a node that is nowhere else. */
  predicate Begins(sh: Shared, t: nat, sh': Shared, pc': Pc)
  {
    || (pc'.Push? && pc'.push.PushCount? && pc'.e < |sh.where| && sh.where[pc'.e].Out?
        && sh' == sh.(where := sh.where[pc'.e := With(t)]))
    || (pc' == Pop(PopLock) && sh' == sh)
    || (pc'.Prune? && pc' == Prune(Record(pc'.rec.keep, [], [], [], []), PruneLock) && sh' == sh)
  }

  ghost predicate Moves(s: State, t: nat, s': State)
  {
    && t < |s.pcs| == |s'.pcs| && s'.pcs == s.pcs[t := s'.pcs[t]]
    && (|| GoStep(s.sh, t, s.pcs[t], s'.sh, s'.pcs[t])
        || (Returned(s.pcs[t]) && Begins(s.sh, t, s'.sh, s'.pcs[t])))
  }

  /** A goroutine appears, or a node is made. */
  ghost predicate Next(s: State, s': State)
  {
    || (exists t: nat :: Moves(s, t, s'))
    || s' == s.(pcs := s.pcs + [Idle])
    || s' == s.(sh := s.sh.(next := s.sh.next + [Nil], where := s.sh.where + [Out]))
  }

  // ---------------------------------------------------------------- the chain is the stack

  function Link(stack: seq<nat>, i: int): Ref
  {
    if 0 <= i < |stack| then At(stack[i]) else Nil
  }

  /** The node at index i is marked so and links to the one below it. */
  predicate Linked(sh: Shared, i: nat)
    requires i < |sh.stack|
  {
    && sh.stack[i] < |sh.next| == |sh.where|
    && sh.where[sh.stack[i]].OnStack? && sh.next[sh.stack[i]] == Link(sh.stack, i - 1)
  }

  ghost predicate Chained(sh: Shared)
  {
    && sh.head == Link(sh.stack, |sh.stack| - 1) && |sh.next| == |sh.where|
    && forall i: nat :: i < |sh.stack| ==> Linked(sh, i)
  }

  ghost predicate Distinct(stack: seq<nat>)
  {
    forall i, j :: 0 <= i < j < |stack| ==> stack[i] != stack[j]
  }

  ghost predicate Listed(sh: Shared)
  {
    forall x :: 0 <= x < |sh.where| && sh.where[x].OnStack? ==> x in sh.stack
  }

  ghost predicate Global(sh: Shared)
  {
    Chained(sh) && Distinct(sh.stack) && Listed(sh)
  }

  // ---------------------------------------------------------------- what a goroutine knows

  /** The nodes drop answered want for, in order. */
  function Picked(seen: seq<Seen>, want: bool): seq<nat>
  {
    if seen == [] then [] else (if seen[0].picked == want then [seen[0].node] else []) + Picked(seen[1..], want)
  }

  /** The nodes seen are the top of the snapshot. */
  ghost predicate SeenTop(rec: Record)
  {
    && |rec.seen| <= |rec.snapshot|
    && forall k :: 0 <= k < |rec.seen| ==> rec.seen[k].node == rec.snapshot[Idx(rec) + 1 + k]
  }

  predicate Split(rec: Record, picked: bool)
  {
    (if picked then rec.dropped else rec.kept) == Picked(rec.seen, picked)
  }

  ghost predicate RecordOk(rec: Record)
  {
    SeenTop(rec) && forall picked {:trigger Split(rec, picked)} :: Split(rec, picked)
  }

  /** Under whatever was pushed since, the stack is what the Prune has still to see, below what it kept. */
  predicate Below(sh: Shared, rec: Record, seen: int)
  {
    && 0 <= seen <= |rec.snapshot| && seen + |rec.kept| <= |sh.stack|
    && (forall k :: 0 <= k < seen ==> sh.stack[k] == rec.snapshot[k])
    && (forall k :: 0 <= k < |rec.kept| ==> sh.stack[seen + k] == rec.kept[k])
  }

  /** prev is the node right above the one at index i. */
  predicate PrevOk(sh: Shared, rec: Record, i: int, prev: Ref)
  {
    && (prev.Nil? ==> rec.kept == [])
    && (prev.At? ==> 0 <= i + 1 < |sh.stack| && sh.stack[i + 1] == prev.id)
  }

  /** The Prune has read the node at its index and that node's link. */
  predicate AtNode(sh: Shared, rec: Record, n: nat, e: nat, nx: Ref)
  {
    && n == |rec.snapshot| && 0 <= Idx(rec) && |rec.seen| < n - rec.keep && Below(sh, rec, Idx(rec) + 1)
    && e == rec.snapshot[Idx(rec)] && nx == Link(rec.snapshot, Idx(rec) - 1)
  }

  ghost predicate PruneLocal(sh: Shared, rec: Record, at: PruneAt)
  {
    match at
    case PruneLock => rec == Record(rec.keep, [], [], [], [])
    case PruneTop => rec == Record(rec.keep, [], [], [], [])
    case CountNodes(top, e, n) =>
      && rec == Record(rec.keep, rec.snapshot, [], [], []) && rec.snapshot <= sh.stack
      && top == Link(rec.snapshot, |rec.snapshot| - 1) && n <= |rec.snapshot|
      && e == Link(rec.snapshot, |rec.snapshot| - 1 - n)
    case Visit(n, e, prev) =>
      && RecordOk(rec) && n == |rec.snapshot| && Below(sh, rec, Idx(rec) + 1) && e == Link(rec.snapshot, Idx(rec))
      && (|rec.seen| > 0 ==> |rec.seen| <= n - rec.keep)
      && PrevOk(sh, rec, Idx(rec), prev)
    case Ask(n, e, nx, prev) => RecordOk(rec) && AtNode(sh, rec, n, e, nx) && PrevOk(sh, rec, Idx(rec), prev)
    case TryHead(n, e, nx) => RecordOk(rec) && AtNode(sh, rec, n, e, nx) && rec.kept == []
    case FindHead(n, e, nx) => RecordOk(rec) && AtNode(sh, rec, n, e, nx) && rec.kept == [] && Idx(rec) + 1 < |sh.stack|
    case FindNext(n, e, nx, p, d) =>
      && RecordOk(rec) && AtNode(sh, rec, n, e, nx) && rec.kept == []
      && Idx(rec) < d < |sh.stack| && sh.stack[d] == p
    case Splice(n, e, nx, prev) => RecordOk(rec) && AtNode(sh, rec, n, e, nx) && PrevOk(sh, rec, Idx(rec), At(prev))
    case Uncount(n, e, nx, prev) =>
      && RecordOk(rec) && n == |rec.snapshot| && 0 <= Idx(rec) && |rec.seen| < n - rec.keep && Below(sh, rec, Idx(rec))
      && e == rec.snapshot[Idx(rec)] && nx == Link(rec.snapshot, Idx(rec) - 1)
      && PrevOk(sh, rec, Idx(rec) - 1, prev)
    case Pruned(n) => true
  }

  predicate PopLocal(sh: Shared, at: PopAt)
  {
    match at
    case PopNext(h, d) => d < |sh.stack| && sh.stack[d] == h
    case PopCas(h, d, nx) => d < |sh.stack| && sh.stack[d] == h && nx == Link(sh.stack, d - 1)
    case _ => true
  }

  predicate PushLocal(sh: Shared, e: nat, at: PushAt)
  {
    at.PushCas? ==> e < |sh.next| && sh.next[e] == at.h
  }

  /** The call removes nodes, under the lock. */
  predicate Removing(pc: Pc)
  {
    || (pc.Pop? && !pc.pop.PopLock? && !pc.pop.Popped?)
    || (pc.Prune? && !pc.prune.PruneLock? && !pc.prune.Pruned?)
  }

  /** The call has node x in its hands. */
  predicate Holds(pc: Pc, x: nat)
  {
    || (pc.Push? && pc.e == x)
    || (pc.Pop? && pc.pop == PopCount(x))
    || (pc.Prune? && !pc.prune.Pruned? && (x in pc.rec.dropped || (pc.prune.Uncount? && pc.prune.e == x)))
  }

  /** Exactly the nodes marked so are in the hands of t. */
  ghost predicate Hands(sh: Shared, t: nat, pc: Pc)
  {
    && (forall x :: 0 <= x < |sh.where| ==> (Holds(pc, x) <==> sh.where[x] == With(t)))
    && (forall x: nat :: Holds(pc, x) ==> x < |sh.where|)
  }

  ghost predicate Knows(sh: Shared, pc: Pc)
  {
    match pc
    case Idle => true
    case Push(e, at) => PushLocal(sh, e, at)
    case Pop(at) => PopLocal(sh, at)
    case Prune(rec, at) => PruneLocal(sh, rec, at)
  }

  ghost predicate Local(sh: Shared, t: nat, pc: Pc)
  {
    && (Removing(pc) <==> sh.mx == HeldBy(t))
    && Hands(sh, t, pc)
    && Knows(sh, pc)
  }

  // ---------------------------------------------------------------- what one goroutine does to the others

  ghost predicate Rely(sh: Shared, t: nat, sh': Shared)
  {
    && (sh'.mx == sh.mx || (sh.mx.Free? && sh'.mx == HeldBy(t)) || (sh.mx == HeldBy(t) && sh'.mx.Free?))
    && (sh.mx == HeldBy(t) || sh.stack <= sh'.stack)
    && |sh'.where| >= |sh.where| == |sh.next| && |sh'.next| == |sh'.where|
    && (forall x :: 0 <= x < |sh.where| && sh'.where[x] != sh.where[x] ==>
          (sh.where[x].With? ==> sh.where[x].who == t) && (sh'.where[x].With? ==> sh'.where[x].who == t))
    && (forall x :: 0 <= x < |sh.where| && sh'.next[x] != sh.next[x] && sh.where[x].With? ==> sh.where[x].who == t)
    && (forall x :: |sh.where| <= x < |sh'.where| ==> !sh'.where[x].With?)
  }

  lemma OtherPrune(sh: Shared, sh': Shared, rec: Record, at: PruneAt)
    requires sh.stack <= sh'.stack && PruneLocal(sh, rec, at)
    ensures PruneLocal(sh', rec, at)
  {
  }

  lemma OtherKeeps(sh: Shared, t: nat, sh': Shared, u: nat, pc: Pc)
    requires Rely(sh, t, sh') && u != t && Local(sh, u, pc)
    ensures Local(sh', u, pc)
  {
    if Removing(pc) && pc.Prune? {
      OtherPrune(sh, sh', pc.rec, pc.prune);
    }
    if pc.Push? {
      assert Holds(pc, pc.e) && sh.where[pc.e] == With(u);
    }
  }

  // ---------------------------------------------------------------- PushNode

  lemma LandKeeps(sh: Shared, t: nat, e: nat, sh': Shared)
    requires Global(sh) && e < |sh.next| && sh.where[e] == With(t) && sh.next[e] == sh.head
    requires sh' == sh.(head := At(e), stack := sh.stack + [e], where := sh.where[e := OnStack])
    ensures Global(sh')
  {
    forall i: nat | i < |sh'.stack| ensures Linked(sh', i) {
      assert i < |sh.stack| ==> Linked(sh, i);
    }
    assert sh'.stack[|sh.stack|] == e;
    forall i | 0 <= i < |sh.stack| ensures sh.stack[i] != e {
      assert Linked(sh, i);
    }
    forall x | 0 <= x < |sh'.where| && sh'.where[x].OnStack? ensures x in sh'.stack {
      assert x != e ==> x in sh.stack;
    }
  }

  lemma PushKeeps(sh: Shared, t: nat, e: nat, at: PushAt, sh': Shared, pc': Pc)
    requires Global(sh) && Local(sh, t, Push(e, at)) && PushStep(sh, t, e, at, sh', pc')
    ensures Global(sh')
  {
    assert Holds(Push(e, at), e);
    if sh'.stack != sh.stack {
      LandKeeps(sh, t, e, sh');
    } else {
      forall i: nat | i < |sh.stack| ensures Linked(sh', i) {
        assert Linked(sh, i);
      }
    }
  }

  lemma PushMoves(sh: Shared, t: nat, e: nat, at: PushAt, sh': Shared, pc': Pc)
    requires Chained(sh) && Local(sh, t, Push(e, at)) && PushStep(sh, t, e, at, sh', pc')
    ensures Rely(sh, t, sh') && Local(sh', t, pc')
  {
    assert Holds(Push(e, at), e);
  }

  // ---------------------------------------------------------------- removing

  lemma CutAt(stack: seq<nat>, i: nat, k: nat)
    requires i < |stack| && k < |stack| - 1
    ensures |Cut(stack, i)| == |stack| - 1 && Cut(stack, i)[k] == stack[if k < i then k else k + 1]
  {
  }

  /** The node at index i is unlinked: the head, or the link of the node above it, skips it. */
  predicate CutOut(sh: Shared, t: nat, i: nat, sh': Shared)
  {
    && i < |sh.stack| && sh.stack[i] < |sh.where| && (i + 1 < |sh.stack| ==> sh.stack[i + 1] < |sh.next|)
    && sh'.stack == Cut(sh.stack, i) && sh'.where == sh.where[sh.stack[i] := With(t)]
    && if i == |sh.stack| - 1 then sh'.next == sh.next && sh'.head == Link(sh.stack, i - 1)
       else sh'.next == sh.next[sh.stack[i + 1] := Link(sh.stack, i - 1)] && sh'.head == sh.head
  }

  /** Taking the node at index i off the chain leaves the chain of the others. */
  lemma CutChained(sh: Shared, t: nat, i: nat, sh': Shared)
    requires Chained(sh) && Distinct(sh.stack) && CutOut(sh, t, i, sh')
    ensures Chained(sh')
  {
    assert Linked(sh, i);
    forall k: nat | k < |sh'.stack| ensures Linked(sh', k) {
      CutAt(sh.stack, i, k);
      assert Linked(sh, if k < i then k else k + 1);
      if k > 0 { CutAt(sh.stack, i, k - 1); }
    }
    if |sh'.stack| > 0 { CutAt(sh.stack, i, |sh'.stack| - 1); }
  }

  lemma CutListed(sh: Shared, t: nat, i: nat, sh': Shared)
    requires Distinct(sh.stack) && Listed(sh) && CutOut(sh, t, i, sh')
    ensures Distinct(sh'.stack) && Listed(sh')
  {
    forall x | 0 <= x < |sh'.where| && sh'.where[x].OnStack? ensures x in sh'.stack {
      var k :| 0 <= k < |sh.stack| && sh.stack[k] == x;
      assert sh'.stack[if k < i then k else k - 1] == x;
    }
  }

  lemma CutKeeps(sh: Shared, t: nat, i: nat, sh': Shared)
    requires Global(sh) && CutOut(sh, t, i, sh')
    ensures Global(sh')
  {
    CutChained(sh, t, i, sh');
    CutListed(sh, t, i, sh');
  }

  lemma SameChain(sh: Shared, sh': Shared)
    requires Global(sh) && sh'.stack == sh.stack && sh'.head == sh.head && sh'.next == sh.next
    requires |sh'.where| == |sh.where|
    requires forall x :: 0 <= x < |sh.where| ==> (sh'.where[x].OnStack? <==> sh.where[x].OnStack?)
    ensures Global(sh')
  {
    forall i: nat | i < |sh.stack| ensures Linked(sh', i) {
      assert Linked(sh, i);
    }
  }

  // ---------------------------------------------------------------- PopBack

  /** Only pushes come between PopBack's load and its CAS, so a head that is back is a head that
      never left. */
  lemma PopKeeps(sh: Shared, t: nat, at: PopAt, sh': Shared, pc': Pc)
    requires Global(sh) && Local(sh, t, Pop(at)) && PopStep(sh, t, at, sh', pc')
    ensures Global(sh')
    ensures at.PopCas? && pc'.pop.PopCount? ==> at.d == |sh.stack| - 1
  {
    if at.PopCas? && sh.head == At(at.h) {
      assert at.d == |sh.stack| - 1;
      assert Linked(sh, at.d);
      CutKeeps(sh, t, at.d, sh');
    } else {
      assert at.PopCount? ==> Holds(Pop(at), at.h);
      SameChain(sh, sh');
    }
  }

  lemma PopMoves(sh: Shared, t: nat, at: PopAt, sh': Shared, pc': Pc)
    requires Global(sh) && Local(sh, t, Pop(at)) && PopStep(sh, t, at, sh', pc')
    ensures Rely(sh, t, sh') && Local(sh', t, pc')
  {
    match at
    case PopCount(h) => assert Holds(Pop(at), h);
    case PopNext(h, d) => assert Linked(sh, d);
    case PopCas(h, d, nx) => assert Linked(sh, d);
    case _ =>
  }

  // ---------------------------------------------------------------- Prune

  /** The two steps of Prune that take a node cut out the one it is at. */
  lemma PruneCuts(sh: Shared, t: nat, rec: Record, at: PruneAt, sh': Shared, pc': Pc)
    requires Global(sh) && PruneLocal(sh, rec, at) && PruneStep(sh, t, rec, at, sh', pc') && pc'.prune.Uncount?
    ensures 0 <= Idx(rec) && CutOut(sh, t, Idx(rec), sh') && sh'.mx == sh.mx
    ensures at.e == sh.stack[Idx(rec)]
  {
    var i := Idx(rec);
    assert Linked(sh, i);
    if at.Splice? {
      assert Linked(sh, i + 1);
    }
  }

  lemma PruneKeeps(sh: Shared, t: nat, rec: Record, at: PruneAt, sh': Shared, pc': Pc)
    requires Global(sh) && Local(sh, t, Prune(rec, at)) && PruneStep(sh, t, rec, at, sh', pc')
    ensures Global(sh')
  {
    if pc'.prune.Uncount? {
      PruneCuts(sh, t, rec, at, sh', pc');
      CutKeeps(sh, t, Idx(rec), sh');
    } else {
      forall x | 0 <= x < |sh.where| ensures sh'.where[x].OnStack? <==> sh.where[x].OnStack? {
        assert x in rec.dropped ==> Holds(Prune(rec, at), x);
      }
      SameChain(sh, sh');
    }
  }

  lemma PruneRely(sh: Shared, t: nat, rec: Record, at: PruneAt, sh': Shared, pc': Pc)
    requires Global(sh) && Local(sh, t, Prune(rec, at)) && PruneStep(sh, t, rec, at, sh', pc')
    ensures Rely(sh, t, sh')
  {
    if pc'.prune.Uncount? {
      PruneCuts(sh, t, rec, at, sh', pc');
      assert Linked(sh, Idx(rec));
      if Idx(rec) + 1 < |sh.stack| { assert Linked(sh, Idx(rec) + 1); }
    } else {
      forall x | 0 <= x < |sh.where| && sh'.where[x] != sh.where[x]
        ensures sh.where[x] == With(t) && sh'.where[x].Out?
      {
        assert x in rec.dropped && Holds(Prune(rec, at), x);
      }
    }
  }

  lemma PruneHands(sh: Shared, t: nat, rec: Record, at: PruneAt, sh': Shared, pc': Pc)
    requires Global(sh) && Local(sh, t, Prune(rec, at)) && PruneStep(sh, t, rec, at, sh', pc')
    ensures (Removing(pc') <==> sh'.mx == HeldBy(t)) && Hands(sh', t, pc')
  {
    var pc := Prune(rec, at);
    if pc'.prune.Uncount? {
      PruneCuts(sh, t, rec, at, sh', pc');
      assert Linked(sh, Idx(rec));
      assert forall x: nat :: Holds(pc', x) <==> Holds(pc, x) || x == at.e;
    } else if pc'.prune.Pruned? {
      forall x | 0 <= x < |sh'.where| ensures sh'.where[x] != With(t) {
        assert sh.where[x] == With(t) ==> Holds(pc, x);
      }
    } else {
      assert at.Uncount? ==> forall x: nat :: x in pc'.rec.dropped <==> x in rec.dropped || x == at.e;
      assert forall x: nat :: Holds(pc', x) <==> Holds(pc, x);
    }
  }

  lemma CountKnows(sh: Shared, t: nat, rec: Record, at: PruneAt, sh': Shared, pc': Pc)
    requires Chained(sh) && PruneLocal(sh, rec, at) && PruneStep(sh, t, rec, at, sh', pc')
    requires at.PruneLock? || at.PruneTop? || at.CountNodes?
    ensures PruneLocal(sh', pc'.rec, pc'.prune)
  {
    if at.CountNodes? && at.cur.At? {
      assert Linked(sh, |rec.snapshot| - 1 - at.n);
    }
  }

  /** One more pick: the record still splits what was seen. */
  lemma PickOne(rec: Record, picked: bool, rec': Record)
    requires RecordOk(rec) && 0 <= Idx(rec)
    requires var e := rec.snapshot[Idx(rec)];
      rec' == (if picked then rec.(seen := [Seen(e, true)] + rec.seen, dropped := [e] + rec.dropped)
               else rec.(seen := [Seen(e, false)] + rec.seen, kept := [e] + rec.kept))
    ensures RecordOk(rec')
  {
    var x := Seen(rec.snapshot[Idx(rec)], picked);
    SeenMore(rec, x, rec');
    forall want ensures Split(rec', want) {
      PickSplits(rec, x, rec', want);
    }
  }

  lemma SeenMore(rec: Record, x: Seen, rec': Record)
    requires SeenTop(rec) && 0 <= Idx(rec) && x.node == rec.snapshot[Idx(rec)]
    requires rec'.snapshot == rec.snapshot && rec'.seen == [x] + rec.seen
    ensures SeenTop(rec')
  {
    forall k | 0 <= k < |rec'.seen| ensures rec'.seen[k].node == rec'.snapshot[Idx(rec') + 1 + k] {
      assert k > 0 ==> rec'.seen[k] == rec.seen[k - 1];
    }
  }

  lemma PickSplits(rec: Record, x: Seen, rec': Record, want: bool)
    requires RecordOk(rec) && rec'.seen == [x] + rec.seen
    requires rec'.dropped == if x.picked then [x.node] + rec.dropped else rec.dropped
    requires rec'.kept == if x.picked then rec.kept else [x.node] + rec.kept
    ensures Split(rec', want)
  {
    assert Split(rec, want);
    PickedMore(x, rec.seen, want);
  }

  lemma PickedMore(x: Seen, seen: seq<Seen>, want: bool)
    ensures Picked([x] + seen, want) == if x.picked == want then [x.node] + Picked(seen, want) else Picked(seen, want)
  {
    assert ([x] + seen)[1..] == seen;
  }

  lemma VisitKnows(sh: Shared, t: nat, rec: Record, at: PruneAt, sh': Shared, pc': Pc)
    requires Chained(sh) && PruneLocal(sh, rec, at) && PruneStep(sh, t, rec, at, sh', pc') && at.Visit?
    ensures PruneLocal(sh', pc'.rec, pc'.prune)
  {
    if pc'.prune.Ask? {
      assert Linked(sh, Idx(rec));
    }
  }

  /** Keeping the node it is at, a Prune leaves the stack as it was. */
  lemma BelowKept(sh: Shared, rec: Record, rec': Record)
    requires 0 <= Idx(rec) && Below(sh, rec, Idx(rec) + 1)
    requires rec' == rec.(seen := [Seen(rec.snapshot[Idx(rec)], false)] + rec.seen,
                          kept := [rec.snapshot[Idx(rec)]] + rec.kept)
    ensures Below(sh, rec', Idx(rec') + 1)
  {
  }

  /** Taking it out moves down what was kept above it. */
  lemma BelowCut(sh: Shared, rec: Record, sh': Shared)
    requires 0 <= Idx(rec) && Below(sh, rec, Idx(rec) + 1) && sh'.stack == Cut(sh.stack, Idx(rec))
    ensures Below(sh', rec, Idx(rec))
  {
    var i := Idx(rec);
    forall k: nat | k < |sh.stack| - 1 ensures sh'.stack[k] == sh.stack[if k < i then k else k + 1] {
      CutAt(sh.stack, i, k);
    }
  }

  lemma AskKnows(sh: Shared, t: nat, rec: Record, at: PruneAt, sh': Shared, pc': Pc)
    requires Chained(sh) && PruneLocal(sh, rec, at) && PruneStep(sh, t, rec, at, sh', pc') && at.Ask?
    ensures PruneLocal(sh', pc'.rec, pc'.prune)
  {
    if pc'.prune.Visit? {
      PickOne(rec, false, pc'.rec);
      BelowKept(sh, rec, pc'.rec);
    }
  }

  lemma TakeKnows(sh: Shared, t: nat, rec: Record, at: PruneAt, sh': Shared, pc': Pc)
    requires Global(sh) && PruneLocal(sh, rec, at) && PruneStep(sh, t, rec, at, sh', pc') && (at.TryHead? || at.Splice?)
    ensures PruneLocal(sh', pc'.rec, pc'.prune)
  {
    var i := Idx(rec);
    if pc'.prune.Uncount? {
      PruneCuts(sh, t, rec, at, sh', pc');
      BelowCut(sh, rec, sh');
      if at.Splice? { CutAt(sh.stack, i, i); }
    }
  }

  lemma FindKnows(sh: Shared, t: nat, rec: Record, at: PruneAt, sh': Shared, pc': Pc)
    requires Global(sh) && PruneLocal(sh, rec, at) && PruneStep(sh, t, rec, at, sh', pc')
    requires (at.FindHead? || at.FindNext?)
    ensures PruneLocal(sh', pc'.rec, pc'.prune)
  {
    if at.FindNext? {
      assert Linked(sh, at.d);
    }
  }

  lemma BelowSame(sh: Shared, rec: Record, sh': Shared, rec': Record, seen: int)
    requires Below(sh, rec, seen) && sh'.stack == sh.stack && rec'.snapshot == rec.snapshot && rec'.kept == rec.kept
    ensures Below(sh', rec', seen)
  {
  }

  lemma UncountKnows(sh: Shared, t: nat, rec: Record, at: PruneAt, sh': Shared, pc': Pc)
    requires PruneLocal(sh, rec, at) && PruneStep(sh, t, rec, at, sh', pc') && at.Uncount?
    ensures PruneLocal(sh', pc'.rec, pc'.prune)
  {
    PickOne(rec, true, pc'.rec);
    BelowSame(sh, rec, sh', pc'.rec, Idx(rec));
  }

  lemma PruneKnows(sh: Shared, t: nat, rec: Record, at: PruneAt, sh': Shared, pc': Pc)
    requires Global(sh) && PruneLocal(sh, rec, at) && PruneStep(sh, t, rec, at, sh', pc')
    ensures PruneLocal(sh', pc'.rec, pc'.prune)
  {
    match at
    case Visit(_, _, _) => VisitKnows(sh, t, rec, at, sh', pc');
    case Ask(_, _, _, _) => AskKnows(sh, t, rec, at, sh', pc');
    case TryHead(_, _, _) => TakeKnows(sh, t, rec, at, sh', pc');
    case Splice(_, _, _, _) => TakeKnows(sh, t, rec, at, sh', pc');
    case FindHead(_, _, _) => FindKnows(sh, t, rec, at, sh', pc');
    case FindNext(_, _, _, _, _) => FindKnows(sh, t, rec, at, sh', pc');
    case Uncount(_, _, _, _) => UncountKnows(sh, t, rec, at, sh', pc');
    case _ => CountKnows(sh, t, rec, at, sh', pc');
  }

  // ---------------------------------------------------------------- all goroutines together

  lemma MoverKeeps(sh: Shared, t: nat, pc: Pc, sh': Shared, pc': Pc)
    requires Global(sh) && Local(sh, t, pc) && GoStep(sh, t, pc, sh', pc')
    ensures Global(sh') && Rely(sh, t, sh') && Local(sh', t, pc')
  {
    match pc
    case Push(e, at) =>
      PushKeeps(sh, t, e, at, sh', pc');
      PushMoves(sh, t, e, at, sh', pc');
    case Pop(at) =>
      PopKeeps(sh, t, at, sh', pc');
      PopMoves(sh, t, at, sh', pc');
    case Prune(rec, at) =>
      PruneKeeps(sh, t, rec, at, sh', pc');
      PruneRely(sh, t, rec, at, sh', pc');
      PruneHands(sh, t, rec, at, sh', pc');
      PruneKnows(sh, t, rec, at, sh', pc');
  }

  lemma BeginKeeps(sh: Shared, t: nat, pc: Pc, sh': Shared, pc': Pc)
    requires Global(sh) && Local(sh, t, pc) && Returned(pc) && Begins(sh, t, sh', pc')
    ensures Global(sh') && Rely(sh, t, sh') && Local(sh', t, pc')
  {
    assert forall x: nat :: !Holds(pc, x);
    SameChain(sh, sh');
  }

  /** The node is counted in len and not on the stack: its push has not landed, or its removal has
      not been counted. */
  function Ahead(pc: Pc): nat
  {
    match pc
    case Push(_, at) => if at.PushCount? then 0 else 1
    case Pop(at) => if at.PopCount? then 1 else 0
    case Prune(_, at) => if at.Uncount? then 1 else 0
    case Idle => 0
  }

  function AllAhead(pcs: seq<Pc>): nat
  {
    if pcs == [] then 0 else Ahead(pcs[0]) + AllAhead(pcs[1..])
  }

  lemma {:induction false} AheadMoves(pcs: seq<Pc>, t: nat, pc: Pc)
    requires t < |pcs|
    ensures AllAhead(pcs[t := pc]) == AllAhead(pcs) - Ahead(pcs[t]) + Ahead(pc)
    ensures AllAhead(pcs) >= Ahead(pcs[t])
  {
    if t > 0 {
      AheadMoves(pcs[1..], t - 1, pc);
      assert pcs[t := pc][1..] == pcs[1..][t - 1 := pc];
    } else {
      assert pcs[t := pc][1..] == pcs[1..];
    }
  }

  lemma {:induction false} AheadJoins(pcs: seq<Pc>)
    ensures AllAhead(pcs + [Idle]) == AllAhead(pcs)
  {
    if pcs != [] {
      AheadJoins(pcs[1..]);
      assert (pcs + [Idle])[1..] == pcs[1..] + [Idle];
    } else {
      assert (pcs + [Idle])[1..] == [];
    }
  }

  ghost predicate Inv(s: State)
  {
    && Global(s.sh)
    && (forall t: nat :: t < |s.pcs| ==> Local(s.sh, t, s.pcs[t]))
    && (s.sh.mx.HeldBy? ==> s.sh.mx.owner < |s.pcs|)
    && (forall x :: 0 <= x < |s.sh.where| && s.sh.where[x].With? ==> s.sh.where[x].who < |s.pcs|)
    && s.sh.len == |s.sh.stack| + AllAhead(s.pcs)
  }

  lemma LenMoves(sh: Shared, t: nat, pc: Pc, sh': Shared, pc': Pc)
    requires Global(sh) && Local(sh, t, pc)
    requires (GoStep(sh, t, pc, sh', pc') || (Returned(pc) && Begins(sh, t, sh', pc')))
    ensures sh'.len - |sh'.stack| - Ahead(pc') == sh.len - |sh.stack| - Ahead(pc)
  {
    if pc.Prune? && GoStep(sh, t, pc, sh', pc') && pc'.prune.Uncount? {
      PruneCuts(sh, t, pc.rec, pc.prune, sh', pc');
    }
  }

  lemma MoveKeeps(s: State, t: nat, s': State)
    requires Inv(s) && Moves(s, t, s')
    ensures Inv(s')
  {
    var pc, pc' := s.pcs[t], s'.pcs[t];
    assert Local(s.sh, t, pc);
    if GoStep(s.sh, t, pc, s'.sh, pc') {
      MoverKeeps(s.sh, t, pc, s'.sh, pc');
    } else {
      BeginKeeps(s.sh, t, pc, s'.sh, pc');
    }
    forall u: nat | u < |s'.pcs| ensures Local(s'.sh, u, s'.pcs[u]) {
      if u != t { OtherKeeps(s.sh, t, s'.sh, u, s.pcs[u]); }
    }
    LenMoves(s.sh, t, pc, s'.sh, pc');
    AheadMoves(s.pcs, t, pc');
  }

  lemma MakeKeeps(s: State)
    requires Inv(s)
    ensures Inv(s.(sh := s.sh.(next := s.sh.next + [Nil], where := s.sh.where + [Out])))
  {
    var sh' := s.sh.(next := s.sh.next + [Nil], where := s.sh.where + [Out]);
    forall i: nat | i < |s.sh.stack| ensures Linked(sh', i) {
      assert Linked(s.sh, i);
    }
    forall u: nat | u < |s.pcs| ensures Local(sh', u, s.pcs[u]) {
      assert Local(s.sh, u, s.pcs[u]);
      OtherKeeps(s.sh, u + 1, sh', u, s.pcs[u]);
    }
  }

  lemma NextKeeps(s: State, s': State)
    requires Inv(s) && Next(s, s')
    ensures Inv(s')
  {
    if t: nat :| Moves(s, t, s') {
      MoveKeeps(s, t, s');
    } else if s' == s.(pcs := s.pcs + [Idle]) {
      AheadJoins(s.pcs);
      forall u: nat | u < |s'.pcs| ensures Local(s'.sh, u, s'.pcs[u]) {
        assert u < |s.pcs| ==> Local(s.sh, u, s.pcs[u]);
      }
    } else {
      MakeKeeps(s);
    }
  }

  lemma RunKeeps(run: seq<State>)
    requires IsRun(Init, Next, run)
    ensures forall i :: 0 <= i < |run| ==> Inv(run[i])
  {
    forall s, s' | Inv(s) && Next(s, s') ensures Inv(s') {
      NextKeeps(s, s');
    }
    assert Inductive(Init, Next, Inv);
    Invariance(Init, Next, Inv, run);
  }

  // ---------------------------------------------------------------- theorems

  /** What the next step of a call dereferences, and what its history is taken to be. */
  predicate Finds(sh: Shared, pc: Pc)
  {
    match pc
    case Idle => true
    case Push(e, _) => e < |sh.next| && e < |sh.where|
    case Pop(PopLoad) => sh.head.At? ==> sh.stack != []
    case Pop(PopNext(h, _)) => h < |sh.next|
    case Pop(PopCas(h, _, _)) => h < |sh.where| && (sh.head == At(h) ==> sh.stack != [])
    case Pop(PopCount(h)) => h < |sh.where|
    case Pop(_) => true
    case Prune(_, CountNodes(_, cur, _)) => cur.At? ==> cur.id < |sh.next|
    case Prune(_, Visit(_, cur, _)) => cur.At? ==> cur.id < |sh.next|
    case Prune(_, TryHead(_, e, _)) => e < |sh.where|
    case Prune(_, FindHead(_, _, _)) => sh.head.At? && sh.stack != []
    case Prune(_, FindNext(_, e, _, p, d)) => p < |sh.next| && (sh.next[p] == At(e) || (sh.next[p].At? && d > 0))
    case Prune(_, Splice(_, e, _, prev)) => e < |sh.where| && prev < |sh.next|
    case Prune(_, _) => true
  }

  lemma PopFinds(sh: Shared, t: nat, at: PopAt)
    requires Global(sh) && Local(sh, t, Pop(at))
    ensures Finds(sh, Pop(at))
  {
    if at.PopNext? || at.PopCas? {
      assert Linked(sh, at.d);
    }
    assert at.PopCount? ==> Holds(Pop(at), at.h);
  }

  lemma PruneFinds(sh: Shared, rec: Record, at: PruneAt)
    requires Global(sh) && PruneLocal(sh, rec, at)
    ensures Finds(sh, Prune(rec, at))
  {
    match at
    case CountNodes(_, cur, n) => if cur.At? { assert Linked(sh, |rec.snapshot| - 1 - n); }
    case Visit(_, cur, _) => if cur.At? { assert Linked(sh, Idx(rec)); }
    case TryHead(_, _, _) => assert Linked(sh, Idx(rec));
    case FindNext(_, e, _, p, d) => assert Linked(sh, d);
    case Splice(_, _, _, prev) =>
      assert Linked(sh, Idx(rec)) && Linked(sh, Idx(rec) + 1);
    case _ =>
  }

  /** In every run, no step of the stack meets a nil: a popped or visited node is a node, and Prune's
      search for the node above the one it drops never runs off the end. So no step of the model is
      disabled but by popMx. */
  lemma NothingIsNil(run: seq<State>, i: nat, t: nat)
    requires IsRun(Init, Next, run) && i < |run| && t < |run[i].pcs|
    ensures Finds(run[i].sh, run[i].pcs[t])
  {
    InvAt(run, i);
    var sh, pc := run[i].sh, run[i].pcs[t];
    assert Local(sh, t, pc);
    match pc
    case Push(e, _) => assert Holds(pc, e);
    case Pop(at) => PopFinds(sh, t, at);
    case Prune(rec, at) => PruneFinds(sh, rec, at);
    case Idle =>
  }

  /** The nodes met walking the links from r, at most fuel of them. */
  function Walk(next: seq<Ref>, r: Ref, fuel: nat): seq<nat>
    decreases fuel
  {
    if r.Nil? || fuel == 0 || r.id >= |next| then [] else Walk(next, next[r.id], fuel - 1) + [r.id]
  }

  lemma {:induction false} WalkIsStack(sh: Shared, i: nat, fuel: nat)
    requires Chained(sh) && i <= |sh.stack| && fuel >= i
    ensures Walk(sh.next, Link(sh.stack, i - 1), fuel) == sh.stack[..i]
  {
    if i > 0 {
      assert Linked(sh, i - 1);
      WalkIsStack(sh, i - 1, fuel - 1);
    }
  }

  /** In every run, walking the links from head meets each node of the stack once, in order, and
      ends, however far it walks. */
  lemma ChainIsStack(run: seq<State>, i: nat, fuel: nat)
    requires IsRun(Init, Next, run) && i < |run| && fuel >= |run[i].sh.stack|
    ensures Walk(run[i].sh.next, run[i].sh.head, fuel) == run[i].sh.stack && Distinct(run[i].sh.stack)
  {
    RunKeeps(run);
    WalkIsStack(run[i].sh, |run[i].sh.stack|, fuel);
  }

  /** In every run, no node is lost or in two places: each is with a worker, on the stack, or in the
      hands of exactly one call. */
  lemma NodeConservation(run: seq<State>, i: nat, x: nat)
    requires IsRun(Init, Next, run) && i < |run| && x < |run[i].sh.where|
    ensures x in run[i].sh.stack <==> run[i].sh.where[x].OnStack?
    ensures forall t: nat :: t < |run[i].pcs| ==> (Holds(run[i].pcs[t], x) <==> run[i].sh.where[x] == With(t))
    ensures run[i].sh.where[x].With? ==> run[i].sh.where[x].who < |run[i].pcs|
  {
    RunKeeps(run);
    var s := run[i];
    if x in s.sh.stack {
      var k: nat :| k < |s.sh.stack| && s.sh.stack[k] == x;
      assert Linked(s.sh, k);
    }
    forall t: nat | t < |s.pcs| ensures Holds(s.pcs[t], x) <==> s.sh.where[x] == With(t) {
      assert Local(s.sh, t, s.pcs[t]);
    }
  }

  /** In every run, a PopBack that takes a node takes the most recently pushed one and leaves the
      rest as they are; it returns nothing only when the stack is empty. */
  lemma PopTakesTop(run: seq<State>, i: nat, t: nat)
    requires IsRun(Init, Next, run) && i + 1 < |run| && Moves(run[i], t, run[i + 1]) && run[i].pcs[t].Pop?
    requires Removing(run[i].pcs[t])
    ensures var sh, sh', at' := run[i].sh, run[i + 1].sh, run[i + 1].pcs[t].pop;
      && run[i + 1].pcs[t].Pop?
      && (at'.PopCount? ==> sh.stack == sh'.stack + [at'.h])
      && (!at'.PopCount? ==> sh'.stack == sh.stack)
      && (at' == Popped(Nil) ==> sh.stack == [])
  {
    RunKeeps(run);
    var s, s' := run[i], run[i + 1];
    assert Local(s.sh, t, s.pcs[t]);
    PopKeeps(s.sh, t, s.pcs[t].pop, s'.sh, s'.pcs[t]);
  }

  /** The Prune has visited all of its snapshot but the bottom keep nodes; it removed exactly those
      drop picked and, under whatever was pushed meanwhile, left the rest in their order above the
      untouched bottom. */
  ghost predicate PrunedExactly(rec: Record, stack: seq<nat>)
  {
    && |rec.seen| <= |rec.snapshot|
    && var bottom, kept := |rec.snapshot| - |rec.seen|, Picked(rec.seen, false);
       && bottom == (if rec.keep <= 0 then 0 else if rec.keep <= |rec.snapshot| then rec.keep else |rec.snapshot|)
       && (forall k :: 0 <= k < |rec.seen| ==> rec.seen[k].node == rec.snapshot[bottom + k])
       && rec.dropped == Picked(rec.seen, true)
       && bottom + |kept| <= |stack|
       && (forall k :: 0 <= k < bottom ==> stack[k] == rec.snapshot[k])
       && (forall k :: 0 <= k < |kept| ==> stack[bottom + k] == kept[k])
  }

  lemma PruneEnds(sh: Shared, rec: Record, n: nat, cur: Ref, prev: Ref)
    requires PruneLocal(sh, rec, Visit(n, cur, prev)) && (cur.Nil? || |rec.seen| >= n - rec.keep)
    ensures PrunedExactly(rec, sh.stack)
  {
    assert Split(rec, true) && Split(rec, false);
  }

  lemma InvAt(run: seq<State>, i: nat)
    requires IsRun(Init, Next, run) && i < |run|
    ensures Inv(run[i])
  {
    RunKeeps(run);
  }

  lemma PruneReturns(s: State, t: nat, s': State)
    requires Inv(s) && Moves(s, t, s') && s.pcs[t].Prune? && s.pcs[t].prune.Visit?
    requires s'.pcs[t].Prune? && s'.pcs[t].prune.Pruned?
    ensures PrunedExactly(s.pcs[t].rec, s'.sh.stack)
  {
    var at := s.pcs[t].prune;
    assert Local(s.sh, t, s.pcs[t]);
    PruneEnds(s.sh, s.pcs[t].rec, at.n, at.cur, at.prev);
  }

  /** In every run, a Prune that returns was exact. */
  lemma PruneExact(run: seq<State>, i: nat, t: nat)
    requires IsRun(Init, Next, run) && i + 1 < |run| && Moves(run[i], t, run[i + 1])
    requires run[i].pcs[t].Prune? && run[i].pcs[t].prune.Visit?
    requires run[i + 1].pcs[t].Prune? && run[i + 1].pcs[t].prune.Pruned?
    ensures PrunedExactly(run[i].pcs[t].rec, run[i + 1].sh.stack)
  {
    InvAt(run, i);
    PruneReturns(run[i], t, run[i + 1]);
  }

  /** In every run, len is the size of the stack plus the pushes and removals under way, so it is
      never below the true size and is exact when nothing is under way. */
  lemma LenNeverBelow(run: seq<State>, i: nat)
    requires IsRun(Init, Next, run) && i < |run|
    ensures run[i].sh.len == |run[i].sh.stack| + AllAhead(run[i].pcs) >= |run[i].sh.stack| >= 0
  {
    RunKeeps(run);
  }
}
