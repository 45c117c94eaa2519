/** A PushNode, PopBack or Prune that goes on alone returns, wherever the others stopped. */
module IdleStackProgress {
  import opened Runs
  import opened IdleStack

  ghost function OnlyBy(t: nat): (State, State) -> bool
  {
    (s, s') => Moves(s, t, s')
  }

  /** t alone gets from s to s'. */
  ghost predicate Alone(s: State, t: nat, s': State)
  {
    Reachable(From(s), OnlyBy(t), s')
  }

  lemma Goes(s0: State, s: State, t: nat, sh': Shared, pc': Pc) returns (s': State)
    requires Inv(s) && t < |s.pcs| && Alone(s0, t, s) && GoStep(s.sh, t, s.pcs[t], sh', pc')
    ensures Inv(s') && s' == State(sh', s.pcs[t := pc']) && Alone(s0, t, s')
  {
    s' := State(sh', s.pcs[t := pc']);
    assert Moves(s, t, s') && OnlyBy(t)(s, s');
    ReachableNext(From(s0), OnlyBy(t), s, s');
    MoveKeeps(s, t, s');
  }

  lemma FindsHere(s: State, t: nat)
    requires Inv(s) && t < |s.pcs|
    ensures Local(s.sh, t, s.pcs[t]) && Finds(s.sh, s.pcs[t])
  {
    var pc := s.pcs[t];
    assert Local(s.sh, t, pc);
    match pc
    case Push(e, _) => assert Holds(pc, e);
    case Pop(at) => PopFinds(s.sh, t, at);
    case Prune(rec, at) => PruneFinds(s.sh, rec, at);
    case Idle =>
  }

  // ---------------------------------------------------------------- PushNode

  lemma LoadLands(s0: State, s: State, t: nat) returns (s': State)
    requires Inv(s) && t < |s.pcs| && Alone(s0, t, s) && s.pcs[t].Push? && s.pcs[t].push.PushLoad?
    ensures Alone(s0, t, s') && t < |s'.pcs| && s'.pcs[t].Idle? && s'.sh.stack == s.sh.stack + [s.pcs[t].e]
  {
    FindsHere(s, t);
    var sh, e := s.sh, s.pcs[t].e;
    var s1 := Goes(s0, s, t, sh, Push(e, PushStore(sh.head)));
    var sh2 := sh.(next := sh.next[e := sh.head]);
    var s2 := Goes(s0, s1, t, sh2, Push(e, PushCas(sh.head)));
    s' := Goes(s0, s2, t, sh2.(head := At(e), stack := sh.stack + [e], where := sh.where[e := OnStack]), Idle);
  }

  lemma PushAlone(s0: State, s: State, t: nat) returns (s': State)
    requires Inv(s) && t < |s.pcs| && Alone(s0, t, s) && s.pcs[t].Push?
    ensures Alone(s0, t, s') && t < |s'.pcs| && s'.pcs[t].Idle? && s'.sh.stack == s.sh.stack + [s.pcs[t].e]
  {
    FindsHere(s, t);
    var sh, e := s.sh, s.pcs[t].e;
    match s.pcs[t].push
    case PushCount =>
      var s1 := Goes(s0, s, t, sh.(len := sh.len + 1), Push(e, PushLoad));
      s' := LoadLands(s0, s1, t);
    case PushLoad => s' := LoadLands(s0, s, t);
    case PushStore(h) =>
      var s1 := Goes(s0, s, t, sh.(next := sh.next[e := h]), Push(e, PushCas(h)));
      s' := CasLands(s0, s1, t);
    case PushCas(h) => s' := CasLands(s0, s, t);
  }

  lemma CasLands(s0: State, s: State, t: nat) returns (s': State)
    requires Inv(s) && t < |s.pcs| && Alone(s0, t, s) && s.pcs[t].Push? && s.pcs[t].push.PushCas?
    ensures Alone(s0, t, s') && t < |s'.pcs| && s'.pcs[t].Idle? && s'.sh.stack == s.sh.stack + [s.pcs[t].e]
  {
    FindsHere(s, t);
    var sh, e := s.sh, s.pcs[t].e;
    if sh.head == s.pcs[t].push.h {
      s' := Goes(s0, s, t, sh.(head := At(e), stack := sh.stack + [e], where := sh.where[e := OnStack]), Idle);
    } else {
      var s1 := Goes(s0, s, t, sh, Push(e, PushLoad));
      s' := LoadLands(s0, s1, t);
    }
  }

  // ---------------------------------------------------------------- PopBack

  function Top(sh: Shared): Ref
  {
    Link(sh.stack, |sh.stack| - 1)
  }

  lemma LoadPops(s0: State, s: State, t: nat) returns (s': State)
    requires Inv(s) && t < |s.pcs| && Alone(s0, t, s) && s.pcs[t].Pop? && s.pcs[t].pop.PopLoad?
    ensures Alone(s0, t, s') && t < |s'.pcs| && s'.pcs[t] == Pop(Popped(Top(s.sh)))
  {
    FindsHere(s, t);
    var sh := s.sh;
    if sh.head.Nil? {
      s' := Goes(s0, s, t, sh.(mx := Free), Pop(Popped(Nil)));
    } else {
      var s1 := Goes(s0, s, t, sh, Pop(PopNext(sh.head.id, |sh.stack| - 1)));
      s' := NextPops(s0, s1, t);
    }
  }

  /** The head has just been read. */
  lemma NextPops(s0: State, s: State, t: nat) returns (s': State)
    requires Inv(s) && t < |s.pcs| && Alone(s0, t, s) && s.pcs[t].Pop?
    requires s.pcs[t].pop.PopNext? && s.sh.head == At(s.pcs[t].pop.h)
    ensures Alone(s0, t, s') && t < |s'.pcs| && s'.pcs[t] == Pop(Popped(Top(s.sh)))
  {
    FindsHere(s, t);
    var h, d := s.pcs[t].pop.h, s.pcs[t].pop.d;
    var s1 := Goes(s0, s, t, s.sh, Pop(PopCas(h, d, s.sh.next[h])));
    s' := CasPops(s0, s1, t);
  }

  lemma CasPops(s0: State, s: State, t: nat) returns (s': State)
    requires Inv(s) && t < |s.pcs| && Alone(s0, t, s) && s.pcs[t].Pop?
    requires s.pcs[t].pop.PopCas? && s.sh.head == At(s.pcs[t].pop.h)
    ensures Alone(s0, t, s') && t < |s'.pcs| && s'.pcs[t] == Pop(Popped(Top(s.sh)))
  {
    FindsHere(s, t);
    var sh, h := s.sh, s.pcs[t].pop.h;
    var s1 := Goes(s0, s, t, Taken(sh, h, t, s.pcs[t].pop.nx, Cut(sh.stack, |sh.stack| - 1)), Pop(PopCount(h)));
    s' := CountPops(s0, s1, t);
  }

  lemma CountPops(s0: State, s: State, t: nat) returns (s': State)
    requires Inv(s) && t < |s.pcs| && Alone(s0, t, s) && s.pcs[t].Pop? && s.pcs[t].pop.PopCount?
    ensures Alone(s0, t, s') && t < |s'.pcs| && s'.pcs[t] == Pop(Popped(At(s.pcs[t].pop.h)))
  {
    FindsHere(s, t);
    var sh, h := s.sh, s.pcs[t].pop.h;
    s' := Goes(s0, s, t, sh.(len := sh.len - 1, mx := Free, where := sh.where[h := Out]), Pop(Popped(At(h))));
  }

  /** It returns the top as it finds it, or the node it has taken already. */
  lemma PopAlone(s0: State, s: State, t: nat) returns (s': State)
    requires Inv(s) && t < |s.pcs| && Alone(s0, t, s) && s.pcs[t].Pop? && !s.pcs[t].pop.Popped?
    requires s.pcs[t].pop.PopLock? ==> s.sh.mx.Free?
    ensures Alone(s0, t, s') && t < |s'.pcs|
    ensures s'.pcs[t] == Pop(Popped(if s.pcs[t].pop.PopCount? then At(s.pcs[t].pop.h) else Top(s.sh)))
  {
    FindsHere(s, t);
    var sh := s.sh;
    match s.pcs[t].pop
    case PopLock =>
      var s1 := Goes(s0, s, t, sh.(mx := HeldBy(t)), Pop(PopLoad));
      s' := LoadPops(s0, s1, t);
    case PopLoad => s' := LoadPops(s0, s, t);
    case PopNext(h, d) =>
      var s1 := Goes(s0, s, t, sh, Pop(PopCas(h, d, sh.next[h])));
      s' := RetriesPop(s0, s1, t);
    case PopCas(_, _, _) => s' := RetriesPop(s0, s, t);
    case PopCount(_) => s' := CountPops(s0, s, t);
  }

  lemma RetriesPop(s0: State, s: State, t: nat) returns (s': State)
    requires Inv(s) && t < |s.pcs| && Alone(s0, t, s) && s.pcs[t].Pop? && s.pcs[t].pop.PopCas?
    ensures Alone(s0, t, s') && t < |s'.pcs| && s'.pcs[t] == Pop(Popped(Top(s.sh)))
  {
    if s.sh.head == At(s.pcs[t].pop.h) {
      s' := CasPops(s0, s, t);
    } else {
      var s1 := Goes(s0, s, t, s.sh, Pop(PopLoad));
      s' := LoadPops(s0, s1, t);
    }
  }

  // ---------------------------------------------------------------- Prune

  function Stage(at: PruneAt): nat
  {
    match at
    case PruneLock => 4
    case PruneTop => 3
    case CountNodes(_, _, _) => 2
    case Pruned(_) => 0
    case _ => 1
  }

  /** Nodes still to count or to visit. */
  function ToGo(rec: Record, at: PruneAt): nat
  {
    var done := if at.CountNodes? then at.n else |rec.seen|;
    if done <= |rec.snapshot| then |rec.snapshot| - done else 0
  }

  function Rank(at: PruneAt): nat
  {
    match at
    case Visit(_, _, _) => 6
    case Ask(_, _, _, _) => 5
    case TryHead(_, _, _) => 4
    case FindHead(_, _, _) => 3
    case FindNext(_, _, _, _, _) => 2
    case Splice(_, _, _, _) => 1
    case _ => 0
  }

  function Depth(at: PruneAt): nat
  {
    if at.FindNext? then at.d else 0
  }

  ghost predicate Fewer(rec': Record, at': PruneAt, rec: Record, at: PruneAt)
  {
    || Stage(at') < Stage(at)
    || (Stage(at') == Stage(at)
        && (|| ToGo(rec', at') < ToGo(rec, at)
            || (ToGo(rec', at') == ToGo(rec, at)
                && (Rank(at') < Rank(at) || (Rank(at') == Rank(at) && Depth(at') < Depth(at))))))
  }

  lemma CountsOn(s0: State, s: State, t: nat) returns (s': State)
    requires Inv(s) && t < |s.pcs| && Alone(s0, t, s) && s.pcs[t].Prune? && Stage(s.pcs[t].prune) >= 2
    requires s.pcs[t].prune.PruneLock? ==> s.sh.mx.Free?
    ensures Inv(s') && Alone(s0, t, s') && t < |s'.pcs| && s'.pcs[t].Prune? && !s'.pcs[t].prune.PruneLock?
    ensures Fewer(s'.pcs[t].rec, s'.pcs[t].prune, s.pcs[t].rec, s.pcs[t].prune)
  {
    FindsHere(s, t);
    var sh, rec := s.sh, s.pcs[t].rec;
    match s.pcs[t].prune
    case PruneLock => s' := Goes(s0, s, t, sh.(mx := HeldBy(t)), Prune(rec, PruneTop));
    case PruneTop => s' := Goes(s0, s, t, sh, Prune(rec.(snapshot := sh.stack), CountNodes(sh.head, sh.head, 0)));
    case CountNodes(top, e, n) =>
      s' := Goes(s0, s, t, sh,
                 Prune(rec, if e.Nil? then Visit(n, top, Nil) else CountNodes(top, sh.next[e.id], n + 1)));
  }

  lemma Visits(s0: State, s: State, t: nat) returns (s': State)
    requires Inv(s) && t < |s.pcs| && Alone(s0, t, s) && s.pcs[t].Prune?
    requires s.pcs[t].prune.Visit?
    ensures Inv(s') && Alone(s0, t, s') && t < |s'.pcs| && s'.pcs[t].Prune? && !s'.pcs[t].prune.PruneLock?
    ensures Fewer(s'.pcs[t].rec, s'.pcs[t].prune, s.pcs[t].rec, s.pcs[t].prune)
  {
    FindsHere(s, t);
    var sh, rec, at := s.sh, s.pcs[t].rec, s.pcs[t].prune;
    if at.cur.Nil? || |rec.seen| >= at.n - rec.keep {
      s' := Goes(s0, s, t, sh.(mx := Free, where := Released(sh.where, rec.dropped)), Prune(rec, Pruned(at.n)));
    } else {
      s' := Goes(s0, s, t, sh, Prune(rec, Ask(at.n, at.cur.id, sh.next[at.cur.id], at.prev)));
    }
  }

  /** drop says what answers has for the node. */
  lemma Asks(s0: State, s: State, t: nat, answers: nat -> bool) returns (s': State)
    requires Inv(s) && t < |s.pcs| && Alone(s0, t, s) && s.pcs[t].Prune?
    requires s.pcs[t].prune.Ask?
    ensures Inv(s') && Alone(s0, t, s') && t < |s'.pcs| && s'.pcs[t].Prune? && !s'.pcs[t].prune.PruneLock?
    ensures Fewer(s'.pcs[t].rec, s'.pcs[t].prune, s.pcs[t].rec, s.pcs[t].prune)
  {
    FindsHere(s, t);
    var sh, rec, at := s.sh, s.pcs[t].rec, s.pcs[t].prune;
    if answers(at.e) {
      var at' := if at.prev.Nil? then TryHead(at.n, at.e, at.nx) else Splice(at.n, at.e, at.nx, at.prev.id);
      s' := Goes(s0, s, t, sh, Prune(rec, at'));
    } else {
      var rec' := rec.(seen := [Seen(at.e, false)] + rec.seen, kept := [at.e] + rec.kept);
      s' := Goes(s0, s, t, sh, Prune(rec', Visit(at.n, at.nx, At(at.e))));
    }
  }

  lemma Uncounts(s0: State, s: State, t: nat) returns (s': State)
    requires Inv(s) && t < |s.pcs| && Alone(s0, t, s) && s.pcs[t].Prune?
    requires s.pcs[t].prune.Uncount?
    ensures Inv(s') && Alone(s0, t, s') && t < |s'.pcs| && s'.pcs[t].Prune? && !s'.pcs[t].prune.PruneLock?
    ensures Fewer(s'.pcs[t].rec, s'.pcs[t].prune, s.pcs[t].rec, s.pcs[t].prune)
  {
    FindsHere(s, t);
    var sh, rec, at := s.sh, s.pcs[t].rec, s.pcs[t].prune;
    var rec' := rec.(seen := [Seen(at.e, true)] + rec.seen, dropped := [at.e] + rec.dropped);
    s' := Goes(s0, s, t, sh.(len := sh.len - 1), Prune(rec', Visit(at.n, at.nx, at.prev)));
  }

  lemma TriesHead(s0: State, s: State, t: nat) returns (s': State)
    requires Inv(s) && t < |s.pcs| && Alone(s0, t, s) && s.pcs[t].Prune?
    requires s.pcs[t].prune.TryHead?
    ensures Inv(s') && Alone(s0, t, s') && t < |s'.pcs| && s'.pcs[t].Prune? && !s'.pcs[t].prune.PruneLock?
    ensures Fewer(s'.pcs[t].rec, s'.pcs[t].prune, s.pcs[t].rec, s.pcs[t].prune)
  {
    FindsHere(s, t);
    var sh, rec, at := s.sh, s.pcs[t].rec, s.pcs[t].prune;
    if sh.head == At(at.e) {
      var sh' := Taken(sh, at.e, t, at.nx, Cut(sh.stack, Idx(rec)));
      s' := Goes(s0, s, t, sh', Prune(rec, Uncount(at.n, at.e, at.nx, Nil)));
    } else {
      s' := Goes(s0, s, t, sh, Prune(rec, FindHead(at.n, at.e, at.nx)));
    }
  }

  /** The search for the node above comes nearer with each link. */
  lemma Searches(s0: State, s: State, t: nat) returns (s': State)
    requires Inv(s) && t < |s.pcs| && Alone(s0, t, s) && s.pcs[t].Prune?
    requires s.pcs[t].prune.FindHead? || s.pcs[t].prune.FindNext?
    ensures Inv(s') && Alone(s0, t, s') && t < |s'.pcs| && s'.pcs[t].Prune? && !s'.pcs[t].prune.PruneLock?
    ensures Fewer(s'.pcs[t].rec, s'.pcs[t].prune, s.pcs[t].rec, s.pcs[t].prune)
  {
    FindsHere(s, t);
    var sh, rec, at := s.sh, s.pcs[t].rec, s.pcs[t].prune;
    if at.FindHead? {
      s' := Goes(s0, s, t, sh, Prune(rec, FindNext(at.n, at.e, at.nx, sh.head.id, |sh.stack| - 1)));
    } else if sh.next[at.p] == At(at.e) {
      s' := Goes(s0, s, t, sh, Prune(rec, Splice(at.n, at.e, at.nx, at.p)));
    } else {
      s' := Goes(s0, s, t, sh, Prune(rec, FindNext(at.n, at.e, at.nx, sh.next[at.p].id, at.d - 1)));
    }
  }

  lemma Splices(s0: State, s: State, t: nat) returns (s': State)
    requires Inv(s) && t < |s.pcs| && Alone(s0, t, s) && s.pcs[t].Prune?
    requires s.pcs[t].prune.Splice?
    ensures Inv(s') && Alone(s0, t, s') && t < |s'.pcs| && s'.pcs[t].Prune? && !s'.pcs[t].prune.PruneLock?
    ensures Fewer(s'.pcs[t].rec, s'.pcs[t].prune, s.pcs[t].rec, s.pcs[t].prune)
  {
    FindsHere(s, t);
    var sh, rec, at := s.sh, s.pcs[t].rec, s.pcs[t].prune;
    var sh' := Taken(sh, at.e, t, sh.head, Cut(sh.stack, Idx(rec))).(next := sh.next[at.pred := at.nx]);
    s' := Goes(s0, s, t, sh', Prune(rec, Uncount(at.n, at.e, at.nx, At(at.pred))));
  }

  lemma {:induction false} PruneAlone(s0: State, s: State, t: nat, answers: nat -> bool) returns (s': State)
    requires Inv(s) && t < |s.pcs| && Alone(s0, t, s) && s.pcs[t].Prune?
    requires s.pcs[t].prune.PruneLock? ==> s.sh.mx.Free?
    ensures Alone(s0, t, s') && t < |s'.pcs| && s'.pcs[t].Prune? && s'.pcs[t].prune.Pruned?
    decreases Stage(s.pcs[t].prune), ToGo(s.pcs[t].rec, s.pcs[t].prune), Rank(s.pcs[t].prune), Depth(s.pcs[t].prune)
  {
    var at := s.pcs[t].prune;
    if at.Pruned? {
      s' := s;
    } else {
      var s1;
      if Stage(at) >= 2 {
        s1 := CountsOn(s0, s, t);
      } else if at.Visit? {
        s1 := Visits(s0, s, t);
      } else if at.Ask? {
        s1 := Asks(s0, s, t, answers);
      } else if at.Uncount? {
        s1 := Uncounts(s0, s, t);
      } else if at.TryHead? {
        s1 := TriesHead(s0, s, t);
      } else if at.Splice? {
        s1 := Splices(s0, s, t);
      } else {
        s1 := Searches(s0, s, t);
      }
      s' := PruneAlone(s0, s1, t, answers);
    }
  }

  /** In every run, a call that goes on alone returns, wherever the others stopped, unless it waits for
      popMx: a PushNode with its node on top of what was there, a PopBack with the top, or the node it
      had taken, and a Prune whatever drop answers. */
  lemma CallFinishes(run: seq<State>, i: nat, t: nat, answers: nat -> bool)
    requires IsRun(Init, Next, run) && i < |run| && t < |run[i].pcs| && !Returned(run[i].pcs[t])
    requires run[i].sh.mx.Free? || run[i].sh.mx == HeldBy(t) || run[i].pcs[t].Push?
    ensures exists s' ::
      && Alone(run[i], t, s') && t < |s'.pcs| && Returned(s'.pcs[t])
      && (run[i].pcs[t].Push? ==> s'.sh.stack == run[i].sh.stack + [run[i].pcs[t].e])
      && (run[i].pcs[t].Pop? ==>
            s'.pcs[t] == Pop(Popped(if run[i].pcs[t].pop.PopCount? then At(run[i].pcs[t].pop.h) else Top(run[i].sh))))
  {
    InvAt(run, i);
    var s := run[i];
    ReachableInit(From(s), OnlyBy(t), s);
    FindsHere(s, t);
    var s';
    if s.pcs[t].Push? {
      s' := PushAlone(s, s, t);
    } else if s.pcs[t].Pop? {
      s' := PopAlone(s, s, t);
    } else {
      s' := PruneAlone(s, s, t, answers);
    }
  }
}
