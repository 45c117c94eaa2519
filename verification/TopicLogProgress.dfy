/** The log's Append and Dequeue make progress: a call that goes on alone returns, wherever the others
    stopped. */
module TopicLogProgress {
  import opened Runs
  import opened TopicLog
  import opened TopicLogProofs
  import opened TopicLogAnswers

  ghost function OnlyBy(t: nat): (State, State) -> bool
  {
    (s, s') => Moves(s, t, s')
  }

  /** t alone gets from s to s'. */
  ghost predicate Alone(s: State, t: nat, s': State)
  {
    Reachable(From(s), OnlyBy(t), s')
  }

  lemma AloneStep(s0: State, s: State, t: nat, s': State)
    requires Alone(s0, t, s) && Moves(s, t, s')
    ensures Alone(s0, t, s')
  {
    assert OnlyBy(t)(s, s');
    ReachableNext(From(s0), OnlyBy(t), s, s');
  }

  /** The state after t's own step. */
  function Stepped(s: State, t: nat, sh': Shared, pc': Pc): State
    requires t < |s.pcs|
  {
    State(sh', s.pcs[t := pc'])
  }

  lemma Goes(s0: State, s: State, t: nat, sh': Shared, pc': Pc) returns (s': State)
    requires Inv(s) && t < |s.pcs| && Alone(s0, t, s) && GoStep(s.sh, t, s.pcs[t], sh', pc')
    ensures Inv(s') && s' == Stepped(s, t, sh', pc') && Alone(s0, t, s')
  {
    s' := Stepped(s, t, sh', pc');
    assert Moves(s, t, s');
    AloneStep(s0, s, t, s');
    MoveKeeps(s, t, s');
  }

  /** An Append gives way to another one's linking at most LINK_SPINS times. */
  predicate SpinsOk(at: AppendAt)
  {
    match at
    case Seek(_, _, _, spins) => spins <= LINK_SPINS
    case TryLink(_, _, _, spins) => spins <= LINK_SPINS
    case Link(_, _, _, spins) => spins <= LINK_SPINS
    case Advance(_, _, _, _, spins) => spins <= LINK_SPINS
    case _ => true
  }

  ghost predicate SpinsInv(s: State)
  {
    forall t :: 0 <= t < |s.pcs| && s.pcs[t].App? ==> SpinsOk(s.pcs[t].app)
  }

  lemma SpinsMove(sh: Shared, t: nat, pc: Pc, sh': Shared, pc': Pc)
    requires GoStep(sh, t, pc, sh', pc') && pc'.App? && (pc.App? ==> SpinsOk(pc.app))
    ensures SpinsOk(pc'.app)
  {
    if pc.App? && AdmitStep(sh, t, pc.app, sh', pc'.app) {
    } else if pc.App? {
      assert StoreStep(sh, t, pc.item, pc.app, sh', pc'.app);
    }
  }

  lemma SpinsRun(run: seq<State>)
    requires IsRun(Init, Next, run)
    ensures forall i :: 0 <= i < |run| ==> SpinsInv(run[i])
  {
    forall s, s' | SpinsInv(s) && Next(s, s') ensures SpinsInv(s') {
      if t: nat :| Moves(s, t, s') {
        if s'.pcs[t].App? { SpinsMove(s.sh, t, s.pcs[t], s'.sh, s'.pcs[t]); }
      }
    }
    Invariance(Init, Next, SpinsInv, run);
  }

  lemma PublishFinishes(s0: State, s: State, t: nat) returns (s': State)
    requires Inv(s) && t < |s.pcs| && Alone(s0, t, s) && s.pcs[t].App? && s.pcs[t].app.Publish?
    ensures Alone(s0, t, s') && t < |s'.pcs| && s'.pcs[t].App? && s'.pcs[t].app.Appended?
  {
    var sh, at := s.sh, s.pcs[t].app;
    assert Local(sh, t, s.pcs[t]);
    var sh' := sh.(ready := sh.ready + {Cell(at.t, at.o - sh.chunks[at.t].base)},
                   mx := if sh.limit != 0 then Free else sh.mx);
    s' := Goes(s0, s, t, sh', App(s.pcs[t].item, Appended(at.n, at.o)));
  }

  lemma WriteFinishes(s0: State, s: State, t: nat) returns (s': State)
    requires Inv(s) && t < |s.pcs| && Alone(s0, t, s) && s.pcs[t].App? && s.pcs[t].app.Write?
    ensures Alone(s0, t, s') && t < |s'.pcs| && s'.pcs[t].App? && s'.pcs[t].app.Appended?
  {
    var sh, at, item := s.sh, s.pcs[t].app, s.pcs[t].item;
    assert Local(sh, t, s.pcs[t]);
    var sh' := sh.(cells := sh.cells[Cell(at.t, at.o - sh.chunks[at.t].base) := item]);
    var s1 := Goes(s0, s, t, sh', App(item, Publish(at.n, at.o, at.t)));
    s' := PublishFinishes(s0, s1, t);
  }

  lemma Advances(s0: State, s: State, t: nat) returns (s': State)
    requires Inv(s) && t < |s.pcs| && Alone(s0, t, s) && s.pcs[t].App? && s.pcs[t].app.Advance?
    ensures Inv(s') && Alone(s0, t, s') && t < |s'.pcs| && s'.pcs[t].App?
    ensures s'.pcs[t].app == Seek(s.pcs[t].app.n, s.pcs[t].app.o, s.pcs[t].app.next, s.pcs[t].app.spins)
  {
    var sh, at := s.sh, s.pcs[t].app;
    assert Local(sh, t, s.pcs[t]);
    var sh' := if sh.tail == At(at.t) then sh.(tail := At(at.next)) else sh;
    s' := Goes(s0, s, t, sh', App(s.pcs[t].item, Seek(at.n, at.o, at.next, at.spins)));
  }

  lemma Links(s0: State, s: State, t: nat) returns (s': State)
    requires Inv(s) && t < |s.pcs| && Alone(s0, t, s) && s.pcs[t].App? && s.pcs[t].app.Link?
    ensures Inv(s') && Alone(s0, t, s') && t < |s'.pcs| && s'.pcs[t].App?
    ensures s'.pcs[t].app == Seek(s.pcs[t].app.n, s.pcs[t].app.o, s.pcs[t].app.t, s.pcs[t].app.spins)
    ensures s.pcs[t].app.t < |s'.sh.chunks| && s'.sh.chunks[s.pcs[t].app.t].next.At?
  {
    var sh, at := s.sh, s.pcs[t].app;
    assert Local(sh, t, s.pcs[t]);
    var chunk := sh.chunks[at.t];
    var sh' := if chunk.next.At? then sh
               else sh.(chunks := sh.chunks[at.t := chunk.(next := At(|sh.chunks|))] + [Chunk(End(chunk), Nil, false)]);
    s' := Goes(s0, s, t, sh', App(s.pcs[t].item, Seek(at.n, at.o, at.t, at.spins)));
  }

  /** At the end of the chain: it spins or links, and is back with fewer spins left or a chunk more. */
  lemma TriesLink(s0: State, s: State, t: nat) returns (s': State)
    requires Inv(s) && t < |s.pcs| && Alone(s0, t, s) && s.pcs[t].App? && SpinsOk(s.pcs[t].app)
    requires s.pcs[t].app.TryLink?
    ensures Inv(s') && Alone(s0, t, s') && t < |s'.pcs| && s'.pcs[t].App? && SpinsOk(s'.pcs[t].app)
    ensures s'.pcs[t].app.Seek? && s'.pcs[t].app.o == s.pcs[t].app.o && s'.pcs[t].app.t == s.pcs[t].app.t
    ensures s.pcs[t].app.t < |s'.sh.chunks|
    ensures s'.sh.chunks[s.pcs[t].app.t].next.At? || s'.pcs[t].app.spins == s.pcs[t].app.spins + 1
  {
    var sh, at, item := s.sh, s.pcs[t].app, s.pcs[t].item;
    assert Local(sh, t, s.pcs[t]);
    var sh' := sh.(chunks := sh.chunks[at.t := sh.chunks[at.t].(linking := true)]);
    if !sh.chunks[at.t].linking || at.spins == LINK_SPINS {
      var s1 := Goes(s0, s, t, sh', App(item, Link(at.n, at.o, at.t, at.spins)));
      s' := Links(s0, s1, t);
    } else {
      s' := Goes(s0, s, t, sh', App(item, Seek(at.n, at.o, at.t, at.spins + 1)));
    }
  }

  /** From the claim on: every chunk on the way is there or gets linked, so the slot is reached. */
  lemma {:induction false} SeekFinishes(s0: State, s: State, t: nat) returns (s': State)
    requires Inv(s) && t < |s.pcs| && Alone(s0, t, s) && s.pcs[t].App? && SpinsOk(s.pcs[t].app)
    requires s.pcs[t].app.Seek?
    ensures Alone(s0, t, s') && t < |s'.pcs| && s'.pcs[t].App? && s'.pcs[t].app.Appended?
    decreases s.pcs[t].app.o - s.pcs[t].app.t * CAPACITY, ToLink(s.sh, s.pcs[t].app.t, s.pcs[t].app.spins)
  {
    var sh, item := s.sh, s.pcs[t].item;
    assert Local(sh, t, s.pcs[t]);
    var n, o, ch, spins := s.pcs[t].app.n, s.pcs[t].app.o, s.pcs[t].app.t, s.pcs[t].app.spins;
    if o < End(sh.chunks[ch]) {
      var s1 := Goes(s0, s, t, sh, App(item, Write(n, o, ch)));
      s' := WriteFinishes(s0, s1, t);
    } else if sh.chunks[ch].next.Nil? {
      var s1 := Goes(s0, s, t, sh, App(item, TryLink(n, o, ch, spins)));
      var s2 := TriesLink(s0, s1, t);
      s' := SeekFinishes(s0, s2, t);
    } else {
      var s1 := Goes(s0, s, t, sh, App(item, Advance(n, o, ch, sh.chunks[ch].next.id, spins)));
      var s2 := Advances(s0, s1, t);
      s' := SeekFinishes(s0, s2, t);
    }
  }

  /** How often it may still give way before the next chunk is linked. */
  function ToLink(sh: Shared, ch: nat, spins: nat): int
  {
    if ch < |sh.chunks| && sh.chunks[ch].next.Nil? then 1 + LINK_SPINS - spins else 0
  }

  lemma StoreFinishes(s0: State, s: State, t: nat) returns (s': State)
    requires Inv(s) && t < |s.pcs| && Alone(s0, t, s) && s.pcs[t].App? && SpinsOk(s.pcs[t].app)
    requires HasCount(s.pcs[t].app) && !s.pcs[t].app.LoadClosed? && !s.pcs[t].app.LoadTail? && !Returned(s.pcs[t])
    ensures Alone(s0, t, s') && t < |s'.pcs| && s'.pcs[t].App? && s'.pcs[t].app.Appended?
  {
    match s.pcs[t].app
    case Claim(n, ch) =>
      var sh, item := s.sh, s.pcs[t].item;
      var sh' := sh.(head := sh.head + 1, items := sh.items + [item], owners := sh.owners + [t]);
      var s1 := Goes(s0, s, t, sh', App(item, Seek(n, sh.head, ch, 0)));
      s' := SeekFinishes(s0, s1, t);
    case Seek(_, _, _, _) => s' := SeekFinishes(s0, s, t);
    case TryLink(_, _, _, _) =>
      var s1 := TriesLink(s0, s, t);
      s' := SeekFinishes(s0, s1, t);
    case Link(_, _, _, _) =>
      var s1 := Links(s0, s, t);
      s' := SeekFinishes(s0, s1, t);
    case Advance(_, _, _, _, _) =>
      var s1 := Advances(s0, s, t);
      s' := SeekFinishes(s0, s1, t);
    case Write(_, _, _) => s' := WriteFinishes(s0, s, t);
    case Publish(_, _, _) => s' := PublishFinishes(s0, s, t);
  }

  /** From the read of nOpen on. */
  lemma OpenFinishes(s0: State, s: State, t: nat) returns (s': State)
    requires Inv(s) && t < |s.pcs| && Alone(s0, t, s) && s.pcs[t].App? && s.pcs[t].app.LoadOpen?
    ensures Alone(s0, t, s') && t < |s'.pcs| && s'.pcs[t].App? && Returned(s'.pcs[t])
  {
    var s1 := Goes(s0, s, t, s.sh, App(s.pcs[t].item, LoadClosed(s.sh.nOpen)));
    s' := ClosedFinishes(s0, s1, t);
  }

  lemma ClosedFinishes(s0: State, s: State, t: nat) returns (s': State)
    requires Inv(s) && t < |s.pcs| && Alone(s0, t, s) && s.pcs[t].App? && s.pcs[t].app.LoadClosed?
    ensures Alone(s0, t, s') && t < |s'.pcs| && s'.pcs[t].App? && Returned(s'.pcs[t])
  {
    var sh, item, n := s.sh, s.pcs[t].item, s.pcs[t].app.n;
    if sh.closed || n == 0 {
      s' := Goes(s0, s, t, if sh.limit != 0 then sh.(mx := Free) else sh, App(item, Refused));
    } else {
      var s1 := Goes(s0, s, t, sh, App(item, LoadTail(n)));
      s' := TailFinishes(s0, s1, t);
    }
  }

  lemma TailFinishes(s0: State, s: State, t: nat) returns (s': State)
    requires Inv(s) && t < |s.pcs| && Alone(s0, t, s) && s.pcs[t].App? && s.pcs[t].app.LoadTail?
    ensures Alone(s0, t, s') && t < |s'.pcs| && s'.pcs[t].App? && Returned(s'.pcs[t])
  {
    assert Local(s.sh, t, s.pcs[t]);
    var s1 := Goes(s0, s, t, s.sh, App(s.pcs[t].item, Claim(s.pcs[t].app.n, s.sh.tail.id)));
    s' := StoreFinishes(s0, s1, t);
  }

  /** The check of a bounded Append. */
  lemma {:induction false} FullFinishes(s0: State, s: State, t: nat) returns (s': State)
    requires Inv(s) && t < |s.pcs| && Alone(s0, t, s) && s.pcs[t].App?
    requires s.pcs[t].app.FullScan? || s.pcs[t].app.FullHead?
    ensures Alone(s0, t, s') && t < |s'.pcs| && s'.pcs[t].App? && Returned(s'.pcs[t])
    decreases if s.pcs[t].app.FullScan? then 1 + |s.sh.open| - s.pcs[t].app.i else 0
  {
    var sh, item, at := s.sh, s.pcs[t].item, s.pcs[t].app;
    assert Local(sh, t, s.pcs[t]);
    if at.FullScan? {
      var at' := if at.i < |sh.open| then FullScan(at.i + 1, SlowestOf(sh, at)) else FullHead(at.slowest);
      var s1 := Goes(s0, s, t, sh, App(item, at'));
      s' := FullFinishes(s0, s1, t);
    } else if sh.head - at.slowest >= sh.limit {
      s' := Goes(s0, s, t, sh.(mx := Free), App(item, Refused));
    } else {
      var s1 := Goes(s0, s, t, sh, App(item, LoadOpen));
      s' := OpenFinishes(s0, s1, t);
    }
  }

  function SlowestOf(sh: Shared, at: AppendAt): nat
    requires at.FullScan? && at.i < |sh.open| && sh.open[at.i] < |sh.cursors|
  {
    var offset := sh.cursors[sh.open[at.i]].offset;
    if at.i > 0 && at.slowest <= offset then at.slowest else offset
  }

  lemma LockedFinishes(s0: State, s: State, t: nat) returns (s': State)
    requires Inv(s) && t < |s.pcs| && Alone(s0, t, s) && s.pcs[t].App?
    requires s.pcs[t].app.FullCheck? || (s.pcs[t].app.TakeLock? && s.sh.mx.Free?)
    ensures Alone(s0, t, s') && t < |s'.pcs| && s'.pcs[t].App? && Returned(s'.pcs[t])
  {
    var item, s1 := s.pcs[t].item, s;
    if s.pcs[t].app.TakeLock? { s1 := Goes(s0, s, t, s.sh.(mx := HeldBy(t)), App(item, FullCheck)); }
    if s1.sh.closed || s1.sh.open == [] {
      s' := Goes(s0, s1, t, s1.sh.(mx := Free), App(item, Refused));
    } else {
      var s2 := Goes(s0, s1, t, s1.sh, App(item, FullScan(0, 0)));
      s' := FullFinishes(s0, s2, t);
    }
  }

  lemma AdmitFinishes(s0: State, s: State, t: nat) returns (s': State)
    requires Inv(s) && t < |s.pcs| && Alone(s0, t, s) && s.pcs[t].App? && !Returned(s.pcs[t])
    requires !HasCount(s.pcs[t].app) && (s.sh.limit == 0 || s.sh.mx.Free? || s.sh.mx == HeldBy(t))
    ensures Alone(s0, t, s') && t < |s'.pcs| && s'.pcs[t].App? && Returned(s'.pcs[t])
  {
    assert Local(s.sh, t, s.pcs[t]);
    var at, item := s.pcs[t].app, s.pcs[t].item;
    if at.Limit? {
      var s1 := Goes(s0, s, t, s.sh, App(item, if s.sh.limit != 0 then TakeLock else LoadOpen));
      if s.sh.limit != 0 { s' := LockedFinishes(s0, s1, t); } else { s' := OpenFinishes(s0, s1, t); }
    } else if at.TakeLock? || at.FullCheck? {
      s' := LockedFinishes(s0, s, t);
    } else if at.LoadOpen? {
      s' := OpenFinishes(s0, s, t);
    } else {
      s' := FullFinishes(s0, s, t);
    }
  }

  /** In every run, an Append that goes on alone returns, wherever the others stopped: a linking one
      that is descheduled holds nobody up. Only the lock of a bounded log can keep it waiting. */
  lemma AppendFinishes(run: seq<State>, i: nat, t: nat)
    requires IsRun(Init, Next, run) && i < |run| && t < |run[i].pcs| && run[i].pcs[t].App? && !Returned(run[i].pcs[t])
    requires run[i].sh.limit == 0 || run[i].sh.mx.Free? || run[i].sh.mx == HeldBy(t)
    ensures exists s' :: Alone(run[i], t, s') && t < |s'.pcs| && s'.pcs[t].App? && Returned(s'.pcs[t])
  {
    InvAt(run, i);
    SpinsRun(run);
    var s, at := run[i], run[i].pcs[t].app;
    ReachableInit(From(s), OnlyBy(t), s);
    assert SpinsInv(s);
    var s';
    if !HasCount(at) {
      s' := AdmitFinishes(s, s, t);
    } else if at.LoadClosed? {
      s' := ClosedFinishes(s, s, t);
    } else if at.LoadTail? {
      s' := TailFinishes(s, s, t);
    } else {
      s' := StoreFinishes(s, s, t);
    }
  }

  // ---------------------------------------------------------------- Dequeue alone

  /** A Dequeue with its cursor's lock that goes on alone returns the next payload if it is published,
      and nothing if the cursor is closed or nothing more is claimed. */
  lemma {:induction false} LookFinishes(s0: State, s: State, t: nat) returns (s': State)
    requires Inv(s) && t < |s.pcs| && Alone(s0, t, s) && s.pcs[t].Deq? && s.pcs[t].c < |s.sh.cursors|
    requires s.pcs[t].deq.Look? && Settled(s.sh, s.sh.cursors[s.pcs[t].c])
    ensures Alone(s0, t, s') && t < |s'.pcs| && s'.pcs[t].Deq?
    ensures s'.pcs[t].deq == Answer(s.sh, s.sh.cursors[s.pcs[t].c])
    decreases s.sh.cursors[s.pcs[t].c].idx
  {
    var sh, c, k := s.sh, s.pcs[t].c, s.sh.cursors[s.pcs[t].c];
    assert Local(sh, t, s.pcs[t]) && CursorOk(sh, k);
    if k.chunk.Nil? {
      s' := Goes(s0, s, t, sh.(cursors := sh.cursors[c := k.(mx := Free)]), Deq(c, Empty));
    } else if k.idx >= CAPACITY && sh.chunks[k.chunk.id].next.At? {
      var s1 := WalksOn(s0, s, t);
      s' := LookFinishes(s0, s1, t);
    } else if k.offset < sh.head {
      s' := TakesNext(s0, s, t);
    } else {
      s' := FindsNone(s0, s, t);
    }
  }

  /** The next payload is published, or there is none: the cursor is closed or has read all. */
  predicate Settled(sh: Shared, k: Cursor)
  {
    k.chunk.Nil? || k.offset >= sh.head || (k.offset < |sh.items| && CellOf(k.offset) in sh.ready)
  }

  function Answer(sh: Shared, k: Cursor): DequeueAt
  {
    if k.chunk.Nil? || k.offset >= sh.head || k.offset >= |sh.items| then Empty else Got(sh.items[k.offset])
  }

  /** No slot at the head is ready. */
  lemma NotReady(sh: Shared, k: Cursor)
    requires Global(sh) && CursorOk(sh, k) && k.chunk.At? && k.offset >= sh.head
    ensures Cell(k.chunk.id, k.idx) !in sh.ready
  {
    assert OffsetOf(Cell(k.chunk.id, k.idx)) == k.offset;
  }

  lemma TakesNext(s0: State, s: State, t: nat) returns (s': State)
    requires Inv(s) && t < |s.pcs| && Alone(s0, t, s) && s.pcs[t].Deq? && s.pcs[t].c < |s.sh.cursors|
    requires var k := s.sh.cursors[s.pcs[t].c];
      && s.pcs[t].deq.Look? && k.chunk.At? && k.offset < s.sh.head == |s.sh.items| && CellOf(k.offset) in s.sh.ready
      && k.chunk.id < |s.sh.chunks| && (k.idx < CAPACITY || s.sh.chunks[k.chunk.id].next.Nil?)
    ensures Alone(s0, t, s') && t < |s'.pcs| && s'.pcs[t].Deq?
    ensures s'.pcs[t].deq == Got(s.sh.items[s.sh.cursors[s.pcs[t].c].offset])
  {
    var sh, c, k := s.sh, s.pcs[t].c, s.sh.cursors[s.pcs[t].c];
    assert Local(sh, t, s.pcs[t]) && CursorOk(sh, k);
    var cell := CellOf(k.offset);
    assert OffsetOf(cell) == k.offset;
    assert cell == Cell(k.chunk.id, k.idx);
    var k1 := k.(idx := k.idx + 1, offset := k.offset + 1, mx := Free, taken := k.taken + [sh.cells[cell]]);
    s' := Goes(s0, s, t, ClearIf(sh, cell, k.offset).(cursors := sh.cursors[c := k1]), Deq(c, Got(sh.cells[cell])));
  }

  lemma WalksOn(s0: State, s: State, t: nat) returns (s': State)
    requires Inv(s) && t < |s.pcs| && Alone(s0, t, s) && s.pcs[t].Deq? && s.pcs[t].c < |s.sh.cursors|
    requires var k := s.sh.cursors[s.pcs[t].c];
      && s.pcs[t].deq.Look? && k.chunk.At? && k.chunk.id < |s.sh.chunks|
      && k.idx >= CAPACITY && s.sh.chunks[k.chunk.id].next.At?
    ensures Inv(s') && Alone(s0, t, s') && s'.pcs == s.pcs && |s'.sh.cursors| == |s.sh.cursors|
    ensures s'.sh == s.sh.(cursors := s'.sh.cursors) && s'.sh.cursors[s.pcs[t].c].chunk.At?
    ensures s'.sh.cursors[s.pcs[t].c].idx == s.sh.cursors[s.pcs[t].c].idx - CAPACITY
    ensures s'.sh.cursors[s.pcs[t].c].offset == s.sh.cursors[s.pcs[t].c].offset
  {
    var sh, c, k := s.sh, s.pcs[t].c, s.sh.cursors[s.pcs[t].c];
    var k1 := k.(chunk := sh.chunks[k.chunk.id].next, idx := k.idx - CAPACITY);
    s' := Goes(s0, s, t, sh.(cursors := sh.cursors[c := k1]), s.pcs[t]);
  }

  lemma FindsNone(s0: State, s: State, t: nat) returns (s': State)
    requires Inv(s) && t < |s.pcs| && Alone(s0, t, s) && s.pcs[t].Deq? && s.pcs[t].c < |s.sh.cursors|
    requires var k := s.sh.cursors[s.pcs[t].c];
      && s.pcs[t].deq.Look? && k.chunk.At? && k.chunk.id < |s.sh.chunks| && k.offset >= s.sh.head
      && (k.idx < CAPACITY || s.sh.chunks[k.chunk.id].next.Nil?)
    ensures Alone(s0, t, s') && t < |s'.pcs| && s'.pcs[t] == Deq(s.pcs[t].c, Empty)
  {
    var sh, c, k := s.sh, s.pcs[t].c, s.sh.cursors[s.pcs[t].c];
    assert CursorOk(sh, k);
    NotReady(sh, k);
    var s1 := Goes(s0, s, t, sh, Deq(c, AskClaimed));
    s' := Goes(s0, s1, t, sh.(cursors := sh.cursors[c := k.(mx := Free)]), Deq(c, Empty));
  }

  /** In every run, a Dequeue that goes on alone returns the next payload if it is published, and nothing
      if its cursor is closed or nothing more is claimed. */
  lemma DequeueFinishes(run: seq<State>, i: nat, t: nat)
    requires IsRun(Init, Next, run) && i < |run| && t < |run[i].pcs| && run[i].pcs[t].Deq?
    requires run[i].pcs[t].deq.DequeueLock? && run[i].pcs[t].c < |run[i].sh.cursors|
    requires run[i].sh.cursors[run[i].pcs[t].c].mx.Free? && Settled(run[i].sh, run[i].sh.cursors[run[i].pcs[t].c])
    ensures exists s' ::
      && Alone(run[i], t, s') && t < |s'.pcs| && s'.pcs[t].Deq?
      && s'.pcs[t].deq == Answer(run[i].sh, run[i].sh.cursors[run[i].pcs[t].c])
  {
    InvAt(run, i);
    var s, c := run[i], run[i].pcs[t].c;
    ReachableInit(From(s), OnlyBy(t), s);
    var k := s.sh.cursors[c];
    var s1 := Goes(s, s, t, s.sh.(cursors := s.sh.cursors[c := k.(mx := HeldBy(t))]), Deq(c, Look));
    var s' := LookFinishes(s, s1, t);
  }
}
