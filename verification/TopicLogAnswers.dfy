/** What the log's calls answer: when an Append is refused, what it counts, and where NewCursor, Values,
    Purge and Close leave a cursor. Each theorem speaks of one whole call, from its first step to its
    return, with any number of other calls in between. */
module TopicLogAnswers {
  import opened Runs
  import opened TopicLog
  import opened TopicLogProofs

  /** From i to j goroutine t is in one call, which returns at j if at all. */
  ghost predicate OneCall(run: seq<State>, i: nat, j: nat, t: nat)
  {
    && i <= j < |run| && t < |run[i].pcs| && t < |run[j].pcs|
    && forall k :: i <= k < j ==> InCall(run, k, t)
  }

  ghost predicate InCall(run: seq<State>, k: nat, t: nat)
  {
    k < |run| && t < |run[k].pcs| && !Returned(run[k].pcs[t])
  }

  lemma OwnStep(s: State, s': State, t: nat)
    requires Next(s, s') && t < |s.pcs| && !Returned(s.pcs[t])
    ensures t < |s'.pcs| && (s'.pcs[t] == s.pcs[t] || Moves(s, t, s'))
  {
  }

  // ---------------------------------------------------------------- nOpen is the length of open

  /** A NewCursor has listed its cursor and not counted it. */
  predicate Uncounted(s: State)
  {
    s.sh.mx.HeldBy? && s.sh.mx.owner < |s.pcs| && s.pcs[s.sh.mx.owner] == Open(OpenCount)
  }

  ghost predicate CountInv(s: State)
  {
    Inv(s) && |s.sh.open| == s.sh.nOpen + (if Uncounted(s) then 1 else 0)
  }

  lemma CountMoves(s: State, t: nat, s': State)
    requires CountInv(s) && Moves(s, t, s')
    ensures CountInv(s')
  {
    MoveKeeps(s, t, s');
    assert Local(s.sh, t, s.pcs[t]) && Local(s'.sh, t, s'.pcs[t]);
    if s.pcs[t].Open? {
      OpenCounts(s.sh, t, s.pcs[t], s'.sh, s'.pcs[t]);
    } else if s.pcs[t].Close? {
      CloseCounts(s.sh, t, s.pcs[t], s'.sh, s'.pcs[t]);
    } else {
      RestCounts(s.sh, t, s.pcs[t], s'.sh, s'.pcs[t]);
    }
    assert s.sh.mx.HeldBy? && s.sh.mx.owner != t && s.sh.mx.owner < |s.pcs| ==>
      s'.pcs[s.sh.mx.owner] == s.pcs[s.sh.mx.owner];
  }

  lemma OpenCounts(sh: Shared, t: nat, pc: Pc, sh': Shared, pc': Pc)
    requires OpenStep(sh, t, pc, sh', pc')
    ensures |sh'.open| - sh'.nOpen - (if pc' == Open(OpenCount) then 1 else 0)
         == |sh.open| - sh.nOpen - (if pc == Open(OpenCount) then 1 else 0)
    ensures sh'.mx == sh.mx || (sh.mx.Free? && sh'.mx == HeldBy(t)) || (sh'.mx.Free? && pc == Open(OpenUnlock))
    ensures sh'.mx != sh.mx ==> pc' != Open(OpenCount) && pc != Open(OpenCount)
  {
  }

  lemma CloseCounts(sh: Shared, t: nat, pc: Pc, sh': Shared, pc': Pc)
    requires CloseStep(sh, t, pc, sh', pc')
    ensures !pc'.Open? && (pc.closing.CloseList? ==> sh'.mx.Free? && |sh'.open| == sh'.nOpen)
    ensures !pc.closing.CloseList? ==> sh'.open == sh.open && sh'.nOpen == sh.nOpen
    ensures !pc.closing.CloseList? ==> sh'.mx == sh.mx || (sh.mx.Free? && sh'.mx == HeldBy(t))
  {
  }

  lemma RestCounts(sh: Shared, t: nat, pc: Pc, sh': Shared, pc': Pc)
    requires Local(sh, t, pc) && GoStep(sh, t, pc, sh', pc') && !pc.Open? && !pc.Close?
    ensures !pc'.Open? && sh'.open == sh.open && sh'.nOpen == sh.nOpen
    ensures sh'.mx == sh.mx || (sh.mx.Free? && sh'.mx == HeldBy(t)) || (sh.mx == HeldBy(t) && sh'.mx.Free?)
  {
    QuietMoves(sh, t, pc, sh', pc');
    if pc.App? { AppendMx(sh, t, pc, sh', pc'); }
  }

  lemma AppendMx(sh: Shared, t: nat, pc: Pc, sh': Shared, pc': Pc)
    requires Local(sh, t, pc) && AppendStep(sh, t, pc, sh', pc')
    ensures sh'.mx == sh.mx || (sh.mx.Free? && sh'.mx == HeldBy(t)) || (sh.mx == HeldBy(t) && sh'.mx.Free?)
  {
  }

  lemma CountNext(s: State, s': State)
    requires CountInv(s) && Next(s, s')
    ensures CountInv(s')
  {
    NextKeeps(s, s');
    if t: nat :| Moves(s, t, s') {
      CountMoves(s, t, s');
    } else if t: nat :| Calls(s, t, s') {
      assert Local(s.sh, t, s.pcs[t]) && !InLog(s.sh.limit, s.pcs[t]);
      assert s.sh.mx.HeldBy? ==> s.sh.mx.owner != t;
    }
  }

  lemma CountRun(run: seq<State>)
    requires IsRun(Init, Next, run)
    ensures forall i :: 0 <= i < |run| ==> CountInv(run[i])
  {
    forall s, s' | CountInv(s) && Next(s, s') ensures CountInv(s') {
      CountNext(s, s');
    }
    Invariance(Init, Next, CountInv, run);
  }

  // ---------------------------------------------------------------- Append

  /** No cursor is open but one whose NewCursor has still to count it. */
  ghost predicate NoneOpen(s: State)
  {
    s.sh.open == [] || (|s.sh.open| == 1 && exists u :: 0 <= u < |s.pcs| && s.pcs[u] == Open(OpenCount))
  }

  /** The log has a limit, and this open cursor has that many unread items. */
  predicate Full(sh: Shared, c: nat)
  {
    c in sh.open && c < |sh.cursors| && 0 < sh.limit <= sh.head - sh.cursors[c].offset
  }

  /** A reason for an Append to store nothing. */
  ghost predicate Refusable(s: State)
  {
    s.sh.closed || NoneOpen(s) || exists c: nat :: Full(s.sh, c)
  }

  /** With this head and limit, an open cursor was at off. */
  ghost predicate SawOffset(s: State, sh: Shared, off: nat)
  {
    && s.sh.head == sh.head && s.sh.limit == sh.limit
    && exists c: nat :: c in s.sh.open && c < |s.sh.cursors| && s.sh.cursors[c].offset == off
  }

  predicate CountedAt(s: State, n: nat)
  {
    s.sh.nOpen == n
  }

  /** The number of cursors an Append has read. */
  function CountOf(at: AppendAt): nat
  {
    match at
    case LoadClosed(n) => n
    case LoadTail(n) => n
    case Claim(n, _) => n
    case Seek(n, _, _, _) => n
    case TryLink(n, _, _, _) => n
    case Link(n, _, _, _) => n
    case Advance(n, _, _, _, _) => n
    case Write(n, _, _) => n
    case Publish(n, _, _) => n
    case Appended(n, _) => n
    case _ => 0
  }

  predicate HasCount(at: AppendAt)
  {
    !(at.Limit? || at.TakeLock? || at.FullCheck? || at.FullScan? || at.FullHead? || at.LoadOpen? || at.Refused?)
  }

  /** What the Append has seen since i. */
  ghost predicate Why(run: seq<State>, i: nat, j: nat, at: AppendAt)
    requires i <= j < |run|
  {
    && (at.FullScan? && at.i > 0 ==> exists k :: i <= k <= j && SawOffset(run[k], run[j].sh, at.slowest))
    && (at.FullHead? ==> exists k :: i <= k <= j && SawOffset(run[k], run[j].sh, at.slowest))
    && (HasCount(at) ==> exists k :: i <= k <= j && CountedAt(run[k], CountOf(at)))
    && (at.Refused? ==> exists k :: i <= k <= j && Refusable(run[k]))
  }

  /** Between the lock and the return of a bounded Append the head stands still. */
  lemma HeadHeld(s: State, s': State, t: nat)
    requires Inv(s) && Next(s, s') && t < |s.pcs| && s.sh.limit != 0 && s.sh.mx == HeldBy(t) && !Moves(s, t, s')
    ensures s'.sh.head == s.sh.head && s'.sh.limit == s.sh.limit
  {
    if u: nat :| Moves(s, u, s') {
      assert Local(s.sh, u, s.pcs[u]);
      MoverKeeps(s.sh, u, s.pcs[u], s'.sh, s'.pcs[u]);
    }
  }

  /** Somebody else moves. */
  lemma WhyStays(run: seq<State>, i: nat, j: nat, t: nat)
    requires IsRun(Init, Next, run) && i <= j && j + 1 < |run| && t < |run[j].pcs| && run[j].pcs[t].App?
    requires Why(run, i, j, run[j].pcs[t].app) && !Moves(run[j], t, run[j + 1])
    ensures Why(run, i, j + 1, run[j].pcs[t].app)
  {
    InvAt(run, j);
    var s, s', at := run[j], run[j + 1], run[j].pcs[t].app;
    assert Local(s.sh, t, s.pcs[t]);
    NextAt(Init, Next, run, j);
    if (at.FullScan? && at.i > 0) || at.FullHead? {
      var k :| i <= k <= j && SawOffset(run[k], s.sh, at.slowest);
      HeadHeld(s, s', t);
      assert SawOffset(run[k], s'.sh, at.slowest);
    }
  }

  /** The Append's own step. */
  lemma WhyMoves(run: seq<State>, i: nat, j: nat, t: nat)
    requires IsRun(Init, Next, run) && i <= j && j + 1 < |run| && Moves(run[j], t, run[j + 1]) && run[j].pcs[t].App?
    requires Why(run, i, j, run[j].pcs[t].app)
    ensures run[j + 1].pcs[t].App? && Why(run, i, j + 1, run[j + 1].pcs[t].app)
  {
    CountRun(run);
    var s, s' := run[j], run[j + 1];
    var at, at' := s.pcs[t].app, s'.pcs[t].app;
    assert Local(s.sh, t, s.pcs[t]);
    if AdmitStep(s.sh, t, at, s'.sh, at') {
      if at.FullScan? {
        ScanWhy(run, i, j, at, s'.sh, at', t);
      } else if at'.Refused? {
        RefuseWhy(run, i, j, t);
      } else if at.LoadOpen? {
        assert CountedAt(s, at'.n);
      }
    } else {
      StoreCount(s.sh, t, s.pcs[t].item, at, s'.sh, at');
    }
  }

  lemma StoreCount(sh: Shared, t: nat, item: Payload, at: AppendAt, sh': Shared, at': AppendAt)
    requires StoreStep(sh, t, item, at, sh', at')
    ensures HasCount(at) && HasCount(at') && CountOf(at') == CountOf(at)
  {
  }

  lemma ScanWhy(run: seq<State>, i: nat, j: nat, at: AppendAt, sh': Shared, at': AppendAt, t: nat)
    requires i <= j && j + 1 < |run| && sh' == run[j + 1].sh && at.FullScan? && Why(run, i, j, at)
    requires AdmitStep(run[j].sh, t, at, sh', at') && AdmitLocal(run[j].sh, at)
    ensures Why(run, i, j + 1, at')
  {
    var sh := run[j].sh;
    if at.i < |sh.open| && (at.i == 0 || at'.slowest != at.slowest) {
      assert sh.open[at.i] in sh.open;
      assert SawOffset(run[j], sh', at'.slowest);
    } else {
      var k :| i <= k <= j && SawOffset(run[k], sh, at.slowest);
      assert SawOffset(run[k], sh', at'.slowest);
    }
  }

  lemma RefuseWhy(run: seq<State>, i: nat, j: nat, t: nat)
    requires i <= j && j + 1 < |run| && Moves(run[j], t, run[j + 1]) && run[j].pcs[t].App?
    requires Why(run, i, j, run[j].pcs[t].app) && run[j + 1].pcs[t].app.Refused? && !run[j].pcs[t].app.Refused?
    requires AdmitStep(run[j].sh, t, run[j].pcs[t].app, run[j + 1].sh, run[j + 1].pcs[t].app)
    requires forall k :: 0 <= k < |run| ==> CountInv(run[k])
    requires AdmitLocal(run[j].sh, run[j].pcs[t].app)
    ensures exists k :: i <= k <= j + 1 && Refusable(run[k])
  {
    var s, at := run[j], run[j].pcs[t].app;
    if s.sh.closed || (at.FullCheck? && s.sh.open == []) {
      assert Refusable(s);
    } else if at.FullHead? {
      var k :| i <= k <= j && SawOffset(run[k], s.sh, at.slowest);
      var c: nat :| c in run[k].sh.open && c < |run[k].sh.cursors| && run[k].sh.cursors[c].offset == at.slowest;
      assert Full(run[k].sh, c);
      assert Refusable(run[k]);
    } else {
      var k :| i <= k <= j && CountedAt(run[k], 0);
      assert CountInv(run[k]);
      assert run[k].sh.open != [] ==> Uncounted(run[k]);
      assert Refusable(run[k]);
    }
  }

  /** Goroutine t is in an Append, and knows why. */
  ghost predicate Sees(run: seq<State>, i: nat, k: nat, t: nat)
  {
    i <= k < |run| && t < |run[k].pcs| && run[k].pcs[t].App? && Why(run, i, k, run[k].pcs[t].app)
  }

  lemma WhyNext(run: seq<State>, i: nat, j: nat, t: nat)
    requires IsRun(Init, Next, run) && j + 1 < |run| && Sees(run, i, j, t) && InCall(run, j, t)
    ensures Sees(run, i, j + 1, t)
  {
    NextAt(Init, Next, run, j);
    OwnStep(run[j], run[j + 1], t);
    if Moves(run[j], t, run[j + 1]) { WhyMoves(run, i, j, t); } else { WhyStays(run, i, j, t); }
  }

  lemma AppendSees(run: seq<State>, i: nat, j: nat, t: nat)
    requires IsRun(Init, Next, run) && OneCall(run, i, j, t)
    requires run[i].pcs[t].App? && run[i].pcs[t].app.Limit?
    ensures Sees(run, i, j, t)
  {
    var p := (k: nat) => Sees(run, i, k, t);
    forall k: nat, l: nat | i <= k < j && l == k + 1 && p(k) ensures p(l) {
      WhyNext(run, i, k, t);
    }
    Along(p, i, j);
  }

  /** In every run, an Append that returns false had a reason: at some moment of the call the log was
      closed, no cursor was open, or it was bounded and an open cursor had limit unread items. So an
      Append that finds room all along stores its payload. The number it returns is that of the open
      cursors at some moment of the call. */
  lemma RefusedOnlyIf(run: seq<State>, i: nat, j: nat, t: nat)
    requires IsRun(Init, Next, run) && OneCall(run, i, j, t) && run[i].pcs[t].App? && run[i].pcs[t].app.Limit?
    requires Returned(run[j].pcs[t])
    ensures run[j].pcs[t].App?
    ensures run[j].pcs[t].app.Refused? ==> exists k :: i <= k <= j && Refusable(run[k])
    ensures !run[j].pcs[t].app.Refused? ==>
      && run[j].pcs[t].app.Appended? && run[j].pcs[t].app.n > 0
      && exists k :: i <= k <= j && CountedAt(run[k], run[j].pcs[t].app.n)
  {
    AppendSees(run, i, j, t);
    InvAt(run, j);
    assert Local(run[j].sh, t, run[j].pcs[t]);
  }

  /** The Append can still see that the log is closed. */
  predicate BeforeClosed(at: AppendAt)
  {
    !HasCount(at) || at.LoadClosed?
  }

  lemma ClosedStays(s: State, s': State, t: nat)
    requires Next(s, s') && s.sh.closed && t < |s.pcs| && !Returned(s.pcs[t])
    requires s.pcs[t].App? && BeforeClosed(s.pcs[t].app)
    ensures s'.sh.closed && t < |s'.pcs| && s'.pcs[t].App? && BeforeClosed(s'.pcs[t].app)
  {
    OwnStep(s, s', t);
    if u: nat :| Moves(s, u, s') {
      KeepsClosed(s.sh, u, s.pcs[u], s'.sh, s'.pcs[u]);
    }
  }

  lemma KeepsClosed(sh: Shared, t: nat, pc: Pc, sh': Shared, pc': Pc)
    requires GoStep(sh, t, pc, sh', pc')
    ensures sh'.closed == sh.closed
    ensures sh.closed && pc.App? && BeforeClosed(pc.app) ==> pc'.App? && BeforeClosed(pc'.app)
  {
    match pc
    case App(_, _) => AppendKeepsClosed(sh, t, pc, sh', pc');
    case Open(_) => assert OpenStep(sh, t, pc, sh', pc');
    case Deq(_, _) => assert DequeueStep(sh, t, pc, sh', pc');
    case Scan(_, _, _) => assert ScanStep(sh, t, pc, sh', pc');
    case Skip(_, _) => assert SkipStep(sh, t, pc, sh', pc');
    case Close(_, _) => assert CloseStep(sh, t, pc, sh', pc');
  }

  lemma AppendKeepsClosed(sh: Shared, t: nat, pc: Pc, sh': Shared, pc': Pc)
    requires AppendStep(sh, t, pc, sh', pc')
    ensures sh'.closed == sh.closed && sh'.cursors == sh.cursors
    ensures sh.closed && BeforeClosed(pc.app) ==> BeforeClosed(pc'.app)
  {
  }

  ghost predicate ClosedAt(run: seq<State>, k: nat, t: nat)
  {
    && k < |run| && run[k].sh.closed && t < |run[k].pcs|
    && run[k].pcs[t].App? && BeforeClosed(run[k].pcs[t].app)
  }

  lemma ClosedNext(run: seq<State>, k: nat, t: nat)
    requires IsRun(Init, Next, run) && k + 1 < |run| && ClosedAt(run, k, t) && InCall(run, k, t)
    ensures ClosedAt(run, k + 1, t)
  {
    NextAt(Init, Next, run, k);
    ClosedStays(run[k], run[k + 1], t);
  }

  /** In every run, an Append that has not yet looked whether the log is closed when it closes, one
      waiting for the lock included, returns false. */
  lemma ClosedStoresNothing(run: seq<State>, i: nat, j: nat, t: nat)
    requires IsRun(Init, Next, run) && OneCall(run, i, j, t)
    requires run[i].sh.closed && run[i].pcs[t].App? && BeforeClosed(run[i].pcs[t].app)
    ensures run[j].pcs[t].App? && BeforeClosed(run[j].pcs[t].app)
    ensures Returned(run[j].pcs[t]) ==> run[j].pcs[t].app.Refused?
  {
    var p := (k: nat) => ClosedAt(run, k, t);
    forall k: nat, l: nat | i <= k < j && l == k + 1 && p(k) ensures p(l) {
      ClosedNext(run, k, t);
    }
    Along(p, i, j);
  }

  // ---------------------------------------------------------------- where a cursor is left

  predicate HeadAt(s: State, h: nat)
  {
    s.sh.head == h
  }

  /** The head a call has read, if it has. */
  function ReadHead(pc: Pc): nat
  {
    match pc
    case Open(OpenList(_, h)) => h
    case Scan(_, _, Scanning(end, _, _, _, _)) => end
    case Skip(_, SkipStore(_, h)) => h
    case _ => 0
  }

  predicate HasHead(pc: Pc)
  {
    || (pc.Open? && pc.opening.OpenList?) || (pc.Scan? && pc.scan.Scanning?) || (pc.Skip? && pc.skip.SkipStore?)
  }

  predicate Reads(pc: Pc)
  {
    pc.Open? || pc.Scan? || pc.Skip?
  }

  /** At j goroutine t is in the call it was in at i, and the head it has read is that of a state since. */
  ghost predicate SawHead(run: seq<State>, i: nat, j: nat, t: nat)
  {
    && i <= j < |run| && t < |run[i].pcs| && t < |run[j].pcs|
    && (!Returned(run[j].pcs[t]) ==> SameCall(run[i].pcs[t], run[j].pcs[t]))
    && (HasHead(run[j].pcs[t]) ==> exists k :: i <= k <= j && HeadAt(run[k], ReadHead(run[j].pcs[t])))
  }

  lemma HeadMoves(sh: Shared, t: nat, pc: Pc, sh': Shared, pc': Pc)
    requires GoStep(sh, t, pc, sh', pc') && Reads(pc) && HasHead(pc')
    ensures ReadHead(pc') == (if HasHead(pc) then ReadHead(pc) else sh.head)
  {
  }

  lemma HeadNext(run: seq<State>, i: nat, j: nat, t: nat)
    requires IsRun(Init, Next, run) && j + 1 < |run| && SawHead(run, i, j, t) && InCall(run, j, t)
    requires Reads(run[i].pcs[t])
    ensures SawHead(run, i, j + 1, t)
  {
    var s, s' := run[j], run[j + 1];
    NextAt(Init, Next, run, j);
    OwnStep(s, s', t);
    if Moves(s, t, s') {
      CallMoves(s.sh, t, s.pcs[t], s'.sh, s'.pcs[t]);
      if HasHead(s'.pcs[t]) {
        HeadMoves(s.sh, t, s.pcs[t], s'.sh, s'.pcs[t]);
        assert !HasHead(s.pcs[t]) ==> HeadAt(s, ReadHead(s'.pcs[t]));
      }
    }
  }

  lemma CallSawHead(run: seq<State>, i: nat, j: nat, t: nat)
    requires IsRun(Init, Next, run) && OneCall(run, i, j, t)
    requires Reads(run[i].pcs[t]) && !HasHead(run[i].pcs[t])
    ensures SawHead(run, i, j, t)
  {
    var p := (k: nat) => SawHead(run, i, k, t);
    forall k: nat, l: nat | i <= k < j && l == k + 1 && p(k) ensures p(l) {
      HeadNext(run, i, k, t);
    }
    Along(p, i, j);
  }

  /** Both are the same kind of call on the same cursor. */
  predicate SameCall(pc: Pc, pc': Pc)
  {
    match pc
    case Idle => false
    case App(item, _) => pc'.App? && pc'.item == item
    case Open(_) => pc'.Open?
    case Deq(c, _) => pc'.Deq? && pc'.c == c
    case Scan(c, purge, _) => pc'.Scan? && pc'.c == c && pc'.purge == purge
    case Skip(c, _) => pc'.Skip? && pc'.c == c
    case Close(c, _) => pc'.Close? && pc'.c == c
  }

  lemma CallMoves(sh: Shared, t: nat, pc: Pc, sh': Shared, pc': Pc)
    requires GoStep(sh, t, pc, sh', pc')
    ensures !Returned(pc') ==> SameCall(pc, pc')
  {
  }

  /** In every run, the cursor a NewCursor opens starts at the head of some moment of the call, with
      nothing taken, and is listed. */
  lemma OpensAtHead(run: seq<State>, i: nat, j: nat, t: nat)
    requires IsRun(Init, Next, run) && OneCall(run, i, j, t) && run[i].pcs[t] == Open(OpenLock)
    requires j + 1 < |run| && Moves(run[j], t, run[j + 1])
    requires run[j].pcs[t].Open? && run[j].pcs[t].opening.OpenList?
    ensures |run[j + 1].sh.cursors| == |run[j].sh.cursors| + 1
    ensures var c := |run[j].sh.cursors|;
      var k' := run[j + 1].sh.cursors[c];
      && c in run[j + 1].sh.open && k'.chunk.At? && k'.offset == k'.start == k'.born && k'.taken == []
      && exists k :: i <= k <= j && HeadAt(run[k], k'.offset)
  {
    CallSawHead(run, i, j, t);
    assert run[j + 1].sh.open[|run[j].sh.open|] == |run[j].sh.cursors|;
  }

  /** In every run, Values and a consumer's Purge return everything unread up to the head of some
      moment of the call, or nothing from a closed cursor; Values leaves the cursor where it was. */
  lemma ScanReachesHead(run: seq<State>, i: nat, j: nat, t: nat)
    requires IsRun(Init, Next, run) && OneCall(run, i, j, t) && run[i].pcs[t].Scan? && run[i].pcs[t].scan.ScanLock?
    requires !Returned(run[j].pcs[t]) && j + 1 < |run| && Moves(run[j], t, run[j + 1])
    requires run[j + 1].pcs[t].Scan? && run[j + 1].pcs[t].scan.Scanned?
    ensures run[j].pcs[t].Scan? && run[j].pcs[t].c < |run[j].sh.cursors| == |run[j + 1].sh.cursors|
    ensures var pc, out := run[j].pcs[t], run[j + 1].pcs[t].scan.out;
      var was, now := run[j].sh.cursors[pc.c], run[j + 1].sh.cursors[pc.c];
      && (was.chunk.Nil? ==> out == [] && now.offset == was.offset)
      && (was.chunk.At? ==> exists k :: i <= k <= j && UnreadAt(run, k, j, was.offset, out))
      && (was.chunk.At? && pc.purge ==> now.offset == was.offset + |out|)
      && (!pc.purge ==> now == was.(mx := Free))
  {
    CallSawHead(run, i, j, t);
    InvAt(run, j);
    var pc := run[j].pcs[t];
    assert Local(run[j].sh, t, pc);
    if pc.scan.Scanning? {
      ScanIsUnread(run, j, t);
      var k :| i <= k <= j && HeadAt(run[k], pc.scan.end);
      assert UnreadAt(run, k, j, run[j].sh.cursors[pc.c].offset, run[j + 1].pcs[t].scan.out);
    }
  }

  /** out is what was claimed from off up to the head at k. */
  ghost predicate UnreadAt(run: seq<State>, k: nat, j: nat, off: nat, out: seq<Payload>)
    requires k < |run| && j < |run|
  {
    off <= run[k].sh.head <= |run[j].sh.items| && out == run[j].sh.items[off..run[k].sh.head]
  }

  /** In every run, the Purge of any other cursor moves it to the head of some moment of the call,
      unless it is closed. */
  lemma SkipReachesHead(run: seq<State>, i: nat, j: nat, t: nat)
    requires IsRun(Init, Next, run) && OneCall(run, i, j, t) && run[i].pcs[t].Skip? && run[i].pcs[t].skip.SkipLock?
    requires !Returned(run[j].pcs[t]) && j + 1 < |run| && Moves(run[j], t, run[j + 1]) && run[j + 1].pcs[t].Idle?
    ensures run[j].pcs[t].Skip? && run[j].pcs[t].c == run[i].pcs[t].c < |run[j].sh.cursors| == |run[j + 1].sh.cursors|
    ensures var now := run[j + 1].sh.cursors[run[i].pcs[t].c];
      || now.chunk.Nil?
      || (now.offset == now.start && now.taken == [] && exists k :: i <= k <= j && HeadAt(run[k], now.offset))
  {
    CallSawHead(run, i, j, t);
  }

  // ---------------------------------------------------------------- Close

  /** A detached cursor that is still listed is in the hands of its Close. */
  ghost predicate Closing(s: State, c: nat)
    requires c < |s.sh.cursors|
  {
    && s.sh.cursors[c].mx.HeldBy? && s.sh.cursors[c].mx.owner < |s.pcs|
    && (s.pcs[s.sh.cursors[c].mx.owner] == Close(c, CloseLog) || s.pcs[s.sh.cursors[c].mx.owner] == Close(c, CloseList))
  }

  ghost predicate CloseInv(s: State)
  {
    Inv(s) && forall c: nat :: c < |s.sh.cursors| && s.sh.cursors[c].chunk.Nil? && c in s.sh.open ==> Closing(s, c)
  }

  /** Nothing but Close detaches or unlists a cursor. */
  lemma StaysAttached(sh: Shared, t: nat, pc: Pc, sh': Shared, pc': Pc, c: nat)
    requires GoStep(sh, t, pc, sh', pc') && !pc.Close? && !pc.Open? && c < |sh'.cursors|
    ensures c < |sh.cursors| && (sh.cursors[c].chunk.At? ==> sh'.cursors[c].chunk.At?) && sh'.open == sh.open
    ensures !pc'.Close?
  {
    match pc
    case App(_, _) => AppendAttached(sh, t, pc, sh', pc');
    case Deq(_, _) => DequeueAttached(sh, t, pc, sh', pc', c);
    case Scan(_, _, _) => ScanAttached(sh, t, pc, sh', pc', c);
    case Skip(_, _) => assert SkipStep(sh, t, pc, sh', pc');
  }

  lemma AppendAttached(sh: Shared, t: nat, pc: Pc, sh': Shared, pc': Pc)
    requires AppendStep(sh, t, pc, sh', pc')
    ensures sh'.cursors == sh.cursors && sh'.open == sh.open
  {
  }

  lemma DequeueAttached(sh: Shared, t: nat, pc: Pc, sh': Shared, pc': Pc, c: nat)
    requires DequeueStep(sh, t, pc, sh', pc') && c < |sh'.cursors|
    ensures c < |sh.cursors| && (sh.cursors[c].chunk.At? ==> sh'.cursors[c].chunk.At?) && sh'.open == sh.open
    ensures !pc'.Close?
  {
  }

  lemma ScanAttached(sh: Shared, t: nat, pc: Pc, sh': Shared, pc': Pc, c: nat)
    requires ScanStep(sh, t, pc, sh', pc') && c < |sh'.cursors|
    ensures c < |sh.cursors| && (sh.cursors[c].chunk.At? ==> sh'.cursors[c].chunk.At?) && sh'.open == sh.open
  {
  }

  lemma OpensAttached(sh: Shared, t: nat, pc: Pc, sh': Shared, pc': Pc, c: nat)
    requires OpenStep(sh, t, pc, sh', pc') && c < |sh'.cursors| && sh'.cursors[c].chunk.Nil? && c in sh'.open
    ensures c < |sh.cursors| && sh.cursors[c].chunk.Nil? && c in sh.open && !pc'.Close?
  {
    if pc.opening.OpenList? {
      assert c < |sh.cursors| && sh'.cursors[c] == sh.cursors[c];
    } else {
      assert sh'.cursors == sh.cursors && sh'.open == sh.open;
    }
  }

  lemma Detaches(sh: Shared, t: nat, pc: Pc, sh': Shared, pc': Pc, c: nat)
    requires CloseStep(sh, t, pc, sh', pc') && c < |sh'.cursors| && c in sh'.open && sh'.cursors[c].chunk.Nil?
    ensures c < |sh.cursors| && c in sh.open
    ensures sh.cursors[c].chunk.At? ==> pc' == Close(c, CloseLog) && sh'.cursors[c].mx == sh.cursors[c].mx
    ensures sh.cursors[c].chunk.At? ==> pc == Close(c, CloseDetach)
    ensures pc == Close(c, CloseLog) && sh.cursors[c].chunk.Nil? ==>
      pc' == Close(c, CloseList) && sh'.cursors[c].mx == sh.cursors[c].mx
    ensures pc != Close(c, CloseList)
  {
    WithoutMembers(sh.open, pc.c);
  }

  lemma ClosingKept(s: State, t: nat, s': State, c: nat)
    requires CloseInv(s) && Moves(s, t, s') && Rely(s.sh, t, s'.sh)
    requires c < |s'.sh.cursors| && s'.sh.cursors[c].chunk.Nil? && c in s'.sh.open
    requires Local(s.sh, t, s.pcs[t])
    ensures Closing(s', c)
  {
    if s.pcs[t].Close? {
      Detaches(s.sh, t, s.pcs[t], s'.sh, s'.pcs[t], c);
    } else if s.pcs[t].Open? {
      OpensAttached(s.sh, t, s.pcs[t], s'.sh, s'.pcs[t], c);
    } else {
      StaysAttached(s.sh, t, s.pcs[t], s'.sh, s'.pcs[t], c);
    }
    if s.sh.cursors[c].chunk.Nil? { assert Closing(s, c); }
  }

  lemma CloseMoves(s: State, t: nat, s': State)
    requires CloseInv(s) && Moves(s, t, s')
    ensures CloseInv(s')
  {
    MoveKeeps(s, t, s');
    assert Local(s.sh, t, s.pcs[t]);
    MoverKeeps(s.sh, t, s.pcs[t], s'.sh, s'.pcs[t]);
    forall c: nat | c < |s'.sh.cursors| && s'.sh.cursors[c].chunk.Nil? && c in s'.sh.open ensures Closing(s', c) {
      ClosingKept(s, t, s', c);
    }
  }

  lemma CloseNext(s: State, s': State)
    requires CloseInv(s) && Next(s, s')
    ensures CloseInv(s')
  {
    NextKeeps(s, s');
    if t: nat :| Moves(s, t, s') {
      CloseMoves(s, t, s');
    } else {
      forall c: nat | c < |s'.sh.cursors| && s'.sh.cursors[c].chunk.Nil? && c in s'.sh.open ensures Closing(s', c) {
        assert Closing(s, c);
      }
    }
  }

  lemma CloseRun(run: seq<State>)
    requires IsRun(Init, Next, run)
    ensures forall i :: 0 <= i < |run| ==> CloseInv(run[i])
  {
    forall s, s' | CloseInv(s) && Next(s, s') ensures CloseInv(s') {
      CloseNext(s, s');
    }
    Invariance(Init, Next, CloseInv, run);
  }

  /** A cursor whose lock t holds without closing it is not both detached and listed. */
  lemma ListedHere(s: State, t: nat, c: nat)
    requires CloseInv(s) && c < |s.sh.cursors| && s.sh.cursors[c].mx == HeldBy(t)
    requires t < |s.pcs| && s.pcs[t] != Close(c, CloseLog) && s.pcs[t] != Close(c, CloseList)
    ensures s.sh.cursors[c].chunk.At? || c !in s.sh.open
  {
  }

  /** In every run, a Close that returns leaves its cursor detached and unlisted, so it holds back no
      bounded Append any more, and leaves every other cursor listed as it was; nOpen follows. */
  lemma CloseUnlists(run: seq<State>, j: nat, t: nat)
    requires IsRun(Init, Next, run) && j + 1 < |run| && Moves(run[j], t, run[j + 1])
    requires run[j].pcs[t].Close? && run[j + 1].pcs[t].Idle?
    ensures run[j].pcs[t].c < |run[j].sh.cursors| == |run[j + 1].sh.cursors|
    ensures var c := run[j].pcs[t].c;
      && run[j + 1].sh.cursors[c].chunk.Nil? && c !in run[j + 1].sh.open
      && forall d :: d in run[j + 1].sh.open <==> d in run[j].sh.open && d != c
    ensures run[j].sh.mx == HeldBy(t) ==> run[j + 1].sh.nOpen == |run[j + 1].sh.open|
  {
    CloseRun(run);
    var s, s' := run[j], run[j + 1];
    assert CloseInv(s) && Local(s.sh, t, s.pcs[t]) && CursorsOk(s.sh);
    WithoutMembers(s.sh.open, s.pcs[t].c);
    if s.pcs[t].closing.CloseDetach? { ListedHere(s, t, s.pcs[t].c); }
  }
}
