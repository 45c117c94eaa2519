/** The log refines a plain sequence of payloads, its bound holds, and a topic reaches every
    subscription. */
module TopicLogProofs {
  import opened Runs
  import opened TopicLog

  // ---------------------------------------------------------------- what holds of the shared state

  /** The one cell that can hold the payload at offset o. */
  function CellOf(o: nat): Cell
  {
    Cell(o / CAPACITY, o % CAPACITY)
  }

  function OffsetOf(cell: Cell): nat
  {
    cell.chunk * CAPACITY + cell.idx
  }

  /** The chunks are one chain without gaps. */
  ghost predicate Chained(sh: Shared)
  {
    forall c :: 0 <= c < |sh.chunks| ==>
      && sh.chunks[c].base == c * CAPACITY
      && sh.chunks[c].next == (if c + 1 < |sh.chunks| then At(c + 1) else Nil)
  }

  /** The tail only reaches a chunk once its base is claimed. */
  ghost predicate TailOk(sh: Shared)
  {
    && (sh.tail.Nil? <==> sh.chunks == [])
    && (sh.tail.At? ==> sh.tail.id < |sh.chunks| && sh.tail.id * CAPACITY <= sh.head)
    && (sh.chunks == [] ==> sh.head == 0 && sh.cursors == [] && sh.nOpen == 0 && sh.open == [])
    && |sh.items| == |sh.owners| == sh.head
    && (!sh.consumer ==> sh.cleared == 0)
    && (sh.cursors == [] ==> sh.cleared == 0)
    && (sh.consumer ==> |sh.cursors| <= 1)
  }

  /** A ready slot holds the payload that was claimed at its offset, until the consumer clears it. */
  ghost predicate ReadyOk(sh: Shared)
  {
    forall cell :: cell in sh.ready ==>
      && cell.chunk < |sh.chunks| && cell.idx < CAPACITY && OffsetOf(cell) < |sh.items|
      && (sh.cleared <= OffsetOf(cell) ==> cell in sh.cells && sh.cells[cell] == sh.items[OffsetOf(cell)])
  }

  /** out is what was claimed at start, start + 1, ... */
  predicate Matches(items: seq<Payload>, start: nat, out: seq<Payload>)
  {
    start + |out| <= |items| && forall i :: 0 <= i < |out| ==> out[i] == items[start + i]
  }

  predicate CursorOk(sh: Shared, k: Cursor)
  {
    && k.born <= k.start && k.offset == k.start + |k.taken| && Matches(sh.items, k.start, k.taken)
    && (k.chunk.At? ==> k.chunk.id < |sh.chunks| && k.chunk.id * CAPACITY + k.idx == k.offset)
    && (k.mx.Free? && k.chunk.At? ==> sh.cleared <= k.offset)
  }

  ghost predicate CursorsOk(sh: Shared)
  {
    forall c :: 0 <= c < |sh.cursors| ==> CursorOk(sh, sh.cursors[c])
  }

  ghost predicate Listed(sh: Shared)
  {
    && (forall i :: 0 <= i < |sh.open| ==> sh.open[i] < |sh.cursors|)
    && (forall c :: 0 <= c < |sh.cursors| && sh.cursors[c].chunk.At? ==> c in sh.open)
  }

  ghost predicate Bounded(sh: Shared)
  {
    sh.limit != 0 ==>
      forall i :: 0 <= i < |sh.open| ==>
        sh.open[i] < |sh.cursors| && sh.head - sh.cursors[sh.open[i]].offset <= sh.limit
  }

  ghost predicate Global(sh: Shared)
  {
    Chained(sh) && TailOk(sh) && ReadyOk(sh) && CursorsOk(sh) && Listed(sh) && Bounded(sh)
  }

  // ---------------------------------------------------------------- what a goroutine may rely on

  /** Holds the log's lock between two steps. */
  predicate InLog(limit: nat, pc: Pc)
  {
    match pc
    case App(_, at) => limit != 0 && !at.Limit? && !at.TakeLock? && !at.Appended? && !at.Refused?
    case Open(at) => !at.OpenLock?
    case Close(_, at) => at.CloseList?
    case _ => false
  }

  /** Holds this cursor's lock between two steps. */
  predicate InCursor(pc: Pc, c: nat)
  {
    match pc
    case Deq(d, at) => d == c && (at.Look? || at.AskClaimed?)
    case Scan(d, _, at) => d == c && (at.ScanEnd? || at.Scanning?)
    case Skip(d, at) => d == c && !at.SkipLock?
    case Close(d, at) => d == c && !at.CloseLock?
    case _ => false
  }

  /** Every listed cursor has room for one more. */
  ghost predicate Room(sh: Shared)
  {
    sh.limit != 0 ==>
      forall i :: 0 <= i < |sh.open| ==> sh.open[i] < |sh.cursors| && sh.head - sh.cursors[sh.open[i]].offset < sh.limit
  }

  /** Offset o is claimed for this payload by goroutine t and not published. */
  predicate Owns(sh: Shared, t: nat, item: Payload, o: nat)
  {
    o < |sh.items| && o < |sh.owners| && sh.items[o] == item && sh.owners[o] == t && CellOf(o) !in sh.ready
  }

  ghost predicate AdmitLocal(sh: Shared, at: AppendAt)
  {
    match at
    case FullScan(i, slowest) =>
      && i <= |sh.open| && sh.open != [] && sh.limit != 0
      && forall k :: 0 <= k < i ==> sh.open[k] < |sh.cursors| && slowest <= sh.cursors[sh.open[k]].offset
    case FullHead(slowest) =>
      && sh.limit != 0
      && forall k :: 0 <= k < |sh.open| ==> sh.open[k] < |sh.cursors| && slowest <= sh.cursors[sh.open[k]].offset
    case LoadOpen => Room(sh)
    case LoadClosed(n) => Room(sh) && (n > 0 ==> sh.tail.At?)
    case LoadTail(n) => Room(sh) && n > 0 && sh.tail.At?
    case Claim(n, ch) => Room(sh) && n > 0 && ch < |sh.chunks| && ch * CAPACITY <= sh.head
    case TakeLock => sh.limit != 0
    case FullCheck => sh.limit != 0
    case _ => true
  }

  ghost predicate StoreLocal(sh: Shared, t: nat, item: Payload, at: AppendAt)
  {
    match at
    case Seek(n, o, ch, _) => n > 0 && Owns(sh, t, item, o) && ch < |sh.chunks| && ch * CAPACITY <= o
    case TryLink(n, o, ch, _) => n > 0 && Owns(sh, t, item, o) && ch < |sh.chunks| && (ch + 1) * CAPACITY <= o
    case Link(n, o, ch, _) => n > 0 && Owns(sh, t, item, o) && ch < |sh.chunks| && (ch + 1) * CAPACITY <= o
    case Advance(n, o, ch, next, _) =>
      n > 0 && Owns(sh, t, item, o) && next == ch + 1 < |sh.chunks| && next * CAPACITY <= o
    case Write(n, o, ch) =>
      n > 0 && Owns(sh, t, item, o) && ch < |sh.chunks| && ch * CAPACITY <= o < (ch + 1) * CAPACITY
    case Publish(n, o, ch) =>
      && n > 0 && Owns(sh, t, item, o) && ch < |sh.chunks| && ch * CAPACITY <= o < (ch + 1) * CAPACITY
      && CellOf(o) in sh.cells && sh.cells[CellOf(o)] == item
    case Appended(n, o) => n > 0 && o < |sh.items| && sh.items[o] == item
    case _ => true
  }

  ghost predicate ReaderLocal(sh: Shared, pc: Pc)
  {
    match pc
    case Open(OpenTail) => sh.tail.At?
    case Open(OpenCount) => sh.chunks != []
    case Open(OpenHead(ch)) => ch < |sh.chunks| && ch * CAPACITY <= sh.head
    case Open(OpenList(ch, h)) => ch < |sh.chunks| && ch * CAPACITY <= h <= sh.head && (sh.limit != 0 ==> h == sh.head)
    case Deq(c, at) =>
      && c < |sh.cursors|
      && ((at.Look? || at.AskClaimed?) && sh.cursors[c].chunk.At? ==> sh.cleared <= sh.cursors[c].offset)
    case Scan(c, purge, at) =>
      && c < |sh.cursors| && (purge ==> sh.consumer)
      && (at.ScanEnd? && sh.cursors[c].chunk.At? ==> sh.cleared <= sh.cursors[c].offset)
      && (at.Scanning? ==>
            && sh.cursors[c].chunk.At? && at.chunk < |sh.chunks|
            && at.chunk * CAPACITY + at.idx == at.off <= at.end <= sh.head
            && at.off == sh.cursors[c].offset + |at.out| && Matches(sh.items, sh.cursors[c].offset, at.out)
            && sh.cleared <= (if purge then at.off else sh.cursors[c].offset))
    case Skip(c, at) =>
      && c < |sh.cursors| && !sh.consumer
      && (at.SkipHead? ==> sh.cursors[c].chunk.At? && at.t < |sh.chunks| && at.t * CAPACITY <= sh.head)
      && (at.SkipStore? ==>
            && sh.cursors[c].chunk.At? && at.t < |sh.chunks|
            && at.t * CAPACITY <= at.h <= sh.head && sh.cursors[c].offset <= at.h)
    case Close(c, at) => c < |sh.cursors| && (at.CloseLog? || at.CloseList? ==> sh.cursors[c].chunk.Nil?)
    case _ => true
  }

  ghost predicate Local(sh: Shared, t: nat, pc: Pc)
  {
    && (InLog(sh.limit, pc) <==> sh.mx == HeldBy(t))
    && (forall c :: 0 <= c < |sh.cursors| ==> (InCursor(pc, c) <==> sh.cursors[c].mx == HeldBy(t)))
    && (pc.App? ==> AdmitLocal(sh, pc.app) && StoreLocal(sh, t, pc.item, pc.app))
    && ReaderLocal(sh, pc)
  }

  // ---------------------------------------------------------------- what one goroutine does to the others

  /** A step of goroutine t, as the others see it. */
  ghost predicate Rely(sh: Shared, t: nat, sh': Shared)
  {
    && sh'.limit == sh.limit && sh'.topic == sh.topic && sh'.consumer == sh.consumer
    && sh.head <= sh'.head && sh.items <= sh'.items && sh.owners <= sh'.owners && sh.ready <= sh'.ready
    && |sh.chunks| <= |sh'.chunks| && sh.cleared <= sh'.cleared
    && (sh.tail.At? ==> sh'.tail.At?)
    // the log's lock, and what only its holder changes
    && (sh'.mx == sh.mx || (sh.mx.Free? && sh'.mx == HeldBy(t)) || (sh.mx == HeldBy(t) && sh'.mx.Free?))
    && (sh'.open != sh.open ==> sh.mx == HeldBy(t))
    && (sh.limit != 0 && sh'.head != sh.head ==> sh.mx == HeldBy(t))
    // a cursor's lock, and what only its holder changes
    && |sh.cursors| <= |sh'.cursors|
    && (forall c :: 0 <= c < |sh.cursors| ==>
          && (sh'.cursors[c] == sh.cursors[c]
              || (sh.cursors[c].mx.Free? && sh'.cursors[c] == sh.cursors[c].(mx := HeldBy(t)))
              || sh.cursors[c].mx == HeldBy(t))
          && (sh'.cursors[c].mx == sh.cursors[c].mx
              || (sh.cursors[c].mx.Free? && sh'.cursors[c].mx == HeldBy(t))
              || (sh.cursors[c].mx == HeldBy(t) && sh'.cursors[c].mx.Free?))
          && sh.cursors[c].offset <= sh'.cursors[c].offset)
    && (forall c :: |sh.cursors| <= c < |sh'.cursors| ==> sh'.cursors[c].mx.Free?)
    && (sh'.cleared != sh.cleared ==> 0 < |sh.cursors| && sh.cursors[0].mx == HeldBy(t))
    // slots: t publishes only what it owns, and changes the content only of that or of cleared slots
    && (forall o :: 0 <= o < |sh.owners| && sh.owners[o] != t ==> (CellOf(o) in sh'.ready <==> CellOf(o) in sh.ready))
    && (forall o :: 0 <= o < |sh.owners| && sh.owners[o] != t && CellOf(o) !in sh.ready && CellOf(o) in sh.cells ==>
          CellOf(o) in sh'.cells && sh'.cells[CellOf(o)] == sh.cells[CellOf(o)])
  }

  lemma OtherApp(sh: Shared, t: nat, sh': Shared, u: nat, pc: Pc)
    requires Rely(sh, t, sh') && u != t && pc.App? && Local(sh, u, pc)
    ensures AdmitLocal(sh', pc.app)
  {
  }

  lemma OtherStore(sh: Shared, t: nat, sh': Shared, u: nat, pc: Pc)
    requires Rely(sh, t, sh') && u != t && pc.App? && Local(sh, u, pc)
    ensures StoreLocal(sh', u, pc.item, pc.app)
  {
  }

  lemma OtherReader(sh: Shared, t: nat, sh': Shared, u: nat, pc: Pc)
    requires Rely(sh, t, sh') && u != t && Local(sh, u, pc) && (sh.consumer ==> |sh.cursors| <= 1)
    requires (!sh'.consumer ==> sh'.cleared == 0)
    ensures ReaderLocal(sh', pc)
  {
  }

  lemma OtherLocks(sh: Shared, t: nat, sh': Shared, u: nat, pc: Pc)
    requires Rely(sh, t, sh') && u != t && Local(sh, u, pc)
    requires ReaderLocal(sh', pc)
    ensures InLog(sh'.limit, pc) <==> sh'.mx == HeldBy(u)
    ensures forall c :: 0 <= c < |sh'.cursors| ==> (InCursor(pc, c) <==> sh'.cursors[c].mx == HeldBy(u))
  {
  }

  // ---------------------------------------------------------------- Append

  lemma AdmitKeeps(sh: Shared, t: nat, item: Payload, at: AppendAt, sh': Shared, at': AppendAt)
    requires Global(sh) && Local(sh, t, App(item, at)) && AdmitStep(sh, t, at, sh', at')
    ensures AdmitLocal(sh', at') && StoreLocal(sh', t, item, at')
  {
  }

  lemma AdmitFrame(sh: Shared, t: nat, item: Payload, at: AppendAt, sh': Shared, at': AppendAt)
    requires Global(sh) && Local(sh, t, App(item, at)) && AdmitStep(sh, t, at, sh', at')
    ensures sh' == sh.(mx := sh'.mx) && Rely(sh, t, sh')
    ensures InLog(sh.limit, App(item, at')) <==> sh'.mx == HeldBy(t)
  {
  }

  /** Claiming: the payload becomes the next item of the abstract log. */
  lemma ClaimKeeps(sh: Shared, t: nat, item: Payload, at: AppendAt, sh': Shared, at': AppendAt)
    requires Global(sh) && Local(sh, t, App(item, at)) && at.Claim? && StoreStep(sh, t, item, at, sh', at')
    ensures Global(sh') && Rely(sh, t, sh') && StoreLocal(sh', t, item, at') && AdmitLocal(sh', at')
  {
    assert OffsetOf(CellOf(sh.head)) == sh.head;
  }

  lemma TryLinkKeeps(sh: Shared, t: nat, item: Payload, at: AppendAt, sh': Shared, at': AppendAt)
    requires Global(sh) && Local(sh, t, App(item, at)) && at.TryLink? && StoreStep(sh, t, item, at, sh', at')
    ensures Global(sh') && Rely(sh, t, sh') && StoreLocal(sh', t, item, at') && AdmitLocal(sh', at')
  {
  }

  /** Linking: only the chain grows. */
  lemma LinkKeeps(sh: Shared, t: nat, item: Payload, at: AppendAt, sh': Shared, at': AppendAt)
    requires Global(sh) && Local(sh, t, App(item, at)) && at.Link? && StoreStep(sh, t, item, at, sh', at')
    ensures Global(sh') && Rely(sh, t, sh') && StoreLocal(sh', t, item, at') && AdmitLocal(sh', at')
  {
    if sh' != sh {
      assert at.t + 1 == |sh.chunks|;
      GrowKeeps(sh, t, sh');
    }
  }

  lemma GrowKeeps(sh: Shared, t: nat, sh': Shared)
    requires Global(sh) && sh.chunks != []
    requires var last := sh.chunks[|sh.chunks| - 1];
      sh' == sh.(chunks := sh.chunks[|sh.chunks| - 1 := last.(next := At(|sh.chunks|))]
                           + [Chunk(End(last), Nil, false)])
    ensures Global(sh') && Rely(sh, t, sh')
  {
  }

  lemma SeekKeeps(sh: Shared, t: nat, item: Payload, at: AppendAt, sh': Shared, at': AppendAt)
    requires Global(sh) && Local(sh, t, App(item, at)) && at.Seek? && StoreStep(sh, t, item, at, sh', at')
    ensures sh' == sh && StoreLocal(sh', t, item, at') && AdmitLocal(sh', at')
  {
  }

  /** Moving along the chain: the tail never passes the claims. */
  lemma AdvanceKeeps(sh: Shared, t: nat, item: Payload, at: AppendAt, sh': Shared, at': AppendAt)
    requires Global(sh) && Local(sh, t, App(item, at)) && at.Advance? && StoreStep(sh, t, item, at, sh', at')
    ensures Global(sh') && Rely(sh, t, sh') && StoreLocal(sh', t, item, at') && AdmitLocal(sh', at')
  {
    if sh' != sh {
      TailMoves(sh, t, at.t, sh');
    }
  }

  lemma TailMoves(sh: Shared, t: nat, ch: nat, sh': Shared)
    requires Global(sh) && sh.tail == At(ch) && sh' == sh.(tail := At(ch + 1))
    requires ch + 1 < |sh.chunks| && (ch + 1) * CAPACITY <= sh.head
    ensures Global(sh') && Rely(sh, t, sh')
  {
  }

  lemma WriteKeeps(sh: Shared, t: nat, item: Payload, at: AppendAt, sh': Shared, at': AppendAt)
    requires Global(sh) && Local(sh, t, App(item, at)) && at.Write? && StoreStep(sh, t, item, at, sh', at')
    ensures Global(sh') && Rely(sh, t, sh') && StoreLocal(sh', t, item, at') && AdmitLocal(sh', at')
  {
    assert Cell(at.t, at.o - sh.chunks[at.t].base) == CellOf(at.o);
  }

  lemma PublishKeeps(sh: Shared, t: nat, item: Payload, at: AppendAt, sh': Shared, at': AppendAt)
    requires Global(sh) && Local(sh, t, App(item, at)) && at.Publish? && StoreStep(sh, t, item, at, sh', at')
    ensures Global(sh') && Rely(sh, t, sh') && StoreLocal(sh', t, item, at') && AdmitLocal(sh', at')
  {
    assert Cell(at.t, at.o - sh.chunks[at.t].base) == CellOf(at.o) && OffsetOf(CellOf(at.o)) == at.o;
  }

  // ---------------------------------------------------------------- cursors

  /** One cursor changes, and nothing else. */
  lemma CursorChange(sh: Shared, c: nat, k: Cursor, sh': Shared)
    requires Global(sh) && c < |sh.cursors| && sh' == sh.(cursors := sh.cursors[c := k]) && CursorOk(sh, k)
    requires sh.cursors[c].offset <= k.offset && (k.chunk.At? ==> sh.cursors[c].chunk.At?)
    ensures Global(sh')
  {
  }

  /** The cursor is locked, unlocked, or changed by the goroutine that holds its lock. */
  predicate MayChange(t: nat, k: Cursor, k': Cursor)
  {
    && k.offset <= k'.offset
    && ((k.mx.Free? && k' == k.(mx := HeldBy(t))) || (k.mx == HeldBy(t) && (k'.mx == k.mx || k'.mx.Free?)))
  }

  lemma CursorRely(sh: Shared, t: nat, c: nat, k: Cursor, sh': Shared)
    requires c < |sh.cursors| && sh' == sh.(cursors := sh.cursors[c := k]) && MayChange(t, sh.cursors[c], k)
    ensures Rely(sh, t, sh')
  {
  }

  /** The consuming cursor clears the slot at the next offset and moves on, or moves on later. */
  lemma ClearChange(sh: Shared, off: nat, k: Cursor, sh': Shared)
    requires Global(sh) && sh.consumer && |sh.cursors| == 1 && sh.cleared <= off
    requires sh' == sh.(cells := sh.cells - {CellOf(off)}, cleared := off + 1, cursors := [k])
    requires CursorOk(sh', k) && sh.cursors[0].offset <= k.offset && (k.chunk.At? ==> sh.cursors[0].chunk.At?)
    ensures Global(sh')
  {
    forall cell | cell in sh'.ready && sh'.cleared <= OffsetOf(cell)
      ensures cell in sh'.cells && sh'.cells[cell] == sh'.items[OffsetOf(cell)]
    {
      assert OffsetOf(CellOf(off)) == off;
    }
    assert sh'.cursors[0] == k;
  }

  lemma ClearRely(sh: Shared, t: nat, off: nat, k: Cursor, sh': Shared)
    requires sh.consumer && |sh.cursors| == 1 && sh.cleared <= off && CellOf(off) in sh.ready
    requires sh' == sh.(cells := sh.cells - {CellOf(off)}, cleared := off + 1, cursors := [k])
    requires MayChange(t, sh.cursors[0], k) && sh.cursors[0].mx == HeldBy(t)
    ensures Rely(sh, t, sh')
  {
  }

  lemma TakeIsNext(sh: Shared, k: Cursor)
    requires Global(sh) && CursorOk(sh, k) && k.chunk.At? && k.idx < CAPACITY && Cell(k.chunk.id, k.idx) in sh.ready
    requires sh.cleared <= k.offset
    ensures k.offset < |sh.items| && Cell(k.chunk.id, k.idx) == CellOf(k.offset)
    ensures Cell(k.chunk.id, k.idx) in sh.cells && sh.cells[Cell(k.chunk.id, k.idx)] == sh.items[k.offset]
  {
    assert OffsetOf(Cell(k.chunk.id, k.idx)) == k.offset;
  }

  /** The cursor after a successful Dequeue. */
  function Advanced(k: Cursor, item: Payload): Cursor
  {
    k.(idx := k.idx + 1, offset := k.offset + 1, mx := Free, taken := k.taken + [item])
  }

  lemma TakeKeeps(sh: Shared, t: nat, c: nat, sh': Shared, pc': Pc)
    requires Global(sh) && Local(sh, t, Deq(c, Look)) && DequeueStep(sh, t, Deq(c, Look), sh', pc') && pc'.Deq?
    requires pc'.deq.Got?
    ensures Global(sh') && Rely(sh, t, sh')
    ensures sh.cursors[c].offset < |sh.items| && pc'.deq.item == sh.items[sh.cursors[c].offset]
  {
    var k := sh.cursors[c];
    TakeIsNext(sh, k);
    var k' := Advanced(k, pc'.deq.item);
    if sh.consumer {
      assert sh.cursors[c := k'] == [k'];
      ClearChange(sh, k.offset, k', sh');
      ClearRely(sh, t, k.offset, k', sh');
    } else {
      CursorChange(sh, c, k', sh');
      CursorRely(sh, t, c, k', sh');
    }
  }

  lemma DequeueKeeps(sh: Shared, t: nat, pc: Pc, sh': Shared, pc': Pc)
    requires Global(sh) && Local(sh, t, pc) && DequeueStep(sh, t, pc, sh', pc')
    ensures Global(sh') && Rely(sh, t, sh')
  {
    if pc'.deq.Got? {
      TakeKeeps(sh, t, pc.c, sh', pc');
    } else {
      LookKeeps(sh, t, pc, sh', pc');
    }
  }

  /** Before the item is read only the cursor's lock and its place move. */
  lemma LookMoves(sh: Shared, t: nat, pc: Pc, sh': Shared, pc': Pc)
    requires Global(sh) && Local(sh, t, pc) && DequeueStep(sh, t, pc, sh', pc') && !pc'.deq.Got? && sh' != sh
    requires CursorOk(sh, sh.cursors[pc.c])
    ensures |sh'.cursors| == |sh.cursors| && sh' == sh.(cursors := sh.cursors[pc.c := sh'.cursors[pc.c]])
    ensures CursorOk(sh, sh'.cursors[pc.c]) && MayChange(t, sh.cursors[pc.c], sh'.cursors[pc.c])
    ensures sh'.cursors[pc.c].chunk.At? ==> sh.cursors[pc.c].chunk.At?
  {
  }

  lemma LookKeeps(sh: Shared, t: nat, pc: Pc, sh': Shared, pc': Pc)
    requires Global(sh) && Local(sh, t, pc) && DequeueStep(sh, t, pc, sh', pc') && !pc'.deq.Got?
    ensures Global(sh') && Rely(sh, t, sh')
  {
    if sh' != sh {
      assert CursorOk(sh, sh.cursors[pc.c]);
      LookMoves(sh, t, pc, sh', pc');
      CursorChange(sh, pc.c, sh'.cursors[pc.c], sh');
      CursorRely(sh, t, pc.c, sh'.cursors[pc.c], sh');
    }
  }

  lemma DequeueLocal(sh: Shared, t: nat, pc: Pc, sh': Shared, pc': Pc)
    requires Global(sh) && Local(sh, t, pc) && DequeueStep(sh, t, pc, sh', pc')
    ensures Local(sh', t, pc')
  {
    DequeueReads(sh, t, pc, sh', pc');
  }

  lemma DequeueReads(sh: Shared, t: nat, pc: Pc, sh': Shared, pc': Pc)
    requires Global(sh) && Local(sh, t, pc) && DequeueStep(sh, t, pc, sh', pc')
    ensures pc'.Deq? && ReaderLocal(sh', pc')
  {
  }

  lemma ScanStops(sh: Shared, t: nat, pc: Pc, sh': Shared, pc': Pc)
    requires Global(sh) && Local(sh, t, pc) && ScanStep(sh, t, pc, sh', pc') && !pc'.scan.Scanning?
    ensures Global(sh') && Rely(sh, t, sh')
  {
    CursorChange(sh, pc.c, sh'.cursors[pc.c], sh');
    CursorRely(sh, t, pc.c, sh'.cursors[pc.c], sh');
  }

  /** A scan step reads the next claimed payload. */
  lemma ScanReads(sh: Shared, t: nat, pc: Pc, sh': Shared, pc': Pc)
    requires Global(sh) && Local(sh, t, pc) && ScanStep(sh, t, pc, sh', pc') && pc'.scan.Scanning?
    ensures Global(sh') && Rely(sh, t, sh')
  {
    if sh' != sh {
      var off := pc.scan.off;
      assert Cell(pc.scan.chunk, pc.scan.idx) == CellOf(off);
      assert sh.cursors == [sh.cursors[0]] && pc.c == 0;
      ClearChange(sh, off, sh.cursors[0], sh');
      ClearRely(sh, t, off, sh.cursors[0], sh');
    }
  }

  lemma ScanLocal(sh: Shared, t: nat, pc: Pc, sh': Shared, pc': Pc)
    requires Global(sh) && Local(sh, t, pc) && ScanStep(sh, t, pc, sh', pc')
    ensures Local(sh', t, pc')
  {
    ScanPlace(sh, t, pc, sh', pc');
  }

  lemma ScanPlace(sh: Shared, t: nat, pc: Pc, sh': Shared, pc': Pc)
    requires Global(sh) && Local(sh, t, pc) && ScanStep(sh, t, pc, sh', pc')
    ensures ReaderLocal(sh', pc')
  {
    if pc.scan.Scanning? && pc.scan.idx < CAPACITY {
      assert OffsetOf(Cell(pc.scan.chunk, pc.scan.idx)) == pc.scan.off;
    }
  }

  lemma SkipKeeps(sh: Shared, t: nat, pc: Pc, sh': Shared, pc': Pc)
    requires Global(sh) && Local(sh, t, pc) && SkipStep(sh, t, pc, sh', pc')
    ensures Global(sh') && Rely(sh, t, sh')
  {
    if sh' != sh {
      CursorChange(sh, pc.c, sh'.cursors[pc.c], sh');
      CursorRely(sh, t, pc.c, sh'.cursors[pc.c], sh');
    }
  }

  lemma SkipLocal(sh: Shared, t: nat, pc: Pc, sh': Shared, pc': Pc)
    requires Global(sh) && Local(sh, t, pc) && SkipStep(sh, t, pc, sh', pc')
    ensures Local(sh', t, pc')
  {
  }

  lemma {:induction false} WithoutMembers(open: seq<nat>, c: nat)
    ensures forall d :: d in Without(open, c) <==> d in open && d != c
  {
    if open != [] {
      assert open == [open[0]] + open[1..];
      WithoutMembers(open[1..], c);
    }
  }

  lemma UnlistKeeps(sh: Shared, c: nat, sh': Shared)
    requires Global(sh) && c < |sh.cursors| && sh.cursors[c].chunk.Nil?
    requires sh' == sh.(open := Without(sh.open, c), nOpen := |Without(sh.open, c)|, mx := Free)
    ensures Global(sh')
  {
    WithoutMembers(sh.open, c);
    forall i | 0 <= i < |sh'.open| ensures exists j :: 0 <= j < |sh.open| && sh.open[j] == sh'.open[i] {
      assert sh'.open[i] in sh.open;
    }
  }

  lemma CloseKeeps(sh: Shared, t: nat, pc: Pc, sh': Shared, pc': Pc)
    requires Global(sh) && Local(sh, t, pc) && CloseStep(sh, t, pc, sh', pc')
    ensures Global(sh')
  {
    if pc.closing.CloseList? {
      var mid := sh.(cursors := sh.cursors[pc.c := sh.cursors[pc.c].(mx := Free)]);
      CursorChange(sh, pc.c, mid.cursors[pc.c], mid);
      UnlistKeeps(mid, pc.c, sh');
    } else if pc.closing.CloseLog? {
    } else {
      CursorChange(sh, pc.c, sh'.cursors[pc.c], sh');
    }
  }

  lemma CloseRely(sh: Shared, t: nat, pc: Pc, sh': Shared, pc': Pc)
    requires Global(sh) && Local(sh, t, pc) && CloseStep(sh, t, pc, sh', pc')
    ensures Rely(sh, t, sh')
  {
  }

  lemma CloseLocal(sh: Shared, t: nat, pc: Pc, sh': Shared, pc': Pc)
    requires Global(sh) && Local(sh, t, pc) && CloseStep(sh, t, pc, sh', pc')
    ensures Local(sh', t, pc')
  {
  }

  /** A cursor joins at the head. */
  lemma ListKeeps(sh: Shared, k: Cursor, sh': Shared)
    requires Global(sh) && sh.chunks != [] && CursorOk(sh, k) && (sh.consumer ==> sh.cursors == [])
    requires (sh.limit != 0 ==> k.offset == sh.head)
    requires sh' == sh.(cursors := sh.cursors + [k], open := sh.open + [|sh.cursors|])
    ensures Global(sh')
  {
    assert sh'.open[|sh.open|] == |sh.cursors| && |sh.cursors| in sh'.open;
    forall c | 0 <= c < |sh'.cursors| && sh'.cursors[c].chunk.At? ensures c in sh'.open {
      assert c < |sh.cursors| ==> c in sh.open;
    }
  }

  lemma OpenKeeps(sh: Shared, t: nat, pc: Pc, sh': Shared, pc': Pc)
    requires Global(sh) && Local(sh, t, pc) && OpenStep(sh, t, pc, sh', pc')
    requires sh.consumer ==> sh.cursors == [] || pc.opening.OpenCount? || pc.opening.OpenUnlock?
    ensures Global(sh')
  {
    if pc.opening.OpenList? {
      ListKeeps(sh, sh'.cursors[|sh.cursors|], sh');
    } else if pc.opening.OpenInit? {
      InitKeeps(sh, sh');
    } else {
      CountKeeps(sh, sh');
    }
  }

  lemma InitKeeps(sh: Shared, sh': Shared)
    requires Global(sh)
    requires sh' == if sh.tail.At? then sh
                    else sh.(tail := At(|sh.chunks|), chunks := sh.chunks + [Chunk(sh.head, Nil, false)])
    ensures Global(sh')
  {
  }

  lemma CountKeeps(sh: Shared, sh': Shared)
    requires Global(sh) && sh' == sh.(mx := sh'.mx, nOpen := sh'.nOpen) && (sh.chunks == [] ==> sh'.nOpen == sh.nOpen)
    ensures Global(sh')
  {
  }

  lemma OpenRely(sh: Shared, t: nat, pc: Pc, sh': Shared, pc': Pc)
    requires Global(sh) && Local(sh, t, pc) && OpenStep(sh, t, pc, sh', pc')
    ensures Rely(sh, t, sh')
  {
    if pc.opening.OpenList? {
      ListRely(sh, t, sh'.cursors[|sh.cursors|], sh');
    }
  }

  lemma ListRely(sh: Shared, t: nat, k: Cursor, sh': Shared)
    requires sh.mx == HeldBy(t) && k.mx.Free?
    requires sh' == sh.(cursors := sh.cursors + [k], open := sh.open + [|sh.cursors|])
    ensures Rely(sh, t, sh')
  {
  }

  lemma OpenLocal(sh: Shared, t: nat, pc: Pc, sh': Shared, pc': Pc)
    requires Global(sh) && Local(sh, t, pc) && OpenStep(sh, t, pc, sh', pc')
    ensures Local(sh', t, pc')
  {
    if pc.opening.OpenList? {
      forall c | 0 <= c < |sh'.cursors| ensures sh'.cursors[c].mx != HeldBy(t) {
        assert c < |sh.cursors| ==> sh'.cursors[c] == sh.cursors[c];
      }
    } else {
      assert sh'.cursors == sh.cursors;
    }
  }

  // ---------------------------------------------------------------- all goroutines together

  lemma AppendKeeps(sh: Shared, t: nat, pc: Pc, sh': Shared, pc': Pc)
    requires Global(sh) && Local(sh, t, pc) && AppendStep(sh, t, pc, sh', pc')
    ensures Global(sh') && Rely(sh, t, sh') && StoreLocal(sh', t, pc.item, pc'.app) && AdmitLocal(sh', pc'.app)
  {
    assert pc == App(pc.item, pc.app);
    if AdmitStep(sh, t, pc.app, sh', pc'.app) {
      AdmitKeeps(sh, t, pc.item, pc.app, sh', pc'.app);
      AdmitFrame(sh, t, pc.item, pc.app, sh', pc'.app);
      LockChange(sh, sh');
    } else {
      StoreKeeps(sh, t, pc.item, pc.app, sh', pc'.app);
    }
  }

  lemma LockChange(sh: Shared, sh': Shared)
    requires Global(sh) && sh' == sh.(mx := sh'.mx)
    ensures Global(sh')
  {
  }

  lemma StoreKeeps(sh: Shared, t: nat, item: Payload, at: AppendAt, sh': Shared, at': AppendAt)
    requires Global(sh) && Local(sh, t, App(item, at)) && StoreStep(sh, t, item, at, sh', at')
    ensures Global(sh') && Rely(sh, t, sh') && StoreLocal(sh', t, item, at') && AdmitLocal(sh', at')
  {
    if at.Claim? {
      ClaimKeeps(sh, t, item, at, sh', at');
    } else if at.Seek? {
      SeekKeeps(sh, t, item, at, sh', at');
    } else if at.Advance? {
      AdvanceKeeps(sh, t, item, at, sh', at');
    } else if at.Write? {
      WriteKeeps(sh, t, item, at, sh', at');
    } else if at.Publish? {
      PublishKeeps(sh, t, item, at, sh', at');
    } else if at.TryLink? {
      TryLinkKeeps(sh, t, item, at, sh', at');
    } else {
      LinkKeeps(sh, t, item, at, sh', at');
    }
  }

  lemma AdmitLocks(sh: Shared, t: nat, pc: Pc, sh': Shared, pc': Pc)
    requires pc.App? && pc'.App? && (InLog(sh.limit, pc) <==> sh.mx == HeldBy(t))
    requires AdmitStep(sh, t, pc.app, sh', pc'.app)
    requires pc.app.TakeLock? || pc.app.FullCheck? || pc.app.FullScan? || pc.app.FullHead? ==> sh.limit != 0
    ensures (InLog(sh'.limit, pc') <==> sh'.mx == HeldBy(t)) && sh'.cursors == sh.cursors
  {
  }

  lemma StoreLocks(sh: Shared, t: nat, pc: Pc, sh': Shared, pc': Pc)
    requires pc.App? && pc'.App? && (InLog(sh.limit, pc) <==> sh.mx == HeldBy(t))
    requires StoreStep(sh, t, pc.item, pc.app, sh', pc'.app)
    ensures (InLog(sh'.limit, pc') <==> sh'.mx == HeldBy(t)) && sh'.cursors == sh.cursors
  {
  }

  /** Append keeps the log's lock to its end on a bounded log, and never touches a cursor. */
  lemma AppendLocks(sh: Shared, t: nat, pc: Pc, sh': Shared, pc': Pc)
    requires Local(sh, t, pc) && AppendStep(sh, t, pc, sh', pc')
    ensures (InLog(sh'.limit, pc') <==> sh'.mx == HeldBy(t)) && sh'.cursors == sh.cursors
  {
    if AdmitStep(sh, t, pc.app, sh', pc'.app) {
      AdmitLocks(sh, t, pc, sh', pc');
    } else {
      StoreLocks(sh, t, pc, sh', pc');
    }
  }

  lemma MoverKeeps(sh: Shared, t: nat, pc: Pc, sh': Shared, pc': Pc)
    requires Global(sh) && Local(sh, t, pc) && GoStep(sh, t, pc, sh', pc')
    requires sh.consumer && pc.Open? ==> sh.cursors == [] || pc.opening.OpenCount? || pc.opening.OpenUnlock?
    ensures Global(sh') && Rely(sh, t, sh') && Local(sh', t, pc')
  {
    match pc
    case App(_, _) =>
      AppendKeeps(sh, t, pc, sh', pc');
      AppendLocks(sh, t, pc, sh', pc');
    case Open(_) =>
      OpenKeeps(sh, t, pc, sh', pc');
      OpenRely(sh, t, pc, sh', pc');
      OpenLocal(sh, t, pc, sh', pc');
    case Deq(_, _) =>
      DequeueKeeps(sh, t, pc, sh', pc');
      DequeueLocal(sh, t, pc, sh', pc');
    case Scan(_, _, _) =>
      if pc'.scan.Scanning? {
        ScanReads(sh, t, pc, sh', pc');
      } else {
        ScanStops(sh, t, pc, sh', pc');
      }
      ScanLocal(sh, t, pc, sh', pc');
    case Skip(_, _) =>
      SkipKeeps(sh, t, pc, sh', pc');
      SkipLocal(sh, t, pc, sh', pc');
    case Close(_, _) =>
      CloseKeeps(sh, t, pc, sh', pc');
      CloseRely(sh, t, pc, sh', pc');
      CloseLocal(sh, t, pc, sh', pc');
  }

  lemma OtherKeeps(sh: Shared, t: nat, sh': Shared, u: nat, pc: Pc)
    requires Global(sh) && Global(sh') && Rely(sh, t, sh') && u != t && Local(sh, u, pc)
    ensures Local(sh', u, pc)
  {
    OtherReader(sh, t, sh', u, pc);
    OtherLocks(sh, t, sh', u, pc);
    if pc.App? {
      OtherApp(sh, t, sh', u, pc);
      OtherStore(sh, t, sh', u, pc);
    }
  }

  /** The goroutine is storing the payload it claimed at o. */
  predicate Storing(pc: Pc, o: nat)
  {
    pc.App? && match pc.app
      case Seek(_, o', _, _) => o' == o
      case TryLink(_, o', _, _) => o' == o
      case Link(_, o', _, _) => o' == o
      case Advance(_, o', _, _, _) => o' == o
      case Write(_, o', _) => o' == o
      case Publish(_, o', _) => o' == o
      case _ => false
  }

  /** Every claimed offset is published, or its one owner is on the way. */
  ghost predicate Coming(s: State)
  {
    forall o: nat :: o < |s.sh.owners| ==>
      CellOf(o) in s.sh.ready || (s.sh.owners[o] < |s.pcs| && Storing(s.pcs[s.sh.owners[o]], o))
  }

  /** A consumed log opens its one cursor once. */
  ghost predicate OneOpener(s: State)
  {
    s.sh.consumer ==>
      && (forall t :: 0 <= t < |s.pcs| && s.pcs[t].Open? ==>
            s.sh.cursors == [] || s.pcs[t].opening.OpenCount? || s.pcs[t].opening.OpenUnlock?)
      && (forall t, u :: 0 <= t < |s.pcs| && 0 <= u < |s.pcs| && s.pcs[t].Open? && s.pcs[u].Open? ==> t == u)
  }

  ghost predicate Inv(s: State)
  {
    && Global(s.sh)
    && (forall t: nat :: t < |s.pcs| ==> Local(s.sh, t, s.pcs[t]))
    && LocksOwned(s)
    && Coming(s)
    && OneOpener(s)
  }

  ghost predicate LocksOwned(s: State)
  {
    && (s.sh.mx.HeldBy? ==> s.sh.mx.owner < |s.pcs|)
    && (forall c :: 0 <= c < |s.sh.cursors| && s.sh.cursors[c].mx.HeldBy? ==> s.sh.cursors[c].mx.owner < |s.pcs|)
  }

  /** A step keeps its offset, publishes it, or claims a new one. */
  lemma StoringMoves(sh: Shared, t: nat, pc: Pc, sh': Shared, pc': Pc, o: nat)
    requires Chained(sh) && Local(sh, t, pc) && GoStep(sh, t, pc, sh', pc') && Storing(pc, o)
    ensures Storing(pc', o) || CellOf(o) in sh'.ready
  {
    if pc.app.Publish? {
      assert Cell(pc.app.t, o - sh.chunks[pc.app.t].base) == CellOf(o);
    }
  }

  /** Steps that open nothing, close nothing and claim nothing. */
  ghost predicate Quiet(sh: Shared, sh': Shared)
  {
    && sh'.owners == sh.owners && sh'.nOpen == sh.nOpen && sh'.open == sh.open && |sh'.cursors| == |sh.cursors|
    && forall c :: 0 <= c < |sh.cursors| ==> sh'.cursors[c].born == sh.cursors[c].born
  }

  lemma AdmitQuiet(sh: Shared, t: nat, at: AppendAt, sh': Shared, at': AppendAt)
    requires AdmitStep(sh, t, at, sh', at')
    ensures Quiet(sh, sh') && sh'.consumer == sh.consumer && sh'.topic == sh.topic
  {
  }

  lemma StoreQuiet(sh: Shared, t: nat, item: Payload, at: AppendAt, sh': Shared, at': AppendAt)
    requires StoreStep(sh, t, item, at, sh', at')
    ensures sh'.owners == (if at.Claim? then sh.owners + [t] else sh.owners) && Quiet(sh, sh'.(owners := sh.owners))
    ensures at.Claim? ==> at'.Seek? && at'.o == sh.head
    ensures sh'.consumer == sh.consumer && sh'.topic == sh.topic
  {
  }

  lemma DequeueQuiet(sh: Shared, t: nat, pc: Pc, sh': Shared, pc': Pc)
    requires DequeueStep(sh, t, pc, sh', pc')
    ensures Quiet(sh, sh') && pc'.Deq? && sh'.consumer == sh.consumer && sh'.topic == sh.topic
  {
  }

  lemma ScanQuiet(sh: Shared, t: nat, pc: Pc, sh': Shared, pc': Pc)
    requires ScanStep(sh, t, pc, sh', pc')
    ensures Quiet(sh, sh') && pc'.Scan? && sh'.consumer == sh.consumer && sh'.topic == sh.topic
  {
  }

  lemma SkipQuiet(sh: Shared, t: nat, pc: Pc, sh': Shared, pc': Pc)
    requires SkipStep(sh, t, pc, sh', pc')
    ensures Quiet(sh, sh') && (pc'.Skip? || pc'.Idle?) && sh'.consumer == sh.consumer && sh'.topic == sh.topic
  {
  }

  lemma CloseQuiet(sh: Shared, t: nat, pc: Pc, sh': Shared, pc': Pc)
    requires CloseStep(sh, t, pc, sh', pc')
    ensures Quiet(sh, sh'.(open := sh.open, nOpen := sh.nOpen)) && (pc'.Close? || pc'.Idle?)
    ensures sh'.consumer == sh.consumer && sh'.topic == sh.topic
  {
  }

  lemma OpenQuiet(sh: Shared, t: nat, pc: Pc, sh': Shared, pc': Pc)
    requires OpenStep(sh, t, pc, sh', pc')
    ensures sh'.owners == sh.owners && (pc'.Open? || pc'.Idle?) && sh'.consumer == sh.consumer && sh'.topic == sh.topic
    ensures |sh'.cursors| != |sh.cursors| ==> pc' == Open(OpenCount)
    ensures sh'.cursors == [] ==> sh.cursors == []
    ensures pc.opening.OpenCount? ==> pc' == Open(OpenUnlock)
    ensures pc.opening.OpenUnlock? ==> pc'.Idle?
  {
  }

  lemma OwnersGrow(sh: Shared, t: nat, pc: Pc, sh': Shared, pc': Pc)
    requires GoStep(sh, t, pc, sh', pc')
    ensures sh'.owners == sh.owners || (sh'.owners == sh.owners + [t] && Storing(pc', sh.head))
    ensures sh'.consumer == sh.consumer && sh'.topic == sh.topic
    ensures !pc.Open? ==> !pc'.Open? && |sh'.cursors| == |sh.cursors|
  {
    match pc
    case App(_, _) =>
      if AdmitStep(sh, t, pc.app, sh', pc'.app) {
        AdmitQuiet(sh, t, pc.app, sh', pc'.app);
      } else {
        StoreQuiet(sh, t, pc.item, pc.app, sh', pc'.app);
      }
    case Open(_) => OpenQuiet(sh, t, pc, sh', pc');
    case Deq(_, _) => DequeueQuiet(sh, t, pc, sh', pc');
    case Scan(_, _, _) => ScanQuiet(sh, t, pc, sh', pc');
    case Skip(_, _) => SkipQuiet(sh, t, pc, sh', pc');
    case Close(_, _) => CloseQuiet(sh, t, pc, sh', pc');
  }

  lemma ComingKeeps(s: State, t: nat, s': State)
    requires Inv(s) && Moves(s, t, s') && s.sh.ready <= s'.sh.ready
    ensures Coming(s')
  {
    OwnersGrow(s.sh, t, s.pcs[t], s'.sh, s'.pcs[t]);
    forall o: nat | o < |s'.sh.owners| && CellOf(o) !in s'.sh.ready
      ensures s'.sh.owners[o] < |s'.pcs| && Storing(s'.pcs[s'.sh.owners[o]], o)
    {
      if o < |s.sh.owners| {
        if s.sh.owners[o] == t {
          StoringMoves(s.sh, t, s.pcs[t], s'.sh, s'.pcs[t], o);
        }
      }
    }
  }

  lemma MoveKeeps(s: State, t: nat, s': State)
    requires Inv(s) && Moves(s, t, s')
    ensures Inv(s')
  {
    MoverKeeps(s.sh, t, s.pcs[t], s'.sh, s'.pcs[t]);
    forall u: nat | u < |s'.pcs| ensures Local(s'.sh, u, s'.pcs[u]) {
      if u != t {
        OtherKeeps(s.sh, t, s'.sh, u, s.pcs[u]);
      }
    }
    ComingKeeps(s, t, s');
    OpenersKeep(s, t, s');
  }

  lemma OpenersKeep(s: State, t: nat, s': State)
    requires OneOpener(s) && Moves(s, t, s')
    ensures OneOpener(s')
  {
    OwnersGrow(s.sh, t, s.pcs[t], s'.sh, s'.pcs[t]);
    if s.pcs[t].Open? {
      OpenQuiet(s.sh, t, s.pcs[t], s'.sh, s'.pcs[t]);
    }
  }

  lemma CallKeeps(s: State, t: nat, s': State)
    requires Inv(s) && Calls(s, t, s')
    ensures Inv(s')
  {
    assert Local(s.sh, t, s.pcs[t]);
    forall u: nat | u < |s'.pcs| ensures Local(s'.sh, u, s'.pcs[u]) {
      assert u != t ==> Local(s.sh, u, s.pcs[u]);
    }
    forall o: nat | o < |s.sh.owners| && CellOf(o) !in s.sh.ready ensures Storing(s'.pcs[s.sh.owners[o]], o) {
      assert Storing(s.pcs[s.sh.owners[o]], o);
    }
  }

  lemma JoinKeeps(s: State)
    requires Inv(s)
    ensures Inv(s.(pcs := s.pcs + [Idle]))
  {
    var s' := s.(pcs := s.pcs + [Idle]);
    forall u: nat | u < |s'.pcs| ensures Local(s'.sh, u, s'.pcs[u]) {
      assert u < |s.pcs| ==> Local(s.sh, u, s.pcs[u]);
    }
    forall o: nat | o < |s.sh.owners| && CellOf(o) !in s.sh.ready ensures Storing(s'.pcs[s.sh.owners[o]], o) {
      assert Storing(s.pcs[s.sh.owners[o]], o);
    }
  }

  lemma ClosedGlobal(sh: Shared)
    requires Global(sh)
    ensures Global(sh.(closed := true))
  {
  }

  lemma ClosedLocal(sh: Shared, u: nat, pc: Pc)
    requires Local(sh, u, pc)
    ensures Local(sh.(closed := true), u, pc)
  {
  }

  lemma LogCloseKeeps(s: State)
    requires Inv(s)
    ensures Inv(s.(sh := s.sh.(closed := true)))
  {
    var s' := s.(sh := s.sh.(closed := true));
    ClosedGlobal(s.sh);
    forall u: nat | u < |s'.pcs| ensures Local(s'.sh, u, s'.pcs[u]) {
      ClosedLocal(s.sh, u, s.pcs[u]);
    }
  }

  lemma NextKeeps(s: State, s': State)
    requires Inv(s) && Next(s, s')
    ensures Inv(s')
  {
    if t: nat :| Moves(s, t, s') {
      MoveKeeps(s, t, s');
    } else if t: nat :| Calls(s, t, s') {
      CallKeeps(s, t, s');
    } else if s' == s.(pcs := s.pcs + [Idle]) {
      JoinKeeps(s);
    } else {
      LogCloseKeeps(s);
    }
  }

  lemma RunKeeps(run: seq<State>)
    requires IsRun(Init, Next, run)
    ensures forall i :: 0 <= i < |run| ==> Inv(run[i])
  {
    forall s, s' | Inv(s) && Next(s, s') ensures Inv(s') {
      NextKeeps(s, s');
    }
    Invariance(Init, Next, Inv, run);
  }

  // ---------------------------------------------------------------- the log is a sequence

  /** In every run, what a cursor's Dequeue has returned is exactly the claimed payloads at the
      consecutive offsets since it was opened or last purged, and it is never ahead of the log. */
  lemma CursorsReadTheLog(run: seq<State>, i: nat, c: nat)
    requires IsRun(Init, Next, run) && i < |run| && c < |run[i].sh.cursors|
    ensures var k := run[i].sh.cursors[c];
      && k.born <= k.start <= k.offset <= run[i].sh.head == |run[i].sh.items|
      && k.taken == run[i].sh.items[k.start..k.offset]
  {
    RunKeeps(run);
    assert CursorOk(run[i].sh, run[i].sh.cursors[c]);
  }

  /** In every run, two cursors read the payloads they both read in one order: at any offset both
      have passed since their starts they returned the same payload. */
  lemma OneOrder(run: seq<State>, i: nat, c: nat, d: nat, o: nat)
    requires IsRun(Init, Next, run) && i < |run| && c < |run[i].sh.cursors| && d < |run[i].sh.cursors|
    requires var k, l := run[i].sh.cursors[c], run[i].sh.cursors[d];
      k.start <= o < k.offset && l.start <= o < l.offset
    ensures var k, l := run[i].sh.cursors[c], run[i].sh.cursors[d];
      && |k.taken| == k.offset - k.start && |l.taken| == l.offset - l.start
      && k.taken[o - k.start] == l.taken[o - l.start]
  {
    CursorsReadTheLog(run, i, c);
    CursorsReadTheLog(run, i, d);
  }

  /** In every run, a Dequeue that returns takes the payload at the cursor's offset; it returns
      nothing only if the cursor is closed or that offset is not claimed. */
  lemma DequeueIsNext(run: seq<State>, i: nat, t: nat)
    requires IsRun(Init, Next, run) && i < |run|
    requires i + 1 < |run| && Moves(run[i], t, run[i + 1])
    requires run[i].pcs[t].Deq? && run[i].pcs[t].c < |run[i].sh.cursors|
    ensures var k, at := run[i].sh.cursors[run[i].pcs[t].c], run[i + 1].pcs[t].deq;
      && (at.Got? ==> k.offset < |run[i].sh.items| && at.item == run[i].sh.items[k.offset])
      && (at.Empty? ==> k.chunk.Nil? || k.offset == run[i].sh.head)
  {
    RunKeeps(run);
    var s, s' := run[i], run[i + 1];
    assert Local(s.sh, t, s.pcs[t]);
    if s'.pcs[t].deq.Got? {
      TakeKeeps(s.sh, t, s.pcs[t].c, s'.sh, s'.pcs[t]);
    }
    assert CursorOk(s.sh, s.sh.cursors[s.pcs[t].c]);
  }

  /** In every run, Values and a consumer's Purge return everything claimed between the cursor's
      offset and the head they read, and the Purge moves the cursor there. */
  lemma ScanIsUnread(run: seq<State>, i: nat, t: nat)
    requires IsRun(Init, Next, run) && i < |run|
    requires i + 1 < |run| && Moves(run[i], t, run[i + 1])
    requires run[i].pcs[t].Scan? && run[i].pcs[t].scan.Scanning? && run[i + 1].pcs[t].scan.Scanned?
    ensures var pc := run[i].pcs[t];
      && pc.c < |run[i].sh.cursors| == |run[i + 1].sh.cursors|
      && var k, k' := run[i].sh.cursors[pc.c], run[i + 1].sh.cursors[pc.c];
         && k.offset <= pc.scan.end <= |run[i].sh.items| == run[i].sh.head
         && run[i + 1].pcs[t].scan.out == run[i].sh.items[k.offset..pc.scan.end]
         && (pc.purge ==> k'.offset == k'.start == pc.scan.end && k'.taken == [])
  {
    RunKeeps(run);
    assert Local(run[i].sh, t, run[i].pcs[t]);
  }

  /** In every run, each claimed offset has one owner, which is storing it or has published it; it
      writes in the one chunk that covers the offset. */
  lemma OneOwner(run: seq<State>, i: nat, o: nat)
    requires IsRun(Init, Next, run) && i < |run| && o < run[i].sh.head
    ensures |run[i].sh.items| == |run[i].sh.owners| == run[i].sh.head
    ensures CellOf(o) !in run[i].sh.ready ==>
      run[i].sh.owners[o] < |run[i].pcs| && Storing(run[i].pcs[run[i].sh.owners[o]], o)
    ensures forall t :: 0 <= t < |run[i].pcs| && Storing(run[i].pcs[t], o) ==>
      && run[i].sh.owners[o] == t && run[i].sh.items[o] == run[i].pcs[t].item && CellOf(o) !in run[i].sh.ready
    ensures forall t :: 0 <= t < |run[i].pcs| && Storing(run[i].pcs[t], o) && run[i].pcs[t].app.Write? ==>
      var ch := run[i].pcs[t].app.t;
      && ch < |run[i].sh.chunks| && run[i].sh.chunks[ch].base <= o < End(run[i].sh.chunks[ch])
      && Cell(ch, o - run[i].sh.chunks[ch].base) == CellOf(o)
  {
    RunKeeps(run);
    var s := run[i];
    forall t | 0 <= t < |s.pcs| && Storing(s.pcs[t], o) ensures Owns(s.sh, t, s.pcs[t].item, o) {
      assert Local(s.sh, t, s.pcs[t]);
    }
    forall t | 0 <= t < |s.pcs| && Storing(s.pcs[t], o) && s.pcs[t].app.Write?
      ensures var ch := s.pcs[t].app.t;
        && ch < |s.sh.chunks| && s.sh.chunks[ch].base <= o < End(s.sh.chunks[ch])
        && Cell(ch, o - s.sh.chunks[ch].base) == CellOf(o)
    {
      assert Local(s.sh, t, s.pcs[t]);
    }
  }

  ghost predicate Writing(s: State, t: nat)
  {
    && t < |s.pcs| && s.pcs[t].App? && s.pcs[t].app.Write?
    && s.pcs[t].app.t < |s.sh.chunks| && s.sh.chunks[s.pcs[t].app.t].base <= s.pcs[t].app.o
  }

  /** The slot goroutine t is about to store to. */
  function SlotOf(s: State, t: nat): Cell
    requires Writing(s, t)
  {
    Cell(s.pcs[t].app.t, s.pcs[t].app.o - s.sh.chunks[s.pcs[t].app.t].base)
  }

  /** t has stored to the slot of offset o: it is published, or t is about to publish it. */
  ghost predicate Wrote(s: State, t: nat, o: nat)
  {
    CellOf(o) in s.sh.ready || (t < |s.pcs| && s.pcs[t].App? && s.pcs[t].app.Publish? && s.pcs[t].app.o == o)
  }

  lemma WroteStays(s: State, s': State, t: nat, o: nat)
    requires Inv(s) && Next(s, s') && Wrote(s, t, o)
    ensures Wrote(s', t, o)
  {
    if u: nat :| Moves(s, u, s') {
      WroteMoves(s, u, s', t, o);
    }
  }

  lemma WroteMoves(s: State, u: nat, s': State, t: nat, o: nat)
    requires Inv(s) && Moves(s, u, s') && Wrote(s, t, o)
    ensures Wrote(s', t, o)
  {
    assert Local(s.sh, u, s.pcs[u]);
    MoverKeeps(s.sh, u, s.pcs[u], s'.sh, s'.pcs[u]);
    if u == t && CellOf(o) !in s.sh.ready {
      StoringMoves(s.sh, t, s.pcs[t], s'.sh, s'.pcs[t], o);
    }
  }

  lemma WriteWrites(s: State, t: nat, s': State)
    requires Inv(s) && Moves(s, t, s') && Writing(s, t)
    ensures SlotOf(s, t) == CellOf(s.pcs[t].app.o) && s.pcs[t].app.o < |s.sh.owners|
    ensures s.sh.owners[s.pcs[t].app.o] == t && !Wrote(s, t, s.pcs[t].app.o) && Wrote(s', t, s.pcs[t].app.o)
  {
    assert Local(s.sh, t, s.pcs[t]);
  }

  /** From the store on, t has written. */
  lemma WroteLater(part: seq<State>, t: nat, o: nat)
    requires |part| > 0 && Inv(part[0]) && Wrote(part[0], t, o) && IsRun(From(part[0]), Next, part)
    ensures Wrote(part[|part| - 1], t, o) && part[0].sh.owners <= part[|part| - 1].sh.owners
  {
    var owners := part[0].sh.owners;
    var kept: State -> bool := x => Inv(x) && Wrote(x, t, o) && owners <= x.sh.owners;
    forall x, y | kept(x) && Next(x, y) ensures kept(y) {
      NextKeeps(x, y);
      WroteStays(x, y, t, o);
      OwnersStay(x, y);
    }
    assert Inductive(From(part[0]), Next, kept);
    Invariance(From(part[0]), Next, kept, part);
  }

  lemma OwnersStay(s: State, s': State)
    requires Next(s, s')
    ensures s.sh.owners <= s'.sh.owners
  {
    if u: nat :| Moves(s, u, s') {
      OwnersGrow(s.sh, u, s.pcs[u], s'.sh, s'.pcs[u]);
    }
  }

  lemma LaterWrote(run: seq<State>, a: nat, b: nat, t: nat, o: nat)
    requires IsRun(Init, Next, run) && a <= b < |run| && Wrote(run[a], t, o)
    ensures Wrote(run[b], t, o) && run[a].sh.owners <= run[b].sh.owners
  {
    InvAt(run, a);
    Stretch(Init, Next, run, a, b);
    WroteLater(run[a..b + 1], t, o);
  }

  /** The state of a later store: the first one's offset is written, and its owner stands. */
  lemma SlotsDiffer(s: State, t: nat, r: State, u: nat, r': State)
    requires Inv(s) && Writing(s, t) && SlotOf(s, t) == CellOf(s.pcs[t].app.o)
    requires s.pcs[t].app.o < |r.sh.owners| && r.sh.owners[s.pcs[t].app.o] == t && Wrote(r, t, s.pcs[t].app.o)
    requires Inv(r) && Moves(r, u, r') && Writing(r, u)
    ensures SlotOf(s, t) != SlotOf(r, u)
  {
    WriteWrites(r, u, r');
    OneOffset(s.pcs[t].app.o, r.pcs[u].app.o);
  }

  /** In every run, no two stores of Append go to the same slot: each slot is written once. */
  lemma SlotWrittenOnce(run: seq<State>, i: nat, t: nat, j: nat, u: nat)
    requires IsRun(Init, Next, run) && i < j && j + 1 < |run|
    requires Moves(run[i], t, run[i + 1]) && Writing(run[i], t)
    requires Moves(run[j], u, run[j + 1]) && Writing(run[j], u)
    ensures SlotOf(run[i], t) != SlotOf(run[j], u)
  {
    InvAt(run, i);
    InvAt(run, j);
    var s, s1, r, r' := run[i], run[i + 1], run[j], run[j + 1];
    assert Writing(s, t) && Writing(r, u) && Moves(r, u, r') && Moves(s, t, s1);
    WriteWrites(s, t, s1);
    LaterWrote(run, i + 1, j, t, s.pcs[t].app.o);
    WriteOwns(s, t, s1);
    SlotsDiffer(s, t, r, u, r');
  }

  lemma WriteOwns(s: State, t: nat, s': State)
    requires Inv(s) && Moves(s, t, s') && Writing(s, t)
    ensures s'.sh.owners == s.sh.owners
  {
  }

  lemma OneOffset(o: nat, o': nat)
    ensures CellOf(o) == CellOf(o') ==> o == o'
  {
    assert OffsetOf(CellOf(o)) == o && OffsetOf(CellOf(o')) == o';
  }

  lemma InvAt(run: seq<State>, i: nat)
    requires IsRun(Init, Next, run) && i < |run|
    ensures Inv(run[i])
  {
    RunKeeps(run);
  }

  /** In every run, a published slot the consumer has not cleared holds the payload claimed for it. */
  lemma PublishedIsClaimed(run: seq<State>, i: nat, o: nat)
    requires IsRun(Init, Next, run) && i < |run| && CellOf(o) in run[i].sh.ready && run[i].sh.cleared <= o
    ensures o < |run[i].sh.items| && CellOf(o) in run[i].sh.cells && run[i].sh.cells[CellOf(o)] == run[i].sh.items[o]
  {
    RunKeeps(run);
    assert OffsetOf(CellOf(o)) == o;
  }

  /** In every run of a bounded log, no open cursor has more than limit unread items. */
  lemma BoundHolds(run: seq<State>, i: nat, c: nat)
    requires IsRun(Init, Next, run) && i < |run| && c < |run[i].sh.cursors| && run[i].sh.cursors[c].chunk.At?
    requires run[i].sh.limit != 0
    ensures 0 <= run[i].sh.head - run[i].sh.cursors[c].offset <= run[i].sh.limit
  {
    RunKeeps(run);
    assert CursorOk(run[i].sh, run[i].sh.cursors[c]) && c in run[i].sh.open;
  }

  // ---------------------------------------------------------------- nothing is nil

  /** What the next step of Append dereferences: a tail, a chunk, and a slot inside it. */
  predicate AppendFinds(sh: Shared, at: AppendAt)
  {
    match at
    case FullScan(i, _) => i < |sh.open| ==> sh.open[i] < |sh.cursors|
    case LoadTail(_) => sh.tail.At?
    case Seek(_, _, ch, _) => ch < |sh.chunks|
    case TryLink(_, _, ch, _) => ch < |sh.chunks|
    case Link(_, _, ch, _) => ch < |sh.chunks|
    case Advance(_, _, ch, next, _) => ch < |sh.chunks| && next < |sh.chunks|
    case Write(_, o, ch) => ch < |sh.chunks| && sh.chunks[ch].base <= o < End(sh.chunks[ch])
    case Publish(_, o, ch) => ch < |sh.chunks| && sh.chunks[ch].base <= o < End(sh.chunks[ch])
    case _ => true
  }

  /** A ready slot that is about to be read has its payload. */
  predicate SlotFinds(sh: Shared, chunk: nat, idx: nat)
  {
    && chunk < |sh.chunks|
    && (idx < CAPACITY && Cell(chunk, idx) in sh.ready ==> Cell(chunk, idx) in sh.cells)
  }

  /** What the next step of any call dereferences. */
  predicate Finds(sh: Shared, pc: Pc)
  {
    match pc
    case Idle => true
    case App(_, at) => AppendFinds(sh, at)
    case Open(OpenTail) => sh.tail.At?
    case Open(OpenList(ch, h)) => ch < |sh.chunks| && sh.chunks[ch].base <= h
    case Open(_) => true
    case Deq(c, at) =>
      c < |sh.cursors| &&
      var k := sh.cursors[c];
      at.Look? && k.chunk.At? ==> SlotFinds(sh, k.chunk.id, k.idx)
    case Scan(c, _, at) => c < |sh.cursors| && (at.Scanning? && at.off < at.end ==> SlotFinds(sh, at.chunk, at.idx))
    case Skip(c, at) =>
      && c < |sh.cursors| && (at.SkipTail? && sh.cursors[c].chunk.At? ==> sh.tail.At?)
      && (at.SkipStore? ==> at.t < |sh.chunks| && sh.chunks[at.t].base <= at.h)
    case Close(c, _) => c < |sh.cursors|
  }

  lemma FindsAppend(sh: Shared, t: nat, pc: Pc)
    requires Global(sh) && Local(sh, t, pc) && pc.App?
    ensures AppendFinds(sh, pc.app)
  {
  }

  lemma FindsSlot(sh: Shared, chunk: nat, idx: nat)
    requires Global(sh) && chunk < |sh.chunks| && sh.cleared <= chunk * CAPACITY + idx
    ensures SlotFinds(sh, chunk, idx)
  {
    assert OffsetOf(Cell(chunk, idx)) == chunk * CAPACITY + idx;
  }

  lemma FindsAll(sh: Shared, t: nat, pc: Pc)
    requires Global(sh) && Local(sh, t, pc)
    ensures Finds(sh, pc)
  {
    match pc
    case App(_, _) => FindsAppend(sh, t, pc);
    case Deq(c, at) =>
      assert CursorOk(sh, sh.cursors[c]);
      if at.Look? && sh.cursors[c].chunk.At? {
        FindsSlot(sh, sh.cursors[c].chunk.id, sh.cursors[c].idx);
      }
    case Scan(c, purge, at) =>
      if at.Scanning? && at.off < at.end {
        FindsSlot(sh, at.chunk, at.idx);
      }
    case _ =>
  }

  /** In every run, no step of the log meets a nil: an Append that sees a cursor sees a tail, every
      chunk it walks to exists and has the slot it writes, and a reader finds what a ready slot
      promises. So no step of the model is disabled but by a lock or by waiting for a writer. */
  lemma NothingIsNil(run: seq<State>, i: nat, t: nat)
    requires IsRun(Init, Next, run) && i < |run| && t < |run[i].pcs|
    ensures Finds(run[i].sh, run[i].pcs[t])
  {
    InvAt(run, i);
    FindsAll(run[i].sh, t, run[i].pcs[t]);
  }

  // ---------------------------------------------------------------- topics

  /** Every subscription was open before offset o was claimed. */
  ghost predicate Reaches(sh: Shared, o: nat)
  {
    forall i :: 0 <= i < |sh.open| ==> sh.open[i] < |sh.cursors| && sh.cursors[sh.open[i]].born <= o
  }

  ghost predicate PublishLocal(sh: Shared, at: AppendAt)
  {
    match at
    case LoadClosed(n) => n == |sh.open|
    case LoadTail(n) => n == |sh.open|
    case Claim(n, _) => n == |sh.open|
    case Seek(n, o, _, _) => n == |sh.open| && Reaches(sh, o)
    case TryLink(n, o, _, _) => n == |sh.open| && Reaches(sh, o)
    case Link(n, o, _, _) => n == |sh.open| && Reaches(sh, o)
    case Advance(n, o, _, _, _) => n == |sh.open| && Reaches(sh, o)
    case Write(n, o, _) => n == |sh.open| && Reaches(sh, o)
    case Publish(n, o, _) => n == |sh.open| && Reaches(sh, o)
    case _ => true
  }

  ghost predicate TopicInv(s: State)
  {
    s.sh.topic ==>
      && (forall t, u :: 0 <= t < |s.pcs| && 0 <= u < |s.pcs| && Publishing(s.pcs[t]) ==> !Subscribing(s.pcs[u]))
      && (forall t, u :: 0 <= t < |s.pcs| && 0 <= u < |s.pcs| && Subscribing(s.pcs[t]) && Subscribing(s.pcs[u]) ==>
            t == u)
      && (forall t :: 0 <= t < |s.pcs| && Publishing(s.pcs[t]) ==> PublishLocal(s.sh, s.pcs[t].app))
      && (forall t :: 0 <= t < |s.pcs| && Subscribing(s.pcs[t]) ==> |s.sh.open| == s.sh.nOpen + Pending(s.pcs[t]))
      && ((forall t :: 0 <= t < |s.pcs| ==> !Subscribing(s.pcs[t])) ==> |s.sh.open| == s.sh.nOpen)
  }

  function Pending(pc: Pc): nat
  {
    if pc == Open(OpenCount) then 1 else 0
  }

  lemma PublishLocalMoves(sh: Shared, t: nat, pc: Pc, sh': Shared, pc': Pc)
    requires Global(sh) && AppendStep(sh, t, pc, sh', pc') && PublishLocal(sh, pc.app) && |sh.open| == sh.nOpen
    ensures PublishLocal(sh', pc'.app)
    ensures pc'.app.Appended? ==> pc'.app.n == |sh.open| && Reaches(sh, pc'.app.o)
  {
    if AdmitStep(sh, t, pc.app, sh', pc'.app) {
      AdmitPublishes(sh, t, pc.app, sh', pc'.app);
    } else {
      StorePublishes(sh, t, pc.item, pc.app, sh', pc'.app);
    }
  }

  lemma AdmitPublishes(sh: Shared, t: nat, at: AppendAt, sh': Shared, at': AppendAt)
    requires AdmitStep(sh, t, at, sh', at') && PublishLocal(sh, at) && |sh.open| == sh.nOpen
    ensures PublishLocal(sh', at') && !at'.Appended?
  {
  }

  lemma StorePublishes(sh: Shared, t: nat, item: Payload, at: AppendAt, sh': Shared, at': AppendAt)
    requires CursorsOk(sh) && Listed(sh) && TailOk(sh) && StoreStep(sh, t, item, at, sh', at') && PublishLocal(sh, at)
    ensures PublishLocal(sh', at')
    ensures at'.Appended? ==> at'.n == |sh.open| && Reaches(sh, at'.o)
  {
    StoreQuiet(sh, t, item, at, sh', at');
    if at.Claim? {
      assert forall c :: 0 <= c < |sh.cursors| ==> CursorOk(sh, sh.cursors[c]);
      assert Reaches(sh, sh.head);
    }
  }

  lemma OthersStillReach(sh: Shared, sh': Shared, at: AppendAt)
    requires PublishLocal(sh, at) && sh'.open == sh.open && |sh'.cursors| == |sh.cursors|
    requires forall c :: 0 <= c < |sh.cursors| ==> sh'.cursors[c].born == sh.cursors[c].born
    ensures PublishLocal(sh', at)
  {
  }

  lemma SubscribeMoves(sh: Shared, t: nat, pc: Pc, sh': Shared, pc': Pc)
    requires Subscribing(pc) && GoStep(sh, t, pc, sh', pc') && |sh.open| == sh.nOpen + Pending(pc)
    ensures |sh'.open| == sh'.nOpen + Pending(pc') && !Publishing(pc')
  {
    if pc.Open? { OpensMove(sh, t, pc, sh', pc'); } else { ClosesMove(sh, t, pc, sh', pc'); }
  }

  lemma OpensMove(sh: Shared, t: nat, pc: Pc, sh': Shared, pc': Pc)
    requires OpenStep(sh, t, pc, sh', pc') && |sh.open| == sh.nOpen + Pending(pc)
    ensures |sh'.open| == sh'.nOpen + Pending(pc') && !pc'.App?
  {
  }

  lemma ClosesMove(sh: Shared, t: nat, pc: Pc, sh': Shared, pc': Pc)
    requires CloseStep(sh, t, pc, sh', pc') && |sh.open| == sh.nOpen
    ensures |sh'.open| == sh'.nOpen && (pc'.Close? || pc'.Idle?)
  {
  }

  lemma QuietMoves(sh: Shared, t: nat, pc: Pc, sh': Shared, pc': Pc)
    requires !Subscribing(pc) && GoStep(sh, t, pc, sh', pc')
    ensures Quiet(sh, sh'.(owners := sh.owners)) && sh'.topic == sh.topic
    ensures !Subscribing(pc') && (Publishing(pc') ==> Publishing(pc))
  {
    match pc
    case App(_, _) =>
      if AdmitStep(sh, t, pc.app, sh', pc'.app) {
        AdmitQuiet(sh, t, pc.app, sh', pc'.app);
      } else {
        StoreQuiet(sh, t, pc.item, pc.app, sh', pc'.app);
      }
    case Deq(_, _) => DequeueQuiet(sh, t, pc, sh', pc');
    case Scan(_, _, _) => ScanQuiet(sh, t, pc, sh', pc');
    case Skip(_, _) => SkipQuiet(sh, t, pc, sh', pc');
  }

  lemma TopicMoves(s: State, t: nat, s': State)
    requires Inv(s) && TopicInv(s) && Moves(s, t, s')
    ensures TopicInv(s')
  {
    var pc, pc' := s.pcs[t], s'.pcs[t];
    OwnersGrow(s.sh, t, pc, s'.sh, pc');
    if s.sh.topic {
      if Subscribing(pc) {
        SubscribeMoves(s.sh, t, pc, s'.sh, pc');
      } else {
        QuietMoves(s.sh, t, pc, s'.sh, pc');
        if Publishing(pc) {
          PublishLocalMoves(s.sh, t, pc, s'.sh, pc');
        }
        forall u | 0 <= u < |s.pcs| && u != t && Publishing(s.pcs[u]) ensures PublishLocal(s'.sh, s.pcs[u].app) {
          OthersStillReach(s.sh, s'.sh, s.pcs[u].app);
        }
        forall u | 0 <= u < |s.pcs| && u != t ensures s'.pcs[u] == s.pcs[u] {
        }
        if forall u :: 0 <= u < |s.pcs| ==> !Subscribing(s'.pcs[u]) {
          assert forall u :: 0 <= u < |s.pcs| ==> !Subscribing(s.pcs[u]);
        }
      }
    }
  }

  lemma TopicRest(s: State, s': State)
    requires TopicInv(s) && (s' == s.(pcs := s.pcs + [Idle]) || s' == s.(sh := s.sh.(closed := true)))
    ensures TopicInv(s')
  {
    forall t | 0 <= t < |s'.pcs| && Publishing(s'.pcs[t]) && s'.sh.topic ensures PublishLocal(s'.sh, s'.pcs[t].app) {
      OthersStillReach(s.sh, s'.sh, s.pcs[t].app);
    }
    forall t | 0 <= t < |s.pcs| ensures s'.pcs[t] == s.pcs[t] {
    }
  }

  lemma TopicCalls(s: State, t: nat, s': State)
    requires TopicInv(s) && Calls(s, t, s')
    ensures TopicInv(s')
  {
    if s.sh.topic && (forall u :: 0 <= u < |s'.pcs| ==> !Subscribing(s'.pcs[u])) {
      assert !Subscribing(s.pcs[t]);
      assert forall u :: 0 <= u < |s.pcs| ==> (u != t ==> s'.pcs[u] == s.pcs[u]);
    }
  }

  ghost predicate FullInv(s: State)
  {
    Inv(s) && TopicInv(s)
  }

  lemma NextFull(s: State, s': State)
    requires FullInv(s) && Next(s, s')
    ensures FullInv(s')
  {
    NextKeeps(s, s');
    if t: nat :| Moves(s, t, s') {
      TopicMoves(s, t, s');
    } else if t: nat :| Calls(s, t, s') {
      TopicCalls(s, t, s');
    } else {
      TopicRest(s, s');
    }
  }

  lemma FullRun(run: seq<State>)
    requires IsRun(Init, Next, run)
    ensures forall i :: 0 <= i < |run| ==> FullInv(run[i])
  {
    forall s, s' | FullInv(s) && Next(s, s') ensures FullInv(s') {
      NextFull(s, s');
    }
    Invariance(Init, Next, FullInv, run);
  }

  /** In every run of a topic, a Publish that returns true has put its payload at one offset of the
      log that every current subscription was opened before, so each of them has it exactly once;
      one that returns false has claimed nothing. */
  lemma PublishReachesAll(run: seq<State>, i: nat, t: nat)
    requires IsRun(Init, Next, run) && i + 1 < |run| && run[i].sh.topic && Moves(run[i], t, run[i + 1])
    requires Publishing(run[i].pcs[t])
    ensures var s, s', at' := run[i], run[i + 1], run[i + 1].pcs[t].app;
      && run[i + 1].pcs[t].App?
      && (at'.Appended? ==>
            && at'.n == |s'.sh.open| > 0 && Reaches(s'.sh, at'.o)
            && at'.o < s'.sh.head == |s'.sh.items| && s'.sh.items[at'.o] == run[i].pcs[t].item)
      && (at'.Refused? ==> !exists o :: Storing(s.pcs[t], o))
      && (s'.sh.items != s.sh.items ==> s.pcs[t].app.Claim? && s'.sh.items == s.sh.items + [s.pcs[t].item])
  {
    FullRun(run);
    var s, s' := run[i], run[i + 1];
    assert Local(s.sh, t, s.pcs[t]) && Local(s'.sh, t, s'.pcs[t]);
    QuietMoves(s.sh, t, s.pcs[t], s'.sh, s'.pcs[t]);
    PublishLocalMoves(s.sh, t, s.pcs[t], s'.sh, s'.pcs[t]);
    ItemsGrow(s.sh, t, s.pcs[t], s'.sh, s'.pcs[t]);
  }

  lemma ItemsGrow(sh: Shared, t: nat, pc: Pc, sh': Shared, pc': Pc)
    requires AppendStep(sh, t, pc, sh', pc')
    ensures sh'.items == (if pc.app.Claim? then sh.items + [pc.item] else sh.items)
    ensures pc'.app.Refused? ==> forall o :: !Storing(pc, o)
  {
  }
}
