/** The chunked log behind queues and topics (internal/topics/log.go, topic.go). Writers claim an
    offset with one atomic add, link chunks by CAS and publish each slot with a ready flag; cursors
    read, scan, purge, open and close meanwhile. One step is one atomic operation, or one lock or
    unlock; what a cursor's lock alone protects is read and written in the step that needs it.
    A slot array is a map from cells; a payload matters only by its identity. */
module TopicLog {
  import opened Basics
  import opened Runs

  type Payload = int

  const CAPACITY := 1024
  const LINK_SPINS := 4

  datatype Ref = Nil | At(id: nat)

  /** A chunk's slots are the cells (chunk, 0) .. (chunk, CAPACITY - 1). */
  datatype Cell = Cell(chunk: nat, idx: nat)
  datatype Chunk = Chunk(base: nat, next: Ref, linking: bool)

  datatype Lock = Free | HeldBy(owner: nat)

  /** start, born and taken are history: where the cursor was opened or last purged to, where it
      was opened, and what Dequeue returned since start. */
  datatype Cursor = Cursor(chunk: Ref, idx: nat, offset: nat, mx: Lock, born: nat, start: nat, taken: seq<Payload>)

  /** items, owners and cleared are history: the claimed payloads in claim order, who claimed them,
      and below which offset the consuming cursor has cleared the slots. limit, topic and consumer
      are fixed: the bound (0 is none), whether a topic's lock keeps publishing apart from
      subscribing, and whether the only cursor consumes. */
  datatype Shared = Shared(
    limit: nat, topic: bool, consumer: bool,
    head: nat, tail: Ref, chunks: seq<Chunk>, cells: map<Cell, Payload>, ready: set<Cell>,
    nOpen: nat, open: seq<nat>, cursors: seq<Cursor>, closed: bool, mx: Lock,
    items: seq<Payload>, owners: seq<nat>, cleared: nat)

  datatype AppendAt =
    | Limit
    | TakeLock
    | FullCheck
    | FullScan(i: nat, slowest: nat)
    | FullHead(slowest: nat)
    | LoadOpen
    | LoadClosed(n: nat)
    | LoadTail(n: nat)
    | Claim(n: nat, t: nat)
    | Seek(n: nat, o: nat, t: nat, spins: nat)
    | TryLink(n: nat, o: nat, t: nat, spins: nat)
    | Link(n: nat, o: nat, t: nat, spins: nat)
    | Advance(n: nat, o: nat, t: nat, next: nat, spins: nat)
    | Write(n: nat, o: nat, t: nat)
    | Publish(n: nat, o: nat, t: nat)
    | Appended(n: nat, o: nat)
    | Refused

  datatype OpenAt =
    | OpenLock
    | OpenInit
    | OpenTail
    | OpenHead(t: nat)
    | OpenList(t: nat, h: nat)
    | OpenCount
    | OpenUnlock

  datatype DequeueAt = DequeueLock | Look | AskClaimed | Got(item: Payload) | Empty

  datatype ScanAt =
    | ScanLock
    | ScanEnd
    | Scanning(end: nat, off: nat, chunk: nat, idx: nat, out: seq<Payload>)
    | Scanned(out: seq<Payload>)

  datatype SkipAt = SkipLock | SkipTail | SkipHead(t: nat) | SkipStore(t: nat, h: nat)
  datatype CloseAt = CloseLock | CloseDetach | CloseLog | CloseList

  datatype Pc =
    | Idle
    | App(item: Payload, app: AppendAt)
    | Open(opening: OpenAt)
    | Deq(c: nat, deq: DequeueAt)
    | Scan(c: nat, purge: bool, scan: ScanAt)
    | Skip(c: nat, skip: SkipAt)
    | Close(c: nat, closing: CloseAt)

  datatype State = State(sh: Shared, pcs: seq<Pc>)

  function End(ch: Chunk): nat
  {
    ch.base + CAPACITY
  }

  ghost predicate Init(s: State)
  {
    && s.pcs == []
    && s.sh == Shared(s.sh.limit, s.sh.topic, s.sh.consumer, 0, Nil, [], map[], {}, 0, [], [], false, Free, [], [], 0)
  }

  // ---------------------------------------------------------------- Append

  /** Up to the claim. A bounded Append holds mx to its end. */
  predicate AdmitStep(sh: Shared, t: nat, at: AppendAt, sh': Shared, at': AppendAt)
  {
    match at
    case Limit => at' == (if sh.limit != 0 then TakeLock else LoadOpen) && sh' == sh
    case TakeLock => sh.mx.Free? && at' == FullCheck && sh' == sh.(mx := HeldBy(t))
    case FullCheck =>
      && at' == (if sh.closed || sh.open == [] then Refused else FullScan(0, 0))
      && sh' == (if at'.Refused? then sh.(mx := Free) else sh)
    case FullScan(i, slowest) =>
      && sh' == sh
      && if i < |sh.open| then
           && sh.open[i] < |sh.cursors|
           && var offset := sh.cursors[sh.open[i]].offset;
              at' == FullScan(i + 1, if i == 0 then offset else Min(slowest, offset))
         else at' == FullHead(slowest)
    case FullHead(slowest) =>
      && at' == (if sh.head - slowest >= sh.limit then Refused else LoadOpen)
      && sh' == (if at'.Refused? then sh.(mx := Free) else sh)
    case LoadOpen => at' == LoadClosed(sh.nOpen) && sh' == sh
    case LoadClosed(n) =>
      && at' == (if sh.closed || n == 0 then Refused else LoadTail(n))
      && sh' == (if at'.Refused? && sh.limit != 0 then sh.(mx := Free) else sh)
    case LoadTail(n) => sh.tail.At? && at' == Claim(n, sh.tail.id) && sh' == sh
    case _ => false
  }

  /** From the claim to the published slot. */
  predicate StoreStep(sh: Shared, t: nat, item: Payload, at: AppendAt, sh': Shared, at': AppendAt)
  {
    match at
    case Claim(n, ch) =>
      && at' == Seek(n, sh.head, ch, 0)
      && sh' == sh.(head := sh.head + 1, items := sh.items + [item], owners := sh.owners + [t])
    case Seek(n, o, ch, spins) =>
      && ch < |sh.chunks| && sh' == sh
      && at' == (if o < End(sh.chunks[ch]) then Write(n, o, ch)
                 else if sh.chunks[ch].next.Nil? then TryLink(n, o, ch, spins)
                 else Advance(n, o, ch, sh.chunks[ch].next.id, spins))
    case TryLink(n, o, ch, spins) =>
      && ch < |sh.chunks|
      && at' == (if !sh.chunks[ch].linking || spins == LINK_SPINS then Link(n, o, ch, spins)
                 else Seek(n, o, ch, spins + 1))
      && sh' == sh.(chunks := sh.chunks[ch := sh.chunks[ch].(linking := true)])
    case Link(n, o, ch, spins) =>
      // the CAS either links a new chunk or drops a spare
      && ch < |sh.chunks| && at' == Seek(n, o, ch, spins)
      && sh' == (if !sh.chunks[ch].next.Nil? then sh
                 else sh.(chunks := sh.chunks[ch := sh.chunks[ch].(next := At(|sh.chunks|))]
                                    + [Chunk(End(sh.chunks[ch]), Nil, false)]))
    case Advance(n, o, ch, next, spins) =>
      && at' == Seek(n, o, next, spins)
      && sh' == (if sh.tail == At(ch) then sh.(tail := At(next)) else sh)
    case Write(n, o, ch) =>
      && ch < |sh.chunks| && sh.chunks[ch].base <= o
      && at' == Publish(n, o, ch) && sh' == sh.(cells := sh.cells[Cell(ch, o - sh.chunks[ch].base) := item])
    case Publish(n, o, ch) =>
      && ch < |sh.chunks| && sh.chunks[ch].base <= o
      && at' == Appended(n, o)
      && sh' == sh.(ready := sh.ready + {Cell(ch, o - sh.chunks[ch].base)}, mx := if sh.limit != 0 then Free else sh.mx)
    case _ => false
  }

  predicate AppendStep(sh: Shared, t: nat, pc: Pc, sh': Shared, pc': Pc)
  {
    && pc.App? && pc'.App? && pc'.item == pc.item
    && (AdmitStep(sh, t, pc.app, sh', pc'.app) || StoreStep(sh, t, pc.item, pc.app, sh', pc'.app))
  }

  // ---------------------------------------------------------------- NewCursor

  predicate OpenStep(sh: Shared, t: nat, pc: Pc, sh': Shared, pc': Pc)
  {
    && pc.Open?
    && match pc.opening
       case OpenLock => sh.mx.Free? && pc' == Open(OpenInit) && sh' == sh.(mx := HeldBy(t))
       case OpenInit =>
         && pc' == Open(OpenTail)
         && sh' == (if sh.tail.At? then sh
                    else sh.(tail := At(|sh.chunks|), chunks := sh.chunks + [Chunk(sh.head, Nil, false)]))
       case OpenTail => sh.tail.At? && pc' == Open(OpenHead(sh.tail.id)) && sh' == sh
       case OpenHead(ch) => pc' == Open(OpenList(ch, sh.head)) && sh' == sh
       case OpenList(ch, h) =>
         && ch < |sh.chunks| && sh.chunks[ch].base <= h
         && pc' == Open(OpenCount)
         && sh' == sh.(cursors := sh.cursors + [Cursor(At(ch), h - sh.chunks[ch].base, h, Free, h, h, [])],
                       open := sh.open + [|sh.cursors|])
       case OpenCount => pc' == Open(OpenUnlock) && sh' == sh.(nOpen := sh.nOpen + 1)
       case OpenUnlock => pc' == Idle && sh' == sh.(mx := Free)
  }

  // ---------------------------------------------------------------- Dequeue

  predicate DequeueStep(sh: Shared, t: nat, pc: Pc, sh': Shared, pc': Pc)
  {
    && pc.Deq? && pc.c < |sh.cursors|
    && var k := sh.cursors[pc.c];
       match pc.deq
       case DequeueLock =>
         k.mx.Free? && pc' == Deq(pc.c, Look) && sh' == sh.(cursors := sh.cursors[pc.c := k.(mx := HeldBy(t))])
       case Look =>
         if k.chunk.Nil? then pc' == Deq(pc.c, Empty) && sh' == sh.(cursors := sh.cursors[pc.c := k.(mx := Free)])
         else if k.chunk.id >= |sh.chunks| then false
         else if k.idx >= CAPACITY then
           if sh.chunks[k.chunk.id].next.Nil? then pc' == Deq(pc.c, AskClaimed) && sh' == sh
           else
             && pc' == pc
             && sh' == sh.(cursors := sh.cursors[pc.c :=
                  k.(chunk := sh.chunks[k.chunk.id].next, idx := k.idx - CAPACITY)])
         else if Cell(k.chunk.id, k.idx) !in sh.ready then pc' == Deq(pc.c, AskClaimed) && sh' == sh
         else
           && Cell(k.chunk.id, k.idx) in sh.cells
           && var item := sh.cells[Cell(k.chunk.id, k.idx)];
              && pc' == Deq(pc.c, Got(item))
              && sh' == ClearIf(sh, Cell(k.chunk.id, k.idx), k.offset).(
                          cursors := sh.cursors[pc.c :=
                            k.(idx := k.idx + 1, offset := k.offset + 1, mx := Free, taken := k.taken + [item])])
       case AskClaimed =>
         if k.offset < sh.head then pc' == Deq(pc.c, Look) && sh' == sh
         else pc' == Deq(pc.c, Empty) && sh' == sh.(cursors := sh.cursors[pc.c := k.(mx := Free)])
       case _ => false
  }

  /** A consuming cursor clears the slot it has read. */
  function ClearIf(sh: Shared, cell: Cell, off: nat): Shared
  {
    if sh.consumer then sh.(cells := sh.cells - {cell}, cleared := off + 1) else sh
  }

  // ---------------------------------------------------------------- Values, and Purge of a consumer

  predicate ScanStep(sh: Shared, t: nat, pc: Pc, sh': Shared, pc': Pc)
  {
    && pc.Scan? && pc.c < |sh.cursors| && pc'.Scan? && pc'.c == pc.c && pc'.purge == pc.purge
    && var k, at' := sh.cursors[pc.c], pc'.scan;
       match pc.scan
       case ScanLock => k.mx.Free? && at' == ScanEnd && sh' == sh.(cursors := sh.cursors[pc.c := k.(mx := HeldBy(t))])
       case ScanEnd =>
         if k.chunk.Nil? then at' == Scanned([]) && sh' == sh.(cursors := sh.cursors[pc.c := k.(mx := Free)])
         else at' == Scanning(sh.head, k.offset, k.chunk.id, k.idx, []) && sh' == sh
       case Scanning(end, off, ch, i, out) =>
         if off >= end then
           && at' == Scanned(out)
           && sh' == sh.(cursors := sh.cursors[pc.c :=
                if pc.purge then k.(chunk := At(ch), idx := i, offset := end, mx := Free, start := end, taken := [])
                else k.(mx := Free)])
         else if ch >= |sh.chunks| then false
         else if i >= CAPACITY then
           && sh' == sh
           && at' == (if sh.chunks[ch].next.Nil? then pc.scan
                      else Scanning(end, off, sh.chunks[ch].next.id, i - CAPACITY, out))
         else if Cell(ch, i) !in sh.ready then at' == pc.scan && sh' == sh
         else
           && Cell(ch, i) in sh.cells
           && at' == Scanning(end, off + 1, ch, i + 1, out + [sh.cells[Cell(ch, i)]])
           && sh' == (if pc.purge then sh.(cells := sh.cells - {Cell(ch, i)}, cleared := off + 1) else sh)
       case _ => false
  }

  // ---------------------------------------------------------------- Purge of any other cursor, and Close

  predicate SkipStep(sh: Shared, t: nat, pc: Pc, sh': Shared, pc': Pc)
  {
    && pc.Skip? && pc.c < |sh.cursors|
    && var k := sh.cursors[pc.c];
       match pc.skip
       case SkipLock =>
         k.mx.Free? && pc' == Skip(pc.c, SkipTail) && sh' == sh.(cursors := sh.cursors[pc.c := k.(mx := HeldBy(t))])
       case SkipTail =>
         if k.chunk.Nil? then pc' == Idle && sh' == sh.(cursors := sh.cursors[pc.c := k.(mx := Free)])
         else sh.tail.At? && pc' == Skip(pc.c, SkipHead(sh.tail.id)) && sh' == sh
       case SkipHead(ch) => pc' == Skip(pc.c, SkipStore(ch, sh.head)) && sh' == sh
       case SkipStore(ch, h) =>
         && ch < |sh.chunks| && sh.chunks[ch].base <= h
         && pc' == Idle
         && sh' == sh.(cursors := sh.cursors[pc.c :=
              k.(chunk := At(ch), idx := h - sh.chunks[ch].base, offset := h, mx := Free, start := h, taken := [])])
  }

  function Without(open: seq<nat>, c: nat): seq<nat>
  {
    if open == [] then [] else (if open[0] == c then [] else [open[0]]) + Without(open[1..], c)
  }

  predicate CloseStep(sh: Shared, t: nat, pc: Pc, sh': Shared, pc': Pc)
  {
    && pc.Close? && pc.c < |sh.cursors|
    && var k := sh.cursors[pc.c];
       match pc.closing
       case CloseLock =>
         k.mx.Free? && pc' == Close(pc.c, CloseDetach) && sh' == sh.(cursors := sh.cursors[pc.c := k.(mx := HeldBy(t))])
       case CloseDetach =>
         if k.chunk.Nil? then pc' == Idle && sh' == sh.(cursors := sh.cursors[pc.c := k.(mx := Free)])
         else pc' == Close(pc.c, CloseLog) && sh' == sh.(cursors := sh.cursors[pc.c := k.(chunk := Nil)])
       case CloseLog => sh.mx.Free? && pc' == Close(pc.c, CloseList) && sh' == sh.(mx := HeldBy(t))
       case CloseList =>
         && pc' == Idle
         && sh' == sh.(open := Without(sh.open, pc.c), nOpen := |Without(sh.open, pc.c)|, mx := Free,
                       cursors := sh.cursors[pc.c := k.(mx := Free)])
  }

  // ---------------------------------------------------------------- runs

  /** A topic publishes under its read lock and subscribes and unsubscribes under its write lock. */
  predicate Publishing(pc: Pc)
  {
    pc.App? && !pc.app.Appended? && !pc.app.Refused?
  }

  predicate Subscribing(pc: Pc)
  {
    pc.Open? || pc.Close?
  }

  /** The calls a goroutine may begin: a consumed log has one cursor, and only it purges by scanning. */
  ghost predicate Begins(s: State, pc: Pc)
  {
    || (pc.App? && pc.app.Limit? && (s.sh.topic ==> forall u :: 0 <= u < |s.pcs| ==> !Subscribing(s.pcs[u])))
    || (pc == Open(OpenLock)
        && (s.sh.topic ==> forall u :: 0 <= u < |s.pcs| ==> !Publishing(s.pcs[u]) && !Subscribing(s.pcs[u]))
        && (s.sh.consumer ==> s.sh.cursors == [] && forall u :: 0 <= u < |s.pcs| ==> !s.pcs[u].Open?))
    || (pc.Deq? && pc.deq.DequeueLock? && pc.c < |s.sh.cursors|)
    || (pc.Scan? && pc.scan.ScanLock? && pc.c < |s.sh.cursors| && (pc.purge ==> s.sh.consumer))
    || (pc.Skip? && pc.skip.SkipLock? && pc.c < |s.sh.cursors| && !s.sh.consumer)
    || (pc.Close? && pc.closing.CloseLock? && pc.c < |s.sh.cursors|
        && (s.sh.topic ==> forall u :: 0 <= u < |s.pcs| ==> !Publishing(s.pcs[u]) && !Subscribing(s.pcs[u])))
  }

  predicate GoStep(sh: Shared, t: nat, pc: Pc, sh': Shared, pc': Pc)
  {
    match pc
    case Idle => false
    case App(_, _) => AppendStep(sh, t, pc, sh', pc')
    case Open(_) => OpenStep(sh, t, pc, sh', pc')
    case Deq(_, _) => DequeueStep(sh, t, pc, sh', pc')
    case Scan(_, _, _) => ScanStep(sh, t, pc, sh', pc')
    case Skip(_, _) => SkipStep(sh, t, pc, sh', pc')
    case Close(_, _) => CloseStep(sh, t, pc, sh', pc')
  }

  /** A call that has returned. */
  predicate Returned(pc: Pc)
  {
    || pc.Idle? || (pc.App? && (pc.app.Appended? || pc.app.Refused?)) || (pc.Deq? && (pc.deq.Got? || pc.deq.Empty?))
    || (pc.Scan? && pc.scan.Scanned?)
  }

  ghost predicate Moves(s: State, t: nat, s': State)
  {
    && t < |s.pcs| == |s'.pcs|
    && s'.pcs == s.pcs[t := s'.pcs[t]]
    && GoStep(s.sh, t, s.pcs[t], s'.sh, s'.pcs[t])
  }

  ghost predicate Calls(s: State, t: nat, s': State)
  {
    && t < |s.pcs| == |s'.pcs|
    && s'.pcs == s.pcs[t := s'.pcs[t]] && s'.sh == s.sh
    && Returned(s.pcs[t]) && Begins(s, s'.pcs[t])
  }

  ghost predicate Next(s: State, s': State)
  {
    || (exists t: nat :: Moves(s, t, s'))
    || (exists t: nat :: Calls(s, t, s'))
    || s' == s.(pcs := s.pcs + [Idle])
    || s' == s.(sh := s.sh.(closed := true))      // Log.Close
  }
}
