/** The ready hint of a batch-acknowledging source and the credit loop that trusts it (source.go,
    worker_credit.go). One step is one atomic operation; the storage call is one. Storage is FIFO: it
    holds the items off..head. A pop takes min(want, length) items, none while the queue is paused. */
module ReadyHint {
  import opened Runs

  const MAX_CREDIT := 64

  datatype DryAt = NeverDry | Dry(pokes: nat)

  datatype ReadyAt = AskPaused | AskRemaining | AskPokes | AskDry(p: nat)

  /** fetch: g is pokes as read before the storage call, n what the call popped, left what it reported. */
  datatype FetchAt =
    | LoadPokes(want: nat)
    | Call(want: nat, g: nat)
    | StoreLeft(want: nat, g: nat, n: nat, left: nat)
    | Mark(want: nat, g: nat, n: nat, left: nat)

  datatype Loop =
    | Select
    | CheckActive
    | Ready(at: ReadyAt, again: bool)
    | LoadBusy(limit: nat)
    | Reserve(credit: nat)
    | Fetch(fetch: FetchAt)
    | Emit(n: nat)
    | Notify

  /** unpoked are the items whose add has not poked yet. resuming and poking count the queue Resumes
      that have cleared the pause, and those that also saw it cleared, before their poke; running and
      ending count busy workers, and those off the busy count before their signal; owing counts
      everyone else between a change and its notify. landed and peak are history: the pokes since the
      last fetch read them, and the highest limit ever set. */
  datatype State = State(
    subscribed: bool, paused: bool, off: nat, head: nat, unpoked: set<nat>,
    remaining: nat, pokes: nat, dryAt: DryAt,
    signal: bool, active: bool, limit: nat, running: nat, ending: nat,
    resuming: nat, poking: nat, owing: nat, loop: Loop, landed: nat, peak: nat)

  /** Just bound: the storage may hold items, and the bind's notify is still to come. */
  ghost predicate Init(s: State)
  {
    && s.limit > 0 && s.off <= s.head
    && s == State(s.subscribed, s.paused, s.off, s.head, {}, 0, 0, NeverDry,
                  s.signal, s.active, s.limit, 0, 0, 0, 0, 1, Select, 0, s.limit)
  }

  // ---------------------------------------------------------------- dispatchCredit

  /** ready(), read by read; again marks the one after the fetch. */
  predicate ReadyStep(s: State, at: ReadyAt, again: bool, s': State)
  {
    var yes := if again then Notify else LoadBusy(s.limit);
    match at
    case AskPaused => s' == s.(loop := if s.paused then Select else Ready(AskRemaining, again))
    case AskRemaining => s' == s.(loop := if s.remaining > 0 then yes else Ready(AskPokes, again))
    case AskPokes => s' == s.(loop := Ready(AskDry(s.pokes), again))
    case AskDry(p) => s' == s.(loop := if s.dryAt != Dry(p) then yes else Select)
  }

  predicate FetchStep(s: State, at: FetchAt, s': State)
  {
    match at
    case LoadPokes(want) => s' == s.(loop := Fetch(Call(want, s.pokes)), landed := 0)
    case Call(want, g) =>
      && s.off <= s.head
      && var n := if s.paused then 0 else if want <= s.head - s.off then want else s.head - s.off;
         && s'.loop.Fetch? && s'.loop.fetch.StoreLeft?
         && var left := s'.loop.fetch.left;
            // the length left, or a lower bound above 0 while items remain
            && left <= s.head - s.off - n && (left == 0 ==> s.off + n == s.head)
            && s' == s.(off := s.off + n, loop := Fetch(StoreLeft(want, g, n, left)))
    case StoreLeft(want, g, n, left) =>
      var left' := if n == 0 then 0 else left;
      s' == s.(remaining := left', loop := Fetch(Mark(want, g, n, left')))
    case Mark(want, g, n, left) =>
      s' == s.(dryAt := if n < want || (!s.subscribed && left == 0) then Dry(g) else NeverDry, loop := Emit(n))
  }

  predicate LoopStep(s: State, s': State)
  {
    match s.loop
    case Select => s.signal && s' == s.(signal := false, loop := CheckActive)
    case CheckActive => s' == s.(loop := if s.active then Ready(AskPaused, false) else Select)
    case Ready(at, again) => ReadyStep(s, at, again, s')
    case LoadBusy(l) =>
      if l <= s.running then s' == s.(loop := Select)
      else s' == s.(loop := Reserve(if l - s.running <= MAX_CREDIT then l - s.running else MAX_CREDIT))
    case Reserve(credit) => s' == s.(loop := if s.active then Fetch(LoadPokes(credit)) else Select)
    case Fetch(at) => FetchStep(s, at, s')
    case Emit(n) =>
      if n == 0 then s' == s.(loop := Ready(AskPaused, true))
      // or it did not parse, or was closed
      else s' == s.(loop := Emit(n - 1)) || s' == s.(running := s.running + 1, loop := Emit(n - 1))
    case Notify => s' == s.(signal := true, loop := Select)
  }

  // ---------------------------------------------------------------- everyone else

  predicate StorageStep(s: State, s': State)
  {
    || s' == s.(head := s.head + 1, unpoked := s.unpoked + {s.head})                         // an add
    // popped by another consumer
    || (s.off < s.head && s' == s.(off := s.off + 1))
    || s' == s.(paused := true)
    || (s.paused && s' == s.(paused := false, resuming := s.resuming + 1))
    || (s.resuming > 0 && s' == s.(resuming := s.resuming - 1, poking := if s.paused then s.poking else s.poking + 1))
  }

  /** A poke; its caller has a notify to make. */
  function Poked(s: State): State
  {
    s.(pokes := s.pokes + 1, landed := s.landed + 1, owing := s.owing + 1)
  }

  predicate PokeStep(s: State, s': State)
  {
    || (exists x :: x in s.unpoked && s' == Poked(s).(unpoked := s.unpoked - {x}))
    || (s.poking > 0 && s' == Poked(s).(poking := s.poking - 1))
    // resync, or another process
    || s' == Poked(s)
  }

  predicate WorkerStep(s: State, s': State)
  {
    || (s.running > 0 && s' == s.(running := s.running - 1, ending := s.ending + 1))
    || (s.ending > 0 && s' == s.(ending := s.ending - 1, signal := true))
    || (s.owing > 0 && s' == s.(owing := s.owing - 1, signal := true))
    || s' == s.(active := false)
    || s' == s.(active := true, owing := s.owing + 1)
    || (s'.limit > s.limit
        && s' == s.(limit := s'.limit, owing := s.owing + 1, peak := if s'.limit > s.peak then s'.limit else s.peak))
    || (0 < s'.limit < s.limit && s' == s.(limit := s'.limit))
  }

  ghost predicate Next(s: State, s': State)
  {
    LoopStep(s, s') || StorageStep(s, s') || PokeStep(s, s') || WorkerStep(s, s')
  }

  // ---------------------------------------------------------------- the hint

  /** ready() as one read. */
  function Hint(s: State): nat
  {
    if s.paused then 0 else if s.remaining > 0 then s.remaining else if s.dryAt != Dry(s.pokes) then 1 else 0
  }

  /** Every item whose add has poked was popped. */
  ghost predicate AllPopped(s: State)
  {
    forall x :: 0 <= x < s.head && x !in s.unpoked ==> x < s.off
  }

  /** A storage that was seen empty at pokes value g: nothing poked is in it, unless it is paused, a
      Resume still owes its poke, or a poke has landed since. */
  ghost predicate DrySince(s: State, g: nat)
  {
    AllPopped(s) || s.paused || s.resuming > 0 || s.poking > 0 || s.pokes > g
  }

  ghost predicate HintOk(s: State)
  {
    && s.off <= s.head && (forall x :: x in s.unpoked ==> x < s.head)
    && match s.loop
       case Reserve(credit) => credit > 0 && DryOk(s)
       case Fetch(LoadPokes(want)) => want > 0
       case Fetch(Call(want, g)) => want > 0 && g + s.landed == s.pokes
       case Fetch(StoreLeft(want, g, n, left)) =>
         want > 0 && g + s.landed == s.pokes && (n < want || left == 0 ==> DrySince(s, g))
       case Fetch(Mark(want, g, n, left)) => g + s.landed == s.pokes && (n < want || left == 0 ==> DrySince(s, g))
       case _ => DryOk(s)
  }

  ghost predicate DryOk(s: State)
  {
    s.dryAt.Dry? ==> s.dryAt.pokes <= s.pokes && DrySince(s, s.dryAt.pokes)
  }

  lemma HintLoop(s: State, s': State)
    requires HintOk(s) && LoopStep(s, s')
    ensures HintOk(s')
  {
    if s.loop.Fetch? {
      HintFetch(s, s.loop.fetch, s');
    } else {
      HintIdle(s, s');
    }
  }

  lemma HintIdle(s: State, s': State)
    requires HintOk(s) && LoopStep(s, s') && !s.loop.Fetch?
    ensures HintOk(s')
  {
    IdleQuiet(s, s');
    assert DryOk(s);
    DrySame(s, s');
  }

  lemma IdleQuiet(s: State, s': State)
    requires LoopStep(s, s') && !s.loop.Fetch?
    ensures s'.off == s.off && s'.head == s.head && s'.unpoked == s.unpoked && s'.dryAt == s.dryAt
    ensures s'.pokes == s.pokes
    ensures s'.paused == s.paused && s'.resuming == s.resuming && s'.poking == s.poking
    ensures s'.loop.Fetch? ==> s.loop.Reserve? && s'.loop == Fetch(LoadPokes(s.loop.credit))
    ensures s'.loop.Reserve? ==> s'.loop.credit > 0
  {
    if s.loop.Ready? {
      ReadyQuiet(s, s.loop.at, s.loop.again, s');
    }
  }

  lemma ReadyQuiet(s: State, at: ReadyAt, again: bool, s': State)
    requires ReadyStep(s, at, again, s')
    ensures s' == s.(loop := s'.loop) && !s'.loop.Fetch? && !s'.loop.Reserve?
  {
  }

  lemma DrySame(s: State, s': State)
    requires s'.off == s.off && s'.head == s.head && s'.unpoked == s.unpoked && s'.dryAt == s.dryAt
    requires s'.pokes == s.pokes
    requires s'.paused == s.paused && s'.resuming == s.resuming && s'.poking == s.poking
    ensures DryOk(s) ==> DryOk(s')
  {
    assert AllPopped(s') <==> AllPopped(s);
  }

  lemma HintFetch(s: State, at: FetchAt, s': State)
    requires HintOk(s) && s.loop == Fetch(at) && FetchStep(s, at, s')
    ensures HintOk(s')
  {
    match at
    case Call(want, g) => if !s.paused && s'.off == s.head { assert AllPopped(s'); }
    case _ => assert forall h: nat :: DrySince(s', h) <==> DrySince(s, h);
  }

  lemma HintStorage(s: State, s': State)
    requires HintOk(s) && StorageStep(s, s')
    ensures HintOk(s')
  {
    assert forall g: nat :: DrySince(s, g) ==> DrySince(s', g);
  }

  lemma HintPoke(s: State, s': State)
    requires HintOk(s) && PokeStep(s, s')
    ensures HintOk(s')
  {
    assert s'.pokes == s.pokes + 1;
    assert forall g: nat :: g <= s.pokes ==> DrySince(s', g);
  }

  lemma HintWorker(s: State, s': State)
    requires HintOk(s) && WorkerStep(s, s')
    ensures HintOk(s')
  {
    HintSame(s, s');
  }

  lemma HintSame(s: State, s': State)
    requires HintOk(s) && s'.loop == s.loop && s'.dryAt == s.dryAt && s'.pokes == s.pokes && s'.landed == s.landed
    requires s'.off == s.off && s'.head == s.head && s'.unpoked == s.unpoked
    requires s'.paused == s.paused && s'.resuming == s.resuming && s'.poking == s.poking
    ensures HintOk(s')
  {
    assert AllPopped(s') <==> AllPopped(s);
  }

  // ---------------------------------------------------------------- the signal

  /** The loop will be woken. */
  predicate Owed(s: State)
  {
    s.signal || s.owing > 0 || s.running > 0 || s.ending > 0 || s.resuming > 0 || s.poking > 0
  }

  predicate Seen(s: State)
  {
    && s.limit > 0
    && match s.loop
       case Select => Owed(s) || !s.active || Hint(s) == 0
       case Ready(AskPokes, _) => s.remaining == 0
       case Ready(AskDry(p), _) => s.remaining == 0 && (Owed(s) || p == s.pokes || s.paused)
       case LoadBusy(l) => l > 0
       case _ => true
  }

  ghost predicate Inv(s: State)
  {
    HintOk(s) && Seen(s)
  }

  lemma SeenStorage(s: State, s': State)
    requires Seen(s) && StorageStep(s, s')
    ensures Seen(s')
  {
  }

  lemma SeenPoke(s: State, s': State)
    requires Seen(s) && PokeStep(s, s')
    ensures Seen(s')
  {
  }

  lemma SeenWorker(s: State, s': State)
    requires Seen(s) && WorkerStep(s, s')
    ensures Seen(s')
  {
  }

  lemma SeenReady(s: State, at: ReadyAt, again: bool, s': State)
    requires Seen(s) && s.loop == Ready(at, again) && ReadyStep(s, at, again, s')
    ensures Seen(s')
  {
  }

  lemma SeenFetch(s: State, at: FetchAt, s': State)
    requires Seen(s) && s.loop == Fetch(at) && FetchStep(s, at, s')
    ensures Seen(s')
  {
  }

  lemma SeenLoop(s: State, s': State)
    requires Seen(s) && LoopStep(s, s')
    ensures Seen(s')
  {
    match s.loop
    case Ready(at, again) => SeenReady(s, at, again, s');
    case Fetch(at) => SeenFetch(s, at, s');
    case _ =>
  }

  lemma RunKeeps(run: seq<State>)
    requires IsRun(Init, Next, run)
    ensures forall i :: 0 <= i < |run| ==> Inv(run[i])
  {
    forall s, s' | Inv(s) && Next(s, s') ensures Inv(s') {
      if LoopStep(s, s') {
        HintLoop(s, s');
        SeenLoop(s, s');
      } else {
        if StorageStep(s, s') {
          HintStorage(s, s');
          SeenStorage(s, s');
        } else if PokeStep(s, s') {
          HintPoke(s, s');
          SeenPoke(s, s');
        } else {
          HintWorker(s, s');
          SeenWorker(s, s');
        }
      }
    }
    assert Inductive(Init, Next, Inv);
    Invariance(Init, Next, Inv, run);
  }

  // ---------------------------------------------------------------- the limit

  /** Credit reserved and not popped yet, or items popped and not started yet. */
  function InHand(loop: Loop): nat
  {
    match loop
    case Reserve(credit) => credit
    case Fetch(LoadPokes(want)) => want
    case Fetch(Call(want, _)) => want
    case Fetch(StoreLeft(_, _, n, _)) => n
    case Fetch(Mark(_, _, n, _)) => n
    case Emit(n) => n
    case _ => 0
  }

  predicate Bounded(s: State)
  {
    && s.limit <= s.peak && s.running + InHand(s.loop) <= s.peak
    && (s.loop.LoadBusy? ==> s.loop.limit <= s.peak)
  }

  lemma BoundedNext(s: State, s': State)
    requires Bounded(s) && Next(s, s')
    ensures Bounded(s')
  {
    if LoopStep(s, s') {
      match s.loop
      case Ready(at, again) => ReadyBounded(s, at, again, s');
      case Fetch(at) => FetchBounded(s, at, s');
      case _ => LoopBounded(s, s');
    } else if WorkerStep(s, s') {
      WorkerBounded(s, s');
    } else {
      OthersBounded(s, s');
    }
  }

  lemma ReadyBounded(s: State, at: ReadyAt, again: bool, s': State)
    requires Bounded(s) && s.loop == Ready(at, again) && ReadyStep(s, at, again, s')
    ensures Bounded(s')
  {
  }

  lemma FetchBounded(s: State, at: FetchAt, s': State)
    requires Bounded(s) && s.loop == Fetch(at) && FetchStep(s, at, s')
    ensures Bounded(s')
  {
  }

  lemma LoopBounded(s: State, s': State)
    requires Bounded(s) && !s.loop.Ready? && !s.loop.Fetch? && LoopStep(s, s')
    ensures Bounded(s')
  {
  }

  lemma WorkerBounded(s: State, s': State)
    requires Bounded(s) && WorkerStep(s, s')
    ensures Bounded(s')
  {
  }

  lemma OthersBounded(s: State, s': State)
    requires Bounded(s) && (StorageStep(s, s') || PokeStep(s, s'))
    ensures Bounded(s')
  {
  }

  /** In every run, busy workers, the credit the loop has reserved and the items it has popped and not
      started stay together within the highest limit set so far. */
  lemma CreditWithinLimit(run: seq<State>, i: nat)
    requires IsRun(Init, Next, run) && i < |run|
    ensures run[i].running + InHand(run[i].loop) <= run[i].peak
  {
    forall s, s' | Bounded(s) && Next(s, s') ensures Bounded(s') {
      BoundedNext(s, s');
    }
    Invariance(Init, Next, Bounded, run);
  }

  /** The credit is the most that fits: c more workers stay within the limit that was read, c is at most
      MAX_CREDIT, and one more would not do. */
  predicate Fits(c: nat, limit: nat, running: nat)
  {
    0 < c <= MAX_CREDIT && running + c <= limit && (c == MAX_CREDIT || running + c == limit)
  }

  /** A pass pops as many items as the credit it was given lets it, or all that are there, and none from a
      paused queue; what it pops are the first in the storage. */
  predicate Pops(s: State, want: nat, s': State, n: nat)
  {
    && s'.off == s.off + n && n <= want && s.off + n <= s.head
    && if s.paused then n == 0 else n == want || s.off + n == s.head
  }

  /** In every run: a pass stops exactly when every slot of the limit it read is busy, and otherwise takes
      all the credit there is; its storage call pops that many items or all there are. */
  lemma PassTakesFreeSlots(run: seq<State>, i: nat)
    requires IsRun(Init, Next, run) && i + 1 < |run| && LoopStep(run[i], run[i + 1])
    ensures run[i + 1].loop.LoadBusy? ==> run[i + 1].loop.limit == run[i].limit
    ensures run[i].loop.LoadBusy? ==>
      if run[i].running >= run[i].loop.limit then run[i + 1].loop.Select?
      else run[i + 1].loop.Reserve? && Fits(run[i + 1].loop.credit, run[i].loop.limit, run[i].running)
    ensures run[i].loop.Fetch? && run[i].loop.fetch.Call? ==>
      && run[i + 1].loop.Fetch? && run[i + 1].loop.fetch.StoreLeft?
      && Pops(run[i], run[i].loop.fetch.want, run[i + 1], run[i + 1].loop.fetch.n)
    ensures run[i].loop.Reserve? ==>
      run[i + 1].loop == if run[i].active then Fetch(LoadPokes(run[i].loop.credit)) else Select
    ensures run[i].loop.Fetch? && run[i].loop.fetch.StoreLeft? ==>
      run[i + 1].remaining == if run[i].loop.fetch.n == 0 then 0 else run[i].loop.fetch.left
    ensures run[i].loop.Emit? && run[i].loop.n > 0 ==>
      run[i + 1].loop == Emit(run[i].loop.n - 1) && run[i].running <= run[i + 1].running <= run[i].running + 1
  {
    var s, s' := run[i], run[i + 1];
    if s.loop.Ready? { assert ReadyStep(s, s.loop.at, s.loop.again, s'); }
    if s.loop.Fetch? { assert FetchStep(s, s.loop.fetch, s'); }
  }

  // ---------------------------------------------------------------- theorems

  /** In every run, whatever pokes, pauses and resumes raced the storage call: while the queue is not
      paused, no Resume owes a poke and no fetch is under way, a hint of 0 means that every item
      whose add has poked was popped. */
  lemma HintLosesNothing(run: seq<State>, i: nat)
    requires IsRun(Init, Next, run) && i < |run|
    requires !run[i].loop.Fetch? && Hint(run[i]) == 0 && !run[i].paused && run[i].resuming == run[i].poking == 0
    ensures AllPopped(run[i])
  {
    RunKeeps(run);
  }

  /** In every run, a poke that lands between a fetch's read of pokes and its markDry survives it: the
      hint is positive then, unless the queue is paused. */
  lemma PokeSurvives(run: seq<State>, i: nat)
    requires IsRun(Init, Next, run) && i + 1 < |run| && LoopStep(run[i], run[i + 1])
    requires run[i].loop.Fetch? && run[i].loop.fetch.Mark? && run[i].landed > 0
    ensures run[i + 1].loop.Emit? && (run[i + 1].paused || Hint(run[i + 1]) > 0)
  {
    RunKeeps(run);
    assert HintOk(run[i]);
  }

  /** In every run: a fetch that ran the storage dry, or emptied a storage every add to which pokes, leaves
      the hint at 0 unless a poke landed meanwhile, so no pass follows that could find nothing. */
  lemma DryIsQuiet(run: seq<State>, i: nat)
    requires IsRun(Init, Next, run) && i + 1 < |run| && LoopStep(run[i], run[i + 1])
    requires run[i].loop.Fetch? && run[i].loop.fetch.Mark? && run[i].landed == 0 && run[i].remaining == 0
    requires run[i].loop.fetch.n < run[i].loop.fetch.want || (!run[i].subscribed && run[i].loop.fetch.left == 0)
    ensures run[i + 1].loop.Emit? && Hint(run[i + 1]) == 0
  {
    RunKeeps(run);
    assert HintOk(run[i]);
  }

  ghost function LoopOnly(): (State, State) -> bool
  {
    (s, s') => LoopStep(s, s')
  }

  ghost predicate ByLoop(s: State, s': State)
  {
    Reachable(From(s), LoopOnly(), s')
  }

  lemma LoopGoes(s0: State, s: State, s': State)
    requires ByLoop(s0, s) && LoopStep(s, s')
    ensures ByLoop(s0, s')
  {
    assert LoopOnly()(s, s');
    ReachableNext(From(s0), LoopOnly(), s, s');
  }

  /** A ready() nobody disturbs says yes exactly when the hint is positive. */
  lemma ReadyReadsHint(s0: State, s: State, again: bool) returns (s': State)
    requires ByLoop(s0, s) && s.loop == Ready(AskPaused, again)
    ensures ByLoop(s0, s')
    ensures s' == s.(loop := if Hint(s) == 0 then Select else if again then Notify else LoadBusy(s.limit))
  {
    var yes := if again then Notify else LoadBusy(s.limit);
    var s1 := s.(loop := if s.paused then Select else Ready(AskRemaining, again));
    LoopGoes(s0, s, s1);
    s' := s1;
    if !s.paused {
      var s2 := s1.(loop := if s.remaining > 0 then yes else Ready(AskPokes, again));
      LoopGoes(s0, s1, s2);
      s' := s2;
      if s.remaining == 0 {
        var s3 := s2.(loop := Ready(AskDry(s.pokes), again));
        LoopGoes(s0, s2, s3);
        s' := s3.(loop := if s.dryAt != Dry(s.pokes) then yes else Select);
        LoopGoes(s0, s3, s');
      }
    }
  }

  /** Every item popped is started. */
  lemma {:induction false} EmitsAll(s0: State, s: State, n: nat) returns (s': State)
    requires ByLoop(s0, s) && s.loop == Emit(n)
    ensures ByLoop(s0, s') && s' == s.(running := s.running + n, loop := Emit(0))
    decreases n
  {
    if n == 0 {
      s' := s;
    } else {
      var s1 := s.(running := s.running + 1, loop := Emit(n - 1));
      LoopGoes(s0, s, s1);
      s' := EmitsAll(s0, s1, n - 1);
    }
  }

  /** How many items a pass takes that nobody disturbs: a free slot each, at most MAX_CREDIT, and no more
      than there are. */
  function Taken(s: State): int
  {
    var free := s.limit - s.running;
    var credit := if free <= MAX_CREDIT then free else MAX_CREDIT;
    if credit <= s.head - s.off then credit else s.head - s.off
  }

  /** From any state: a pass of an active worker with a free slot and a positive hint, that nobody disturbs,
      pops and can start an item for every free slot, as far as there are items. */
  lemma PassServes(s: State)
    requires s.loop.CheckActive? && s.active && Hint(s) > 0 && s.running < s.limit && s.off <= s.head
    ensures exists s' ::
      && ByLoop(s, s') && s'.loop == Emit(0)
      && s'.off == s.off + Taken(s) && s'.running == s.running + Taken(s)
  {
    ReachableInit(From(s), LoopOnly(), s);
    var s1 := s.(loop := Ready(AskPaused, false));
    LoopGoes(s, s, s1);
    var s2 := ReadyReadsHint(s, s1, false);
    var credit := if s.limit - s.running <= MAX_CREDIT then s.limit - s.running else MAX_CREDIT;
    var s3 := s2.(loop := Reserve(credit));
    LoopGoes(s, s2, s3);
    var s4 := s3.(loop := Fetch(LoadPokes(credit)));
    LoopGoes(s, s3, s4);
    var s5 := Fetches(s, s4, credit);
    var s6 := EmitsAll(s, s5, Taken(s));
  }

  lemma Fetches(s0: State, s: State, want: nat) returns (s': State)
    requires ByLoop(s0, s) && s.loop == Fetch(LoadPokes(want)) && !s.paused && s.off <= s.head
    ensures ByLoop(s0, s')
    ensures var n := if want <= s.head - s.off then want else s.head - s.off;
      s'.loop == Emit(n) && s'.off == s.off + n && s'.running == s.running
  {
    var n := if want <= s.head - s.off then want else s.head - s.off;
    var left := s.head - s.off - n;
    var s1 := s.(loop := Fetch(Call(want, s.pokes)), landed := 0);
    LoopGoes(s0, s, s1);
    var s2 := s1.(off := s.off + n, loop := Fetch(StoreLeft(want, s.pokes, n, left)));
    LoopGoes(s0, s1, s2);
    var left' := if n == 0 then 0 else left;
    var s3 := s2.(remaining := left', loop := Fetch(Mark(want, s.pokes, n, left')));
    LoopGoes(s0, s2, s3);
    s' := s3.(dryAt := if n < want || (!s.subscribed && left' == 0) then Dry(s.pokes) else NeverDry, loop := Emit(n));
    LoopGoes(s0, s3, s');
  }

  /** In every run: if the loop waits with no signal buffered, the worker is active, the queue is not
      paused and nobody is between a change and its notify, then every item whose add has poked was
      popped, or a busy worker has yet to signal. */
  lemma NoLostCreditWakeup(run: seq<State>, i: nat)
    requires IsRun(Init, Next, run) && i < |run|
    requires run[i].loop.Select? && !run[i].signal && run[i].active && !run[i].paused
    requires run[i].owing == run[i].resuming == run[i].poking == 0
    ensures AllPopped(run[i]) || run[i].running > 0 || run[i].ending > 0
  {
    RunKeeps(run);
  }
}
