/** The parked batches of one worker (worker_park.go): what park, unpark, dropParked and unheld do under
    parkMx. Pauses and purge counters are read through parameters: paused are the queues paused as
    each call reads them, current the purge counters. */
module ParkLists {
  import opened Basics

  type Job = nat

  /** The queue a batch can be held by, and whether it notifies of its pauses. */
  datatype Hold = NoHold | HoldBy(queue: nat, notifies: bool)

  datatype Stamp = Stamp(gen: nat, epoch: nat, seqNo: nat, hold: Hold)
  datatype Batch = Batch(jobs: seq<Job>, stamp: Stamp)

  predicate Held(s: Stamp, paused: set<nat>)
  {
    s.hold.HoldBy? && s.hold.queue in paused
  }

  predicate MayHold(s: Stamp)
  {
    s.hold.HoldBy? && !s.hold.notifies
  }

  predicate Stale(s: Stamp, current: map<nat, nat>)
  {
    s.gen in current && current[s.gen] != s.epoch
  }

  // ---------------------------------------------------------------- dispatch order

  /** All of a's dispatch numbers come before b's. */
  predicate Before(a: Batch, b: Batch)
  {
    a.stamp.seqNo + |a.jobs| <= b.stamp.seqNo
  }

  /** x is apart from every batch of the list. */
  ghost predicate ApartFrom(x: Batch, batches: seq<Batch>)
  {
    forall y :: y in batches ==> Before(x, y) || Before(y, x)
  }

  ghost predicate Disjoint(batches: seq<Batch>)
  {
    batches == [] || (batches[0].jobs != [] && ApartFrom(batches[0], batches[1..]) && Disjoint(batches[1..]))
  }

  ghost predicate InOrder(batches: seq<Batch>)
  {
    || batches == []
    || (batches[0].jobs != [] && (forall y :: y in batches[1..] ==> Before(batches[0], y)) && InOrder(batches[1..]))
  }

  function SeqNoOf(b: Batch): nat
  {
    b.stamp.seqNo
  }

  /** The batches in dispatch order. */
  function BySeq(batches: seq<Batch>): seq<Batch>
  {
    SortBy(batches, SeqNoOf)
  }

  function Sorted(batches: seq<Batch>, unsorted: bool): seq<Batch>
  {
    if unsorted then BySeq(batches) else batches
  }

  function Total(batches: seq<Batch>): nat
  {
    if batches == [] then 0 else |batches[0].jobs| + Total(batches[1..])
  }

  lemma {:induction false} InsertOk(b: Batch, sorted: seq<Batch>)
    requires InOrder(sorted) && ApartFrom(b, sorted) && b.jobs != []
    ensures InOrder(Insert(b, sorted, SeqNoOf)) && Total(Insert(b, sorted, SeqNoOf)) == Total(sorted) + |b.jobs|
    ensures forall x :: x in Insert(b, sorted, SeqNoOf) <==> x in sorted || x == b
  {
    if sorted != [] {
      assert sorted == [sorted[0]] + sorted[1..];
      assert sorted[0] in sorted && sorted[0].jobs != [];
      if b.stamp.seqNo > sorted[0].stamp.seqNo {
        InsertOk(b, sorted[1..]);
      } else {
        forall y | y in sorted ensures Before(b, y) {
        }
      }
    }
  }

  lemma {:induction false} BySeqOk(batches: seq<Batch>)
    requires Disjoint(batches)
    ensures InOrder(BySeq(batches)) && Total(BySeq(batches)) == Total(batches)
    ensures forall x :: x in BySeq(batches) <==> x in batches
  {
    if batches != [] {
      assert batches == [batches[0]] + batches[1..];
      BySeqOk(batches[1..]);
      InsertOk(batches[0], BySeq(batches[1..]));
    }
  }

  lemma SortedOk(batches: seq<Batch>, unsorted: bool)
    requires Ranged(batches, unsorted)
    ensures InOrder(Sorted(batches, unsorted)) && Total(Sorted(batches, unsorted)) == Total(batches)
    ensures forall x :: x in Sorted(batches, unsorted) <==> x in batches
  {
    if unsorted { BySeqOk(batches); }
  }

  lemma {:induction false} OrderIsDisjoint(batches: seq<Batch>)
    requires InOrder(batches)
    ensures Disjoint(batches)
  {
    if batches != [] {
      OrderIsDisjoint(batches[1..]);
    }
  }

  lemma {:induction false} Appends(batches: seq<Batch>, b: Batch)
    requires Disjoint(batches) && ApartFrom(b, batches) && b.jobs != []
    ensures Disjoint(batches + [b]) && Total(batches + [b]) == Total(batches) + |b.jobs|
  {
    if batches != [] {
      assert batches == [batches[0]] + batches[1..];
      Appends(batches[1..], b);
      assert (batches + [b])[1..] == batches[1..] + [b];
      assert batches[0] in batches;
    } else {
      assert batches + [b] == [b];
      assert [b][1..] == [];
    }
  }

  /** What taking n jobs from the batch at i leaves. */
  function AfterTake(batches: seq<Batch>, i: nat, n: nat): seq<Batch>
    requires i < |batches| && n <= |batches[i].jobs|
  {
    var b := batches[i];
    if n == |b.jobs| then batches[..i] + batches[i + 1..]
    else batches[i := Batch(b.jobs[n..], b.stamp.(seqNo := b.stamp.seqNo + n))]
  }

  /** y is a batch of the list, or the rest of one. */
  ghost predicate Within(y: Batch, batches: seq<Batch>)
  {
    exists x :: x in batches && x.stamp.seqNo <= y.stamp.seqNo && y.stamp.seqNo + |y.jobs| <= x.stamp.seqNo + |x.jobs|
  }

  lemma {:induction false} TakeOk(batches: seq<Batch>, i: nat, n: nat)
    requires InOrder(batches) && i < |batches| && n <= |batches[i].jobs|
    ensures InOrder(AfterTake(batches, i, n)) && Total(AfterTake(batches, i, n)) == Total(batches) - n
    ensures forall y :: y in AfterTake(batches, i, n) ==> Within(y, batches)
  {
    var after := AfterTake(batches, i, n);
    assert batches == [batches[0]] + batches[1..];
    if i == 0 {
      if n == |batches[0].jobs| {
        assert after == batches[1..];
      } else {
        assert after == [after[0]] + batches[1..];
      }
    } else {
      TakeOk(batches[1..], i - 1, n);
      assert after == [batches[0]] + AfterTake(batches[1..], i - 1, n);
    }
  }

  /** The first unheld batch holds the oldest unheld job. */
  lemma {:induction false} FirstIsOldest(sorted: seq<Batch>, i: nat, q: nat)
    requires InOrder(sorted) && i <= q < |sorted|
    ensures sorted[i].stamp.seqNo <= sorted[q].stamp.seqNo
  {
    if i == 0 {
      assert q > 0 ==> sorted[1..][q - 1] in sorted[1..] && sorted[q] == sorted[1..][q - 1];
    } else {
      assert sorted[i] == sorted[1..][i - 1] && sorted[q] == sorted[1..][q - 1];
      FirstIsOldest(sorted[1..], i - 1, q - 1);
    }
  }

  /** out, stamp and left are taking up to n jobs from the front of the first unheld batch, at i. */
  predicate TakenAt(sorted: seq<Batch>, i: nat, n: nat, paused: set<nat>, out: seq<Job>, stamp: Stamp, left: seq<Batch>)
  {
    && i < |sorted| && (forall k :: 0 <= k < i ==> Held(sorted[k].stamp, paused)) && !Held(sorted[i].stamp, paused)
    && stamp == sorted[i].stamp
    && var taken := if n <= |sorted[i].jobs| then n else |sorted[i].jobs|;
       out == sorted[i].jobs[..taken] && left == AfterTake(sorted, i, taken)
  }

  /** closed and left are parking a batch: it goes to the end of the list, or is closed job by job. */
  predicate ParkedAs(batches: seq<Batch>, jobs: seq<Job>, stamp: Stamp, current: map<nat, nat>,
                     closed: seq<Job>, left: seq<Batch>)
  {
    if stamp.gen in current && current[stamp.gen] != stamp.epoch then closed == jobs && left == batches
    else closed == [] && left == batches + [Batch(jobs, stamp)]
  }

  // ---------------------------------------------------------------- purged and held batches

  function Jobs(batches: seq<Batch>): seq<Job>
  {
    if batches == [] then [] else Jobs(batches[..|batches| - 1]) + batches[|batches| - 1].jobs
  }

  /** The batches of one purge counter (want), or all but those. */
  function Of(batches: seq<Batch>, gen: nat, want: bool): seq<Batch>
  {
    if batches == [] then []
    else
      var last := batches[|batches| - 1];
      Of(batches[..|batches| - 1], gen, want) + (if (last.stamp.gen == gen) == want then [last] else [])
  }

  /** The parked jobs whose queue is not paused. */
  function Unheld(batches: seq<Batch>, paused: set<nat>): nat
  {
    if batches == [] then 0
    else
      var last := batches[|batches| - 1];
      Unheld(batches[..|batches| - 1], paused) + (if Held(last.stamp, paused) then 0 else |last.jobs|)
  }

  lemma {:induction false} KeepsOrder(batches: seq<Batch>, kept: seq<Batch>, b: Batch, inOrder: bool)
    requires if inOrder then InOrder(batches + [b]) else Disjoint(batches + [b])
    requires if inOrder then InOrder(kept) else Disjoint(kept)
    requires forall y :: y in kept ==> y in batches
    ensures if inOrder then InOrder(kept + [b]) else Disjoint(kept + [b])
    decreases |kept|, |batches|
  {
    LastApart(batches, b, inOrder);
    if kept == [] {
      assert kept + [b] == [b] && [b][1..] == [];
    } else {
      assert kept == [kept[0]] + kept[1..];
      KeepsOrder(batches, kept[1..], b, inOrder);
      assert (kept + [b])[1..] == kept[1..] + [b];
      assert kept[0] in batches;
    }
  }

  lemma {:induction false} LastApart(batches: seq<Batch>, b: Batch, inOrder: bool)
    requires if inOrder then InOrder(batches + [b]) else Disjoint(batches + [b])
    ensures b.jobs != [] && forall y :: y in batches ==> Before(y, b) || (!inOrder && Before(b, y))
    ensures if inOrder then InOrder(batches) else Disjoint(batches)
  {
    if batches == [] {
      assert (batches + [b])[0] == b;
    } else {
      var all := batches + [b];
      assert all[1..] == batches[1..] + [b] && all[0] == batches[0] && b in all[1..];
      LastApart(batches[1..], b, inOrder);
      assert batches == [batches[0]] + batches[1..];
    }
  }

  lemma OfLast(init: seq<Batch>, b: Batch, gen: nat, want: bool)
    ensures var some := Of(init, gen, want);
      Of(init + [b], gen, want) == if (b.stamp.gen == gen) == want then some + [b] else some
  {
    assert (init + [b])[..|init|] == init;
  }

  lemma {:induction false} OfMembers(batches: seq<Batch>, gen: nat)
    ensures forall y :: y in Of(batches, gen, false) <==> y in batches && y.stamp.gen != gen
  {
    if batches != [] {
      var init, b := batches[..|batches| - 1], batches[|batches| - 1];
      assert batches == init + [b];
      OfMembers(init, gen);
    }
  }

  lemma {:induction false} OfOrder(batches: seq<Batch>, gen: nat, inOrder: bool)
    requires if inOrder then InOrder(batches) else Disjoint(batches)
    ensures if inOrder then InOrder(Of(batches, gen, false)) else Disjoint(Of(batches, gen, false))
  {
    if batches != [] {
      var init, b := batches[..|batches| - 1], batches[|batches| - 1];
      assert batches == init + [b];
      LastApart(init, b, inOrder);
      OfOrder(init, gen, inOrder);
      OfLast(init, b, gen, false);
      OfMembers(init, gen);
      if b.stamp.gen != gen {
        KeepsOrder(init, Of(init, gen, false), b, inOrder);
      }
    }
  }

  lemma {:induction false} OfTotal(batches: seq<Batch>, gen: nat)
    ensures Total(Of(batches, gen, false)) + |Jobs(Of(batches, gen, true))| == Total(batches)
  {
    if batches != [] {
      var init, b := batches[..|batches| - 1], batches[|batches| - 1];
      assert batches == init + [b];
      OfTotal(init, gen);
      OfLast(init, b, gen, false);
      OfLast(init, b, gen, true);
      TotalLast(init, b);
      TotalLast(Of(init, gen, false), b);
      JobsLast(Of(init, gen, true), b);
    }
  }

  ghost predicate Ranged(batches: seq<Batch>, unsorted: bool)
  {
    if unsorted then Disjoint(batches) else InOrder(batches)
  }

  lemma DropOk(batches: seq<Batch>, gen: nat, unsorted: bool, kept: seq<Batch>, closed: seq<Job>)
    requires Ranged(batches, unsorted)
    requires kept == Of(batches, gen, false) && closed == Jobs(Of(batches, gen, true))
    ensures Ranged(kept, unsorted) && Total(kept) == Total(batches) - |closed|
  {
    OfOrder(batches, gen, !unsorted);
    OfTotal(batches, gen);
  }

  lemma OfNext(batches: seq<Batch>, i: nat, gen: nat)
    requires i < |batches|
    ensures var kept, b := Of(batches[..i], gen, false), batches[i];
      Of(batches[..i + 1], gen, false) == if b.stamp.gen == gen then kept else kept + [b]
    ensures var closed, b := Jobs(Of(batches[..i], gen, true)), batches[i];
      Jobs(Of(batches[..i + 1], gen, true)) == if b.stamp.gen == gen then closed + b.jobs else closed
  {
    assert batches[..i + 1] == batches[..i] + [batches[i]];
    OfLast(batches[..i], batches[i], gen, false);
    OfLast(batches[..i], batches[i], gen, true);
    JobsLast(Of(batches[..i], gen, true), batches[i]);
  }

  lemma {:induction false} TotalLast(batches: seq<Batch>, b: Batch)
    ensures Total(batches + [b]) == Total(batches) + |b.jobs|
  {
    if batches == [] {
      assert batches + [b] == [b] && [b][1..] == [];
    } else {
      TotalLast(batches[1..], b);
      assert (batches + [b])[1..] == batches[1..] + [b];
    }
  }

  lemma JobsLast(batches: seq<Batch>, b: Batch)
    ensures Jobs(batches + [b]) == Jobs(batches) + b.jobs
  {
    assert (batches + [b])[..|batches|] == batches;
  }

  // ---------------------------------------------------------------- the list

  class ParkList {
    var parked: seq<Batch>
    var unsorted: bool
    var nParked: int
    var parkHeld: bool

    /** nParked is exact, no two batches overlap, and they are in dispatch order unless a park came
        since the last sort. */
    ghost predicate Valid()
      reads this
    {
      nParked == Total(parked) && Ranged(parked, unsorted)
    }

    constructor ()
      ensures Valid() && parked == [] && !parkHeld
    {
      parked, unsorted, nParked, parkHeld := [], false, 0, false;
    }

    /** park: the batch is kept at the end of the list, or closed job by job if a Purge reached it
        first. Its range of dispatch numbers is apart from the parked ones, as it is in every run of the
        dispatch protocol (ParkRefines.RestFits). */
    method Park(jobs: seq<Job>, stamp: Stamp, current: map<nat, nat>, paused: set<nat>) returns (closed: seq<Job>)
      requires Valid() && jobs != [] && ApartFrom(Batch(jobs, stamp), parked)
      modifies this
      ensures Valid()
      ensures ParkedAs(old(parked), jobs, stamp, current, closed, parked)
      ensures unsorted == (old(unsorted) || !Stale(stamp, current))
      ensures parkHeld ==
        (old(parkHeld) || (!Stale(stamp, current) && stamp.hold.HoldBy?
                           && (stamp.hold.queue in paused || !stamp.hold.notifies)))
    {
      closed := [];
      if Stale(stamp, current) {
        for i := 0 to |jobs|
          invariant closed == jobs[..i]
        {
          closed := closed + [jobs[i]];
        }
        return;
      }
      if !unsorted {
        OrderIsDisjoint(parked);
      }
      Appends(parked, Batch(jobs, stamp));
      parked := parked + [Batch(jobs, stamp)];
      if Held(stamp, paused) || MayHold(stamp) {
        parkHeld := true;
      }
      unsorted := true;
      nParked := nParked + |jobs|;
    }

    /** slices.IndexFunc with unpark's function: the oldest batch that is not held, or the length. */
    static method FirstUnheld(sorted: seq<Batch>, paused: set<nat>) returns (i: nat)
      ensures i <= |sorted| && forall k :: 0 <= k < i ==> Held(sorted[k].stamp, paused)
      ensures i < |sorted| ==> !Held(sorted[i].stamp, paused)
    {
      i := 0;
      while i < |sorted| && Held(sorted[i].stamp, paused)
        invariant i <= |sorted|
        invariant forall k :: 0 <= k < i ==> Held(sorted[k].stamp, paused)
      {
        i := i + 1;
      }
    }

    /** unpark: up to n jobs from the front of the oldest batch that is not held; nothing only when all
        are held. Every other batch stays, and the list is in dispatch order. */
    method Unpark(n: nat, paused: set<nat>) returns (out: seq<Job>, stamp: Option<Stamp>)
      requires Valid()
      modifies this
      ensures Valid() && parkHeld == old(parkHeld)
      ensures stamp.None? <==>
        forall b :: b in old(parked) ==> b.stamp.hold.HoldBy? && b.stamp.hold.queue in paused
      ensures stamp.Some? ==> stamp.value.hold.NoHold? || stamp.value.hold.queue !in paused
      ensures stamp.None? ==> out == [] && parked == Sorted(old(parked), old(unsorted))
      ensures stamp.Some? ==>
        exists i: nat :: TakenAt(Sorted(old(parked), old(unsorted)), i, n, paused, out, stamp.value, parked)
      ensures stamp.Some? ==>
        forall b :: b in old(parked) && (b.stamp.hold.NoHold? || b.stamp.hold.queue !in paused) ==>
          stamp.value.seqNo <= b.stamp.seqNo
    {
      out, stamp := [], None;
      if |parked| == 0 {
        return;
      }
      var sorted := Sorted(parked, unsorted);
      SortedOk(parked, unsorted);
      parked, unsorted := sorted, false;
      var i := FirstUnheld(sorted, paused);
      if i == |sorted| {
        return;
      }
      var b := sorted[i];
      assert b in sorted;
      var taken := if n <= |b.jobs| then n else |b.jobs|;
      TakeOk(sorted, i, taken);
      OldestUnheld(sorted, i, paused);
      out, stamp := b.jobs[..taken], Some(b.stamp);
      parked := AfterTake(sorted, i, taken);
      nParked := nParked - taken;
      assert TakenAt(sorted, i, n, paused, out, stamp.value, parked);
    }

    /** dropParked: closes the jobs of one purge counter and keeps the other batches in their order. */
    method Drop(gen: nat) returns (closed: seq<Job>)
      requires Valid()
      modifies this
      ensures Valid() && unsorted == old(unsorted) && parkHeld == old(parkHeld)
      ensures parked == Of(old(parked), gen, false) && closed == Jobs(Of(old(parked), gen, true))
      ensures nParked == old(nParked) - |closed|
    {
      var was := parked;
      var kept;
      kept, closed := Delete(was, gen);
      DropOk(was, gen, unsorted, kept, closed);
      parked, nParked := kept, nParked - |closed|;
    }

    /** slices.DeleteFunc with dropParked's function. */
    static method Delete(batches: seq<Batch>, gen: nat) returns (kept: seq<Batch>, closed: seq<Job>)
      ensures kept == Of(batches, gen, false) && closed == Jobs(Of(batches, gen, true))
    {
      kept, closed := [], [];
      for i := 0 to |batches|
        invariant kept == Of(batches[..i], gen, false) && closed == Jobs(Of(batches[..i], gen, true))
      {
        OfNext(batches, i, gen);
        if batches[i].stamp.gen == gen {
          closed := closed + batches[i].jobs;
        } else {
          kept := kept + [batches[i]];
        }
      }
      assert batches[..|batches|] == batches;
    }

    /** unheld: counts the jobs no pause holds, and leaves the flag set exactly if some batch is held or
        could come to be held untold. */
    method CountUnheld(paused: set<nat>) returns (n: nat)
      requires Valid()
      modifies this`parkHeld
      ensures n == Unheld(parked, paused)
      ensures parkHeld <==>
        exists b :: b in parked && b.stamp.hold.HoldBy? && (b.stamp.hold.queue in paused || !b.stamp.hold.notifies)
    {
      parkHeld := false;
      n := 0;
      var held := false;
      for i := 0 to |parked|
        invariant n == Unheld(parked[..i], paused) && !parkHeld
        invariant held <==> exists b :: b in parked[..i] && (Held(b.stamp, paused) || MayHold(b.stamp))
      {
        var b := parked[i];
        assert parked[..i + 1][..i] == parked[..i] && parked[..i + 1] == parked[..i] + [b];
        if Held(b.stamp, paused) {
          held := true;
        } else {
          n := n + |b.jobs|;
          if MayHold(b.stamp) {
            held := true;
          }
        }
      }
      assert parked[..|parked|] == parked;
      if held {
        parkHeld := true;
      }
    }
  }

  lemma PausedLast(init: seq<Batch>, b: Batch, paused: set<nat>)
    ensures Paused(init + [b], paused) ==
      if b.stamp.hold.HoldBy? && b.stamp.hold.queue in paused then Paused(init, paused) + [b] else Paused(init, paused)
    ensures Unheld(init + [b], paused) ==
      Unheld(init, paused) + if b.stamp.hold.HoldBy? && b.stamp.hold.queue in paused then 0 else |b.jobs|
  {
    assert (init + [b])[..|init|] == init;
  }

  /** What CountUnheld counts: all parked jobs, less those of the batches whose queue is paused. */
  lemma {:induction false} UnheldIsRest(batches: seq<Batch>, paused: set<nat>)
    ensures Unheld(batches, paused) + |Jobs(Paused(batches, paused))| == Total(batches)
    ensures forall b :: b in Paused(batches, paused) <==>
      b in batches && b.stamp.hold.HoldBy? && b.stamp.hold.queue in paused
  {
    if batches != [] {
      var init, b := batches[..|batches| - 1], batches[|batches| - 1];
      assert batches == init + [b];
      UnheldIsRest(init, paused);
      PausedLast(init, b, paused);
      TotalLast(init, b);
      JobsLast(Paused(init, paused), b);
    }
  }

  /** The batches of paused queues, in order. */
  function Paused(batches: seq<Batch>, paused: set<nat>): seq<Batch>
  {
    if batches == [] then []
    else
      var last := batches[|batches| - 1];
      Paused(batches[..|batches| - 1], paused)
      + (if last.stamp.hold.HoldBy? && last.stamp.hold.queue in paused then [last] else [])
  }

  lemma OldestUnheld(sorted: seq<Batch>, i: nat, paused: set<nat>)
    requires InOrder(sorted) && i < |sorted| && forall k :: 0 <= k < i ==> Held(sorted[k].stamp, paused)
    ensures forall b :: b in sorted && !Held(b.stamp, paused) ==> sorted[i].stamp.seqNo <= b.stamp.seqNo
  {
    forall b | b in sorted && !Held(b.stamp, paused) ensures sorted[i].stamp.seqNo <= b.stamp.seqNo {
      var q: nat :| q < |sorted| && sorted[q] == b;
      FirstIsOldest(sorted, i, q);
    }
  }
}
