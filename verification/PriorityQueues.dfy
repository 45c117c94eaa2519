/** The priority queue over the heap (internal/queues/priority.go). Its lock makes each method one
    step. The specification of the queue is the sequence Queue(): its items in Dequeue order. */
module PriorityQueues {
  import opened Heap
  import opened Basics

  /** What a caller may pass: a value of the queue's type, or something else. */
  datatype Any = Typed(v: Value) | Other

  const IDS_SHRINK_PEAK := 1024

  function ValuesOf(items: seq<Item>): (r: seq<Value>)
    ensures |r| == |items|
  {
    seq(|items|, i requires 0 <= i < |items| => items[i].value)
  }

  /** The part of the values a page shows. */
  function PageOf(values: seq<Value>, offset: int, limit: int): seq<Value>
  {
    if offset < 0 || limit < 1 || offset >= |values| then []
    else if limit <= |values| - offset then values[offset..offset + limit]
    else values[offset..]
  }

  /** Stored EnqueueOnce items (those with an index in once) have distinct ids, and ids are exactly
      theirs. */
  ghost predicate OnceOk(queue: seq<Item>, once: set<nat>, ids: set<string>)
  {
    && (forall i :: 0 <= i < |queue| ==> (queue[i].index in once <==> queue[i].value.id in ids))
    && (forall i, j :: 0 <= i < j < |queue| && queue[i].index in once && queue[j].index in once ==>
          queue[i].value.id != queue[j].value.id)
    && (forall d :: d in ids ==> d != "" && Stored(queue, d))
  }

  ghost predicate Stored(queue: seq<Item>, d: string)
  {
    exists i :: 0 <= i < |queue| && queue[i].value.id == d
  }

  /** EnqueueOnce is given the item's own id, and no stored plain item has it; a plain item has no id
      that a stored EnqueueOnce item uses. */
  ghost predicate Apart(v: Value, id: string, queue: seq<Item>, ids: set<string>)
  {
    if id == "" then v.id !in ids else v.id == id && (id in ids || !Stored(queue, id))
  }

  ghost predicate IndexBelow(items: seq<Item>, n: nat)
  {
    forall x :: x in items ==> x.index < n
  }

  ghost predicate OnceBelow(once: set<nat>, n: nat)
  {
    forall i :: i in once ==> i < n
  }

  lemma BelowPush(was: seq<Item>, x: Item, items: seq<Item>)
    requires IndexBelow(was, x.index) && multiset(items) == multiset(was) + multiset{x}
    ensures IndexBelow(items, x.index + 1)
  {
    AddedItems(was, x, items);
  }

  lemma BelowPop(was: seq<Item>, x: Item, items: seq<Item>, n: nat)
    requires IndexBelow(was, n) && multiset(was) == multiset(items) + multiset{x}
    ensures IndexBelow(items, n)
  {
    AddedItems(items, x, was);
  }

  lemma BelowOrder(items: seq<Item>, n: nat)
    requires IndexBelow(items, n)
    ensures IndexBelow(Order(items), n)
  {
    OrderItems(items);
  }

  lemma OnceAdded(queue: seq<Item>, once: set<nat>, ids: set<string>, x: Item, id: string)
    requires OnceOk(queue, once, ids) && Apart(x.value, id, queue, ids) && (id == "" || id !in ids)
    requires IndexBelow(queue, x.index) && OnceBelow(once, x.index)
    ensures OnceOk(Placed(queue, x), if id == "" then once else once + {x.index}, if id == "" then ids else ids + {id})
  {
    var once', ids' := if id == "" then once else once + {x.index}, if id == "" then ids else ids + {id};
    var queue' := Placed(queue, x);
    assert forall i :: 0 <= i < |queue| ==> (queue[i].index in once' <==> queue[i].value.id in ids') by {
      forall i | 0 <= i < |queue| ensures queue[i].index in once' <==> queue[i].value.id in ids' {
        assert queue[i].value.id == id && id !in ids ==> Stored(queue, id);
      }
    }
    forall i | 0 <= i < |queue'| ensures queue'[i].index in once' <==> queue'[i].value.id in ids' {
      PlacedAt(queue, x, i);
    }
    forall i, j | 0 <= i < j < |queue'| && queue'[i].index in once' && queue'[j].index in once'
      ensures queue'[i].value.id != queue'[j].value.id
    {
      PlacedAt(queue, x, i);
      PlacedAt(queue, x, j);
      assert id !in ids ==> id == "" || !Stored(queue, id);
    }
    forall d | d in ids' ensures d != "" && Stored(queue', d) {
      StoredAfter(queue, x, d);
    }
  }

  lemma StoredAfter(queue: seq<Item>, x: Item, d: string)
    requires Stored(queue, d) || x.value.id == d
    ensures Stored(Placed(queue, x), d)
  {
    var k := Place(queue, x.priority);
    PlacedAt(queue, x, k);
    if Stored(queue, d) {
      var i :| 0 <= i < |queue| && queue[i].value.id == d;
      PlacedAt(queue, x, if i < k then i else i + 1);
    }
  }

  lemma Pushed(was: seq<Item>, x: Item, items: seq<Item>, once: set<nat>, ids: set<string>, id: string)
    requires IndexBelow(was, x.index) && multiset(items) == multiset(was) + multiset{x} && OnceBelow(once, x.index)
    requires Order(items) == Placed(Order(was), x) && (id == "" || id !in ids)
    ensures IndexBelow(items, x.index + 1)
    ensures OnceOk(Order(was), once, ids) && Apart(x.value, id, Order(was), ids) ==>
      OnceOk(Order(items), if id == "" then once else once + {x.index}, if id == "" then ids else ids + {id})
  {
    BelowPush(was, x, items);
    if OnceOk(Order(was), once, ids) && Apart(x.value, id, Order(was), ids) {
      BelowOrder(was, x.index);
      OnceAdded(Order(was), once, ids, x, id);
    }
  }

  lemma OnceTaken(queue: seq<Item>, once: set<nat>, ids: set<string>)
    requires queue != [] && OnceOk(queue, once, ids)
    ensures OnceOk(queue[1..], once, ids - {queue[0].value.id})
  {
    forall d | d in ids - {queue[0].value.id} ensures Stored(queue[1..], d) {
      var i :| 0 <= i < |queue| && queue[i].value.id == d;
      assert queue[1..][i - 1].value.id == d;
    }
    forall i | 0 <= i < |queue[1..]|
      ensures queue[1..][i].index in once <==> queue[1..][i].value.id in ids - {queue[0].value.id}
    {
      assert queue[1..][i] == queue[i + 1];
    }
  }

  /** A dequeued item frees its id, which counts only if it has one. */
  lemma FreedId(queue: seq<Item>, x: Item, rest: seq<Item>, once: set<nat>, ids: set<string>)
    requires queue == [x] + rest
    ensures rest == queue[1..] && |ids - {x.value.id}| <= |ids|
    ensures OnceOk(queue, once, ids) ==> OnceOk(rest, once, ids - {x.value.id})
    ensures OnceOk(queue, once, ids) && x.value.id == "" ==> ids - {x.value.id} == ids
    ensures ids == {} ==> ids - {x.value.id} == ids
  {
    assert ids == (ids - {x.value.id}) + (ids * {x.value.id});
    if OnceOk(queue, once, ids) {
      OnceTaken(queue, once, ids);
    }
  }

  /** rest is the queue from index i on. */
  predicate RestFrom(queue: seq<Item>, i: nat, rest: seq<Item>)
  {
    i + |rest| == |queue| && forall k :: 0 <= k < |rest| ==> rest[k] == queue[i + k]
  }

  /** out is the values from offset to i, in order; none before offset. */
  predicate Paged(queue: seq<Item>, offset: nat, i: nat, out: seq<Value>)
  {
    && i <= |queue| && |out| == (if i <= offset then 0 else i - offset)
    && forall k :: 0 <= k < |out| ==> out[k] == queue[offset + k].value
  }

  lemma PageStep(queue: seq<Item>, offset: nat, i: nat, was: seq<Item>, x: Item, rest: seq<Item>, out: seq<Value>)
    requires RestFrom(queue, i, was) && was == [x] + rest && Paged(queue, offset, i, out)
    ensures RestFrom(queue, i + 1, rest)
    ensures Paged(queue, offset, i + 1, if i >= offset then out + [x.value] else out)
  {
    assert was[0] == x;
    assert forall k :: 0 <= k < |rest| ==> rest[k] == was[k + 1];
  }

  lemma PageDone(queue: seq<Item>, offset: nat, limit: int, end: nat, out: seq<Value>)
    requires limit >= 1 && offset < |queue| && Paged(queue, offset, end, out)
    requires end == offset + (if limit <= |queue| - offset then limit else |queue| - offset)
    ensures out == PageOf(ValuesOf(queue), offset, limit)
  {
  }

  class PriorityQueue {
    const heap: HeapQueue
    var insertionCount: nat
    var capacity: int
    var ids: set<string>
    var idsPeak: nat
    var closed: bool
    var paused: bool
    var refusals: nat
    /** The indexes EnqueueOnce gave out. */
    ghost var once: set<nat>

    ghost predicate Valid()
      reads this, heap
    {
      && Good(heap.items) && IndexBelow(heap.items, insertionCount) && OnceBelow(once, insertionCount)
      && |ids| <= idsPeak
    }

    /** The items in Dequeue order. */
    ghost function Queue(): seq<Item>
      reads this, heap
    {
      Order(heap.items)
    }

    ghost predicate Deduplicated()
      reads this, heap
    {
      OnceOk(Queue(), once, ids)
    }

    constructor ()
      ensures Valid() && Deduplicated() && Queue() == [] && fresh(heap) && !closed && !paused && capacity == 0
    {
      heap := new HeapQueue([]);
      insertionCount, capacity, ids, idsPeak, closed, paused, refusals, once := 0, 0, {}, 0, false, false, 0, {};
    }

    /** enqueue, which Enqueue calls with no id and EnqueueOnce with the item's. */
    method Enqueue(item: Any, priority: int, id: string) returns (ok: bool)
      requires Valid()
      modifies this`ids, this`idsPeak, this`once, this`insertionCount, heap
      ensures Valid()
      ensures ok <==>
        && item.Typed? && !closed && !(capacity > 0 && |old(heap.items)| == capacity)
        && (id == "" || id !in old(ids))
      ensures !ok ==>
        heap.items == old(heap.items) && ids == old(ids) && insertionCount == old(insertionCount) && once == old(once)
      ensures ok ==> Queue() == Placed(old(Queue()), Item(item.v, priority, old(insertionCount)))
      ensures ok ==>
        ids == (if id == "" then old(ids) else old(ids) + {id}) && insertionCount == old(insertionCount) + 1
      ensures old(Deduplicated()) && (ok ==> Apart(item.v, id, old(Queue()), old(ids))) ==> Deduplicated()
    {
      ok := false;
      if item.Other? {
        return;
      }
      if closed {
        return;
      }
      if capacity > 0 && |heap.items| == capacity {
        return;
      }
      if id != "" {
        if id in ids {
          return;
        }
        ids := ids + {id};
        idsPeak := if idsPeak >= |ids| then idsPeak else |ids|;
        once := once + {insertionCount};
      }
      ghost var was := heap.items;
      var x := Item(item.v, priority, insertionCount);
      heap.Push(x);
      insertionCount := insertionCount + 1;
      ok := true;

      Pushed(was, x, heap.items, old(once), old(ids), id);
    }

    method Dequeue() returns (r: Option<Value>)
      requires Valid()
      modifies this`ids, this`idsPeak, this`refusals, heap
      ensures Valid() && (old(Deduplicated()) ==> Deduplicated())
      ensures paused || old(heap.items) == [] ==> r == None && heap.items == old(heap.items) && ids == old(ids)
      ensures refusals == old(refusals) + (if paused then 1 else 0)
      ensures !paused && old(heap.items) != [] ==>
        && old(Queue()) != [] && r == Some(old(Queue())[0].value) && Queue() == old(Queue())[1..]
        && ids == old(ids) - (if r.value.id == "" then {} else {r.value.id})
    {
      if paused {
        refusals := refusals + 1;
        return None;
      }
      if |heap.items| == 0 {
        return None;
      }
      ghost var was := heap.items;
      var x := heap.Pop();
      BelowPop(was, x, heap.items, insertionCount);
      FreedId(Order(was), x, Order(heap.items), once, ids);

      var v := x.value;
      if |ids| != 0 {
        if v.id != "" {
          ids := ids - {v.id};
          if |ids| == 0 && idsPeak > IDS_SHRINK_PEAK {
            ids, idsPeak := {}, 0;
          }
        }
      }
      return Some(v);
    }

    /** Values, by sorting: SortFunc returns some sorted arrangement, and there is only one. */
    method Values() returns (values: seq<Value>)
      requires Valid()
      ensures values == ValuesOf(Queue())
    {
      var items := SortItems(heap.items);
      OrderOk(heap.items);
      OneOrder(items, Order(heap.items));
      values := [];
      for i := 0 to |items|
        invariant values == ValuesOf(items[..i])
      {
        values := values + [items[i].value];
      }
      assert items[..|items|] == items;
    }

    /** Page, by popping a copy of the heap. */
    method Page(offset: int, limit: int) returns (out: seq<Value>)
      requires Valid()
      ensures out == PageOf(ValuesOf(Queue()), offset, limit)
      ensures offset < 0 || limit < 1 || offset >= |Queue()| ==> out == []
      ensures 0 <= offset < |Queue()| && limit >= 1 ==>
        && |out| == (if limit <= |Queue()| - offset then limit else |Queue()| - offset)
        && forall k :: 0 <= k < |out| ==> out[k] == Queue()[offset + k].value
    {
      var h := new HeapQueue(heap.items);
      ghost var queue := Queue();
      OrderSize(heap.items);
      if offset < 0 || limit < 1 || offset >= |h.items| {
        return [];
      }
      var end := offset + (if limit <= |h.items| - offset then limit else |h.items| - offset);
      out := PopPage(h, offset, end);
      PageDone(queue, offset, limit, end, out);
    }

    /** Pops end items and returns the values of those from offset on. */
    static method PopPage(h: HeapQueue, offset: nat, end: nat) returns (out: seq<Value>)
      requires Good(h.items) && end <= |h.items|
      modifies h
      ensures Paged(old(Order(h.items)), offset, end, out)
    {
      ghost var queue := Order(h.items);
      OrderSize(h.items);
      out := [];
      for i := 0 to end
        invariant Good(h.items) && |h.items| == |queue| - i
        invariant RestFrom(queue, i, Order(h.items)) && Paged(queue, offset, i, out)
      {
        ghost var was := Order(h.items);
        var x := h.Pop();
        PageStep(queue, offset, i, was, x, Order(h.items), out);
        OrderSize(h.items);
        if i >= offset {
          out := out + [x.value];
        }
      }
    }

    /** PurgeValues: the removed values in heap order. */
    method PurgeValues() returns (values: seq<Value>)
      requires Valid()
      modifies this`ids, this`idsPeak, heap
      ensures Valid() && Deduplicated() && Queue() == [] && ids == {}
      ensures values == ValuesOf(old(heap.items)) && multiset(values) == multiset(ValuesOf(old(Queue())))
    {
      ghost var was := heap.items;
      values := [];
      for i := 0 to |heap.items|
        invariant values == ValuesOf(heap.items[..i])
      {
        values := values + [heap.items[i].value];
      }
      assert heap.items[..|heap.items|] == was;
      OrderOk(was);
      SameValues(was, Order(was));
      heap.items := [];
      ids, idsPeak := {}, 0;
    }
  }

  lemma {:induction false} SameValues(a: seq<Item>, b: seq<Item>)
    requires multiset(a) == multiset(b)
    ensures multiset(ValuesOf(a)) == multiset(ValuesOf(b))
  {
    assert |a| == |multiset(a)|;
    assert |b| == |multiset(b)|;
    if a != [] {
      assert a[0] in multiset(b);
      var k: nat :| k < |b| && b[k] == a[0];
      RemoveAt(a, 0);
      RemoveAt(b, k);
      SameValues(a[..0] + a[1..], b[..k] + b[k + 1..]);
    }
  }

  lemma RemoveAt(a: seq<Item>, k: nat)
    requires k < |a|
    ensures multiset(a[..k] + a[k + 1..]) == multiset(a) - multiset{a[k]}
    ensures multiset(ValuesOf(a)) == multiset(ValuesOf(a[..k] + a[k + 1..])) + multiset{a[k].value}
  {
    assert a == a[..k] + [a[k]] + a[k + 1..];
    assert ValuesOf(a) == ValuesOf(a[..k]) + [a[k].value] + ValuesOf(a[k + 1..]);
    assert ValuesOf(a[..k] + a[k + 1..]) == ValuesOf(a[..k]) + ValuesOf(a[k + 1..]);
  }
}
