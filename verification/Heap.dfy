/** The priority heap (internal/queues/heap.go), and the order it hands items out in: lower priority
    first, then lower insertion index. */
module Heap {

  /** A queued value and what its ID method returns ("" if it has none). */
  datatype Value = Value(payload: nat, id: string)
  datatype Item = Item(value: Value, priority: int, index: nat)

  predicate Less(a: Item, b: Item)
  {
    if a.priority == b.priority then a.index < b.index else a.priority < b.priority
  }

  // ---------------------------------------------------------------- the order

  predicate Sorted(items: seq<Item>)
  {
    forall i, j :: 0 <= i < j < |items| ==> !Less(items[j], items[i])
  }

  function Insert(x: Item, sorted: seq<Item>): seq<Item>
  {
    if sorted == [] || !Less(sorted[0], x) then [x] + sorted else [sorted[0]] + Insert(x, sorted[1..])
  }

  /** The items in the order Dequeue hands them out. */
  function Order(items: seq<Item>): seq<Item>
  {
    if items == [] then [] else Insert(items[0], Order(items[1..]))
  }

  lemma ConsSorted(x: Item, rest: seq<Item>)
    requires Sorted(rest) && forall k :: 0 <= k < |rest| ==> !Less(rest[k], x)
    ensures Sorted([x] + rest)
  {
    var all := [x] + rest;
    forall i, j | 0 <= i < j < |all| ensures !Less(all[j], all[i]) {
      assert all[j] == rest[j - 1];
    }
  }

  lemma {:induction false} InsertOk(x: Item, sorted: seq<Item>)
    requires Sorted(sorted)
    ensures Sorted(Insert(x, sorted)) && multiset(Insert(x, sorted)) == multiset(sorted) + multiset{x}
  {
    if sorted == [] || !Less(sorted[0], x) {
      forall k | 0 <= k < |sorted| ensures !Less(sorted[k], x) {
        assert k > 0 ==> !Less(sorted[k], sorted[0]);
      }
      ConsSorted(x, sorted);
    } else {
      var rest := Insert(x, sorted[1..]);
      InsertOk(x, sorted[1..]);
      assert sorted == [sorted[0]] + sorted[1..];
      forall k | 0 <= k < |rest| ensures !Less(rest[k], sorted[0]) {
        assert rest[k] in multiset(rest);
        assert rest[k] == x || rest[k] in sorted[1..];
      }
      ConsSorted(sorted[0], rest);
    }
  }

  lemma {:induction false} OrderOk(items: seq<Item>)
    ensures Sorted(Order(items)) && multiset(Order(items)) == multiset(items) && |Order(items)| == |items|
  {
    if items != [] {
      OrderOk(items[1..]);
      InsertOk(items[0], Order(items[1..]));
      assert items == [items[0]] + items[1..];
    }
    assert |multiset(Order(items))| == |multiset(items)|;
  }

  ghost predicate Single(items: multiset<Item>, x: Item)
  {
    x in items ==> items[x] == 1 && forall y :: y in items && y.index == x.index ==> y == x
  }

  /** No two items share an index. */
  ghost predicate Indexed(items: multiset<Item>)
  {
    forall x {:trigger Single(items, x)} :: Single(items, x)
  }

  /** Where a new item of this priority goes: behind the items of its priority or a lower one. */
  function Place(order: seq<Item>, priority: int): (k: nat)
    ensures k <= |order| && forall i :: 0 <= i < k ==> order[i].priority <= priority
    ensures k < |order| ==> priority < order[k].priority
  {
    if order == [] || priority < order[0].priority then 0 else
      var k := Place(order[1..], priority);
      assert forall i :: 0 < i < k + 1 ==> order[i] == order[1..][i - 1];
      k + 1
  }

  /** x goes in at index k. */
  function Middle(items: seq<Item>, x: Item, k: nat): seq<Item>
    requires k <= |items|
  {
    seq(|items| + 1, i requires 0 <= i <= |items| => if i < k then items[i] else if i == k then x else items[i - 1])
  }

  /** order with x put in its place. */
  function Placed(order: seq<Item>, x: Item): seq<Item>
  {
    Middle(order, x, Place(order, x.priority))
  }

  lemma TailSorted(a: seq<Item>)
    requires a != [] && Sorted(a)
    ensures Sorted(a[1..]) && multiset(a[1..]) == multiset(a) - multiset{a[0]}
  {
    assert a == [a[0]] + a[1..];
  }

  lemma HeadIsLeast(a: seq<Item>, x: Item)
    requires a != [] && Sorted(a) && x in multiset(a)
    ensures !Less(x, a[0])
  {
    var k :| 0 <= k < |a| && a[k] == x;
  }

  /** Items with distinct indexes have one order. */
  lemma {:induction false} OneOrder(a: seq<Item>, b: seq<Item>)
    requires Sorted(a) && Sorted(b) && multiset(a) == multiset(b) && Indexed(multiset(a))
    ensures a == b
  {
    assert |a| == |multiset(a)|;
    assert |b| == |multiset(b)|;
    if a != [] {
      SameHead(a, b);
      TailSorted(a);
      TailSorted(b);
      IndexedTail(multiset(a), a[0]);
      assert multiset(a[1..]) == multiset(b[1..]);
      OneOrder(a[1..], b[1..]);
      assert a == [a[0]] + a[1..] && b == [b[0]] + b[1..];
    }
  }

  lemma IndexedTail(items: multiset<Item>, x: Item)
    requires Indexed(items)
    ensures Indexed(items - multiset{x})
  {
    forall y ensures Single(items - multiset{x}, y) {
      assert Single(items, y);
    }
  }

  lemma SameHead(a: seq<Item>, b: seq<Item>)
    requires a != [] && b != [] && Sorted(a) && Sorted(b) && multiset(a) == multiset(b) && Indexed(multiset(a))
    ensures a[0] == b[0]
  {
    assert a[0] in multiset(a) && b[0] in multiset(b) && Single(multiset(a), a[0]);
    HeadIsLeast(a, b[0]);
    HeadIsLeast(b, a[0]);
  }

  /** The first of the order is what no other must precede; the rest is the order of the rest. */
  lemma OrderPops(items: seq<Item>, least: Item, rest: seq<Item>)
    requires Indexed(multiset(items)) && multiset(items) == multiset(rest) + multiset{least}
    requires forall x :: x in items ==> !Less(x, least)
    ensures Order(items) == [least] + Order(rest)
  {
    OrderOk(items);
    OrderOk(rest);
    forall k | 0 <= k < |Order(rest)| ensures !Less(Order(rest)[k], least) {
      assert Order(rest)[k] in multiset(Order(rest)) && Order(rest)[k] in multiset(items);
    }
    ConsSorted(least, Order(rest));
    OneOrder(Order(items), [least] + Order(rest));
  }

  lemma PlacedAt(order: seq<Item>, x: Item, i: nat)
    requires i <= |order|
    ensures |Placed(order, x)| == |order| + 1
    ensures var k := Place(order, x.priority);
      Placed(order, x)[i] == if i < k then order[i] else if i == k then x else order[i - 1]
  {
  }

  lemma MiddleSorted(items: seq<Item>, x: Item, k: nat)
    requires Sorted(items) && k <= |items|
    requires forall i :: 0 <= i < k ==> !Less(x, items[i])
    requires forall i :: k <= i < |items| ==> !Less(items[i], x)
    ensures Sorted(Middle(items, x, k))
  {
  }

  lemma MiddleItems(items: seq<Item>, x: Item, k: nat)
    requires k <= |items|
    ensures multiset(Middle(items, x, k)) == multiset(items) + multiset{x}
  {
    assert Middle(items, x, k) == items[..k] + [x] + items[k..];
    assert items == items[..k] + items[k..];
  }

  lemma PlacedSorted(order: seq<Item>, x: Item)
    requires Sorted(order) && forall i :: 0 <= i < |order| ==> order[i].index < x.index
    ensures Sorted(Placed(order, x)) && multiset(Placed(order, x)) == multiset(order) + multiset{x}
  {
    var k := Place(order, x.priority);
    forall i | k <= i < |order| ensures !Less(order[i], x) {
      assert i > k ==> !Less(order[i], order[k]);
    }
    MiddleSorted(order, x, k);
    MiddleItems(order, x, k);
  }

  lemma IndexedPush(items: multiset<Item>, x: Item)
    requires Indexed(items) && forall y :: y in items ==> y.index < x.index
    ensures Indexed(items + multiset{x})
  {
    assert x !in items;
    forall y ensures Single(items + multiset{x}, y) {
      assert Single(items, y);
    }
  }

  /** A new item, with the highest index yet, goes behind every item of its priority or a lower one. */
  lemma OrderPushes(items: seq<Item>, x: Item, items': seq<Item>)
    requires Indexed(multiset(items)) && forall y :: y in items ==> y.index < x.index
    requires multiset(items') == multiset(items) + multiset{x}
    ensures Order(items') == Placed(Order(items), x) && Indexed(multiset(items'))
  {
    OrderOk(items);
    OrderOk(items');
    forall y | y in multiset(items) ensures y.index < x.index {
      assert y in items;
    }
    IndexedPush(multiset(items), x);
    forall i | 0 <= i < |Order(items)| ensures Order(items)[i].index < x.index {
      assert Order(items)[i] in multiset(Order(items));
    }
    PlacedSorted(Order(items), x);
    OneOrder(Placed(Order(items), x), Order(items'));
  }

  lemma OrderSize(items: seq<Item>)
    ensures |Order(items)| == |items|
  {
    OrderOk(items);
  }

  /** The order is a stable sort: lower priority first, insertion order among equals, no item lost. */
  lemma OrderIsStable(items: seq<Item>)
    requires Indexed(multiset(items))
    ensures multiset(Order(items)) == multiset(items)
    ensures forall i, j :: 0 <= i < j < |Order(items)| ==>
      var a, b := Order(items)[i], Order(items)[j];
      a.priority < b.priority || (a.priority == b.priority && a.index < b.index)
  {
    OrderOk(items);
    var order := Order(items);
    forall i, j | 0 <= i < j < |order|
      ensures || order[i].priority < order[j].priority
              || (order[i].priority == order[j].priority && order[i].index < order[j].index)
    {
      assert !Less(order[j], order[i]);
      if order[i].index == order[j].index {
        Twice(order, i, j);
      }
    }
  }

  lemma Twice(s: seq<Item>, i: nat, j: nat)
    requires i < j < |s| && s[i].index == s[j].index
    ensures !Indexed(multiset(s))
  {
    assert s[i] in multiset(s) && s[j] in multiset(s);
    if s[i] == s[j] {
      CountedTwice(s, i, j);
    }
    assert !Single(multiset(s), s[i]);
  }

  lemma CountedTwice(s: seq<Item>, i: nat, j: nat)
    requires i < j < |s| && s[i] == s[j]
    ensures multiset(s)[s[i]] >= 2
  {
    assert s == s[..j] + [s[j]] + s[j + 1..];
    assert s[..j][i] in multiset(s[..j]);
  }

  lemma OrderItems(items: seq<Item>)
    ensures forall x :: x in Order(items) <==> x in items
  {
    OrderOk(items);
    forall x ensures x in Order(items) <==> x in items {
      assert x in multiset(Order(items)) <==> x in multiset(items);
    }
  }

  lemma AddedItems(was: seq<Item>, x: Item, items: seq<Item>)
    requires multiset(items) == multiset(was) + multiset{x}
    ensures |items| == |was| + 1 && forall y :: y in items <==> y in was || y == x
  {
    assert |multiset(items)| == |items|;
    assert |multiset(was)| == |was|;
    forall y ensures y in items <==> y in was || y == x {
      assert y in multiset(items) <==> y in multiset(was) + multiset{x};
    }
  }

  // ---------------------------------------------------------------- sorting

  /** Where the scan from the end stops, x fits. */
  lemma ScanFits(sorted: seq<Item>, x: Item, k: nat)
    requires Sorted(sorted) && k <= |sorted|
    requires (k > 0 ==> !Less(x, sorted[k - 1])) && (k < |sorted| ==> Less(x, sorted[k]))
    ensures forall i :: 0 <= i < k ==> !Less(x, sorted[i])
    ensures forall i :: k <= i < |sorted| ==> !Less(sorted[i], x)
  {
    forall i | 0 <= i < k ensures !Less(x, sorted[i]) {
      assert i < k - 1 ==> !Less(sorted[k - 1], sorted[i]);
    }
    forall i | k <= i < |sorted| ensures !Less(sorted[i], x) {
      assert i > k ==> !Less(sorted[i], sorted[k]);
    }
  }

  /** x goes into a sorted list from its end. */
  method InsertItem(sorted: seq<Item>, x: Item) returns (r: seq<Item>)
    requires Sorted(sorted)
    ensures Sorted(r) && multiset(r) == multiset(sorted) + multiset{x}
  {
    var k := |sorted|;
    while k > 0 && Less(x, sorted[k - 1])
      invariant 0 <= k <= |sorted| && (k < |sorted| ==> Less(x, sorted[k]))
    {
      k := k - 1;
    }
    ScanFits(sorted, x, k);
    MiddleSorted(sorted, x, k);
    MiddleItems(sorted, x, k);
    r := Middle(sorted, x, k);
  }

  /** Stands for slices.SortFunc with the comparison of Values: some sorted arrangement. */
  method SortItems(items: seq<Item>) returns (sorted: seq<Item>)
    ensures Sorted(sorted) && multiset(sorted) == multiset(items)
  {
    sorted := [];
    for i := 0 to |items|
      invariant Sorted(sorted) && multiset(sorted) == multiset(items[..i])
    {
      assert items[..i + 1] == items[..i] + [items[i]];
      sorted := InsertItem(sorted, items[i]);
    }
    assert items[..|items|] == items;
  }

  // ---------------------------------------------------------------- the heap

  function Parent(i: nat): nat
  {
    if i == 0 then 0 else (i - 1) / 2
  }

  predicate InOrder(items: seq<Item>, i: nat)
    requires i < |items|
  {
    !Less(items[i], items[Parent(i)])
  }

  ghost predicate HeapUpTo(items: seq<Item>, n: nat)
  {
    n <= |items| && forall i: nat {:trigger InOrder(items, i)} :: i < n ==> InOrder(items, i)
  }

  ghost predicate IsHeap(items: seq<Item>)
  {
    HeapUpTo(items, |items|)
  }

  /** The item at k is in order with the parent of i. */
  predicate Under(items: seq<Item>, k: nat, i: nat)
    requires k < |items| && i < |items|
  {
    !Less(items[k], items[Parent(i)])
  }

  /** A heap but for the item at j, which may be too small for its place. */
  ghost predicate HeapBut(items: seq<Item>, j: nat)
  {
    && j < |items|
    && (forall i: nat {:trigger InOrder(items, i)} :: i < |items| && i != j ==> InOrder(items, i))
    && (forall i: nat {:trigger Under(items, i, j)} :: i < |items| && Parent(i) == j ==> Under(items, i, j))
  }

  /** The first n items are a heap but for the item at i, which may be too large for its place. */
  ghost predicate HeapUnder(items: seq<Item>, i: nat, n: nat)
  {
    && i < n <= |items|
    && (forall k: nat {:trigger InOrder(items, k)} :: k < n && (Parent(k) != i || k == 0) ==> InOrder(items, k))
    && (i > 0 ==> forall k: nat {:trigger Under(items, k, i)} :: k < n && Parent(k) == i ==> Under(items, k, i))
  }

  ghost predicate Good(items: seq<Item>)
  {
    IsHeap(items) && Indexed(multiset(items))
  }

  function Swap(items: seq<Item>, i: nat, j: nat): (r: seq<Item>)
    requires i < |items| && j < |items|
    ensures multiset(r) == multiset(items) && |r| == |items|
  {
    assert items == items[i := items[i]];
    items[i := items[j]][j := items[i]]
  }

  lemma {:induction false} RootIsLeast(items: seq<Item>, i: nat)
    requires IsHeap(items) && i < |items|
    ensures !Less(items[i], items[0])
  {
    if i > 0 {
      RootIsLeast(items, Parent(i));
      assert InOrder(items, i);
    }
  }

  class HeapQueue {
    var items: seq<Item>

    constructor (items: seq<Item>)
      ensures this.items == items
    {
      this.items := items;
    }

    method Up(last: nat)
      requires HeapBut(items, last)
      modifies this
      ensures IsHeap(items) && multiset(items) == multiset(old(items))
    {
      var j := last;
      while true
        invariant HeapBut(items, j) && multiset(items) == multiset(old(items))
        decreases j
      {
        var i := Parent(j);
        if i == j || !Less(items[j], items[i]) {
          break;
        }
        UpStep(items, j);
        items := Swap(items, i, j);
        j := i;
      }
      assert InOrder(items, j);
    }

    method Down(top: nat, n: nat)
      requires HeapUnder(items, top, n)
      modifies this
      ensures |items| == |old(items)| && items[n..] == old(items)[n..] && multiset(items) == multiset(old(items))
      ensures HeapUpTo(items, n)
    {
      var i := top;
      while true
        invariant |items| == |old(items)| && HeapUnder(items, i, n)
        invariant items[n..] == old(items)[n..] && multiset(items) == multiset(old(items))
        decreases n - i
      {
        var j := 2 * i + 1;
        if j >= n {
          LeafDone(items, i, n);
          break;
        }
        if j + 1 < n && Less(items[j + 1], items[j]) {
          j := j + 1;
        }
        if !Less(items[j], items[i]) {
          DownDone(items, i, j, n);
          break;
        }
        DownStep(items, i, j, n);
        SwapTail(items, i, j, n);
        items := Swap(items, i, j);
        i := j;
      }
    }

    method Push(item: Item)
      requires Good(items) && forall x :: x in items ==> x.index < item.index
      modifies this
      ensures Good(items) && Order(items) == Placed(Order(old(items)), item)
      ensures multiset(items) == multiset(old(items)) + multiset{item}
    {
      items := items + [item];
      forall i: nat | i < |items| - 1 ensures InOrder(items, i) {
        assert InOrder(old(items), i);
      }
      Up(|items| - 1);
      OrderPushes(old(items), item, items);
    }

    method Pop() returns (item: Item)
      requires Good(items) && items != []
      modifies this
      ensures Good(items) && Order(old(items)) == [item] + Order(items)
      ensures multiset(old(items)) == multiset(items) + multiset{item}
    {
      var n := |items| - 1;
      forall x | x in items ensures !Less(x, items[0]) {
        var i: nat :| i < |items| && items[i] == x;
        RootIsLeast(items, i);
      }
      item := items[0];
      if n > 0 {
        PopStep(items);
      }
      items := Swap(items, 0, n);
      if n > 0 {
        Down(0, n);
      }
      assert items[n..] == [item];
      assert items == items[..n] + [item];
      PopEnds(old(items), items, item);
      items := items[..n];
    }
  }

  lemma PopEnds(was: seq<Item>, items: seq<Item>, item: Item)
    requires Good(was) && items != [] && items == items[..|items| - 1] + [item] && multiset(items) == multiset(was)
    requires HeapUpTo(items, |items| - 1) && forall x :: x in was ==> !Less(x, item)
    ensures Good(items[..|items| - 1]) && Order(was) == [item] + Order(items[..|items| - 1])
    ensures multiset(was) == multiset(items[..|items| - 1]) + multiset{item}
  {
    var n := |items| - 1;
    forall k: nat | k < n ensures InOrder(items[..n], k) {
      assert InOrder(items, k);
    }
    assert multiset(items[..n]) == multiset(was) - multiset{item};
    IndexedTail(multiset(was), item);
    OrderPops(was, item, items[..n]);
  }

  lemma Children(k: nat, i: nat)
    requires Parent(k) == i && k > 0
    ensures k == 2 * i + 1 || k == 2 * i + 2
  {
  }

  lemma UpStep(items: seq<Item>, j: nat)
    requires HeapBut(items, j) && j > 0 && Less(items[j], items[Parent(j)])
    ensures HeapBut(Swap(items, Parent(j), j), Parent(j))
  {
    var i, after := Parent(j), Swap(items, Parent(j), j);
    assert InOrder(items, i);
    forall k: nat | k < |after| && k != i ensures InOrder(after, k) {
      assert k != j ==> InOrder(items, k);
      assert Parent(k) == j ==> Under(items, k, j);
    }
    forall k: nat | k < |after| && Parent(k) == i ensures Under(after, k, i) {
      assert k != j ==> InOrder(items, k);
    }
  }

  lemma SwapTail(items: seq<Item>, i: nat, j: nat, n: nat)
    requires i < n <= |items| && j < n
    ensures Swap(items, i, j)[n..] == items[n..]
  {
  }

  /** j is the child of i to compare with: the smaller of two. */
  predicate SmallerChild(items: seq<Item>, i: nat, j: nat, n: nat)
  {
    && i < j < n <= |items| && (j == 2 * i + 1 || j == 2 * i + 2)
    && (2 * i + 1 < n && !Less(items[2 * i + 1], items[j])) && (2 * i + 2 < n ==> !Less(items[2 * i + 2], items[j]))
  }

  lemma LeafDone(items: seq<Item>, i: nat, n: nat)
    requires HeapUnder(items, i, n) && n <= 2 * i + 1
    ensures HeapUpTo(items, n)
  {
    forall k: nat | k < n ensures InOrder(items, k) {
      if Parent(k) == i && k > 0 { Children(k, i); }
    }
  }

  lemma DownDone(items: seq<Item>, i: nat, j: nat, n: nat)
    requires HeapUnder(items, i, n) && SmallerChild(items, i, j, n) && !Less(items[j], items[i])
    ensures HeapUpTo(items, n)
  {
    forall k: nat | k < n ensures InOrder(items, k) {
      if Parent(k) == i && k > 0 { Children(k, i); }
    }
  }

  lemma DownStep(items: seq<Item>, i: nat, j: nat, n: nat)
    requires HeapUnder(items, i, n) && SmallerChild(items, i, j, n) && Less(items[j], items[i])
    ensures HeapUnder(Swap(items, i, j), j, n)
  {
    var after := Swap(items, i, j);
    forall k: nat | k < n && (Parent(k) != j || k == 0) ensures InOrder(after, k) {
      if Parent(k) == i && k > 0 {
        Children(k, i);
      } else {
        assert InOrder(items, k);
        if k == i && i > 0 { assert Under(items, j, i); }
      }
    }
    forall k: nat | k < n && Parent(k) == j ensures Under(after, k, j) {
      assert InOrder(items, k);
    }
  }

  lemma PopStep(items: seq<Item>)
    requires IsHeap(items) && |items| > 1
    ensures HeapUnder(Swap(items, 0, |items| - 1), 0, |items| - 1)
  {
    var after := Swap(items, 0, |items| - 1);
    forall k: nat | k < |items| - 1 && (Parent(k) != 0 || k == 0) ensures InOrder(after, k) {
      assert InOrder(items, k);
    }
  }
}
