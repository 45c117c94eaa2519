/** Optional values, the lesser of two numbers, and sorting by a number. */
module Basics {

  datatype Option<T> = None | Some(value: T)

  function Min(a: int, b: int): int
  {
    if a <= b then a else b
  }

  /** x in front of the first that does not come before it. */
  function Insert<T>(x: T, sorted: seq<T>, key: T -> nat): seq<T>
  {
    if |sorted| == 0 || key(x) <= key(sorted[0]) then [x] + sorted else [sorted[0]] + Insert(x, sorted[1..], key)
  }

  /** slices.SortFunc by key. */
  function SortBy<T>(items: seq<T>, key: T -> nat): seq<T>
  {
    if |items| == 0 then [] else Insert(items[0], SortBy(items[1..], key), key)
  }

  lemma {:induction false} InsertMembers<T>(x: T, sorted: seq<T>, key: T -> nat)
    ensures forall y :: y in Insert(x, sorted, key) <==> y == x || y in sorted
  {
    if |sorted| > 0 && key(x) > key(sorted[0]) {
      InsertMembers(x, sorted[1..], key);
      assert sorted == [sorted[0]] + sorted[1..];
    }
  }

  /** Sorting commutes with a map that keeps the key. */
  lemma {:induction false} InsertMaps<T, U>(x: T, sorted: seq<T>, key: T -> nat, f: T -> U, key': U -> nat)
    requires forall y :: key'(f(y)) == key(y)
    ensures MapAll(Insert(x, sorted, key), f) == Insert(f(x), MapAll(sorted, f), key')
  {
    if |sorted| > 0 && key(x) > key(sorted[0]) {
      InsertMaps(x, sorted[1..], key, f, key');
      assert MapAll(sorted, f)[1..] == MapAll(sorted[1..], f);
    }
  }

  function MapAll<T, U>(items: seq<T>, f: T -> U): seq<U>
  {
    seq(|items|, i requires 0 <= i < |items| => f(items[i]))
  }

  lemma {:induction false} SortMaps<T, U>(items: seq<T>, key: T -> nat, f: T -> U, key': U -> nat)
    requires forall y :: key'(f(y)) == key(y)
    ensures MapAll(SortBy(items, key), f) == SortBy(MapAll(items, f), key')
  {
    if |items| > 0 {
      SortMaps(items[1..], key, f, key');
      InsertMaps(items[0], SortBy(items[1..], key), key, f, key');
      assert MapAll(items, f)[1..] == MapAll(items[1..], f);
    }
  }
}
