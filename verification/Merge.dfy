/** Merging the per-symbol lists of a bar-major run into one list per kind. */
module Merge {

  /** The place of an item: which list, and where in it. */
  datatype Place = Place(list: nat, pos: nat)

  predicate In<T>(lists: seq<seq<T>>, p: Place) {
    p.list < |lists| && p.pos < |lists[p.list]|
  }

  function KeyAt<T>(lists: seq<seq<T>>, key: T -> int, p: Place): int
    requires In(lists, p)
  {
    key(lists[p.list][p.pos])
  }

  /** By key, then by list, then by position. */
  predicate Earlier<T>(lists: seq<seq<T>>, key: T -> int, p: Place, q: Place)
    requires In(lists, p) && In(lists, q)
  {
    KeyAt(lists, key, p) < KeyAt(lists, key, q) ||
    (KeyAt(lists, key, p) == KeyAt(lists, key, q) && (p.list < q.list || (p.list == q.list && p.pos < q.pos)))
  }

  ghost predicate AllIn<T>(lists: seq<seq<T>>, order: seq<Place>) {
    forall i :: 0 <= i < |order| ==> In(lists, order[i])
  }

  ghost predicate InOrder<T>(lists: seq<seq<T>>, key: T -> int, order: seq<Place>)
    requires AllIn(lists, order)
  {
    forall i, j :: 0 <= i < j < |order| ==> Earlier(lists, key, order[i], order[j])
  }

  /** `order` visits every item of every list once, in the order of `Earlier`. */
  ghost predicate Visits<T>(lists: seq<seq<T>>, key: T -> int, order: seq<Place>) {
    AllIn(lists, order) && InOrder(lists, key, order) && forall p :: In(lists, p) ==> p in order
  }

  function Items<T>(lists: seq<seq<T>>, order: seq<Place>): (r: seq<T>)
    requires AllIn(lists, order)
    ensures |r| == |order|
  {
    seq(|order|, i requires 0 <= i < |order| => lists[order[i].list][order[i].pos])
  }

  /** The merged list: the items read off in that one order. */
  ghost predicate Merged<T>(lists: seq<seq<T>>, key: T -> int, out: seq<T>) {
    exists order :: Visits(lists, key, order) && out == Items(lists, order)
  }

  /** There is only one such order, hence only one merged list: fast path and sort agree. */
  lemma {:induction false} OneOrder<T>(lists: seq<seq<T>>, key: T -> int, a: seq<Place>, b: seq<Place>)
    requires AllIn(lists, a) && AllIn(lists, b) && InOrder(lists, key, a) && InOrder(lists, key, b)
    requires forall p :: p in a <==> p in b
    ensures a == b
  {
    assert |a| > 0 ==> a[0] in a && a[0] in b;
    assert |b| > 0 ==> b[0] in b && b[0] in a;
    if |a| > 0 && |b| > 0 {
      FirstOfBoth(lists, key, a, b);
      assert forall p :: p in a[1..] <==> p in a && p != a[0];
      assert forall p :: p in b[1..] <==> p in b && p != b[0];
      OneOrder(lists, key, a[1..], b[1..]);
      assert a == [a[0]] + a[1..] && b == [b[0]] + b[1..];
    }
  }

  lemma FirstOfBoth<T>(lists: seq<seq<T>>, key: T -> int, a: seq<Place>, b: seq<Place>)
    requires AllIn(lists, a) && AllIn(lists, b) && InOrder(lists, key, a) && InOrder(lists, key, b)
    requires |a| > 0 && |b| > 0 && a[0] in b && b[0] in a
    ensures a[0] == b[0]
  {
  }

  lemma MergedUnique<T>(lists: seq<seq<T>>, key: T -> int, a: seq<T>, b: seq<T>)
    requires Merged(lists, key, a) && Merged(lists, key, b)
    ensures a == b
  {
    var x :| Visits(lists, key, x) && a == Items(lists, x);
    var y :| Visits(lists, key, y) && b == Items(lists, y);
    forall p ensures p in x <==> p in y {
      if p in x { assert In(lists, p); }
      if p in y { assert In(lists, p); }
    }
    OneOrder(lists, key, x, y);
  }

  // ---------------------------------------------------------------- the fallback: a full sort

  /** All items with their places, list after list. */
  function Tagged<T>(lists: seq<seq<T>>, s: nat, i: nat): (r: seq<Place>)
    requires s <= |lists| && (s < |lists| ==> i <= |lists[s]|) && (s == |lists| ==> i == 0)
    ensures forall p :: p in r <==> In(lists, p) && (p.list > s || (p.list == s && p.pos >= i))
    ensures forall a, b :: 0 <= a < b < |r| ==> r[a] != r[b]
    decreases |lists| - s, if s < |lists| then |lists[s]| - i else 0
  {
    if s == |lists| then []
    else if i == |lists[s]| then Tagged(lists, s + 1, 0)
    else
      var rest := Tagged(lists, s, i + 1);
      assert forall p :: p in [Place(s, i)] + rest <==> p == Place(s, i) || p in rest;
      assert forall b :: 0 <= b < |rest| ==> rest[b] in rest;
      [Place(s, i)] + rest
  }

  lemma EarlierOrders<T>(lists: seq<seq<T>>, key: T -> int, p: Place, q: Place, r: Place)
    requires In(lists, p) && In(lists, q) && In(lists, r)
    ensures p == q || Earlier(lists, key, p, q) || Earlier(lists, key, q, p)
    ensures Earlier(lists, key, p, q) && Earlier(lists, key, q, r) ==> Earlier(lists, key, p, r)
    ensures !Earlier(lists, key, p, p)
  {
  }

  function Inserted<T>(lists: seq<seq<T>>, key: T -> int, p: Place, order: seq<Place>): (r: seq<Place>)
    requires In(lists, p) && AllIn(lists, order)
    ensures AllIn(lists, r)
  {
    if order == [] then [p]
    else if Earlier(lists, key, p, order[0]) then [p] + order
    else [order[0]] + Inserted(lists, key, p, order[1..])
  }

  function Sorted<T>(lists: seq<seq<T>>, key: T -> int, tags: seq<Place>): (r: seq<Place>)
    requires AllIn(lists, tags)
    ensures AllIn(lists, r)
  {
    if tags == [] then [] else Inserted(lists, key, tags[0], Sorted(lists, key, tags[1..]))
  }

  lemma {:induction false} InsertedInOrder<T>(lists: seq<seq<T>>, key: T -> int, p: Place, order: seq<Place>)
    requires In(lists, p) && AllIn(lists, order) && InOrder(lists, key, order) && p !in order
    ensures InOrder(lists, key, Inserted(lists, key, p, order))
    ensures forall q :: q in Inserted(lists, key, p, order) <==> q == p || q in order
  {
    var r := Inserted(lists, key, p, order);
    if order != [] {
      var head, tail := order[0], order[1..];
      assert forall q :: q in order <==> q == head || q in tail;
      if Earlier(lists, key, p, head) {
        forall j | 0 <= j < |order| ensures Earlier(lists, key, p, order[j]) {
          EarlierOrders(lists, key, p, head, order[j]);
        }
      } else {
        InsertedInOrder(lists, key, p, tail);
        var rest := Inserted(lists, key, p, tail);
        assert r == [head] + rest;
        EarlierOrders(lists, key, p, head, head);
        forall j | 0 <= j < |rest| ensures Earlier(lists, key, head, rest[j]) {
          assert rest[j] in rest;
        }
      }
    }
  }

  lemma {:induction false} SortedInOrder<T>(lists: seq<seq<T>>, key: T -> int, tags: seq<Place>)
    requires AllIn(lists, tags) && forall a, b :: 0 <= a < b < |tags| ==> tags[a] != tags[b]
    ensures InOrder(lists, key, Sorted(lists, key, tags))
    ensures forall q :: q in Sorted(lists, key, tags) <==> q in tags
  {
    if tags != [] {
      assert forall q :: q in tags <==> q == tags[0] || q in tags[1..];
      SortedInOrder(lists, key, tags[1..]);
      InsertedInOrder(lists, key, tags[0], Sorted(lists, key, tags[1..]));
    }
  }

  // ---------------------------------------------------------------- the fast path: N pointers

  ghost predicate Presorted<T>(list: seq<T>, key: T -> int) {
    forall i, j :: 0 <= i < j < |list| ==> key(list[i]) <= key(list[j])
  }

  function Count<T>(lists: seq<seq<T>>, n: nat): nat
    requires n <= |lists|
  {
    if n == 0 then 0 else Count(lists, n - 1) + |lists[n - 1]|
  }

  function Taken(ptr: seq<nat>, n: nat): nat
    requires n <= |ptr|
  {
    if n == 0 then 0 else Taken(ptr, n - 1) + ptr[n - 1]
  }

  lemma {:induction false} TakenNext(ptr: seq<nat>, pick: nat, n: nat)
    requires pick < |ptr| && n <= |ptr|
    ensures Taken(ptr[pick := ptr[pick] + 1], n) == Taken(ptr, n) + if pick < n then 1 else 0
  {
    if n > 0 {
      TakenNext(ptr, pick, n - 1);
    }
  }

  /** Pointers stay within their lists; together they have passed everything exactly at the end. */
  lemma {:induction false} TakenBound<T>(lists: seq<seq<T>>, ptr: seq<nat>, n: nat)
    requires n <= |lists| == |ptr| && forall s :: 0 <= s < |ptr| ==> ptr[s] <= |lists[s]|
    ensures Taken(ptr, n) <= Count(lists, n)
    ensures Taken(ptr, n) == Count(lists, n) <==> forall s :: 0 <= s < n ==> ptr[s] == |lists[s]|
  {
    if n > 0 {
      TakenBound(lists, ptr, n - 1);
    }
  }

  lemma {:induction false} TakenZero(ptr: seq<nat>, n: nat)
    requires n <= |ptr| && forall s :: 0 <= s < |ptr| ==> ptr[s] == 0
    ensures Taken(ptr, n) == 0
  {
    if n > 0 {
      TakenZero(ptr, n - 1);
    }
  }

  method IsPresorted<T>(list: seq<T>, key: T -> int) returns (yes: bool)
    ensures yes <==> Presorted(list, key)
  {
    var i := 1;
    while i < |list|
      invariant 1 <= i && (i <= |list| || list == [])
      invariant forall a, b :: 0 <= a < b < i && b < |list| ==> key(list[a]) <= key(list[b])
    {
      if key(list[i]) < key(list[i - 1]) { return false; }
      i := i + 1;
    }
    return true;
  }

  /** The pending item that comes first, if any pointer is still short of its list's end. */
  method PickNext<T>(lists: seq<seq<T>>, key: T -> int, ptr: array<nat>) returns (pick: int)
    requires ptr.Length == |lists|
    ensures -1 <= pick < |lists|
    ensures pick == -1 ==> forall s :: 0 <= s < |lists| ==> ptr[s] >= |lists[s]|
    ensures pick >= 0 ==> ptr[pick] < |lists[pick]|
    ensures pick >= 0 ==> forall s :: 0 <= s < |lists| && ptr[s] < |lists[s]| ==> HeadFirst(lists, key, ptr[..], pick, s)
  {
    pick := -1;
    var pickKey := 0;
    var s := 0;
    while s < |lists|
      invariant 0 <= s <= |lists| && -1 <= pick < s
      invariant pick == -1 ==> forall r :: 0 <= r < s ==> ptr[r] >= |lists[r]|
      invariant pick >= 0 ==> ptr[pick] < |lists[pick]| && pickKey == key(lists[pick][ptr[pick]])
      invariant pick >= 0 ==> forall r :: 0 <= r < s && ptr[r] < |lists[r]| ==> HeadFirst(lists, key, ptr[..], pick, r)
    {
      var i := ptr[s];
      if i < |lists[s]| {
        var k := key(lists[s][i]);
        if pick == -1 || k < pickKey {
          pick := s;
          pickKey := k;
        }
      }
      s := s + 1;
    }
  }

  /** The head of list `pick` comes no later than the head of list `s`. */
  predicate HeadFirst<T>(lists: seq<seq<T>>, key: T -> int, ptr: seq<nat>, pick: nat, s: nat)
    requires |ptr| == |lists| && pick < |lists| && s < |lists| && ptr[pick] < |lists[pick]| && ptr[s] < |lists[s]|
  {
    var a, b := key(lists[pick][ptr[pick]]), key(lists[s][ptr[s]]);
    a < b || (a == b && pick <= s)
  }

  /** Which places are out already, and that they come before all that are not. */
  ghost predicate Frontier<T>(lists: seq<seq<T>>, key: T -> int, ptr: seq<nat>, order: seq<Place>)
    requires |ptr| == |lists|
  {
    AllIn(lists, order) && InOrder(lists, key, order) && (forall s :: 0 <= s < |ptr| ==> ptr[s] <= |lists[s]|) &&
    (forall p :: p in order <==> In(lists, p) && p.pos < ptr[p.list]) &&
    forall i, q :: 0 <= i < |order| && In(lists, q) && q.pos >= ptr[q.list] ==> Earlier(lists, key, order[i], q)
  }

  lemma Advanced<T>(lists: seq<seq<T>>, key: T -> int, ptr: seq<nat>, order: seq<Place>, pick: nat)
    requires |ptr| == |lists| && Frontier(lists, key, ptr, order) && pick < |lists| && ptr[pick] < |lists[pick]|
    requires forall s :: 0 <= s < |lists| ==> Presorted(lists[s], key)
    requires forall s :: 0 <= s < |lists| && ptr[s] < |lists[s]| ==> HeadFirst(lists, key, ptr, pick, s)
    ensures Frontier(lists, key, ptr[pick := ptr[pick] + 1], order + [Place(pick, ptr[pick])])
  {
  }

  /** `mergeByKey`: whether or not the lists are sorted, the result is the unique list ordered by key,
      list index and position. */
  method MergeByKey<T>(lists: seq<seq<T>>, key: T -> int) returns (out: seq<T>)
    ensures Merged(lists, key, out)
  {
    var total, presorted, s := 0, true, 0;
    while s < |lists|
      invariant 0 <= s <= |lists| && total == Count(lists, s)
      invariant presorted ==> forall r :: 0 <= r < s ==> Presorted(lists[r], key)
    {
      total := total + |lists[s]|;
      if presorted {
        presorted := IsPresorted(lists[s], key);
      }
      s := s + 1;
    }
    if !presorted {
      var tags := Tagged(lists, 0, 0);
      assert forall i :: 0 <= i < |tags| ==> tags[i] in tags;
      SortedInOrder(lists, key, tags);
      assert Visits(lists, key, Sorted(lists, key, tags));
      return Items(lists, Sorted(lists, key, tags));
    }
    out := MergeSorted(lists, key, total);
  }

  method MergeSorted<T>(lists: seq<seq<T>>, key: T -> int, total: nat) returns (out: seq<T>)
    requires total == Count(lists, |lists|) && forall s :: 0 <= s < |lists| ==> Presorted(lists[s], key)
    ensures Merged(lists, key, out)
  {
    var ptr := new nat[|lists|](_ => 0);
    out := [];
    ghost var order: seq<Place> := [];
    TakenZero(ptr[..], |lists|);
    var o := 0;
    while o < total
      invariant 0 <= o <= total && o == Taken(ptr[..], |lists|)
      invariant Frontier(lists, key, ptr[..], order) && out == Items(lists, order)
    {
      TakenBound(lists, ptr[..], |lists|);
      var pick := PickNext(lists, key, ptr);
      ghost var before := ptr[..];
      Advanced(lists, key, before, order, pick);
      TakenNext(before, pick, |lists|);
      order := order + [Place(pick, ptr[pick])];
      out := out + [lists[pick][ptr[pick]]];
      ptr[pick] := ptr[pick] + 1;
      assert ptr[..] == before[pick := before[pick] + 1];
      o := o + 1;
    }
    TakenBound(lists, ptr[..], |lists|);
    assert Visits(lists, key, order);
  }
}
