/** The order in which the planner serves orders: Python's stable `sorted`
    with the key (-priority, deadline_hour). */
module OrderSort {
  import opened Records

  /** The sort key: higher priority first, then the earlier deadline. */
  function SortKey(o: Order): (int, int) {
    (-o.priority, o.deadlineHour)
  }

  /** Python's `<` on the key tuples: lexicographic. */
  predicate KeyLess(k1: (int, int), k2: (int, int)) {
    k1.0 < k2.0 || (k1.0 == k2.0 && k1.1 < k2.1)
  }

  /** `a` is served strictly before `b` by the sort key. */
  predicate ServedBefore(a: Order, b: Order) {
    KeyLess(SortKey(a), SortKey(b))
  }

  predicate Sorted(s: seq<Order>) {
    forall i, j :: 0 <= i < j < |s| ==> !ServedBefore(s[j], s[i])
  }

  /** The orders of `s` whose key is `k`, in the order they appear in `s`. */
  function WithKey(s: seq<Order>, k: (int, int)): (r: seq<Order>)
    ensures |r| <= |s|
  {
    if s == [] then []
    else (if SortKey(s[0]) == k then [s[0]] else []) + WithKey(s[1..], k)
  }

  lemma WithKeyCons(x: Order, s: seq<Order>, k: (int, int))
    ensures WithKey([x] + s, k) == (if SortKey(x) == k then [x] else []) + WithKey(s, k)
  {
    assert ([x] + s)[1..] == s;
  }

  lemma ConsSorted(y: Order, t: seq<Order>)
    requires Sorted(t)
    requires forall z :: z in t ==> !ServedBefore(z, y)
    ensures Sorted([y] + t)
  {
    var r := [y] + t;
    forall i, j | 0 <= i < j < |r| ensures !ServedBefore(r[j], r[i]) {
      assert r[j] == t[j - 1];
      if i > 0 {
        assert r[i] == t[i - 1];
      }
    }
  }

  lemma SortedHeadFirst(s: seq<Order>, z: Order)
    requires Sorted(s) && |s| > 0 && z in s[1..]
    ensures !ServedBefore(z, s[0])
  {
    var m :| 0 <= m < |s[1..]| && s[1..][m] == z;
    assert s[m + 1] == z;
  }

  /** Places `x` in front of the first element whose key is not smaller than its own,
      so that it precedes every order with an equal key. */
  function Insert(x: Order, s: seq<Order>): (r: seq<Order>)
    requires Sorted(s)
    ensures Sorted(r)
    ensures multiset(r) == multiset(s) + multiset{x}
  {
    if s == [] then [x]
    else if ServedBefore(s[0], x) then
      var tail := Insert(x, s[1..]);
      assert s == [s[0]] + s[1..];
      assert forall z :: z in tail ==> !ServedBefore(z, s[0]) by {
        forall z | z in tail ensures !ServedBefore(z, s[0]) {
          assert z in multiset(tail);
          if z != x {
            SortedHeadFirst(s, z);
          }
        }
      }
      ConsSorted(s[0], tail);
      [s[0]] + tail
    else
      ConsSorted(x, s);
      [x] + s
  }

  /** Inserting `x` adds it in front of the orders that share its key and
      leaves every other key's orders as they were. */
  lemma {:induction false} InsertKeepsKeyOrder(x: Order, s: seq<Order>, k: (int, int))
    requires Sorted(s)
    ensures WithKey(Insert(x, s), k) == (if SortKey(x) == k then [x] else []) + WithKey(s, k)
  {
    if s == [] {
      WithKeyCons(x, [], k);
      assert [x] + [] == [x];
    } else if ServedBefore(s[0], x) {
      InsertKeepsKeyOrder(x, s[1..], k);
      WithKeyCons(s[0], Insert(x, s[1..]), k);
      WithKeyCons(s[0], s[1..], k);
      assert s == [s[0]] + s[1..];
    } else {
      WithKeyCons(x, s, k);
    }
  }

  /** Python's `sorted(orders, key=lambda o: (-o.priority, o.deadline_hour))`:
      sorted by the key, a permutation of the input, and stable, that is,
      orders with equal keys keep their input order. */
  function SortOrders(orders: seq<Order>): (r: seq<Order>)
    ensures Sorted(r)
    ensures multiset(r) == multiset(orders)
    ensures forall k :: WithKey(r, k) == WithKey(orders, k)
  {
    if orders == [] then []
    else
      var rest := SortOrders(orders[1..]);
      assert orders == [orders[0]] + orders[1..];
      assert forall k :: WithKey(Insert(orders[0], rest), k) == WithKey(orders, k) by {
        forall k ensures WithKey(Insert(orders[0], rest), k) == WithKey(orders, k) {
          InsertKeepsKeyOrder(orders[0], rest, k);
          WithKeyCons(orders[0], orders[1..], k);
        }
      }
      Insert(orders[0], rest)
  }
}
