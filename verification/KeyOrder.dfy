/** The byte order on strings, and sorting by it: the order in which a map's entries are written. */
module KeyOrder {
  import opened MsgPack
  import Sorting

  predicate AtMost(a: Bytes, b: Bytes) {
    a == [] || (b != [] && (a[0] < b[0] || (a[0] == b[0] && AtMost(a[1..], b[1..]))))
  }

  lemma {:induction false} Total(a: Bytes, b: Bytes)
    ensures AtMost(a, b) || AtMost(b, a)
  {
    if a != [] && b != [] { Total(a[1..], b[1..]); }
  }

  lemma {:induction false} Antisymmetric(a: Bytes, b: Bytes)
    requires AtMost(a, b) && AtMost(b, a)
    ensures a == b
  {
    if a != [] {
      Antisymmetric(a[1..], b[1..]);
      assert a == [a[0]] + a[1..] && b == [b[0]] + b[1..];
    }
  }

  lemma {:induction false} Transitive(a: Bytes, b: Bytes, c: Bytes)
    requires AtMost(a, b) && AtMost(b, c)
    ensures AtMost(a, c)
  {
    if a != [] && a[0] == b[0] == c[0] { Transitive(a[1..], b[1..], c[1..]); }
  }

  function Order(): Sorting.Order<Bytes> {
    (a: Bytes, b: Bytes) => !AtMost(b, a)
  }

  lemma OrderIsWeak()
    ensures Sorting.WeakOrder(Order())
  {
    hide AtMost;
    forall a: Bytes, b: Bytes ensures AtMost(a, b) || AtMost(b, a) { Total(a, b); }
    forall a: Bytes, b: Bytes, c: Bytes | AtMost(a, b) && AtMost(b, c) ensures AtMost(a, c) { Transitive(a, b, c); }
  }

  ghost predicate Sorted(s: seq<Bytes>) {
    forall i, j :: 0 <= i < j < |s| ==> AtMost(s[i], s[j])
  }

  function SortKeys(s: seq<Bytes>): (r: seq<Bytes>)
    ensures multiset(r) == multiset(s)
  {
    Sorting.Sort(s, Order())
  }

  lemma SortKeysSorted(s: seq<Bytes>)
    ensures Sorted(SortKeys(s))
  {
    hide AtMost, Sorting.Sort, Sorting.WeakOrder;
    OrderIsWeak();
    Sorting.SortSorted(s, Order());
  }

  /** Only equal keys are not ordered. */
  lemma {:induction false} PeersAreCopies(s: seq<Bytes>, p: Bytes)
    ensures Sorting.Peers(s, p, Order()) == seq(multiset(s)[p], _ => p)
  {
    hide AtMost;
    if s != [] {
      var front, last := s[..|s| - 1], s[|s| - 1];
      assert s == front + [last];
      assert multiset(s) == multiset(front) + multiset{last};
      PeersAreCopies(front, p);
      if last == p { Total(p, p); } else if AtMost(p, last) && AtMost(last, p) { Antisymmetric(p, last); }
    }
  }

  /** A collection of keys has only one sorted order. */
  lemma SortedUnique(s: seq<Bytes>, t: seq<Bytes>)
    requires Sorted(s) && Sorted(t) && multiset(s) == multiset(t)
    ensures s == t
  {
    hide AtMost, Sorting.WeakOrder, Sorting.Peers;
    OrderIsWeak();
    forall p ensures Sorting.Peers(s, p, Order()) == Sorting.Peers(t, p, Order()) {
      PeersAreCopies(s, p);
      PeersAreCopies(t, p);
    }
    Sorting.StableOrderUnique(s, t, Order());
  }
}
