/**
 Stable sorting by any strict order: the sorted list, what a stable sort may and may not move, and why it is
 unique.
 */
module Sorting {
  /** `before(a, b)` says that `a` has to come before `b`. */
  type Order<!T> = (T, T) -> bool

  /** Elements that are not ordered are alike. */
  ghost predicate WeakOrder<T(!new)>(before: Order<T>) {
    && (forall a, b :: before(a, b) ==> !before(b, a))
    && (forall a, b, c :: !before(b, a) && !before(c, b) ==> !before(c, a))
  }

  ghost predicate Sorted<T(!new)>(s: seq<T>, before: Order<T>) {
    forall i, j :: 0 <= i < j < |s| ==> !before(s[j], s[i])
  }

  /** Puts `t` behind every element it does not precede. */
  function Insert<T>(s: seq<T>, t: T, before: Order<T>): (r: seq<T>)
    ensures multiset(r) == multiset(s) + multiset{t}
    ensures |r| == |s| + 1
  {
    if s == [] || !before(t, s[|s| - 1]) then s + [t]
    else
      assert s == s[..|s| - 1] + [s[|s| - 1]];
      Insert(s[..|s| - 1], t, before) + [s[|s| - 1]]
  }

  /** The result of a stable sort. */
  function Sort<T>(s: seq<T>, before: Order<T>): (r: seq<T>)
    ensures multiset(r) == multiset(s)
    ensures |r| == |s|
  {
    if s == [] then []
    else
      assert s == s[..|s| - 1] + [s[|s| - 1]];
      Insert(Sort(s[..|s| - 1], before), s[|s| - 1], before)
  }

  lemma SameElements<T(!new)>(a: seq<T>, b: seq<T>, t: T)
    requires multiset(a) == multiset(b)
    ensures t in a <==> t in b
  {
    assert t in a <==> t in multiset(a);
    assert t in b <==> t in multiset(b);
  }

  lemma {:induction false} InsertSorted<T(!new)>(s: seq<T>, t: T, before: Order<T>)
    requires WeakOrder(before)
    requires Sorted(s, before)
    ensures Sorted(Insert(s, t, before), before)
  {
    if s == [] {
    } else if !before(t, s[|s| - 1]) {
      forall i | 0 <= i < |s| ensures !before(t, s[i]) {
        assert i < |s| - 1 ==> !before(s[|s| - 1], s[i]);
      }
    } else {
      var front, last := s[..|s| - 1], s[|s| - 1];
      InsertSorted(front, t, before);
      var r := Insert(front, t, before);
      forall i | 0 <= i < |r| ensures !before(last, r[i]) {
        SameElements(r, front + [t], r[i]);
        if r[i] in front {
          var k :| 0 <= k < |front| && front[k] == r[i];
          assert s[k] == r[i];
        }
      }
    }
  }

  lemma {:induction false} SortSorted<T(!new)>(s: seq<T>, before: Order<T>)
    requires WeakOrder(before)
    ensures Sorted(Sort(s, before), before)
  {
    if s != [] {
      SortSorted(s[..|s| - 1], before);
      InsertSorted(Sort(s[..|s| - 1], before), s[|s| - 1], before);
    }
  }

  /** The elements the order does not tell apart from `t`, in their original order. */
  function Peers<T>(s: seq<T>, t: T, before: Order<T>): seq<T> {
    if s == [] then []
    else Peers(s[..|s| - 1], t, before) +
         if before(t, s[|s| - 1]) || before(s[|s| - 1], t) then [] else [s[|s| - 1]]
  }

  lemma {:induction false} PeersConcat<T(!new)>(a: seq<T>, b: seq<T>, t: T, before: Order<T>)
    ensures Peers(a + b, t, before) == Peers(a, t, before) + Peers(b, t, before)
  {
    if b == [] {
      assert a + b == a;
    } else {
      var n := |b| - 1;
      assert (a + b)[..|a + b| - 1] == a + b[..n];
      PeersConcat(a, b[..n], t, before);
    }
  }

  lemma PeersOfOrdered<T(!new)>(a: T, b: T, p: T, before: Order<T>)
    requires WeakOrder(before)
    requires before(a, b)
    ensures Peers([a], p, before) == [] || Peers([b], p, before) == []
  {
  }

  lemma PeersSwap<T(!new)>(s: seq<T>, a: T, b: T, p: T, before: Order<T>)
    requires WeakOrder(before)
    requires before(a, b)
    ensures Peers(s + [a] + [b], p, before) == Peers(s + [b] + [a], p, before)
  {
    hide Peers;
    PeersOfOrdered(a, b, p, before);
    PeersConcat(s + [a], [b], p, before);
    PeersConcat(s, [a], p, before);
    PeersConcat(s + [b], [a], p, before);
    PeersConcat(s, [b], p, before);
  }

  lemma {:induction false} InsertPeers<T(!new)>(s: seq<T>, t: T, p: T, before: Order<T>)
    requires WeakOrder(before)
    ensures Peers(Insert(s, t, before), p, before) == Peers(s + [t], p, before)
  {
    if s != [] && before(t, s[|s| - 1]) {
      var front, last := s[..|s| - 1], s[|s| - 1];
      assert s == front + [last];
      assert Insert(s, t, before) == Insert(front, t, before) + [last];
      InsertPeers(front, t, p, before);
      PeersConcat(Insert(front, t, before), [last], p, before);
      PeersConcat(front + [t], [last], p, before);
      PeersSwap(front, t, last, p, before);
    }
  }

  /** Stability: equivalent elements keep their order. */
  lemma {:induction false} SortKeepsPeers<T(!new)>(s: seq<T>, p: T, before: Order<T>)
    requires WeakOrder(before)
    ensures Peers(Sort(s, before), p, before) == Peers(s, p, before)
  {
    if s != [] {
      var front, last := s[..|s| - 1], s[|s| - 1];
      assert s == front + [last];
      SortKeepsPeers(front, p, before);
      var q := Sort(front, before);
      assert Sort(s, before) == Insert(q, last, before);
      InsertPeers(q, last, p, before);
      PeersConcat(q, [last], p, before);
      PeersConcat(front, [last], p, before);
    }
  }

  /** A first element that is not ordered with `t` opens its group. */
  lemma {:induction false} PeersFirst<T(!new)>(s: seq<T>, t: T, before: Order<T>)
    requires s != [] && !before(s[0], t) && !before(t, s[0])
    ensures Peers(s, t, before) != [] && Peers(s, t, before)[0] == s[0]
  {
    assert s == [s[0]] + s[1..];
    PeersConcat([s[0]], s[1..], t, before);
    assert [s[0]][..0] == [];
    assert Peers([s[0]], t, before) == [s[0]];
  }

  lemma {:induction false} PeersHead<T(!new)>(s: seq<T>, before: Order<T>)
    requires WeakOrder(before) && s != []
    ensures Peers(s, s[0], before) != [] && Peers(s, s[0], before)[0] == s[0]
  {
    PeersFirst(s, s[0], before);
  }

  lemma {:induction false} PeersMember<T(!new)>(s: seq<T>, t: T, before: Order<T>, x: T)
    requires WeakOrder(before)
    requires x in Peers(s, t, before)
    ensures x in s && !before(x, t) && !before(t, x)
  {
    if s != [] {
      if x in Peers(s[..|s| - 1], t, before) {
        PeersMember(s[..|s| - 1], t, before, x);
      }
    }
  }

  lemma SortedHeadFirst<T(!new)>(s: seq<T>, x: T, before: Order<T>)
    requires WeakOrder(before)
    requires Sorted(s, before) && x in s
    ensures !before(x, s[0])
  {
    var k :| 0 <= k < |s| && s[k] == x;
  }

  lemma HeadsAgree<T(!new)>(a: seq<T>, b: seq<T>, before: Order<T>)
    requires WeakOrder(before) && a != [] && b != [] && Sorted(a, before) && Sorted(b, before)
    requires forall p :: Peers(a, p, before) == Peers(b, p, before)
    ensures a[0] == b[0]
  {
    hide Peers, WeakOrder, Sorted;
    PeersHead(a, before);
    PeersHead(b, before);
    PeersMember(b, a[0], before, a[0]);
    PeersMember(a, b[0], before, b[0]);
    SortedHeadFirst(b, a[0], before);
    SortedHeadFirst(a, b[0], before);
    // Neither head precedes the other, so b[0] opens the group of a[0] in b.
    PeersFirst(b, a[0], before);
  }

  /** Order and stability leave exactly one possible result, whatever the sorting algorithm. */
  lemma {:induction false} StableOrderUnique<T(!new)>(a: seq<T>, b: seq<T>, before: Order<T>)
    requires WeakOrder(before)
    requires Sorted(a, before) && Sorted(b, before)
    requires forall p :: Peers(a, p, before) == Peers(b, p, before)
    ensures a == b
  {
    if a == [] && b == [] {
    } else if a == [] {
      PeersHead(b, before);
    } else if b == [] {
      PeersHead(a, before);
    } else {
      HeadsAgree(a, b, before);
      assert a == [a[0]] + a[1..] && b == [a[0]] + b[1..];
      forall p ensures Peers(a[1..], p, before) == Peers(b[1..], p, before) {
        PeersConcat([a[0]], a[1..], p, before);
        PeersConcat([a[0]], b[1..], p, before);
        var h := Peers([a[0]], p, before);
        assert (h + Peers(a[1..], p, before))[|h|..] == (h + Peers(b[1..], p, before))[|h|..];
      }
      StableOrderUnique(a[1..], b[1..], before);
    }
  }

  /** Any sorted arrangement that keeps equivalent elements in order is the stable sort. */
  lemma SortIsTheStableOrder<T(!new)>(s: seq<T>, r: seq<T>, before: Order<T>)
    requires WeakOrder(before)
    requires Sorted(r, before)
    requires forall p :: Peers(r, p, before) == Peers(s, p, before)
    ensures r == Sort(s, before)
  {
    SortSorted(s, before);
    forall p ensures Peers(Sort(s, before), p, before) == Peers(r, p, before) {
      SortKeepsPeers(s, p, before);
    }
    StableOrderUnique(r, Sort(s, before), before);
  }

  /** No element of `x` has to move in front of an element of `p`. */
  ghost predicate StaysBehind<T(!new)>(p: seq<T>, x: seq<T>, before: Order<T>) {
    forall i, j :: 0 <= i < |p| && 0 <= j < |x| ==> !before(x[j], p[i])
  }

  lemma {:induction false} InsertBehindPrefix<T(!new)>(p: seq<T>, y: seq<T>, t: T, before: Order<T>)
    requires StaysBehind(p, [t], before)
    ensures Insert(p + y, t, before) == p + Insert(y, t, before)
  {
    if y == [] {
      assert p + y == p;
    } else {
      assert (p + y)[..|p + y| - 1] == p + y[..|y| - 1];
      InsertBehindPrefix(p, y[..|y| - 1], t, before);
    }
  }

  lemma {:induction false} SortOfSorted<T(!new)>(p: seq<T>, before: Order<T>)
    requires Sorted(p, before)
    ensures Sort(p, before) == p
  {
    if p != [] {
      var n := |p| - 1;
      SortOfSorted(p[..n], before);
      assert n > 0 ==> !before(p[n], p[n - 1]);
    }
  }

  /** A sorted prefix that nothing behind it precedes is left in place by the sort. */
  lemma {:induction false} SortKeepsPrefix<T(!new)>(p: seq<T>, x: seq<T>, before: Order<T>)
    requires Sorted(p, before) && StaysBehind(p, x, before)
    ensures Sort(p + x, before) == p + Sort(x, before)
  {
    if x == [] {
      assert p + x == p;
      SortOfSorted(p, before);
    } else {
      var n := |x| - 1;
      assert (p + x)[..|p + x| - 1] == p + x[..n];
      SortKeepsPrefix(p, x[..n], before);
      InsertBehindPrefix(p, Sort(x[..n], before), x[n], before);
    }
  }
}
