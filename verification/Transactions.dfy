/** Transactions as the block generator sees them, and the two stable orders it sorts them by. */
module Transactions {
  import Sorting

  type Key = string

  /** `payload` is what the cost estimate looks at; it does not depend on nonce or signature. */
  datatype Txn = Txn(key: Key, client: Key, nonce: int, fee: nat, value: nat,
                     created: int, dataSize: nat, payload: string)

  // ---------------------------------------------------------------- stable orders

  /** Strict order of the sorts: by nonce, and with `byFee` the higher fee first among equal nonces. */
  predicate Before(a: Txn, b: Txn, byFee: bool) {
    a.nonce < b.nonce || (byFee && a.nonce == b.nonce && a.fee > b.fee)
  }

  function Order(byFee: bool): Sorting.Order<Txn> {
    (a: Txn, b: Txn) => Before(a, b, byFee)
  }

  lemma OrderIsWeak(byFee: bool)
    ensures Sorting.WeakOrder(Order(byFee))
  {
  }

  predicate Sorted(s: seq<Txn>, byFee: bool) {
    forall i, j :: 0 <= i < j < |s| ==> !Before(s[j], s[i], byFee)
  }

  /** The result of a stable sort. */
  function StableSort(s: seq<Txn>, byFee: bool): (r: seq<Txn>)
    ensures multiset(r) == multiset(s)
    ensures |r| == |s|
  {
    Sorting.Sort(s, Order(byFee))
  }

  lemma SameElements(a: seq<Txn>, b: seq<Txn>, t: Txn)
    requires multiset(a) == multiset(b)
    ensures t in a <==> t in b
  {
    Sorting.SameElements(a, b, t);
  }

  lemma StableSortSorted(s: seq<Txn>, byFee: bool)
    ensures Sorted(StableSort(s, byFee), byFee)
  {
    hide Sorting.Sort, Sorting.WeakOrder;
    OrderIsWeak(byFee);
    Sorting.SortSorted(s, Order(byFee));
  }

  lemma SortedHeadFirst(s: seq<Txn>, x: Txn, byFee: bool)
    requires Sorted(s, byFee) && x in s
    ensures !Before(x, s[0], byFee)
  {
    var k :| 0 <= k < |s| && s[k] == x;
  }

  /** The elements the order does not tell apart from `t`, in their original order. */
  function Peers(s: seq<Txn>, t: Txn, byFee: bool): seq<Txn> {
    Sorting.Peers(s, t, Order(byFee))
  }

  /** Stability: equivalent elements keep their order. */
  lemma StableSortKeepsPeers(s: seq<Txn>, p: Txn, byFee: bool)
    ensures Peers(StableSort(s, byFee), p, byFee) == Peers(s, p, byFee)
  {
    OrderIsWeak(byFee);
    Sorting.SortKeepsPeers(s, p, Order(byFee));
  }

  /** Any sorted arrangement that keeps equivalent elements in order is the stable sort. */
  lemma StableSortIsTheStableOrder(s: seq<Txn>, r: seq<Txn>, byFee: bool)
    requires Sorted(r, byFee)
    requires forall p :: Peers(r, p, byFee) == Peers(s, p, byFee)
    ensures r == StableSort(s, byFee)
  {
    hide Sorting.Sort, Sorting.WeakOrder, Sorting.Peers;
    OrderIsWeak(byFee);
    var before := Order(byFee);
    forall p ensures Sorting.Peers(r, p, before) == Sorting.Peers(s, p, before) {
      assert Peers(r, p, byFee) == Peers(s, p, byFee);
    }
    Sorting.SortIsTheStableOrder(s, r, before);
  }

  /** No element of `x` has to move in front of an element of `p`. */
  predicate StaysBehind(p: seq<Txn>, x: seq<Txn>, byFee: bool) {
    forall i, j :: 0 <= i < |p| && 0 <= j < |x| ==> !Before(x[j], p[i], byFee)
  }

  /** A sorted prefix that nothing behind it precedes is left in place by the sort. */
  lemma SortKeepsPrefix(p: seq<Txn>, x: seq<Txn>, byFee: bool)
    requires Sorted(p, byFee) && StaysBehind(p, x, byFee)
    ensures StableSort(p + x, byFee) == p + StableSort(x, byFee)
  {
    hide Sorting.Sort;
    Sorting.SortKeepsPrefix(p, x, Order(byFee));
  }
}
