/**
 Parked (future-nonce) transactions of the block generator: what an inclusion releases into the
 queue of executable transactions, and why the queue can be walked by index while it grows.
 */
module Parking {
  import opened Common
  import opened Transactions

  /** One client's parked transactions with the highest nonce already accounted for. */
  datatype ParkedTxns = ParkedTxns(nonce: int, txns: seq<Txn>)

  type Parked = map<Key, ParkedTxns>

  datatype Released = Released(past: seq<Txn>, queued: seq<Txn>, kept: seq<Txn>, last: int)

  /** What including nonce `n` does to one client's parked list. */
  function Release(futures: seq<Txn>, n: int): Released {
    if futures == [] || futures[0].nonce - n > 1 then Released([], [], futures, n)
    else if futures[0].nonce - n < 1 then
      var r := Release(futures[1..], n);
      r.(past := [futures[0]] + r.past)
    else
      var r := Release(futures[1..], futures[0].nonce);
      r.(queued := [futures[0]] + r.queued)
  }

  /** A release whose first part has already been carried out. */
  function Resume(past: seq<Txn>, queued: seq<Txn>, rest: Released): Released {
    Released(past + rest.past, queued + rest.queued, rest.kept, rest.last)
  }

  lemma ResumeFromStart(r: Released)
    ensures Resume([], [], r) == r
  {
  }

  lemma ReleaseAdvance(past: seq<Txn>, queued: seq<Txn>, futures: seq<Txn>, i: nat, n: int)
    requires i < |futures| && futures[i].nonce - n <= 1
    ensures var was := Resume(past, queued, Release(futures[i..], n));
            if futures[i].nonce - n < 1
            then was == Resume(past + [futures[i]], queued, Release(futures[i + 1..], n))
            else was == Resume(past, queued + [futures[i]], Release(futures[i + 1..], futures[i].nonce))
  {
    assert futures[i..][1..] == futures[i + 1..];
    assert futures[i..][0] == futures[i];
  }

  lemma ReleaseDone(past: seq<Txn>, queued: seq<Txn>, futures: seq<Txn>, i: nat, n: int)
    requires i <= |futures| && (i < |futures| ==> futures[i].nonce - n > 1)
    ensures Resume(past, queued, Release(futures[i..], n)) == Released(past, queued, futures[i..], n)
  {
    assert i < |futures| ==> futures[i..][0] == futures[i];
  }

  /** Nothing is lost and nothing is duplicated. */
  lemma {:induction false} ReleaseConserves(futures: seq<Txn>, n: int)
    ensures var r := Release(futures, n);
            multiset(r.past) + multiset(r.queued) + multiset(r.kept) == multiset(futures)
  {
    if futures == [] || futures[0].nonce - n > 1 {
    } else {
      var m := if futures[0].nonce - n < 1 then n else futures[0].nonce;
      ReleaseConserves(futures[1..], m);
      assert futures == [futures[0]] + futures[1..];
    }
  }

  /** The released transactions carry exactly the nonces n+1, n+2, ..., without gap or repeat. */
  lemma {:induction false} ReleaseIsARun(futures: seq<Txn>, n: int)
    ensures var r := Release(futures, n);
            r.last == n + |r.queued| &&
            forall k :: 0 <= k < |r.queued| ==> r.queued[k].nonce == n + 1 + k
  {
    if futures == [] || futures[0].nonce - n > 1 {
    } else if futures[0].nonce - n < 1 {
      ReleaseIsARun(futures[1..], n);
    } else {
      ReleaseIsARun(futures[1..], futures[0].nonce);
    }
  }

  /**
   On a sorted list the split is decided by nonce alone: what stays parked is exactly what lies
   beyond the nonce that comes next.
   */
  lemma {:induction false} ReleaseSplitsByNonce(futures: seq<Txn>, n: int, byFee: bool)
    requires Sorted(futures, byFee)
    ensures var r := Release(futures, n);
            && (forall t :: t in r.past ==> t.nonce <= r.last)
            && (forall t :: t in r.kept ==> t.nonce > r.last + 1)
            && |r.kept| <= |futures| && r.kept == futures[|futures| - |r.kept|..]
  {
    if futures == [] {
    } else if futures[0].nonce - n > 1 {
      forall t | t in futures ensures t.nonce > n + 1 {
        SortedHeadFirst(futures, t, byFee);
      }
    } else {
      var m := if futures[0].nonce - n < 1 then n else futures[0].nonce;
      ReleaseSplitsByNonce(futures[1..], m, byFee);
      ReleaseIsARun(futures[1..], m);
    }
  }

  /** Among parked transactions with the same nonce the one with the highest fee is released. */
  lemma {:induction false} ReleasePicksBestFee(futures: seq<Txn>, n: int, q: Txn, t: Txn)
    requires Sorted(futures, true)
    requires q in Release(futures, n).queued && t in futures && t.nonce == q.nonce
    ensures q.fee >= t.fee
  {
    ReleaseIsARun(futures, n);
    if futures[0].nonce - n < 1 {
      ReleaseIsARun(futures[1..], n);
      ReleasePicksBestFee(futures[1..], n, q, t);
    } else if q.nonce == futures[0].nonce {
      ReleaseIsARun(futures[1..], futures[0].nonce);
      assert q == futures[0];
      SortedHeadFirst(futures, t, true);
    } else {
      ReleasePicksBestFee(futures[1..], futures[0].nonce, q, t);
    }
  }

  /** The parked list an inclusion of `t` draws from. */
  function Waiting(parked: Parked, t: Txn): seq<Txn> {
    if t.client in parked then parked[t.client].txns else []
  }

  /** What an inclusion of `t` does to all parked lists and to the queue. */
  predicate ReleaseStep(parked: Parked, current: seq<Txn>, t: Txn, parked': Parked, current': seq<Txn>) {
    var r := Release(Waiting(parked, t), t.nonce);
    if Waiting(parked, t) == [] then parked' == parked && current' == current
    else
      && current' == StableSort(current + r.queued, false)
      && parked' == parked[t.client := ParkedTxns(r.last, r.kept)]
  }

  // ---------------------------------------------------------------- the queue

  /** `v` entries of the queue have been visited; parked transactions are not waiting in it. */
  ghost predicate QueueOk(current: seq<Txn>, parked: Parked, v: nat) {
    && v <= |current|
    && Sorted(current, false)
    && NoDup(current)
    && forall c :: c in parked ==> ParkedApart(parked[c].txns, current[v..])
  }

  ghost predicate ParkedApart(txns: seq<Txn>, waiting: seq<Txn>) {
    NoDup(txns) && forall t :: t in txns ==> t !in waiting
  }

  /**
   A client's list holds its own transactions in (nonce, fee) order, none of them executable while
   the state is at `nonce`, and the list's nonce has kept up with the state.
   */
  ghost predicate ListOk(c: Key, l: ParkedTxns, nonce: int) {
    && Sorted(l.txns, true)
    && (forall t :: t in l.txns ==> t.client == c && t.nonce > nonce + 1)
    && (l.txns != [] ==> l.nonce >= nonce)
  }

  lemma LaterNoncesStayBehind(current: seq<Txn>, queued: seq<Txn>, v: nat, n: int)
    requires Sorted(current, false) && v <= |current|
    requires forall k :: 0 <= k < v ==> current[k].nonce <= n
    requires forall t :: t in queued ==> t.nonce > n
    ensures StaysBehind(current[..v], current[v..] + queued, false)
  {
    var p, w := current[..v], current[v..];
    forall i, j | 0 <= i < |p| && 0 <= j < |w + queued| ensures !Before((w + queued)[j], p[i], false) {
      if j < |w| {
        assert (w + queued)[j] == current[v + j];
      } else {
        assert (w + queued)[j] == queued[j - |w|];
        assert queued[j - |w|] in queued;
      }
    }
  }

  /** Entries already visited keep their place when later nonces are appended and sorted in. */
  lemma VisitedStay(current: seq<Txn>, queued: seq<Txn>, next: seq<Txn>, v: nat, n: int)
    requires Sorted(current, false) && v <= |current|
    requires forall k :: 0 <= k < v ==> current[k].nonce <= n
    requires forall t :: t in queued ==> t.nonce > n
    requires next == StableSort(current + queued, false)
    ensures next[..v] == current[..v]
    ensures multiset(next[v..]) == multiset(current[v..]) + multiset(queued)
  {
    hide StableSort;
    var p, x := current[..v], current[v..] + queued;
    assert current + queued == p + x;
    LaterNoncesStayBehind(current, queued, v, n);
    assert Sorted(p, false);
    SortKeepsPrefix(p, x, false);
    var tail := StableSort(x, false);
    assert next == p + tail;
    assert next[v..] == tail;
  }

  lemma NoDupOfPermutation(a: seq<Txn>, b: seq<Txn>)
    requires NoDup(a) && multiset(a) == multiset(b)
    ensures NoDup(b)
  {
    forall t ensures multiset(b)[t] <= 1 {
      assert multiset(a)[t] <= 1;
    }
  }

  /** The three parts of a duplicate-free list are themselves duplicate-free and apart. */
  lemma ReleaseApart(futures: seq<Txn>, n: int)
    requires NoDup(futures)
    ensures var r := Release(futures, n);
            && NoDup(r.queued) && NoDup(r.kept)
            && (forall t :: t in r.queued ==> t in futures && t !in r.kept)
            && (forall t :: t in r.kept ==> t in futures)
  {
    var r := Release(futures, n);
    ReleaseConserves(futures, n);
    var all := r.past + r.queued + r.kept;
    assert multiset(all) == multiset(futures);
    NoDupOfPermutation(futures, all);
    NoDupPart(r.past + r.queued, r.kept);
    NoDupPart(r.past, r.queued);
    forall t ensures t in all <==> t in futures {
      SameElements(all, futures, t);
    }
  }

  lemma ReleasedNotQueuedYet(current: seq<Txn>, futures: seq<Txn>, queued: seq<Txn>, v: nat, n: int)
    requires v <= |current| && NoDup(current) && NoDup(queued) && ParkedApart(futures, current[v..])
    requires forall k :: 0 <= k < v ==> current[k].nonce <= n
    requires forall t :: t in queued ==> t.nonce > n && t in futures
    ensures NoDup(current + queued)
  {
    forall t | t in current ensures t !in queued {
      assert current == current[..v] + current[v..];
      if t in current[..v] {
        var k :| 0 <= k < v && current[..v][k] == t;
        assert current[k].nonce <= n;
      }
    }
    NoDupConcat(current, queued);
  }

  /**
   Releasing after an inclusion of nonce `n` keeps the queue walkable: visited entries stay where
   they are, no transaction is in the queue twice, and what is parked is not also waiting.
   */
  lemma ReleaseKeepsQueue(current: seq<Txn>, parked: Parked, c: Key, n: int, v: nat, r: Released, next: seq<Txn>)
    requires QueueOk(current, parked, v) && c in parked
    requires forall k :: 0 <= k < v ==> current[k].nonce <= n
    requires forall d, t :: d in parked && t in parked[d].txns ==> t.client == d
    requires r == Release(parked[c].txns, n)
    requires next == StableSort(current + r.queued, false)
    ensures QueueOk(next, parked[c := ParkedTxns(r.last, r.kept)], v)
    ensures next[..v] == current[..v]
  {
    var futures := parked[c].txns;
    ReleaseIsARun(futures, n);
    assert ParkedApart(futures, current[v..]);
    ReleaseApart(futures, n);
    ReleasedNotQueuedYet(current, futures, r.queued, v, n);
    NoDupOfPermutation(current + r.queued, next);
    StableSortSorted(current + r.queued, false);
    VisitedStay(current, r.queued, next, v, n);
    forall d | d in parked
      ensures d != c ==> ParkedApart(parked[d].txns, next[v..])
      ensures d == c ==> ParkedApart(r.kept, next[v..])
    {
      assert ParkedApart(parked[d].txns, current[v..]);
      var txns := if d == c then r.kept else parked[d].txns;
      forall t | t in txns ensures t !in next[v..] {
        assert t in parked[d].txns;
        assert t !in r.queued;
        SameElements(next[v..], current[v..] + r.queued, t);
      }
    }
  }
}
