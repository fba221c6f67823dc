/**
 Why block generation leaves nothing executable behind: every delivered transaction that is within time is
 past, parked beyond the next nonce, or has one of its client and nonce still waiting in the queue.
 */
module AssemblyProgress {
  import opened Common
  import opened Transactions
  import opened Parking
  import opened ClientNonces
  import opened AssemblyBooks

  predicate SamePlace(u: Txn, t: Txn) {
    u.client == t.client && u.nonce == t.nonce
  }

  /** `u` waits in place of `t`. */
  predicate Holds(g: Gen, v: nat, u: Txn, t: Txn)
    requires v <= |g.current|
  {
    SamePlace(u, t) && (u in Waiting(g.parked, t) || u in g.current[v..])
  }

  ghost predicate Covered(g: Gen, v: nat, t: Txn)
    requires v <= |g.current|
  {
    t.nonce <= NonceOf(g.nonces, t.client) || exists u :: Holds(g, v, u, t)
  }

  predicate InTime(cfg: Config, created: int, t: Txn) {
    WithinTime(created, t.created, cfg.timeTolerance)
  }

  ghost predicate Served(cfg: Config, created: int, g: Gen, v: nat, seen: set<Txn>)
    requires v <= |g.current|
  {
    forall t :: t in seen && InTime(cfg, created, t) ==> Covered(g, v, t)
  }

  // ---------------------------------------------------------------- no faults, no limits

  predicate Calm(env: Surroundings, out: nat) {
    && env.ctxError.None? && !env.roundAhead && !env.roundTimedOut
    && env.costFault.None? && env.feeAccepted && env.lookupFault.None? && env.updateFault.None?
    && env.outputSize <= out
  }

  lemma CalmHasCost(env: Surroundings, out: nat)
    ensures Calm(env, out) ==> env.costFault.None?
  {
  }

  /** The size of a list of transactions if none has more than `out` bytes of output. */
  function SumSize(out: nat, txns: seq<Txn>): nat {
    if txns == [] then 0 else SumSize(out, txns[..|txns| - 1]) + txns[|txns| - 1].dataSize + out
  }

  lemma SumSizeAppend(out: nat, txns: seq<Txn>, t: Txn)
    ensures SumSize(out, txns + [t]) == SumSize(out, txns) + t.dataSize + out
  {
    assert (txns + [t])[..|txns + [t]| - 1] == txns;
  }

  ghost predicate DistinctKeysIn(all: set<Txn>) {
    forall t, u :: t in all && u in all && t.key == u.key ==> t == u
  }

  /** Whatever is chosen from `all`, next to the cost `base` of the built-in transactions, fits into a block. */
  ghost predicate Roomy(cfg: Config, base: nat, out: nat, all: set<Txn>) {
    forall l: seq<Txn> :: NoDup(l) && AllIn(l, all) ==> Room(cfg, base, out, l)
  }

  predicate Room(cfg: Config, base: nat, out: nat, l: seq<Txn>) {
    base + SumCost(cfg.costOf, l) < cfg.maxCost && SumSize(out, l) < cfg.maxByteSize
  }

  /** Transactions with keys of their own, permitted amounts and room for all of them. */
  ghost predicate Favourable(cfg: Config, base: nat, out: nat, all: set<Txn>) {
    DistinctKeysIn(all) && Roomy(cfg, base, out, all) && forall t :: t in all ==> t.value <= cfg.maxSupply
  }

  lemma PermittedAmount(cfg: Config, base: nat, out: nat, all: set<Txn>, t: Txn)
    requires Favourable(cfg, base, out, all) && t in all
    ensures t.value <= cfg.maxSupply
  {
  }

  /** Where generation stands while nothing disturbs it. */
  ghost predicate Progress(cfg: Config, created: int, g: Gen, v: nat, seen: set<Txn>, out: nat, bytes: nat)
    requires v <= |g.current|
  {
    && Served(cfg, created, g, v, seen)
    && AllIn(g.txns, seen) && Pending(g.parked, g.current[v..]) <= seen
    && (forall t :: t in Pending(g.parked, g.current[v..]) ==> InTime(cfg, created, t) && t !in g.txns)
    && bytes <= SumSize(out, g.txns) && Steady(g, v)
  }

  /** The nonce is reached already, or by a transaction that waits in the queue. */
  ghost predicate Reached(g: Gen, v: nat, c: Key, n: int)
    requires v <= |g.current|
  {
    n <= NonceOf(g.nonces, c) || exists u :: Fills(g, v, u, c, n)
  }

  predicate Fills(g: Gen, v: nat, u: Txn, c: Key, n: int)
    requires v <= |g.current|
  {
    u in g.current[v..] && u.client == c && u.nonce == n
  }

  ghost predicate NoneNegative(nonces: Nonces) {
    forall c :: NonceOf(nonces, c) >= 0
  }

  /** A list counts from a nonce that is or will be reached, and the queue has no gap. */
  ghost predicate Steady(g: Gen, v: nat)
    requires v <= |g.current|
  {
    && NoneNegative(g.nonces)
    && (forall c :: c in g.parked ==> Reached(g, v, c, g.parked[c].nonce))
    && (forall u :: u in g.current[v..] ==> Reached(g, v, u.client, u.nonce - 1))
  }

  lemma ProgressStart(cfg: Config, created: int, start: Nonces, pool: seq<Option<Txn>>, out: nat)
    requires NoneNegative(start)
    ensures Progress(cfg, created, Gen([], start, [], 0, {}, map[], []), 0, Seen(pool, 0), out, 0)
  {
  }

  // ---------------------------------------------------------------- an inclusion and a parking

  /** A transaction that an inclusion passes over has one of its nonce among the released ones. */
  lemma ReleaseCovers(futures: seq<Txn>, n: int, x: Txn)
    requires Sorted(futures, true) && x in futures
    ensures var r := Release(futures, n);
      x.nonce <= n || x in r.kept || exists u :: u in r.queued && u.nonce == x.nonce
  {
    var r := Release(futures, n);
    ReleaseConserves(futures, n);
    ReleaseIsARun(futures, n);
    ReleaseSplitsByNonce(futures, n, true);
    SameElements(r.past + r.queued + r.kept, futures, x);
    if x in r.past && x.nonce > n {
      var u := r.queued[x.nonce - n - 1];
      assert u in r.queued && u.nonce == x.nonce;
    }
  }

  lemma NothingReleased(n: int)
    ensures Release([], n).queued == []
  {
  }

  lemma QueuedStays(g: Gen, v: nat, txn: Txn, g': Gen, u: Txn)
    requires QueueOk(g.current, g.parked, v) && ReleaseStep(g.parked, g.current, txn, g'.parked, g'.current)
    requires forall k :: 0 <= k < v ==> g.current[k].nonce <= txn.nonce
    requires v <= |g'.current|
    requires u in g.current[v..] || u in Release(Waiting(g.parked, txn), txn.nonce).queued
    ensures u in g'.current[v..]
  {
    hide StableSort, Release;
    var r := Release(Waiting(g.parked, txn), txn.nonce);
    ReleaseIsARun(Waiting(g.parked, txn), txn.nonce);
    if Waiting(g.parked, txn) == [] {
      NothingReleased(txn.nonce);
    } else {
      VisitedStay(g.current, r.queued, g'.current, v, txn.nonce);
      SameElements(g'.current[v..], g.current[v..] + r.queued, u);
    }
  }

  lemma CoveredAfterInclusion(start: Nonces, g: Gen, v: nat, txn: Txn, g': Gen, t: Txn)
    requires Ready(start, g, v) && v <= |g'.current|
    requires forall k :: 0 <= k < v ==> g.current[k].nonce <= txn.nonce
    requires txn.nonce == NonceOf(g.nonces, txn.client) + 1 && Moved(g.nonces, g'.nonces, txn.client, txn.nonce)
    requires ReleaseStep(g.parked, g.current, txn, g'.parked, g'.current)
    requires Covered(g, v, t) || SamePlace(txn, t)
    ensures Covered(g', v, t)
  {
    hide StableSort, Release, Accounted, Consecutive;
    if !SamePlace(txn, t) && t.nonce > NonceOf(g.nonces, t.client) {
      var u :| Holds(g, v, u, t);
      if u in g.current[v..] {
        QueuedStays(g, v, txn, g', u);
        assert Holds(g', v, u, t);
      } else if t.client != txn.client {
        assert Holds(g', v, u, t);
      } else {
        assert ListOk(t.client, g.parked[t.client], NonceOf(g.nonces, t.client));
        var futures := Waiting(g.parked, txn);
        var r := Release(futures, txn.nonce);
        ReleaseCovers(futures, txn.nonce, u);
        if u in r.kept {
          assert Holds(g', v, u, t);
        } else if u.nonce > txn.nonce {
          var q :| q in r.queued && q.nonce == u.nonce;
          QueuedStays(g, v, txn, g', q);
          ReleasedIsWaiting(futures, txn.nonce, q);
          assert Holds(g', v, q, t);
        }
      }
    }
  }

  lemma ReleasedIsWaiting(futures: seq<Txn>, n: int, q: Txn)
    requires q in Release(futures, n).queued
    ensures q in futures
  {
    hide Release;
    var r := Release(futures, n);
    ReleaseConserves(futures, n);
    SameElements(r.past + r.queued + r.kept, futures, q);
  }

  lemma CoveredAfterParking(g: Gen, v: nat, txn: Txn, nonce: int, g': Gen, t: Txn)
    requires v <= |g.current| && g'.current == g.current && g'.nonces == g.nonces
    requires g'.parked == g.parked[txn.client := ParkedWith(g.parked, txn, nonce)]
    requires Covered(g, v, t) || SamePlace(txn, t)
    ensures Covered(g', v, t)
  {
    hide StableSort;
    var list := ParkedWith(g.parked, txn, nonce).txns;
    forall x ensures x in list <==> x in Waiting(g.parked, txn) + [txn] {
      SameElements(list, Waiting(g.parked, txn) + [txn], x);
    }
    if SamePlace(txn, t) {
      assert txn in Waiting(g.parked, txn) + [txn];
      assert Holds(g', v, txn, t);
    } else if t.nonce > NonceOf(g.nonces, t.client) {
      var u :| Holds(g, v, u, t);
      assert Holds(g', v, u, t);
    }
  }

  lemma CoveredAfter(cfg: Config, created: int, start: Nonces, g: Gen, a: Aside, v: nat, txn: Txn, env: Surroundings,
                     g': Gen, a': Aside, t: Txn)
    requires Ready(start, g, v) && v <= |g'.current| && Handled(cfg, created, g, a, txn, env, g', a')
    requires forall k :: 0 <= k < v ==> g.current[k].nonce <= txn.nonce
    requires env.lookupFault.None? && env.updateFault.None? && txn.key !in g.keys
    requires Covered(g, v, t) || (SamePlace(txn, t) && InTime(cfg, created, txn))
    ensures Covered(g', v, t)
  {
    hide Ready, ReleaseStep, ParkedWith, Release;
    if Includable(cfg, created, g, txn, env) {
      CoveredAfterInclusion(start, g, v, txn, g', t);
    } else if InTime(cfg, created, txn) && txn.nonce > NonceOf(g.nonces, txn.client) + 1 {
      CoveredAfterParking(g, v, txn, NonceOf(g.nonces, txn.client), g', t);
    } else if Covered(g, v, t) && t.nonce > NonceOf(g.nonces, t.client) {
      var u :| Holds(g, v, u, t);
      assert Holds(g', v, u, t);
    }
  }

  // ---------------------------------------------------------------- one step

  lemma FreshKey(all: set<Txn>, txns: seq<Txn>, t: Txn)
    requires DistinctKeysIn(all) && AllIn(txns, all) && t in all && t !in txns
    ensures t.key !in KeysOf(txns)
  {
  }

  lemma DistinctKeysNoDup(txns: seq<Txn>)
    requires DistinctKeys(txns)
    ensures NoDup(txns)
  {
    NoDupFromIndices(txns);
  }

  /** There is room for one more of the delivered transactions. */
  lemma RoomForOne(cfg: Config, base: nat, out: nat, all: set<Txn>, txns: seq<Txn>, t: Txn)
    requires Favourable(cfg, base, out, all) && AllIn(txns, all) && DistinctKeys(txns) && t in all && t !in txns
    ensures base + SumCost(cfg.costOf, txns) + cfg.costOf(t.payload) < cfg.maxCost
    ensures SumSize(out, txns) + t.dataSize + out < cfg.maxByteSize
  {
    hide DistinctKeys, SumCost, SumSize, DistinctKeysIn;
    DistinctKeysNoDup(txns);
    assert NoDup([t]);
    NoDupConcat(txns, [t]);
    assert AllIn(txns + [t], all);
    assert Room(cfg, base, out, txns + [t]);
    SumCostAppend(cfg.costOf, txns, t);
    SumSizeAppend(out, txns, t);
  }

  lemma RoomNow(cfg: Config, base: nat, out: nat, all: set<Txn>, txns: seq<Txn>)
    requires Favourable(cfg, base, out, all) && AllIn(txns, all) && DistinctKeys(txns)
    ensures Room(cfg, base, out, txns)
  {
    hide DistinctKeys, Room, DistinctKeysIn;
    DistinctKeysNoDup(txns);
  }

  /** The same with `txn` taken out to be handled next. */
  ghost predicate InHand(cfg: Config, created: int, g: Gen, v: nat, txn: Txn, seen: set<Txn>, out: nat, bytes: nat)
    requires v <= |g.current|
  {
    && txn in seen && txn !in g.txns && txn !in Pending(g.parked, g.current[v..])
    && (forall t :: t in seen && InTime(cfg, created, t) ==>
          Covered(g, v, t) || (SamePlace(txn, t) && InTime(cfg, created, txn)))
    && AllIn(g.txns, seen) && Pending(g.parked, g.current[v..]) <= seen
    && (forall t :: t in Pending(g.parked, g.current[v..]) ==> InTime(cfg, created, t) && t !in g.txns)
    && bytes <= SumSize(out, g.txns) && SteadyWith(cfg, created, g, v, txn)
  }

  /** The nonce is reached, or will be by the transaction in hand, which is not ahead of its client. */
  ghost predicate ReachedWith(cfg: Config, created: int, g: Gen, v: nat, txn: Txn, c: Key, n: int)
    requires v <= |g.current|
  {
    || Reached(g, v, c, n)
    || (txn.client == c && txn.nonce == n && txn.nonce <= NonceOf(g.nonces, c) + 1 && InTime(cfg, created, txn))
  }

  ghost predicate SteadyWith(cfg: Config, created: int, g: Gen, v: nat, txn: Txn)
    requires v <= |g.current|
  {
    && NoneNegative(g.nonces)
    && (forall c :: c in g.parked ==> ReachedWith(cfg, created, g, v, txn, c, g.parked[c].nonce))
    && (forall u :: u in g.current[v..] ==> ReachedWith(cfg, created, g, v, txn, u.client, u.nonce - 1))
  }

  lemma HeadIsLowest(list: seq<Txn>, v: nat, u: Txn)
    requires v < |list| && Sorted(list, false) && u in list[v..]
    ensures u.nonce >= list[v].nonce
  {
    var k :| 0 <= k < |list[v..]| && list[v..][k] == u;
    assert list[v + k] == u && (k > 0 ==> !Before(list[v + k], list[v], false));
  }

  /** The first entry of a queue without a gap is not ahead of its client. */
  lemma EntrySteady(cfg: Config, created: int, g: Gen, v: nat)
    requires v < |g.current| && Sorted(g.current, false) && Steady(g, v) && InTime(cfg, created, g.current[v])
    ensures SteadyWith(cfg, created, g, v + 1, g.current[v])
  {
    var txn := g.current[v];
    assert g.current[v..] == [txn] + g.current[v + 1..];
    assert txn in g.current[v..];
    forall u | u in g.current[v..] ensures u.nonce >= txn.nonce {
      HeadIsLowest(g.current, v, u);
    }
    forall c, n | Reached(g, v, c, n) ensures ReachedWith(cfg, created, g, v + 1, txn, c, n) {
      if n > NonceOf(g.nonces, c) {
        var u :| Fills(g, v, u, c, n);
        assert u != txn ==> Fills(g, v + 1, u, c, n);
      }
    }
  }

  lemma ReachedAfterInclusion(g: Gen, v: nat, txn: Txn, g': Gen, c: Key, n: int)
    requires QueueOk(g.current, g.parked, v) && ReleaseStep(g.parked, g.current, txn, g'.parked, g'.current)
    requires v <= |g'.current| && forall k :: 0 <= k < v ==> g.current[k].nonce <= txn.nonce
    requires txn.nonce == NonceOf(g.nonces, txn.client) + 1 && Moved(g.nonces, g'.nonces, txn.client, txn.nonce)
    requires Reached(g, v, c, n) || (txn.client == c && txn.nonce == n)
    ensures Reached(g', v, c, n)
  {
    hide ReleaseStep, QueueOk;
    if n > NonceOf(g'.nonces, c) {
      var u :| Fills(g, v, u, c, n);
      QueuedStays(g, v, txn, g', u);
      assert Fills(g', v, u, c, n);
    }
  }

  /** What is released follows the included nonce without a gap. */
  lemma ReleasedReached(g: Gen, v: nat, txn: Txn, g': Gen, n: int)
    requires QueueOk(g.current, g.parked, v) && ReleaseStep(g.parked, g.current, txn, g'.parked, g'.current)
    requires v <= |g'.current| && forall k :: 0 <= k < v ==> g.current[k].nonce <= txn.nonce
    requires Moved(g.nonces, g'.nonces, txn.client, txn.nonce)
    requires forall t :: t in Waiting(g.parked, txn) ==> t.client == txn.client
    requires n <= Release(Waiting(g.parked, txn), txn.nonce).last
    ensures Reached(g', v, txn.client, n)
  {
    hide ReleaseStep, QueueOk, Release;
    var futures := Waiting(g.parked, txn);
    var r := Release(futures, txn.nonce);
    ReleaseIsARun(futures, txn.nonce);
    if n > txn.nonce {
      var u := r.queued[n - txn.nonce - 1];
      QueuedStays(g, v, txn, g', u);
      ReleasedIsWaiting(futures, txn.nonce, u);
      assert Fills(g', v, u, txn.client, n);
    }
  }

  lemma SteadyAfterInclusion(cfg: Config, created: int, start: Nonces, g: Gen, v: nat, txn: Txn, g': Gen)
    requires v <= |g.current| && Ready(start, g, v) && v <= |g'.current| && SteadyWith(cfg, created, g, v, txn)
    requires forall k :: 0 <= k < v ==> g.current[k].nonce <= txn.nonce
    requires txn.nonce == NonceOf(g.nonces, txn.client) + 1 && Moved(g.nonces, g'.nonces, txn.client, txn.nonce)
    requires ReleaseStep(g.parked, g.current, txn, g'.parked, g'.current)
    ensures Steady(g', v)
  {
    hide StableSort, Release, Accounted, Consecutive, Reached, QueueOk;
    var futures := Waiting(g.parked, txn);
    var r := Release(futures, txn.nonce);
    assert forall t :: t in futures ==> t.client == txn.client by {
      if txn.client in g.parked {
        assert ListOk(txn.client, g.parked[txn.client], NonceOf(g.nonces, txn.client));
      }
    }
    forall c, n | ReachedWith(cfg, created, g, v, txn, c, n) ensures Reached(g', v, c, n) {
      ReachedAfterInclusion(g, v, txn, g', c, n);
    }
    ReleasedReached(g, v, txn, g', r.last);
    forall u | u in g'.current[v..] ensures Reached(g', v, u.client, u.nonce - 1) {
      NewInQueue(g, v, txn, g', u);
      if u !in g.current[v..] {
        ReleaseIsARun(futures, txn.nonce);
        ReleasedIsWaiting(futures, txn.nonce, u);
        ReleasedReached(g, v, txn, g', u.nonce - 1);
      }
    }
  }

  lemma NewInQueue(g: Gen, v: nat, txn: Txn, g': Gen, u: Txn)
    requires QueueOk(g.current, g.parked, v) && ReleaseStep(g.parked, g.current, txn, g'.parked, g'.current)
    requires forall k :: 0 <= k < v ==> g.current[k].nonce <= txn.nonce
    requires v <= |g'.current| && u in g'.current[v..]
    ensures u in g.current[v..] || u in Release(Waiting(g.parked, txn), txn.nonce).queued
  {
    hide StableSort, Release;
    var r := Release(Waiting(g.parked, txn), txn.nonce);
    ReleaseIsARun(Waiting(g.parked, txn), txn.nonce);
    if Waiting(g.parked, txn) != [] {
      VisitedStay(g.current, r.queued, g'.current, v, txn.nonce);
      SameElements(g'.current[v..], g.current[v..] + r.queued, u);
    }
  }

  lemma SteadyAfter(cfg: Config, created: int, start: Nonces, g: Gen, a: Aside, v: nat, txn: Txn, env: Surroundings,
                    g': Gen, a': Aside)
    requires v <= |g.current| && Ready(start, g, v) && v <= |g'.current| &&
             Handled(cfg, created, g, a, txn, env, g', a')
    requires forall k :: 0 <= k < v ==> g.current[k].nonce <= txn.nonce
    requires env.lookupFault.None? && env.updateFault.None? && txn.key !in g.keys
    requires SteadyWith(cfg, created, g, v, txn)
    ensures Steady(g', v)
  {
    hide Ready, ReleaseStep, StableSort, Release;
    if Includable(cfg, created, g, txn, env) {
      SteadyAfterInclusion(cfg, created, start, g, v, txn, g');
    } else {
      forall c, n | ReachedWith(cfg, created, g, v, txn, c, n) ensures Reached(g', v, c, n) {
        if n > NonceOf(g.nonces, c) {
          var u :| Fills(g, v, u, c, n);
          assert Fills(g', v, u, c, n);
        }
      }
    }
  }

  lemma DeliveryInHand(cfg: Config, created: int, g: Gen, txn: Txn, seen: set<Txn>, out: nat, bytes: nat)
    requires txn !in seen && Progress(cfg, created, g, 0, seen, out, bytes)
    ensures InHand(cfg, created, g, 0, txn, seen + {txn}, out, bytes)
  {
    hide Covered, Pending, SumSize, WithinTime, Reached;
  }

  lemma EntryInHand(cfg: Config, created: int, g: Gen, v: nat, all: set<Txn>, out: nat, bytes: nat)
    requires v < |g.current| && Sorted(g.current, false) && Progress(cfg, created, g, v, all, out, bytes)
    requires NotParked(g.parked, g.current[v]) && g.current[v] !in g.current[v + 1..]
    ensures InHand(cfg, created, g, v + 1, g.current[v], all, out, bytes)
  {
    hide Covered, Pending, SumSize, WithinTime, NotParked, Steady, SteadyWith;
    EntryPending(g, v);
    EntrySteady(cfg, created, g, v);
    forall t | t in all && InTime(cfg, created, t)
      ensures Covered(g, v + 1, t) || SamePlace(g.current[v], t)
    {
      NextCovers(g, v, t);
    }
  }

  lemma EntryPending(g: Gen, v: nat)
    requires v < |g.current|
    ensures g.current[v] in Pending(g.parked, g.current[v..])
    ensures Pending(g.parked, g.current[v + 1..]) <= Pending(g.parked, g.current[v..])
    ensures NotParked(g.parked, g.current[v]) && g.current[v] !in g.current[v + 1..] ==>
              g.current[v] !in Pending(g.parked, g.current[v + 1..])
  {
    assert g.current[v..] == [g.current[v]] + g.current[v + 1..];
  }

  /** Whatever a queue entry stands for is covered by it or by another one. */
  lemma NextCovers(g: Gen, v: nat, t: Txn)
    requires v < |g.current| && Covered(g, v, t)
    ensures Covered(g, v + 1, t) || SamePlace(g.current[v], t)
  {
    if t.nonce > NonceOf(g.nonces, t.client) {
      var u :| Holds(g, v, u, t);
      assert g.current[v..] == [g.current[v]] + g.current[v + 1..];
      if u != g.current[v] || u in Waiting(g.parked, t) {
        assert Holds(g, v + 1, u, t);
      }
    }
  }

  /** A transaction in hand has a key of its own, there is room for it, and it breaks nothing. */
  lemma InHandFits(cfg: Config, created: int, start: Nonces, base: nat, g: Gen, v: nat, txn: Txn, seen: set<Txn>,
                   all: set<Txn>, out: nat, bytes: nat, cost: nat, env: Surroundings)
    requires Favourable(cfg, base, out, all) && Calm(env, out) && seen <= all && Ready(start, g, v)
    requires CostOk(cfg, base, g.txns, cost) && InHand(cfg, created, g, v, txn, seen, out, bytes)
    ensures txn.key !in g.keys && !Breaks(cfg, created, g, txn, env)
    ensures cost + cfg.costOf(txn.payload) < cfg.maxCost
  {
    hide SumCost, SumSize, Consecutive, ParkedOk, QueueOk, KeysOf, DistinctKeys, Pending, Roomy, Covered, WithinTime;
    FreshKey(all, g.txns, txn);
    RoomForOne(cfg, base, out, all, g.txns, txn);
  }

  lemma EntryFits(cfg: Config, created: int, start: Nonces, base: nat, g: Gen, v: nat, all: set<Txn>, out: nat,
                  bytes: nat, cost: nat, env: Surroundings)
    requires v < |g.current| && Favourable(cfg, base, out, all) && Calm(env, out) && Ready(start, g, v)
    requires CostOk(cfg, base, g.txns, cost) && Progress(cfg, created, g, v, all, out, bytes)
    ensures cost + cfg.costOf(g.current[v].payload) < cfg.maxCost
  {
    hide Ready, CostOk, Progress, Favourable, Calm, InHand, NotParked;
    ReadyAdvance(start, g, v);
    EntryInHand(cfg, created, g, v, all, out, bytes);
    InHandFits(cfg, created, start, base, g, v + 1, g.current[v], all, all, out, bytes, cost, env);
  }

  /** Handling the transaction in hand keeps the generation in progress. */
  lemma ProgressStep(cfg: Config, created: int, start: Nonces, g: Gen, a: Aside, v: nat, txn: Txn, env: Surroundings,
                     g': Gen, a': Aside, seen: set<Txn>, out: nat, bytes: nat, bytes': nat)
    requires v <= |g.current| && Ready(start, g, v) && v <= |g'.current| &&
             Handled(cfg, created, g, a, txn, env, g', a')
    requires forall k :: 0 <= k < v ==> g.current[k].nonce <= txn.nonce
    requires Calm(env, out) && txn.key !in g.keys && InHand(cfg, created, g, v, txn, seen, out, bytes)
    requires var ok := Includable(cfg, created, g, txn, env);
      && Pending(g'.parked, g'.current[v..]) <= Pending(g.parked, g.current[v..]) + (if ok then {} else {txn})
      && bytes' == if ok then bytes + txn.dataSize + env.outputSize else bytes
    ensures Progress(cfg, created, g', v, seen, out, bytes')
  {
    hide Ready, Covered, ReleaseStep, Pending, SumSize, WithinTime, ParkedWith, Release, Moved, Steady, SteadyWith;
    SteadyAfter(cfg, created, start, g, a, v, txn, env, g', a');
    forall t | t in seen && InTime(cfg, created, t) ensures Covered(g', v, t) {
      CoveredAfter(cfg, created, start, g, a, v, txn, env, g', a', t);
    }
    SumSizeAppend(out, g.txns, txn);
  }

  /** As long as nothing disturbs the generation, neither limit is reached. */
  lemma WithinLimits(cfg: Config, created: int, start: Nonces, base: nat, g: Gen, v: nat, seen: set<Txn>,
                     all: set<Txn>, out: nat, bytes: nat, cost: nat)
    requires v <= |g.current| && Favourable(cfg, base, out, all) && seen <= all
    requires Ready(start, g, v) && CostOk(cfg, base, g.txns, cost) && Progress(cfg, created, g, v, seen, out, bytes)
    ensures cost < cfg.maxCost && bytes < cfg.maxByteSize
  {
    hide SumCost, SumSize, Consecutive, ParkedOk, QueueOk, KeysOf, DistinctKeys, Served, Pending, Roomy;
    RoomNow(cfg, base, out, all, g.txns);
  }

  // ---------------------------------------------------------------- the result

  /**
   No delivered transaction within time has the nonce that comes after its client's last one in the block:
   what is left out is past or lies beyond a gap.
   */
  ghost predicate Complete(cfg: Config, created: int, start: Nonces, txns: seq<Txn>, all: set<Txn>) {
    forall t :: t in all && InTime(cfg, created, t) ==>
      t.nonce != NonceOf(start, t.client) + |NoncesIn(txns, t.client)| + 1
  }

  /** A delivered transaction within time that lies beyond its client's nonce has one in its place parked. */
  ghost predicate BeyondIsParked(cfg: Config, created: int, nonces: Nonces, parked: Parked, all: set<Txn>) {
    forall t :: t in all && InTime(cfg, created, t) && t.nonce > NonceOf(nonces, t.client) ==>
      exists u :: u in Waiting(parked, t) && SamePlace(u, t)
  }

  /** A list of parked transactions counts from its client's nonce. */
  ghost predicate CountsFromState(nonces: Nonces, parked: Parked) {
    forall c :: c in parked && parked[c].txns != [] ==> parked[c].nonce == NonceOf(nonces, c)
  }

  /** Then exactly the clients all of whose parked transactions are too far ahead have them dropped. */
  lemma DroppedExactly(parked: Parked, nonces: Nonces, allowed: int, t: Txn)
    requires ParkedOk(parked, nonces) && CountsFromState(nonces, parked)
    ensures (exists c :: c in parked && ListTooFar(parked[c], allowed) && t in parked[c].txns) <==>
            t in Waiting(parked, t) &&
            forall u :: u in Waiting(parked, t) ==> u.nonce > NonceOf(nonces, t.client) + allowed
  {
    forall c | c in parked && t in parked[c].txns
      ensures c == t.client
      ensures ListTooFar(parked[c], allowed) <==>
              forall u :: u in parked[c].txns ==> u.nonce > NonceOf(nonces, c) + allowed
    {
      assert ListOk(c, parked[c], NonceOf(nonces, c));
      assert parked[c].txns[0] in parked[c].txns;
      forall u | u in parked[c].txns ensures u.nonce >= parked[c].txns[0].nonce {
        SortedHeadFirst(parked[c].txns, u, true);
      }
    }
  }

  /** Where every delivered transaction within time is in the end. */
  ghost predicate Finished(cfg: Config, created: int, start: Nonces, txns: seq<Txn>, nonces: Nonces, parked: Parked,
                           all: set<Txn>)
  {
    && Complete(cfg, created, start, txns, all)
    && BeyondIsParked(cfg, created, nonces, parked, all)
    && CountsFromState(nonces, parked)
  }

  /** When the queue has been walked to its end, the block is complete. */
  lemma WalkedIsComplete(cfg: Config, created: int, start: Nonces, g: Gen, seen: set<Txn>, out: nat, bytes: nat)
    requires Ready(start, g, |g.current|) && Progress(cfg, created, g, |g.current|, seen, out, bytes)
    ensures Finished(cfg, created, start, g.txns, g.nonces, g.parked, seen)
  {
    hide Accounted, QueueOk, Pending, SumSize, NoncesIn, WithinTime;
    assert g.current[|g.current|..] == [];
    forall c | c in g.parked && g.parked[c].txns != [] ensures g.parked[c].nonce == NonceOf(g.nonces, c) {
      assert Reached(g, |g.current|, c, g.parked[c].nonce);
      assert ListOk(c, g.parked[c], NonceOf(g.nonces, c));
    }
    forall t | t in seen && InTime(cfg, created, t)
      ensures t.nonce != NonceOf(start, t.client) + |NoncesIn(g.txns, t.client)| + 1
    {
      assert IsRun(NoncesIn(g.txns, t.client), NonceOf(start, t.client), NonceOf(g.nonces, t.client));
      assert Covered(g, |g.current|, t);
      if t.nonce > NonceOf(g.nonces, t.client) {
        var u :| Holds(g, |g.current|, u, t);
        assert g.current[|g.current|..] == [];
        assert ListOk(t.client, g.parked[t.client], NonceOf(g.nonces, t.client));
      }
    }
  }

  /** Among the delivered transactions is one within time of this client and nonce. */
  ghost predicate Offered(cfg: Config, created: int, all: set<Txn>, c: Key, nonce: int) {
    exists t :: t in all && InTime(cfg, created, t) && t.client == c && t.nonce == nonce
  }

  /** Transactions that follow the client's state without a gap are all included, one for each nonce. */
  lemma NoGapIsIncluded(cfg: Config, created: int, start: Nonces, txns: seq<Txn>, all: set<Txn>, c: Key, k: nat)
    requires Complete(cfg, created, start, txns, all)
    requires forall n :: NonceOf(start, c) < n <= NonceOf(start, c) + k ==> Offered(cfg, created, all, c, n)
    ensures |NoncesIn(txns, c)| >= k
  {
    hide NoncesIn, WithinTime;
    var n := NonceOf(start, c) + |NoncesIn(txns, c)| + 1;
    assert !Offered(cfg, created, all, c, n);
  }

  // ---------------------------------------------------------------- room for all

  /** Enough room for the whole list is room for every choice from it. */
  lemma RoomForAll(cfg: Config, base: nat, out: nat, txns: seq<Txn>, all: set<Txn>)
    requires NoDup(txns) && (forall t :: t in all ==> t in txns) && Room(cfg, base, out, txns)
    ensures Roomy(cfg, base, out, all)
  {
    hide SumCost, SumSize, NoDup;
    forall l: seq<Txn> | NoDup(l) && AllIn(l, all) ensures Room(cfg, base, out, l) {
      ChoiceIsSmaller(cfg.costOf, out, l, txns);
    }
  }

  lemma {:induction false} ChoiceIsSmaller(costOf: string -> nat, out: nat, l: seq<Txn>, txns: seq<Txn>)
    requires NoDup(l) && forall t :: t in l ==> t in txns
    ensures SumCost(costOf, l) <= SumCost(costOf, txns) && SumSize(out, l) <= SumSize(out, txns)
    decreases |l|
  {
    if l != [] {
      var front, t := l[..|l| - 1], l[|l| - 1];
      assert l == front + [t];
      NoDupPart(front, [t]);
      assert t in l;
      var i :| 0 <= i < |txns| && txns[i] == t;
      var rest := txns[..i] + txns[i + 1..];
      assert t in [t];
      forall x | x in front ensures x in rest {
        assert x in l;
        var j :| 0 <= j < |txns| && txns[j] == x;
        assert j != i;
        if j < i { assert rest[j] == x; } else { assert rest[j - 1] == x; }
      }
      ChoiceIsSmaller(costOf, out, front, rest);
      SumWithout(costOf, out, txns, i);
    }
  }

  lemma {:induction false} SumWithout(costOf: string -> nat, out: nat, txns: seq<Txn>, i: nat)
    requires i < |txns|
    ensures var rest := txns[..i] + txns[i + 1..];
      && SumCost(costOf, txns) == SumCost(costOf, rest) + costOf(txns[i].payload)
      && SumSize(out, txns) == SumSize(out, rest) + txns[i].dataSize + out
    decreases |txns|
  {
    var n := |txns| - 1;
    var rest := txns[..i] + txns[i + 1..];
    if i == n {
      assert rest == txns[..n];
    } else {
      var front := txns[..n];
      SumWithout(costOf, out, front, i);
      assert rest == (front[..i] + front[i + 1..]) + [txns[n]];
      SumCostAppend(costOf, front[..i] + front[i + 1..], txns[n]);
      SumSizeAppend(out, front[..i] + front[i + 1..], txns[n]);
    }
  }
}
