/**
 The bookkeeping of block generation: what the generator is told by its surroundings, how transactions
 are classified, and the facts about nonces, parked lists, queue and cost that every step keeps.
 */
module AssemblyBooks {
  import opened Common
  import opened Transactions
  import opened Parking
  import opened ClientNonces

  datatype Fault = InvalidState | Interrupted | OtherFault

  datatype CtxError = DeadlineExceeded | Canceled

  /** What the rest of the node and the clock decide during one call of a transaction handler. */
  datatype Surroundings = Surroundings(
    ctxError: Option<CtxError>,
    roundAhead: bool,
    roundTimedOut: bool,
    costFault: Option<Fault>,
    feeAccepted: bool,
    lookupFault: Option<Fault>,
    updateFault: Option<Fault>,
    touched: set<Key>,
    outputSize: nat,
    selfNonce: Option<int>)

  datatype Config = Config(
    maxCost: nat,
    maxByteSize: nat,
    minBlockSize: nat,
    timeTolerance: nat,
    futureNonce: int,
    maxSupply: nat,
    costOf: string -> nat)

  predicate WithinTime(o: int, ts: int, seconds: nat) {
    o - seconds <= ts <= o + seconds
  }

  datatype Verdict = Next | Past | Future(nonce: int) | NotTolerant | LookupFailed(fault: Fault)

  /** Where a transaction stands relative to the state; a missing client and nonce 0 are the same. */
  function Validate(cfg: Config, created: int, nonces: Nonces, t: Txn, lookupFault: Option<Fault>): (v: Verdict)
    ensures v.NotTolerant? <==> !WithinTime(created, t.created, cfg.timeTolerance)
    ensures v.LookupFailed? <==> WithinTime(created, t.created, cfg.timeTolerance) && lookupFault.Some?
    ensures v.LookupFailed? ==> lookupFault == Some(v.fault)
    ensures !v.NotTolerant? && !v.LookupFailed? ==>
      && (v.Next? <==> t.nonce == NonceOf(nonces, t.client) + 1)
      && (v.Past? <==> t.nonce <= NonceOf(nonces, t.client))
      && (v.Future? <==> t.nonce > NonceOf(nonces, t.client) + 1)
    ensures v.Future? ==> v.nonce == NonceOf(nonces, t.client)
  {
    if !WithinTime(created, t.created, cfg.timeTolerance) then NotTolerant
    else if lookupFault.Some? then LookupFailed(lookupFault.value)
    else if t.client !in nonces then
      if t.nonce > 1 then Future(0) else if t.nonce < 1 then Past else Next
    else if t.nonce - nonces[t.client] > 1 then Future(nonces[t.client])
    else if t.nonce - nonces[t.client] < 1 then Past
    else Next
  }

  /** Executing a transaction: the environment may fail it, the nonce check may refuse it. */
  function UpdateState(nonces: Nonces, t: Txn, env: Surroundings): (r: Result<Nonces, Fault>)
    ensures r.Ok? <==> env.updateFault.None? && t.nonce == NonceOf(nonces, t.client) + 1
    ensures r.Ok? ==> Execute(nonces, t, env.touched) == Some(r.value)
    ensures r.Err? ==> r.error == if env.updateFault.Some? then env.updateFault.value else OtherFault
  {
    if env.updateFault.Some? then Err(env.updateFault.value)
    else match Execute(nonces, t, env.touched)
         case None => Err(OtherFault)
         case Some(m) => Ok(m)
  }

  function SumCost(costOf: string -> nat, txns: seq<Txn>): nat {
    if txns == [] then 0
    else SumCost(costOf, txns[..|txns| - 1]) + costOf(txns[|txns| - 1].payload)
  }

  lemma SumCostAppend(costOf: string -> nat, txns: seq<Txn>, t: Txn)
    ensures SumCost(costOf, txns + [t]) == SumCost(costOf, txns) + costOf(t.payload)
  {
    assert (txns + [t])[..|txns + [t]| - 1] == txns;
  }

  lemma SumCostEmpty(costOf: string -> nat)
    ensures SumCost(costOf, []) == 0
  {
  }

  lemma {:induction false} SumCostPrefix(costOf: string -> nat, txns: seq<Txn>, k: nat)
    requires k <= |txns|
    ensures SumCost(costOf, txns[..k]) <= SumCost(costOf, txns)
    decreases |txns|
  {
    if k == |txns| {
      assert txns[..k] == txns;
    } else {
      var front := txns[..|txns| - 1];
      assert front[..k] == txns[..k];
      SumCostPrefix(costOf, front, k);
    }
  }

  /** Everything parked or still waiting in the queue. */
  ghost function Pending(parked: Parked, waiting: seq<Txn>): set<Txn> {
    (set c, t | c in parked && t in parked[c].txns :: t) + (set t | t in waiting)
  }

  ghost predicate ParkedOk(parked: Parked, nonces: Nonces) {
    forall c :: c in parked ==> ListOk(c, parked[c], NonceOf(nonces, c))
  }

  ghost predicate DistinctKeys(txns: seq<Txn>) {
    forall i, j :: 0 <= i < j < |txns| ==> txns[i].key != txns[j].key
  }

  function KeysOf(txns: seq<Txn>): set<Key> {
    set t | t in txns :: t.key
  }

  // ---------------------------------------------------------------- steps keep the books

  /** `after` is `before` with one client moved to nonce `n`. */
  ghost predicate Moved(before: Nonces, after: Nonces, c: Key, n: int) {
    forall d :: NonceOf(after, d) == if d == c then n else NonceOf(before, d)
  }

  ghost predicate NotParked(parked: Parked, t: Txn) {
    forall c :: c in parked ==> t !in parked[c].txns
  }

  lemma InclusionWithoutParked(parked: Parked, before: Nonces, after: Nonces, t: Txn)
    requires ParkedOk(parked, before) && Moved(before, after, t.client, t.nonce)
    requires t.client in parked ==> parked[t.client].txns == []
    ensures ParkedOk(parked, after)
  {
    forall c | c in parked ensures ListOk(c, parked[c], NonceOf(after, c)) {
      assert ListOk(c, parked[c], NonceOf(before, c));
    }
  }

  lemma ReleaseKeepsList(c: Key, l: ParkedTxns, nonce: int, n: int, r: Released)
    requires ListOk(c, l, nonce) && r == Release(l.txns, n)
    ensures ListOk(c, ParkedTxns(r.last, r.kept), n)
  {
    hide Release;
    ReleaseIsARun(l.txns, n);
    ReleaseSplitsByNonce(l.txns, n, true);
    assert forall x :: x in r.kept ==> x in l.txns;
  }

  lemma ReleaseKeepsParkedOk(parked: Parked, before: Nonces, after: Nonces, t: Txn, r: Released)
    requires ParkedOk(parked, before) && Moved(before, after, t.client, t.nonce)
    requires t.client in parked && r == Release(parked[t.client].txns, t.nonce)
    ensures ParkedOk(parked[t.client := ParkedTxns(r.last, r.kept)], after)
  {
    hide Release, ListOk;
    ReleaseKeepsList(t.client, parked[t.client], NonceOf(before, t.client), t.nonce, r);
  }

  lemma ReleaseShrinksPending(parked: Parked, current: seq<Txn>, c: Key, n: int, v: nat, r: Released, next: seq<Txn>)
    requires c in parked && v <= |current| && Sorted(current, false)
    requires forall k :: 0 <= k < v ==> current[k].nonce <= n
    requires r == Release(parked[c].txns, n) && next == StableSort(current + r.queued, false)
    ensures Pending(parked[c := ParkedTxns(r.last, r.kept)], next[v..]) <= Pending(parked, current[v..])
  {
    var futures := parked[c].txns;
    ReleaseIsARun(futures, n);
    VisitedStay(current, r.queued, next, v, n);
    ReleaseConserves(futures, n);
    forall t | t in r.kept || t in r.queued ensures t in futures {
      SameElements(r.past + r.queued + r.kept, futures, t);
    }
    forall t | t in next[v..] ensures t in current[v..] || t in r.queued {
      SameElements(next[v..], current[v..] + r.queued, t);
    }
  }

  lemma ParkingSorts(l: ParkedTxns, l': ParkedTxns, t: Txn, nonce: int)
    requires ListOk(t.client, l, nonce) || l.txns == []
    requires l'.txns == StableSort(l.txns + [t], true) && l'.nonce >= nonce && t.nonce > nonce + 1
    ensures ListOk(t.client, l', nonce)
    ensures forall x :: x in l'.txns <==> x in l.txns || x == t
    ensures NoDup(l.txns) && t !in l.txns ==> NoDup(l'.txns)
  {
    StableSortSorted(l.txns + [t], true);
    forall x ensures x in l'.txns <==> x in l.txns || x == t {
      SameElements(l'.txns, l.txns + [t], x);
    }
    if NoDup(l.txns) && t !in l.txns {
      NoDupConcat(l.txns, [t]);
      NoDupOfPermutation(l.txns + [t], l'.txns);
    }
  }

  /** The client's list after parking `t` while the state holds `nonce`. */
  function ParkedWith(parked: Parked, t: Txn, nonce: int): ParkedTxns {
    var n := if t.client in parked then parked[t.client].nonce else 0;
    ParkedTxns(if n < nonce then nonce else n, StableSort(Waiting(parked, t) + [t], true))
  }

  ghost predicate ParksInto(parked: Parked, nonces: Nonces, t: Txn, l': ParkedTxns) {
    && l'.txns == StableSort(Waiting(parked, t) + [t], true)
    && l'.nonce >= NonceOf(nonces, t.client)
    && t.nonce > NonceOf(nonces, t.client) + 1
  }

  lemma ParkingMembers(parked: Parked, nonces: Nonces, t: Txn, l': ParkedTxns)
    requires ParkedOk(parked, nonces) && ParksInto(parked, nonces, t, l')
    ensures ListOk(t.client, l', NonceOf(nonces, t.client))
    ensures forall x :: x in l'.txns <==> x in Waiting(parked, t) || x == t
    ensures NoDup(Waiting(parked, t)) && t !in Waiting(parked, t) ==> NoDup(l'.txns)
  {
    hide StableSort, ListOk;
    var l := if t.client in parked then parked[t.client] else ParkedTxns(0, []);
    assert t.client in parked ==> ListOk(t.client, l, NonceOf(nonces, t.client));
    ParkingSorts(l, l', t, NonceOf(nonces, t.client));
  }

  lemma ParkingKeepsLists(parked: Parked, nonces: Nonces, t: Txn, l': ParkedTxns)
    requires ParkedOk(parked, nonces) && ParksInto(parked, nonces, t, l')
    ensures ParkedOk(parked[t.client := l'], nonces)
  {
    hide ParksInto, ListOk, Waiting;
    ParkingMembers(parked, nonces, t, l');
  }

  lemma ParkingKeepsQueue(parked: Parked, nonces: Nonces, current: seq<Txn>, v: nat, t: Txn, l': ParkedTxns)
    requires ParkedOk(parked, nonces) && ParksInto(parked, nonces, t, l')
    requires QueueOk(current, parked, v) && NotParked(parked, t) && t !in current[v..]
    ensures QueueOk(current, parked[t.client := l'], v)
  {
    hide ParksInto, ListOk, ParkedOk, NoDup;
    ParkingMembers(parked, nonces, t, l');
    NoDupNone<Txn>();
    assert t.client in parked ==> ParkedApart(parked[t.client].txns, current[v..]);
    assert ParkedApart(l'.txns, current[v..]);
  }

  lemma ParkingGrowsPending(parked: Parked, nonces: Nonces, waiting: seq<Txn>, t: Txn, l': ParkedTxns)
    requires ParkedOk(parked, nonces) && ParksInto(parked, nonces, t, l')
    ensures Pending(parked[t.client := l'], waiting) <= Pending(parked, waiting) + {t}
  {
    hide ParksInto, ListOk, ParkedOk, NoDup;
    ParkingMembers(parked, nonces, t, l');
  }

  /** The whole effect of an inclusion on the parked lists and the queue. */
  lemma AfterInclusion(parked: Parked, current: seq<Txn>, before: Nonces, after: Nonces, t: Txn, v: nat,
                       parked': Parked, current': seq<Txn>)
    requires ParkedOk(parked, before) && QueueOk(current, parked, v)
    requires Moved(before, after, t.client, t.nonce)
    requires forall k :: 0 <= k < v ==> current[k].nonce <= t.nonce
    requires ReleaseStep(parked, current, t, parked', current')
    ensures ParkedOk(parked', after) && QueueOk(current', parked', v)
    ensures current'[..v] == current[..v]
    ensures Pending(parked', current'[v..]) <= Pending(parked, current[v..])
  {
    if t.client !in parked || parked[t.client].txns == [] {
      InclusionWithoutParked(parked, before, after, t);
    } else {
      var r := Release(parked[t.client].txns, t.nonce);
      ReleaseKeepsParkedOk(parked, before, after, t, r);
      forall d, x | d in parked && x in parked[d].txns ensures x.client == d {
        assert ListOk(d, parked[d], NonceOf(before, d));
      }
      ReleaseKeepsQueue(current, parked, t.client, t.nonce, v, r, current');
      ReleaseShrinksPending(parked, current, t.client, t.nonce, v, r, current');
    }
  }

  lemma AccountedExtend(txns: seq<Txn>, t: Txn)
    requires DistinctKeys(txns) && t.key !in KeysOf(txns)
    ensures DistinctKeys(txns + [t]) && KeysOf(txns + [t]) == KeysOf(txns) + {t.key}
  {
    forall i | 0 <= i < |txns| ensures txns[i].key != t.key {
      assert txns[i] in txns;
    }
    forall k ensures k in KeysOf(txns + [t]) <==> k in KeysOf(txns) + {t.key} {
      if k == t.key {
        assert (txns + [t])[|txns|] == t;
        assert t in txns + [t];
      }
    }
  }

  /** The fields of the generator, its block and its state that have to agree with each other. */
  datatype Gen = Gen(txns: seq<Txn>, nonces: Nonces, eTxns: seq<Txn>, idx: nat, keys: set<Key>,
                     parked: Parked, current: seq<Txn>)

  /** The books agree with the block. */
  ghost predicate Accounted(g: Gen) {
    g.eTxns == g.txns && g.idx == |g.txns| && g.keys == KeysOf(g.txns) && DistinctKeys(g.txns)
  }

  /**
   The state of the generator between two transactions: `start` is the state it began with and
   `v` the number of queue entries already visited.
   */
  ghost predicate Ready(start: Nonces, g: Gen, v: nat) {
    && Accounted(g)
    && Consecutive(start, g.txns, g.nonces)
    && ParkedOk(g.parked, g.nonces)
    && QueueOk(g.current, g.parked, v)
  }

  // ---------------------------------------------------------------- one transaction

  /** Exactly when a transaction is included. */
  predicate Includable(cfg: Config, created: int, g: Gen, t: Txn, env: Surroundings) {
    && t.key !in g.keys
    && WithinTime(created, t.created, cfg.timeTolerance)
    && t.nonce == NonceOf(g.nonces, t.client) + 1
    && env.lookupFault != Some(InvalidState) && env.updateFault.None?
  }

  /** Exactly when a transaction stops the iteration: the state cannot be read or written. */
  predicate Breaks(cfg: Config, created: int, g: Gen, t: Txn, env: Surroundings) {
    && t.key !in g.keys
    && WithinTime(created, t.created, cfg.timeTolerance)
    && (env.lookupFault == Some(InvalidState) ||
        (env.updateFault == Some(InvalidState) &&
         (env.lookupFault.Some? || t.nonce == NonceOf(g.nonces, t.client) + 1)))
  }

  /** The lists of transactions that are set aside for good. */
  datatype Aside = Aside(past: seq<Txn>, invalid: seq<Txn>)

  /**
   What becomes of a transaction handed to the processor. An included one is at the end of the block and its
   successors are released; another one is past, invalid, or parked by its nonce, or changes nothing.
   */
  ghost predicate Handled(cfg: Config, created: int, g: Gen, a: Aside, t: Txn, env: Surroundings, g': Gen, a': Aside) {
    if Includable(cfg, created, g, t, env) then
      && g'.txns == g.txns + [t] && Moved(g.nonces, g'.nonces, t.client, t.nonce)
      && ReleaseStep(g.parked, g.current, t, g'.parked, g'.current)
      && a' == a.(past := a.past + Release(Waiting(g.parked, t), t.nonce).past)
    else
      && g'.txns == g.txns && g'.nonces == g.nonces && g'.current == g.current && g'.keys == g.keys
      && var isNew := t.key !in g.keys;
         var timely := WithinTime(created, t.created, cfg.timeTolerance);
         var known := isNew && timely && env.lookupFault.None?;
         && a'.past == (if known && t.nonce <= NonceOf(g.nonces, t.client) then a.past + [t] else a.past)
         && a'.invalid == (if isNew && !timely then a.invalid + [t] else a.invalid)
         && g'.parked == (if known && t.nonce > NonceOf(g.nonces, t.client) + 1
                          then g.parked[t.client := ParkedWith(g.parked, t, NonceOf(g.nonces, t.client))] else g.parked)
  }

  datatype IterError = IterCtx(ctx: CtxError) | IterInvalidState | IterOther

  /**
   The accumulated cost is the built-in cost plus the cost of what is included, and stays below the
   limit as soon as anything from the pool is included.
   */
  ghost predicate CostOk(cfg: Config, base: nat, txns: seq<Txn>, cost: nat) {
    cost == base + SumCost(cfg.costOf, txns) && (txns != [] ==> cost < cfg.maxCost)
  }

  lemma CostExtend(cfg: Config, base: nat, txns: seq<Txn>, cost: nat, t: Txn)
    requires CostOk(cfg, base, txns, cost) && cost + cfg.costOf(t.payload) < cfg.maxCost
    ensures CostOk(cfg, base, txns + [t], cost + cfg.costOf(t.payload))
  {
    SumCostAppend(cfg.costOf, txns, t);
  }

  /** Every transaction lies within the time tolerance of the block. */
  ghost predicate Timely(cfg: Config, created: int, txns: seq<Txn>) {
    forall t :: t in txns ==> WithinTime(created, t.created, cfg.timeTolerance)
  }

  lemma TimelyExtend(cfg: Config, created: int, txns: seq<Txn>, t: Txn)
    requires Timely(cfg, created, txns) && WithinTime(created, t.created, cfg.timeTolerance)
    ensures Timely(cfg, created, txns + [t])
  {
  }

  lemma NotPendingApart(parked: Parked, waiting: seq<Txn>, t: Txn)
    requires t !in Pending(parked, waiting)
    ensures NotParked(parked, t) && t !in waiting
  {
  }

  ghost predicate DistinctPool(pool: seq<Option<Txn>>) {
    forall i, j :: 0 <= i < j < |pool| && pool[i].Some? ==> pool[i] != pool[j]
  }

  ghost function Seen(pool: seq<Option<Txn>>, k: nat): set<Txn>
    requires k <= |pool|
  {
    set i | 0 <= i < k && pool[i].Some? :: pool[i].value
  }

  ghost predicate AllIn(txns: seq<Txn>, all: set<Txn>) {
    forall t :: t in txns ==> t in all
  }

  lemma AllInEmpty(all: set<Txn>)
    ensures AllIn([], all)
  {
  }

  lemma AllInExtend(txns: seq<Txn>, all: set<Txn>, item: Option<Txn>, txns': seq<Txn>, all': set<Txn>)
    requires AllIn(txns, all) && all <= all'
    requires txns' == txns || (item.Some? && item.value in all' && txns' == txns + [item.value])
    ensures AllIn(txns', all')
  {
  }

  lemma SeenMonotone(pool: seq<Option<Txn>>, k: nat)
    requires k <= |pool|
    ensures Seen(pool, k) <= Seen(pool, |pool|)
  {
  }

  lemma SeenNext(pool: seq<Option<Txn>>, k: nat)
    requires DistinctPool(pool) && k < |pool|
    ensures pool[k].Some? ==> pool[k].value !in Seen(pool, k)
    ensures Seen(pool, k + 1) == if pool[k].Some? then Seen(pool, k) + {pool[k].value} else Seen(pool, k)
  {
    if pool[k].Some? {
      forall i | 0 <= i < k && pool[i].Some? ensures pool[i].value != pool[k].value {
        assert pool[i] != pool[k];
      }
    }
  }

  /** The next queue entry may be handed to the processor: it is not parked and not queued again. */
  lemma ReadyAdvance(start: Nonces, g: Gen, v: nat)
    requires v < |g.current| && Ready(start, g, v)
    ensures Ready(start, g, v + 1) && Sorted(g.current, false)
    ensures forall k :: 0 <= k < v + 1 ==> g.current[k].nonce <= g.current[v].nonce
    ensures NotParked(g.parked, g.current[v]) && g.current[v] !in g.current[v + 1..]
  {
    var current := g.current;
    assert current[v..] == [current[v]] + current[v + 1..];
    forall c | c in g.parked ensures ParkedApart(g.parked[c].txns, current[v + 1..]) {
      assert ParkedApart(g.parked[c].txns, current[v..]);
    }
    forall c | c in g.parked ensures current[v] !in g.parked[c].txns {
      assert ParkedApart(g.parked[c].txns, current[v..]);
      assert current[v] in current[v..];
    }
    assert current == current[..v + 1] + current[v + 1..];
    NoDupPart(current[..v + 1], current[v + 1..]);
    assert current[v] in current[..v + 1] by { assert current[..v + 1][v] == current[v]; }
    forall k | 0 <= k < v + 1 ensures current[k].nonce <= current[v].nonce {
      assert k < v ==> !Before(current[v], current[k], false);
    }
  }

  /** Why the walk ends: an inclusion shrinks what is pending, anything else at most keeps it. */
  lemma PendingAdvance(parked: Parked, current: seq<Txn>, v: nat, after: set<Txn>, ok: bool)
    requires v < |current|
    requires NotParked(parked, current[v]) && current[v] !in current[v + 1..]
    requires after <= if ok then Pending(parked, current[v + 1..]) else Pending(parked, current[v + 1..]) + {current[v]}
    ensures after <= Pending(parked, current[v..]) && current[v] in Pending(parked, current[v..])
    ensures ok ==> after < Pending(parked, current[v..])
  {
    assert current[v..] == [current[v]] + current[v + 1..];
    assert current[v] in Pending(parked, current[v..]);
    assert current[v] !in Pending(parked, current[v + 1..]);
  }

  lemma TriedOnce(start: Nonces, g: Gen, v: nat)
    requires v <= |g.current| && Ready(start, g, v)
    ensures NoDup(g.current[..v])
  {
    assert g.current == g.current[..v] + g.current[v..];
    NoDupPart(g.current[..v], g.current[v..]);
  }

  predicate ListTooFar(l: ParkedTxns, allowed: int) {
    l.txns != [] && l.txns[0].nonce - l.nonce > allowed
  }

  /** A dropped transaction is beyond what its client's nonce allows. */
  lemma TooFarIsTooFar(c: Key, l: ParkedTxns, nonce: int, allowed: int, t: Txn)
    requires ListOk(c, l, nonce) && ListTooFar(l, allowed) && t in l.txns
    ensures t.client == c && t.nonce > nonce + allowed
  {
    SortedHeadFirst(l.txns, t, true);
  }
}
