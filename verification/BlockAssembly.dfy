/**
 Block generation: transactions delivered by the pool in any order are classified by nonce, parked
 or executed, released when their predecessor is included, and finally completed by the miner's own
 built-in transactions.
 */
module BlockAssembly {
  import opened Common
  import opened Transactions
  import opened Parking
  import opened ClientNonces
  import opened AssemblyBooks
  import opened AssemblyProgress

  class Block {
    var txns: seq<Txn>
    var created: int

    constructor (created: int)
      ensures txns == [] && this.created == created
    {
      txns := [];
      this.created := created;
    }
  }

  class BlockState {
    var nonces: Nonces

    constructor (nonces: Nonces)
      ensures this.nonces == nonces
    {
      this.nonces := nonces;
    }
  }

  /** The context has ended, or the round has moved on or timed out. */
  predicate Interrupts(env: Surroundings) {
    env.ctxError.Some? || env.roundAhead || env.roundTimedOut
  }

  class TxnIterInfo {
    var eTxns: seq<Txn>
    var invalidTxns: seq<Txn>
    var pastTxns: seq<Txn>
    var futureTxns: Parked
    var currentTxns: seq<Txn>
    var txnMap: set<Key>
    var roundMismatch: bool
    var roundTimeout: bool
    var count: nat
    var failedStateCount: nat
    var idx: nat
    var byteSize: nat
    var cost: nat

    constructor ()
      ensures eTxns == [] && invalidTxns == [] && pastTxns == [] && futureTxns == map[] && currentTxns == []
      ensures txnMap == {} && !roundMismatch && !roundTimeout
      ensures count == 0 && failedStateCount == 0 && idx == 0 && byteSize == 0 && cost == 0
    {
      eTxns, invalidTxns, pastTxns, futureTxns, currentTxns := [], [], [], map[], [];
      txnMap, roundMismatch, roundTimeout := {}, false, false;
      count, failedStateCount, idx, byteSize, cost := 0, 0, 0, 0, 0;
    }

    /** Releases what the inclusion of `txn` makes executable. */
    method CheckForCurrent(txn: Txn)
      modifies this`pastTxns, this`currentTxns, this`futureTxns
      ensures ReleaseStep(old(futureTxns), old(currentTxns), txn, futureTxns, currentTxns)
      ensures pastTxns == old(pastTxns) + Release(Waiting(old(futureTxns), txn), txn.nonce).past
    {
      hide StableSort, Resume;
      if txn.client !in futureTxns {
        return;
      }
      var futures := futureTxns[txn.client].txns;
      if |futures| == 0 {
        return;
      }
      var currentNonce := txn.nonce;
      var i := 0;
      ghost var past: seq<Txn>, queued: seq<Txn> := [], [];
      assert futures[0..] == futures;
      assert Resume([], [], Release(futures, txn.nonce)) == Release(futures, txn.nonce) by {
        ResumeFromStart(Release(futures, txn.nonce));
      }
      hide Release;
      while i < |futures| && futures[i].nonce - currentNonce <= 1
        invariant 0 <= i <= |futures|
        invariant pastTxns == old(pastTxns) + past
        invariant currentTxns == old(currentTxns) + queued
        invariant futureTxns == old(futureTxns)
        invariant Release(futures, txn.nonce) == Resume(past, queued, Release(futures[i..], currentNonce))
      {
        ReleaseAdvance(past, queued, futures, i, currentNonce);
        if futures[i].nonce - currentNonce < 1 {
          pastTxns := pastTxns + [futures[i]];
          past := past + [futures[i]];
        } else {
          currentNonce := futures[i].nonce;
          currentTxns := currentTxns + [futures[i]];
          queued := queued + [futures[i]];
        }
        i := i + 1;
      }
      ReleaseDone(past, queued, futures, i, currentNonce);
      currentTxns := StableSort(currentTxns, false);
      futureTxns := futureTxns[txn.client := ParkedTxns(currentNonce, futures[i..])];
    }

    /** Puts a transaction that came too early into its client's list. */
    method Park(txn: Txn, nonce: int)
      modifies this`futureTxns
      ensures futureTxns == old(futureTxns)[txn.client := ParkedWith(old(futureTxns), txn, nonce)]
    {
      hide StableSort;
      var list := ParkedTxns(0, []);
      if txn.client in futureTxns {
        list := futureTxns[txn.client];
      }
      if list.nonce < nonce {
        list := list.(nonce := nonce);
      }
      list := list.(txns := StableSort(list.txns + [txn], true));
      futureTxns := futureTxns[txn.client := list];
    }

    /** Books an executed transaction and releases its successors. */
    method Include(b: Block, st: BlockState, txn: Txn, env: Surroundings, nonces: Nonces,
                   ghost start: Nonces, ghost v: nat)
      requires v <= |currentTxns|
      requires Ready(start, Gen(b.txns, st.nonces, eTxns, idx, txnMap, futureTxns, currentTxns), v)
      requires forall k :: 0 <= k < v ==> currentTxns[k].nonce <= txn.nonce
      requires txn.key !in txnMap && Execute(st.nonces, txn, env.touched) == Some(nonces)
      modifies `eTxns, `pastTxns, `futureTxns, `currentTxns, `txnMap, `idx, `byteSize, b`txns, st
      ensures v <= |currentTxns| && Ready(start, Gen(b.txns, st.nonces, eTxns, idx, txnMap, futureTxns, currentTxns), v)
      ensures st.nonces == nonces && b.txns == old(b.txns) + [txn]
      ensures currentTxns[..v] == old(currentTxns[..v])
      ensures Pending(futureTxns, currentTxns[v..]) <= Pending(old(futureTxns), old(currentTxns)[v..])
      ensures ReleaseStep(old(futureTxns), old(currentTxns), txn, futureTxns, currentTxns)
      ensures pastTxns == old(pastTxns) + Release(Waiting(old(futureTxns), txn), txn.nonce).past
      ensures byteSize == old(byteSize) + txn.dataSize + env.outputSize
    {
      hide Consecutive, ParkedOk, QueueOk, Pending, ReleaseStep, KeysOf, DistinctKeys, Release, Waiting, Execute;
      ConsecutiveExtend(start, b.txns, st.nonces, txn, env.touched, nonces);
      AccountedExtend(b.txns, txn);
      st.nonces := nonces;
      txnMap := txnMap + {txn.key};
      b.txns := b.txns + [txn];
      eTxns := eTxns + [txn];
      byteSize := byteSize + txn.dataSize + env.outputSize;
      idx := idx + 1;
      CheckForCurrent(txn);
      AfterInclusion(old(futureTxns), old(currentTxns), old(st.nonces), nonces, txn, v, futureTxns, currentTxns);
    }

    method ParkFuture(b: Block, st: BlockState, txn: Txn, ghost start: Nonces, ghost v: nat)
      requires v <= |currentTxns|
      requires Ready(start, Gen(b.txns, st.nonces, eTxns, idx, txnMap, futureTxns, currentTxns), v)
      requires NotParked(futureTxns, txn) && txn !in currentTxns[v..]
      requires txn.nonce > NonceOf(st.nonces, txn.client) + 1
      modifies `futureTxns
      ensures v <= |currentTxns| && Ready(start, Gen(b.txns, st.nonces, eTxns, idx, txnMap, futureTxns, currentTxns), v)
      ensures futureTxns == old(futureTxns)[txn.client :=
                ParkedWith(old(futureTxns), txn, NonceOf(st.nonces, txn.client))]
      ensures Pending(futureTxns, currentTxns[v..]) <= Pending(old(futureTxns), old(currentTxns)[v..]) + {txn}
    {
      hide Consecutive, ParkedOk, QueueOk, Pending, StableSort, KeysOf, DistinctKeys, NotParked, Waiting;
      ghost var was := futureTxns;
      ghost var l' := ParkedWith(was, txn, NonceOf(st.nonces, txn.client));
      assert ParksInto(was, st.nonces, txn, l');
      ParkingKeepsLists(was, st.nonces, txn, l');
      ParkingKeepsQueue(was, st.nonces, currentTxns, v, txn, l');
      ParkingGrowsPending(was, st.nonces, currentTxns[v..], txn, l');
      Park(txn, if txn.client in st.nonces then st.nonces[txn.client] else 0);
    }

    /** Books a transaction that cannot be executed now: past, future, or outside the time window. */
    method SetAside(b: Block, st: BlockState, txn: Txn, verdict: Verdict, ghost start: Nonces, ghost v: nat)
      requires v <= |currentTxns|
      requires Ready(start, Gen(b.txns, st.nonces, eTxns, idx, txnMap, futureTxns, currentTxns), v)
      requires verdict.Past? || verdict.Future? || verdict.NotTolerant?
      requires verdict.Future? ==> txn.nonce > NonceOf(st.nonces, txn.client) + 1
      requires NotParked(futureTxns, txn) && txn !in currentTxns[v..]
      modifies `invalidTxns, `pastTxns, `futureTxns
      ensures v <= |currentTxns| && Ready(start, Gen(b.txns, st.nonces, eTxns, idx, txnMap, futureTxns, currentTxns), v)
      ensures Pending(futureTxns, currentTxns[v..]) <= Pending(old(futureTxns), old(currentTxns)[v..]) + {txn}
      ensures pastTxns == if verdict.Past? then old(pastTxns) + [txn] else old(pastTxns)
      ensures invalidTxns == if verdict.NotTolerant? then old(invalidTxns) + [txn] else old(invalidTxns)
      ensures futureTxns == if verdict.Future?
                then old(futureTxns)[txn.client := ParkedWith(old(futureTxns), txn, NonceOf(st.nonces, txn.client))]
                else old(futureTxns)
    {
      hide Ready, Pending, NotParked, ParkedWith;
      if verdict.Past? {
        pastTxns := pastTxns + [txn];
      } else if verdict.Future? {
        ParkFuture(b, st, txn, start, v);
      } else {
        invalidTxns := invalidTxns + [txn];
      }
    }

    /**
     Classifies one transaction and, if its nonce is next and execution succeeds, includes it. The
     generator stays `Ready`; visited queue entries do not move; what is pending only shrinks on an
     inclusion and otherwise grows at most by `txn` itself.
     */
    method ProcessTxn(cfg: Config, b: Block, st: BlockState, txn: Txn, env: Surroundings,
                      ghost start: Nonces, ghost v: nat)
      returns (ok: bool, err: Option<Fault>)
      requires v <= |currentTxns|
      requires Ready(start, Gen(b.txns, st.nonces, eTxns, idx, txnMap, futureTxns, currentTxns), v)
      requires forall k :: 0 <= k < v ==> currentTxns[k].nonce <= txn.nonce
      requires NotParked(futureTxns, txn) && txn !in currentTxns[v..]
      modifies `eTxns, `invalidTxns, `pastTxns, `futureTxns, `currentTxns, `txnMap
      modifies `failedStateCount, `idx, `byteSize, b`txns, st
      ensures v <= |currentTxns| && Ready(start, Gen(b.txns, st.nonces, eTxns, idx, txnMap, futureTxns, currentTxns), v)
      ensures currentTxns[..v] == old(currentTxns[..v])
      ensures ok <==>
              Includable(cfg, b.created,
                         old(Gen(b.txns, st.nonces, eTxns, idx, txnMap, futureTxns, currentTxns)), txn, env)
      ensures err == if Breaks(cfg, b.created,
                               old(Gen(b.txns, st.nonces, eTxns, idx, txnMap, futureTxns, currentTxns)), txn, env)
                     then Some(InvalidState) else None
      ensures Handled(cfg, b.created,
                      old(Gen(b.txns, st.nonces, eTxns, idx, txnMap, futureTxns, currentTxns)),
                      old(Aside(pastTxns, invalidTxns)), txn, env,
                      Gen(b.txns, st.nonces, eTxns, idx, txnMap, futureTxns, currentTxns),
                      Aside(pastTxns, invalidTxns))
      ensures err.Some? ==> !ok
      ensures ok ==> b.txns == old(b.txns) + [txn] && WithinTime(b.created, txn.created, cfg.timeTolerance)
      ensures ok ==> Pending(futureTxns, currentTxns[v..]) <= Pending(old(futureTxns), old(currentTxns)[v..])
      ensures !ok ==> b.txns == old(b.txns) && st.nonces == old(st.nonces) && currentTxns == old(currentTxns)
      ensures !ok ==> Pending(futureTxns, currentTxns[v..]) <= Pending(old(futureTxns), old(currentTxns)[v..]) + {txn}
      ensures byteSize == if ok then old(byteSize) + txn.dataSize + env.outputSize else old(byteSize)
    {
      hide Ready, Pending, NotParked, Execute, Validate, UpdateState, ParkedWith, WithinTime, ReleaseStep, Release,
        Waiting;
      ok, err := false, None;
      if txn.key in txnMap {
        return;
      }
      var verdict := Validate(cfg, b.created, st.nonces, txn, env.lookupFault);
      if verdict.Past? || verdict.Future? || verdict.NotTolerant? {
        SetAside(b, st, txn, verdict, start, v);
        return;
      }
      if verdict.LookupFailed? && verdict.fault == InvalidState {
        err := Some(InvalidState);
        return;
      }
      var updated := UpdateState(st.nonces, txn, env);
      if updated.Err? {
        failedStateCount := failedStateCount + 1;
        if updated.error == InvalidState {
          err := Some(InvalidState);
        }
        return;
      }
      Include(b, st, txn, env, updated.value, start, v);
      ok := true;
    }

    /** Processes a transaction within the cost limit and adds its cost, as both passes do. */
    method TryTxn(cfg: Config, b: Block, st: BlockState, txn: Txn, env: Surroundings, ghost start: Nonces,
                  ghost base: nat, ghost v: nat, ghost seen: set<Txn>, ghost all: set<Txn>, ghost out: nat)
      returns (ok: bool, err: Option<Fault>)
      requires v <= |currentTxns|
      requires Ready(start, Gen(b.txns, st.nonces, eTxns, idx, txnMap, futureTxns, currentTxns), v)
      requires CostOk(cfg, base, b.txns, cost) && Timely(cfg, b.created, b.txns)
      requires cost + cfg.costOf(txn.payload) < cfg.maxCost
      requires forall k :: 0 <= k < v ==> currentTxns[k].nonce <= txn.nonce
      requires NotParked(futureTxns, txn) && txn !in currentTxns[v..]
      modifies `eTxns, `invalidTxns, `pastTxns, `futureTxns, `currentTxns, `txnMap
      modifies `failedStateCount, `idx, `byteSize, `cost, b`txns, st
      ensures v <= |currentTxns| && Ready(start, Gen(b.txns, st.nonces, eTxns, idx, txnMap, futureTxns, currentTxns), v)
      ensures CostOk(cfg, base, b.txns, cost) && Timely(cfg, b.created, b.txns)
      ensures currentTxns[..v] == old(currentTxns[..v])
      ensures ok ==> err.None?
      ensures !ok ==> currentTxns == old(currentTxns)
      ensures b.txns == if ok then old(b.txns) + [txn] else old(b.txns)
      ensures Pending(futureTxns, currentTxns[v..]) <=
                Pending(old(futureTxns), old(currentTxns)[v..]) + (if ok then {} else {txn})
      ensures Favourable(cfg, base, out, all) && Calm(env, out) && seen <= all &&
              old(InHand(cfg, b.created, Gen(b.txns, st.nonces, eTxns, idx, txnMap, futureTxns, currentTxns), v,
                         txn, seen, out, byteSize)) ==>
                && err.None?
                && Progress(cfg, b.created, Gen(b.txns, st.nonces, eTxns, idx, txnMap, futureTxns, currentTxns), v,
                            seen, out, byteSize)
    {
      hide Ready, Pending, CostOk, Timely, NotParked, Moved, Handled, Includable, Breaks, Favourable, Progress, InHand,
        Calm, SumCost, WithinTime;
      ghost var g := Gen(b.txns, st.nonces, eTxns, idx, txnMap, futureTxns, currentTxns);
      ghost var a, was := Aside(pastTxns, invalidTxns), byteSize;
      ghost var smooth := Favourable(cfg, base, out, all) && Calm(env, out) && seen <= all &&
                          InHand(cfg, b.created, g, v, txn, seen, out, byteSize);
      if smooth {
        InHandFits(cfg, b.created, start, base, g, v, txn, seen, all, out, byteSize, cost, env);
      }
      ok, err := ProcessTxn(cfg, b, st, txn, env, start, v);
      if smooth {
        ProgressStep(cfg, b.created, start, g, a, v, txn, env,
                     Gen(b.txns, st.nonces, eTxns, idx, txnMap, futureTxns, currentTxns),
                     Aside(pastTxns, invalidTxns), seen, out, was, byteSize);
      }
      if ok {
        CostExtend(cfg, base, g.txns, cost, txn);
        TimelyExtend(cfg, b.created, g.txns, txn);
        cost := cost + cfg.costOf(txn.payload);
      }
    }

    /** One pool delivery: checks that come before the nonce, then `ProcessTxn`. */
    method HandlePoolItem(cfg: Config, b: Block, st: BlockState, item: Option<Txn>, env: Surroundings,
                          ghost start: Nonces, ghost base: nat, ghost seen: set<Txn>,
                          ghost all: set<Txn>, ghost out: nat)
      returns (more: bool, err: Option<IterError>)
      requires Ready(start, Gen(b.txns, st.nonces, eTxns, idx, txnMap, futureTxns, currentTxns), 0)
      requires CostOk(cfg, base, b.txns, cost) && Timely(cfg, b.created, b.txns)
      requires Pending(futureTxns, currentTxns[0..]) <= seen
      requires item.Some? ==> item.value !in seen
      modifies this, b`txns, st
      ensures Ready(start, Gen(b.txns, st.nonces, eTxns, idx, txnMap, futureTxns, currentTxns), 0)
      ensures CostOk(cfg, base, b.txns, cost) && Timely(cfg, b.created, b.txns)
      ensures Pending(futureTxns, currentTxns[0..]) <= if item.Some? then seen + {item.value} else seen
      ensures b.txns == old(b.txns) || (item.Some? && b.txns == old(b.txns) + [item.value])
      ensures err.Some? ==> !more
      ensures Interrupts(env) ==> !more && b.txns == old(b.txns)
      ensures env.ctxError.Some? ==> err == Some(IterCtx(env.ctxError.value))
      ensures roundMismatch == (old(roundMismatch) || (env.ctxError.None? && env.roundAhead))
      ensures roundTimeout == (old(roundTimeout) || (env.ctxError.None? && !env.roundAhead && env.roundTimedOut))
      ensures !Interrupts(env) && item.None? ==> more && b.txns == old(b.txns)
      ensures !Interrupts(env) && item.Some? ==>
        var t := item.value;
        && (t.value > cfg.maxSupply ==> err == Some(IterOther) && invalidTxns == old(invalidTxns) + [t])
        && (t.value <= cfg.maxSupply && env.costFault == Some(InvalidState) ==> err == Some(IterInvalidState))
        && (t.value <= cfg.maxSupply && env.costFault.None? && !env.feeAccepted ==>
              more && invalidTxns == old(invalidTxns) + [t])
        && (t.value > cfg.maxSupply || env.costFault.Some? || !env.feeAccepted ==> b.txns == old(b.txns))
        && (old(cost) + cfg.costOf(t.payload) >= cfg.maxCost ==> b.txns == old(b.txns))
        && (b.txns != old(b.txns) ==> (more <==> byteSize < cfg.maxByteSize))
      ensures Favourable(cfg, base, out, all) && Calm(env, out) && seen <= all && (item.Some? ==> item.value in all) &&
              old(Progress(cfg, b.created, Gen(b.txns, st.nonces, eTxns, idx, txnMap, futureTxns, currentTxns), 0,
                           seen, out, byteSize)) ==>
                && more && roundMismatch == old(roundMismatch) && roundTimeout == old(roundTimeout)
                && Progress(cfg, b.created, Gen(b.txns, st.nonces, eTxns, idx, txnMap, futureTxns, currentTxns), 0,
                            if item.Some? then seen + {item.value} else seen, out, byteSize)
    {
      hide Ready, Pending, CostOk, Timely, NotParked, Favourable, Progress, InHand;
      ghost var smooth := Favourable(cfg, base, out, all) && Calm(env, out) && seen <= all &&
                          (item.Some? ==> item.value in all) &&
                          Progress(cfg, b.created,
                                   Gen(b.txns, st.nonces, eTxns, idx, txnMap, futureTxns, currentTxns), 0,
                                   seen, out, byteSize);
      if smooth && item.Some? {
        DeliveryInHand(cfg, b.created, Gen(b.txns, st.nonces, eTxns, idx, txnMap, futureTxns, currentTxns),
                       item.value, seen, out, byteSize);
        PermittedAmount(cfg, base, out, all, item.value);
        InHandFits(cfg, b.created, start, base, Gen(b.txns, st.nonces, eTxns, idx, txnMap, futureTxns, currentTxns), 0,
                   item.value, seen + {item.value}, all, out, byteSize, cost, env);
      }
      count := count + 1;
      more, err := false, None;
      if env.ctxError.Some? {
        err := Some(IterCtx(env.ctxError.value));
        return;
      }
      if env.roundAhead {
        roundMismatch := true;
        return;
      }
      if env.roundTimedOut {
        roundTimeout := true;
        return;
      }
      if item.None? {
        more := true;
        return;
      }
      var txn := item.value;
      if txn.value > cfg.maxSupply {
        invalidTxns := invalidTxns + [txn];
        err := Some(IterOther);
        return;
      }
      if env.costFault.Some? {
        if env.costFault.value == InvalidState {
          err := Some(IterInvalidState);
        } else {
          more := true;
        }
        return;
      }
      if !env.feeAccepted {
        invalidTxns := invalidTxns + [txn];
        more := true;
        return;
      }
      if cost + cfg.costOf(txn.payload) >= cfg.maxCost {
        more := true;
        return;
      }
      NotPendingApart(futureTxns, currentTxns[0..], txn);
      var ok, fault := TryTxn(cfg, b, st, txn, env, start, base, 0, seen + {txn}, all, out);
      if fault.Some? {
        err := Some(IterInvalidState);
        return;
      }
      more := true;
      if ok && byteSize >= cfg.maxByteSize {
        if smooth {
          WithinLimits(cfg, b.created, start, base,
                       Gen(b.txns, st.nonces, eTxns, idx, txnMap, futureTxns, currentTxns), 0,
                       seen + {txn}, all, out, byteSize, cost);
        }
        more := false;
      }
    }

    /** First pass: the pool, in whatever order it delivers. */
    method PoolPass(cfg: Config, b: Block, st: BlockState, pool: seq<Option<Txn>>, storeError: Option<IterError>,
                    env: nat -> Surroundings, ghost start: Nonces, ghost base: nat, ghost out: nat)
      returns (err: Option<IterError>)
      requires DistinctPool(pool)
      requires Ready(start, Gen(b.txns, st.nonces, eTxns, idx, txnMap, futureTxns, currentTxns), 0)
      requires CostOk(cfg, base, b.txns, cost) && Timely(cfg, b.created, b.txns)
      requires Pending(futureTxns, currentTxns[0..]) == {} && b.txns == []
      modifies this, b`txns, st
      ensures Ready(start, Gen(b.txns, st.nonces, eTxns, idx, txnMap, futureTxns, currentTxns), 0)
      ensures CostOk(cfg, base, b.txns, cost) && Timely(cfg, b.created, b.txns)
      ensures Pending(futureTxns, currentTxns[0..]) <= Seen(pool, |pool|) && AllIn(b.txns, Seen(pool, |pool|))
      ensures Favourable(cfg, base, out, Seen(pool, |pool|)) && storeError.None? &&
              (forall k :: 0 <= k < |pool| ==> Calm(env(k), out)) &&
              old(Progress(cfg, b.created, Gen(b.txns, st.nonces, eTxns, idx, txnMap, futureTxns, currentTxns), 0,
                           Seen(pool, 0), out, byteSize)) ==>
                && err.None? && roundMismatch == old(roundMismatch) && roundTimeout == old(roundTimeout)
                && Progress(cfg, b.created, Gen(b.txns, st.nonces, eTxns, idx, txnMap, futureTxns, currentTxns), 0,
                            Seen(pool, |pool|), out, byteSize)
    {
      hide Ready, Pending, CostOk, Timely, Seen, DistinctPool, AllIn, Favourable, Calm, Progress;
      ghost var smooth := Favourable(cfg, base, out, Seen(pool, |pool|)) && storeError.None? &&
        (forall k :: 0 <= k < |pool| ==> Calm(env(k), out)) &&
        Progress(cfg, b.created, Gen(b.txns, st.nonces, eTxns, idx, txnMap, futureTxns, currentTxns), 0,
                 Seen(pool, 0), out, byteSize);
      var k := 0;
      AllInEmpty(Seen(pool, 0));
      err := None;
      var more := true;
      while more && k < |pool|
        invariant k <= |pool|
        invariant err.Some? ==> !more
        invariant Ready(start, Gen(b.txns, st.nonces, eTxns, idx, txnMap, futureTxns, currentTxns), 0)
        invariant CostOk(cfg, base, b.txns, cost) && Timely(cfg, b.created, b.txns)
        invariant Pending(futureTxns, currentTxns[0..]) <= Seen(pool, k) && AllIn(b.txns, Seen(pool, k))
        invariant smooth ==>
          && more && roundMismatch == old(roundMismatch) && roundTimeout == old(roundTimeout)
          && Progress(cfg, b.created, Gen(b.txns, st.nonces, eTxns, idx, txnMap, futureTxns, currentTxns), 0,
                      Seen(pool, k), out, byteSize)
      {
        SeenNext(pool, k);
        SeenMonotone(pool, k);
        SeenMonotone(pool, k + 1);
        ghost var was := b.txns;
        more, err := HandlePoolItem(cfg, b, st, pool[k], env(k), start, base, Seen(pool, k), Seen(pool, |pool|), out);
        AllInExtend(was, Seen(pool, k), pool[k], b.txns, Seen(pool, k + 1));
        k := k + 1;
      }
      SeenMonotone(pool, k);
      AllInExtend(b.txns, Seen(pool, k), None, b.txns, Seen(pool, |pool|));
      if more && k == |pool| {
        err := storeError;
      }
    }

    /** Processes the queue entry at `i`: it is not touched again, and what is pending does not grow. */
    method TryEntry(cfg: Config, b: Block, st: BlockState, i: nat, env: Surroundings, ghost start: Nonces,
                    ghost base: nat, ghost all: set<Txn>, ghost out: nat)
      returns (ok: bool, err: Option<Fault>)
      requires i < |currentTxns| && cost + cfg.costOf(currentTxns[i].payload) < cfg.maxCost
      requires Ready(start, Gen(b.txns, st.nonces, eTxns, idx, txnMap, futureTxns, currentTxns), i)
      requires CostOk(cfg, base, b.txns, cost) && Timely(cfg, b.created, b.txns)
      requires Pending(futureTxns, currentTxns[i..]) <= all && AllIn(b.txns, all)
      modifies `eTxns, `invalidTxns, `pastTxns, `futureTxns, `currentTxns, `txnMap
      modifies `failedStateCount, `idx, `byteSize, `cost, b`txns, st
      ensures i < |currentTxns| && currentTxns[..i + 1] == old(currentTxns[..i + 1])
      ensures Ready(start, Gen(b.txns, st.nonces, eTxns, idx, txnMap, futureTxns, currentTxns), i + 1)
      ensures CostOk(cfg, base, b.txns, cost) && Timely(cfg, b.created, b.txns)
      ensures |b.txns| == |old(b.txns)| + (if ok then 1 else 0) && AllIn(b.txns, all)
      ensures Pending(futureTxns, currentTxns[i + 1..]) <= Pending(old(futureTxns), old(currentTxns)[i..])
      ensures if ok then Pending(futureTxns, currentTxns[i + 1..]) != Pending(old(futureTxns), old(currentTxns)[i..])
              else currentTxns == old(currentTxns)
      ensures ok ==> err.None?
      ensures Favourable(cfg, base, out, all) && Calm(env, out) &&
              old(Progress(cfg, b.created, Gen(b.txns, st.nonces, eTxns, idx, txnMap, futureTxns, currentTxns), i,
                           all, out, byteSize)) ==>
                && err.None?
                && Progress(cfg, b.created, Gen(b.txns, st.nonces, eTxns, idx, txnMap, futureTxns, currentTxns),
                            i + 1, all, out, byteSize)
    {
      hide Ready, Pending, CostOk, Timely, NotParked, AllIn, Favourable, Progress, InHand, Calm;
      var txn := currentTxns[i];
      ghost var before := Gen(b.txns, st.nonces, eTxns, idx, txnMap, futureTxns, currentTxns);
      ReadyAdvance(start, before, i);
      if Progress(cfg, b.created, before, i, all, out, byteSize) {
        EntryInHand(cfg, b.created, before, i, all, out, byteSize);
      }
      EntryPending(before, i);
      ok, err := TryTxn(cfg, b, st, txn, env, start, base, i + 1, all, all, out);
      PendingAdvance(before.parked, before.current, i, Pending(futureTxns, currentTxns[i + 1..]), ok);
      AllInExtend(before.txns, all, Some(txn), b.txns, all);
    }

    /**
     Second pass: walks the queue by index while inclusions append to it and re-sort it. `tried` are
     the transactions handed to `ProcessTxn`, in order: always the front of the queue, none twice.
     */
    method QueuePass(cfg: Config, b: Block, st: BlockState, env: nat -> Surroundings,
                     ghost start: Nonces, ghost base: nat, ghost all: set<Txn>, ghost out: nat)
      returns (rcount: nat, ghost tried: seq<Txn>)
      requires Ready(start, Gen(b.txns, st.nonces, eTxns, idx, txnMap, futureTxns, currentTxns), 0)
      requires Pending(futureTxns, currentTxns[0..]) <= all && AllIn(b.txns, all)
      requires CostOk(cfg, base, b.txns, cost) && Timely(cfg, b.created, b.txns)
      modifies this, b`txns, st
      ensures |tried| <= |currentTxns| && tried == currentTxns[..|tried|] && NoDup(tried)
      ensures Ready(start, Gen(b.txns, st.nonces, eTxns, idx, txnMap, futureTxns, currentTxns), |tried|)
      ensures CostOk(cfg, base, b.txns, cost) && Timely(cfg, b.created, b.txns)
      ensures |b.txns| == |old(b.txns)| + rcount && AllIn(b.txns, all)
      ensures roundMismatch == old(roundMismatch) && roundTimeout == old(roundTimeout)
      ensures old(byteSize) >= cfg.maxByteSize ==> b.txns == old(b.txns)
      ensures Favourable(cfg, base, out, all) && (forall k :: Calm(env(k), out)) &&
              old(Progress(cfg, b.created, Gen(b.txns, st.nonces, eTxns, idx, txnMap, futureTxns, currentTxns), 0,
                           all, out, byteSize)) ==>
                && |tried| == |currentTxns|
                && Progress(cfg, b.created, Gen(b.txns, st.nonces, eTxns, idx, txnMap, futureTxns, currentTxns),
                            |tried|, all, out, byteSize)
    {
      hide Ready, Pending, CostOk, Timely, NoDup, AllIn, Favourable, Progress, Calm;
      ghost var smooth := Favourable(cfg, base, out, all) && (forall k :: Calm(env(k), out)) &&
        Progress(cfg, b.created, Gen(b.txns, st.nonces, eTxns, idx, txnMap, futureTxns, currentTxns), 0,
                 all, out, byteSize);
      rcount, tried := 0, [];
      var i := 0;
      while i < |currentTxns| && cost < cfg.maxCost && byteSize < cfg.maxByteSize
        invariant i == |tried| <= |currentTxns| && tried == currentTxns[..i]
        invariant Ready(start, Gen(b.txns, st.nonces, eTxns, idx, txnMap, futureTxns, currentTxns), i)
        invariant CostOk(cfg, base, b.txns, cost) && Timely(cfg, b.created, b.txns)
        invariant |b.txns| == |old(b.txns)| + rcount
        invariant old(byteSize) >= cfg.maxByteSize ==> b.txns == old(b.txns) && byteSize == old(byteSize)
        invariant Pending(futureTxns, currentTxns[i..]) <= all && AllIn(b.txns, all)
        invariant roundMismatch == old(roundMismatch) && roundTimeout == old(roundTimeout)
        invariant smooth ==>
          Progress(cfg, b.created, Gen(b.txns, st.nonces, eTxns, idx, txnMap, futureTxns, currentTxns),
                   i, all, out, byteSize)
        decreases Pending(futureTxns, currentTxns[i..]), |currentTxns| - i
      {
        var e := env(i);
        if e.costFault.Some? {
          assert !smooth by { CalmHasCost(e, out); }
          break;
        }
        if smooth {
          EntryFits(cfg, b.created, start, base, Gen(b.txns, st.nonces, eTxns, idx, txnMap, futureTxns, currentTxns),
                    i, all, out, byteSize, cost, e);
        }
        if cost + cfg.costOf(currentTxns[i].payload) >= cfg.maxCost {
          break;
        }
        var ok, fault := TryEntry(cfg, b, st, i, e, start, base, all, out);
        tried := currentTxns[..i + 1];
        i := i + 1;
        if fault.Some? {
          break;
        }
        if ok {
          rcount := rcount + 1;
        }
      }
      if smooth {
        WithinLimits(cfg, b.created, start, base,
                     Gen(b.txns, st.nonces, eTxns, idx, txnMap, futureTxns, currentTxns), i,
                     all, all, out, byteSize, cost);
      }
      TriedOnce(start, Gen(b.txns, st.nonces, eTxns, idx, txnMap, futureTxns, currentTxns), i);
    }

    /**
     The parked transactions dropped from the pool at the end: whole lists whose first entry is too
     far ahead of the nonce the list has reached.
     */
    method TooFarAhead(allowed: int) returns (txns: seq<Txn>)
      ensures forall t :: t in txns <==>
                exists c :: c in futureTxns && ListTooFar(futureTxns[c], allowed) && t in futureTxns[c].txns
    {
      txns := [];
      var left := futureTxns.Keys;
      while left != {}
        invariant left <= futureTxns.Keys
        invariant forall t :: t in txns <==>
                    exists c :: c in futureTxns && c !in left &&
                                ListTooFar(futureTxns[c], allowed) && t in futureTxns[c].txns
        decreases left
      {
        var c :| c in left;
        if ListTooFar(futureTxns[c], allowed) {
          txns := txns + futureTxns[c].txns;
        }
        left := left - {c};
      }
    }
  }

  datatype Reason =
    | LfbStateMissing | BuiltInCostUnknown | StateInvalid | RoundMismatch | RoundTimedOut
    | ContextCanceled | PoolFailed | MinerNonceUnknown | InsufficientTxns | ClientsUnknown | NotSigned

  /** The cost of the built-in transactions; an estimate that fails stops the generation. */
  method BuiltInCost(cfg: Config, builtIns: seq<Txn>, env: nat -> Surroundings) returns (r: Result<nat, Fault>)
    ensures r.Ok? <==> forall i :: 0 <= i < |builtIns| ==> env(i).costFault.None?
    ensures r.Ok? ==> r.value == SumCost(cfg.costOf, builtIns)
    ensures r.Err? ==> exists i: nat :: i < |builtIns| && env(i).costFault == Some(r.error) &&
                         forall j: nat :: j < i ==> env(j).costFault.None?
  {
    var cost := 0;
    for i := 0 to |builtIns|
      invariant cost == SumCost(cfg.costOf, builtIns[..i])
      invariant forall j: nat :: j < i ==> env(j).costFault.None?
    {
      if env(i).costFault.Some? {
        return Err(env(i).costFault.value);
      }
      SumCostAppend(cfg.costOf, builtIns[..i], builtIns[i]);
      assert builtIns[..i + 1] == builtIns[..i] + [builtIns[i]];
      cost := cost + cfg.costOf(builtIns[i].payload);
    }
    assert builtIns[..|builtIns|] == builtIns;
    return Ok(cost);
  }

  /** Everything the built-in pass promises about the block it extends. */
  ghost predicate Extended(cfg: Config, miner: Key, start: Nonces, created: int,
                           txns0: seq<Txn>, nonces0: Nonces, txns: seq<Txn>, nonces: Nonces, extra: nat)
  {
    && Consecutive(start, txns, nonces)
    && Timely(cfg, created, txns)
    && txns0 <= txns
    && SumCost(cfg.costOf, txns) <= SumCost(cfg.costOf, txns0) + extra
    && forall c :: c != miner ==> NonceOf(nonces, c) == NonceOf(nonces0, c)
  }

  lemma ExtendedStart(cfg: Config, miner: Key, start: Nonces, created: int, txns: seq<Txn>, nonces: Nonces)
    requires Consecutive(start, txns, nonces) && Timely(cfg, created, txns)
    ensures Extended(cfg, miner, start, created, txns, nonces, txns, nonces, 0)
  {
  }

  lemma ExtendedByOne(cfg: Config, miner: Key, start: Nonces, created: int, txns0: seq<Txn>, nonces0: Nonces,
                      txns: seq<Txn>, nonces: Nonces, extra: nat, t: Txn, touched: set<Key>, nonces': Nonces)
    requires Extended(cfg, miner, start, created, txns0, nonces0, txns, nonces, extra)
    requires t.client == miner && t.created == created && Execute(nonces, t, touched) == Some(nonces')
    ensures Extended(cfg, miner, start, created, txns0, nonces0, txns + [t], nonces', extra + cfg.costOf(t.payload))
  {
    hide Consecutive, Execute;
    ConsecutiveExtend(start, txns, nonces, t, touched, nonces');
    SumCostAppend(cfg.costOf, txns, t);
    TimelyExtend(cfg, created, txns, t);
  }

  lemma ExtendedMore(cfg: Config, miner: Key, start: Nonces, created: int, txns0: seq<Txn>, nonces0: Nonces,
                     txns: seq<Txn>, nonces: Nonces, extra: nat, more: nat)
    requires Extended(cfg, miner, start, created, txns0, nonces0, txns, nonces, extra) && extra <= more
    ensures Extended(cfg, miner, start, created, txns0, nonces0, txns, nonces, more)
  {
  }

  /** Transactions with the nonces that follow `nonce`. */
  function Numbered(txns: seq<Txn>, nonce: int): (r: seq<Txn>)
    ensures |r| == |txns| && forall i :: 0 <= i < |txns| ==> r[i] == txns[i].(nonce := nonce + 1 + i)
  {
    seq(|txns|, i requires 0 <= i < |txns| => txns[i].(nonce := nonce + 1 + i))
  }

  lemma NumberedNext(txns: seq<Txn>, nonce: int, k: nat)
    requires k < |txns|
    ensures Numbered(txns[..k + 1], nonce) == Numbered(txns[..k], nonce) + [txns[k].(nonce := nonce + 1 + k)]
  {
  }

  /** Nothing goes wrong with the first `n` built-in transactions, and the miner's nonce is taken from the state. */
  predicate CalmBuiltIns(env: nat -> Surroundings, n: nat) {
    forall k :: 0 <= k < n ==>
      env(k).costFault.None? && env(k).lookupFault.None? && env(k).updateFault.None? && env(k).selfNonce.None?
  }

  /** The miner's own transactions, each given the miner's next nonce at its turn. */
  method AddBuiltIns(cfg: Config, b: Block, st: BlockState, builtIns: seq<Txn>, miner: Key, size: nat,
                     waitOver: bool, env: nat -> Surroundings, ghost start: Nonces)
    returns (reason: Option<Reason>)
    requires forall t :: t in builtIns ==> t.client == miner && t.created == b.created
    requires Consecutive(start, b.txns, st.nonces) && Timely(cfg, b.created, b.txns)
    modifies b`txns, st
    ensures reason.None? ==> Extended(cfg, miner, start, b.created, old(b.txns), old(st.nonces), b.txns, st.nonces,
                                      SumCost(cfg.costOf, builtIns))
    ensures CalmBuiltIns(env, |builtIns|) && (waitOver || size + 1 >= cfg.minBlockSize) ==>
              reason.None? && b.txns == old(b.txns) + Numbered(builtIns, NonceOf(old(st.nonces), miner))
  {
    hide Consecutive, Timely, Execute, SumCost, Extended, Numbered;
    ghost var smooth := CalmBuiltIns(env, |builtIns|) && (waitOver || size + 1 >= cfg.minBlockSize);
    assert b.txns + [] == b.txns;
    var blockSize := size;
    var k := 0;
    ExtendedStart(cfg, miner, start, b.created, b.txns, st.nonces);
    SumCostEmpty(cfg.costOf);
    assert builtIns[..0] == [];
    while k < |builtIns|
      invariant k <= |builtIns|
      invariant Extended(cfg, miner, start, b.created, old(b.txns), old(st.nonces), b.txns, st.nonces,
                         SumCost(cfg.costOf, builtIns[..k]))
      invariant blockSize == size + k
      invariant smooth ==> b.txns == old(b.txns) + Numbered(builtIns[..k], NonceOf(old(st.nonces), miner)) &&
                           NonceOf(st.nonces, miner) == NonceOf(old(st.nonces), miner) + k
    {
      var e := env(k);
      if e.lookupFault.Some? {
        return Some(MinerNonceUnknown);
      }
      var next := if miner !in st.nonces then 1
                  else if e.selfNonce.Some? then e.selfNonce.value else st.nonces[miner] + 1;
      var txn := builtIns[k].(nonce := next);
      assert builtIns[k] in builtIns;
      assert builtIns[..k + 1] == builtIns[..k] + [builtIns[k]];
      SumCostAppend(cfg.costOf, builtIns[..k], builtIns[k]);
      NumberedNext(builtIns, NonceOf(old(st.nonces), miner), k);
      var updated := UpdateState(st.nonces, txn, e);
      if updated.Ok? {
        ExtendedByOne(cfg, miner, start, b.created, old(b.txns), old(st.nonces), b.txns, st.nonces,
                      SumCost(cfg.costOf, builtIns[..k]), txn, e.touched, updated.value);
        st.nonces := updated.value;
        b.txns := b.txns + [txn];
      } else if updated.error == InvalidState {
        return Some(StateInvalid);
      } else if updated.error == Interrupted {
        break;
      } else {
        ExtendedMore(cfg, miner, start, b.created, old(b.txns), old(st.nonces), b.txns, st.nonces,
                     SumCost(cfg.costOf, builtIns[..k]), SumCost(cfg.costOf, builtIns[..k + 1]));
      }
      k := k + 1;
      blockSize := blockSize + 1;
      if !waitOver && blockSize < cfg.minBlockSize {
        b.txns := [];
        return Some(InsufficientTxns);
      }
    }
    assert k == |builtIns| ==> builtIns[..k] == builtIns;
    SumCostPrefix(cfg.costOf, builtIns, k);
    ExtendedMore(cfg, miner, start, b.created, old(b.txns), old(st.nonces), b.txns, st.nonces,
                 SumCost(cfg.costOf, builtIns[..k]), SumCost(cfg.costOf, builtIns));
    return None;
  }

  /** A built-in transaction before it is given a nonce; its date is the block's. */
  datatype BuiltIn = BuiltIn(key: Key, dataSize: nat, payload: string)

  function BuiltInTxn(d: BuiltIn, miner: Key, created: int): Txn {
    Txn(d.key, miner, 0, 0, 0, created, d.dataSize, d.payload)
  }

  /** What the environment contributes to one whole generation. */
  datatype World = World(
    now: int, lfbReady: bool, pool: seq<Option<Txn>>, storeError: Option<IterError>,
    builtIns: seq<BuiltIn>, miner: Key, waitOver: bool, clientsKnown: bool, signed: bool,
    poolEnv: nat -> Surroundings, queueEnv: nat -> Surroundings, builtInEnv: nat -> Surroundings)

  /**
   Nothing interferes with the passes over pool transactions: no fault, no interruption, no output of more than
   `out` bytes, and room for every delivered transaction beside built-in ones that cost `base`.
   */
  ghost predicate Undisturbed(cfg: Config, w: World, base: nat, out: nat) {
    && w.storeError.None? && Favourable(cfg, base, out, Seen(w.pool, |w.pool|))
    && (forall k :: 0 <= k < |w.pool| ==> Calm(w.poolEnv(k), out))
    && (forall k :: Calm(w.queueEnv(k), out))
  }

  /** How the pool pass ends the generation; when its deadline has passed, the block is finished as it is. */
  function Outcome(err: Option<IterError>, roundMismatch: bool, roundTimeout: bool): (r: Option<Reason>)
    ensures r.None? <==> !roundMismatch && !roundTimeout && (err.None? || err == Some(IterCtx(DeadlineExceeded)))
    ensures err == Some(IterInvalidState) ==> r == Some(StateInvalid)
    ensures r == Some(ContextCanceled) ==> err == Some(IterCtx(Canceled))
  {
    if err == Some(IterInvalidState) then Some(StateInvalid)
    else if roundMismatch then Some(RoundMismatch)
    else if roundTimeout then Some(RoundTimedOut)
    else if err == Some(IterCtx(Canceled)) then Some(ContextCanceled)
    else if err.Some? && err != Some(IterCtx(DeadlineExceeded)) then Some(PoolFailed)
    else None
  }

  /** The two passes over pool transactions, up to the point where the built-in ones are added. */
  method CollectTxns(cfg: Config, w: World, b: Block, st: BlockState, tii: TxnIterInfo, base: nat, ghost out: nat)
    returns (reason: Option<Reason>, ghost tried: seq<Txn>)
    requires DistinctPool(w.pool)
    requires b.txns == [] && tii.eTxns == [] && tii.idx == 0 && tii.txnMap == {}
    requires tii.futureTxns == map[] && tii.currentTxns == []
    requires tii.cost == base
    modifies b`txns, st, tii
    ensures Consecutive(old(st.nonces), b.txns, st.nonces) && ParkedOk(tii.futureTxns, st.nonces)
    ensures CostOk(cfg, base, b.txns, tii.cost) && Timely(cfg, b.created, b.txns)
    ensures DistinctKeys(b.txns) && AllIn(b.txns, Seen(w.pool, |w.pool|))
    ensures tii.eTxns == b.txns
    ensures NoDup(tried)
    ensures reason.None? ==> !tii.roundMismatch && !tii.roundTimeout
    ensures old(tii.byteSize) == 0 && !old(tii.roundMismatch) && !old(tii.roundTimeout) &&
            Undisturbed(cfg, w, base, out) && NoneNegative(old(st.nonces)) ==>
              && reason.None?
              && Finished(cfg, b.created, old(st.nonces), b.txns, st.nonces, tii.futureTxns, Seen(w.pool, |w.pool|))
  {
    hide Consecutive, ParkedOk, QueueOk, CostOk, Timely, Pending, Seen, DistinctPool, AllIn, DistinctKeys, KeysOf,
      NoDup, Favourable, Calm, Progress, Finished, NoneNegative, Interrupts, Outcome;
    ghost var start := st.nonces;
    ghost var smooth := tii.byteSize == 0 && !tii.roundMismatch && !tii.roundTimeout &&
                        Undisturbed(cfg, w, base, out) && NoneNegative(start);
    tried := [];
    NothingYet(cfg, start, b.created, base);
    assert tii.currentTxns[0..] == [];
    if NoneNegative(start) {
      ProgressStart(cfg, b.created, start, w.pool, out);
    }
    var err := tii.PoolPass(cfg, b, st, w.pool, w.storeError, w.poolEnv, start, base, out);
    reason := Outcome(err, tii.roundMismatch, tii.roundTimeout);
    if reason.Some? {
      return reason, [];
    }
    var deadline := err.Some?;
    var blockSize := tii.idx;
    var rcount := 0;
    if !deadline {
      rcount, tried := tii.QueuePass(cfg, b, st, w.queueEnv, start, base, Seen(w.pool, |w.pool|), out);
      if smooth {
        WalkedIsComplete(cfg, b.created, start,
                         Gen(b.txns, st.nonces, tii.eTxns, tii.idx, tii.txnMap, tii.futureTxns, tii.currentTxns),
                         Seen(w.pool, |w.pool|), out, tii.byteSize);
      }
    }
    blockSize := blockSize + rcount;
    if tii.byteSize < cfg.maxByteSize {
      // Nothing is cut off: the counts agree.
      assert blockSize == |b.txns|;
      assert b.txns[..blockSize] == b.txns && tii.eTxns[..blockSize] == tii.eTxns;
      b.txns := b.txns[..blockSize];
      tii.eTxns := tii.eTxns[..blockSize];
    }
    return None, tried;
  }

  lemma NothingYet(cfg: Config, start: Nonces, created: int, base: nat)
    ensures Ready(start, Gen([], start, [], 0, {}, map[], []), 0)
    ensures CostOk(cfg, base, [], base) && Timely(cfg, created, [])
    ensures Pending(map[], []) == {}
    ensures NoDup<Txn>([])
  {
    ConsecutiveStart(start);
  }

  /** What a finished generation guarantees about its block. */
  ghost predicate GoodBlock(cfg: Config, w: World, start: Nonces, created: int, txns: seq<Txn>, nonces: Nonces,
                            pooled: seq<Txn>, builtInCost: nat)
  {
    // Per client the nonces count up from the state of the previous block, built-ins included.
    && Consecutive(start, txns, nonces)
    // Every transaction is within the time tolerance of the block.
    && Timely(cfg, created, txns)
    // The pool part comes first, holds only delivered transactions, and none of them twice.
    && pooled <= txns && DistinctKeys(pooled) && AllIn(pooled, Seen(w.pool, |w.pool|))
    // Cost: only a block without pool transactions can reach the limit, and only by built-ins.
    && SumCost(cfg.costOf, txns) <= SumCost(cfg.costOf, pooled) + builtInCost
    && (pooled != [] ==> SumCost(cfg.costOf, pooled) + builtInCost < cfg.maxCost)
  }

  lemma GoodWhenFinished(cfg: Config, w: World, start: Nonces, created: int, pooled: seq<Txn>, nonces0: Nonces,
                         cost: nat, txns: seq<Txn>, nonces: Nonces, builtInCost: nat)
    requires CostOk(cfg, builtInCost, pooled, cost)
    requires DistinctKeys(pooled) && AllIn(pooled, Seen(w.pool, |w.pool|))
    requires Extended(cfg, w.miner, start, created, pooled, nonces0, txns, nonces, builtInCost)
    ensures GoodBlock(cfg, w, start, created, txns, nonces, pooled, builtInCost)
  {
    hide Consecutive, Timely, DistinctKeys, AllIn, SumCost;
  }

  /** A good block passes the verifier's cost check unless it consists of too expensive built-ins. */
  lemma GoodBlockFits(cfg: Config, w: World, start: Nonces, created: int, txns: seq<Txn>, nonces: Nonces,
                      pooled: seq<Txn>, builtInCost: nat)
    requires GoodBlock(cfg, w, start, created, txns, nonces, pooled, builtInCost)
    requires pooled != [] || builtInCost <= cfg.maxCost
    ensures SumCost(cfg.costOf, txns) <= cfg.maxCost
  {
    hide Consecutive, Timely, DistinctKeys, AllIn;
    SumCostEmpty(cfg.costOf);
  }

  lemma {:induction false} BuiltInsBelongToMiner(ds: seq<BuiltIn>, miner: Key, created: int)
    ensures |BuiltInTxns(ds, miner, created)| == |ds|
    ensures forall t :: t in BuiltInTxns(ds, miner, created) ==> t.client == miner && t.created == created
  {
    if ds != [] {
      BuiltInsBelongToMiner(ds[..|ds| - 1], miner, created);
    }
  }

  function BuiltInTxns(ds: seq<BuiltIn>, miner: Key, created: int): seq<Txn> {
    if ds == [] then []
    else BuiltInTxns(ds[..|ds| - 1], miner, created) + [BuiltInTxn(ds[|ds| - 1], miner, created)]
  }

  /** Parked transactions dropped at the end are out of reach of their client's nonce. */
  lemma DroppedOutOfReach(parked: Parked, mid: Nonces, allowed: int, dropped: seq<Txn>)
    requires ParkedOk(parked, mid)
    requires forall t :: t in dropped ==>
               exists c :: c in parked && ListTooFar(parked[c], allowed) && t in parked[c].txns
    ensures forall t :: t in dropped ==> t.nonce > NonceOf(mid, t.client) + allowed
  {
    forall t | t in dropped ensures t.nonce > NonceOf(mid, t.client) + allowed {
      var c :| c in parked && ListTooFar(parked[c], allowed) && t in parked[c].txns;
      assert ListOk(c, parked[c], NonceOf(mid, c));
      TooFarIsTooFar(c, parked[c], NonceOf(mid, c), allowed, t);
    }
  }

  lemma NothingParked(nonces: Nonces)
    ensures ParkedOk(map[], nonces)
  {
  }

  lemma NoncesGrow(s0: Nonces, txns: seq<Txn>, s1: Nonces, c: Key)
    requires Consecutive(s0, txns, s1)
    ensures NonceOf(s0, c) <= NonceOf(s1, c)
  {
    assert IsRun(NoncesIn(txns, c), NonceOf(s0, c), NonceOf(s1, c));
  }

  /**
   Generates a block. On success the block is good; in every case the parked transactions that are
   dropped from the pool lie beyond the allowed future nonce.
   */
  method GenerateBlock(cfg: Config, w: World, prevNonces: Nonces, prevCreated: int, ghost out: nat)
    returns (reason: Option<Reason>, b: Block, st: BlockState, dropped: seq<Txn>,
             ghost pooled: seq<Txn>, ghost tried: seq<Txn>, ghost mid: Nonces, ghost parked: Parked)
    requires DistinctPool(w.pool)
    ensures Consecutive(prevNonces, pooled, mid) && ParkedOk(parked, mid)
    ensures var base := SumCost(cfg.costOf, BuiltInTxns(w.builtIns, w.miner, b.created));
            w.lfbReady && CalmBuiltIns(w.builtInEnv, |w.builtIns|) && Undisturbed(cfg, w, base, out) &&
            NoneNegative(prevNonces) ==>
              && Complete(cfg, b.created, prevNonces, pooled, Seen(w.pool, |w.pool|))
              && BeyondIsParked(cfg, b.created, mid, parked, Seen(w.pool, |w.pool|))
              && (forall t :: t in dropped <==>
                    t in Waiting(parked, t) &&
                    forall u :: u in Waiting(parked, t) ==> u.nonce > NonceOf(mid, t.client) + cfg.futureNonce)
              && (w.waitOver || |pooled| + 1 >= cfg.minBlockSize ==>
                    && (reason.None? <==> w.clientsKnown && w.signed)
                    && b.txns == pooled + Numbered(BuiltInTxns(w.builtIns, w.miner, b.created), NonceOf(mid, w.miner)))
    ensures forall t :: t in dropped <==>
              exists c :: c in parked && ListTooFar(parked[c], cfg.futureNonce) && t in parked[c].txns
    ensures fresh(b) && fresh(st)
    ensures reason.None? ==>
              && b.created >= prevCreated
              && GoodBlock(cfg, w, prevNonces, b.created, b.txns, st.nonces, pooled,
                           SumCost(cfg.costOf, BuiltInTxns(w.builtIns, w.miner, b.created)))
    ensures NoDup(tried)
    ensures forall t :: t in dropped ==> t.nonce > NonceOf(prevNonces, t.client) + cfg.futureNonce
    ensures reason.None? ==> forall t :: t in dropped && t.client != w.miner ==>
              t.nonce > NonceOf(st.nonces, t.client) + cfg.futureNonce
  {
    hide Consecutive, ParkedOk, Timely, CostOk, SumCost, GoodBlock, DistinctPool, DistinctKeys, AllIn,
      Seen, ListTooFar, NoDup, BuiltInTxns, Undisturbed, Complete, BeyondIsParked, CountsFromState, NoneNegative,
      Numbered;
    dropped, pooled, tried, mid, parked := [], [], [], prevNonces, map[];
    ConsecutiveStart(prevNonces);
    NothingParked(prevNonces);
    NoDupNone<Txn>();
    b := new Block(if w.now < prevCreated then prevCreated else w.now);
    st := new BlockState(prevNonces);
    if !w.lfbReady {
      return Some(LfbStateMissing), b, st, [], [], [], prevNonces, map[];
    }
    var tii := new TxnIterInfo();
    var builtIns := BuiltInTxns(w.builtIns, w.miner, b.created);
    BuiltInsBelongToMiner(w.builtIns, w.miner, b.created);
    var base := BuiltInCost(cfg, builtIns, w.builtInEnv);
    if base.Err? {
      return Some(BuiltInCostUnknown), b, st, [], [], [], prevNonces, map[];
    }
    tii.cost := tii.cost + base.value;
    reason, tried := CollectTxns(cfg, w, b, st, tii, base.value, out);
    pooled, mid, parked := b.txns, st.nonces, tii.futureTxns;
    dropped := tii.TooFarAhead(cfg.futureNonce);
    DroppedOutOfReach(tii.futureTxns, mid, cfg.futureNonce, dropped);
    forall t | t in dropped ensures t.nonce > NonceOf(prevNonces, t.client) + cfg.futureNonce {
      NoncesGrow(prevNonces, pooled, mid, t.client);
    }
    if CountsFromState(mid, parked) {
      forall t ensures t in dropped <==>
                       t in Waiting(parked, t) &&
                       forall u :: u in Waiting(parked, t) ==> u.nonce > NonceOf(mid, t.client) + cfg.futureNonce
      {
        DroppedExactly(parked, mid, cfg.futureNonce, t);
      }
    }
    if reason.Some? {
      return;
    }
    reason := AddBuiltIns(cfg, b, st, builtIns, w.miner, |b.txns|, w.waitOver, w.builtInEnv, prevNonces);
    if reason.Some? {
      return;
    }
    GoodWhenFinished(cfg, w, prevNonces, b.created, pooled, mid, tii.cost, b.txns, st.nonces, base.value);
    if !w.clientsKnown {
      reason := Some(ClientsUnknown);
    } else if !w.signed {
      reason := Some(NotSigned);
    }
  }

  datatype CostVerdict = Fits | TooBig | CostUnknown

  /** The answer of the cost check of the block verification; `faults` are the estimates that fail. */
  function CostAnswer(cfg: Config, txns: seq<Txn>, faults: nat -> Option<Fault>): CostVerdict {
    if exists i :: 0 <= i < |txns| && faults(i).Some? then CostUnknown
    else if SumCost(cfg.costOf, txns) > cfg.maxCost then TooBig else Fits
  }

  /** The loop of the cost check. */
  method VerifyCost(cfg: Config, txns: seq<Txn>, faults: nat -> Option<Fault>) returns (v: CostVerdict)
    ensures v == CostAnswer(cfg, txns, faults)
  {
    var cost := 0;
    for i := 0 to |txns|
      invariant cost == SumCost(cfg.costOf, txns[..i])
      invariant forall j :: 0 <= j < i ==> faults(j).None?
    {
      if faults(i).Some? {
        return CostUnknown;
      }
      assert txns[..i + 1] == txns[..i] + [txns[i]];
      SumCostAppend(cfg.costOf, txns[..i], txns[i]);
      cost := cost + cfg.costOf(txns[i].payload);
    }
    assert txns[..|txns|] == txns;
    return if cost > cfg.maxCost then TooBig else Fits;
  }

  /** The verifier finds a generated block too big only if it holds nothing but too expensive built-ins. */
  lemma GeneratedIsNotTooBig(cfg: Config, w: World, start: Nonces, created: int, txns: seq<Txn>, nonces: Nonces,
                             pooled: seq<Txn>, builtInCost: nat, faults: nat -> Option<Fault>)
    requires GoodBlock(cfg, w, start, created, txns, nonces, pooled, builtInCost)
    ensures CostAnswer(cfg, txns, faults) == TooBig ==> pooled == [] && builtInCost > cfg.maxCost
  {
    hide GoodBlock, SumCost;
    if pooled != [] || builtInCost <= cfg.maxCost {
      GoodBlockFits(cfg, w, start, created, txns, nonces, pooled, builtInCost);
    }
  }
}
