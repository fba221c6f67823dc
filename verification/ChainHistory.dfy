/**
 The history of a block: looking a transaction up in it, where the walk stops early at a block too old to
 contain it, and what the nonce check makes of whole chains. A chain is listed from the newest block back
 to genesis; a node may hold only the newer part.
 */
module ChainHistory {
  import opened Common
  import opened Transactions
  import opened ClientNonces
  import opened AssemblyBooks

  datatype HistoryBlock = HistoryBlock(round: int, created: int, txns: seq<Txn>)

  type Chain = seq<HistoryBlock>

  datatype Answer = Found | NotFound | InsufficientChain

  predicate Has(b: HistoryBlock, key: Key) {
    exists i :: 0 <= i < |b.txns| && b.txns[i].key == key
  }

  /** The block is dated too far before the transaction to contain it. */
  predicate TooOld(cfg: Config, b: HistoryBlock, t: Txn) {
    b.created < t.created - cfg.timeTolerance
  }

  /** The walk over the blocks at hand. */
  function Lookup(cfg: Config, local: Chain, t: Txn): Answer {
    if local == [] then InsufficientChain
    else if local[0].round == 0 then NotFound
    else if Has(local[0], t.key) then Found
    else if TooOld(cfg, local[0], t) then NotFound
    else Lookup(cfg, local[1..], t)
  }

  method ChainHasTransaction(cfg: Config, local: Chain, t: Txn) returns (found: bool, err: bool)
    ensures found <==> Lookup(cfg, local, t) == Found
    ensures err <==> Lookup(cfg, local, t) == InsufficientChain
  {
    var i := 0;
    while i < |local|
      invariant i <= |local| && Lookup(cfg, local, t) == Lookup(cfg, local[i..], t)
    {
      var cb := local[i];
      assert local[i..][0] == cb && local[i..][1..] == local[i + 1..];
      if cb.round == 0 {
        return false, false;
      }
      if Has(cb, t.key) {
        return true, false;
      }
      if TooOld(cfg, cb, t) {
        return false, false;
      }
      i := i + 1;
    }
    return false, true;
  }

  // ---------------------------------------------------------------- when the early exit is right

  /** Dates never decrease along the chain, rounds end with genesis, and blocks hold transactions of their time. */
  ghost predicate Dated(cfg: Config, chain: Chain) {
    && (forall i, j :: 0 <= i < j < |chain| ==> chain[i].created >= chain[j].created)
    && (forall i, j :: 0 <= i < j < |chain| ==> chain[i].round > chain[j].round >= 0)
    && (forall i :: 0 <= i < |chain| && chain[i].round > 0 ==> Timely(cfg, chain[i].created, chain[i].txns))
  }

  /** Transactions with one key have one date. */
  ghost predicate OneDate(chain: Chain, t: Txn) {
    forall i, u :: 0 <= i < |chain| && u in chain[i].txns && u.key == t.key ==> u.created == t.created
  }

  lemma TooOldToHave(cfg: Config, b: HistoryBlock, t: Txn)
    requires Timely(cfg, b.created, b.txns) && TooOld(cfg, b, t)
    requires forall u :: u in b.txns && u.key == t.key ==> u.created == t.created
    ensures !Has(b, t.key)
  {
    forall i | 0 <= i < |b.txns| ensures b.txns[i].key != t.key {
      assert b.txns[i] in b.txns;
    }
  }

  /** "Not found" from any part of the chain means that no block after genesis has the transaction. */
  lemma {:induction false} EarlyExitIsSound(cfg: Config, chain: Chain, n: nat, t: Txn)
    requires Dated(cfg, chain) && OneDate(chain, t) && n <= |chain| && Lookup(cfg, chain[..n], t) == NotFound
    ensures forall i :: 0 <= i < |chain| && chain[i].round > 0 ==> !Has(chain[i], t.key)
    decreases n
  {
    hide Has, Timely;
    assert chain[..n][0] == chain[0];
    if chain[0].round == 0 {
    } else if TooOld(cfg, chain[0], t) {
      forall i | 0 <= i < |chain| && chain[i].round > 0 ensures !Has(chain[i], t.key) {
        TooOldToHave(cfg, chain[i], t);
      }
    } else {
      assert chain[..n][1..] == chain[1..][..n - 1];
      TailIsDated(cfg, chain, t);
      EarlyExitIsSound(cfg, chain[1..], n - 1, t);
      forall i | 0 < i < |chain| && chain[i].round > 0 ensures !Has(chain[i], t.key) {
        assert chain[i] == chain[1..][i - 1];
      }
    }
  }

  lemma {:induction false} TailIsDated(cfg: Config, chain: Chain, t: Txn)
    requires Dated(cfg, chain) && OneDate(chain, t) && chain != []
    ensures Dated(cfg, chain[1..]) && OneDate(chain[1..], t)
  {
    hide Timely;
    var tail := chain[1..];
    forall i, j | 0 <= i < j < |tail| ensures tail[i].created >= tail[j].created && tail[i].round > tail[j].round >= 0 {
      assert tail[i] == chain[i + 1] && tail[j] == chain[j + 1];
    }
    forall i | 0 <= i < |tail| && tail[i].round > 0 ensures Timely(cfg, tail[i].created, tail[i].txns) {
      assert tail[i] == chain[i + 1];
    }
    forall i, u | 0 <= i < |tail| && u in tail[i].txns && u.key == t.key ensures u.created == t.created {
      assert tail[i] == chain[i + 1];
    }
    assert OneDate(tail, t);
    assert Dated(cfg, tail);
  }

  /** Found means that a block at hand has it. */
  lemma {:induction false} FoundIsThere(cfg: Config, local: Chain, t: Txn)
    requires Lookup(cfg, local, t) == Found
    ensures exists i :: 0 <= i < |local| && local[i].round != 0 && Has(local[i], t.key)
  {
    hide Has;
    if !Has(local[0], t.key) {
      FoundIsThere(cfg, local[1..], t);
      var i :| 0 <= i < |local[1..]| && local[1..][i].round != 0 && Has(local[1..][i], t.key);
      assert local[i + 1] == local[1..][i];
    }
  }

  /**
   Whatever the dates: a transaction whose newest copy is in block `j` is missed exactly when some block
   after `j` is dated too old for it, and otherwise found.
   */
  lemma {:induction false} EarlyExitMissesExactly(cfg: Config, chain: Chain, t: Txn, j: nat)
    requires j < |chain| && Has(chain[j], t.key) && forall i :: 0 <= i < j ==> !Has(chain[i], t.key)
    requires forall i :: 0 <= i <= j ==> chain[i].round != 0
    ensures Lookup(cfg, chain, t) == NotFound <==> exists i :: 0 <= i < j && TooOld(cfg, chain[i], t)
    ensures Lookup(cfg, chain, t) != NotFound ==> Lookup(cfg, chain, t) == Found
    decreases j
  {
    hide Has;
    if j > 0 && !TooOld(cfg, chain[0], t) {
      var tail := chain[1..];
      forall i | 0 <= i < |tail| ensures tail[i] == chain[i + 1] {}
      EarlyExitMissesExactly(cfg, tail, t, j - 1);
      if i :| 0 <= i < j && TooOld(cfg, chain[i], t) {
        assert TooOld(cfg, tail[i - 1], t);
      }
      if i :| 0 <= i < j - 1 && TooOld(cfg, tail[i], t) {
        assert TooOld(cfg, chain[i + 1], t);
      }
    }
  }

  /** Such a chain: the block after the transaction's is dated too far back. */
  lemma EarlyExitNeedsOrder(cfg: Config, t: Txn)
    ensures var gap := t.created - cfg.timeTolerance - 1;
            var chain := [HistoryBlock(2, gap, []), HistoryBlock(1, t.created, [t]), HistoryBlock(0, gap, [])];
            Timely(cfg, chain[0].created, chain[0].txns) && Timely(cfg, chain[1].created, chain[1].txns) &&
            Lookup(cfg, chain, t) == NotFound && Has(chain[1], t.key)
  {
    var gap := t.created - cfg.timeTolerance - 1;
    var chain := [HistoryBlock(2, gap, []), HistoryBlock(1, t.created, [t]), HistoryBlock(0, gap, [])];
    assert chain[1].txns[0].key == t.key;
  }

  // ---------------------------------------------------------------- dates along a chain

  /**
   The next block: its date is at least the previous one's, as generation makes it and as acceptance tests
   it when the previous block is at hand, and its transactions are of its time.
   */
  ghost predicate Extends(cfg: Config, chain: Chain, b: HistoryBlock) {
    && chain != [] && b.round == chain[0].round + 1 && b.created >= chain[0].created
    && Timely(cfg, b.created, b.txns)
  }

  /** A chain grown block by block from genesis. */
  ghost predicate Grown(cfg: Config, chain: Chain) {
    chain != [] &&
    if |chain| == 1 then chain[0].round == 0 else Grown(cfg, chain[1..]) && Extends(cfg, chain[1..], chain[0])
  }

  lemma {:induction false} GrownIsDated(cfg: Config, chain: Chain)
    requires Grown(cfg, chain)
    ensures Dated(cfg, chain)
    ensures forall i :: 0 <= i < |chain| ==> chain[i].created <= chain[0].created && chain[i].round <= chain[0].round
  {
    hide Timely;
    if |chain| > 1 {
      var tail := chain[1..];
      GrownIsDated(cfg, tail);
      forall i | 0 < i < |chain| ensures chain[i] == tail[i - 1] {}
      forall i | 0 <= i < |chain| && chain[i].round > 0 ensures Timely(cfg, chain[i].created, chain[i].txns) {
        assert i > 0 ==> chain[i] == tail[i - 1];
      }
    }
  }

  // ---------------------------------------------------------------- nonces along a chain

  /** The transactions of the blocks after genesis, oldest first. */
  function ChainTxns(chain: Chain): seq<Txn> {
    if |chain| <= 1 then [] else ChainTxns(chain[1..]) + chain[0].txns
  }

  /**
   `states` are the client nonces after each block, listed like the chain: every block was executed on the
   nonces its parent left.
   */
  ghost predicate Executed(chain: Chain, states: seq<Nonces>) {
    && |states| == |chain| > 0
    && forall i :: 0 <= i < |chain| - 1 ==> ExecutedOn(states[i + 1], chain[i], states[i])
  }

  ghost predicate ExecutedOn(before: Nonces, b: HistoryBlock, after: Nonces) {
    exists touched :: |touched| == |b.txns| && Replay(before, b.txns, touched) == Some(after)
  }

  /** Over a whole chain each client's nonces, in chain order, are s+1, s+2, ..., s+k over the genesis state. */
  lemma {:induction false} ChainNoncesConsecutive(chain: Chain, states: seq<Nonces>)
    requires Executed(chain, states)
    ensures Consecutive(states[|states| - 1], ChainTxns(chain), states[0])
    decreases |chain|
  {
    hide Consecutive;
    if |chain| == 1 {
      ConsecutiveStart(states[0]);
    } else {
      var tail, rest := chain[1..], states[1..];
      forall i | 0 <= i < |tail| - 1 ensures ExecutedOn(rest[i + 1], tail[i], rest[i]) {
        assert ExecutedOn(states[i + 2], chain[i + 1], states[i + 1]);
      }
      ChainNoncesConsecutive(tail, rest);
      assert ExecutedOn(states[1], chain[0], states[0]);
      var touched :| |touched| == |chain[0].txns| && Replay(states[1], chain[0].txns, touched) == Some(states[0]);
      ReplayConsecutive(states[1], chain[0].txns, touched, states[0]);
      ConsecutiveConcat(states[|states| - 1], ChainTxns(tail), states[1], chain[0].txns, states[0]);
    }
  }

  /** Where a block's transactions stand in the chain's. */
  lemma {:induction false} TxnPlace(chain: Chain, i: nat, p: nat)
    requires i < |chain| - 1 && p < |chain[i].txns|
    ensures exists at: nat :: at < |ChainTxns(chain)| && ChainTxns(chain)[at] == chain[i].txns[p] &&
                              |ChainTxns(chain[i + 1..])| <= at < |ChainTxns(chain[i + 1..])| + |chain[i].txns|
    decreases i
  {
    if i == 0 {
      var at := |ChainTxns(chain[1..])| + p;
      assert ChainTxns(chain)[at] == chain[0].txns[p];
    } else {
      var tail := chain[1..];
      assert tail[i - 1] == chain[i] && tail[i..] == chain[i + 1..];
      TxnPlace(tail, i - 1, p);
      var at: nat :| at < |ChainTxns(tail)| && ChainTxns(tail)[at] == chain[i].txns[p] &&
                     |ChainTxns(tail[i..])| <= at < |ChainTxns(tail[i..])| + |chain[i].txns|;
      assert ChainTxns(chain)[at] == ChainTxns(tail)[at];
    }
  }

  lemma {:induction false} OlderComesFirst(chain: Chain, i: nat, j: nat)
    requires i < j < |chain| - 1
    ensures |ChainTxns(chain[j + 1..])| + |chain[j].txns| <= |ChainTxns(chain[i + 1..])|
    decreases j - i
  {
    var rest := chain[i + 1..];
    if j == i + 1 {
      assert rest[0] == chain[j] && rest[1..] == chain[j + 1..];
    } else {
      OlderComesFirst(chain, i + 1, j);
      assert rest[1..] == chain[i + 2..];
    }
  }

  /**
   No client's nonce is used in two blocks of an executed chain: in the older block it is smaller. So no
   transaction is in two blocks after genesis.
   */
  lemma NoTransactionTwice(chain: Chain, states: seq<Nonces>, i: nat, p: nat, j: nat, q: nat)
    requires Executed(chain, states) && i < j < |chain| - 1 && p < |chain[i].txns| && q < |chain[j].txns|
    ensures chain[i].txns[p].client == chain[j].txns[q].client ==> chain[j].txns[q].nonce < chain[i].txns[p].nonce
    ensures chain[i].txns[p] != chain[j].txns[q]
  {
    hide ExecutedOn, ChainTxns, Consecutive;
    ChainNoncesConsecutive(chain, states);
    TxnPlace(chain, i, p);
    TxnPlace(chain, j, q);
    OlderComesFirst(chain, i, j);
    var all, genesis := ChainTxns(chain), states[|states| - 1];
    var newer: nat :| newer < |all| && all[newer] == chain[i].txns[p] && |ChainTxns(chain[i + 1..])| <= newer;
    var older: nat :| older < |all| && all[older] == chain[j].txns[q] &&
                      older < |ChainTxns(chain[j + 1..])| + |chain[j].txns|;
    if chain[i].txns[p].client == chain[j].txns[q].client {
      NoNonceTwice(genesis, all, states[0], older, newer);
    }
  }

  /** Nor is one twice in a block. */
  lemma NoTransactionTwiceInBlock(before: Nonces, b: HistoryBlock, after: Nonces, p: nat, q: nat)
    requires ExecutedOn(before, b, after) && p < q < |b.txns|
    ensures b.txns[p] != b.txns[q]
  {
    var touched :| |touched| == |b.txns| && Replay(before, b.txns, touched) == Some(after);
    ReplayConsecutive(before, b.txns, touched, after);
    if b.txns[p].client == b.txns[q].client {
      NoNonceTwice(before, b.txns, after, p, q);
    }
  }

  /** A block with the nonces that generation gives it is executed by every node that holds its parent. */
  lemma GeneratedIsExecuted(before: Nonces, b: HistoryBlock, after: Nonces)
    requires Consecutive(before, b.txns, after)
    ensures exists reached :: ExecutedOn(before, b, reached) && forall c :: NonceOf(reached, c) == NonceOf(after, c)
  {
    hide Consecutive, Replay;
    var touched := seq(|b.txns|, _ => {});
    ConsecutiveReplays(before, b.txns, after, touched);
    assert ExecutedOn(before, b, Replay(before, b.txns, touched).value);
  }
}
