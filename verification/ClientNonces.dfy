/**
 Client nonces in a block's state: the check and the increment that executing a transaction
 performs, and what a whole list of executed transactions looks like per client.
 */
module ClientNonces {
  import opened Common
  import opened Transactions

  type Nonces = map<Key, int>

  /** A client without a state entry counts as nonce 0. */
  function NonceOf(m: Nonces, c: Key): int {
    if c in m then m[c] else 0
  }

  /**
   Executes `t`: refused unless its nonce is the sender's next one. `touched` are the clients whose
   state entry the execution creates or rewrites (the receiver of a transfer, say).
   */
  function Execute(m: Nonces, t: Txn, touched: set<Key>): (r: Option<Nonces>)
    ensures r.Some? <==> t.nonce == NonceOf(m, t.client) + 1
    ensures r.Some? ==> forall c :: NonceOf(r.value, c) == if c == t.client then t.nonce else NonceOf(m, c)
  {
    if NonceOf(m, t.client) + 1 != t.nonce then None
    else Some(map c | c in m.Keys + touched + {t.client} ::
                if c == t.client then NonceOf(m, c) + 1 else NonceOf(m, c))
  }

  /** The nonces of one client's transactions, in list order. */
  function NoncesIn(txns: seq<Txn>, c: Key): seq<int> {
    if txns == [] then []
    else NoncesIn(txns[..|txns| - 1], c) +
         if txns[|txns| - 1].client == c then [txns[|txns| - 1].nonce] else []
  }

  /** `s` counts from `from` + 1 up to `to`. */
  predicate IsRun(s: seq<int>, from: int, to: int) {
    to == from + |s| && forall i :: 0 <= i < |s| ==> s[i] == from + 1 + i
  }

  /** Every client's transactions carry exactly the nonces between its old and its new nonce. */
  ghost predicate Consecutive(s0: Nonces, txns: seq<Txn>, s1: Nonces) {
    forall c :: IsRun(NoncesIn(txns, c), NonceOf(s0, c), NonceOf(s1, c))
  }

  lemma ConsecutiveStart(s0: Nonces)
    ensures Consecutive(s0, [], s0)
  {
  }

  lemma NoncesInAppend(txns: seq<Txn>, t: Txn, c: Key)
    ensures NoncesIn(txns + [t], c) == NoncesIn(txns, c) + if t.client == c then [t.nonce] else []
  {
    assert (txns + [t])[..|txns + [t]| - 1] == txns;
  }

  lemma ConsecutiveExtend(s0: Nonces, txns: seq<Txn>, s1: Nonces, t: Txn, touched: set<Key>, s2: Nonces)
    requires Consecutive(s0, txns, s1) && Execute(s1, t, touched) == Some(s2)
    ensures Consecutive(s0, txns + [t], s2)
  {
    hide NoncesIn, Execute;
    forall c ensures IsRun(NoncesIn(txns + [t], c), NonceOf(s0, c), NonceOf(s2, c)) {
      NoncesInAppend(txns, t, c);
      assert IsRun(NoncesIn(txns, c), NonceOf(s0, c), NonceOf(s1, c));
    }
  }

  /** Executes a list from the left; `touched[i]` belongs to the i-th transaction. */
  function Replay(s0: Nonces, txns: seq<Txn>, touched: seq<set<Key>>): Option<Nonces>
    requires |touched| == |txns|
  {
    if txns == [] then Some(s0)
    else
      var n := |txns| - 1;
      var s1 := Replay(s0, txns[..n], touched[..n]);
      if s1.None? then None else Execute(s1.value, txns[n], touched[n])
  }

  /** An accepted replay leaves every client's nonces consecutive. */
  lemma {:induction false} ReplayConsecutive(s0: Nonces, txns: seq<Txn>, touched: seq<set<Key>>, s1: Nonces)
    requires |touched| == |txns| && Replay(s0, txns, touched) == Some(s1)
    ensures Consecutive(s0, txns, s1)
  {
    if txns == [] {
      ConsecutiveStart(s0);
    } else {
      var n := |txns| - 1;
      var front, t := txns[..n], txns[n];
      assert txns == front + [t];
      var mid := Replay(s0, front, touched[..n]).value;
      ReplayConsecutive(s0, front, touched[..n], mid);
      assert Execute(mid, t, touched[n]) == Some(s1);
      ConsecutiveExtend(s0, front, mid, t, touched[n], s1);
    }
  }

  /** `m` with one client's nonce taken back by one. */
  function StepBack(m: Nonces, c: Key): (r: Nonces)
    ensures forall d :: NonceOf(r, d) == if d == c then NonceOf(m, d) - 1 else NonceOf(m, d)
  {
    map d | d in m.Keys + {c} :: if d == c then NonceOf(m, d) - 1 else NonceOf(m, d)
  }

  lemma ConsecutiveFront(s0: Nonces, front: seq<Txn>, t: Txn, s1: Nonces)
    requires Consecutive(s0, front + [t], s1)
    ensures Consecutive(s0, front, StepBack(s1, t.client))
    ensures t.nonce == NonceOf(s1, t.client)
  {
    hide NoncesIn, StepBack;
    forall c ensures IsRun(NoncesIn(front, c), NonceOf(s0, c), NonceOf(StepBack(s1, t.client), c)) {
      NoncesInAppend(front, t, c);
      assert IsRun(NoncesIn(front + [t], c), NonceOf(s0, c), NonceOf(s1, c));
      forall i | 0 <= i < |NoncesIn(front, c)|
        ensures NoncesIn(front, c)[i] == NoncesIn(front + [t], c)[i]
      { }
    }
    NoncesInAppend(front, t, t.client);
    assert IsRun(NoncesIn(front + [t], t.client), NonceOf(s0, t.client), NonceOf(s1, t.client));
    var all := NoncesIn(front + [t], t.client);
    assert all[|all| - 1] == t.nonce;
  }

  /** Conversely, a list whose nonces are consecutive for every client is accepted by a replay. */
  lemma {:induction false} ConsecutiveReplays(s0: Nonces, txns: seq<Txn>, s1: Nonces, touched: seq<set<Key>>)
    requires |touched| == |txns| && Consecutive(s0, txns, s1)
    ensures Replay(s0, txns, touched).Some?
    ensures forall c :: NonceOf(Replay(s0, txns, touched).value, c) == NonceOf(s1, c)
  {
    if txns == [] {
      forall c ensures NonceOf(s0, c) == NonceOf(s1, c) {
        assert IsRun(NoncesIn(txns, c), NonceOf(s0, c), NonceOf(s1, c));
      }
    } else {
      var n := |txns| - 1;
      var front, t := txns[..n], txns[n];
      assert txns == front + [t];
      ConsecutiveFront(s0, front, t, s1);
      ConsecutiveReplays(s0, front, StepBack(s1, t.client), touched[..n]);
    }
  }

  // ---------------------------------------------------------------- several lists in a row

  lemma {:induction false} NoncesInConcat(one: seq<Txn>, two: seq<Txn>, c: Key)
    ensures NoncesIn(one + two, c) == NoncesIn(one, c) + NoncesIn(two, c)
  {
    if two == [] {
      assert one + two == one;
    } else {
      var front, last := two[..|two| - 1], two[|two| - 1];
      assert one + two == (one + front) + [last];
      assert two == front + [last];
      NoncesInConcat(one, front, c);
      NoncesInAppend(one + front, last, c);
    }
  }

  /** Lists that follow each other make one list. */
  lemma ConsecutiveConcat(s0: Nonces, one: seq<Txn>, s1: Nonces, two: seq<Txn>, s2: Nonces)
    requires Consecutive(s0, one, s1) && Consecutive(s1, two, s2)
    ensures Consecutive(s0, one + two, s2)
  {
    hide NoncesIn, NonceOf;
    forall c ensures IsRun(NoncesIn(one + two, c), NonceOf(s0, c), NonceOf(s2, c)) {
      NoncesInConcat(one, two, c);
      assert IsRun(NoncesIn(one, c), NonceOf(s0, c), NonceOf(s1, c));
      assert IsRun(NoncesIn(two, c), NonceOf(s1, c), NonceOf(s2, c));
    }
  }

  /** A transaction's nonce is its client's start nonce plus its place among the client's transactions. */
  lemma NonceIsPlace(s0: Nonces, txns: seq<Txn>, s1: Nonces, i: nat)
    requires Consecutive(s0, txns, s1) && i < |txns|
    ensures txns[i].nonce == NonceOf(s0, txns[i].client) + 1 + |NoncesIn(txns[..i], txns[i].client)|
  {
    hide NoncesIn, NonceOf;
    var c := txns[i].client;
    assert txns == (txns[..i] + [txns[i]]) + txns[i + 1..];
    NoncesInConcat(txns[..i] + [txns[i]], txns[i + 1..], c);
    NoncesInAppend(txns[..i], txns[i], c);
    assert IsRun(NoncesIn(txns, c), NonceOf(s0, c), NonceOf(s1, c));
    assert NoncesIn(txns, c)[|NoncesIn(txns[..i], c)|] == txns[i].nonce;
  }

  /** No client uses a nonce twice. */
  lemma NoNonceTwice(s0: Nonces, txns: seq<Txn>, s1: Nonces, i: nat, j: nat)
    requires Consecutive(s0, txns, s1) && i < j < |txns| && txns[i].client == txns[j].client
    ensures txns[i].nonce < txns[j].nonce
  {
    hide NoncesIn, NonceOf, Consecutive;
    NonceIsPlace(s0, txns, s1, i);
    NonceIsPlace(s0, txns, s1, j);
    var c := txns[i].client;
    assert txns[..j] == (txns[..i] + [txns[i]]) + txns[i + 1..j];
    NoncesInConcat(txns[..i] + [txns[i]], txns[i + 1..j], c);
    NoncesInAppend(txns[..i], txns[i], c);
  }
}
