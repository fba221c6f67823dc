/**
 The balances written at genesis: each contract's configured tokens are split over its clients and the
 contract itself keeps the rest. Amounts are 64-bit; the checks refuse (`None`) what would overflow.
 */
module Genesis {
  import opened Common

  const MAX_TOKEN_SUPPLY: nat := 4_000_000_000_000_000_000
  const MAX_COIN: nat := 0xffff_ffff_ffff_ffff

  datatype Share = Share(id: string, tokens: nat)

  datatype InitState = InitState(id: string, tokens: nat, clients: seq<Share>)

  type Balances = map<string, nat>

  function AddCoin(a: nat, b: nat): Option<nat> {
    if a + b > MAX_COIN then None else Some(a + b)
  }

  function MinusCoin(a: nat, b: nat): Option<nat> {
    if a < b then None else Some(a - b)
  }

  // ---------------------------------------------------------------- specification

  function SumShares(shares: seq<Share>): nat {
    if shares == [] then 0 else SumShares(shares[..|shares| - 1]) + shares[|shares| - 1].tokens
  }

  function TotalTokens(states: seq<InitState>): nat {
    if states == [] then 0 else TotalTokens(states[..|states| - 1]) + states[|states| - 1].tokens
  }

  /** No contract gives away more than it has, and together they have the maximum supply. */
  predicate Accepted(states: seq<InitState>) {
    && (forall i :: 0 <= i < |states| ==> SumShares(states[i].clients) <= states[i].tokens)
    && TotalTokens(states) == MAX_TOKEN_SUPPLY
  }

  /** What is written for one contract, in order. */
  function WritesOf(v: InitState): seq<Share> {
    v.clients + [Share(v.id, if SumShares(v.clients) <= v.tokens then v.tokens - SumShares(v.clients) else 0)]
  }

  function Writes(states: seq<InitState>): seq<Share> {
    if states == [] then [] else Writes(states[..|states| - 1]) + WritesOf(states[|states| - 1])
  }

  /** The last write of an id counts. */
  function Written(b: Balances, writes: seq<Share>): Balances
    decreases writes
  {
    if writes == [] then b
    else Written(b, writes[..|writes| - 1])[writes[|writes| - 1].id := writes[|writes| - 1].tokens]
  }

  lemma {:induction false} WrittenConcat(b: Balances, one: seq<Share>, two: seq<Share>)
    ensures Written(b, one + two) == Written(Written(b, one), two)
    decreases two
  {
    if two == [] {
      assert one + two == one;
    } else {
      assert (one + two)[..|one + two| - 1] == one + two[..|two| - 1];
      WrittenConcat(b, one, two[..|two| - 1]);
    }
  }

  lemma {:induction false} SumSharesConcat(one: seq<Share>, two: seq<Share>)
    ensures SumShares(one + two) == SumShares(one) + SumShares(two)
    decreases two
  {
    if two == [] {
      assert one + two == one;
    } else {
      assert (one + two)[..|one + two| - 1] == one + two[..|two| - 1];
      SumSharesConcat(one, two[..|two| - 1]);
    }
  }

  lemma {:induction false} SumSharesPrefix(shares: seq<Share>, n: nat)
    requires n <= |shares|
    ensures SumShares(shares[..n]) <= SumShares(shares)
  {
    assert shares == shares[..n] + shares[n..];
    SumSharesConcat(shares[..n], shares[n..]);
  }

  lemma {:induction false} TotalPrefix(states: seq<InitState>, n: nat)
    requires n <= |states|
    ensures TotalTokens(states[..n]) <= TotalTokens(states)
    decreases |states|
  {
    if n < |states| {
      assert states[..|states| - 1][..n] == states[..n];
      TotalPrefix(states[..|states| - 1], n);
    } else {
      assert states[..n] == states;
    }
  }

  // ---------------------------------------------------------------- the two nested loops

  /** The clients of one contract; `None` when the sum of their tokens overflows. */
  method WriteClients(b0: Balances, clients: seq<Share>) returns (b: Balances, transferred: Option<nat>)
    ensures transferred.Some? <==> SumShares(clients) <= MAX_COIN
    ensures transferred.Some? ==> transferred.value == SumShares(clients) && b == Written(b0, clients)
  {
    b := b0;
    var sum := 0;
    for i := 0 to |clients|
      invariant sum == SumShares(clients[..i]) && sum <= MAX_COIN
      invariant b == Written(b0, clients[..i])
    {
      assert clients[..i + 1][..i] == clients[..i];
      b := b[clients[i].id := clients[i].tokens];
      var added := AddCoin(sum, clients[i].tokens);
      if added.None? {
        SumSharesPrefix(clients, i + 1);
        return b, None;
      }
      sum := added.value;
    }
    assert clients[..|clients|] == clients;
    return b, Some(sum);
  }

  /** Succeeds exactly on the accepted configurations, and then writes exactly their amounts. */
  method MustInitGBState(states: seq<InitState>) returns (b: Option<Balances>)
    requires forall i :: 0 <= i < |states| ==> states[i].tokens <= MAX_COIN
    ensures b == if Accepted(states) then Some(Written(map[], Writes(states))) else None
  {
    hide Written, SumShares;
    var total := 0;
    var balances: Balances := map[];
    assert Written(map[], Writes([])) == map[] by { NothingWritten(); }
    assert states[..0] == [];
    for i := 0 to |states|
      invariant total == TotalTokens(states[..i]) <= MAX_COIN
      invariant balances == Written(map[], Writes(states[..i]))
      invariant forall j :: 0 <= j < i ==> SumShares(states[j].clients) <= states[j].tokens
    {
      var v := states[i];
      assert states[..i + 1][..i] == states[..i];
      TotalPrefix(states, i + 1);
      var added := AddCoin(total, v.tokens);
      if added.None? {
        return None;
      }
      total := added.value;
      var before := balances;
      var transferred;
      balances, transferred := WriteClients(balances, v.clients);
      if transferred.None? {
        return None;
      }
      var rest := MinusCoin(v.tokens, transferred.value);
      if rest.None? {
        return None;
      }
      balances := balances[v.id := rest.value];
      OneContract(before, v);
      WrittenConcat(map[], Writes(states[..i]), WritesOf(v));
    }
    assert states[..|states|] == states;
    if total != MAX_TOKEN_SUPPLY {
      return None;
    }
    return Some(balances);
  }

  lemma NothingWritten()
    ensures Written(map[], Writes([])) == map[]
  {
  }

  lemma OneContract(b: Balances, v: InitState)
    requires SumShares(v.clients) <= v.tokens
    ensures Written(b, WritesOf(v)) == Written(b, v.clients)[v.id := v.tokens - SumShares(v.clients)]
  {
    assert WritesOf(v)[..|v.clients|] == v.clients;
  }

  // ---------------------------------------------------------------- conservation

  /** The sum of all balances. */
  ghost function Sum(b: Balances): nat
    decreases |b|
  {
    if b == map[] then 0
    else
      var k :| k in b;
      assert |(b - {k}).Keys| < |b.Keys| by { assert (b - {k}).Keys == b.Keys - {k}; }
      b[k] + Sum(b - {k})
  }

  lemma {:induction false} SumAt(b: Balances, k: string)
    requires k in b
    ensures Sum(b) == b[k] + Sum(b - {k})
    decreases |b|
  {
    var j :| j in b && Sum(b) == b[j] + Sum(b - {j});
    if j != k {
      assert |(b - {j}).Keys| < |b.Keys| by { assert (b - {j}).Keys == b.Keys - {j}; }
      assert |(b - {k}).Keys| < |b.Keys| by { assert (b - {k}).Keys == b.Keys - {k}; }
      SumAt(b - {j}, k);
      SumAt(b - {k}, j);
      assert b - {j} - {k} == b - {k} - {j};
    }
  }

  lemma SumUpdate(b: Balances, k: string, v: nat)
    ensures Sum(b[k := v]) + (if k in b then b[k] else 0) == Sum(b) + v
  {
    SumAt(b[k := v], k);
    assert b[k := v] - {k} == b - {k};
    if k in b {
      SumAt(b, k);
    } else {
      assert b - {k} == b;
    }
  }

  /** The tokens of writes that a later write of the same id replaced. */
  function Replaced(writes: seq<Share>): nat {
    if writes == [] then 0
    else
      var front, id := writes[..|writes| - 1], writes[|writes| - 1].id;
      Replaced(front) + if id in Written(map[], front) then Written(map[], front)[id] else 0
  }

  lemma {:induction false} BalancesOfWrites(writes: seq<Share>)
    ensures Sum(Written(map[], writes)) + Replaced(writes) == SumShares(writes)
  {
    hide Sum;
    if writes == [] {
      EmptySum();
    } else {
      var front, last := writes[..|writes| - 1], writes[|writes| - 1];
      BalancesOfWrites(front);
      SumUpdate(Written(map[], front), last.id, last.tokens);
    }
  }

  lemma EmptySum()
    ensures Sum(map[]) == 0
  {
  }

  lemma {:induction false} WritesConserve(states: seq<InitState>)
    requires forall i :: 0 <= i < |states| ==> SumShares(states[i].clients) <= states[i].tokens
    ensures SumShares(Writes(states)) == TotalTokens(states)
  {
    if states != [] {
      var front, v := states[..|states| - 1], states[|states| - 1];
      WritesConserve(front);
      SumSharesConcat(Writes(front), WritesOf(v));
      assert WritesOf(v)[..|v.clients|] == v.clients;
    }
  }

  /** The written balances and the replaced amounts together are the maximum supply. */
  lemma GenesisConserves(states: seq<InitState>)
    requires Accepted(states)
    ensures Sum(Written(map[], Writes(states))) + Replaced(Writes(states)) == MAX_TOKEN_SUPPLY
  {
    WritesConserve(states);
    BalancesOfWrites(Writes(states));
  }

  predicate DistinctIds(writes: seq<Share>) {
    forall i, j :: 0 <= i < j < |writes| ==> writes[i].id != writes[j].id
  }

  lemma {:induction false} WrittenIds(writes: seq<Share>, id: string)
    ensures id in Written(map[], writes) <==> exists i :: 0 <= i < |writes| && writes[i].id == id
  {
    if writes != [] {
      var front, last := writes[..|writes| - 1], writes[|writes| - 1];
      WrittenIds(front, id);
      forall i | 0 <= i < |front| ensures front[i] == writes[i] {}
      if last.id == id { assert writes[|writes| - 1].id == id; }
    }
  }

  lemma {:induction false} DistinctReplaceNothing(writes: seq<Share>)
    requires DistinctIds(writes)
    ensures Replaced(writes) == 0
  {
    if writes != [] {
      var front, last := writes[..|writes| - 1], writes[|writes| - 1];
      DistinctReplaceNothing(front);
      WrittenIds(front, last.id);
      assert last.id !in Written(map[], front) by {
        forall i | 0 <= i < |front| ensures front[i].id != last.id { assert writes[i].id != writes[|writes| - 1].id; }
      }
    }
  }

  /** With distinct ids the balances written at genesis sum to exactly the maximum supply. */
  lemma GenesisSumsToSupply(states: seq<InitState>)
    requires Accepted(states) && DistinctIds(Writes(states))
    ensures Sum(Written(map[], Writes(states))) == MAX_TOKEN_SUPPLY
  {
    GenesisConserves(states);
    DistinctReplaceNothing(Writes(states));
  }

  lemma {:induction false} DistinctWrite(writes: seq<Share>, i: nat)
    requires DistinctIds(writes) && i < |writes|
    ensures writes[i].id in Written(map[], writes) && Written(map[], writes)[writes[i].id] == writes[i].tokens
  {
    var n := |writes| - 1;
    if i < n {
      assert writes[..n][i] == writes[i] && writes[i].id != writes[n].id;
      DistinctWrite(writes[..n], i);
    }
  }

  /** Where one contract's writes stand among all. */
  lemma {:induction false} WritesOfContract(states: seq<InitState>, i: nat) returns (at: nat)
    requires i < |states|
    ensures at + |WritesOf(states[i])| <= |Writes(states)|
    ensures Writes(states)[at..at + |WritesOf(states[i])|] == WritesOf(states[i])
  {
    var n := |states| - 1;
    var front, last := Writes(states[..n]), WritesOf(states[n]);
    assert Writes(states) == front + last;
    if i == n {
      at := |front|;
    } else {
      at := WritesOfContract(states[..n], i);
      assert states[..n][i] == states[i];
      assert Writes(states)[at..at + |WritesOf(states[i])|] == front[at..at + |WritesOf(states[i])|];
    }
  }

  /** With distinct ids every client has its configured tokens, and every contract what it keeps. */
  lemma BalancesAsConfigured(states: seq<InitState>, i: nat)
    requires Accepted(states) && DistinctIds(Writes(states)) && i < |states|
    ensures var b, v := Written(map[], Writes(states)), states[i];
      && v.id in b && b[v.id] == v.tokens - SumShares(v.clients)
      && forall j :: 0 <= j < |v.clients| ==> v.clients[j].id in b && b[v.clients[j].id] == v.clients[j].tokens
  {
    hide Written, SumShares, Writes, DistinctIds;
    var v, writes := states[i], Writes(states);
    var at := WritesOfContract(states, i);
    var mine := WritesOf(v);
    forall j | 0 <= j < |mine|
      ensures mine[j].id in Written(map[], writes) && Written(map[], writes)[mine[j].id] == mine[j].tokens
    {
      assert writes[at + j] == writes[at..at + |mine|][j];
      DistinctWrite(writes, at + j);
    }
    assert mine[|v.clients|].id == v.id;
    forall j | 0 <= j < |v.clients| ensures mine[j] == v.clients[j] {}
  }

  /** Whatever is written again later was written as zero. */
  predicate OnlyZerosRepeat(writes: seq<Share>) {
    forall i, j :: 0 <= i < j < |writes| && writes[i].id == writes[j].id ==> writes[i].tokens == 0
  }

  lemma {:induction false} LastWrite(writes: seq<Share>, id: string)
    requires id in Written(map[], writes)
    ensures exists i :: 0 <= i < |writes| && writes[i].id == id && writes[i].tokens == Written(map[], writes)[id] &&
                        forall j :: i < j < |writes| ==> writes[j].id != id
  {
    var front, last := writes[..|writes| - 1], writes[|writes| - 1];
    if last.id == id {
      assert writes[|writes| - 1].id == id;
    } else {
      LastWrite(front, id);
      var i :| 0 <= i < |front| && front[i].id == id && front[i].tokens == Written(map[], front)[id] &&
               forall j :: i < j < |front| ==> front[j].id != id;
      forall j | i < j < |writes| ensures writes[j].id != id {
        if j < |front| { assert writes[j] == front[j]; }
      }
      assert writes[i] == front[i];
    }
  }

  lemma {:induction false} ReplacedNothingExactly(writes: seq<Share>)
    ensures Replaced(writes) == 0 <==> OnlyZerosRepeat(writes)
  {
    hide Written;
    if writes != [] {
      var front, last := writes[..|writes| - 1], writes[|writes| - 1];
      ReplacedNothingExactly(front);
      WrittenIds(front, last.id);
      forall i | 0 <= i < |front| ensures front[i] == writes[i] {}
      if last.id in Written(map[], front) {
        LastWrite(front, last.id);
        var k :| 0 <= k < |front| && front[k].id == last.id && front[k].tokens == Written(map[], front)[last.id] &&
                 forall j :: k < j < |front| ==> front[j].id != last.id;
        if OnlyZerosRepeat(front) && front[k].tokens == 0 {
          forall i, j | 0 <= i < j < |writes| && writes[i].id == writes[j].id ensures writes[i].tokens == 0 {
            if j == |front| && i != k { assert front[i].id == front[k].id; }
          }
        }
        if OnlyZerosRepeat(writes) {
          assert writes[k].id == writes[|front|].id;
        }
      }
      if OnlyZerosRepeat(writes) {
        forall i, j | 0 <= i < j < |front| && front[i].id == front[j].id ensures front[i].tokens == 0 {
          assert writes[i].id == writes[j].id;
        }
      }
    }
  }

  /** In general they do so exactly when no id with tokens is written again. */
  lemma GenesisSumsExactly(states: seq<InitState>)
    requires Accepted(states)
    ensures Sum(Written(map[], Writes(states))) == MAX_TOKEN_SUPPLY <==> OnlyZerosRepeat(Writes(states))
  {
    GenesisConserves(states);
    ReplacedNothingExactly(Writes(states));
  }

  /** A client listed twice loses the first amount. */
  lemma RepeatedClientLosesTokens(contract: string, client: string, first: nat, second: nat)
    requires 0 < first && first + second <= MAX_TOKEN_SUPPLY
    ensures var states := [InitState(contract, MAX_TOKEN_SUPPLY, [Share(client, first), Share(client, second)])];
            Accepted(states) && Sum(Written(map[], Writes(states))) < MAX_TOKEN_SUPPLY
  {
    hide Sum, Written, SumShares, Replaced;
    var shares := [Share(client, first), Share(client, second)];
    var v := InitState(contract, MAX_TOKEN_SUPPLY, shares);
    var states := [v];
    SumOfTwo(shares[0], shares[1]);
    assert states[..0] == [];
    assert TotalTokens(states) == MAX_TOKEN_SUPPLY;
    var w := Writes(states);
    assert w == WritesOf(v);
    assert w[0] == shares[0] && w[1] == shares[1];
    assert !OnlyZerosRepeat(w) by { assert w[0].id == w[1].id; }
    GenesisConserves(states);
    GenesisSumsExactly(states);
  }

  lemma SumOfTwo(a: Share, b: Share)
    ensures SumShares([a, b]) == a.tokens + b.tokens
  {
    assert [a, b][..1] == [a] && [a][..0] == [];
    assert SumShares([a]) == a.tokens;
  }
}
