/**
 The block fetch worker: requests are coalesced by block hash or by round, fetched from miners first
 and from sharders second, under two semaphores, and every waiter of a request gets its reply.
 `FetchWorker` is the loop's handlers.
 */
module BlockFetcher {
  import opened Common

  datatype FetchKey = ByHash(hash: string) | ByRound(round: int)

  datatype Source = FromMiners | FromSharders

  /** `waiters` are the reply channels; `id` names the request object. */
  datatype Request = Request(id: nat, hash: string, round: int, sharders: bool, waiters: seq<nat>)

  /** A running fetch goroutine; it keeps the request's hash and round. */
  datatype Fetch = Fetch(id: nat, from: Source, hash: string, round: int)

  datatype Reply = Reply(hash: string, round: int, hasBlock: bool)

  datatype Answer = QueueFull | GotBlock(hash: string, round: int) | FetchFailed

  /** What a handler sets off: nothing, an answer to waiters, or a new fetch goroutine. */
  datatype Action = Nothing | Respond(waiters: seq<nat>, answer: Answer) | Launch(fetch: Fetch)

  type Table = map<FetchKey, Request>

  function KeyFor(hash: string, round: int): FetchKey {
    if hash != "" then ByHash(hash) else ByRound(round)
  }

  /** The entry a reply belongs to: by hash first, then by round. */
  function Match(table: Table, rpl: Reply): Option<FetchKey> {
    if rpl.hash != "" && ByHash(rpl.hash) in table then Some(ByHash(rpl.hash))
    else if ByRound(rpl.round) in table then Some(ByRound(rpl.round))
    else None
  }

  /** A reply that ends a request: a block, or an error with nobody left to ask. */
  predicate Ends(rpl: Reply, bfr: Request, latest: int) {
    rpl.hasBlock || bfr.sharders || (bfr.round > 0 && bfr.round > latest)
  }

  function Removed(rpl: Reply): set<FetchKey> {
    {ByRound(rpl.round)} + if rpl.hash != "" then {ByHash(rpl.hash)} else {}
  }

  /** Handling a request. */
  function Admit(table: Table, total: nat, req: Request): (Table, Action) {
    var k := KeyFor(req.hash, req.round);
    if k in table then (table[k := table[k].(waiters := table[k].waiters + req.waiters)], Nothing)
    else if |table| >= total then (table, Respond(req.waiters, QueueFull))
    else (table[k := req],
          Launch(Fetch(req.id, if req.sharders then FromSharders else FromMiners, req.hash, req.round)))
  }

  /** Handling a fetch result. */
  function Consume(table: Table, latest: int, rpl: Reply): (Table, Action) {
    var m := Match(table, rpl);
    if m.None? then (table, Nothing)
    else
      var bfr := table[m.value];
      if Ends(rpl, bfr, latest) then
        (table - Removed(rpl),
         Respond(bfr.waiters, if rpl.hasBlock then GotBlock(rpl.hash, rpl.round) else FetchFailed))
      else
        (table[m.value := bfr.(sharders := true)], Launch(Fetch(bfr.id, FromSharders, bfr.hash, bfr.round)))
  }

  /** The worker's own state and its handlers. */
  class FetchWorker {
    var fetching: Table
    var latest: int
    const total: nat

    constructor (total: nat)
      ensures fetching == map[] && latest == 0 && this.total == total
    {
      fetching, latest := map[], 0;
      this.total := total;
    }

    method HandleTicket(round: int)
      modifies this`latest
      ensures latest == round
    {
      latest := round;
    }

    /** A request arrives while the context is live (acquiring a slot waits until it succeeds). */
    method HandleRequest(bfr: Request) returns (action: Action)
      modifies this`fetching
      ensures (fetching, action) == Admit(old(fetching), total, bfr)
    {
      var k := KeyFor(bfr.hash, bfr.round);
      if k in fetching {
        var have := fetching[k];
        fetching := fetching[k := have.(waiters := have.waiters + bfr.waiters)];
        return Nothing;
      }
      if |fetching| >= total {
        return Respond(bfr.waiters, QueueFull);
      }
      fetching := fetching[k := bfr];
      if bfr.sharders {
        return Launch(Fetch(bfr.id, FromSharders, bfr.hash, bfr.round));
      }
      return Launch(Fetch(bfr.id, FromMiners, bfr.hash, bfr.round));
    }

    /** A fetch result arrives. */
    method HandleReply(rpl: Reply) returns (action: Action)
      modifies this`fetching
      ensures (fetching, action) == Consume(old(fetching), latest, rpl)
    {
      var k := ByHash(rpl.hash);
      if rpl.hash == "" || k !in fetching {
        k := ByRound(rpl.round);
        if k !in fetching {
          return Nothing;
        }
      }
      var bfr := fetching[k];
      if rpl.hasBlock {
        fetching := fetching - {ByRound(rpl.round)};
        if rpl.hash != "" {
          fetching := fetching - {ByHash(rpl.hash)};
        }
        assert fetching == old(fetching) - Removed(rpl);
        return Respond(bfr.waiters, GotBlock(rpl.hash, rpl.round));
      }
      if bfr.sharders || (bfr.round > 0 && bfr.round > latest) {
        fetching := fetching - {ByRound(rpl.round)};
        if rpl.hash != "" {
          fetching := fetching - {ByHash(rpl.hash)};
        }
        assert fetching == old(fetching) - Removed(rpl);
        return Respond(bfr.waiters, FetchFailed);
      }
      fetching := fetching[k := bfr.(sharders := true)];
      return Launch(Fetch(bfr.id, FromSharders, bfr.hash, bfr.round));
    }
  }
}
