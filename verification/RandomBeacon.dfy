/**
 The random beacon of a miner: threshold shares for a round's message are collected, parked while the
 round, its timeout count or the previous seed is not ready, and combined into the round's seed.
 A received block may also give a round its seed. The signature scheme is a parameter.
 */
module RandomBeacon {
  import opened Common
  import RoundSeed

  type Party = string

  type Value = string

  /** The signed message: round, timeout count and the previous round's seed. */
  datatype Message = Message(round: int, tc: int, prevSeed: int)

  datatype VrfShare = VrfShare(party: Party, round: int, tc: int, value: Value)

  /** Share verification, recovery of the seed from shares, and the threshold of the keys in force at a round. */
  datatype Scheme = Scheme(
    verify: (Party, Message, Value) -> bool,
    recover: map<Party, Value> -> int,
    threshold: map<int, int>)

  /** `notarized` says that the round has a notarized block: it is not restarted or given a seed any more. */
  datatype Round = Round(tc: int, seed: int, shares: map<Party, Value>, cache: map<Party, VrfShare>, notarized: bool)

  const NEW_ROUND := Round(0, 0, map[], map[], false)

  /** Genesis comes with its block. */
  function GenesisRound(seed: int): Round {
    NEW_ROUND.(seed := seed, notarized := true)
  }

  type Rounds = map<int, Round>

  function MessageFor(rounds: Rounds, n: int): Option<Message>
    requires n in rounds
  {
    if n - 1 !in rounds then None
    else if rounds[n - 1].seed == 0 && n - 1 > 0 then None
    else Some(Message(n, rounds[n].tc, rounds[n - 1].seed))
  }

  function Cached(cache: map<Party, VrfShare>, s: VrfShare): map<Party, VrfShare> {
    if s.party in cache then cache else cache[s.party := s]
  }

  /** A share joins unless the threshold is reached or the party has one already. */
  function Joined(shares: map<Party, Value>, t: int, p: Party, v: Value): map<Party, Value> {
    if |shares| >= t || p in shares then shares else shares[p := v]
  }

  predicate Usable(scheme: Scheme, s: VrfShare, m: Message) {
    s.tc == m.tc && scheme.verify(s.party, m, s.value)
  }

  /** Parked shares, tried in `order`. */
  function Unparked(scheme: Scheme, shares: map<Party, Value>, cache: map<Party, VrfShare>, order: seq<Party>,
                    m: Message, t: int): map<Party, Value>
    requires forall p :: p in order ==> p in cache
    decreases order
  {
    if order == [] then shares
    else
      var s := cache[order[0]];
      var shares' := if Usable(scheme, s, m) then Joined(shares, t, s.party, s.value) else shares;
      Unparked(scheme, shares', cache, order[1..], m, t)
  }

  /** The keys that `order` takes out of the cache. */
  function Cleaned(scheme: Scheme, cache: map<Party, VrfShare>, order: seq<Party>, m: Message): set<Party>
    requires forall p :: p in order ==> p in cache
  {
    set p | p in order && Usable(scheme, cache[p], m) :: cache[p].party
  }

  /** A seed that is not zero may be given to a round that has neither a seed nor a notarized block. */
  predicate MayGive(r: Round, seed: int) {
    r.seed == 0 && !r.notarized && seed != 0
  }

  function Given(r: Round, seed: int): Round {
    if MayGive(r, seed) then r.(seed := seed) else r
  }

  /** With enough shares, the seed given is what they recover. */
  function Seeded(scheme: Scheme, r: Round, t: int): Round {
    if |r.shares| < t then r else Given(r, scheme.recover(r.shares))
  }

  /** A notarized block of another seed is followed if it is the round's first, or of a later timeout. */
  predicate MayAdopt(r: Round, seed: int, tc: int) {
    r.seed != seed && (!r.notarized || tc > r.tc)
  }

  function Adopted(r: Round, seed: int, tc: int): Round {
    (if MayAdopt(r, seed, tc) then r.(seed := seed, tc := if tc > r.tc then tc else r.tc) else r).(notarized := true)
  }

  /** A share for round `n` that has started; `msg` is the round's message, if the previous round is ready. */
  function Added(scheme: Scheme, n: int, r: Round, msg: Option<Message>, s: VrfShare, order: seq<Party>): Round
    requires forall p :: p in order ==> p in r.cache
  {
    if n !in scheme.threshold then r
    else if s.tc != r.tc then if s.tc > r.tc then r.(cache := Cached(r.cache, s)) else r
    else if s.party in r.shares || |r.shares| >= scheme.threshold[n] then r
    else if msg.None? then r.(cache := Cached(r.cache, s))
    else
      var m, t := msg.value, scheme.threshold[n];
      var r1 := r.(shares := Unparked(scheme, r.shares, r.cache, order, m, t),
                   cache := r.cache - Cleaned(scheme, r.cache, order, m));
      if !scheme.verify(s.party, m, s.value) then r1
      else Seeded(scheme, r1.(shares := Joined(r1.shares, t, s.party, s.value)), t)
  }

  function Opened(rounds: Rounds, n: int): Rounds {
    if n in rounds then rounds else rounds[n := NEW_ROUND]
  }

  /** A round without a notarized block starts over, at timeout count `tc`. */
  function Restarted(rounds: Rounds, n: int, tc: int): Rounds {
    if n in rounds && rounds[n].notarized then rounds else rounds[n := Round(tc, 0, map[], map[], false)]
  }

  /** The rounds a deletion below `n` removes: all but genesis that are more than ten before it. */
  function Outdated(rounds: Rounds, n: int): set<int> {
    set k | k in rounds && k < n - 10 && k != 0
  }

  /** The miner's rounds and its handlers; `order` is the order in which the runtime walks the cache. */
  class Beacon {
    const scheme: Scheme
    var rounds: Rounds
    var current: int

    constructor (scheme: Scheme, seed: int)
      ensures this.scheme == scheme && rounds == map[0 := GenesisRound(seed)] && current == 0
    {
      this.scheme := scheme;
      rounds, current := map[0 := GenesisRound(seed)], 0;
    }

    method HandleVRFShare(s: VrfShare, order: seq<Party>)
      requires forall p :: p in order ==> s.round in rounds && p in rounds[s.round].cache
      modifies this`rounds
      ensures var before := Opened(old(rounds), s.round);
              var r := before[s.round];
              rounds == before[s.round := if s.round > current then r.(cache := Cached(r.cache, s))
                                          else Added(scheme, s.round, r, MessageFor(before, s.round), s, order)]
    {
      if s.round !in rounds {
        rounds := rounds[s.round := NEW_ROUND];
      }
      if s.round > current {
        rounds := rounds[s.round := rounds[s.round].(cache := Cached(rounds[s.round].cache, s))];
        return;
      }
      AddVRFShare(s.round, s, order);
    }

    method AddVRFShare(n: int, s: VrfShare, order: seq<Party>)
      requires n in rounds && forall p :: p in order ==> p in rounds[n].cache
      modifies this`rounds
      ensures rounds == old(rounds)[n := Added(scheme, n, old(rounds)[n], MessageFor(old(rounds), n), s, order)]
    {
      var r := rounds[n];
      if n !in scheme.threshold {
        return;
      }
      if s.tc != r.tc {
        if s.tc > r.tc {
          rounds := rounds[n := r.(cache := Cached(r.cache, s))];
        }
        return;
      }
      if s.party in r.shares {
        return;
      }
      var t := scheme.threshold[n];
      if |r.shares| >= t {
        return;
      }
      var msg := MessageFor(rounds, n);
      if msg.None? {
        rounds := rounds[n := r.(cache := Cached(r.cache, s))];
        return;
      }
      r := VerifyCachedVRFShares(scheme, r, order, msg.value, t);
      if !scheme.verify(s.party, msg.value, s.value) {
        rounds := rounds[n := r];
        return;
      }
      r := r.(shares := Joined(r.shares, t, s.party, s.value));
      if r.seed == 0 && |r.shares| >= t {
        var seed := scheme.recover(r.shares);
        if !r.notarized && seed != 0 {
          r := r.(seed := seed);
        }
      }
      rounds := rounds[n := r];
    }

    /**
     A block that its sender calls notarized: a round without a seed takes the block's at once, and only then
     are its tickets looked at. `verified` says that they hold and nobody else is busy with them.
     */
    method HandleNotarizedBlock(n: int, seed: int, tc: int, verified: bool)
      modifies this`rounds
      ensures var before := Opened(old(rounds), n);
              var r := Given(before[n], seed);
              rounds == before[n := if verified then Adopted(r, seed, tc) else r]
    {
      if n !in rounds {
        rounds := rounds[n := NEW_ROUND];
      }
      if rounds[n].seed == 0 {
        if !rounds[n].notarized && seed != 0 {
          rounds := rounds[n := rounds[n].(seed := seed)];
        }
      }
      if verified {
        AddNotarizedBlockToRound(n, seed, tc);
      }
    }

    method AddNotarizedBlockToRound(n: int, seed: int, tc: int)
      requires n in rounds
      modifies this`rounds
      ensures rounds == old(rounds)[n := Adopted(old(rounds)[n], seed, tc)]
    {
      var r := rounds[n];
      if r.seed != seed {
        if !r.notarized || tc > r.tc {
          r := r.(seed := seed);
          if tc > r.tc {
            r := r.(tc := tc);
          }
        }
      }
      rounds := rounds[n := r.(notarized := true)];
    }

    /** The round loses its seed, its shares and its parked shares, and moves to timeout count `tc`. */
    method Restart(n: int, tc: int) returns (ok: bool)
      modifies this`rounds
      ensures rounds == Restarted(old(rounds), n, tc)
      ensures ok <==> !(n in old(rounds) && old(rounds)[n].notarized)
    {
      if n !in rounds {
        rounds := rounds[n := NEW_ROUND];
      }
      if rounds[n].notarized {
        return false;
      }
      rounds := rounds[n := rounds[n].(seed := 0, shares := map[], cache := map[])];
      rounds := rounds[n := rounds[n].(tc := tc)];
      return true;
    }

    /** `walk` lists the rounds as the runtime happens to enumerate them. */
    method DeleteRoundsBelow(n: int, walk: seq<int>)
      requires forall k :: k in walk <==> k in rounds
      modifies this`rounds
      ensures rounds == old(rounds) - Outdated(old(rounds), n)
      ensures forall k :: k in rounds <==> k in old(rounds) && (k == 0 || k >= n - 10)
    {
      var gone := {};
      for i := 0 to |walk|
        invariant rounds == old(rounds)
        invariant forall k :: k in gone <==> k in walk[..i] && k < n - 10 && k != 0
      {
        assert walk[..i + 1] == walk[..i] + [walk[i]];
        if walk[i] < n - 10 && walk[i] != 0 {
          gone := gone + {walk[i]};
        }
      }
      assert walk[..|walk|] == walk;
      forall k ensures k in gone <==> k in Outdated(rounds, n) {}
      rounds := rounds - gone;
    }
  }

  method VerifyCachedVRFShares(scheme: Scheme, r: Round, order: seq<Party>, m: Message, t: int) returns (r': Round)
    requires forall p :: p in order ==> p in r.cache
    ensures r' == r.(shares := Unparked(scheme, r.shares, r.cache, order, m, t),
                     cache := r.cache - Cleaned(scheme, r.cache, order, m))
  {
    var shares, removed := r.shares, {};
    for i := 0 to |order|
      invariant Unparked(scheme, r.shares, r.cache, order, m, t) == Unparked(scheme, shares, r.cache, order[i..], m, t)
      invariant removed == Cleaned(scheme, r.cache, order[..i], m)
    {
      assert order[i..][0] == order[i] && order[i..][1..] == order[i + 1..];
      assert order[..i + 1] == order[..i] + [order[i]];
      var s := r.cache[order[i]];
      if Usable(scheme, s, m) {
        shares := Joined(shares, t, s.party, s.value);
        removed := removed + {s.party};
      }
    }
    assert order[..|order|] == order;
    r' := r.(shares := shares, cache := r.cache - removed);
  }

  predicate SameSeed(r: Round, full: RoundSeed.Round) {
    r.seed == full.seed && r.tc == full.tc && (r.notarized <==> full.notarized != [])
  }

  /** The rules for the seed are those of the round object, seen without its list of blocks. */
  lemma SameRules(r: Round, full: RoundSeed.Round, b: RoundSeed.Block, seed: int)
    requires SameSeed(r, full)
    ensures SameSeed(Adopted(r, b.seed, b.tc), RoundSeed.Adopted(full, b))
    ensures SameSeed(Given(r, seed), RoundSeed.VrfSeeded(full, seed).0)
  {
    hide RoundSeed.LastOfRank, RoundSeed.SortByWeight, RoundSeed.Without;
    var list := RoundSeed.Reranked(full.notarized, b);
    RoundSeed.InSorted(RoundSeed.Without(list, RoundSeed.LastOfRank(list, b.rank)) + [b], b);
  }
}
