/** Which shares a round holds: those that were delivered and verify, until the threshold is filled. */
module BeaconShares {
  import opened Common
  import opened RandomBeacon
  import opened BeaconRuns
  import opened BeaconAgreement
  import opened BeaconStalls

  /** Shares are parked under their own party. */
  ghost predicate Keyed(cache: map<Party, VrfShare>) {
    forall p :: p in cache ==> cache[p].party == p
  }

  /** The share that arrives is looked at: its timeout count is right, its party new, the threshold open. */
  predicate Considered(scheme: Scheme, n: int, r: Round, live: Option<Message>, s: VrfShare) {
    && n in scheme.threshold && s.tc == r.tc && s.party !in r.shares
    && |r.shares| < scheme.threshold[n] && live.Some?
  }

  /** Party `p` has a share that may join: a parked one of the round's timeout count, or the arriving one. */
  predicate MayJoin(scheme: Scheme, r: Round, m: Message, s: VrfShare, order: seq<Party>, p: Party, v: Value)
    requires forall q :: q in order ==> q in r.cache
  {
    || (p in order && r.cache[p].tc == m.tc && scheme.verify(p, m, v) && r.cache[p].value == v)
    || (p == s.party && scheme.verify(p, m, v) && s.value == v)
  }

  // ---------------------------------------------------------------- one share

  lemma {:induction false} UnparkedExactly(scheme: Scheme, shares: map<Party, Value>, cache: map<Party, VrfShare>,
                                           order: seq<Party>, m: Message, t: int)
    requires (forall p :: p in order ==> p in cache) && Keyed(cache) && |shares| <= t
    ensures var all := Unparked(scheme, shares, cache, order, m, t);
      && |shares| <= |all| <= t
      && (forall p :: p in shares ==> p in all && all[p] == shares[p])
      && (forall p :: p in all && p !in shares ==>
            p in order && Usable(scheme, cache[p], m) && all[p] == cache[p].value)
      && (|all| < t ==> forall p :: p in order && Usable(scheme, cache[p], m) ==> p in all)
    decreases order
  {
    if order != [] {
      var p := order[0];
      var s := cache[p];
      assert p in order;
      var shares' := if Usable(scheme, s, m) then Joined(shares, t, s.party, s.value) else shares;
      assert forall q :: q in order[1..] ==> q in order;
      JoinedSize(shares, t, s.party, s.value);
      UnparkedExactly(scheme, shares', cache, order[1..], m, t);
      forall q | q in order ensures q == p || q in order[1..] {}
    }
  }

  lemma JoinedSize(shares: map<Party, Value>, t: int, p: Party, v: Value)
    ensures |Joined(shares, t, p, v)| == if |shares| >= t || p in shares then |shares| else |shares| + 1
  {
    assert shares[p := v].Keys == shares.Keys + {p};
  }

  lemma SeededKeeps(scheme: Scheme, r: Round, t: int)
    ensures Seeded(scheme, r, t).shares == r.shares && Seeded(scheme, r, t).cache == r.cache
  {
  }

  /** The shares after `s` was looked at, step by step. */
  lemma AddedShares(scheme: Scheme, n: int, r: Round, live: Option<Message>, s: VrfShare, order: seq<Party>)
    requires forall p :: p in order ==> p in r.cache
    ensures var r' := Added(scheme, n, r, live, s, order);
      if !Considered(scheme, n, r, live, s) then r'.shares == r.shares
      else
        var m, t := live.value, scheme.threshold[n];
        var parked := Unparked(scheme, r.shares, r.cache, order, m, t);
        r'.shares == if scheme.verify(s.party, m, s.value) then Joined(parked, t, s.party, s.value) else parked
  {
    hide Unparked, Joined, Cached, Cleaned, Seeded;
    if Considered(scheme, n, r, live, s) {
      AddedWhenConsidered(scheme, n, r, live, s, order);
    }
  }

  lemma AddedWhenConsidered(scheme: Scheme, n: int, r: Round, live: Option<Message>, s: VrfShare, order: seq<Party>)
    requires (forall p :: p in order ==> p in r.cache) && Considered(scheme, n, r, live, s)
    ensures var m, t, r' := live.value, scheme.threshold[n], Added(scheme, n, r, live, s, order);
      var parked := Unparked(scheme, r.shares, r.cache, order, m, t);
      && r'.shares == (if scheme.verify(s.party, m, s.value) then Joined(parked, t, s.party, s.value) else parked)
      && r'.cache == r.cache - Cleaned(scheme, r.cache, order, m)
  {
    hide Unparked, Joined, Cached, Cleaned, Seeded;
    var m, t := live.value, scheme.threshold[n];
    var r1 := r.(shares := Unparked(scheme, r.shares, r.cache, order, m, t),
                 cache := r.cache - Cleaned(scheme, r.cache, order, m));
    SeededKeeps(scheme, r1.(shares := Joined(r1.shares, t, s.party, s.value)), t);
  }

  /**
   What a round's shares are after a share was looked at: those it had, with their values, and others only from
   parties that may join; all of those, unless the threshold is filled.
   */
  ghost predicate Collected(scheme: Scheme, r: Round, m: Message, t: int, s: VrfShare, order: seq<Party>,
                            all: map<Party, Value>)
    requires forall p :: p in order ==> p in r.cache
  {
    && |r.shares| <= |all| <= t
    && (forall p :: p in r.shares ==> p in all && all[p] == r.shares[p])
    && (forall p :: p in all && p !in r.shares ==> MayJoin(scheme, r, m, s, order, p, all[p]))
    && (|all| < t ==> forall p, v :: MayJoin(scheme, r, m, s, order, p, v) ==> p in all)
  }

  lemma JoiningCollects(scheme: Scheme, r: Round, m: Message, t: int, s: VrfShare, order: seq<Party>,
                        parked: map<Party, Value>)
    requires (forall p :: p in order ==> p in r.cache) && Keyed(r.cache)
    requires |r.shares| <= |parked| <= t && (forall p :: p in r.shares ==> p in parked && parked[p] == r.shares[p])
    requires forall p :: p in parked && p !in r.shares ==>
               p in order && Usable(scheme, r.cache[p], m) && parked[p] == r.cache[p].value
    requires |parked| < t ==> forall p :: p in order && Usable(scheme, r.cache[p], m) ==> p in parked
    requires s.party !in r.shares
    ensures var all := if scheme.verify(s.party, m, s.value) then Joined(parked, t, s.party, s.value) else parked;
            Collected(scheme, r, m, t, s, order, all)
  {
    JoinedSize(parked, t, s.party, s.value);
  }

  lemma AddedSharesExactly(scheme: Scheme, n: int, r: Round, live: Option<Message>, s: VrfShare, order: seq<Party>)
    requires (forall p :: p in order ==> p in r.cache) && Keyed(r.cache)
    ensures var r' := Added(scheme, n, r, live, s, order);
      if Considered(scheme, n, r, live, s)
      then Collected(scheme, r, live.value, scheme.threshold[n], s, order, r'.shares)
      else r'.shares == r.shares
  {
    hide Added, Unparked, Joined, Collected;
    AddedShares(scheme, n, r, live, s, order);
    if Considered(scheme, n, r, live, s) {
      var m, t := live.value, scheme.threshold[n];
      UnparkedExactly(scheme, r.shares, r.cache, order, m, t);
      var parked := Unparked(scheme, r.shares, r.cache, order, m, t);
      JoiningCollects(scheme, r, m, t, s, order, parked);
    }
  }

  /** A valid share that is looked at is there afterwards, or the threshold is filled. */
  predicate InOrFull(scheme: Scheme, n: int, r: Round, p: Party) {
    n in scheme.threshold && (p in r.shares || |r.shares| >= scheme.threshold[n])
  }

  lemma ValidShareJoins(scheme: Scheme, n: int, r: Round, live: Option<Message>, s: VrfShare, order: seq<Party>)
    requires (forall p :: p in order ==> p in r.cache) && Keyed(r.cache)
    requires n in scheme.threshold && s.tc == r.tc && live.Some? && scheme.verify(s.party, live.value, s.value)
    ensures InOrFull(scheme, n, Added(scheme, n, r, live, s, order), s.party)
  {
    hide Added;
    AddedSharesExactly(scheme, n, r, live, s, order);
    if Considered(scheme, n, r, live, s) {
      assert MayJoin(scheme, r, live.value, s, order, s.party, s.value);
    }
  }

  lemma AddedKeepsIn(scheme: Scheme, n: int, r: Round, live: Option<Message>, s: VrfShare, order: seq<Party>, p: Party)
    requires (forall q :: q in order ==> q in r.cache) && Keyed(r.cache) && InOrFull(scheme, n, r, p)
    ensures InOrFull(scheme, n, Added(scheme, n, r, live, s, order), p)
  {
    hide Added;
    AddedSharesExactly(scheme, n, r, live, s, order);
  }

  /** The share that fills the threshold gives the seed, if what they recover is not zero. */
  lemma FullIsSeeded(scheme: Scheme, n: int, r: Round, live: Option<Message>, s: VrfShare, order: seq<Party>)
    requires (forall p :: p in order ==> p in r.cache) && Considered(scheme, n, r, live, s)
    requires scheme.verify(s.party, live.value, s.value) && r.seed == 0 && !r.notarized
    requires var r' := Added(scheme, n, r, live, s, order);
             |r'.shares| >= scheme.threshold[n] && scheme.recover(r'.shares) != 0
    ensures var r' := Added(scheme, n, r, live, s, order); r'.seed == scheme.recover(r'.shares)
  {
    hide Unparked, Joined, Cached, Cleaned;
  }

  // ---------------------------------------------------------------- parked shares

  /** A share waits: it is of a later timeout count, or the round's message is not known yet. */
  predicate Parks(scheme: Scheme, n: int, r: Round, live: Option<Message>, s: VrfShare) {
    && n in scheme.threshold
    && (s.tc > r.tc || (s.tc == r.tc && s.party !in r.shares && |r.shares| < scheme.threshold[n] && live.None?))
  }

  lemma AddedCache(scheme: Scheme, n: int, r: Round, live: Option<Message>, s: VrfShare, order: seq<Party>)
    requires forall p :: p in order ==> p in r.cache
    ensures var r' := Added(scheme, n, r, live, s, order);
            r'.cache == if Parks(scheme, n, r, live, s) then Cached(r.cache, s)
                        else if !Considered(scheme, n, r, live, s) then r.cache
                        else r.cache - Cleaned(scheme, r.cache, order, live.value)
  {
    hide Unparked, Joined, Cached, Cleaned, Seeded;
    if Considered(scheme, n, r, live, s) {
      AddedWhenConsidered(scheme, n, r, live, s, order);
    }
  }

  lemma CleanedExactly(scheme: Scheme, cache: map<Party, VrfShare>, order: seq<Party>, m: Message)
    requires (forall p :: p in order ==> p in cache) && Keyed(cache)
    ensures forall p :: p in Cleaned(scheme, cache, order, m) <==> p in order && Usable(scheme, cache[p], m)
  {
    forall p | p in order && Usable(scheme, cache[p], m) ensures p in Cleaned(scheme, cache, order, m) {
      assert cache[p].party == p;
    }
  }

  /**
   What is parked after a share arrived: what was, except valid shares of the round's timeout count, and the
   arriving share if it has to wait and its party has none parked.
   */
  lemma AddedCacheExactly(scheme: Scheme, n: int, r: Round, live: Option<Message>, s: VrfShare, order: seq<Party>)
    requires (forall p :: p in order ==> p in r.cache) && Keyed(r.cache)
    ensures var r' := Added(scheme, n, r, live, s, order);
      && Keyed(r'.cache)
      && (Parks(scheme, n, r, live, s) ==> r'.cache == if s.party in r.cache then r.cache else r.cache[s.party := s])
      && (!Parks(scheme, n, r, live, s) && !Considered(scheme, n, r, live, s) ==> r'.cache == r.cache)
      && (Considered(scheme, n, r, live, s) ==>
            forall p :: p in r'.cache <==>
              p in r.cache && !(p in order && Usable(scheme, r.cache[p], live.value)))
      && (forall p :: p in r'.cache && p in r.cache ==> r'.cache[p] == r.cache[p])
  {
    hide Added, Cleaned;
    AddedCache(scheme, n, r, live, s, order);
    if Considered(scheme, n, r, live, s) {
      CleanedExactly(scheme, r.cache, order, live.value);
    }
  }

  /** A parked share leaves the cache only into the round, or because the threshold is filled. */
  lemma ParkedNotLost(scheme: Scheme, n: int, r: Round, live: Option<Message>, s: VrfShare, order: seq<Party>, p: Party)
    requires (forall q :: q in order ==> q in r.cache) && Keyed(r.cache) && p in r.cache
    ensures var r' := Added(scheme, n, r, live, s, order);
            (p in r'.cache && r'.cache[p] == r.cache[p]) || InOrFull(scheme, n, r', p)
  {
    hide Added;
    AddedSharesExactly(scheme, n, r, live, s, order);
    AddedCacheExactly(scheme, n, r, live, s, order);
    if Considered(scheme, n, r, live, s) && p in order && Usable(scheme, r.cache[p], live.value) {
      assert MayJoin(scheme, r, live.value, s, order, p, r.cache[p].value);
    }
  }

  // ---------------------------------------------------------------- whole runs

  ghost predicate AllKeyed(s: State) {
    forall n :: n in s.rounds ==> Keyed(s.rounds[n].cache)
  }

  lemma StepKeepsKeyed(scheme: Scheme, s: State, e: Event)
    requires AllKeyed(s) && Enabled(s, e)
    ensures AllKeyed(Step(scheme, s, e))
  {
    hide Added, MessageFor, Takes;
    if e.Receive? {
      var n := e.share.round;
      AddedCacheExactly(scheme, n, Found(s.rounds, n), MessageFor(Opened(s.rounds, n), n), e.share, e.order);
    } else if e.Own? {
      AddedCacheExactly(scheme, e.round, Found(s.rounds, e.round), MessageFor(Opened(s.rounds, e.round), e.round),
                        e.share, e.order);
    }
  }

  lemma {:induction false} RunKeyed(scheme: Scheme, seed: int, states: seq<State>, events: seq<Event>, i: nat)
    requires IsRun(scheme, seed, states, events) && i < |states|
    ensures AllKeyed(states[i])
  {
    hide Step, Enabled;
    if i > 0 {
      RunKeyed(scheme, seed, states, events, i - 1);
      assert IsStep(scheme, states[i - 1], events[i - 1], states[i]);
      StepKeepsKeyed(scheme, states[i - 1], events[i - 1]);
    }
  }

  /** The step brings round `n` a share of party `p` that is of its timeout count and verifies. */
  predicate Brings(scheme: Scheme, s: State, e: Event, n: int, p: Party) {
    && n in scheme.threshold
    && ((e.Receive? && e.share.round == n && n <= s.current) || (e.Own? && e.round == n))
    && e.share.party == p && e.share.tc == Found(s.rounds, n).tc
    && var msg := MessageFor(Opened(s.rounds, n), n);
       msg.Some? && scheme.verify(p, msg.value, e.share.value)
  }

  lemma BroughtIsIn(scheme: Scheme, s: State, e: Event, n: int, p: Party)
    requires AllKeyed(s) && Enabled(s, e) && Brings(scheme, s, e, n, p)
    ensures n in Step(scheme, s, e).rounds && InOrFull(scheme, n, Step(scheme, s, e).rounds[n], p)
  {
    hide Added, MessageFor, InOrFull;
    ValidShareJoins(scheme, n, Found(s.rounds, n), MessageFor(Opened(s.rounds, n), n), e.share, e.order);
  }

  /** A share that counted goes on to count until the round is restarted or deleted. */
  lemma StepKeepsIn(scheme: Scheme, s: State, e: Event, n: int, p: Party)
    requires AllKeyed(s) && Enabled(s, e) && n in s.rounds && InOrFull(scheme, n, s.rounds[n], p)
    requires n in Step(scheme, s, e).rounds && !Restarts(s, e, n)
    ensures InOrFull(scheme, n, Step(scheme, s, e).rounds[n], p)
  {
    hide Added, MessageFor, Outdated, Cached;
    assert Opened(s.rounds, n) == s.rounds;
    if e.Receive? && e.share.round == n {
      AddedKeepsIn(scheme, n, s.rounds[n], MessageFor(s.rounds, n), e.share, e.order, p);
    } else if e.Own? && e.round == n {
      AddedKeepsIn(scheme, n, s.rounds[n], MessageFor(s.rounds, n), e.share, e.order, p);
    }
  }

  /** From step `i` to step `j` round `n` is neither restarted nor deleted. */
  ghost predicate Lives(states: seq<State>, events: seq<Event>, i: nat, j: nat, n: int)
    requires |states| == |events| + 1 && i <= j < |states|
  {
    && (forall k :: i < k <= j ==> n in states[k].rounds)
    && (forall k :: i <= k < j ==> !Restarts(states[k], events[k], n))
  }

  /** In every run a valid share that was brought is among the round's shares, unless the threshold is filled. */
  lemma {:induction false} BroughtCounts(scheme: Scheme, seed: int, states: seq<State>, events: seq<Event>, i: nat,
                                         j: nat, n: int, p: Party)
    requires IsRun(scheme, seed, states, events) && i < j < |states| && Lives(states, events, i, j, n)
    requires Brings(scheme, states[i], events[i], n, p)
    ensures InOrFull(scheme, n, states[j].rounds[n], p)
    decreases j
  {
    hide Step, Enabled, InOrFull, Restarts, Brings;
    RunKeyed(scheme, seed, states, events, j - 1);
    assert IsStep(scheme, states[j - 1], events[j - 1], states[j]);
    if i == j - 1 {
      BroughtIsIn(scheme, states[i], events[i], n, p);
    } else {
      BroughtCounts(scheme, seed, states, events, i, j - 1, n, p);
      StepKeepsIn(scheme, states[j - 1], events[j - 1], n, p);
    }
  }

  /** The share waits in the round's cache, or its party is among the shares or not needed any more. */
  predicate KeptOrIn(scheme: Scheme, n: int, r: Round, s: VrfShare) {
    (s.party in r.cache && r.cache[s.party] == s) || InOrFull(scheme, n, r, s.party)
  }

  lemma StepKeepsParked(scheme: Scheme, s: State, e: Event, n: int, share: VrfShare)
    requires AllKeyed(s) && Enabled(s, e) && n in s.rounds && KeptOrIn(scheme, n, s.rounds[n], share)
    requires n in Step(scheme, s, e).rounds && !Restarts(s, e, n)
    ensures KeptOrIn(scheme, n, Step(scheme, s, e).rounds[n], share)
  {
    hide Added, MessageFor, Outdated, InOrFull;
    assert Opened(s.rounds, n) == s.rounds;
    if InOrFull(scheme, n, s.rounds[n], share.party) {
      StepKeepsIn(scheme, s, e, n, share.party);
    } else if e.Receive? && e.share.round == n {
      ParkedNotLost(scheme, n, s.rounds[n], MessageFor(s.rounds, n), e.share, e.order, share.party);
    } else if e.Own? && e.round == n {
      ParkedNotLost(scheme, n, s.rounds[n], MessageFor(s.rounds, n), e.share, e.order, share.party);
    }
  }

  /** A share for a future round whose party has none parked there waits for the round. */
  lemma FutureShareWaits(scheme: Scheme, s: State, e: Event)
    requires e.Receive? && Enabled(s, e) && e.share.round > s.current
    requires e.share.party !in Found(s.rounds, e.share.round).cache
    ensures var n := e.share.round;
            n in Step(scheme, s, e).rounds && KeptOrIn(scheme, n, Step(scheme, s, e).rounds[n], e.share)
  {
  }

  /** In every run a parked share waits until it counts, unless its round is restarted or deleted. */
  lemma {:induction false} ParkedStaysInRun(scheme: Scheme, seed: int, states: seq<State>, events: seq<Event>, i: nat,
                                            j: nat, n: int, share: VrfShare)
    requires IsRun(scheme, seed, states, events) && i <= j < |states| && Lives(states, events, i, j, n)
    requires n in states[i].rounds && KeptOrIn(scheme, n, states[i].rounds[n], share)
    ensures KeptOrIn(scheme, n, states[j].rounds[n], share)
    decreases j
  {
    hide Step, Enabled, KeptOrIn, Restarts;
    if i < j {
      ParkedStaysInRun(scheme, seed, states, events, i, j - 1, n, share);
      RunKeyed(scheme, seed, states, events, j - 1);
      assert IsStep(scheme, states[j - 1], events[j - 1], states[j]);
      StepKeepsParked(scheme, states[j - 1], events[j - 1], n, share);
    }
  }

  ghost predicate BroughtSince(scheme: Scheme, states: seq<State>, events: seq<Event>, i: nat, j: nat, n: int, p: Party)
    requires |states| == |events| + 1 && j < |states|
  {
    exists k :: i <= k < j && Brings(scheme, states[k], events[k], n, p)
  }

  /** In every run a round has enough shares once valid ones of as many parties were brought. */
  lemma EnoughIsEnough(scheme: Scheme, seed: int, states: seq<State>, events: seq<Event>, i: nat, j: nat, n: int,
                       parties: set<Party>)
    requires IsRun(scheme, seed, states, events) && i < j < |states| && Lives(states, events, i, j, n)
    requires n in scheme.threshold && |parties| >= scheme.threshold[n]
    requires forall p :: p in parties ==> BroughtSince(scheme, states, events, i, j, n, p)
    ensures |states[j].rounds[n].shares| >= scheme.threshold[n]
  {
    hide IsStep, Restarts, Brings;
    var shares := states[j].rounds[n].shares;
    forall p | p in parties ensures p in shares || |shares| >= scheme.threshold[n] {
      var k :| i <= k < j && Brings(scheme, states[k], events[k], n, p);
      BroughtCounts(scheme, seed, states, events, k, j, n, p);
    }
    if |shares| < scheme.threshold[n] {
      SubsetSize(parties, shares.Keys);
    }
  }

  lemma SubsetSize(a: set<Party>, b: set<Party>)
    requires a <= b
    ensures |a| <= |b|
  {
    assert b == a + (b - a);
  }

  /**
   In every run without seeds from blocks and without a stall: once valid shares of threshold-many parties were
   brought, the round has a seed, and it is the one that any such shares for its message recover.
   */
  lemma EnoughGivesSeed(scheme: Scheme, seed: int, states: seq<State>, events: seq<Event>, i: nat, j: nat, n: int,
                        parties: set<Party>)
    requires IsRun(scheme, seed, states, events) && i < j < |states| && Lives(states, events, i, j, n)
    requires n in scheme.threshold && |parties| >= scheme.threshold[n] > 0
    requires forall p :: p in parties ==> BroughtSince(scheme, states, events, i, j, n, p)
    requires UniqueRecovery(scheme) && TakesNothing(states, events) && n > 0
    requires forall k :: 0 <= k < j && Enabled(states[k], events[k]) ==> !StallStarts(scheme, states[k], events[k], n)
    ensures var r, msg := states[j].rounds[n], MessageFor(AllRounds(states[j]), n);
      && r.seed != 0 && r.seed == scheme.recover(r.shares) && msg.Some?
      && forall given :: Enough(scheme, given, msg.value) ==> scheme.recover(given) == r.seed
  {
    hide IsStep, Restarts, BroughtSince, TakesNothing, StallStarts, UniqueRecovery, Enabled, RoundOk, MessageFor,
      Enough;
    EnoughIsEnough(scheme, seed, states, events, i, j, n, parties);
    NoStallInRun(scheme, seed, states, events, j, n);
    UntouchedRunFits(scheme, seed, states, events, j);
    var s := states[j];
    GoodRound(scheme, s, n, seed);
    SeedOfGood(scheme, n, s.rounds[n], MessageFor(AllRounds(s), n), AllRounds(s));
  }

  lemma SeedOfGood(scheme: Scheme, n: int, r: Round, msg: Option<Message>, all: Rounds)
    requires UniqueRecovery(scheme) && n > 0 && r.seed != 0 && RoundOk(scheme, n, r, msg, false)
    requires n in all && msg == MessageFor(all, n)
    ensures msg.Some? && r.seed == scheme.recover(r.shares)
    ensures forall given :: Enough(scheme, given, msg.value) ==> scheme.recover(given) == r.seed
  {
    hide AllValid;
    assert Enough(scheme, r.shares, msg.value);
  }
}
