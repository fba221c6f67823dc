/** Rounds that have enough shares but no seed: how they come about, and what ends them. */
module BeaconStalls {
  import opened Common
  import opened RandomBeacon
  import opened BeaconRuns

  /** Enough shares, but no seed. */
  predicate Stalled(scheme: Scheme, n: int, r: Round) {
    n in scheme.threshold && |r.shares| >= scheme.threshold[n] && r.seed == 0
  }

  predicate StalledIn(scheme: Scheme, s: State, n: int) {
    n in s.rounds && Stalled(scheme, n, s.rounds[n])
  }

  /**
   The share that arrives passes the first checks; then either it does not verify while parked shares
   alone fill the threshold, or it completes the shares but they recover no seed that may be set.
   */
  predicate Stalls(scheme: Scheme, n: int, r: Round, msg: Option<Message>, s: VrfShare, order: seq<Party>)
    requires n in scheme.threshold && forall p :: p in order ==> p in r.cache
  {
    && r.seed == 0 && s.tc == r.tc && s.party !in r.shares && |r.shares| < scheme.threshold[n] && msg.Some?
    && var m, t := msg.value, scheme.threshold[n];
       var shares := Unparked(scheme, r.shares, r.cache, order, m, t);
       if !scheme.verify(s.party, m, s.value) then |shares| >= t
       else
         var all := Joined(shares, t, s.party, s.value);
         |all| >= t && (r.notarized || scheme.recover(all) == 0)
  }

  /** Exactly when a share leaves its round with enough shares and no seed. */
  lemma StallsExactly(scheme: Scheme, n: int, r: Round, msg: Option<Message>, s: VrfShare, order: seq<Party>)
    requires n in scheme.threshold && !Stalled(scheme, n, r) && forall p :: p in order ==> p in r.cache
    ensures Stalled(scheme, n, Added(scheme, n, r, msg, s, order)) <==> Stalls(scheme, n, r, msg, s, order)
  {
    hide Unparked, Joined, Cached, Cleaned;
  }

  /** The step adds a share that stalls round `n`, or a notarized block takes the seed of a round that has enough. */
  predicate StallStarts(scheme: Scheme, s: State, e: Event, n: int)
    requires Enabled(s, e)
  {
    n in scheme.threshold &&
    var r, msg := Found(s.rounds, n), MessageFor(Opened(s.rounds, n), n);
    match e
    case Receive(share, order) => share.round == n && n <= s.current && Stalls(scheme, n, r, msg, share, order)
    case Own(k, share, order) => k == n && Stalls(scheme, n, r, msg, share, order)
    case Adopt(_, seed, _) => seed == 0 && Takes(s, e, n) && |r.shares| >= scheme.threshold[n]
    case _ => false
  }

  /** Exactly which steps stall a round, where its threshold is positive. */
  lemma StallStartsExactly(scheme: Scheme, s: State, e: Event, n: int)
    requires Enabled(s, e) && (n in scheme.threshold ==> scheme.threshold[n] > 0) && !StalledIn(scheme, s, n)
    ensures StalledIn(scheme, Step(scheme, s, e), n) <==> StallStarts(scheme, s, e, n)
  {
    hide Added, Stalls, Cached, MessageFor;
    var r, msg := Found(s.rounds, n), MessageFor(Opened(s.rounds, n), n);
    if n in scheme.threshold {
      if e.Receive? && e.share.round == n {
        StallsExactly(scheme, n, r, msg, e.share, e.order);
      } else if e.Own? && e.round == n {
        StallsExactly(scheme, n, r, msg, e.share, e.order);
      }
    }
  }

  /** In every run in which no step stalls round `n`, the round has a seed whenever it has enough shares. */
  lemma {:induction false} NoStallInRun(scheme: Scheme, seed: int, states: seq<State>, events: seq<Event>, i: nat,
                                        n: int)
    requires IsRun(scheme, seed, states, events) && i < |states|
    requires n in scheme.threshold && scheme.threshold[n] > 0
    requires forall k :: 0 <= k < i && Enabled(states[k], events[k]) ==> !StallStarts(scheme, states[k], events[k], n)
    ensures n in states[i].rounds && |states[i].rounds[n].shares| >= scheme.threshold[n] ==>
              states[i].rounds[n].seed != 0
  {
    hide Step, Enabled, StallStarts;
    if i > 0 {
      NoStallInRun(scheme, seed, states, events, i - 1, n);
      assert IsStep(scheme, states[i - 1], events[i - 1], states[i]);
      StallStartsExactly(scheme, states[i - 1], events[i - 1], n);
    }
  }

  // ---------------------------------------------------------------- what ends it

  /** A stalled round takes no further share of its timeout count: at most later ones are parked. */
  lemma StalledTakesNothing(scheme: Scheme, n: int, r: Round, msg: Option<Message>, s: VrfShare, order: seq<Party>)
    requires Stalled(scheme, n, r) && forall p :: p in order ==> p in r.cache
    ensures var r' := Added(scheme, n, r, msg, s, order);
            r' == r || (s.tc > r.tc && r' == r.(cache := Cached(r.cache, s)))
  {
  }

  /** A restart, a deletion, or a block that gives the round its seed. */
  predicate EndsStall(s: State, e: Event, n: int) {
    Restarts(s, e, n) || (e.Delete? && n in Outdated(s.rounds, e.below)) || Takes(s, e, n)
  }

  /** A share, for whichever round, leaves a stalled round as it is, except for its parked shares. */
  lemma SharesKeepStall(scheme: Scheme, s: State, e: Event, n: int)
    requires Enabled(s, e) && StalledIn(scheme, s, n) && (e.Receive? || e.Own?)
    ensures var s' := Step(scheme, s, e); n in s'.rounds && s'.rounds[n] == s.rounds[n].(cache := s'.rounds[n].cache)
  {
    hide Added, Cached, MessageFor, Stalled;
    assert Opened(s.rounds, n) == s.rounds;
    var k := if e.Receive? then e.share.round else e.round;
    if k == n {
      StalledTakesNothing(scheme, n, s.rounds[n], MessageFor(s.rounds, n), e.share, e.order);
    }
  }

  /** Exactly which steps end a stall, where the threshold is positive; any other step keeps the round's shares. */
  lemma StallEndsExactly(scheme: Scheme, s: State, e: Event, n: int)
    requires Enabled(s, e) && StalledIn(scheme, s, n) && scheme.threshold[n] > 0
    ensures var s' := Step(scheme, s, e);
      && (!StalledIn(scheme, s', n) <==> EndsStall(s, e, n))
      && (!EndsStall(s, e, n) ==> s'.rounds[n].shares == s.rounds[n].shares && s'.rounds[n].tc == s.rounds[n].tc)
  {
    hide Added, Cached, MessageFor;
    if e.Receive? || e.Own? {
      SharesKeepStall(scheme, s, e, n);
    }
  }

  /** In every run, a stalled round has no seed and no new share until a restart, a deletion or a block ends it. */
  lemma {:induction false} StallLastsInRun(scheme: Scheme, seed: int, states: seq<State>, events: seq<Event>, i: nat,
                                           j: nat, n: int)
    requires IsRun(scheme, seed, states, events) && i <= j < |states|
    requires StalledIn(scheme, states[i], n) && scheme.threshold[n] > 0
    requires forall k :: i <= k < j ==> !EndsStall(states[k], events[k], n)
    ensures StalledIn(scheme, states[j], n) && states[j].rounds[n].shares == states[i].rounds[n].shares
    decreases j
  {
    hide Step, Enabled, Stalled, EndsStall;
    if i < j {
      StallLastsInRun(scheme, seed, states, events, i, j - 1, n);
      assert IsStep(scheme, states[j - 1], events[j - 1], states[j]);
      StallEndsExactly(scheme, states[j - 1], events[j - 1], n);
    }
  }

  // ---------------------------------------------------------------- a run that stalls

  /** Valid shares of distinct parties for round 1 at timeout count 0. */
  ghost predicate Ready(scheme: Scheme, seed: int, good: seq<VrfShare>) {
    && (forall i :: 0 <= i < |good| ==>
          good[i].round == 1 && good[i].tc == 0 && scheme.verify(good[i].party, Message(1, 0, seed), good[i].value))
    && forall i, j :: 0 <= i < j < |good| ==> good[i].party != good[j].party
  }

  function Parties(shares: seq<VrfShare>): (r: seq<Party>)
    ensures |r| == |shares| && forall i :: 0 <= i < |shares| ==> r[i] == shares[i].party
  {
    seq(|shares|, i requires 0 <= i < |shares| => shares[i].party)
  }

  function Arrivals(shares: seq<VrfShare>): (r: seq<Event>)
    ensures |r| == |shares| && forall i :: 0 <= i < |shares| ==> r[i] == Receive(shares[i], [])
  {
    seq(|shares|, i requires 0 <= i < |shares| => Receive(shares[i], []))
  }

  ghost predicate Holds(cache: map<Party, VrfShare>, shares: seq<VrfShare>) {
    && (forall i :: 0 <= i < |shares| ==> shares[i].party in cache && cache[shares[i].party] == shares[i])
    && forall p :: p in cache ==> p in Parties(shares)
  }

  /** The state before round 1 starts, with these shares parked. */
  function Waiting(seed: int, cache: map<Party, VrfShare>): State {
    Start(seed).(rounds := map[0 := GenesisRound(seed), 1 := NEW_ROUND.(cache := cache)])
  }

  lemma {:induction false} ParkAll(scheme: Scheme, seed: int, good: seq<VrfShare>)
    returns (states: seq<State>, cache: map<Party, VrfShare>)
    requires Ready(scheme, seed, good) && |good| > 0
    ensures IsRun(scheme, seed, states, Arrivals(good)) && Holds(cache, good)
    ensures states[|good|] == Waiting(seed, cache)
    decreases |good|
  {
    var last, front := good[|good| - 1], good[..|good| - 1];
    if front == [] {
      cache := map[last.party := last];
      states := [Start(seed), Waiting(seed, cache)];
      assert Step(scheme, Start(seed), Receive(last, [])) == Waiting(seed, cache);
    } else {
      var before, held := ParkAll(scheme, seed, front);
      assert last.party !in held;
      cache := held[last.party := last];
      states := before + [Waiting(seed, cache)];
      assert Step(scheme, Waiting(seed, held), Receive(last, [])) == Waiting(seed, cache);
      ExtendRun(scheme, seed, before, Arrivals(front), Receive(last, []), Waiting(seed, cache));
      assert Arrivals(good) == Arrivals(front) + [Receive(last, [])];
      assert Parties(good) == Parties(front) + [last.party];
    }
  }

  lemma ExtendRun(scheme: Scheme, seed: int, states: seq<State>, events: seq<Event>, e: Event, s': State)
    requires IsRun(scheme, seed, states, events) && IsStep(scheme, states[|events|], e, s')
    ensures IsRun(scheme, seed, states + [s'], events + [e])
  {
    hide IsStep;
    var longer, more := states + [s'], events + [e];
    forall i | 0 <= i < |more| ensures IsStep(scheme, longer[i], more[i], longer[i + 1]) {
      if i < |events| {
        assert IsStep(scheme, states[i], events[i], states[i + 1]);
      }
    }
  }

  /** Usable parked shares of distinct parties all join, up to the threshold. */
  lemma {:induction false} AllJoin(scheme: Scheme, shares: map<Party, Value>, cache: map<Party, VrfShare>,
                                   order: seq<Party>, m: Message, t: int)
    requires forall i :: 0 <= i < |order| ==>
               order[i] in cache && cache[order[i]].party == order[i] && Usable(scheme, cache[order[i]], m)
    requires (forall i, j :: 0 <= i < j < |order| ==> order[i] != order[j]) && forall p :: p in order ==> p !in shares
    requires |shares| + |order| <= t
    ensures |Unparked(scheme, shares, cache, order, m, t)| == |shares| + |order|
    decreases order
  {
    if order != [] {
      var s := cache[order[0]];
      var shares' := Joined(shares, t, s.party, s.value);
      assert |shares'| == |shares| + 1 by { assert shares'.Keys == shares.Keys + {s.party}; }
      AllJoin(scheme, shares', cache, order[1..], m, t);
    }
  }

  /** As many valid shares as the threshold wait for their round to start; then an invalid one arrives. */
  lemma RoundCanStall(scheme: Scheme, seed: int, good: seq<VrfShare>, bad: VrfShare)
    requires 1 in scheme.threshold && scheme.threshold[1] == |good| > 0 && Ready(scheme, seed, good)
    requires bad.round == 1 && bad.tc == 0 && !scheme.verify(bad.party, Message(1, 0, seed), bad.value)
    ensures exists states: seq<State> ::
      IsRun(scheme, seed, states, Arrivals(good) + [Advance(1)] + [Receive(bad, Parties(good))]) &&
      StalledIn(scheme, states[|good| + 2], 1)
  {
    hide Added, Stalls;
    var parked, cache := ParkAll(scheme, seed, good);
    var s1, order := Waiting(seed, cache), Parties(good);
    var s2 := s1.(current := 1);
    assert Step(scheme, s1, Advance(1)) == s2;
    ExtendRun(scheme, seed, parked, Arrivals(good), Advance(1), s2);
    var r := s2.rounds[1];
    var s3 := Step(scheme, s2, Receive(bad, order));
    ExtendRun(scheme, seed, parked + [s2], Arrivals(good) + [Advance(1)], Receive(bad, order), s3);
    AllJoin(scheme, map[], cache, order, Message(1, 0, seed), |good|);
    ParkedSharesStall(scheme, r, Message(1, 0, seed), bad, order);
    assert MessageFor(s2.rounds, 1) == Some(Message(1, 0, seed));
    assert (parked + [s2] + [s3])[|good| + 2] == s3;
  }

  lemma ParkedSharesStall(scheme: Scheme, r: Round, m: Message, bad: VrfShare, order: seq<Party>)
    requires 1 in scheme.threshold && scheme.threshold[1] > 0 && r.shares == map[] && r.seed == 0
    requires bad.tc == r.tc && !scheme.verify(bad.party, m, bad.value) && forall p :: p in order ==> p in r.cache
    requires |Unparked(scheme, map[], r.cache, order, m, scheme.threshold[1])| >= scheme.threshold[1]
    ensures Stalled(scheme, 1, Added(scheme, 1, r, Some(m), bad, order))
  {
    hide Unparked, Cleaned;
  }
}
