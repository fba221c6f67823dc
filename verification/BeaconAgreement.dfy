/** When two miners have the same seed in a round, and where a round's seed comes from. */
module BeaconAgreement {
  import opened Common
  import opened RandomBeacon
  import opened BeaconRuns

  /** Enough valid shares for a message recover one and the same seed. */
  ghost predicate UniqueRecovery(scheme: Scheme) {
    forall m: Message, one, other ::
      Enough(scheme, one, m) && Enough(scheme, other, m) ==> scheme.recover(one) == scheme.recover(other)
  }

  /** The state is reached by a run in which every step fits. */
  ghost predicate ReachedFitting(scheme: Scheme, seed: int, s: State) {
    exists states, events :: FittingRun(scheme, seed, states, events) && states[|events|] == s
  }

  ghost predicate FittingRun(scheme: Scheme, seed: int, states: seq<State>, events: seq<Event>) {
    IsRun(scheme, seed, states, events) && forall i :: 0 <= i < |events| ==> Fits(scheme, states[i], events[i])
  }

  ghost predicate SameTimeouts(a: Rounds, b: Rounds, n: int) {
    forall k :: 0 < k <= n && k in a && k in b ==> a[k].tc == b[k].tc
  }

  lemma UniqueSeed(scheme: Scheme, m: Message, one: int, other: int)
    requires UniqueRecovery(scheme) && Recovers(scheme, m, one) && Recovers(scheme, m, other)
    ensures one == other
  {
  }

  /** Whether its own or taken, a seed is one that the round's message recovers. */
  lemma SeedIsRecovered(scheme: Scheme, n: int, r: Round, msg: Option<Message>, taken: bool)
    requires n > 0 && r.seed != 0 && RoundOk(scheme, n, r, msg, taken) && (msg.Some? ==> msg.value.round == n)
    ensures msg.Some? && Recovers(scheme, msg.value, r.seed)
  {
    hide AllValid;
    if !taken {
      assert Enough(scheme, r.shares, msg.value);
    }
  }

  /** Two good collections with the same timeout counts up to a round both have completed have the same seed there. */
  lemma {:induction false} SeedsAgree(scheme: Scheme, seed: int, a: Rounds, takenA: set<int>, b: Rounds,
                                      takenB: set<int>, n: int)
    requires UniqueRecovery(scheme) && RoundsOk(scheme, a, takenA, seed) && RoundsOk(scheme, b, takenB, seed)
    requires n in a && n in b && (n > 0 ==> a[n].seed != 0 && b[n].seed != 0) && SameTimeouts(a, b, n)
    ensures a[n].seed == b[n].seed
    decreases n
  {
    hide RoundOk, UniqueRecovery, Recovers;
    if n > 0 {
      SeedIsRecovered(scheme, n, a[n], MessageFor(a, n), n in takenA);
      SeedIsRecovered(scheme, n, b[n], MessageFor(b, n), n in takenB);
      SeedsAgree(scheme, seed, a, takenA, b, takenB, n - 1);
      UniqueSeed(scheme, MessageFor(a, n).value, a[n].seed, b[n].seed);
    }
  }

  lemma ReachedIsGood(scheme: Scheme, seed: int, s: State)
    requires ReachedFitting(scheme, seed, s)
    ensures Good(scheme, s, seed)
  {
    hide Step, Enabled, Fits, Good;
    var states, events :| FittingRun(scheme, seed, states, events) && states[|events|] == s;
    RunInvariant(scheme, seed, states, events, |events|);
  }

  /**
   Two miners that start from the same genesis seed and reach the same timeout count in each round up to `n`
   have the same seed in round `n` once both have one, whatever shares each collected, however they arrived,
   whichever rounds each has deleted since, and whichever fitting seeds each took from blocks.
   */
  lemma Agreement(scheme: Scheme, seed: int, a: State, b: State, n: int)
    requires UniqueRecovery(scheme) && ReachedFitting(scheme, seed, a) && ReachedFitting(scheme, seed, b)
    requires n > 0 && n in AllRounds(a) && n in AllRounds(b) && SameTimeouts(AllRounds(a), AllRounds(b), n)
    requires AllRounds(a)[n].seed != 0 && AllRounds(b)[n].seed != 0
    ensures AllRounds(a)[n].seed == AllRounds(b)[n].seed
  {
    hide UniqueRecovery, RoundsOk, AllRounds, ReachedFitting, SameTimeouts;
    ReachedIsGood(scheme, seed, a);
    ReachedIsGood(scheme, seed, b);
    SeedsAgree(scheme, seed, AllRounds(a), a.taken, AllRounds(b), b.taken, n);
  }

  /** Miners that take no seed from a block reach only states of fitting runs, so they agree. */
  lemma AgreementWithoutBlocks(scheme: Scheme, seed: int, one: seq<State>, ones: seq<Event>, two: seq<State>,
                               twos: seq<Event>, n: int)
    requires UniqueRecovery(scheme) && IsRun(scheme, seed, one, ones) && IsRun(scheme, seed, two, twos)
    requires TakesNothing(one, ones) && TakesNothing(two, twos)
    requires var a, b := AllRounds(one[|ones|]), AllRounds(two[|twos|]);
             n > 0 && n in a && n in b && SameTimeouts(a, b, n) && a[n].seed != 0 && b[n].seed != 0
    ensures AllRounds(one[|ones|])[n].seed == AllRounds(two[|twos|])[n].seed
  {
    hide UniqueRecovery, IsStep, AllRounds, SameTimeouts, Fits, TakesNothing;
    UntouchedRunFits(scheme, seed, one, ones, |ones|);
    assert FittingRun(scheme, seed, one, ones);
    UntouchedRunFits(scheme, seed, two, twos, |twos|);
    assert FittingRun(scheme, seed, two, twos);
    Agreement(scheme, seed, one[|ones|], two[|twos|], n);
  }

  /**
   A miner whose round is ready and has no seed is offered one by a block: it then agrees with a miner that
   completed the round at the same timeout counts exactly if the offer fits.
   */
  lemma OfferAgreesExactly(scheme: Scheme, seed: int, a: State, b: State, n: int, x: int)
    requires UniqueRecovery(scheme) && ReachedFitting(scheme, seed, a) && ReachedFitting(scheme, seed, b)
    requires Enabled(a, Offer(n, x)) && Takes(a, Offer(n, x), n)
    requires var all, other := Opened(AllRounds(a), n), AllRounds(b);
             MessageFor(all, n).Some? && n in other && other[n].seed != 0 && SameTimeouts(all, other, n)
    ensures Step(scheme, a, Offer(n, x)).rounds[n].seed == AllRounds(b)[n].seed <==> Fits(scheme, a, Offer(n, x))
  {
    hide UniqueRecovery, RoundOk, Recovers, ReachedFitting;
    ReachedIsGood(scheme, seed, a);
    ReachedIsGood(scheme, seed, b);
    var all, other := Opened(AllRounds(a), n), AllRounds(b);
    OpenedOk(scheme, AllRounds(a), a.taken, n, seed);
    SeedIsRecovered(scheme, n, other[n], MessageFor(other, n), n in b.taken);
    SeedsAgree(scheme, seed, all, a.taken, other, b.taken, n - 1);
    var m := MessageFor(all, n).value;
    assert MessageFor(other, n) == Some(m);
    assert MessageAt(AllRounds(a), n, Found(AllRounds(a), n).tc) == Some(m);
    if Recovers(scheme, m, x) {
      UniqueSeed(scheme, m, x, other[n].seed);
    }
  }

  // ---------------------------------------------------------------- a block that splits two miners

  /**
   One sender, two blocks for round 1 with different seeds, neither notarized: two miners that get one each
   are at the same timeout count and have different seeds.
   */
  lemma OffersCanSplitMiners(scheme: Scheme, seed: int, x: int, y: int)
    requires x != 0 && y != 0 && x != y
    ensures exists one: seq<State>, two: seq<State> ::
      && IsRun(scheme, seed, one, [Advance(1), Offer(1, x)]) && IsRun(scheme, seed, two, [Advance(1), Offer(1, y)])
      && SameTimeouts(AllRounds(one[2]), AllRounds(two[2]), 1)
      && 1 in one[2].rounds && one[2].rounds[1].seed == x && 1 in two[2].rounds && two[2].rounds[1].seed == y
  {
    var one := OfferedRun(scheme, seed, x);
    var two := OfferedRun(scheme, seed, y);
    assert SameTimeouts(AllRounds(one[2]), AllRounds(two[2]), 1);
  }

  lemma OfferedRun(scheme: Scheme, seed: int, x: int) returns (states: seq<State>)
    requires x != 0
    ensures IsRun(scheme, seed, states, [Advance(1), Offer(1, x)])
    ensures states[2] == State(map[0 := GenesisRound(seed), 1 := NEW_ROUND.(seed := x)], 1, 0, map[], 0, {1})
  {
    var s1 := Step(scheme, Start(seed), Advance(1));
    assert s1.rounds == map[0 := GenesisRound(seed), 1 := NEW_ROUND];
    var s2 := Step(scheme, s1, Offer(1, x));
    states := [Start(seed), s1, s2];
    assert {} + {1} == {1};
  }

  /** Shares that arrive later do not replace a seed: only a restart or a notarized block of another seed does. */
  lemma SeedChangesExactly(scheme: Scheme, s: State, e: Event, n: int)
    requires Enabled(s, e) && n in s.rounds && s.rounds[n].seed != 0 && n in Step(scheme, s, e).rounds
    ensures Step(scheme, s, e).rounds[n].seed != s.rounds[n].seed <==>
            Restarts(s, e, n) || (e.Adopt? && Takes(s, e, n))
  {
    hide Added, Cached, MessageFor, Outdated;
    assert Opened(s.rounds, n) == s.rounds;
    if e.Receive? && e.share.round == n {
      AddedSeed(scheme, n, s.rounds[n], MessageFor(s.rounds, n), e.share, e.order);
    } else if e.Own? && e.round == n {
      AddedSeed(scheme, n, s.rounds[n], MessageFor(s.rounds, n), e.share, e.order);
    }
  }

  // ---------------------------------------------------------------- where seeds come from

  lemma StepKeepsParted(scheme: Scheme, s: State, e: Event)
    requires Parted(s) && Enabled(s, e)
    ensures Parted(Step(scheme, s, e))
  {
    hide Added, Cached, MessageFor;
    if e.Delete? {
      DeleteMoves(scheme, s, e.below);
    }
  }

  lemma {:induction false} RunParted(scheme: Scheme, seed: int, states: seq<State>, events: seq<Event>, i: nat)
    requires IsRun(scheme, seed, states, events) && i < |states|
    ensures Parted(states[i])
  {
    hide Step, Enabled;
    if i > 0 {
      RunParted(scheme, seed, states, events, i - 1);
      assert IsStep(scheme, states[i - 1], events[i - 1], states[i]);
      StepKeepsParted(scheme, states[i - 1], events[i - 1]);
    }
  }

  /** Some earlier step took this seed for round `n` from a block. */
  ghost predicate Brought(states: seq<State>, events: seq<Event>, i: nat, n: int, x: int)
    requires i <= |events| <= |states|
  {
    exists j :: 0 <= j < i && Takes(states[j], events[j], n) && events[j].seed == x
  }

  /** A step that leaves round `n` a seed: the seed is its own, or taken now, or the one it had. */
  lemma SeedStep(scheme: Scheme, s: State, e: Event, n: int)
    requires Parted(s) && Enabled(s, e) && n > 0 && n in AllRounds(Step(scheme, s, e))
    requires AllRounds(Step(scheme, s, e))[n].seed != 0
    ensures var r' := AllRounds(Step(scheme, s, e))[n];
      || OwnSeed(scheme, n, r')
      || (Takes(s, e, n) && e.seed == r'.seed)
      || (n in AllRounds(s) && AllRounds(s)[n].seed == r'.seed && !OwnSeed(scheme, n, AllRounds(s)[n]))
  {
    hide Added, Cached, MessageFor, OwnSeed;
    if e.Delete? {
      DeleteMoves(scheme, s, e.below);
    } else if n in s.rounds || n !in s.past {
      LiveSeedStep(scheme, s, e, n);
    }
  }

  lemma LiveSeedStep(scheme: Scheme, s: State, e: Event, n: int)
    requires Parted(s) && Enabled(s, e) && !e.Delete? && n > 0 && n in Step(scheme, s, e).rounds
    requires Step(scheme, s, e).rounds[n].seed != 0
    ensures var r, r' := Found(s.rounds, n), Step(scheme, s, e).rounds[n];
      || OwnSeed(scheme, n, r')
      || (Takes(s, e, n) && e.seed == r'.seed)
      || (n in s.rounds && r.seed == r'.seed && !OwnSeed(scheme, n, r))
  {
    hide Added, Cached, MessageFor;
    var r, before := Found(s.rounds, n), Opened(s.rounds, n);
    if e.Receive? && e.share.round == n {
      AddedSeed(scheme, n, r, MessageFor(before, n), e.share, e.order);
    } else if e.Own? && e.round == n {
      AddedSeed(scheme, n, r, MessageFor(before, n), e.share, e.order);
    }
  }

  /** In every run, fitting or not, a round's seed is recovered from its own shares or was brought by a block. */
  lemma {:induction false} SeedOrigin(scheme: Scheme, seed: int, states: seq<State>, events: seq<Event>, i: nat, n: int)
    requires IsRun(scheme, seed, states, events) && i < |states| && n > 0 && n in AllRounds(states[i])
    requires AllRounds(states[i])[n].seed != 0
    ensures OwnSeed(scheme, n, AllRounds(states[i])[n]) || Brought(states, events, i, n, AllRounds(states[i])[n].seed)
  {
    hide Step, Enabled, OwnSeed, Takes;
    if i > 0 {
      var s, s' := states[i - 1], states[i];
      assert IsStep(scheme, s, events[i - 1], s');
      RunParted(scheme, seed, states, events, i - 1);
      SeedStep(scheme, s, events[i - 1], n);
      var all, x := AllRounds(s), AllRounds(s')[n].seed;
      if n in all && all[n].seed == x && !OwnSeed(scheme, n, all[n]) {
        SeedOrigin(scheme, seed, states, events, i - 1, n);
      }
    }
  }
}
