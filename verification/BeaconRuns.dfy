/**
 A miner's run as far as its random beacon goes: shares arrive and are added, rounds time out, advance, are
 finalized and deleted, and blocks arrive that may give a round its seed. Two miners agree on a round's seed
 as long as every seed taken from a block is the one the round's message recovers.
 */
module BeaconRuns {
  import opened Common
  import opened RandomBeacon

  /**
   `past` keeps what deleted rounds held, all of them before `floor`; `taken` are the rounds that got their
   seed from a block.
   */
  datatype State = State(rounds: Rounds, current: int, lfb: int, past: Rounds, floor: int, taken: set<int>)

  /** The round a restart goes to: the current one, or the one after the last finalized block if that is later. */
  function Frontier(s: State): int {
    if s.lfb + 1 > s.current then s.lfb + 1 else s.current
  }

  /** The rounds a miner has, together with those it deleted. */
  function AllRounds(s: State): Rounds {
    s.past + s.rounds
  }

  /** `Offer` is a block whose tickets are not verified yet, `Adopt` one that is notarized. */
  datatype Event =
    | Receive(share: VrfShare, order: seq<Party>)
    | Own(round: int, share: VrfShare, order: seq<Party>)
    | Offer(round: int, seed: int)
    | Adopt(round: int, seed: int, tc: int)
    | TimeOut(tc: int)
    | Advance(round: int)
    | Finalize(round: int)
    | Delete(below: int)

  /**
   Shares for rounds before the current one are rejected on arrival, so none reaches a round that was
   deleted, nor does a block, or one for genesis; a miner adds its own share only up to the frontier; rounds
   and finalization only move on; deletion follows finalization.
   */
  predicate Enabled(s: State, e: Event) {
    match e
    case Receive(share, order) =>
      share.round >= s.floor && forall p :: p in order ==> share.round in s.rounds && p in s.rounds[share.round].cache
    case Own(n, _, order) =>
      s.floor <= n <= Frontier(s) && forall p :: p in order ==> n in s.rounds && p in s.rounds[n].cache
    case Offer(n, _) => n > 0 && n >= s.floor
    case Adopt(n, _, _) => n > 0 && n >= s.floor
    case TimeOut(_) => true
    case Advance(n) => n >= s.current && n >= s.floor
    case Finalize(n) => n >= s.lfb
    case Delete(n) => n <= s.lfb
  }

  /** The round as a handler finds or creates it. */
  function Found(rounds: Rounds, n: int): Round {
    if n in rounds then rounds[n] else NEW_ROUND
  }

  /** The step gives round `n` a seed, its first or another, that comes from a block. */
  predicate Takes(s: State, e: Event, n: int) {
    match e
    case Offer(k, seed) => k == n && MayGive(Found(s.rounds, n), seed)
    case Adopt(k, seed, tc) => k == n && MayAdopt(Found(s.rounds, n), seed, tc)
    case _ => false
  }

  /** The step restarts round `n`. */
  predicate Restarts(s: State, e: Event, n: int) {
    e.TimeOut? && Frontier(s) == n && !Found(s.rounds, n).notarized
  }

  function Step(scheme: Scheme, s: State, e: Event): State
    requires Enabled(s, e)
  {
    match e
    case Receive(share, order) =>
      var n, before := share.round, Opened(s.rounds, share.round);
      var r := before[n];
      s.(rounds := before[n := if n > s.current then r.(cache := Cached(r.cache, share))
                               else Added(scheme, n, r, MessageFor(before, n), share, order)])
    case Own(n, share, order) =>
      var before := Opened(s.rounds, n);
      s.(rounds := before[n := Added(scheme, n, before[n], MessageFor(before, n), share, order)])
    case Offer(n, seed) =>
      s.(rounds := s.rounds[n := Given(Found(s.rounds, n), seed)],
         taken := if Takes(s, e, n) then s.taken + {n} else s.taken)
    case Adopt(n, seed, tc) =>
      s.(rounds := s.rounds[n := Adopted(Found(s.rounds, n), seed, tc)],
         taken := if Takes(s, e, n) then s.taken + {n} else s.taken)
    case TimeOut(tc) =>
      var n := Frontier(s);
      s.(rounds := Restarted(s.rounds, n, tc), taken := if Restarts(s, e, n) then s.taken - {n} else s.taken)
    case Advance(n) => s.(rounds := Opened(s.rounds, n), current := n)
    case Finalize(n) => s.(lfb := n)
    case Delete(n) =>
      var gone := Outdated(s.rounds, n);
      s.(rounds := s.rounds - gone, past := s.past + (map k | k in gone :: s.rounds[k]),
         floor := if n - 10 > s.floor then n - 10 else s.floor)
  }

  function Start(seed: int): State {
    State(map[0 := GenesisRound(seed)], 0, 0, map[], 0, {})
  }

  ghost predicate IsRun(scheme: Scheme, seed: int, states: seq<State>, events: seq<Event>) {
    && |states| == |events| + 1
    && states[0] == Start(seed)
    && forall i :: 0 <= i < |events| ==> IsStep(scheme, states[i], events[i], states[i + 1])
  }

  ghost predicate IsStep(scheme: Scheme, s: State, e: Event, s': State) {
    Enabled(s, e) && s' == Step(scheme, s, e)
  }

  // ---------------------------------------------------------------- what a round may hold

  ghost predicate AllValid(scheme: Scheme, shares: map<Party, Value>, m: Message) {
    forall p :: p in shares ==> scheme.verify(p, m, shares[p])
  }

  ghost predicate Enough(scheme: Scheme, shares: map<Party, Value>, m: Message) {
    m.round in scheme.threshold && |shares| >= scheme.threshold[m.round] && AllValid(scheme, shares, m)
  }

  /** Enough valid shares for the message, wherever they are, recover this seed. */
  ghost predicate Recovers(scheme: Scheme, m: Message, seed: int) {
    exists shares :: Enough(scheme, shares, m) && scheme.recover(shares) == seed
  }

  /** The round's own shares recover its seed. */
  predicate OwnSeed(scheme: Scheme, n: int, r: Round) {
    n in scheme.threshold && |r.shares| >= scheme.threshold[n] && r.seed == scheme.recover(r.shares)
  }

  /**
   A round whose seed is its own holds shares only for its present message, and a seed only if enough of them
   recover it. A seed taken from a block is one that the message recovers; after a block without a seed the
   round gets no other.
   */
  ghost predicate RoundOk(scheme: Scheme, n: int, r: Round, msg: Option<Message>, taken: bool) {
    && (n == 0 ==> r.shares == map[])
    && (n > 0 && !taken && (r.shares != map[] || r.seed != 0) ==> msg.Some? && AllValid(scheme, r.shares, msg.value))
    && (n > 0 && !taken && r.seed != 0 ==> OwnSeed(scheme, n, r))
    && (n > 0 && taken && r.seed != 0 ==> msg.Some? && Recovers(scheme, msg.value, r.seed))
    && (taken && r.seed == 0 ==> r.notarized)
  }

  ghost predicate RoundsOk(scheme: Scheme, all: Rounds, taken: set<int>, seed: int) {
    && 0 in all && all[0].seed == seed
    && (forall n :: n in taken ==> n > 0 && n in all)
    && (forall n :: n in all ==> n >= 0 && RoundOk(scheme, n, all[n], MessageFor(all, n), n in taken))
  }

  /** Beyond the frontier rounds hold nothing but parked shares and seeds taken from blocks. */
  ghost predicate Quiet(rounds: Rounds, taken: set<int>, frontier: int) {
    forall n :: n in rounds && n > frontier ==> rounds[n].shares == map[] && (n !in taken ==> rounds[n].seed == 0)
  }

  /** Deleted rounds are before the floor, and apart from genesis no others are. */
  ghost predicate Parted(s: State) {
    && 0 in s.rounds && 0 <= s.floor <= s.lfb && s.current >= 0
    && (forall n :: n in s.past ==> 0 < n < s.floor)
    && (forall n :: n in s.rounds ==> n == 0 || n >= s.floor)
  }

  ghost predicate Good(scheme: Scheme, s: State, seed: int) {
    Parted(s) && RoundsOk(scheme, AllRounds(s), s.taken, seed) && Quiet(s.rounds, s.taken, Frontier(s))
  }

  /** The message of round `n` at timeout count `tc`. */
  function MessageAt(all: Rounds, n: int, tc: int): Option<Message> {
    MessageFor(all[n := Found(all, n).(tc := tc)], n)
  }

  ghost predicate MessageRecovers(scheme: Scheme, msg: Option<Message>, seed: int) {
    msg.Some? && Recovers(scheme, msg.value, seed)
  }

  /** What round `n` holds is right also if the previous round's seed is `seed`. */
  ghost predicate Stands(scheme: Scheme, n: int, r: Round, taken: bool, seed: int) {
    var m := Message(n, r.tc, seed);
    if taken then r.seed == 0 || (seed != 0 && Recovers(scheme, m, r.seed))
    else (r.shares == map[] && r.seed == 0) || (seed != 0 && AllValid(scheme, r.shares, m))
  }

  /**
   A seed is taken only if the round's message recovers it, at the timeout count it is then at, and the next
   round holds nothing that hangs on another seed; a round is restarted only if the next one has no seed.
   */
  ghost predicate Fits(scheme: Scheme, s: State, e: Event) {
    var all := AllRounds(s);
    match e
    case Offer(n, seed) => Takes(s, e, n) ==> MessageRecovers(scheme, MessageAt(all, n, Found(all, n).tc), seed)
    case Adopt(n, seed, tc) =>
      Takes(s, e, n) ==>
        && (seed != 0 ==> MessageRecovers(scheme, MessageAt(all, n, Adopted(Found(all, n), seed, tc).tc), seed))
        && (n + 1 in all ==> Stands(scheme, n + 1, all[n + 1], n + 1 in s.taken, seed))
    case TimeOut(_) => Restarts(s, e, Frontier(s)) ==> Found(s.rounds, Frontier(s) + 1).seed == 0
    case _ => true
  }

  // ---------------------------------------------------------------- adding shares

  lemma {:induction false} UnparkedValid(scheme: Scheme, shares: map<Party, Value>, cache: map<Party, VrfShare>,
                                         order: seq<Party>, m: Message, t: int)
    requires (forall p :: p in order ==> p in cache) && AllValid(scheme, shares, m)
    ensures AllValid(scheme, Unparked(scheme, shares, cache, order, m, t), m)
    decreases order
  {
    if order != [] {
      var s := cache[order[0]];
      var shares' := if Usable(scheme, s, m) then Joined(shares, t, s.party, s.value) else shares;
      UnparkedValid(scheme, shares', cache, order[1..], m, t);
    }
  }

  lemma SeededOk(scheme: Scheme, n: int, r: Round, m: Message)
    requires n > 0 && n in scheme.threshold && r.seed == 0 && AllValid(scheme, r.shares, m)
    ensures RoundOk(scheme, n, Seeded(scheme, r, scheme.threshold[n]), Some(m), false)
    ensures var r' := Seeded(scheme, r, scheme.threshold[n]); r'.tc == r.tc && r'.notarized == r.notarized
  {
    hide AllValid;
  }

  /**
   Adding a share keeps a round's shares valid for its message `msg`, and finds its seed only from enough of
   them. `live` is the message as far as the miner still knows it: none once the previous round is deleted.
   */
  lemma AddedOk(scheme: Scheme, n: int, r: Round, msg: Option<Message>, live: Option<Message>, s: VrfShare,
                order: seq<Party>)
    requires n >= 0 && (live.None? || live == msg) && (n == 0 ==> live.None?)
    requires (forall p :: p in order ==> p in r.cache) && RoundOk(scheme, n, r, msg, false)
    ensures RoundOk(scheme, n, Added(scheme, n, r, live, s, order), msg, false)
  {
    hide Unparked, Cleaned, Joined, AllValid, Seeded, Cached;
    if n in scheme.threshold && s.tc == r.tc && s.party !in r.shares && |r.shares| < scheme.threshold[n] && live.Some? {
      var m, t := live.value, scheme.threshold[n];
      assert r.seed == 0;
      NoneValid(scheme, m);
      UnparkedValid(scheme, r.shares, r.cache, order, m, t);
      var r1 := r.(shares := Unparked(scheme, r.shares, r.cache, order, m, t),
                   cache := r.cache - Cleaned(scheme, r.cache, order, m));
      if scheme.verify(s.party, m, s.value) {
        JoinedValid(scheme, r1.shares, t, s.party, s.value, m);
        SeededOk(scheme, n, r1.(shares := Joined(r1.shares, t, s.party, s.value)), m);
      }
    }
  }

  lemma NoneValid(scheme: Scheme, m: Message)
    ensures AllValid(scheme, map[], m)
  {
  }

  lemma JoinedValid(scheme: Scheme, shares: map<Party, Value>, t: int, p: Party, v: Value, m: Message)
    requires AllValid(scheme, shares, m) && scheme.verify(p, m, v)
    ensures AllValid(scheme, Joined(shares, t, p, v), m)
  {
  }

  /** Adding a share replaces no seed, and gives none to a round with a notarized block; a new seed is its own. */
  lemma AddedSeed(scheme: Scheme, n: int, r: Round, live: Option<Message>, s: VrfShare, order: seq<Party>)
    requires forall p :: p in order ==> p in r.cache
    ensures var r' := Added(scheme, n, r, live, s, order);
      && r'.tc == r.tc && r'.notarized == r.notarized
      && (r.seed != 0 || r.notarized || live.None? ==> r'.seed == r.seed)
      && (live.None? ==> r'.shares == r.shares)
      && (r'.seed != r.seed || OwnSeed(scheme, n, r) ==> OwnSeed(scheme, n, r'))
  {
    hide Unparked, Cleaned, Joined, Cached;
  }

  /** The same for a round whose seed was taken from a block. */
  lemma AddedToTaken(scheme: Scheme, n: int, r: Round, msg: Option<Message>, live: Option<Message>, s: VrfShare,
                     order: seq<Party>)
    requires n > 0 && (forall p :: p in order ==> p in r.cache) && RoundOk(scheme, n, r, msg, true)
    ensures RoundOk(scheme, n, Added(scheme, n, r, live, s, order), msg, true)
  {
    hide Added, Recovers, AllValid, OwnSeed;
    AddedSeed(scheme, n, r, live, s, order);
  }

  // ---------------------------------------------------------------- replacing one round

  /** With no message a round holds nothing that a message could contradict. */
  lemma NothingWithoutMessage(scheme: Scheme, n: int, r: Round, msg: Option<Message>, taken: bool)
    requires n > 0 && RoundOk(scheme, n, r, None, taken)
    ensures RoundOk(scheme, n, r, msg, taken)
  {
    hide AllValid, Recovers, OwnSeed;
  }

  /** Putting `r` in place of round `n` concerns only that round and the next. */
  lemma ReplaceExactly(scheme: Scheme, all: Rounds, taken: set<int>, n: int, r: Round, taken': set<int>, seed: int)
    requires RoundsOk(scheme, all, taken, seed) && n >= 0 && (n == 0 ==> r.seed == seed)
    requires (n in taken' ==> n > 0) && forall k :: k != n ==> (k in taken' <==> k in taken)
    ensures var all' := all[n := r];
      RoundsOk(scheme, all', taken', seed) <==>
        RoundOk(scheme, n, r, MessageFor(all', n), n in taken') &&
        (n + 1 in all ==> RoundOk(scheme, n + 1, all[n + 1], MessageFor(all', n + 1), n + 1 in taken))
  {
    hide RoundOk;
    var all' := all[n := r];
    assert RoundsOk(scheme, all', taken', seed) ==>
        RoundOk(scheme, n, all'[n], MessageFor(all', n), n in taken') &&
        (n + 1 in all ==> RoundOk(scheme, n + 1, all'[n + 1], MessageFor(all', n + 1), n + 1 in taken'));
    if RoundOk(scheme, n, r, MessageFor(all', n), n in taken') &&
       (n + 1 in all ==> RoundOk(scheme, n + 1, all[n + 1], MessageFor(all', n + 1), n + 1 in taken)) {
      forall k | k in all' ensures k >= 0 && RoundOk(scheme, k, all'[k], MessageFor(all', k), k in taken') {
        if k != n && k != n + 1 {
          assert MessageFor(all', k) == MessageFor(all, k);
        }
      }
    }
  }

  /** A round that keeps its seed, or gets one where there was none, does not disturb the next. */
  lemma NextUndisturbed(scheme: Scheme, all: Rounds, taken: set<int>, n: int, r: Round, seed: int)
    requires RoundsOk(scheme, all, taken, seed) && n >= 0 && n + 1 in all
    requires n !in all || r.seed == all[n].seed || (n > 0 && all[n].seed == 0)
    ensures RoundOk(scheme, n + 1, all[n + 1], MessageFor(all[n := r], n + 1), n + 1 in taken)
  {
    hide RoundOk;
    if n !in all || r.seed != all[n].seed {
      NothingWithoutMessage(scheme, n + 1, all[n + 1], MessageFor(all[n := r], n + 1), n + 1 in taken);
    }
  }

  lemma OpenedOk(scheme: Scheme, all: Rounds, taken: set<int>, n: int, seed: int)
    requires RoundsOk(scheme, all, taken, seed) && n >= 0
    ensures RoundsOk(scheme, Opened(all, n), taken, seed)
  {
    hide AllValid, Recovers, OwnSeed;
    if n !in all {
      ReplaceExactly(scheme, all, taken, n, NEW_ROUND, taken, seed);
      if n + 1 in all {
        NextUndisturbed(scheme, all, taken, n, NEW_ROUND, seed);
      }
    }
  }

  /** A round's own message depends on the round only through its timeout count. */
  lemma MessageOfReplaced(all: Rounds, n: int, r: Round)
    ensures MessageFor(all[n := r], n) == MessageAt(all, n, r.tc)
  {
  }

  // ---------------------------------------------------------------- live and deleted rounds

  /** A live round's message is the same with the deleted rounds in view, or missing because of a deletion. */
  lemma LiveMessage(s: State, n: int)
    requires Parted(s) && n in s.rounds
    ensures MessageFor(s.rounds, n).None? || MessageFor(s.rounds, n) == MessageFor(AllRounds(s), n)
    ensures n == 0 ==> MessageFor(s.rounds, n).None?
  {
  }

  lemma ReplacedParts(s: State, n: int, r: Round, taken: set<int>)
    requires Parted(s) && n >= s.floor
    ensures Parted(s.(rounds := s.rounds[n := r], taken := taken))
    ensures AllRounds(s.(rounds := s.rounds[n := r], taken := taken)) == AllRounds(s)[n := r]
    ensures Found(AllRounds(s), n) == Found(s.rounds, n) && (n in AllRounds(s) <==> n in s.rounds)
    ensures n + 1 in AllRounds(s) <==> n + 1 in s.rounds
    ensures n + 1 in s.rounds ==> AllRounds(s)[n + 1] == s.rounds[n + 1]
  {
    assert n !in s.past && n + 1 !in s.past;
  }

  lemma OpenedGood(scheme: Scheme, s: State, n: int, seed: int)
    requires Good(scheme, s, seed) && n >= s.floor
    ensures Good(scheme, s.(rounds := Opened(s.rounds, n)), seed)
  {
    hide RoundsOk, Parted, AllRounds;
    assert s.taken == s.(rounds := Opened(s.rounds, n)).taken;
    OpenedParts(s, n);
    assert n >= 0 by { FloorIsPositive(s); }
    OpenedOk(scheme, AllRounds(s), s.taken, n, seed);
  }

  lemma FloorIsPositive(s: State)
    requires Parted(s)
    ensures s.floor >= 0 && Frontier(s) > s.floor
  {
  }

  lemma OpenedParts(s: State, n: int)
    requires Parted(s) && n >= s.floor
    ensures var s' := s.(rounds := Opened(s.rounds, n)); Parted(s') && AllRounds(s') == Opened(AllRounds(s), n)
  {
    if n !in s.rounds {
      ReplacedParts(s, n, NEW_ROUND, s.taken);
      assert s.(rounds := Opened(s.rounds, n)) == s.(rounds := s.rounds[n := NEW_ROUND], taken := s.taken);
    }
  }

  /** Deleting only moves rounds out of sight. */
  lemma DeleteMoves(scheme: Scheme, s: State, n: int)
    requires Parted(s) && n <= s.lfb
    ensures var s' := Step(scheme, s, Delete(n));
            Parted(s') && AllRounds(s') == AllRounds(s) &&
            forall k :: k in s'.rounds ==> k in s.rounds && s'.rounds[k] == s.rounds[k]
  {
    var gone := Outdated(s.rounds, n);
    assert s.past + (map k | k in gone :: s.rounds[k]) + (s.rounds - gone) == s.past + s.rounds;
  }

  // ---------------------------------------------------------------- what every step keeps

  /** Putting `r` in place of a live round keeps the invariant exactly if that round and the next are right. */
  lemma ReplaceGoodExactly(scheme: Scheme, s: State, n: int, r: Round, taken: set<int>, seed: int)
    requires Good(scheme, s, seed) && n >= s.floor && (n == 0 ==> r.seed == seed)
    requires (n in taken ==> n > 0) && forall k :: k != n ==> (k in taken <==> k in s.taken)
    requires n > Frontier(s) ==> r.shares == map[] && (n !in taken ==> r.seed == 0)
    ensures var all := AllRounds(s);
      Good(scheme, s.(rounds := s.rounds[n := r], taken := taken), seed) <==>
        RoundOk(scheme, n, r, MessageAt(all, n, r.tc), n in taken) &&
        (n + 1 in s.rounds ==>
          RoundOk(scheme, n + 1, s.rounds[n + 1], MessageFor(all[n := r], n + 1), n + 1 in s.taken))
  {
    hide RoundsOk, RoundOk, MessageFor, AllRounds, Parted;
    var all := AllRounds(s);
    FloorIsPositive(s);
    ReplacedParts(s, n, r, taken);
    MessageOfReplaced(all, n, r);
    ReplaceExactly(scheme, all, s.taken, n, r, taken, seed);
  }

  /** What the invariant says about a live round. */
  lemma GoodRound(scheme: Scheme, s: State, n: int, seed: int)
    requires Good(scheme, s, seed) && n in s.rounds
    ensures n >= 0 && RoundOk(scheme, n, s.rounds[n], MessageFor(AllRounds(s), n), n in s.taken)
    ensures n in AllRounds(s) && AllRounds(s)[n] == s.rounds[n]
    ensures n == 0 ==> s.rounds[n].seed == seed && n !in s.taken
    ensures n > Frontier(s) ==> s.rounds[n].shares == map[] && (n !in s.taken ==> s.rounds[n].seed == 0)
  {
    hide RoundOk;
    assert n !in s.past;
  }

  /** Replacing a live round by one with the same seed, or a first seed, does not disturb the next. */
  lemma NextGood(scheme: Scheme, s: State, n: int, r: Round, seed: int)
    requires Good(scheme, s, seed) && n >= s.floor && n + 1 in s.rounds
    requires n !in s.rounds || r.seed == s.rounds[n].seed || (n > 0 && s.rounds[n].seed == 0)
    ensures RoundOk(scheme, n + 1, s.rounds[n + 1], MessageFor(AllRounds(s)[n := r], n + 1), n + 1 in s.taken)
  {
    hide RoundsOk, RoundOk, MessageFor, AllRounds, Parted;
    FloorIsPositive(s);
    ReplacedParts(s, n, r, s.taken);
    GoodRound(scheme, s, n + 1, seed);
    NextUndisturbed(scheme, AllRounds(s), s.taken, n, r, seed);
  }

  lemma AddStepOk(scheme: Scheme, s: State, n: int, share: VrfShare, order: seq<Party>, seed: int)
    requires Good(scheme, s, seed) && n in s.rounds && s.floor <= n <= Frontier(s)
    requires forall p :: p in order ==> p in s.rounds[n].cache
    ensures var r := Added(scheme, n, s.rounds[n], MessageFor(s.rounds, n), share, order);
            Good(scheme, s.(rounds := s.rounds[n := r]), seed)
  {
    hide Added, RoundOk, MessageFor, RoundsOk, AllRounds, Quiet, Good, MessageAt;
    var all, live := AllRounds(s), MessageFor(s.rounds, n);
    var r := Added(scheme, n, s.rounds[n], live, share, order);
    GoodRound(scheme, s, n, seed);
    LiveMessageGood(scheme, s, n, seed);
    AddedSeed(scheme, n, s.rounds[n], live, share, order);
    if n in s.taken {
      AddedToTaken(scheme, n, s.rounds[n], MessageFor(all, n), live, share, order);
    } else {
      AddedOk(scheme, n, s.rounds[n], MessageFor(all, n), live, share, order);
    }
    KeepOk(scheme, s, n, r, seed);
  }

  lemma LiveMessageGood(scheme: Scheme, s: State, n: int, seed: int)
    requires Good(scheme, s, seed) && n in s.rounds
    ensures MessageFor(s.rounds, n).None? || MessageFor(s.rounds, n) == MessageFor(AllRounds(s), n)
    ensures n == 0 ==> MessageFor(s.rounds, n).None?
  {
    hide RoundsOk, MessageFor;
    LiveMessage(s, n);
  }

  /** A live round may be replaced by one of the same timeout count, and the same seed if it had one. */
  lemma KeepOk(scheme: Scheme, s: State, n: int, r: Round, seed: int)
    requires Good(scheme, s, seed) && n in s.rounds && n >= s.floor && r.tc == s.rounds[n].tc
    requires s.rounds[n].seed != 0 || n == 0 ==> r.seed == s.rounds[n].seed
    requires n > Frontier(s) ==> r.shares == map[] && r.seed == s.rounds[n].seed
    requires RoundOk(scheme, n, r, MessageFor(AllRounds(s), n), n in s.taken)
    ensures Good(scheme, s.(rounds := s.rounds[n := r]), seed)
  {
    hide RoundOk, MessageFor, RoundsOk, AllRounds, Quiet, Good;
    GoodRound(scheme, s, n, seed);
    ReplaceGoodExactly(scheme, s, n, r, s.taken, seed);
    assert s.(rounds := s.rounds[n := r], taken := s.taken) == s.(rounds := s.rounds[n := r]);
    SameMessage(AllRounds(s), n, r);
    MessageOfReplaced(AllRounds(s), n, r);
    if n + 1 in s.rounds {
      NextGood(scheme, s, n, r, seed);
    }
  }

  lemma SameMessage(all: Rounds, n: int, r: Round)
    requires n in all && r.tc == all[n].tc
    ensures MessageFor(all[n := r], n) == MessageFor(all, n)
  {
  }

  /** A live round may be given other parked shares, or a notarized block. */
  lemma SwapOk(scheme: Scheme, s: State, n: int, r: Round, seed: int)
    requires Good(scheme, s, seed) && n in s.rounds && n >= s.floor
    requires r.tc == s.rounds[n].tc && r.seed == s.rounds[n].seed && r.shares == s.rounds[n].shares
    requires s.rounds[n].notarized ==> r.notarized
    ensures Good(scheme, s.(rounds := s.rounds[n := r]), seed)
  {
    hide RoundOk, MessageFor, RoundsOk, AllRounds, Quiet, Good;
    GoodRound(scheme, s, n, seed);
    SameShares(scheme, n, s.rounds[n], r, MessageFor(AllRounds(s), n), n in s.taken);
    KeepOk(scheme, s, n, r, seed);
  }

  lemma SameShares(scheme: Scheme, n: int, r: Round, r': Round, msg: Option<Message>, taken: bool)
    requires RoundOk(scheme, n, r, msg, taken) && r'.seed == r.seed && r'.shares == r.shares
    requires r.notarized ==> r'.notarized
    ensures RoundOk(scheme, n, r', msg, taken)
  {
    hide AllValid, Recovers;
  }

  /** What a round holds is right with another previous seed exactly if it stands. */
  lemma StandsExactly(scheme: Scheme, n: int, r: Round, msg: Option<Message>, taken: bool, seed: int)
    requires n > 1 && RoundOk(scheme, n, r, msg, taken)
    ensures RoundOk(scheme, n, r, if seed == 0 then None else Some(Message(n, r.tc, seed)), taken) <==>
            Stands(scheme, n, r, taken, seed)
  {
    hide AllValid, Recovers;
    NoneValid(scheme, Message(n, r.tc, seed));
  }

  /** A seed from a block may stand in a round exactly if the round's message recovers it. */
  lemma TakenOkExactly(scheme: Scheme, n: int, r: Round, msg: Option<Message>)
    requires n > 0 && (r.seed == 0 ==> r.notarized)
    ensures RoundOk(scheme, n, r, msg, true) <==> (r.seed != 0 ==> MessageRecovers(scheme, msg, r.seed))
  {
    hide AllValid, Recovers;
  }

  lemma OfferExactly(scheme: Scheme, s: State, n: int, x: int, seed: int)
    requires Good(scheme, s, seed) && Enabled(s, Offer(n, x))
    ensures Good(scheme, Step(scheme, s, Offer(n, x)), seed) <==> Fits(scheme, s, Offer(n, x))
  {
    hide RoundOk, MessageFor, Recovers, RoundsOk, AllRounds, Quiet, Good, MessageAt;
    var e, r := Offer(n, x), Given(Found(s.rounds, n), x);
    if !Takes(s, e, n) {
      OpenedGood(scheme, s, n, seed);
      assert Step(scheme, s, e) == s.(rounds := Opened(s.rounds, n));
    } else {
      FoundInAll(scheme, s, n, seed);
      ReplaceGoodExactly(scheme, s, n, r, s.taken + {n}, seed);
      if n + 1 in s.rounds {
        NextGood(scheme, s, n, r, seed);
      }
      TakenOkExactly(scheme, n, r, MessageAt(AllRounds(s), n, r.tc));
    }
  }

  lemma FoundInAll(scheme: Scheme, s: State, n: int, seed: int)
    requires Good(scheme, s, seed) && n >= s.floor
    ensures Found(AllRounds(s), n) == Found(s.rounds, n)
    ensures n + 1 in AllRounds(s) <==> n + 1 in s.rounds
    ensures n + 1 in s.rounds ==> AllRounds(s)[n + 1] == s.rounds[n + 1]
    ensures n > Frontier(s) ==> Found(s.rounds, n).shares == map[]
  {
    hide RoundsOk;
    assert n !in s.past && n + 1 !in s.past;
  }

  lemma AdoptExactly(scheme: Scheme, s: State, n: int, x: int, tc: int, seed: int)
    requires Good(scheme, s, seed) && Enabled(s, Adopt(n, x, tc))
    ensures Good(scheme, Step(scheme, s, Adopt(n, x, tc)), seed) <==> Fits(scheme, s, Adopt(n, x, tc))
  {
    hide RoundOk, MessageFor, Recovers, Stands, RoundsOk, AllRounds, Quiet, Good, MessageAt;
    var all, e, r := AllRounds(s), Adopt(n, x, tc), Adopted(Found(s.rounds, n), x, tc);
    if !Takes(s, e, n) {
      OpenedGood(scheme, s, n, seed);
      SwapOk(scheme, s.(rounds := Opened(s.rounds, n)), n, r, seed);
      assert Step(scheme, s, e) == s.(rounds := Opened(s.rounds, n)[n := r]);
    } else {
      FoundInAll(scheme, s, n, seed);
      ReplaceGoodExactly(scheme, s, n, r, s.taken + {n}, seed);
      TakenOkExactly(scheme, n, r, MessageAt(all, n, r.tc));
      if n + 1 in s.rounds {
        NextMessage(all, n, r);
        GoodRound(scheme, s, n + 1, seed);
        StandsExactly(scheme, n + 1, s.rounds[n + 1], MessageFor(all, n + 1), n + 1 in s.taken, x);
      }
    }
  }

  lemma NextMessage(all: Rounds, n: int, r: Round)
    requires n > 0 && n + 1 in all
    ensures MessageFor(all[n := r], n + 1) ==
            if r.seed == 0 then None else Some(Message(n + 1, all[n + 1].tc, r.seed))
  {
  }

  lemma TimeOutExactly(scheme: Scheme, s: State, tc: int, seed: int)
    requires Good(scheme, s, seed)
    ensures Good(scheme, Step(scheme, s, TimeOut(tc)), seed) <==> Fits(scheme, s, TimeOut(tc))
  {
    hide RoundOk, MessageFor, RoundsOk, AllRounds, Quiet, Good, MessageAt;
    var n, r := Frontier(s), Round(tc, 0, map[], map[], false);
    if !Restarts(s, TimeOut(tc), n) {
      assert Step(scheme, s, TimeOut(tc)) == s;
    } else {
      FrontierIsLive(scheme, s, seed);
      ReplaceGoodExactly(scheme, s, n, r, s.taken - {n}, seed);
      BareOk(scheme, n, r, MessageAt(AllRounds(s), n, r.tc));
      if n + 1 in s.rounds {
        GoodRound(scheme, s, n + 1, seed);
        NextMessage(AllRounds(s), n, r);
        SeedlessExactly(scheme, n + 1, s.rounds[n + 1], MessageFor(AllRounds(s), n + 1), n + 1 in s.taken);
      }
    }
  }

  lemma FrontierIsLive(scheme: Scheme, s: State, seed: int)
    requires Good(scheme, s, seed)
    ensures Frontier(s) > s.floor >= 0
  {
    hide RoundsOk;
  }

  lemma BareOk(scheme: Scheme, n: int, r: Round, msg: Option<Message>)
    requires r.shares == map[] && r.seed == 0
    ensures RoundOk(scheme, n, r, msg, false)
  {
  }

  /** A round without shares needs no message exactly if it has no seed. */
  lemma SeedlessExactly(scheme: Scheme, n: int, r: Round, msg: Option<Message>, taken: bool)
    requires n > 0 && r.shares == map[] && RoundOk(scheme, n, r, msg, taken)
    ensures RoundOk(scheme, n, r, None, taken) <==> r.seed == 0
  {
    hide AllValid, Recovers, OwnSeed;
  }

  lemma DeleteOk(scheme: Scheme, s: State, n: int, seed: int)
    requires Good(scheme, s, seed) && n <= s.lfb
    ensures Good(scheme, Step(scheme, s, Delete(n)), seed)
  {
    hide RoundsOk, AllRounds, Parted;
    DeleteMoves(scheme, s, n);
  }

  lemma ReceiveOk(scheme: Scheme, s: State, share: VrfShare, order: seq<Party>, seed: int)
    requires Good(scheme, s, seed) && Enabled(s, Receive(share, order))
    ensures Good(scheme, Step(scheme, s, Receive(share, order)), seed)
  {
    hide Added, RoundsOk, Cached, AllRounds, MessageFor, Parted, Quiet;
    var n, s1 := share.round, s.(rounds := Opened(s.rounds, share.round));
    OpenedGood(scheme, s, n, seed);
    if n > s.current {
      SwapOk(scheme, s1, n, s1.rounds[n].(cache := Cached(s1.rounds[n].cache, share)), seed);
    } else {
      AddStepOk(scheme, s1, n, share, order, seed);
    }
  }

  /** A step keeps the invariant exactly if it fits. */
  lemma StepKeepsGoodExactly(scheme: Scheme, s: State, e: Event, seed: int)
    requires Good(scheme, s, seed) && Enabled(s, e)
    ensures Good(scheme, Step(scheme, s, e), seed) <==> Fits(scheme, s, e)
  {
    hide Added, RoundsOk, Restarted, Cached, AllRounds, MessageFor, Stands;
    match e {
      case Receive(share, order) => ReceiveOk(scheme, s, share, order, seed);
      case Own(n, share, order) =>
        OpenedGood(scheme, s, n, seed);
        AddStepOk(scheme, s.(rounds := Opened(s.rounds, n)), n, share, order, seed);
      case Offer(n, x) => OfferExactly(scheme, s, n, x, seed);
      case Adopt(n, x, tc) => AdoptExactly(scheme, s, n, x, tc, seed);
      case TimeOut(tc) => TimeOutExactly(scheme, s, tc, seed);
      case Advance(n) =>
        OpenedGood(scheme, s, n, seed);
        SameRounds(s.(rounds := Opened(s.rounds, n)), n, s.lfb);
      case Finalize(n) => SameRounds(s, s.current, n);
      case Delete(n) => DeleteOk(scheme, s, n, seed);
    }
  }

  lemma SameRounds(s: State, current: int, lfb: int)
    ensures AllRounds(s.(current := current, lfb := lfb)) == AllRounds(s)
    ensures AllRounds(s.(current := current)) == AllRounds(s) == AllRounds(s.(lfb := lfb))
  {
  }

  /** In every run whose steps so far fit, the invariant holds. */
  lemma {:induction false} RunInvariant(scheme: Scheme, seed: int, states: seq<State>, events: seq<Event>, i: nat)
    requires IsRun(scheme, seed, states, events) && i < |states|
    requires forall k :: 0 <= k < i ==> Fits(scheme, states[k], events[k])
    ensures Good(scheme, states[i], seed)
  {
    hide Step, Enabled, Fits;
    if i > 0 {
      RunInvariant(scheme, seed, states, events, i - 1);
      assert IsStep(scheme, states[i - 1], events[i - 1], states[i]);
      StepKeepsGoodExactly(scheme, states[i - 1], events[i - 1], seed);
    }
  }

  /** A run in which no seed is taken from a block. */
  ghost predicate TakesNothing(states: seq<State>, events: seq<Event>) {
    |states| == |events| + 1 && forall i, n :: 0 <= i < |events| ==> !Takes(states[i], events[i], n)
  }

  lemma UntouchedStep(scheme: Scheme, s: State, e: Event, seed: int)
    requires Good(scheme, s, seed) && Enabled(s, e) && s.taken == {} && forall n :: !Takes(s, e, n)
    ensures Fits(scheme, s, e) && Step(scheme, s, e).taken == {}
  {
    hide RoundsOk, Added, MessageFor, AllRounds, Stands;
    if e.TimeOut? {
      assert Found(s.rounds, Frontier(s) + 1).seed == 0;
    }
  }

  /**
   In a run without taken seeds every step fits, and no round ever counts as taken: all shares are valid for
   their round's message and all seeds are recovered from the round's own shares.
   */
  lemma {:induction false} UntouchedRunFits(scheme: Scheme, seed: int, states: seq<State>, events: seq<Event>, i: nat)
    requires IsRun(scheme, seed, states, events) && i < |states| && TakesNothing(states, events)
    ensures Good(scheme, states[i], seed) && states[i].taken == {}
    ensures forall k :: 0 <= k < i ==> Fits(scheme, states[k], events[k])
  {
    hide Step, Enabled, Fits, Takes, Good;
    if i > 0 {
      UntouchedRunFits(scheme, seed, states, events, i - 1);
      assert IsStep(scheme, states[i - 1], events[i - 1], states[i]);
      UntouchedStep(scheme, states[i - 1], events[i - 1], seed);
      StepKeepsGoodExactly(scheme, states[i - 1], events[i - 1], seed);
    } else {
      StartIsGood(scheme, seed);
    }
  }

  lemma StartIsGood(scheme: Scheme, seed: int)
    ensures Good(scheme, Start(seed), seed)
  {
  }
}
