/**
 Who may set a round's random seed. Until the round has a notarized block, the VRF or a received block whose
 tickets are not verified yet may set it once; a notarized block sets it if it is the round's first, or of
 a later timeout. A block is identified by its hash, which fixes its seed and timeout count; its
 rank is set anew each time it is added.
 */
module RoundSeed {
  import opened Common
  import Sorting

  datatype Block = Block(hash: string, seed: int, tc: int, rank: int)

  const SHARE_VRF := 0
  const SHARE := 3

  datatype Round = Round(seed: int, tc: int, notarized: seq<Block>, phase: int)

  const NEW_ROUND := Round(0, 0, [], SHARE_VRF)

  function Later(phase: int, next: int): int {
    if next > phase then next else phase
  }

  // ---------------------------------------------------------------- the list of notarized blocks

  predicate Listed(list: seq<Block>, hash: string) {
    exists i :: 0 <= i < |list| && list[i].hash == hash
  }

  /** The last block of the list with this rank. */
  function LastOfRank(list: seq<Block>, rank: int): (r: Option<nat>)
    ensures r.Some? ==> r.value < |list| && list[r.value].rank == rank
    ensures r.None? ==> forall i :: 0 <= i < |list| ==> list[i].rank != rank
    ensures r.Some? ==> forall i :: r.value < i < |list| ==> list[i].rank != rank
  {
    if list == [] then None
    else if list[|list| - 1].rank == rank then Some(|list| - 1)
    else LastOfRank(list[..|list| - 1], rank)
  }

  function Without(list: seq<Block>, at: Option<nat>): seq<Block>
    requires at.Some? ==> at.value < |list|
  {
    if at.None? then list else list[..at.value] + list[at.value + 1..]
  }

  /** A block's weight halves with every rank; what counts here is only which of two is heavier. */
  function WeightRank(b: Block): nat {
    if b.rank < 0 then 0 else b.rank
  }

  function HeavierFirst(): Sorting.Order<Block> {
    (a: Block, b: Block) => WeightRank(a) < WeightRank(b)
  }

  function SortByWeight(list: seq<Block>): (r: seq<Block>)
    ensures multiset(r) == multiset(list)
  {
    Sorting.Sort(list, HeavierFirst())
  }

  predicate OrderedByWeight(list: seq<Block>) {
    forall i, j :: 0 <= i < j < |list| ==> WeightRank(list[i]) <= WeightRank(list[j])
  }

  lemma SortByWeightOrders(list: seq<Block>)
    ensures OrderedByWeight(SortByWeight(list))
  {
    Sorting.SortSorted(list, HeavierFirst());
  }

  /** A block already in the list is the same object, so it takes the new rank. */
  function Reranked(list: seq<Block>, b: Block): (r: seq<Block>)
    ensures |r| == |list|
    ensures forall i :: 0 <= i < |list| ==> r[i] == if list[i].hash == b.hash then list[i].(rank := b.rank) else list[i]
  {
    seq(|list|, i requires 0 <= i < |list| => if list[i].hash == b.hash then list[i].(rank := b.rank) else list[i])
  }

  /** The list with a new block, which takes the place of one of its rank. */
  function Listing(list: seq<Block>, b: Block): seq<Block> {
    SortByWeight(Without(list, LastOfRank(list, b.rank)) + [b])
  }

  /** Adding a notarized block: a known one changes nothing else, a new one takes the place of one of its rank. */
  function NotarizedIn(r: Round, b: Block): Round {
    if Listed(r.notarized, b.hash) then r
    else r.(notarized := Listing(r.notarized, b), phase := Later(r.phase, SHARE))
  }

  /** Adding a notarized block to a round, with the seed rules. */
  function Adopted(r: Round, b: Block): Round {
    var r1 := if r.seed != b.seed && (r.notarized == [] || b.tc > r.tc)
              then r.(seed := b.seed, tc := if b.tc > r.tc then b.tc else r.tc) else r;
    NotarizedIn(r1.(notarized := Reranked(r.notarized, b)), b)
  }

  /** Setting the seed from the VRF: the answer, and the round. */
  function VrfSeeded(r: Round, seed: int): (Round, bool) {
    if r.seed != 0 && r.seed == seed then (r, false)
    else if r.notarized != [] then (r, false)
    else if seed == 0 then (r, false)
    else (if r.seed != 0 then r else r.(seed := seed), true)
  }

  /** Restarting, and moving to another timeout count. */
  function TimedOut(r: Round, tc: int): (Round, bool) {
    if r.phase >= SHARE then (r, false) else (Round(0, tc, [], SHARE_VRF), true)
  }

  // ---------------------------------------------------------------- the round object

  class SeedRound {
    var seed: int
    var tc: int
    var notarized: seq<Block>
    var phase: int

    constructor ()
      ensures Mine() == NEW_ROUND
    {
      seed, tc, notarized, phase := 0, 0, [], SHARE_VRF;
    }

    function Mine(): Round
      reads this
    {
      Round(seed, tc, notarized, phase)
    }

    method AddNotarizedBlock(b: Block)
      modifies this`notarized, this`phase
      ensures Mine() == NotarizedIn(old(Mine()), b)
      ensures !Listed(old(notarized), b.hash) ==> OrderedByWeight(notarized)
    {
      hide SortByWeight, LastOfRank, OrderedByWeight, Without, Listed;
      var known, found := FindRank(notarized, b);
      if known {
        return;
      }
      notarized := Without(notarized, found);
      if SHARE > phase {
        phase := SHARE;
      }
      SortByWeightOrders(notarized + [b]);
      notarized := SortByWeight(notarized + [b]);
    }

    method AddNotarizedBlockToRound(b: Block)
      modifies this
      ensures Mine() == Adopted(old(Mine()), b)
    {
      hide LastOfRank, SortByWeight, Reranked;
      if seed != b.seed {
        if |notarized| == 0 || b.tc > tc {
          seed := b.seed;
          if b.tc > tc {
            tc := b.tc;
          }
        }
      }
      notarized := Reranked(notarized, b);
      AddNotarizedBlock(b);
    }

    method SetRandomSeed(newSeed: int) returns (ok: bool)
      modifies this`seed
      ensures (Mine(), ok) == VrfSeeded(old(Mine()), newSeed)
    {
      if seed != 0 && newSeed == seed {
        return false;
      }
      if |notarized| > 0 {
        return false;
      }
      if newSeed == 0 {
        return false;
      }
      if seed == 0 {
        seed := newSeed;
      }
      return true;
    }

    method Restart(newTc: int) returns (ok: bool)
      modifies this
      ensures (Mine(), ok) == TimedOut(old(Mine()), newTc)
    {
      if phase >= SHARE {
        return false;
      }
      notarized, seed, phase := [], 0, SHARE_VRF;
      tc := newTc;
      return true;
    }
  }

  /** The loop over the notarized blocks: whether `b` is one of them, or else the last one of its rank. */
  method FindRank(list: seq<Block>, b: Block) returns (known: bool, found: Option<nat>)
    ensures known <==> Listed(list, b.hash)
    ensures !known ==> found == LastOfRank(list, b.rank)
  {
    hide LastOfRank;
    var last := -1;
    for i := 0 to |list|
      invariant -1 <= last < i
      invariant forall j :: 0 <= j < i ==> list[j].hash != b.hash
      invariant last >= 0 ==> list[last].rank == b.rank
      invariant forall j :: last < j < i ==> list[j].rank != b.rank
    {
      if list[i].hash == b.hash {
        return true, None;
      }
      if list[i].rank == b.rank {
        last := i;
      }
    }
    return false, if last > -1 then Some(last) else None;
  }

  // ---------------------------------------------------------------- runs of a round

  datatype Event = SetSeed(seed: int) | Notarize(block: Block) | TimeOut(tc: int) | Progress(phase: int)

  function Step(r: Round, e: Event): Round {
    match e
    case SetSeed(seed) => VrfSeeded(r, seed).0
    case Notarize(b) => Adopted(r, b)
    case TimeOut(tc) => TimedOut(r, tc).0
    case Progress(phase) => r.(phase := Later(r.phase, phase))
  }

  /** Blocks with the same hash are the same block. */
  ghost predicate Consistent(r: Round, e: Event) {
    e.Notarize? ==>
      forall i :: 0 <= i < |r.notarized| && r.notarized[i].hash == e.block.hash ==>
        r.notarized[i].seed == e.block.seed
  }

  ghost predicate IsRun(rounds: seq<Round>, events: seq<Event>) {
    && |rounds| == |events| + 1
    && rounds[0] == NEW_ROUND
    && forall i :: 0 <= i < |events| ==> IsStep(rounds[i], events[i], rounds[i + 1])
  }

  ghost predicate IsStep(r: Round, e: Event, r': Round) {
    Consistent(r, e) && r' == Step(r, e)
  }

  /** A round with notarized blocks cannot be restarted. */
  predicate Locked(r: Round) {
    r.notarized != [] ==> r.phase >= SHARE
  }

  /** One of the round's notarized blocks has the round's seed. */
  predicate SeedHeld(r: Round) {
    r.notarized != [] ==> exists i :: 0 <= i < |r.notarized| && r.notarized[i].seed == r.seed
  }

  /**
   A new block of another seed, not from a later timeout, takes the place of the only block that has
   the round's seed, or comes when none has it.
   */
  predicate Displaces(r: Round, b: Block) {
    && r.notarized != [] && b.seed != r.seed && b.tc <= r.tc && !Listed(r.notarized, b.hash)
    && forall i :: 0 <= i < |r.notarized| && r.notarized[i].seed == r.seed ==>
         LastOfRank(r.notarized, b.rank) == Some(i)
  }

  /** A restart succeeds exactly before the share phase; the round is then as new, at the given timeout count. */
  lemma RestartExactly(r: Round, tc: int)
    ensures TimedOut(r, tc).1 <==> r.phase < SHARE
    ensures var r' := TimedOut(r, tc).0;
            if r.phase < SHARE then r' == NEW_ROUND.(tc := tc) && r'.seed == 0 && r'.notarized == [] else r' == r
  {
  }

  /** A seed from the VRF is there afterwards exactly if it was, or the round had none and may be given it. */
  lemma VrfSeedExactly(r: Round, seed: int)
    requires seed != 0
    ensures VrfSeeded(r, seed).0.seed == seed <==> r.seed == seed || (r.seed == 0 && r.notarized == [])
    ensures VrfSeeded(r, seed).1 <==> r.seed != seed && r.notarized == []
    ensures VrfSeeded(r, seed).0 == r.(seed := VrfSeeded(r, seed).0.seed)
  {
  }

  /** The seed follows a notarized block exactly if it is the first, or of a later timeout, or has the seed already. */
  lemma AdoptedSeedExactly(r: Round, b: Block)
    ensures Adopted(r, b).seed == (if r.notarized == [] || b.tc > r.tc then b.seed else r.seed)
    ensures Adopted(r, b).tc == (if r.seed != b.seed && b.tc > r.tc then b.tc else r.tc)
    ensures exists x :: x in Adopted(r, b).notarized && x.hash == b.hash
  {
    hide LastOfRank, SortByWeight, Without;
    RerankedListed(r.notarized, b);
    if Listed(r.notarized, b.hash) {
      var i :| 0 <= i < |r.notarized| && r.notarized[i].hash == b.hash;
      assert Reranked(r.notarized, b)[i] in Adopted(r, b).notarized;
    } else {
      var list := Reranked(r.notarized, b);
      InSorted(Without(list, LastOfRank(list, b.rank)) + [b], b);
    }
  }

  lemma InSorted(list: seq<Block>, b: Block)
    ensures b in SortByWeight(list) <==> b in list
  {
    assert b in SortByWeight(list) <==> b in multiset(SortByWeight(list));
    assert b in list <==> b in multiset(list);
  }

  lemma InWithout(list: seq<Block>, at: Option<nat>, b: Block)
    requires at.Some? ==> at.value < |list|
    ensures b in Without(list, at) <==> exists i :: 0 <= i < |list| && Some(i) != at && list[i] == b
  {
    if at.Some? {
      forall i | 0 <= i < |list| && i != at.value && list[i] == b ensures b in Without(list, at) {
        if i < at.value {
          assert Without(list, at)[i] == b;
        } else {
          assert Without(list, at)[i - 1] == b;
        }
      }
      if b in Without(list, at) {
        var j :| 0 <= j < |Without(list, at)| && Without(list, at)[j] == b;
        assert if j < at.value then list[j] == b else list[j + 1] == b;
      }
    }
  }

  lemma RerankedListed(list: seq<Block>, b: Block)
    ensures Listed(Reranked(list, b), b.hash) <==> Listed(list, b.hash)
    ensures !Listed(list, b.hash) ==> Reranked(list, b) == list
  {
    if Listed(list, b.hash) {
      var i :| 0 <= i < |list| && list[i].hash == b.hash;
      assert Reranked(list, b)[i].hash == b.hash;
    }
  }

  lemma InAfter(list: seq<Block>, at: Option<nat>, b: Block, x: Block)
    requires at.Some? ==> at.value < |list|
    ensures x in SortByWeight(Without(list, at) + [b]) <==>
            x == b || exists i :: 0 <= i < |list| && Some(i) != at && list[i] == x
  {
    hide SortByWeight, Without;
    InSorted(Without(list, at) + [b], x);
    InWithout(list, at, x);
  }

  /** The seeds held after a new block came in: its own, and those of the blocks that stayed. */
  lemma NewBlockSeeds(list: seq<Block>, b: Block, seed: int)
    ensures var at := LastOfRank(list, b.rank);
            (exists x :: x in SortByWeight(Without(list, at) + [b]) && x.seed == seed) <==>
            b.seed == seed || exists i :: 0 <= i < |list| && Some(i) != at && list[i].seed == seed
  {
    hide SortByWeight, Without, LastOfRank;
    var at := LastOfRank(list, b.rank);
    var after := SortByWeight(Without(list, at) + [b]);
    InAfter(list, at, b, b);
    forall i | 0 <= i < |list| && Some(i) != at && list[i].seed == seed ensures list[i] in after {
      InAfter(list, at, b, list[i]);
    }
    forall x | x in after && x.seed == seed && x != b
      ensures exists i :: 0 <= i < |list| && Some(i) != at && list[i].seed == seed
    {
      InAfter(list, at, b, x);
    }
  }

  lemma HeldByMember(r: Round)
    ensures SeedHeld(r) <==> r.notarized == [] || exists x :: x in r.notarized && x.seed == r.seed
  {
    if r.notarized != [] && SeedHeld(r) {
      var i :| 0 <= i < |r.notarized| && r.notarized[i].seed == r.seed;
      assert r.notarized[i] in r.notarized;
    }
  }

  /** A notarization leaves the round's seed with one of its notarized blocks exactly when it does not displace it. */
  lemma NotarizationHoldsSeedExactly(r: Round, b: Block)
    requires Consistent(r, Notarize(b)) && SeedHeld(r)
    ensures SeedHeld(Adopted(r, b)) <==> !Displaces(r, b)
  {
    hide LastOfRank, SortByWeight, Without;
    RerankedListed(r.notarized, b);
    var r' := Adopted(r, b);
    if Listed(r.notarized, b.hash) {
      var i :| 0 <= i < |r.notarized| && r.notarized[i].hash == b.hash;
      assert r'.notarized == Reranked(r.notarized, b) && r'.notarized[i].seed == b.seed;
      if r'.seed == r.seed {
        var j :| 0 <= j < |r.notarized| && r.notarized[j].seed == r.seed;
        assert r'.notarized[j].seed == r'.seed;
      }
    } else {
      HeldByMember(r');
      InSorted(Without(r.notarized, LastOfRank(r.notarized, b.rank)) + [b], b);
      NewBlockSeeds(r.notarized, b, r'.seed);
    }
  }

  lemma StepHoldsSeed(r: Round, e: Event)
    requires Consistent(r, e) && Locked(r) && SeedHeld(r)
    ensures SeedHeld(Step(r, e)) <==> !(e.Notarize? && Displaces(r, e.block))
    ensures Locked(Step(r, e))
  {
    hide LastOfRank, SortByWeight, Without, Displaces, Listed, Reranked;
    if e.Notarize? {
      NotarizationHoldsSeedExactly(r, e.block);
    }
    StepKeepsLocked(r, e);
  }

  lemma StepKeepsLocked(r: Round, e: Event)
    requires Locked(r)
    ensures Locked(Step(r, e))
  {
    hide LastOfRank, SortByWeight, Without;
    if e.Notarize? {
      RerankedListed(r.notarized, e.block);
    }
  }

  /** Once a round has a notarized block, it keeps one; its timeout count only grows; its seed changes only with it. */
  lemma NotarizedStep(r: Round, e: Event)
    requires Consistent(r, e) && Locked(r) && r.notarized != []
    ensures var r' := Step(r, e); r'.notarized != [] && r'.tc >= r.tc && (r'.seed != r.seed ==> r'.tc > r.tc)
  {
    hide LastOfRank, SortByWeight, Without, Listed;
    if e.Notarize? {
      var list := Reranked(r.notarized, e.block);
      InSorted(Without(list, LastOfRank(list, e.block.rank)) + [e.block], e.block);
    }
  }

  lemma {:induction false} RunLocked(rounds: seq<Round>, events: seq<Event>, n: nat)
    requires IsRun(rounds, events) && n < |rounds|
    ensures Locked(rounds[n])
  {
    hide Step;
    if n > 0 {
      RunLocked(rounds, events, n - 1);
      assert IsStep(rounds[n - 1], events[n - 1], rounds[n]);
      StepKeepsLocked(rounds[n - 1], events[n - 1]);
    }
  }

  /** Over any run: after a notarization, a different seed means a strictly larger timeout count. */
  lemma {:induction false} SeedChangesWithTimeout(rounds: seq<Round>, events: seq<Event>, i: nat, j: nat)
    requires IsRun(rounds, events) && i <= j < |rounds| && rounds[i].notarized != []
    ensures rounds[j].notarized != [] && rounds[j].tc >= rounds[i].tc
    ensures rounds[j].seed != rounds[i].seed ==> rounds[j].tc > rounds[i].tc
    decreases j
  {
    hide Step;
    if i < j {
      SeedChangesWithTimeout(rounds, events, i, j - 1);
      RunLocked(rounds, events, j - 1);
      assert IsStep(rounds[j - 1], events[j - 1], rounds[j]);
      NotarizedStep(rounds[j - 1], events[j - 1]);
    }
  }

  /** Over any run without a displacement, a notarized round's seed is held by one of its notarized blocks. */
  lemma {:induction false} SeedHeldInRun(rounds: seq<Round>, events: seq<Event>, n: nat)
    requires IsRun(rounds, events) && n < |rounds|
    requires forall i :: 0 <= i < n && events[i].Notarize? ==> !Displaces(rounds[i], events[i].block)
    ensures SeedHeld(rounds[n])
  {
    hide Step, Displaces;
    if n > 0 {
      SeedHeldInRun(rounds, events, n - 1);
      RunLocked(rounds, events, n - 1);
      assert IsStep(rounds[n - 1], events[n - 1], rounds[n]);
      StepHoldsSeed(rounds[n - 1], events[n - 1]);
    }
  }

  /**
   Two blocks of one miner: the one of timeout count `tc` is notarized first, the one of an earlier timeout
   count comes late. It takes the first one's place, but the round keeps the first one's seed.
   */
  lemma SeedCanBeDisplaced(one: int, two: int, tc: nat, late: nat)
    requires one != 0 && one != two && late < tc
    ensures exists rounds: seq<Round> ::
      IsRun(rounds, [Notarize(Block("x", one, tc, 0)), Notarize(Block("y", two, late, 0))]) &&
      rounds[2].seed == one && rounds[2].notarized != [] && !SeedHeld(rounds[2])
  {
    hide Adopted;
    var x, y := Block("x", one, tc, 0), Block("y", two, late, 0);
    var r1 := Adopted(NEW_ROUND, x);
    FirstNotarized(x);
    var r2 := Adopted(r1, y);
    assert LastOfRank([x], 0) == Some(0);
    assert Displaces(r1, y);
    NotarizationHoldsSeedExactly(r1, y);
    NotarizedStep(r1, Notarize(y));
    assert r2.seed == one by { LateBlockKeepsSeed(r1, y); }
    var rounds := [NEW_ROUND, r1, r2];
    assert IsRun(rounds, [Notarize(x), Notarize(y)]);
    assert !SeedHeld(rounds[2]);
  }

  lemma LateBlockKeepsSeed(r: Round, b: Block)
    requires r.notarized != [] && b.tc <= r.tc
    ensures Adopted(r, b).seed == r.seed
  {
    hide Listing, Listed, Reranked;
  }

  lemma SortOne(b: Block)
    ensures SortByWeight([b]) == [b]
  {
    Sorting.SortOfSorted([b], HeavierFirst());
  }

  lemma FirstNotarized(b: Block)
    requires b.seed != 0 && b.tc >= 0
    ensures Adopted(NEW_ROUND, b) == Round(b.seed, b.tc, [b], SHARE)
  {
    hide SortByWeight, LastOfRank, Reranked;
    assert Reranked([], b) == [];
    assert [] + [b] == [b];
    SortOne(b);
  }
}
