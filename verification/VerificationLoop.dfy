/**
 The loop in which a miner collects the round's proposed blocks, verifies them best rank first, and
 sends tickets for those it verified. Other goroutines notarize blocks and replace the round's best
 block at any time, also while a block is being verified; such changes are `Outside` events. Block
 ranks are fixed.
 */
module VerificationLoop {
  import opened Common
  import opened RoundSeed
  import Sorting

  /** `best` is the round's block; `sent` lists the blocks a ticket was sent for. */
  datatype State = State(
    best: Option<Block>, notarized: seq<Block>, started: bool, blocks: seq<Block>, sent: seq<Block>)

  const INITIAL := State(None, [], false, [], [])

  datatype Outside = Notarized(block: Block) | Replaced(block: Block)

  /** How the verification of one block goes, and what happens outside in the meantime. */
  datatype Verdict = Verdict(cancelled: bool, passes: bool, meanwhile: seq<Outside>)

  // ---------------------------------------------------------------- ranks

  predicate SortedByRank(list: seq<Block>) {
    forall i, j :: 0 <= i < j < |list| ==> list[i].rank <= list[j].rank
  }

  function BetterFirst(): Sorting.Order<Block> {
    (a: Block, b: Block) => a.rank < b.rank
  }

  function ByRank(list: seq<Block>): (r: seq<Block>)
    ensures multiset(r) == multiset(list) && |r| == |list|
  {
    Sorting.Sort(list, BetterFirst())
  }

  lemma ByRankSorted(list: seq<Block>)
    ensures SortedByRank(ByRank(list))
  {
    Sorting.SortSorted(list, BetterFirst());
  }

  /** The first block of the best rank. */
  function BestRanked(list: seq<Block>): (b: Block)
    requires list != []
    ensures b in list
    ensures forall x :: x in list ==> b.rank <= x.rank
  {
    if |list| == 1 then list[0]
    else
      var front := list[..|list| - 1];
      assert list == front + [list[|list| - 1]];
      if BestRanked(front).rank <= list[|list| - 1].rank then BestRanked(front) else list[|list| - 1]
  }

  // ---------------------------------------------------------------- steps

  function Better(best: Option<Block>, b: Block): Option<Block> {
    if best.None? || best.value.rank > b.rank then Some(b) else best
  }

  function Happened(s: State, o: Outside): State {
    match o
    case Notarized(b) =>
      if Listed(s.notarized, b.hash) then s
      else s.(notarized := Listing(s.notarized, b), best := Better(s.best, b))
    case Replaced(b) => if s.best.None? || b.rank <= s.best.value.rank then s.(best := Some(b)) else s
  }

  function AllHappened(s: State, os: seq<Outside>): State
    decreases os
  {
    if os == [] then s else AllHappened(Happened(s, os[0]), os[1..])
  }

  /** After a successful verification: the ticket is sent unless another block is the best notarized one. */
  function Verified(s: State, b: Block): State {
    var s1 := if s.notarized == [] || BestRanked(s.notarized).hash == b.hash then s.(sent := s.sent + [b]) else s;
    if s.notarized == [] then s1.(best := Some(b)) else s1
  }

  function VerifyAndSend(s: State, b: Block, v: Verdict): State {
    var s1 := AllHappened(s, v.meanwhile);
    if v.passes then Verified(s1, b) else s1
  }

  /** The collected blocks one after the other, until the first success or the end of the context. */
  function TryAll(s: State, list: seq<Block>, verdicts: seq<Verdict>): State
    requires |list| == |verdicts|
    decreases list
  {
    if list == [] || verdicts[0].cancelled then s
    else
      var s1 := VerifyAndSend(s, list[0], verdicts[0]);
      if verdicts[0].passes then s1 else TryAll(s1, list[1..], verdicts[1..])
  }

  function Initiated(s: State, verdicts: seq<Verdict>): State
    requires |verdicts| == |s.blocks|
  {
    TryAll(s.(blocks := ByRank(s.blocks)), ByRank(s.blocks), verdicts).(started := true)
  }

  function Arrived(s: State, b: Block, v: Verdict): State {
    if !s.started then s.(blocks := s.blocks + [b])
    else if s.best.None? || s.best.value.rank >= b.rank then VerifyAndSend(s, b, v)
    else s
  }

  /** The loop's variables, with the round's best and notarized blocks. */
  class Collector {
    var best: Option<Block>
    var notarized: seq<Block>
    var started: bool
    var blocks: seq<Block>
    var sent: seq<Block>

    constructor ()
      ensures Mine() == INITIAL
    {
      best, notarized, started, blocks, sent := None, [], false, [], [];
    }

    function Mine(): State
      reads this
    {
      State(best, notarized, started, blocks, sent)
    }

    /** Everything that other goroutines do while this one is verifying. */
    method Meanwhile(os: seq<Outside>)
      modifies this`best, this`notarized
      ensures Mine() == AllHappened(old(Mine()), os)
    {
      hide Happened;
      for i := 0 to |os|
        invariant AllHappened(Mine(), os[i..]) == AllHappened(old(Mine()), os)
        invariant started == old(started) && blocks == old(blocks) && sent == old(sent)
      {
        assert os[i..][0] == os[i] && os[i..][1..] == os[i + 1..];
        var s := Happened(Mine(), os[i]);
        OutsideKeeps(Mine(), os[i]);
        best, notarized := s.best, s.notarized;
      }
    }

    method TryBlock(b: Block, v: Verdict) returns (ok: bool)
      modifies this`best, this`notarized, this`sent
      ensures Mine() == VerifyAndSend(old(Mine()), b, v) && ok == v.passes
    {
      hide AllHappened;
      Meanwhile(v.meanwhile);
      if !v.passes {
        return false;
      }
      if notarized == [] || BestRanked(notarized).hash == b.hash {
        sent := sent + [b];
      }
      if notarized == [] {
        best := Some(b);
      }
      return true;
    }

    method InitiateVerification(verdicts: seq<Verdict>)
      requires |verdicts| == |blocks|
      modifies this
      ensures Mine() == Initiated(old(Mine()), verdicts)
    {
      hide VerifyAndSend, ByRank;
      blocks := ByRank(blocks);
      ghost var list, s0 := blocks, Mine();
      var i := 0;
      while i < |blocks|
        invariant blocks == list && i <= |blocks|
        invariant TryAll(Mine(), list[i..], verdicts[i..]) == TryAll(s0, list, verdicts)
      {
        assert list[i..][0] == list[i] && list[i..][1..] == list[i + 1..];
        assert verdicts[i..][0] == verdicts[i] && verdicts[i..][1..] == verdicts[i + 1..];
        if verdicts[i].cancelled {
          break;
        }
        var ok := TryBlock(blocks[i], verdicts[i]);
        if ok {
          started := true;
          return;
        }
        i := i + 1;
      }
      started := true;
    }

    method HandleBlock(b: Block, v: Verdict)
      modifies this
      ensures Mine() == Arrived(old(Mine()), b, v)
    {
      hide VerifyAndSend;
      if !started {
        blocks := blocks + [b];
        return;
      }
      if best.None? || best.value.rank >= b.rank {
        var _ := TryBlock(b, v);
      }
    }
  }

  lemma OutsideKeeps(s: State, o: Outside)
    ensures var s' := Happened(s, o); s'.started == s.started && s'.blocks == s.blocks && s'.sent == s.sent
  {
  }

  // ---------------------------------------------------------------- runs

  /** The timer fires once, and starts the verification. */
  datatype Event =
    | Timer(verdicts: seq<Verdict>)
    | Proposal(block: Block, verdict: Verdict)
    | FromOutside(outside: Outside)

  ghost predicate Fixed(ranks: map<string, int>, b: Block) {
    b.hash in ranks && ranks[b.hash] == b.rank
  }

  ghost predicate AllFixed(ranks: map<string, int>, os: seq<Outside>) {
    forall o :: o in os ==> Fixed(ranks, o.block)
  }

  ghost predicate Enabled(ranks: map<string, int>, s: State, e: Event) {
    match e
    case Timer(verdicts) =>
      !s.started && |verdicts| == |s.blocks| && forall v :: v in verdicts ==> AllFixed(ranks, v.meanwhile)
    case Proposal(b, v) => Fixed(ranks, b) && AllFixed(ranks, v.meanwhile)
    case FromOutside(o) => Fixed(ranks, o.block)
  }

  ghost function Step(ranks: map<string, int>, s: State, e: Event): State
    requires Enabled(ranks, s, e)
  {
    match e
    case Timer(verdicts) => Initiated(s, verdicts)
    case Proposal(b, v) => Arrived(s, b, v)
    case FromOutside(o) => Happened(s, o)
  }

  ghost predicate IsRun(ranks: map<string, int>, states: seq<State>, events: seq<Event>) {
    && |states| == |events| + 1
    && states[0] == INITIAL
    && forall i :: 0 <= i < |events| ==> IsStep(ranks, states[i], events[i], states[i + 1])
  }

  ghost predicate IsStep(ranks: map<string, int>, s: State, e: Event, s': State) {
    Enabled(ranks, s, e) && s' == Step(ranks, s, e)
  }

  /** Ranks of the blocks tickets were sent for never get worse. */
  predicate NonIncreasing(sent: seq<Block>) {
    forall i, j :: 0 <= i < j < |sent| ==> sent[i].rank >= sent[j].rank
  }

  /** The round's block is no worse than any notarized block and than the last block a ticket was sent for. */
  ghost predicate Good(ranks: map<string, int>, s: State) {
    && (forall x :: x in s.notarized ==> Fixed(ranks, x) && s.best.Some? && s.best.value.rank <= x.rank)
    && (s.sent != [] ==> s.best.Some? && s.best.value.rank <= s.sent[|s.sent| - 1].rank)
    && (!s.started ==> s.sent == [])
    && (forall b :: b in s.blocks ==> Fixed(ranks, b))
    && NonIncreasing(s.sent)
  }

  lemma HappenedGood(ranks: map<string, int>, s: State, o: Outside)
    requires Good(ranks, s) && Fixed(ranks, o.block)
    ensures Good(ranks, Happened(s, o)) && Happened(s, o).sent == s.sent
    ensures Happened(s, o).blocks == s.blocks && Happened(s, o).started == s.started
  {
    hide SortByWeight, Without, LastOfRank, Listed, NonIncreasing, Fixed;
    if o.Notarized? && !Listed(s.notarized, o.block.hash) {
      var at := LastOfRank(s.notarized, o.block.rank);
      forall x | x in SortByWeight(Without(s.notarized, at) + [o.block]) ensures x == o.block || x in s.notarized {
        InAfter(s.notarized, at, o.block, x);
      }
    }
  }

  lemma {:induction false} AllHappenedGood(ranks: map<string, int>, s: State, os: seq<Outside>)
    requires Good(ranks, s) && AllFixed(ranks, os)
    ensures Good(ranks, AllHappened(s, os)) && AllHappened(s, os).sent == s.sent
    ensures AllHappened(s, os).blocks == s.blocks && AllHappened(s, os).started == s.started
    decreases os
  {
    hide Good, Happened;
    if os != [] {
      HappenedGood(ranks, s, os[0]);
      AllHappenedGood(ranks, Happened(s, os[0]), os[1..]);
    }
  }

  /** A block no worse than the last one sent keeps the tickets in order, whatever happened during its verification. */
  lemma VerifyAndSendGood(ranks: map<string, int>, s: State, b: Block, v: Verdict)
    requires Good(ranks, s.(started := true)) && Fixed(ranks, b) && AllFixed(ranks, v.meanwhile)
    requires s.sent != [] ==> b.rank <= s.sent[|s.sent| - 1].rank
    ensures Good(ranks, VerifyAndSend(s, b, v).(started := true))
    ensures !v.passes ==> VerifyAndSend(s, b, v).sent == s.sent
    ensures VerifyAndSend(s, b, v).blocks == s.blocks
  {
    hide AllHappened;
    StartedLater(s, v.meanwhile);
    AllHappenedGood(ranks, s.(started := true), v.meanwhile);
    var s1 := AllHappened(s.(started := true), v.meanwhile);
    AppendNonIncreasing(s.sent, b);
  }

  lemma {:induction false} StartedLater(s: State, os: seq<Outside>)
    ensures AllHappened(s, os).(started := true) == AllHappened(s.(started := true), os)
    decreases os
  {
    hide SortByWeight, Without, LastOfRank, Listed;
    if os != [] {
      StartedLater(Happened(s, os[0]), os[1..]);
      assert Happened(s, os[0]).(started := true) == Happened(s.(started := true), os[0]);
    }
  }

  lemma AppendNonIncreasing(sent: seq<Block>, b: Block)
    requires NonIncreasing(sent) && (sent != [] ==> b.rank <= sent[|sent| - 1].rank)
    ensures NonIncreasing(sent + [b])
  {
    forall i | 0 <= i < |sent| ensures sent[i].rank >= b.rank {
      if i < |sent| - 1 { assert sent[i].rank >= sent[|sent| - 1].rank; }
    }
  }

  lemma {:induction false} TryAllGood(ranks: map<string, int>, s: State, list: seq<Block>, verdicts: seq<Verdict>)
    requires Good(ranks, s.(started := true)) && s.sent == [] && |list| == |verdicts|
    requires (forall b :: b in list ==> Fixed(ranks, b)) && forall v :: v in verdicts ==> AllFixed(ranks, v.meanwhile)
    ensures Good(ranks, TryAll(s, list, verdicts).(started := true))
    decreases list
  {
    hide Good, VerifyAndSend, AllFixed, Fixed;
    if list != [] && !verdicts[0].cancelled {
      VerifyAndSendGood(ranks, s, list[0], verdicts[0]);
      if !verdicts[0].passes {
        TryAllGood(ranks, VerifyAndSend(s, list[0], verdicts[0]), list[1..], verdicts[1..]);
      }
    }
  }

  lemma StepKeepsGood(ranks: map<string, int>, s: State, e: Event)
    requires Good(ranks, s) && Enabled(ranks, s, e)
    ensures Good(ranks, Step(ranks, s, e))
  {
    hide TryAll, ByRank, Happened, VerifyAndSend, Fixed, AllFixed, NonIncreasing;
    match e {
      case Timer(verdicts) =>
        var list := ByRank(s.blocks);
        forall b | b in list ensures b in s.blocks { assert b in multiset(list); }
        TryAllGood(ranks, s.(blocks := list), list, verdicts);
      case Proposal(b, v) =>
        if s.started && (s.best.None? || s.best.value.rank >= b.rank) {
          assert s == s.(started := true);
          VerifyAndSendGood(ranks, s, b, v);
          StaysStarted(s, b, v);
        }
      case FromOutside(o) => HappenedGood(ranks, s, o);
    }
  }

  lemma StaysStarted(s: State, b: Block, v: Verdict)
    ensures VerifyAndSend(s, b, v).started == s.started
  {
    hide AllHappened;
    KeepsStarted(s, v.meanwhile);
  }

  lemma {:induction false} KeepsStarted(s: State, os: seq<Outside>)
    ensures AllHappened(s, os).started == s.started
    decreases os
  {
    hide Happened;
    if os != [] {
      OutsideKeeps(s, os[0]);
      KeepsStarted(Happened(s, os[0]), os[1..]);
    }
  }

  lemma {:induction false} RunInvariant(ranks: map<string, int>, states: seq<State>, events: seq<Event>, n: nat)
    requires IsRun(ranks, states, events) && n < |states|
    ensures Good(ranks, states[n])
  {
    hide Step, Enabled;
    if n > 0 {
      RunInvariant(ranks, states, events, n - 1);
      assert IsStep(ranks, states[n - 1], events[n - 1], states[n]);
      StepKeepsGood(ranks, states[n - 1], events[n - 1]);
    }
  }

  /** In every run the blocks tickets are sent for have non-increasing rank. */
  lemma TicketsNeverGetWorse(ranks: map<string, int>, states: seq<State>, events: seq<Event>, n: nat)
    requires IsRun(ranks, states, events) && n < |states|
    ensures NonIncreasing(states[n].sent)
  {
    hide Step, Enabled, NonIncreasing;
    RunInvariant(ranks, states, events, n);
  }

  /** What other goroutines do takes effect: a notarized block is listed, and the round's block is no worse than it. */
  lemma OutsideTakesEffect(s: State, o: Outside)
    ensures var s', b := Happened(s, o), o.block;
      && (o.Notarized? ==> Listed(s'.notarized, b.hash))
      && (o.Notarized? && !Listed(s.notarized, b.hash) ==> s'.best.Some? && s'.best.value.rank <= b.rank)
      && (o.Replaced? ==> s'.notarized == s.notarized && s'.best.Some? && s'.best.value.rank <= b.rank)
      && (o.Replaced? && (s.best.None? || b.rank <= s.best.value.rank) ==> s'.best == Some(b))
      && (s'.best != s.best ==> s'.best == Some(b))
  {
    hide SortByWeight, Without, LastOfRank;
    if o.Notarized? && !Listed(s.notarized, o.block.hash) {
      var at := LastOfRank(s.notarized, o.block.rank);
      InAfter(s.notarized, at, o.block, o.block);
    }
  }

  // ---------------------------------------------------------------- the first choice

  /** The `k`-th block tried is the first to pass. */
  predicate FirstToPass(verdicts: seq<Verdict>, k: nat) {
    && k < |verdicts| && verdicts[k].passes && !verdicts[k].cancelled
    && forall i :: 0 <= i < k ==> !verdicts[i].passes && !verdicts[i].cancelled
  }

  /** The block at `i` is the first of the best rank. */
  predicate IsBest(list: seq<Block>, i: nat) {
    && i < |list|
    && (forall j :: 0 <= j < |list| ==> list[i].rank <= list[j].rank)
    && (forall j :: 0 <= j < i ==> list[i].rank < list[j].rank)
  }

  /** A ticket may be sent while nothing is notarized, or for the best notarized block itself. */
  ghost predicate MaySend(notarized: seq<Block>, b: Block) {
    notarized == [] || exists i: nat :: IsBest(notarized, i) && notarized[i].hash == b.hash
  }

  lemma OneIsBest(list: seq<Block>, i: nat, j: nat)
    requires IsBest(list, i) && IsBest(list, j)
    ensures i == j
  {
    assert list[i].rank <= list[j].rank && list[j].rank <= list[i].rank;
  }

  lemma {:induction false} BestRankedIsFirst(list: seq<Block>) returns (k: nat)
    requires list != []
    ensures IsBest(list, k) && BestRanked(list) == list[k]
  {
    var n := |list| - 1;
    if n == 0 {
      k := 0;
    } else {
      var front, last := list[..n], list[n];
      k := BestRankedIsFirst(front);
      if front[k].rank > last.rank {
        AfterBetterFront(list, k);
        k := n;
      } else {
        BestOfFrontStays(list, k);
      }
    }
  }

  lemma BestOfFrontStays(list: seq<Block>, k: nat)
    requires list != [] && IsBest(list[..|list| - 1], k) && list[k].rank <= list[|list| - 1].rank
    ensures IsBest(list, k)
  {
    var front := list[..|list| - 1];
    forall j | 0 <= j < |list| ensures list[k].rank <= list[j].rank {
      if j < |front| { assert front[k].rank <= front[j].rank; }
    }
    forall j | 0 <= j < k ensures list[k].rank < list[j].rank { assert front[k].rank < front[j].rank; }
  }

  lemma AfterBetterFront(list: seq<Block>, k: nat)
    requires list != [] && IsBest(list[..|list| - 1], k) && list[k].rank > list[|list| - 1].rank
    ensures IsBest(list, |list| - 1)
  {
    var front := list[..|list| - 1];
    forall j | 0 <= j < |front| ensures list[|list| - 1].rank < list[j].rank {
      assert front[k].rank <= front[j].rank;
    }
  }

  lemma MaySendExactly(notarized: seq<Block>, b: Block)
    ensures MaySend(notarized, b) <==> notarized == [] || BestRanked(notarized).hash == b.hash
  {
    hide BestRanked, IsBest;
    if notarized != [] {
      var k := BestRankedIsFirst(notarized);
      assert k < |notarized|;
      forall i: nat ensures IsBest(notarized, i) ==> i == k {
        if IsBest(notarized, i) {
          OneIsBest(notarized, i, k);
        }
      }
    }
  }

  /**
   After a verification the ticket is sent exactly if it passed and may be sent at that time, and the block becomes
   the round's exactly if it passed while nothing is notarized.
   */
  lemma TicketExactly(s: State, b: Block, v: Verdict)
    ensures var now, after := AllHappened(s, v.meanwhile), VerifyAndSend(s, b, v);
      && after.sent == (if v.passes && MaySend(now.notarized, b) then s.sent + [b] else s.sent)
      && after.best == (if v.passes && now.notarized == [] then Some(b) else now.best)
      && after.notarized == now.notarized
  {
    hide AllHappened, BestRanked, MaySend;
    KeepsSent(s, v.meanwhile);
    MaySendExactly(AllHappened(s, v.meanwhile).notarized, b);
  }

  /** A block that arrives after the start is tried exactly if the round's block is not better. */
  lemma LateTicketExactly(s: State, b: Block, v: Verdict)
    requires s.started
    ensures var now := AllHappened(s, v.meanwhile);
      Arrived(s, b, v).sent ==
        if (s.best.None? || s.best.value.rank >= b.rank) && v.passes && MaySend(now.notarized, b)
        then s.sent + [b] else s.sent
  {
    hide AllHappened, MaySend, VerifyAndSend;
    TicketExactly(s, b, v);
  }

  lemma {:induction false} KeepsSent(s: State, os: seq<Outside>)
    ensures AllHappened(s, os).sent == s.sent
    decreases os
  {
    hide Happened;
    if os != [] {
      OutsideKeeps(s, os[0]);
      KeepsSent(Happened(s, os[0]), os[1..]);
    }
  }

  /** All that happens outside while these verdicts are reached. */
  function Outsides(verdicts: seq<Verdict>): seq<Outside> {
    if verdicts == [] then [] else verdicts[0].meanwhile + Outsides(verdicts[1..])
  }

  lemma {:induction false} AllHappenedConcat(s: State, one: seq<Outside>, two: seq<Outside>)
    ensures AllHappened(s, one + two) == AllHappened(AllHappened(s, one), two)
    decreases one
  {
    hide Happened;
    if one == [] {
      assert one + two == two;
    } else {
      assert (one + two)[1..] == one[1..] + two;
      AllHappenedConcat(Happened(s, one[0]), one[1..], two);
    }
  }

  /** Up to the first block that passes, only outside changes take effect. */
  lemma {:induction false} TryAllExactly(s: State, list: seq<Block>, verdicts: seq<Verdict>, k: nat)
    requires |list| == |verdicts| && FirstToPass(verdicts, k)
    ensures var now, after := AllHappened(s, Outsides(verdicts[..k + 1])), TryAll(s, list, verdicts);
      && after.sent == (if MaySend(now.notarized, list[k]) then s.sent + [list[k]] else s.sent)
      && after.best == (if now.notarized == [] then Some(list[k]) else now.best)
    decreases k
  {
    hide AllHappened, MaySend, VerifyAndSend, Happened;
    assert verdicts[..k + 1][0] == verdicts[0] && verdicts[..k + 1][1..] == verdicts[1..][..k];
    var os := verdicts[0].meanwhile;
    if k == 0 {
      assert Outsides(verdicts[..1]) == os by { assert verdicts[1..][..0] == []; assert os + [] == os; }
      TicketExactly(s, list[0], verdicts[0]);
    } else {
      assert !verdicts[0].passes && !verdicts[0].cancelled;
      FailedOnlyWaits(s, list[0], verdicts[0]);
      FirstToPassNext(verdicts, k);
      TryAllExactly(AllHappened(s, os), list[1..], verdicts[1..], k - 1);
      AllHappenedConcat(s, os, Outsides(verdicts[1..][..k]));
      KeepsSent(s, os);
    }
  }

  lemma FailedOnlyWaits(s: State, b: Block, v: Verdict)
    requires !v.passes
    ensures VerifyAndSend(s, b, v) == AllHappened(s, v.meanwhile)
  {
  }

  lemma FirstToPassNext(verdicts: seq<Verdict>, k: nat)
    requires k > 0 && FirstToPass(verdicts, k)
    ensures FirstToPass(verdicts[1..], k - 1)
  {
    forall i | 0 <= i < k - 1 ensures !verdicts[1..][i].passes && !verdicts[1..][i].cancelled {
      assert verdicts[1..][i] == verdicts[i + 1];
    }
  }

  lemma FirstToPassBefore(verdicts: seq<Verdict>, k: nat)
    requires verdicts != [] && !verdicts[0].passes && !verdicts[0].cancelled && FirstToPass(verdicts[1..], k)
    ensures FirstToPass(verdicts, k + 1)
  {
    forall i | 0 <= i < k + 1 ensures !verdicts[i].passes && !verdicts[i].cancelled {
      if i > 0 { assert verdicts[i] == verdicts[1..][i - 1]; }
    }
  }

  lemma {:induction false} NothingPasses(s: State, list: seq<Block>, verdicts: seq<Verdict>)
    requires |list| == |verdicts| && forall k: nat :: !FirstToPass(verdicts, k)
    ensures TryAll(s, list, verdicts).sent == s.sent
    decreases list
  {
    hide AllHappened, VerifyAndSend;
    if list != [] && !verdicts[0].cancelled {
      assert !FirstToPass(verdicts, 0);
      FailedOnlyWaits(s, list[0], verdicts[0]);
      KeepsSent(s, verdicts[0].meanwhile);
      forall k: nat ensures !FirstToPass(verdicts[1..], k) {
        if FirstToPass(verdicts[1..], k) {
          FirstToPassBefore(verdicts, k);
        }
      }
      NothingPasses(VerifyAndSend(s, list[0], verdicts[0]), list[1..], verdicts[1..]);
    }
  }

  /**
   The opening ticket is for the first block in rank order that passes, and it is sent exactly if it may be then;
   every collected block of better rank was tried before it and failed.
   */
  lemma FirstTicketIsForTheBest(s: State, verdicts: seq<Verdict>, k: nat)
    requires |verdicts| == |s.blocks| && FirstToPass(verdicts, k)
    ensures k < |ByRank(s.blocks)|
    ensures var list := ByRank(s.blocks);
      var now, after := AllHappened(s.(blocks := list), Outsides(verdicts[..k + 1])), Initiated(s, verdicts);
      && after.sent == (if MaySend(now.notarized, list[k]) then s.sent + [list[k]] else s.sent)
      && after.best == (if now.notarized == [] then Some(list[k]) else now.best)
      && forall b :: b in s.blocks && b.rank < list[k].rank ==> b in list[..k]
  {
    hide ByRank, TryAll, AllHappened, MaySend, Outsides;
    var list := ByRank(s.blocks);
    ByRankSorted(s.blocks);
    TryAllExactly(s.(blocks := list), list, verdicts, k);
    forall b | b in s.blocks && b.rank < list[k].rank ensures b in list[..k] {
      assert b in multiset(list);
      var i :| 0 <= i < |list| && list[i] == b;
      assert list[..k][i] == b;
    }
  }

  /** Without a block that passes before the context ends, no ticket opens the verification. */
  lemma NoPassNoTicket(s: State, verdicts: seq<Verdict>)
    requires |verdicts| == |s.blocks| && forall k: nat :: !FirstToPass(verdicts, k)
    ensures Initiated(s, verdicts).sent == s.sent
  {
    hide ByRank, TryAll, FirstToPass;
    NothingPasses(s.(blocks := ByRank(s.blocks)), ByRank(s.blocks), verdicts);
  }
}
