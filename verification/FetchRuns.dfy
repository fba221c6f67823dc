/**
 Runs of the block fetch worker together with its callers and its fetch goroutines: one handler call per
 step, while the context is live. Every waiter is accounted for, slots and table stay within their
 limits, and each request is fetched at most once from miners and once from sharders.
 */
module FetchRuns {
  import opened Common
  import opened BlockFetcher

  // ---------------------------------------------------------------- the whole system

  datatype Limits = Limits(miners: nat, sharders: nat)

  /**
   `minerFetches`/`sharderFetches` are goroutines whose result is not consumed yet, `minerDrains`/
   `sharderDrains` those that still have to give their slot back. `submitted`, `answered`, `told`,
   `lost`, `minerStarts` and `sharderStarts` record history; `told` is what each waiter was answered.
   */
  datatype State = State(
    table: Table,
    latest: int,
    minerFetches: multiset<Fetch>,
    sharderFetches: multiset<Fetch>,
    minerDrains: nat,
    sharderDrains: nat,
    nextId: nat,
    submitted: set<nat>,
    answered: seq<nat>,
    told: map<nat, Answer>,
    lost: set<nat>,
    minerStarts: multiset<nat>,
    sharderStarts: multiset<nat>)

  const Start := State(map[], 0, multiset{}, multiset{}, 0, 0, 0, {}, [], map[], {}, multiset{}, multiset{})

  /**
   `released` says whether the goroutine that delivers has given its slot back by the time the handler
   asks for one: it does so on its own while the worker waits.
   */
  datatype Event =
    | Submit(hash: string, round: int, sharders: bool, waiters: seq<nat>)
    | Finish(fetch: Fetch, block: Option<(string, int)>, released: bool)
    | Drain(from: Source)
    | Ticket(ticket: int)

  function ReplyOf(f: Fetch, block: Option<(string, int)>): Reply {
    if block.Some? then Reply(block.value.0, block.value.1, true) else Reply(f.hash, f.round, false)
  }

  function HasSlot(s: State, lim: Limits, from: Source): bool {
    match from
    case FromMiners => |s.minerFetches| + s.minerDrains < lim.miners
    case FromSharders => |s.sharderFetches| + s.sharderDrains < lim.sharders
  }

  function RequestOf(s: State, e: Event): Request
    requires e.Submit?
  {
    Request(s.nextId, e.hash, e.round, e.sharders, e.waiters)
  }

  /** The table update and the action of one handler call. */
  function Handled(s: State, lim: Limits, e: Event): (Table, Action) {
    match e
    case Submit(_, _, _, _) => Admit(s.table, lim.miners + lim.sharders, RequestOf(s, e))
    case Finish(f, block, _) => Consume(s.table, s.latest, ReplyOf(f, block))
    case Drain(_) => (s.table, Nothing)
    case Ticket(_) => (s.table, Nothing)
  }

  /**
   Which events can happen: callers bring reply channels of their own, a fetched block has the hash
   that was asked for, and a handler that starts a fetch waits for a free slot.
   */
  predicate Enabled(s: State, lim: Limits, e: Event) {
    && (match e
        case Submit(_, _, _, waiters) =>
          (forall i :: 0 <= i < |waiters| ==> waiters[i] !in s.submitted) &&
          (forall i, j :: 0 <= i < j < |waiters| ==> waiters[i] != waiters[j])
        case Finish(f, block, _) =>
          && f in (if f.from == FromMiners then s.minerFetches else s.sharderFetches)
          && (block.Some? ==> block.value.0 != "" && (f.hash != "" ==> block.value.0 == f.hash))
        case Drain(from) => (if from == FromMiners then s.minerDrains else s.sharderDrains) > 0
        case Ticket(_) => true)
    && var a := Handled(s, lim, e).1;
       a.Launch? ==> HasSlot(Happened(s, e), lim, a.fetch.from)
  }

  /** A caller hands over its reply channels. */
  function Accepted(s: State, ws: seq<nat>): State {
    s.(nextId := s.nextId + 1, submitted := s.submitted + SetOf(ws))
  }

  /** A fetch goroutine delivers its result; unless `released`, it still holds its slot. */
  function Delivered(s: State, f: Fetch, released: bool): State {
    var held := if released then 0 else 1;
    if f.from == FromMiners
    then s.(minerFetches := s.minerFetches - multiset{f}, minerDrains := s.minerDrains + held)
    else s.(sharderFetches := s.sharderFetches - multiset{f}, sharderDrains := s.sharderDrains + held)
  }

  /** A fetch goroutine gives its slot back. */
  function Drained(s: State, from: Source): State
    requires (if from == FromMiners then s.minerDrains else s.sharderDrains) > 0
  {
    if from == FromMiners then s.(minerDrains := s.minerDrains - 1)
    else s.(sharderDrains := s.sharderDrains - 1)
  }

  /** A fetch goroutine is started. */
  function Launched(s: State, f: Fetch): State {
    if f.from == FromMiners
    then s.(minerFetches := s.minerFetches + multiset{f}, minerStarts := s.minerStarts + multiset{f.id})
    else s.(sharderFetches := s.sharderFetches + multiset{f}, sharderStarts := s.sharderStarts + multiset{f.id})
  }

  function SetOf(waiters: seq<nat>): set<nat> {
    set w | w in waiters
  }

  /** The event itself, before the worker reacts to it. */
  function Happened(s: State, e: Event): State
    requires e.Drain? ==> (if e.from == FromMiners then s.minerDrains else s.sharderDrains) > 0
  {
    match e
    case Submit(_, _, _, waiters) => Accepted(s, waiters)
    case Finish(f, _, released) => Delivered(s, f, released)
    case Drain(from) => Drained(s, from)
    case Ticket(round) => s.(latest := round)
  }

  /** All these waiters get the same answer. */
  function Told(s: State, waiters: seq<nat>, answer: Answer): State {
    s.(answered := s.answered + waiters, told := s.told + map w | w in waiters :: answer)
  }

  function Performed(s: State, a: Action): State {
    match a
    case Nothing => s
    case Respond(waiters, answer) => Told(s, waiters, answer)
    case Launch(f) => Launched(s, f)
  }

  /** Waiters whose entry disappears from the table without being the one that is answered. */
  ghost function Dropped(before: Table, after: Table, a: Action): set<nat> {
    set k, w | k in before && k !in after && w in before[k].waiters && !(a.Respond? && w in a.waiters) :: w
  }

  ghost function Step(s: State, lim: Limits, e: Event): State
    requires Enabled(s, lim, e)
  {
    var (table, a) := Handled(s, lim, e);
    Performed(Happened(s, e), a).(table := table, lost := s.lost + Dropped(s.table, table, a))
  }

  /** A run: the states visited by a list of events. */
  ghost predicate IsRun(lim: Limits, states: seq<State>, events: seq<Event>) {
    && |states| == |events| + 1
    && states[0] == Start
    && forall i :: 0 <= i < |events| ==> IsStep(states[i], lim, events[i], states[i + 1])
  }

  ghost predicate IsStep(s: State, lim: Limits, e: Event, s': State) {
    Enabled(s, lim, e) && s' == Step(s, lim, e)
  }

  // ---------------------------------------------------------------- waiters

  ghost predicate Waits(table: Table, k: FetchKey, w: nat) {
    k in table && w in table[k].waiters
  }

  /**
   Every submitted waiter is in exactly one place: under one key of the table, answered once, or
   lost.
   */
  ghost predicate Ledger(table: Table, submitted: set<nat>, answered: seq<nat>, lost: set<nat>) {
    && (forall k :: k in table ==> NoDup(table[k].waiters))
    && (forall j, k, w :: Waits(table, j, w) && Waits(table, k, w) ==> j == k)
    && (forall k, w :: Waits(table, k, w) ==> w in submitted && w !in answered && w !in lost)
    && NoDup(answered)
    && (forall w :: w in answered ==> w in submitted && w !in lost)
    && lost <= submitted
    && (forall w :: w in submitted && w !in answered && w !in lost ==> exists k :: Waits(table, k, w))
  }

  ghost predicate Fresh(waiters: seq<nat>, submitted: set<nat>) {
    NoDup(waiters) && forall w :: w in waiters ==> w !in submitted
  }

  lemma JoinKeepsLedger(table: Table, submitted: set<nat>, answered: seq<nat>, lost: set<nat>, k: FetchKey,
                        ws: seq<nat>)
    requires Ledger(table, submitted, answered, lost) && Fresh(ws, submitted) && k in table
    ensures Ledger(table[k := table[k].(waiters := table[k].waiters + ws)], submitted + SetOf(ws), answered, lost)
  {
    hide NoDup;
    var table' := table[k := table[k].(waiters := table[k].waiters + ws)];
    forall w | w in table[k].waiters ensures w !in ws { assert Waits(table, k, w); }
    NoDupConcat(table[k].waiters, ws);
    forall j, w ensures Waits(table', j, w) <==> Waits(table, j, w) || (j == k && w in ws) { }
    forall w | w in submitted + SetOf(ws) && w !in answered && w !in lost ensures exists j :: Waits(table', j, w) {
      if w in submitted {
        var j :| Waits(table, j, w);
        assert Waits(table', j, w);
      } else {
        assert Waits(table', k, w);
      }
    }
  }

  lemma RefuseKeepsLedger(table: Table, submitted: set<nat>, answered: seq<nat>, lost: set<nat>, ws: seq<nat>)
    requires Ledger(table, submitted, answered, lost) && Fresh(ws, submitted)
    ensures Ledger(table, submitted + SetOf(ws), answered + ws, lost)
  {
    hide NoDup;
    NoDupConcat(answered, ws);
  }

  lemma InsertKeepsLedger(table: Table, submitted: set<nat>, answered: seq<nat>, lost: set<nat>, k: FetchKey,
                          r: Request)
    requires Ledger(table, submitted, answered, lost) && Fresh(r.waiters, submitted) && k !in table
    ensures Ledger(table[k := r], submitted + SetOf(r.waiters), answered, lost)
  {
    hide NoDup;
    var table' := table[k := r];
    forall j, w ensures Waits(table', j, w) <==> Waits(table, j, w) || (j == k && w in r.waiters) { }
    forall w | w in submitted + SetOf(r.waiters) && w !in answered && w !in lost
      ensures exists j :: Waits(table', j, w)
    {
      if w in submitted {
        var j :| Waits(table, j, w);
        assert Waits(table', j, w);
      } else {
        assert Waits(table', k, w);
      }
    }
  }

  lemma UpgradeKeepsLedger(table: Table, submitted: set<nat>, answered: seq<nat>, lost: set<nat>, k: FetchKey)
    requires Ledger(table, submitted, answered, lost) && k in table
    ensures Ledger(table[k := table[k].(sharders := true)], submitted, answered, lost)
  {
    hide NoDup;
    var table' := table[k := table[k].(sharders := true)];
    forall j, w ensures Waits(table', j, w) <==> Waits(table, j, w) { }
  }

  /** The waiters under removed keys, except those of the answered entry. */
  ghost function Stranded(table: Table, gone: set<FetchKey>, answering: seq<nat>): set<nat> {
    set k, w | k in table && k in gone && w in table[k].waiters && w !in answering :: w
  }

  lemma EndKeepsLedger(table: Table, submitted: set<nat>, answered: seq<nat>, lost: set<nat>, k: FetchKey,
                       gone: set<FetchKey>)
    requires Ledger(table, submitted, answered, lost) && k in table && k in gone
    ensures Ledger(table - gone, submitted, answered + table[k].waiters, lost + Stranded(table, gone, table[k].waiters))
  {
    hide NoDup;
    var ws := table[k].waiters;
    var table' := table - gone;
    forall w | w in answered ensures w !in ws { assert w in ws ==> Waits(table, k, w); }
    NoDupConcat(answered, ws);
    forall j, w ensures Waits(table', j, w) <==> Waits(table, j, w) && j !in gone { }
    forall w | w in ws ensures Waits(table, k, w) { }
    forall w | w in Stranded(table, gone, ws) ensures exists j :: Waits(table, j, w) && j in gone { }
    forall j, w | Waits(table, j, w) && j in gone && w !in ws ensures w in Stranded(table, gone, ws) { }
  }

  lemma FreshFromEnabled(s: State, lim: Limits, e: Event)
    requires e.Submit? && Enabled(s, lim, e)
    ensures Fresh(e.waiters, s.submitted)
  {
    NoDupFromIndices(e.waiters);
  }

  // ---------------------------------------------------------------- the shapes a step can take

  /** The fetch an entry relies on: from miners until it is sent to sharders. */
  function CurrentFetch(r: Request): Fetch {
    Fetch(r.id, if r.sharders then FromSharders else FromMiners, r.hash, r.round)
  }

  function SecondFetch(r: Request): Fetch {
    Fetch(r.id, FromSharders, r.hash, r.round)
  }

  lemma AdmitDropsNobody(table: Table, total: nat, req: Request)
    ensures var (table', a) := Admit(table, total, req); Dropped(table, table', a) == {}
  {
  }

  lemma ConsumeDrops(table: Table, latest: int, rpl: Reply)
    ensures var (table', a) := Consume(table, latest, rpl);
            var m := Match(table, rpl);
            Dropped(table, table', a) ==
              if m.Some? && Ends(rpl, table[m.value], latest)
              then Stranded(table, Removed(rpl), table[m.value].waiters) else {}
  {
    hide Removed;
  }

  lemma AcceptedKeeps(s: State, ws: seq<nat>)
    ensures Accepted(s, ws).table == s.table && Accepted(s, ws).lost == s.lost
  {
    hide SetOf;
  }

  lemma PerformedKeeps(s: State, a: Action)
    ensures Performed(s, a).table == s.table && Performed(s, a).lost == s.lost
  {
  }

  lemma SubmitShape(s: State, lim: Limits, e: Event)
    requires e.Submit? && Enabled(s, lim, e)
    ensures var k, r, s1 := KeyFor(e.hash, e.round), RequestOf(s, e), Accepted(s, e.waiters);
            Step(s, lim, e) ==
              if k in s.table then s1.(table := s.table[k := s.table[k].(waiters := s.table[k].waiters + e.waiters)])
              else if |s.table| >= lim.miners + lim.sharders then Told(s1, e.waiters, QueueFull)
              else Launched(s1, CurrentFetch(r)).(table := s.table[k := r])
  {
    hide Dropped, KeyFor, Enabled, Accepted, Launched, Told;
    AdmitDropsNobody(s.table, lim.miners + lim.sharders, RequestOf(s, e));
    var s1 := Accepted(s, e.waiters);
    AcceptedKeeps(s, e.waiters);
    PerformedKeeps(s1, Admit(s.table, lim.miners + lim.sharders, RequestOf(s, e)).1);
    assert s.lost + {} == s.lost;
  }

  /** Everything but running fetches and slots is as before. */
  predicate SameBooks(s: State, d: State) {
    && d.table == s.table && d.latest == s.latest && d.answered == s.answered && d.told == s.told && d.lost == s.lost
    && d.nextId == s.nextId && d.minerStarts == s.minerStarts && d.sharderStarts == s.sharderStarts
  }

  lemma DeliveredKeeps(s: State, f: Fetch, released: bool)
    ensures SameBooks(s, Delivered(s, f, released))
  {
    if f.from == FromMiners {
      FetchesOnly(s, Delivered(s, f, released).minerFetches, s.sharderFetches,
                  Delivered(s, f, released).minerDrains, s.sharderDrains);
    } else {
      FetchesOnly(s, s.minerFetches, Delivered(s, f, released).sharderFetches,
                  s.minerDrains, Delivered(s, f, released).sharderDrains);
    }
  }

  lemma FetchesOnly(s: State, miners: multiset<Fetch>, sharders: multiset<Fetch>, minerDrains: nat, sharderDrains: nat)
    ensures SameBooks(s, s.(minerFetches := miners, sharderFetches := sharders, minerDrains := minerDrains,
                            sharderDrains := sharderDrains))
  {
  }

  lemma FinishShape(s: State, lim: Limits, e: Event)
    requires e.Finish? && Enabled(s, lim, e)
    ensures var rpl, s1 := ReplyOf(e.fetch, e.block), Delivered(s, e.fetch, e.released);
            var m := Match(s.table, rpl);
            Step(s, lim, e) ==
              if m.None? then s1
              else if Ends(rpl, s.table[m.value], s.latest) then
                Told(s1, s.table[m.value].waiters,
                     if rpl.hasBlock then GotBlock(rpl.hash, rpl.round) else FetchFailed).(
                  table := s.table - Removed(rpl),
                  lost := s.lost + Stranded(s.table, Removed(rpl), s.table[m.value].waiters))
              else
                Launched(s1, SecondFetch(s.table[m.value])).(
                  table := s.table[m.value := s.table[m.value].(sharders := true)])
  {
    hide Dropped, Match, Ends, Removed, Stranded, ReplyOf, Delivered, Enabled;
    ConsumeDrops(s.table, s.latest, ReplyOf(e.fetch, e.block));
    DeliveredKeeps(s, e.fetch, e.released);
    assert s.lost + {} == s.lost;
    assert Happened(s, e) == Delivered(s, e.fetch, e.released);
  }

  lemma OtherShape(s: State, lim: Limits, e: Event)
    requires (e.Drain? || e.Ticket?) && Enabled(s, lim, e)
    ensures Step(s, lim, e) == Happened(s, e)
  {
    assert Dropped(s.table, s.table, Nothing) == {};
  }

  ghost predicate WaitersOk(s: State) {
    Ledger(s.table, s.submitted, s.answered, s.lost)
  }

  lemma StepKeepsWaiters(s: State, lim: Limits, e: Event)
    requires WaitersOk(s) && Enabled(s, lim, e)
    ensures WaitersOk(Step(s, lim, e))
  {
    hide Ledger, Enabled, Step, Fresh, SetOf, Stranded, Match;
    match e {
      case Submit(hash, round, _, ws) =>
        FreshFromEnabled(s, lim, e);
        SubmitShape(s, lim, e);
        var k := KeyFor(hash, round);
        if k in s.table {
          JoinKeepsLedger(s.table, s.submitted, s.answered, s.lost, k, ws);
        } else if |s.table| >= lim.miners + lim.sharders {
          RefuseKeepsLedger(s.table, s.submitted, s.answered, s.lost, ws);
        } else {
          InsertKeepsLedger(s.table, s.submitted, s.answered, s.lost, k, RequestOf(s, e));
        }
      case Finish(f, block, _) =>
        FinishShape(s, lim, e);
        var rpl := ReplyOf(f, block);
        var m := Match(s.table, rpl);
        MatchedIsRemoved(s.table, rpl);
        if m.None? {
        } else if Ends(rpl, s.table[m.value], s.latest) {
          EndKeepsLedger(s.table, s.submitted, s.answered, s.lost, m.value, Removed(rpl));
        } else {
          UpgradeKeepsLedger(s.table, s.submitted, s.answered, s.lost, m.value);
        }
      case Drain(_) => OtherShape(s, lim, e);
      case Ticket(_) => OtherShape(s, lim, e);
    }
  }

  lemma MatchedIsRemoved(table: Table, rpl: Reply)
    ensures var m := Match(table, rpl); m.Some? ==> m.value in table && m.value in Removed(rpl)
  {
  }

  // ---------------------------------------------------------------- slots

  ghost predicate SlotsOk(s: State, lim: Limits) {
    && |s.table| <= lim.miners + lim.sharders
    && |s.minerFetches| + s.minerDrains <= lim.miners
    && |s.sharderFetches| + s.sharderDrains <= lim.sharders
  }

  lemma SubsetSize(a: set<FetchKey>, b: set<FetchKey>)
    requires a <= b
    ensures |a| <= |b|
  {
    assert b == a + (b - a);
  }

  lemma TableSizes(table: Table, k: FetchKey, r: Request, gone: set<FetchKey>)
    ensures |table[k := r]| == if k in table then |table| else |table| + 1
    ensures |table - gone| <= |table|
  {
    assert table[k := r].Keys == table.Keys + {k};
    SubsetSize((table - gone).Keys, table.Keys);
  }

  lemma DeliveredSlots(s: State, f: Fetch, released: bool)
    requires f in (if f.from == FromMiners then s.minerFetches else s.sharderFetches)
    ensures var d := Delivered(s, f, released);
            |d.minerFetches| + d.minerDrains <= |s.minerFetches| + s.minerDrains &&
            |d.sharderFetches| + d.sharderDrains <= |s.sharderFetches| + s.sharderDrains
  {
  }

  lemma LaunchedSlots(s: State, lim: Limits, f: Fetch, table: Table)
    requires SlotsOk(s, lim) && HasSlot(s, lim, f.from) && |table| <= lim.miners + lim.sharders
    ensures SlotsOk(Launched(s, f).(table := table), lim)
  {
  }

  lemma SubmitKeepsSlots(s: State, lim: Limits, e: Event)
    requires e.Submit? && SlotsOk(s, lim) && Enabled(s, lim, e)
    ensures SlotsOk(Step(s, lim, e), lim)
  {
    hide Step, SetOf, Launched;
    SubmitShape(s, lim, e);
    var k := KeyFor(e.hash, e.round);
    if k in s.table {
      TableSizes(s.table, k, s.table[k].(waiters := s.table[k].waiters + e.waiters), {});
    } else if |s.table| < lim.miners + lim.sharders {
      TableSizes(s.table, k, RequestOf(s, e), {});
      LaunchedSlots(Accepted(s, e.waiters), lim, CurrentFetch(RequestOf(s, e)), s.table[k := RequestOf(s, e)]);
    }
  }

  lemma SecondFetchHasSlot(s: State, lim: Limits, e: Event, k: FetchKey)
    requires e.Finish? && Enabled(s, lim, e) && Match(s.table, ReplyOf(e.fetch, e.block)) == Some(k)
    requires !Ends(ReplyOf(e.fetch, e.block), s.table[k], s.latest)
    ensures HasSlot(Delivered(s, e.fetch, e.released), lim, FromSharders)
  {
    hide Match, Ends, Delivered, HasSlot, ReplyOf;
  }

  lemma FinishKeepsSlots(s: State, lim: Limits, e: Event)
    requires e.Finish? && SlotsOk(s, lim) && Enabled(s, lim, e)
    ensures SlotsOk(Step(s, lim, e), lim)
  {
    hide Step, Stranded, Launched, Ends, Removed, Delivered, Match, ReplyOf, HasSlot, Handled;
    FinishShape(s, lim, e);
    DeliveredSlots(s, e.fetch, e.released);
    DeliveredKeeps(s, e.fetch, e.released);
    var rpl := ReplyOf(e.fetch, e.block);
    var m := Match(s.table, rpl);
    MatchedIsRemoved(s.table, rpl);
    if m.Some? {
      var r := s.table[m.value];
      TableSizes(s.table, m.value, r.(sharders := true), Removed(rpl));
      if !Ends(rpl, r, s.latest) {
        SecondFetchHasSlot(s, lim, e, m.value);
        LaunchedSlots(Delivered(s, e.fetch, e.released), lim, SecondFetch(r), s.table[m.value := r.(sharders := true)]);
      }
    }
  }

  lemma StepKeepsSlots(s: State, lim: Limits, e: Event)
    requires SlotsOk(s, lim) && Enabled(s, lim, e)
    ensures SlotsOk(Step(s, lim, e), lim)
  {
    hide Step, Handled;
    match e {
      case Submit(_, _, _, _) => SubmitKeepsSlots(s, lim, e);
      case Finish(_, _, _) => FinishKeepsSlots(s, lim, e);
      case Drain(_) => OtherShape(s, lim, e);
      case Ticket(_) => OtherShape(s, lim, e);
    }
  }

  // ---------------------------------------------------------------- fetches started per request

  /** Request objects are distinct, and one that has not been sent to sharders has no sharder fetch. */
  ghost predicate StartsOk(s: State) {
    && (forall id :: s.minerStarts[id] <= (if id < s.nextId then 1 else 0))
    && (forall id :: s.sharderStarts[id] <= (if id < s.nextId then 1 else 0))
    && (forall k :: k in s.table ==> EntryOk(s, k))
    && (forall j, k :: j in s.table && k in s.table && s.table[j].id == s.table[k].id ==> j == k)
  }

  ghost predicate EntryOk(s: State, k: FetchKey)
    requires k in s.table
  {
    var r := s.table[k];
    r.id < s.nextId && k == KeyFor(r.hash, r.round) && (!r.sharders ==> s.sharderStarts[r.id] == 0)
  }

  lemma SubmitKeepsStarts(s: State, lim: Limits, e: Event)
    requires e.Submit? && StartsOk(s) && Enabled(s, lim, e)
    ensures StartsOk(Step(s, lim, e))
  {
    hide Step, SetOf, Enabled, KeyFor;
    SubmitShape(s, lim, e);
    var k := KeyFor(e.hash, e.round);
    if k in s.table {
      JoinKeepsStarts(s, k, e.waiters);
    } else if |s.table| < lim.miners + lim.sharders {
      InsertKeepsStarts(s, k, RequestOf(s, e));
    }
  }

  lemma JoinKeepsStarts(s: State, k: FetchKey, ws: seq<nat>)
    requires StartsOk(s) && k in s.table
    ensures StartsOk(Accepted(s, ws).(table := s.table[k := s.table[k].(waiters := s.table[k].waiters + ws)]))
  {
    hide SetOf, KeyFor;
  }

  lemma InsertKeepsStarts(s: State, k: FetchKey, r: Request)
    requires StartsOk(s) && k !in s.table && r.id == s.nextId && k == KeyFor(r.hash, r.round)
    ensures StartsOk(Launched(Accepted(s, r.waiters), CurrentFetch(r)).(table := s.table[k := r]))
  {
    hide SetOf, KeyFor;
  }

  lemma UpgradeKeepsStarts(s: State, k: FetchKey)
    requires StartsOk(s) && k in s.table && !s.table[k].sharders
    ensures StartsOk(Launched(s, SecondFetch(s.table[k])).(table := s.table[k := s.table[k].(sharders := true)]))
  {
  }

  lemma FinishKeepsStarts(s: State, lim: Limits, e: Event)
    requires e.Finish? && StartsOk(s) && Enabled(s, lim, e)
    ensures StartsOk(Step(s, lim, e))
  {
    hide Step, Stranded, Launched, Removed, Delivered, Match, ReplyOf, Enabled, KeyFor;
    FinishShape(s, lim, e);
    DeliveredKeeps(s, e.fetch, e.released);
    var rpl := ReplyOf(e.fetch, e.block);
    var m := Match(s.table, rpl);
    MatchedIsRemoved(s.table, rpl);
    var d := Delivered(s, e.fetch, e.released);
    assert StartsOk(d);
    if m.Some? && !Ends(rpl, s.table[m.value], s.latest) {
      UpgradeKeepsStarts(d, m.value);
    }
  }

  lemma StepKeepsStarts(s: State, lim: Limits, e: Event)
    requires StartsOk(s) && Enabled(s, lim, e)
    ensures StartsOk(Step(s, lim, e))
  {
    hide Step, Handled;
    match e {
      case Submit(_, _, _, _) => SubmitKeepsStarts(s, lim, e);
      case Finish(_, _, _) => FinishKeepsStarts(s, lim, e);
      case Drain(_) => OtherShape(s, lim, e);
      case Ticket(_) => OtherShape(s, lim, e);
    }
  }

  // ---------------------------------------------------------------- who is lost

  /** The reply is matched to a hash-keyed request, ends it, and `w` waits for the same round by round. */
  ghost predicate Overtaken(s: State, e: Event, w: nat) {
    e.Finish? &&
    var rpl := ReplyOf(e.fetch, e.block);
    && rpl.hash != "" && ByHash(rpl.hash) in s.table
    && Ends(rpl, s.table[ByHash(rpl.hash)], s.latest)
    && Waits(s.table, ByRound(rpl.round), w)
  }

  lemma StrandedByRound(s: State, rpl: Reply, w: nat)
    requires WaitersOk(s) && Match(s.table, rpl).Some?
    ensures w in Stranded(s.table, Removed(rpl), s.table[Match(s.table, rpl).value].waiters) <==>
            rpl.hash != "" && ByHash(rpl.hash) in s.table && Waits(s.table, ByRound(rpl.round), w)
  {
    hide NoDup;
    var h, r := ByHash(rpl.hash), ByRound(rpl.round);
    if rpl.hash != "" && h in s.table && Waits(s.table, r, w) {
      assert w in s.table[h].waiters ==> Waits(s.table, h, w);
    }
  }

  /** A step loses exactly the waiters overtaken by a hash-keyed reply. */
  lemma LostExactly(s: State, lim: Limits, e: Event, w: nat)
    requires WaitersOk(s) && Enabled(s, lim, e)
    ensures w in Step(s, lim, e).lost <==> w in s.lost || Overtaken(s, e, w)
  {
    hide Step, Ledger, Handled, Stranded, Removed, NoDup, Enabled, Delivered, Launched, SetOf;
    match e {
      case Submit(_, _, _, _) =>
        SubmitShape(s, lim, e);
        LaunchedKeepsLost(Accepted(s, e.waiters), CurrentFetch(RequestOf(s, e)));
      case Finish(f, block, _) =>
        FinishShape(s, lim, e);
        DeliveredKeeps(s, f, e.released);
        var m := Match(s.table, ReplyOf(f, block));
        if m.Some? {
          LaunchedKeepsLost(Delivered(s, f, e.released), SecondFetch(s.table[m.value]));
          StrandedByRound(s, ReplyOf(f, block), w);
        }
      case Drain(_) => OtherShape(s, lim, e);
      case Ticket(_) => OtherShape(s, lim, e);
    }
  }

  lemma LaunchedKeepsLost(s: State, f: Fetch)
    ensures Launched(s, f).lost == s.lost
  {
  }

  /** A waiter that is sent a block is sent the block it asked for. */
  lemma AnswersFit(table: Table, latest: int, rpl: Reply, w: nat, k: FetchKey)
    requires forall i, j :: Waits(table, i, w) && Waits(table, j, w) ==> i == j
    requires Waits(table, k, w) && rpl.hasBlock
    requires var a := Consume(table, latest, rpl).1; a.Respond? && w in a.waiters
    ensures Consume(table, latest, rpl).1.answer == GotBlock(rpl.hash, rpl.round)
    ensures k == ByHash(rpl.hash) || k == ByRound(rpl.round)
  {
    assert Waits(table, Match(table, rpl).value, w);
  }

  // ---------------------------------------------------------------- entries without a fetch

  predicate Running(s: State, f: Fetch) {
    f in (if f.from == FromMiners then s.minerFetches else s.sharderFetches)
  }

  /** Every entry's current fetch has still to deliver. */
  ghost predicate Backed(s: State) {
    forall k :: k in s.table ==> Running(s, CurrentFetch(s.table[k]))
  }

  /** No fetch goroutine runs twice. */
  ghost predicate FetchesOk(s: State) {
    && (forall f :: s.minerFetches[f] <= s.minerStarts[f.id])
    && (forall f :: s.sharderFetches[f] <= s.sharderStarts[f.id])
  }

  lemma DeliveredFetches(s: State, f: Fetch, released: bool)
    requires FetchesOk(s)
    ensures FetchesOk(Delivered(s, f, released))
  {
  }

  lemma LaunchedFetches(s: State, f: Fetch, table: Table)
    requires FetchesOk(s)
    ensures FetchesOk(Launched(s, f).(table := table))
  {
    forall g ensures Launched(s, f).minerFetches[g] <= Launched(s, f).minerStarts[g.id] {}
  }

  lemma StepKeepsFetches(s: State, lim: Limits, e: Event)
    requires FetchesOk(s) && Enabled(s, lim, e)
    ensures FetchesOk(Step(s, lim, e))
  {
    hide Step, Handled, Stranded, Removed, Enabled, Delivered, Launched, SetOf;
    match e {
      case Submit(_, _, _, _) =>
        SubmitShape(s, lim, e);
        var r := RequestOf(s, e);
        LaunchedFetches(Accepted(s, e.waiters), CurrentFetch(r), s.table[KeyFor(e.hash, e.round) := r]);
      case Finish(f, block, _) =>
        FinishShape(s, lim, e);
        DeliveredFetches(s, f, e.released);
        var m := Match(s.table, ReplyOf(f, block));
        if m.Some? {
          var r := s.table[m.value];
          LaunchedFetches(Delivered(s, f, e.released), SecondFetch(r), s.table[m.value := r.(sharders := true)]);
        }
      case Drain(_) => OtherShape(s, lim, e);
      case Ticket(_) => OtherShape(s, lim, e);
    }
  }

  /** The fetch an entry waits for, made by round, brings a block of another round. */
  predicate MissesItsEntry(s: State, e: Event) {
    e.Finish? && e.block.Some? && e.fetch.hash == "" &&
    var k := ByRound(e.fetch.round);
    e.block.value.1 != e.fetch.round && k in s.table && CurrentFetch(s.table[k]) == e.fetch
  }

  lemma SubmitKeepsBacked(s: State, lim: Limits, e: Event)
    requires e.Submit? && Backed(s) && Enabled(s, lim, e)
    ensures Backed(Step(s, lim, e))
  {
    hide Step, SetOf, Enabled, KeyFor;
    SubmitShape(s, lim, e);
  }

  /** Delivering a fetch leaves every other running fetch running, and stops that one. */
  lemma DeliveredRunning(s: State, f: Fetch, released: bool, g: Fetch)
    requires StartsOk(s) && FetchesOk(s) && Running(s, f)
    ensures Running(Delivered(s, f, released), g) <==> Running(s, g) && g != f
  {
    assert s.minerStarts[f.id] <= 1 && s.sharderStarts[f.id] <= 1;
    assert s.minerFetches[f] <= s.minerStarts[f.id] && s.sharderFetches[f] <= s.sharderStarts[f.id];
  }

  /** The entry a delivered fetch belonged to has that fetch's own key. */
  lemma EntryOfFetch(s: State, k: FetchKey, f: Fetch)
    requires StartsOk(s) && k in s.table && CurrentFetch(s.table[k]) == f
    ensures k == KeyFor(f.hash, f.round)
  {
    assert EntryOk(s, k);
  }

  lemma DeliveredEntryEnds(s: State, lim: Limits, e: Event)
    requires e.Finish? && Enabled(s, lim, e)
    requires var k := KeyFor(e.fetch.hash, e.fetch.round); k in s.table && CurrentFetch(s.table[k]) == e.fetch
    ensures var k, rpl := KeyFor(e.fetch.hash, e.fetch.round), ReplyOf(e.fetch, e.block);
            var m := Match(s.table, rpl);
            if MissesItsEntry(s, e) then rpl.hasBlock && k !in Removed(rpl)
            else m.Some? && k in Removed(rpl) && (Ends(rpl, s.table[m.value], s.latest) || m.value == k)
  {
    hide Handled;
  }

  /** After a delivery exactly the entry that relied on this fetch is without one. */
  lemma DeliveredBacked(s: State, f: Fetch, released: bool, k: FetchKey)
    requires StartsOk(s) && FetchesOk(s) && Backed(s) && Running(s, f) && k in s.table
    ensures Running(Delivered(s, f, released), CurrentFetch(s.table[k])) <==>
            !(k == KeyFor(f.hash, f.round) && CurrentFetch(s.table[k]) == f)
  {
    hide StartsOk, FetchesOk, Delivered, KeyFor, Running;
    DeliveredRunning(s, f, released, CurrentFetch(s.table[k]));
    if CurrentFetch(s.table[k]) == f { EntryOfFetch(s, k, f); }
  }

  lemma FinishBacked(s: State, lim: Limits, e: Event)
    requires e.Finish? && StartsOk(s) && FetchesOk(s) && Backed(s) && Enabled(s, lim, e)
    ensures Backed(Step(s, lim, e)) <==> !MissesItsEntry(s, e)
  {
    hide Step, Stranded, Delivered, Match, ReplyOf, Handled, StartsOk, FetchesOk, Removed, KeyFor, MissesItsEntry;
    FinishShape(s, lim, e);
    DeliveredKeeps(s, e.fetch, e.released);
    var f, rpl, d, s' := e.fetch, ReplyOf(e.fetch, e.block), Delivered(s, e.fetch, e.released), Step(s, lim, e);
    var own := KeyFor(f.hash, f.round);
    MatchedIsRemoved(s.table, rpl);
    if own in s.table && CurrentFetch(s.table[own]) == f {
      DeliveredEntryEnds(s, lim, e);
    } else {
      NotMissing(s, e);
    }
    forall k | k in s.table
      ensures Running(d, CurrentFetch(s.table[k])) <==> !(k == own && CurrentFetch(s.table[k]) == f)
    {
      DeliveredBacked(s, f, e.released, k);
    }
    if MissesItsEntry(s, e) {
      MissingIsOwn(s, e);
      assert own in s'.table && s'.table[own] == s.table[own];
      assert !Running(s', CurrentFetch(s'.table[own]));
    }
  }

  lemma NotMissing(s: State, e: Event)
    requires e.Finish?
    requires var k := KeyFor(e.fetch.hash, e.fetch.round); !(k in s.table && CurrentFetch(s.table[k]) == e.fetch)
    ensures !MissesItsEntry(s, e)
  {
  }

  lemma MissingIsOwn(s: State, e: Event)
    requires MissesItsEntry(s, e)
    ensures var k := KeyFor(e.fetch.hash, e.fetch.round); k in s.table && CurrentFetch(s.table[k]) == e.fetch
  {
  }

  /** A step leaves an entry without a fetch exactly when a by-round fetch brings another round's block. */
  lemma BackedExactly(s: State, lim: Limits, e: Event)
    requires StartsOk(s) && FetchesOk(s) && Backed(s) && Enabled(s, lim, e)
    ensures Backed(Step(s, lim, e)) <==> !MissesItsEntry(s, e)
  {
    hide Step, Handled, StartsOk, FetchesOk;
    match e {
      case Submit(_, _, _, _) => SubmitKeepsBacked(s, lim, e);
      case Finish(_, _, _) => FinishBacked(s, lim, e);
      case Drain(_) => OtherShape(s, lim, e);
      case Ticket(_) => OtherShape(s, lim, e);
    }
  }

  // ---------------------------------------------------------------- whole runs

  /** What holds in every reachable state. */
  lemma {:induction false} RunInvariant(lim: Limits, states: seq<State>, events: seq<Event>, n: nat)
    requires IsRun(lim, states, events) && n < |states|
    ensures WaitersOk(states[n]) && SlotsOk(states[n], lim) && StartsOk(states[n]) && FetchesOk(states[n])
  {
    hide WaitersOk, SlotsOk, StartsOk, FetchesOk, Step, Enabled;
    if n == 0 {
      StartIsFine(lim);
    } else {
      RunInvariant(lim, states, events, n - 1);
      RunStep(lim, states, events, n - 1);
    }
  }

  lemma StartIsFine(lim: Limits)
    ensures WaitersOk(Start) && SlotsOk(Start, lim) && StartsOk(Start) && FetchesOk(Start)
  {
  }

  lemma RunStep(lim: Limits, states: seq<State>, events: seq<Event>, i: nat)
    requires IsRun(lim, states, events) && i < |events|
    requires WaitersOk(states[i]) && SlotsOk(states[i], lim) && StartsOk(states[i]) && FetchesOk(states[i])
    ensures WaitersOk(states[i + 1]) && SlotsOk(states[i + 1], lim)
    ensures StartsOk(states[i + 1]) && FetchesOk(states[i + 1])
  {
    hide WaitersOk, SlotsOk, StartsOk, FetchesOk, Step, Enabled;
    assert IsStep(states[i], lim, events[i], states[i + 1]);
    StepKeepsWaiters(states[i], lim, events[i]);
    StepKeepsSlots(states[i], lim, events[i]);
    StepKeepsStarts(states[i], lim, events[i]);
    StepKeepsFetches(states[i], lim, events[i]);
  }

  /** A waiter is lost in a run if and only if some step of the run overtook it. */
  lemma {:induction false} LostInRun(lim: Limits, states: seq<State>, events: seq<Event>, n: nat, w: nat)
    requires IsRun(lim, states, events) && n < |states|
    ensures w in states[n].lost <==> exists i :: 0 <= i < n && Overtaken(states[i], events[i], w)
  {
    hide WaitersOk, SlotsOk, StartsOk, FetchesOk, Step, Enabled, Overtaken;
    if n > 0 {
      LostInRun(lim, states, events, n - 1, w);
      RunInvariant(lim, states, events, n - 1);
      assert IsStep(states[n - 1], lim, events[n - 1], states[n]);
      LostExactly(states[n - 1], lim, events[n - 1], w);
    }
  }

  /** Unless a by-round fetch brings another round's block, every entry always has a fetch to wait for. */
  lemma {:induction false} BackedInRun(lim: Limits, states: seq<State>, events: seq<Event>, n: nat)
    requires IsRun(lim, states, events) && n < |states|
    requires forall i :: 0 <= i < n ==> !MissesItsEntry(states[i], events[i])
    ensures Backed(states[n])
  {
    hide WaitersOk, SlotsOk, StartsOk, FetchesOk, Step, Enabled, MissesItsEntry;
    if n > 0 {
      BackedInRun(lim, states, events, n - 1);
      RunInvariant(lim, states, events, n - 1);
      assert IsStep(states[n - 1], lim, events[n - 1], states[n]);
      BackedExactly(states[n - 1], lim, events[n - 1]);
    }
  }

  /** A fresh caller's request for a new key, with room and a free slot. */
  lemma NewRequest(s: State, lim: Limits, e: Event, w: nat)
    requires e.Submit? && e.waiters == [w] && w !in s.submitted && !e.sharders
    requires KeyFor(e.hash, e.round) !in s.table && |s.table| < lim.miners + lim.sharders && HasSlot(s, lim, FromMiners)
    ensures Enabled(s, lim, e)
    ensures var r := RequestOf(s, e);
            Step(s, lim, e) ==
              Launched(Accepted(s, [w]), CurrentFetch(r)).(table := s.table[KeyFor(e.hash, e.round) := r])
  {
    hide Step, SetOf, KeyFor;
    assert Enabled(s, lim, e);
    SubmitShape(s, lim, e);
  }

  /** A first caller asks for a round. */
  function Asked(round: int): Event {
    Submit("", round, false, [0])
  }

  lemma AskedFirst(lim: Limits, round: int)
    requires lim.miners > 0
    ensures Enabled(Start, lim, Asked(round))
    ensures var s := Step(Start, lim, Asked(round));
            && s.table == map[ByRound(round) := Request(0, "", round, false, [0])]
            && s.minerFetches == multiset{Fetch(0, FromMiners, "", round)} && s.minerDrains == 0
            && s.submitted == {0} && s.nextId == 1
            && WaitersOk(s)
  {
    hide Step, Enabled, Ledger;
    NewRequest(Start, lim, Asked(round), 0);
    StartIsFine(lim);
    StepKeepsWaiters(Start, lim, Asked(round));
  }

  /** A waiter by round is lost when a request by hash for the same round is answered. */
  lemma RoundWaiterCanBeLost(hash: string, round: int)
    requires hash != ""
    ensures exists states: seq<State> ::
      IsRun(Limits(2, 1), states, [Asked(round), Submit(hash, round, false, [1]),
                                   Finish(Fetch(1, FromMiners, hash, round), Some((hash, round)), false)]) &&
      0 in states[3].lost
  {
    hide Step, Dropped, Stranded, Ledger, Enabled;
    var lim, byHash := Limits(2, 1), Submit(hash, round, false, [1]);
    AskedFirst(lim, round);
    var s1 := Step(Start, lim, Asked(round));
    NewRequest(s1, lim, byHash, 1);
    var s2 := Step(s1, lim, byHash);
    StepKeepsWaiters(s1, lim, byHash);
    var answer := Finish(Fetch(1, FromMiners, hash, round), Some((hash, round)), false);
    BlockArrives(s2, lim, answer.fetch, hash, round);
    assert Overtaken(s2, answer, 0) by { assert Waits(s2.table, ByRound(round), 0); }
    LostExactly(s2, lim, answer, 0);
    var states := [Start, s1, s2, Step(s2, lim, answer)];
    assert IsRun(lim, states, [Asked(round), byHash, answer]);
    assert 0 in states[3].lost;
  }

  lemma BlockArrives(s: State, lim: Limits, f: Fetch, hash: string, round: int)
    requires Running(s, f) && hash != "" && (f.hash != "" ==> f.hash == hash)
    ensures Enabled(s, lim, Finish(f, Some((hash, round)), false))
  {
  }

  /** An entry is left with no fetch to wait for when a by-round fetch brings another round's block. */
  lemma EntryCanBeOrphaned(hash: string, round: int, other: int)
    requires hash != "" && other != round
    ensures exists states: seq<State> ::
      IsRun(Limits(1, 1), states,
            [Asked(round), Finish(Fetch(0, FromMiners, "", round), Some((hash, other)), false)]) &&
      ByRound(round) in states[2].table && !Backed(states[2])
  {
    hide Step, Ledger, Enabled, Backed;
    var lim := Limits(1, 1);
    AskedFirst(lim, round);
    var s1, f := Step(Start, lim, Asked(round)), Fetch(0, FromMiners, "", round);
    var wrong := Finish(f, Some((hash, other)), false);
    BlockArrives(s1, lim, f, hash, other);
    StartIsFine(lim);
    StepKeepsStarts(Start, lim, Asked(round));
    StepKeepsFetches(Start, lim, Asked(round));
    StartIsBacked();
    BackedExactly(Start, lim, Asked(round));
    BackedExactly(s1, lim, wrong);
    var s2 := Step(s1, lim, wrong);
    assert ByRound(round) in s2.table by { OtherRoundStays(s1, lim, wrong, round); }
    assert IsRun(lim, [Start, s1, s2], [Asked(round), wrong]);
    assert [Start, s1, s2][2] == s2;
  }

  lemma OtherRoundStays(s: State, lim: Limits, e: Event, round: int)
    requires e.Finish? && e.block.Some? && Enabled(s, lim, e) && ByRound(round) in s.table && e.block.value.1 != round
    ensures ByRound(round) in Step(s, lim, e).table
  {
    hide Step, Enabled, Stranded, Delivered;
    FinishShape(s, lim, e);
    DeliveredKeeps(s, e.fetch, e.released);
  }

  lemma StartIsBacked()
    ensures Backed(Start)
  {
  }

  /**
   The error of a sharder fetch, stale or not, can always be handled: if it sends a request to sharders,
   the slot it needs is at the latest the one the delivering goroutine gives back.
   */
  lemma SharderErrorIsAlwaysHandled(s: State, lim: Limits, f: Fetch)
    requires SlotsOk(s, lim) && f.from == FromSharders && Running(s, f)
    ensures Enabled(s, lim, Finish(f, None, true))
  {
    hide Match, Ends;
  }

  /**
   A left-over sharder fetch of an earlier request reports an error that a younger request takes as its
   own: with whatever slots there are, the younger request's one sharder fetch starts.
   */
  lemma StaleErrorReusesItsSlot(s: State, lim: Limits, f: Fetch, k: FetchKey)
    requires SlotsOk(s, lim) && StartsOk(s) && f.from == FromSharders && Running(s, f)
    requires Match(s.table, ReplyOf(f, None)) == Some(k) && !s.table[k].sharders && s.table[k].round <= s.latest
    requires s.table[k].id != f.id
    ensures var e := Finish(f, None, true);
            Enabled(s, lim, e) &&
            Running(Step(s, lim, e), SecondFetch(s.table[k])) && SlotsOk(Step(s, lim, e), lim) &&
            Step(s, lim, e).sharderStarts[s.table[k].id] == 1
  {
    hide Step, Stranded, Match, Delivered, StartsOk, EntryOk, Enabled;
    var e := Finish(f, None, true);
    SharderErrorIsAlwaysHandled(s, lim, f);
    FinishShape(s, lim, e);
    StepKeepsSlots(s, lim, e);
    DeliveredKeeps(s, f, true);
    MatchedIsRemoved(s.table, ReplyOf(f, None));
    NoSharderFetchYet(s, k);
  }

  lemma NoSharderFetchYet(s: State, k: FetchKey)
    requires StartsOk(s) && k in s.table && !s.table[k].sharders
    ensures s.sharderStarts[s.table[k].id] == 0
  {
    assert EntryOk(s, k);
  }
}
