/**
 What the waiters of the block fetcher are told: a block exactly if one was fetched for their entry, an error
 exactly if nobody is left to ask, "queue full" exactly if their request met a full table.
 */
module FetchAnswers {
  import opened Common
  import opened BlockFetcher
  import opened FetchRuns

  /** A result with this hash and round is meant for `k`: the hash comes first, then the round. */
  predicate MeantFor(table: Table, hash: string, round: int, k: FetchKey) {
    k in table &&
    (if hash != "" && ByHash(hash) in table then k == ByHash(hash) else k == ByRound(round))
  }

  /** Nobody is left to ask: sharders were asked, or they cannot have the round yet. */
  predicate NobodyLeft(r: Request, latest: int) {
    r.sharders || (r.round > 0 && r.round > latest)
  }

  /** Waiter `w` is told `a` in this step. */
  ghost predicate TellsNow(s: State, lim: Limits, e: Event, w: nat, a: Answer) {
    match a
    case GotBlock(hash, round) =>
      e.Finish? && e.block == Some((hash, round)) &&
      exists k :: MeantFor(s.table, hash, round, k) && Waits(s.table, k, w)
    case FetchFailed =>
      e.Finish? && e.block.None? &&
      exists k :: MeantFor(s.table, e.fetch.hash, e.fetch.round, k) && Waits(s.table, k, w) &&
                  NobodyLeft(s.table[k], s.latest)
    case QueueFull =>
      e.Submit? && w in e.waiters && KeyFor(e.hash, e.round) !in s.table && |s.table| >= lim.miners + lim.sharders
  }

  ghost predicate IsTold(s: State, w: nat, a: Answer) {
    w in s.told && s.told[w] == a
  }

  /** Exactly the answered waiters have been told something. */
  ghost predicate ToldOk(s: State) {
    forall w :: w in s.told <==> w in s.answered
  }

  lemma MatchIsMeant(table: Table, rpl: Reply, k: FetchKey)
    ensures Match(table, rpl) == Some(k) <==> MeantFor(table, rpl.hash, rpl.round, k)
  {
  }

  lemma TellingTells(s: State, waiters: seq<nat>, answer: Answer, w: nat, a: Answer)
    requires ToldOk(s) && forall x :: x in waiters ==> x !in s.answered
    ensures ToldOk(Told(s, waiters, answer))
    ensures IsTold(Told(s, waiters, answer), w, a) <==> IsTold(s, w, a) || (w in waiters && a == answer)
  {
  }

  lemma SubmitTells(s: State, lim: Limits, e: Event, w: nat, a: Answer)
    requires e.Submit? && WaitersOk(s) && ToldOk(s) && Enabled(s, lim, e)
    ensures ToldOk(Step(s, lim, e)) && (IsTold(Step(s, lim, e), w, a) <==> IsTold(s, w, a) || TellsNow(s, lim, e, w, a))
  {
    hide Step, Told, SetOf, KeyFor, WaitersOk, Enabled, Launched;
    SubmitShape(s, lim, e);
    NewWaiters(s, lim, e);
    LaunchedTellsNobody(Accepted(s, e.waiters), CurrentFetch(RequestOf(s, e)));
    TellingTells(Accepted(s, e.waiters), e.waiters, QueueFull, w, a);
  }

  lemma NewWaiters(s: State, lim: Limits, e: Event)
    requires e.Submit? && WaitersOk(s) && Enabled(s, lim, e)
    ensures forall x :: x in e.waiters ==> x !in s.answered
  {
  }

  /** What the waiters of an entry are told when it ends. */
  lemma EndTells(s: State, rpl: Reply, k: FetchKey, s1: State, w: nat, a: Answer)
    requires WaitersOk(s) && ToldOk(s) && k in s.table && s1.answered == s.answered && s1.told == s.told
    ensures var s2 := Told(s1, s.table[k].waiters, if rpl.hasBlock then GotBlock(rpl.hash, rpl.round) else FetchFailed);
      && ToldOk(s2)
      && (IsTold(s2, w, a) <==>
            IsTold(s, w, a) || (Waits(s.table, k, w) &&
                                a == if rpl.hasBlock then GotBlock(rpl.hash, rpl.round) else FetchFailed))
  {
    hide Told, WaitersOk;
    WaitersUnanswered(s, k);
    TellingTells(s1, s.table[k].waiters, if rpl.hasBlock then GotBlock(rpl.hash, rpl.round) else FetchFailed, w, a);
  }

  /** A result tells something to the waiters of the entry it is meant for, and only if it ends that entry. */
  lemma FinishTellsNow(s: State, lim: Limits, e: Event, w: nat, a: Answer)
    requires e.Finish?
    ensures var rpl := ReplyOf(e.fetch, e.block);
      var m := Match(s.table, rpl);
      TellsNow(s, lim, e, w, a) <==>
        m.Some? && Ends(rpl, s.table[m.value], s.latest) && Waits(s.table, m.value, w) &&
        a == if rpl.hasBlock then GotBlock(rpl.hash, rpl.round) else FetchFailed
  {
    hide Match, MeantFor;
    var rpl := ReplyOf(e.fetch, e.block);
    MatchedIsRemoved(s.table, rpl);
    forall k ensures Match(s.table, rpl) == Some(k) <==> MeantFor(s.table, rpl.hash, rpl.round, k) {
      MatchIsMeant(s.table, rpl, k);
    }
  }

  lemma FinishTells(s: State, lim: Limits, e: Event, w: nat, a: Answer)
    requires e.Finish? && WaitersOk(s) && ToldOk(s) && Enabled(s, lim, e)
    ensures ToldOk(Step(s, lim, e)) && (IsTold(Step(s, lim, e), w, a) <==> IsTold(s, w, a) || TellsNow(s, lim, e, w, a))
  {
    hide Step, Told, Stranded, Match, TellsNow, Delivered, Removed, Ends, ReplyOf, WaitersOk, Enabled, Launched;
    FinishShape(s, lim, e);
    DeliveredKeeps(s, e.fetch, e.released);
    FinishTellsNow(s, lim, e, w, a);
    var rpl := ReplyOf(e.fetch, e.block);
    var m := Match(s.table, rpl);
    MatchedIsRemoved(s.table, rpl);
    if m.Some? {
      EndTells(s, rpl, m.value, Delivered(s, e.fetch, e.released), w, a);
      LaunchedTellsNobody(Delivered(s, e.fetch, e.released), SecondFetch(s.table[m.value]));
    }
  }

  lemma WaitersUnanswered(s: State, k: FetchKey)
    requires WaitersOk(s) && k in s.table
    ensures forall x :: x in s.table[k].waiters ==> x !in s.answered
  {
    forall x | x in s.table[k].waiters ensures x !in s.answered {
      assert Waits(s.table, k, x);
    }
  }

  lemma LaunchedTellsNobody(s: State, f: Fetch)
    ensures Launched(s, f).told == s.told && Launched(s, f).answered == s.answered
  {
  }

  /** A step tells a waiter exactly what it should, and takes no answer back. */
  lemma ToldExactly(s: State, lim: Limits, e: Event, w: nat, a: Answer)
    requires WaitersOk(s) && ToldOk(s) && Enabled(s, lim, e)
    ensures ToldOk(Step(s, lim, e))
    ensures IsTold(Step(s, lim, e), w, a) <==> IsTold(s, w, a) || TellsNow(s, lim, e, w, a)
  {
    hide Step, Handled, WaitersOk;
    match e {
      case Submit(_, _, _, _) => SubmitTells(s, lim, e, w, a);
      case Finish(_, _, _) => FinishTells(s, lim, e, w, a);
      case Drain(_) => OtherShape(s, lim, e);
      case Ticket(_) => OtherShape(s, lim, e);
    }
  }

  /** An entry goes to sharders exactly if an error is meant for it and somebody is left to ask; then they are asked. */
  lemma GoesToShardersExactly(s: State, lim: Limits, e: Event, k: FetchKey)
    requires WaitersOk(s) && Enabled(s, lim, e) && k in s.table && !s.table[k].sharders
    ensures var s' := Step(s, lim, e);
      && (k in s'.table && s'.table[k].sharders <==>
            e.Finish? && e.block.None? && MeantFor(s.table, e.fetch.hash, e.fetch.round, k) &&
            !NobodyLeft(s.table[k], s.latest))
      && (k in s'.table && s'.table[k].sharders ==>
            Running(s', SecondFetch(s.table[k])) &&
            s'.sharderStarts == s.sharderStarts + multiset{s.table[k].id})
  {
    hide Step, Stranded, Removed, SetOf, KeyFor, Delivered, WaitersOk, MeantFor, Match;
    if e.Submit? {
      SubmitShape(s, lim, e);
    } else if e.Finish? {
      FinishShape(s, lim, e);
      DeliveredKeeps(s, e.fetch, e.released);
      MatchedIsRemoved(s.table, ReplyOf(e.fetch, e.block));
      MatchIsMeant(s.table, ReplyOf(e.fetch, e.block), k);
    } else {
      OtherShape(s, lim, e);
    }
  }

  // ---------------------------------------------------------------- whole runs

  /** In every run a waiter has been told an answer exactly if some step told it. */
  lemma {:induction false} ToldInRun(lim: Limits, states: seq<State>, events: seq<Event>, n: nat, w: nat, a: Answer)
    requires IsRun(lim, states, events) && n < |states|
    ensures ToldOk(states[n])
    ensures IsTold(states[n], w, a) <==> exists i :: 0 <= i < n && TellsNow(states[i], lim, events[i], w, a)
  {
    hide WaitersOk, SlotsOk, StartsOk, FetchesOk, Step, Enabled, TellsNow;
    if n > 0 {
      ToldInRun(lim, states, events, n - 1, w, a);
      RunInvariant(lim, states, events, n - 1);
      assert IsStep(states[n - 1], lim, events[n - 1], states[n]);
      ToldExactly(states[n - 1], lim, events[n - 1], w, a);
    }
  }

  /** The event brings `w` as a waiter for `k`. */
  predicate AsksFor(e: Event, k: FetchKey, w: nat) {
    e.Submit? && w in e.waiters && k == KeyFor(e.hash, e.round)
  }

  lemma WaitsSince(s: State, lim: Limits, e: Event, k: FetchKey, w: nat)
    requires Enabled(s, lim, e) && Waits(Step(s, lim, e).table, k, w)
    ensures Waits(s.table, k, w) || AsksFor(e, k, w)
  {
    hide Step, Stranded, Removed, SetOf, KeyFor, Delivered, Match;
    if e.Submit? {
      SubmitShape(s, lim, e);
    } else if e.Finish? {
      FinishShape(s, lim, e);
      DeliveredKeeps(s, e.fetch, e.released);
      MatchedIsRemoved(s.table, ReplyOf(e.fetch, e.block));
    } else {
      OtherShape(s, lim, e);
    }
  }

  lemma {:induction false} WaitsForWhatItAsked(lim: Limits, states: seq<State>, events: seq<Event>, n: nat, k: FetchKey,
                                               w: nat)
    requires IsRun(lim, states, events) && n < |states| && Waits(states[n].table, k, w)
    ensures exists i :: 0 <= i < n && AsksFor(events[i], k, w)
  {
    hide Step, Enabled, AsksFor;
    if n > 0 {
      assert IsStep(states[n - 1], lim, events[n - 1], states[n]);
      WaitsSince(states[n - 1], lim, events[n - 1], k, w);
      if Waits(states[n - 1].table, k, w) {
        WaitsForWhatItAsked(lim, states, events, n - 1, k, w);
      }
    }
  }

  /** In every run a waiter that is told a block asked for its hash, or by round for its round. */
  lemma AnsweredWhatItAsked(lim: Limits, states: seq<State>, events: seq<Event>, n: nat, w: nat, hash: string,
                            round: int)
    requires IsRun(lim, states, events) && n < |states| && IsTold(states[n], w, GotBlock(hash, round))
    ensures exists i :: 0 <= i < n && (AsksFor(events[i], ByHash(hash), w) || AsksFor(events[i], ByRound(round), w))
  {
    hide Step, Enabled, AsksFor, IsStep;
    ToldInRun(lim, states, events, n, w, GotBlock(hash, round));
    var i :| 0 <= i < n && TellsNow(states[i], lim, events[i], w, GotBlock(hash, round));
    var k :| MeantFor(states[i].table, hash, round, k) && Waits(states[i].table, k, w);
    WaitsForWhatItAsked(lim, states, events, i, k, w);
  }
}
