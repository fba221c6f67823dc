/**
 A block's list of verification tickets: adding one, merging a received list, and computing which of a
 received list are new. A received list may hold nil (`None`) and repeated verifiers. The block's own
 list is read without a nil check, so it must hold none.
 */
module VerificationTickets {
  import opened Common

  datatype Ticket = Ticket(verifier: string, signature: string)

  type Tickets = seq<Option<Ticket>>

  predicate NoNil(ts: Tickets) {
    forall i :: 0 <= i < |ts| ==> ts[i].Some?
  }

  function Verifiers(ts: Tickets): set<string> {
    set t | t in ts && t.Some? :: t.value.verifier
  }

  /** No nil, and each verifier once. */
  predicate Good(ts: Tickets) {
    && NoNil(ts)
    && forall i, j :: 0 <= i < j < |ts| ==> ts[i].value.verifier != ts[j].value.verifier
  }

  // ---------------------------------------------------------------- specification

  function Added(have: Tickets, t: Ticket): Tickets {
    if t.verifier in Verifiers(have) then have else have + [Some(t)]
  }

  /** The received tickets of verifiers not in `known`, first come first; stops at nil. */
  function Fresh(known: set<string>, ts: Tickets): (r: Option<Tickets>)
    decreases ts
  {
    if ts == [] then Some([])
    else if ts[0].None? then None
    else if ts[0].value.verifier in known then Fresh(known, ts[1..])
    else match Fresh(known + {ts[0].value.verifier}, ts[1..])
      case None => None
      case Some(rest) => Some([ts[0]] + rest)
  }

  /** An empty list takes what it gets as it is; otherwise the fresh ones are appended, or nothing if there is a nil. */
  function Merged(have: Tickets, received: Tickets): Tickets {
    if have == [] then received
    else match Fresh(Verifiers(have), received)
      case None => have
      case Some(news) => have + news
  }

  function Unknown(have: Tickets, received: Tickets): Tickets {
    match Fresh(Verifiers(have), received)
    case None => []
    case Some(news) => news
  }

  // ---------------------------------------------------------------- the block's methods

  lemma VerifiersGrow(ts: Tickets, t: Ticket)
    ensures Verifiers(ts + [Some(t)]) == Verifiers(ts) + {t.verifier}
  {
  }

  /** Fresh tickets one by one: what the loops of merging and of computing the unknown tickets share. */
  function Continued(done: Tickets, r: Option<Tickets>): Option<Tickets> {
    match r
    case None => None
    case Some(rest) => Some(done + rest)
  }

  lemma ContinuedOne(done: Tickets, t: Option<Ticket>, r: Option<Tickets>)
    ensures Continued(done + [t], r) == Continued(done, Continued([t], r))
  {
    if r.Some? { assert done + [t] + r.value == done + ([t] + r.value); }
  }

  class TicketedBlock {
    var tickets: Tickets

    constructor ()
      ensures tickets == []
    {
      tickets := [];
    }

    method AddVerificationTicket(t: Ticket) returns (added: bool)
      requires NoNil(tickets)
      modifies this
      ensures tickets == Added(old(tickets), t) && (added <==> t.verifier !in Verifiers(old(tickets)))
    {
      for i := 0 to |tickets|
        invariant tickets == old(tickets)
        invariant forall j :: 0 <= j < i ==> tickets[j].value.verifier != t.verifier
      {
        if tickets[i].value.verifier == t.verifier {
          assert tickets[i] in tickets;
          return false;
        }
      }
      tickets := tickets + [Some(t)];
      return true;
    }

    method MergeVerificationTickets(received: Tickets)
      requires NoNil(tickets)
      modifies this
      ensures tickets == Merged(old(tickets), received)
    {
      if |tickets| == 0 {
        tickets := received;
        return;
      }
      if |received| == 0 {
        assert tickets + [] == tickets;
        return;
      }
      var known := KnownVerifiers(tickets);
      var union := tickets;
      var news := ScanTickets(known, received);
      if news.None? {
        return;
      }
      union := union + news.value;
      if |union| == |tickets| {
        assert union == tickets;
        return;
      }
      tickets := union;
    }

    method UnknownTickets(received: Tickets) returns (unknown: Tickets)
      requires NoNil(tickets)
      ensures unknown == Unknown(tickets, received)
    {
      var known := KnownVerifiers(tickets);
      var news := ScanTickets(known, received);
      if news.None? {
        return [];
      }
      return news.value;
    }
  }

  method KnownVerifiers(ts: Tickets) returns (known: set<string>)
    requires NoNil(ts)
    ensures known == Verifiers(ts)
  {
    known := {};
    for i := 0 to |ts|
      invariant known == Verifiers(ts[..i])
    {
      assert ts[..i + 1] == ts[..i] + [Some(ts[i].value)];
      VerifiersGrow(ts[..i], ts[i].value);
      known := known + {ts[i].value.verifier};
    }
    assert ts[..|ts|] == ts;
  }

  /** The loop over the received tickets; `None` when it meets a nil. */
  method ScanTickets(known0: set<string>, received: Tickets) returns (news: Option<Tickets>)
    ensures news == Fresh(known0, received)
  {
    var known, done: Tickets := known0, [];
    assert Continued([], Fresh(known0, received)) == Fresh(known0, received) by {
      if Fresh(known0, received).Some? { assert [] + Fresh(known0, received).value == Fresh(known0, received).value; }
    }
    for i := 0 to |received|
      invariant Continued(done, Fresh(known, received[i..])) == Fresh(known0, received)
    {
      assert received[i..][0] == received[i] && received[i..][1..] == received[i + 1..];
      if received[i].None? {
        return None;
      }
      var v := received[i].value.verifier;
      if v !in known {
        ContinuedOne(done, received[i], Fresh(known + {v}, received[i + 1..]));
        done := done + [received[i]];
        known := known + {v};
      }
    }
    assert done + [] == done;
    return Some(done);
  }

  // ---------------------------------------------------------------- what the operations keep

  lemma {:induction false} FreshIsGood(known: set<string>, ts: Tickets)
    requires Fresh(known, ts).Some?
    ensures Good(Fresh(known, ts).value)
    ensures forall t :: t in Fresh(known, ts).value ==> t.Some? && t.value.verifier !in known
    decreases ts
  {
    if ts != [] {
      if ts[0].value.verifier in known {
        FreshIsGood(known, ts[1..]);
      } else {
        FreshIsGood(known + {ts[0].value.verifier}, ts[1..]);
        var rest := Fresh(known + {ts[0].value.verifier}, ts[1..]).value;
        forall i | 0 <= i < |rest| ensures rest[i].Some? && rest[i].value.verifier != ts[0].value.verifier {
          assert rest[i] in rest;
        }
      }
    }
  }

  lemma GoodConcat(have: Tickets, news: Tickets)
    requires Good(have) && Good(news)
    requires forall t :: t in news ==> t.Some? && t.value.verifier !in Verifiers(have)
    ensures Good(have + news)
  {
    forall i, j | 0 <= i < |have| && 0 <= j < |news| ensures have[i].value.verifier != news[j].value.verifier {
      assert news[j] in news && have[i] in have;
      assert have[i].value.verifier in Verifiers(have);
    }
  }

  lemma AddedKeepsGood(have: Tickets, t: Ticket)
    requires Good(have)
    ensures Good(Added(have, t)) && have <= Added(have, t)
    ensures Verifiers(Added(have, t)) == Verifiers(have) + {t.verifier}
  {
    if t.verifier !in Verifiers(have) {
      GoodConcat(have, [Some(t)]);
      VerifiersGrow(have, t);
    }
  }

  /** Merging keeps a good list good exactly when it was not empty or the received one is good, and always as prefix. */
  lemma MergeKeepsGoodExactly(have: Tickets, received: Tickets)
    requires Good(have)
    ensures have <= Merged(have, received)
    ensures Good(Merged(have, received)) <==> have != [] || Good(received)
  {
    hide Fresh, Verifiers;
    if have != [] && Fresh(Verifiers(have), received).Some? {
      FreshIsGood(Verifiers(have), received);
      GoodConcat(have, Fresh(Verifiers(have), received).value);
    }
  }

  /** A repeated verifier gets into an empty list. */
  lemma EmptyTakesRepetition(t: Ticket, u: Ticket)
    requires t.verifier == u.verifier
    ensures !Good(Merged([], [Some(t), Some(u)]))
  {
    var ts := [Some(t), Some(u)];
    assert ts[0].value.verifier == ts[1].value.verifier;
  }

  lemma {:induction false} FreshFindsNil(known: set<string>, ts: Tickets)
    ensures Fresh(known, ts).None? <==> !NoNil(ts)
    decreases ts
  {
    if ts != [] && ts[0].Some? {
      assert NoNil(ts) <==> NoNil(ts[1..]) by { forall i | 0 <= i < |ts| - 1 ensures ts[1..][i] == ts[i + 1] {} }
      FreshFindsNil(known, ts[1..]);
      FreshFindsNil(known + {ts[0].value.verifier}, ts[1..]);
    }
  }

  /** The ticket at `i` is of a verifier that is not known and has none before it. */
  predicate FirstOfNew(known: set<string>, ts: Tickets, i: nat)
    requires NoNil(ts)
  {
    i < |ts| && ts[i].value.verifier !in known &&
    forall j :: 0 <= j < i ==> ts[j].value.verifier != ts[i].value.verifier
  }

  /** The fresh tickets are exactly the first ones of verifiers that are not known. */
  lemma {:induction false} FreshExactly(known: set<string>, ts: Tickets, t: Option<Ticket>)
    requires NoNil(ts)
    ensures Fresh(known, ts).Some?
    ensures t in Fresh(known, ts).value <==> exists i: nat :: FirstOfNew(known, ts, i) && ts[i] == t
    decreases ts
  {
    FreshFindsNil(known, ts);
    if ts != [] {
      var v, tail := ts[0].value.verifier, ts[1..];
      var known' := if v in known then known else known + {v};
      assert NoNil(tail);
      FreshExactly(known', tail, t);
      assert FirstOfNew(known, ts, 0) <==> v !in known;
      forall i: nat | 0 < i < |ts| ensures FirstOfNew(known, ts, i) <==> FirstOfNew(known', tail, i - 1) {
        FirstOfTail(known, ts, i);
      }
      if i: nat :| FirstOfNew(known', tail, i) && tail[i] == t {
        assert FirstOfNew(known, ts, i + 1) && ts[i + 1] == t;
      }
    }
  }

  lemma FirstOfTail(known: set<string>, ts: Tickets, i: nat)
    requires NoNil(ts) && 0 < i < |ts| && NoNil(ts[1..])
    ensures var v := ts[0].value.verifier;
            FirstOfNew(known, ts, i) <==> FirstOfNew(if v in known then known else known + {v}, ts[1..], i - 1)
  {
    var tail := ts[1..];
    assert tail[i - 1] == ts[i];
    if FirstOfNew(known, ts, i) {
      forall j | 0 <= j < i - 1 ensures tail[j].value.verifier != tail[i - 1].value.verifier {
        assert tail[j] == ts[j + 1];
      }
    }
    if FirstOfNew(if ts[0].value.verifier in known then known else known + {ts[0].value.verifier}, tail, i - 1) {
      forall j | 0 <= j < i ensures ts[j].value.verifier != ts[i].value.verifier {
        if j > 0 { assert ts[j] == tail[j - 1]; }
      }
    }
  }

  /** They come in the order in which they were received: more tickets only add at the end. */
  lemma {:induction false} FreshInOrder(known: set<string>, ts: Tickets, more: Tickets)
    requires NoNil(ts) && NoNil(more)
    ensures Fresh(known, ts).Some? && Fresh(known, ts + more).Some?
    ensures Fresh(known, ts).value <= Fresh(known, ts + more).value
    decreases ts
  {
    FreshFindsNil(known, ts);
    FreshFindsNil(known, ts + more);
    if ts != [] {
      var v := ts[0].value.verifier;
      assert (ts + more)[1..] == ts[1..] + more;
      assert NoNil(ts[1..]);
      FreshInOrder(if v in known then known else known + {v}, ts[1..], more);
    }
  }

  /** After merging a list without nil, every verifier of it has a ticket, and no other is new. */
  lemma MergeBringsAll(have: Tickets, received: Tickets, v: string)
    requires NoNil(received)
    ensures v in Verifiers(Merged(have, received)) <==> v in Verifiers(have) || v in Verifiers(received)
  {
    if have != [] {
      var known := Verifiers(have);
      FreshFindsNil(known, received);
      var news := Fresh(known, received).value;
      InVerifiers(have + news, v);
      InVerifiers(have, v);
      InVerifiers(received, v);
      forall t ensures t in news <==> exists i: nat :: FirstOfNew(known, received, i) && received[i] == t {
        FreshExactly(known, received, t);
      }
      if v in Verifiers(received) && v !in known {
        var i := FirstOf(received, v);
        assert received[i] in news;
        assert received[i] in have + news;
      }
      assert v in known ==> exists t :: t in have && t.Some? && t.value.verifier == v && t in have + news;
    }
  }

  lemma InVerifiers(ts: Tickets, v: string)
    ensures v in Verifiers(ts) <==> exists t :: t in ts && t.Some? && t.value.verifier == v
  {
  }

  lemma {:induction false} FirstOf(ts: Tickets, v: string) returns (i: nat)
    requires NoNil(ts) && v in Verifiers(ts)
    ensures i < |ts| && ts[i].value.verifier == v && forall j :: 0 <= j < i ==> ts[j].value.verifier != v
  {
    var t :| t in ts && t.Some? && t.value.verifier == v;
    i := 0;
    while i < |ts| && ts[i].value.verifier != v
      invariant i <= |ts| && forall j :: 0 <= j < i ==> ts[j].value.verifier != v
    {
      i := i + 1;
    }
  }

  /** Tickets that are already fresh stay as they are. */
  lemma {:induction false} FreshOfFresh(known: set<string>, ts: Tickets)
    requires Good(ts) && forall t :: t in ts ==> t.Some? && t.value.verifier !in known
    ensures Fresh(known, ts) == Some(ts)
    decreases ts
  {
    if ts != [] {
      var v, tail := ts[0].value.verifier, ts[1..];
      forall i, j | 0 <= i < j < |tail| ensures tail[i].value.verifier != tail[j].value.verifier {
        assert tail[i] == ts[i + 1] && tail[j] == ts[j + 1];
      }
      forall t | t in tail ensures t.Some? && t.value.verifier !in known + {v} {
        var i :| 0 <= i < |tail| && tail[i] == t;
        assert ts[i + 1] == t && ts[0].value.verifier != ts[i + 1].value.verifier;
      }
      FreshOfFresh(known + {v}, tail);
      assert ts == [ts[0]] + tail;
    }
  }

  /** Merging only the unknown tickets is merging all exactly when the list is not empty or the received one is good. */
  lemma MergeUnknownExactly(have: Tickets, received: Tickets)
    requires Good(have)
    ensures Merged(have, Unknown(have, received)) == Merged(have, received) <==> have != [] || Good(received)
  {
    hide Fresh, Verifiers, Good;
    var known := Verifiers(have);
    FreshFindsNil(known, received);
    if Fresh(known, received).Some? {
      FreshIsGood(known, received);
      FreshOfFresh(known, Fresh(known, received).value);
      if have == [] && Good(received) {
        NoVerifiers();
        AllSome(received);
        FreshOfFresh({}, received);
      }
    } else {
      FreshOfNothing(known);
      assert have + [] == have;
      NotGood(received);
    }
  }

  lemma NoVerifiers()
    ensures Verifiers([]) == {}
  {
  }

  lemma AllSome(ts: Tickets)
    requires Good(ts)
    ensures forall t :: t in ts ==> t.Some?
  {
  }

  lemma FreshOfNothing(known: set<string>)
    ensures Fresh(known, []) == Some([])
  {
  }

  lemma NotGood(ts: Tickets)
    requires !NoNil(ts)
    ensures !Good(ts) && ts != []
  {
  }

  // ---------------------------------------------------------------- any interleaving

  datatype Event = Add(ticket: Ticket) | Merge(received: Tickets)

  function Step(have: Tickets, e: Event): Tickets {
    match e
    case Add(t) => Added(have, t)
    case Merge(received) => Merged(have, received)
  }

  ghost predicate IsRun(lists: seq<Tickets>, events: seq<Event>) {
    && |lists| == |events| + 1
    && lists[0] == []
    && forall i :: 0 <= i < |events| ==> lists[i + 1] == Step(lists[i], events[i])
  }

  /** What a block without tickets is given is good. */
  ghost predicate GoodStarts(lists: seq<Tickets>, events: seq<Event>)
    requires |lists| == |events| + 1
  {
    forall i :: 0 <= i < |events| && lists[i] == [] && events[i].Merge? ==> Good(events[i].received)
  }

  /** In any interleaving of adding and merging, verifiers stay distinct and every earlier list stays a prefix. */
  lemma {:induction false} TicketsOnlyGrow(lists: seq<Tickets>, events: seq<Event>, i: nat, j: nat)
    requires IsRun(lists, events) && GoodStarts(lists, events) && i <= j < |lists|
    ensures Good(lists[j]) && lists[i] <= lists[j]
    decreases j
  {
    hide Good, Step;
    if j == 0 {
      NothingIsGood();
    } else {
      TicketsOnlyGrow(lists, events, if i < j then i else 0, j - 1);
      StepKeepsGood(lists[j - 1], events[j - 1]);
      if i == j { assert lists[i] <= lists[j]; }
    }
  }

  lemma NothingIsGood()
    ensures Good([])
  {
  }

  lemma StepKeepsGood(have: Tickets, e: Event)
    requires Good(have) && (have == [] && e.Merge? ==> Good(e.received))
    ensures Good(Step(have, e)) && have <= Step(have, e)
  {
    hide Good;
    match e {
      case Add(t) => AddedKeepsGood(have, t);
      case Merge(received) => MergeKeepsGoodExactly(have, received);
    }
  }

  // ---------------------------------------------------------------- quorums

  /** The threshold: the given percentage of the miners, rounded up. */
  function ThresholdCount(miners: nat, percent: nat): (t: nat)
    ensures 100 * t >= miners * percent
    ensures t > 0 ==> 100 * (t - 1) < miners * percent
  {
    (miners * percent + 99) / 100
  }

  lemma {:induction false} VerifierCount(ts: Tickets)
    requires Good(ts)
    ensures |Verifiers(ts)| == |ts|
  {
    hide NoNil;
    if ts == [] {
      NoVerifiers();
    } else {
      var front, last := ts[..|ts| - 1], ts[|ts| - 1];
      SomeAt(ts);
      assert ts == front + [Some(last.value)];
      FrontGood(ts);
      VerifierCount(front);
      VerifiersGrow(front, last.value);
      assert last.value.verifier !in Verifiers(front) by { LastIsNew(ts); }
    }
  }

  lemma SomeAt(ts: Tickets)
    requires NoNil(ts)
    ensures forall i :: 0 <= i < |ts| ==> ts[i].Some?
  {
  }

  lemma FrontGood(ts: Tickets)
    requires Good(ts) && ts != []
    ensures Good(ts[..|ts| - 1])
  {
  }

  lemma LastIsNew(ts: Tickets)
    requires Good(ts) && ts != []
    ensures ts[|ts| - 1].value.verifier !in Verifiers(ts[..|ts| - 1])
  {
    forall t | t in ts[..|ts| - 1] ensures t.Some? && t.value.verifier != ts[|ts| - 1].value.verifier {
      var i :| 0 <= i < |ts| - 1 && ts[..|ts| - 1][i] == t;
      assert ts[i] == t;
    }
  }

  lemma Overlap(a: set<string>, b: set<string>, all: set<string>)
    requires a <= all && b <= all
    ensures |a * b| >= |a| + |b| - |all|
  {
    assert |a + b| == |a| + |b| - |a * b|;
    assert |all| == |(a + b) + (all - (a + b))|;
    assert (a + b) + (all - (a + b)) == all;
  }

  /** Two lists that reach the threshold over the same miners share at least twice the threshold minus the miners. */
  lemma QuorumsOverlap(one: Tickets, two: Tickets, miners: set<string>, percent: nat)
    requires Good(one) && Good(two) && Verifiers(one) <= miners && Verifiers(two) <= miners
    requires |one| >= ThresholdCount(|miners|, percent) && |two| >= ThresholdCount(|miners|, percent)
    ensures |Verifiers(one) * Verifiers(two)| >= 2 * ThresholdCount(|miners|, percent) - |miners|
    ensures miners != {} && percent > 50 ==> Verifiers(one) * Verifiers(two) != {}
  {
    hide Good, Verifiers, ThresholdCount;
    VerifierCount(one);
    VerifierCount(two);
    Overlap(Verifiers(one), Verifiers(two), miners);
    if miners != {} && percent > 50 {
      MajorityOverlaps(|miners|, percent);
    }
  }

  lemma MajorityOverlaps(n: nat, percent: nat)
    requires n > 0 && percent > 50
    ensures 2 * ThresholdCount(n, percent) > n
  {
    assert n * percent >= n * 51;
  }
}
