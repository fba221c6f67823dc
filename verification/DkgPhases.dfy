/**
 The loop that takes a miner through distributed key generation: phase events arrive, an event of the
 expected phase runs the phase's function, and the phase is accepted when the function and its
 transaction succeed. `DkgProcess` is the loop's state and body; `Step` is one turn of the loop.
 Network answers are part of the event.
 */
module DkgPhases {
  import opened Common

  const UNKNOWN := -1
  const START := 0
  const CONTRIBUTE := 1
  const SHARE := 2
  const PUBLISH := 3
  const WAIT := 4

  datatype PhaseNode = PhaseNode(phase: int, startRound: int)

  /** The data of the view change: whether the key generation is set up, and who acknowledged a share. */
  datatype ViewChange = ViewChange(dkgSet: bool, shared: set<string>)

  const CLEAR := ViewChange(false, {})

  /** What a phase function returns: an optional transaction to confirm, or an error. */
  datatype PhaseResult = Done(txn: bool) | Failed

  /** What the network and the stores answer during one turn. */
  datatype Answers = Answers(
    magicBlock: bool,
    miners: Option<set<string>>,
    size: nat,
    k: nat,
    sijs: bool,
    acks: set<string>,
    mpks: Option<set<string>>,
    known: set<string>,
    newMagicBlock: Option<set<string>>,
    aggregated: bool,
    stored: bool,
    sent: bool,
    confirmed: bool)

  // ---------------------------------------------------------------- the phase functions

  function AfterStart(vc: ViewChange): (ViewChange, PhaseResult) {
    (CLEAR, Done(false))
  }

  function AfterContribute(vc: ViewChange, a: Answers): (ViewChange, PhaseResult) {
    if a.miners.None? then (vc, Failed)
    else if !vc.dkgSet && a.size == 0 then (vc, Failed)
    else (vc.(dkgSet := true), if a.sent then Done(true) else Failed)
  }

  /** The miners a share goes to: all but this one and those that acknowledged theirs. */
  function SendTo(vc: ViewChange, self: string, miners: set<string>): set<string> {
    miners - {self} - vc.shared
  }

  function AfterShare(vc: ViewChange, self: string, a: Answers): (ViewChange, PhaseResult) {
    if !vc.dkgSet || a.miners.None? then (vc, Failed)
    else if self !in a.miners.value then (vc, Done(false))
    else if !a.sijs then (vc, Failed)
    else
      var to := SendTo(vc, self, a.miners.value);
      var acked := to * a.acks;
      (vc.(shared := vc.shared + acked),
       if |to - acked| > 0 && |to| > a.k && |acked| < a.k then Failed else Done(false))
  }

  function AfterPublish(vc: ViewChange, self: string, a: Answers): (ViewChange, PhaseResult) {
    if !vc.dkgSet || a.mpks.None? then (vc, Failed)
    else if self !in a.mpks.value then (vc, Done(false))
    else
      var vc' := vc.(shared := vc.shared + (a.mpks.value - {self}) * a.known);
      if a.miners.None? || a.miners.value == {} then (vc', Failed)
      else (vc', if a.sent then Done(true) else Failed)
  }

  function AfterWait(vc: ViewChange, self: string, a: Answers): (ViewChange, PhaseResult) {
    if !vc.dkgSet || a.newMagicBlock.None? then (vc, Failed)
    else if self !in a.newMagicBlock.value then (CLEAR, Done(false))
    else if !a.aggregated || !a.stored then (vc, Failed)
    else (CLEAR, if a.sent then Done(true) else Failed)
  }

  function RunPhase(vc: ViewChange, self: string, phase: int, a: Answers): (ViewChange, PhaseResult)
    requires START <= phase <= WAIT
  {
    if phase == START then AfterStart(vc)
    else if phase == CONTRIBUTE then AfterContribute(vc, a)
    else if phase == SHARE then AfterShare(vc, self, a)
    else if phase == PUBLISH then AfterPublish(vc, self, a)
    else AfterWait(vc, self, a)
  }

  // ---------------------------------------------------------------- one turn of the loop

  /**
   `last` is the event handled last: the start-up timer makes the loop handle it again. `trail` records
   the phases accepted since the last skip, from the last Start on.
   */
  datatype State = State(
    current: int, phaseStart: int, retryShare: bool, vc: ViewChange, last: PhaseNode, running: bool, trail: seq<int>)

  const INITIAL := State(UNKNOWN, 0, false, CLEAR, PhaseNode(START, 0), true, [])

  datatype Event = Phase(node: PhaseNode, answers: Answers) | StartUpTimer(answers: Answers)

  function Accepted(s: State, pn: PhaseNode): State {
    s.(current := pn.phase, phaseStart := pn.startRound,
       trail := if pn.phase == START then [START] else s.trail + [pn.phase])
  }

  function Turn(s: State, self: string, pn: PhaseNode, a: Answers): State {
    var retry := pn.phase == SHARE && s.retryShare;
    var s1 := s.(last := pn, retryShare := retry);
    if pn.startRound == s.phaseStart && !retry then s1
    else if !(pn.phase == START || pn.phase == s.current + 1 || retry) then s1.(current := UNKNOWN, trail := [])
    else if !(START <= pn.phase <= WAIT) then s1
    else if !a.magicBlock then s1.(running := false)
    else
      var (vc, r) := RunPhase(s.vc, self, pn.phase, a);
      var s2 := s1.(vc := vc);
      if r.Failed? then if pn.phase == SHARE then Accepted(s2.(retryShare := true), pn) else s2
      else if !r.txn || a.confirmed then Accepted(s2, pn)
      else s2
  }

  function Step(s: State, self: string, e: Event): State {
    if !s.running then s
    else match e
      case Phase(pn, a) => Turn(s, self, pn, a)
      case StartUpTimer(a) => Turn(s, self, s.last, a)
  }

  /** The loop's variables and its body. */
  class DkgProcess {
    const self: string
    var current: int
    var phaseStart: int
    var retryShare: bool
    var vc: ViewChange
    var last: PhaseNode
    var running: bool
    ghost var trail: seq<int>

    constructor (self: string)
      ensures this.self == self && Mine() == INITIAL
    {
      this.self := self;
      current, phaseStart, retryShare, vc, last, running := UNKNOWN, 0, false, CLEAR, PhaseNode(START, 0), true;
      trail := [];
    }

    ghost function Mine(): State
      reads this
    {
      State(current, phaseStart, retryShare, vc, last, running, trail)
    }

    method DKGProcessStart() returns (r: PhaseResult)
      modifies this`vc
      ensures (vc, r) == AfterStart(old(vc))
    {
      vc := CLEAR;
      return Done(false);
    }

    method ContributeMpk(a: Answers) returns (r: PhaseResult)
      modifies this`vc
      ensures (vc, r) == AfterContribute(old(vc), a)
    {
      if a.miners.None? {
        return Failed;
      }
      if !vc.dkgSet {
        if a.size == 0 {
          return Failed;
        }
        vc := vc.(dkgSet := true);
      }
      return if a.sent then Done(true) else Failed;
    }

    method SendSijs(a: Answers) returns (r: PhaseResult)
      modifies this`vc
      ensures (vc, r) == AfterShare(old(vc), self, a)
    {
      if !vc.dkgSet || a.miners.None? {
        return Failed;
      }
      var miners := a.miners.value;
      if self !in miners {
        return Done(false);
      }
      if !a.sijs {
        return Failed;
      }
      var sendTo := SendSijsPrepare(vc, self, miners);
      var acked, sendFail := SendShares(sendTo, a.acks);
      vc := vc.(shared := vc.shared + acked);
      if |sendFail| > 0 && |sendTo| > a.k && |sendTo| - |sendFail| < a.k {
        return Failed;
      }
      return Done(false);
    }

    method PublishShareOrSigns(a: Answers) returns (r: PhaseResult)
      modifies this`vc
      ensures (vc, r) == AfterPublish(old(vc), self, a)
    {
      if !vc.dkgSet || a.mpks.None? {
        return Failed;
      }
      var mpks := a.mpks.value;
      if self !in mpks {
        return Done(false);
      }
      var left := mpks;
      while left != {}
        invariant left <= mpks && vc.dkgSet
        invariant vc.shared == old(vc.shared) + (mpks - left - {self}) * a.known
        decreases left
      {
        var k :| k in left;
        left := left - {k};
        if k == self {
          continue;
        }
        if k !in vc.shared {
          if k in a.known {
            vc := vc.(shared := vc.shared + {k});
          }
        }
      }
      assert mpks - left - {self} == mpks - {self};
      if a.miners.None? || a.miners.value == {} {
        return Failed;
      }
      return if a.sent then Done(true) else Failed;
    }

    method Wait(a: Answers) returns (r: PhaseResult)
      modifies this`vc
      ensures (vc, r) == AfterWait(old(vc), self, a)
    {
      if !vc.dkgSet || a.newMagicBlock.None? {
        return Failed;
      }
      if self !in a.newMagicBlock.value {
        vc := CLEAR;
        return Done(false);
      }
      if !a.aggregated || !a.stored {
        return Failed;
      }
      vc := CLEAR;
      return if a.sent then Done(true) else Failed;
    }

    method RunPhaseFunc(phase: int, a: Answers) returns (r: PhaseResult)
      requires START <= phase <= WAIT
      modifies this`vc
      ensures (vc, r) == RunPhase(old(vc), self, phase, a)
    {
      hide AfterContribute, AfterShare, AfterPublish, AfterWait;
      if phase == START {
        r := DKGProcessStart();
      } else if phase == CONTRIBUTE {
        r := ContributeMpk(a);
      } else if phase == SHARE {
        r := SendSijs(a);
      } else if phase == PUBLISH {
        r := PublishShareOrSigns(a);
      } else {
        r := Wait(a);
      }
    }

    /** One turn of the loop. */
    method Handle(e: Event)
      requires running
      modifies this
      ensures Mine() == Step(old(Mine()), self, e)
    {
      hide RunPhase;
      var a := e.answers;
      if e.Phase? {
        last := e.node;
      }
      var pn := last;
      retryShare := pn.phase == SHARE && retryShare;
      if pn.startRound == phaseStart {
        if !retryShare {
          return;
        }
      }
      if !(pn.phase == START || pn.phase == current + 1 || retryShare) {
        current := UNKNOWN;
        trail := [];
        return;
      }
      if !(START <= pn.phase <= WAIT) {
        return;
      }
      if !a.magicBlock {
        running := false;
        return;
      }
      var r := RunPhaseFunc(pn.phase, a);
      if r.Failed? {
        if pn.phase != SHARE {
          return;
        }
        retryShare := true;
      }
      if !(r.Done? && r.txn) || a.confirmed {
        current := pn.phase;
        phaseStart := pn.startRound;
        trail := if pn.phase == START then [START] else trail + [pn.phase];
      }
    }
  }

  /** The loop that collects whom to send a share. */
  method SendSijsPrepare(vc: ViewChange, self: string, miners: set<string>) returns (sendTo: set<string>)
    ensures sendTo == SendTo(vc, self, miners)
  {
    sendTo := {};
    var left := miners;
    while left != {}
      invariant left <= miners && sendTo == SendTo(vc, self, miners - left)
      decreases left
    {
      var key :| key in left;
      left := left - {key};
      if key == self {
        continue;
      }
      if key !in vc.shared {
        sendTo := sendTo + {key};
      }
    }
    assert miners - left == miners;
  }

  /** The loop that sends the shares, one by one. */
  method SendShares(sendTo: set<string>, acks: set<string>) returns (acked: set<string>, sendFail: set<string>)
    ensures acked == sendTo * acks && sendFail == sendTo - acked
    ensures |acked| == |sendTo| - |sendFail|
  {
    acked, sendFail := {}, {};
    var left := sendTo;
    while left != {}
      invariant left <= sendTo
      invariant forall k :: k in acked <==> k in sendTo && k !in left && k in acks
      invariant forall k :: k in sendFail <==> k in sendTo && k !in left && k !in acks
      decreases left
    {
      var key :| key in left;
      left := left - {key};
      if key in acks {
        acked := acked + {key};
      } else {
        sendFail := sendFail + {key};
      }
    }
    Split(sendTo, acked, sendFail);
  }

  lemma Split(all: set<string>, one: set<string>, other: set<string>)
    requires all == one + other && one !! other
    ensures |one| == |all| - |other|
  {
  }

  // ---------------------------------------------------------------- the order of phases

  function Shares(k: nat): seq<int> {
    seq(k, _ => SHARE)
  }

  /** The only way to a phase: Start, Contribute, Share `k` times, Publish, Wait, as far as it goes. */
  function Path(phase: int, k: nat): seq<int> {
    if phase == START then [START]
    else if phase == CONTRIBUTE then [START, CONTRIBUTE]
    else if phase == SHARE then [START, CONTRIBUTE] + Shares(k)
    else if phase == PUBLISH then [START, CONTRIBUTE] + Shares(k) + [PUBLISH]
    else if phase == WAIT then [START, CONTRIBUTE] + Shares(k) + [PUBLISH, WAIT]
    else []
  }

  ghost predicate InOrder(s: State) {
    && UNKNOWN <= s.current <= WAIT
    && (exists k: nat :: k >= 1 && s.trail == Path(s.current, k))
    && (s.retryShare ==> s.current == SHARE)
  }

  /** Which phase can be accepted after which. */
  predicate Follows(s: State, phase: int) {
    phase == START || (phase == s.current + 1 && phase <= WAIT) || (phase == SHARE && s.current == SHARE)
  }

  lemma PathGrows(s: State, phase: int)
    requires InOrder(s) && Follows(s, phase)
    ensures START <= phase <= WAIT
    ensures exists k: nat :: k >= 1 && (if phase == START then [START] else s.trail + [phase]) == Path(phase, k)
  {
    var k :| k >= 1 && s.trail == Path(s.current, k);
    if phase == START || phase == CONTRIBUTE {
      assert (if phase == START then [START] else s.trail + [phase]) == Path(phase, 1);
    } else if phase == SHARE && s.current == SHARE {
      assert s.trail + [phase] == Path(phase, k + 1);
    } else if phase == SHARE {
      assert Shares(1) == [SHARE];
      assert s.trail + [phase] == Path(phase, 1);
    } else {
      assert s.trail + [phase] == Path(phase, k);
    }
  }

  /** What one turn can do to the phase: keep it, skip to Unknown, or accept one that follows. */
  lemma TurnShape(s: State, self: string, pn: PhaseNode, a: Answers)
    requires InOrder(s)
    ensures var s' := Turn(s, self, pn, a);
      || (s'.current == s.current && s'.trail == s.trail && (s'.retryShare ==> s.retryShare))
      || (s'.current == UNKNOWN && s'.trail == [] && !s'.retryShare)
      || (Follows(s, pn.phase) && s'.current == pn.phase &&
          s'.trail == (if pn.phase == START then [START] else s.trail + [pn.phase]) &&
          (s'.retryShare ==> pn.phase == SHARE))
  {
    hide RunPhase;
  }

  lemma StepKeepsOrder(s: State, self: string, e: Event)
    requires InOrder(s)
    ensures InOrder(Step(s, self, e))
  {
    hide Turn, Path;
    var pn := if e.Phase? then e.node else s.last;
    TurnShape(s, self, pn, e.answers);
    NoPath();
    if Follows(s, pn.phase) {
      PathGrows(s, pn.phase);
    }
  }

  lemma NoPath()
    ensures Path(UNKNOWN, 1) == []
  {
  }

  /** After a skip nothing but Start is accepted. */
  lemma SkipForcesStart(s: State, self: string, e: Event)
    requires InOrder(s) && s.current == UNKNOWN
    ensures Step(s, self, e).current in {UNKNOWN, START}
  {
    hide Turn;
    TurnShape(s, self, if e.Phase? then e.node else s.last, e.answers);
  }

  // ---------------------------------------------------------------- the key generation object

  /** The key generation is set up from Contribute to Publish, except after Wait took it away. */
  ghost predicate DkgOk(s: State) {
    && (s.current == CONTRIBUTE || s.current == SHARE ==> s.vc.dkgSet)
    && (s.current == WAIT ==> !s.vc.dkgSet)
  }

  lemma StepKeepsDkg(s: State, self: string, e: Event)
    requires InOrder(s) && DkgOk(s)
    ensures DkgOk(Step(s, self, e))
  {
    hide Path;
    hide InOrder;
    RetryIsShare(s);
  }

  lemma RetryIsShare(s: State)
    requires InOrder(s)
    ensures s.retryShare ==> s.current == SHARE
    ensures UNKNOWN <= s.current <= WAIT
  {
  }

  predicate PublishHasDkg(s: State) {
    s.current == PUBLISH ==> s.vc.dkgSet
  }

  /** Wait does its work and drops the key generation, but its transaction is not sent or not confirmed. */
  predicate LosesDkg(s: State, self: string, e: Event) {
    var pn, a := if e.Phase? then e.node else s.last, e.answers;
    && s.running && s.current == PUBLISH && s.vc.dkgSet
    && pn.phase == WAIT && pn.startRound != s.phaseStart && a.magicBlock
    && a.newMagicBlock.Some? && self in a.newMagicBlock.value && a.aggregated && a.stored && !(a.sent && a.confirmed)
  }

  /** Exactly when a turn leaves the Publish phase without its key generation. */
  lemma PublishLosesDkgExactly(s: State, self: string, e: Event)
    requires InOrder(s) && DkgOk(s) && PublishHasDkg(s)
    ensures PublishHasDkg(Step(s, self, e)) <==> !LosesDkg(s, self, e)
  {
    hide InOrder, Path;
    RetryIsShare(s);
  }

  /** Without its key generation, the Publish phase ends only in a skip or a fresh Start. */
  lemma StuckUntilStart(s: State, self: string, e: Event)
    requires InOrder(s) && s.current == PUBLISH && !s.vc.dkgSet
    ensures var s' := Step(s, self, e);
      s'.current in {PUBLISH, UNKNOWN, START} && !s'.vc.dkgSet
  {
    hide InOrder;
    RetryIsShare(s);
  }

  // ---------------------------------------------------------------- whole runs

  ghost predicate IsRun(self: string, states: seq<State>, events: seq<Event>) {
    && |states| == |events| + 1
    && states[0] == INITIAL
    && forall i :: 0 <= i < |events| ==> states[i + 1] == Step(states[i], self, events[i])
  }

  /** In every run the current phase was reached in order, and a share retry is pending only in Share. */
  lemma {:induction false} PhasesInOrder(self: string, states: seq<State>, events: seq<Event>, n: nat)
    requires IsRun(self, states, events) && n < |states|
    ensures InOrder(states[n]) && DkgOk(states[n])
  {
    hide Step, InOrder;
    if n == 0 {
      StartsInOrder();
    } else {
      PhasesInOrder(self, states, events, n - 1);
      StepKeepsOrder(states[n - 1], self, events[n - 1]);
      StepKeepsDkg(states[n - 1], self, events[n - 1]);
    }
  }

  lemma StartsInOrder()
    ensures InOrder(INITIAL) && DkgOk(INITIAL)
  {
    assert INITIAL.trail == Path(INITIAL.current, 1);
  }

  /** In every run without such a loss, the Publish phase has its key generation. */
  lemma {:induction false} PublishHasDkgInRun(self: string, states: seq<State>, events: seq<Event>, n: nat)
    requires IsRun(self, states, events) && n < |states|
    requires forall i :: 0 <= i < n ==> !LosesDkg(states[i], self, events[i])
    ensures PublishHasDkg(states[n])
  {
    hide Step, InOrder, LosesDkg;
    if n > 0 {
      PublishHasDkgInRun(self, states, events, n - 1);
      PhasesInOrder(self, states, events, n - 1);
      PublishLosesDkgExactly(states[n - 1], self, events[n - 1]);
    }
  }

  /** In every run, after a skip the next phase accepted is Start. */
  lemma {:induction false} FreshStartAfterSkip(self: string, states: seq<State>, events: seq<Event>, i: nat, j: nat)
    requires IsRun(self, states, events) && i <= j < |states| && states[i].current == UNKNOWN
    requires forall n :: i < n <= j ==> states[n].current != START
    ensures states[j].current == UNKNOWN
    decreases j
  {
    hide Step, InOrder;
    if i < j {
      FreshStartAfterSkip(self, states, events, i, j - 1);
      PhasesInOrder(self, states, events, j - 1);
      SkipForcesStart(states[j - 1], self, events[j - 1]);
    }
  }

  /** Whoever acknowledged a share is not sent one again until the view change data is cleared. */
  lemma {:induction false} NoShareTwice(self: string, states: seq<State>, events: seq<Event>, i: nat, j: nat, m: string)
    requires IsRun(self, states, events) && i <= j < |states| && m in states[i].vc.shared
    requires forall n :: i <= n <= j ==> states[n].vc.dkgSet
    ensures m in states[j].vc.shared
    ensures forall miners :: m !in SendTo(states[j].vc, self, miners)
    decreases j
  {
    hide Step;
    if i < j {
      NoShareTwice(self, states, events, i, j - 1, m);
      SharedGrows(states[j - 1], self, events[j - 1]);
    }
  }

  lemma SharedGrows(s: State, self: string, e: Event)
    ensures Step(s, self, e).vc == CLEAR || s.vc.shared <= Step(s, self, e).vc.shared
  {
  }

  function AllWell(self: string): Answers {
    Answers(true, Some({self}), 1, 0, true, {}, Some({self}), {}, Some({self}), true, true, true, true)
  }

  ghost predicate At(s: State, phase: int, start: int) {
    s.running && s.current == phase && s.phaseStart == start && !s.retryShare && (phase >= CONTRIBUTE ==> s.vc.dkgSet)
  }

  lemma SmoothTurn(s: State, self: string, phase: int, start: int)
    requires START <= phase <= PUBLISH && At(s, phase - 1, start - 10)
    ensures At(Step(s, self, Phase(PhaseNode(phase, start), AllWell(self))), phase, start)
  {
    assert SendTo(s.vc, self, {self}) == {};
  }

  /** A full run up to Publish, then Wait drops the key generation and its transaction is not confirmed. */
  lemma PublishCanLoseDkg(self: string)
    ensures exists states: seq<State>, events: seq<Event> ::
      IsRun(self, states, events) && states[|events|].current == PUBLISH && !states[|events|].vc.dkgSet
  {
    hide IsRun, Step;
    var yes := AllWell(self);
    var events := [Phase(PhaseNode(START, 10), yes), Phase(PhaseNode(CONTRIBUTE, 20), yes),
                   Phase(PhaseNode(SHARE, 30), yes), Phase(PhaseNode(PUBLISH, 40), yes),
                   Phase(PhaseNode(WAIT, 50), yes.(confirmed := false))];
    var s1 := Step(INITIAL, self, events[0]);
    SmoothTurn(INITIAL, self, START, 10);
    var s2 := Step(s1, self, events[1]);
    SmoothTurn(s1, self, CONTRIBUTE, 20);
    var s3 := Step(s2, self, events[2]);
    SmoothTurn(s2, self, SHARE, 30);
    var s4 := Step(s3, self, events[3]);
    SmoothTurn(s3, self, PUBLISH, 40);
    var s5 := Step(s4, self, events[4]);
    UnconfirmedWait(s4, self);
    FiveSteps(self, [INITIAL, s1, s2, s3, s4, s5], events);
  }

  lemma UnconfirmedWait(s: State, self: string)
    requires At(s, PUBLISH, 40)
    ensures var s' := Step(s, self, Phase(PhaseNode(WAIT, 50), AllWell(self).(confirmed := false)));
            s'.current == PUBLISH && !s'.vc.dkgSet
  {
  }

  lemma FiveSteps(self: string, states: seq<State>, events: seq<Event>)
    requires |states| == 6 && |events| == 5 && states[0] == INITIAL
    requires states[1] == Step(states[0], self, events[0]) && states[2] == Step(states[1], self, events[1])
    requires states[3] == Step(states[2], self, events[2]) && states[4] == Step(states[3], self, events[3])
    requires states[5] == Step(states[4], self, events[4])
    ensures IsRun(self, states, events)
  {
    hide Step;
  }
}
