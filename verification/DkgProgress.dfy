/** When the key generation moves on: which turns accept a phase, whom a share is sent to, and when Share is retried. */
module DkgProgress {
  import opened Common
  import opened DkgPhases

  /** The event this turn handles. */
  function Node(s: State, e: Event): PhaseNode {
    if e.Phase? then e.node else s.last
  }

  /** The event is new, or a share retry is pending. */
  predicate Fresh(s: State, pn: PhaseNode) {
    pn.startRound != s.phaseStart || (pn.phase == SHARE && s.retryShare)
  }

  /** The phase is one that may come now. */
  predicate Expected(s: State, pn: PhaseNode) {
    pn.phase == START || pn.phase == s.current + 1 || (pn.phase == SHARE && s.retryShare)
  }

  /** The turn runs the phase's function. */
  predicate Tries(s: State, e: Event, phase: int) {
    var pn := Node(s, e);
    s.running && pn.phase == phase && Fresh(s, pn) && Expected(s, pn) && e.answers.magicBlock
  }

  /** Too few acknowledgements: some miner failed, there were more than `k` to ask, and fewer than `k` answered. */
  predicate TooFewAcks(vc: ViewChange, self: string, a: Answers)
    requires a.miners.Some?
  {
    var asked := set m | m in a.miners.value && m != self && m !in vc.shared;
    var answered := set m | m in asked && m in a.acks;
    answered != asked && |asked| > a.k && |answered| < a.k
  }

  predicate ShareFails(vc: ViewChange, self: string, a: Answers) {
    !vc.dkgSet || a.miners.None? || (self in a.miners.value && (!a.sijs || TooFewAcks(vc, self, a)))
  }

  /** What a phase needs to be accepted. Share is accepted also when it fails: it is tried again. */
  predicate Succeeds(vc: ViewChange, self: string, phase: int, a: Answers) {
    if phase == CONTRIBUTE then a.miners.Some? && (vc.dkgSet || a.size > 0) && a.sent && a.confirmed
    else if phase == PUBLISH then
      vc.dkgSet && a.mpks.Some? &&
      (self in a.mpks.value ==> a.miners.Some? && a.miners.value != {} && a.sent && a.confirmed)
    else if phase == WAIT then
      vc.dkgSet && a.newMagicBlock.Some? &&
      (self in a.newMagicBlock.value ==> a.aggregated && a.stored && a.sent && a.confirmed)
    else phase == START || phase == SHARE
  }

  lemma SharePartExactly(vc: ViewChange, self: string, a: Answers)
    ensures AfterShare(vc, self, a).1 == if ShareFails(vc, self, a) then Failed else Done(false)
  {
    if a.miners.Some? {
      var to := SendTo(vc, self, a.miners.value);
      assert to == set m | m in a.miners.value && m != self && m !in vc.shared;
      assert to * a.acks == set m | m in to && m in a.acks;
      assert |to - to * a.acks| > 0 <==> to * a.acks != to;
    }
  }

  /** A phase function and its transaction succeed exactly on these answers. */
  lemma PhaseExactly(vc: ViewChange, self: string, phase: int, a: Answers)
    requires START <= phase <= WAIT
    ensures var r := RunPhase(vc, self, phase, a).1;
            Succeeds(vc, self, phase, a) <==> phase == SHARE || (r.Done? && (r.txn ==> a.confirmed))
    ensures phase == SHARE ==> RunPhase(vc, self, phase, a).1 == if ShareFails(vc, self, a) then Failed else Done(false)
  {
    hide AfterShare, ShareFails;
    SharePartExactly(vc, self, a);
  }

  /** Exactly when a turn accepts the phase, when it skips to Unknown, and when it leaves the phase alone. */
  lemma AcceptedExactly(s: State, self: string, e: Event)
    requires InOrder(s)
    ensures var pn, s' := Node(s, e), Step(s, self, e);
      var accepts := START <= pn.phase <= WAIT && Tries(s, e, pn.phase) && Succeeds(s.vc, self, pn.phase, e.answers);
      var skips := s.running && Fresh(s, pn) && !Expected(s, pn);
      && s'.current == (if accepts then pn.phase else if skips then UNKNOWN else s.current)
      && s'.phaseStart == (if accepts then pn.startRound else s.phaseStart)
  {
    hide InOrder, RunPhase, Succeeds;
    RetryIsShare(s);
    var pn := Node(s, e);
    if START <= pn.phase <= WAIT {
      PhaseExactly(s.vc, self, pn.phase, e.answers);
    }
  }

  /** Share is tried again exactly if it failed, and stays so until another phase's event. */
  lemma RetryExactly(s: State, self: string, e: Event)
    requires InOrder(s) && s.running
    ensures Step(s, self, e).retryShare <==>
            Node(s, e).phase == SHARE && (s.retryShare || (Tries(s, e, SHARE) && ShareFails(s.vc, self, e.answers)))
  {
    hide InOrder, RunPhase, ShareFails;
    if Node(s, e).phase == SHARE {
      PhaseExactly(s.vc, self, SHARE, e.answers);
    }
  }

  // ---------------------------------------------------------------- who has a share

  /** Miner `m` is asked for its acknowledgement: it is another miner and none of its own is recorded. */
  predicate Asks(s: State, self: string, e: Event, m: string) {
    Tries(s, e, SHARE) &&
    var a := e.answers;
    s.vc.dkgSet && a.miners.Some? && self in a.miners.value && a.sijs &&
    m in a.miners.value && m != self && m !in s.vc.shared
  }

  /** Miner `m` is recorded as having its share: it acknowledged, or Publish found its share known. */
  predicate Records(s: State, self: string, e: Event, m: string) {
    var a := e.answers;
    || (Asks(s, self, e, m) && m in a.acks)
    || (Tries(s, e, PUBLISH) && s.vc.dkgSet && a.mpks.Some? && self in a.mpks.value &&
        m in a.mpks.value && m != self && m in a.known)
  }

  /** The data of the view change is cleared: by Start, or by Wait once it has done its work or is not concerned. */
  predicate Clears(s: State, self: string, e: Event) {
    var a := e.answers;
    || Tries(s, e, START)
    || (Tries(s, e, WAIT) && s.vc.dkgSet && a.newMagicBlock.Some? &&
        (self in a.newMagicBlock.value ==> a.aggregated && a.stored))
  }

  /** Only a turn that runs a phase function touches the data. */
  lemma DataAfter(s: State, self: string, e: Event)
    requires InOrder(s)
    ensures var phase := Node(s, e).phase;
      Step(s, self, e).vc ==
        if START <= phase <= WAIT && Tries(s, e, phase) then RunPhase(s.vc, self, phase, e.answers).0 else s.vc
  {
    hide InOrder, RunPhase;
    RetryIsShare(s);
  }

  lemma RunPhaseShared(vc: ViewChange, self: string, phase: int, a: Answers, m: string)
    requires START <= phase <= WAIT
    ensures m in RunPhase(vc, self, phase, a).0.shared <==>
      && !(phase == START || (phase == WAIT && vc.dkgSet && a.newMagicBlock.Some? &&
                              (self in a.newMagicBlock.value ==> a.aggregated && a.stored)))
      && (|| m in vc.shared
          || (phase == SHARE && vc.dkgSet && a.miners.Some? && self in a.miners.value && a.sijs &&
              m in a.miners.value && m != self && m in a.acks)
          || (phase == PUBLISH && vc.dkgSet && a.mpks.Some? && self in a.mpks.value &&
              m in a.mpks.value && m != self && m in a.known))
  {
  }

  lemma SharedExactly(s: State, self: string, e: Event, m: string)
    requires InOrder(s)
    ensures m in Step(s, self, e).vc.shared <==>
            !Clears(s, self, e) && (m in s.vc.shared || Records(s, self, e, m))
  {
    hide InOrder, RunPhase, Step, Fresh, Expected;
    DataAfter(s, self, e);
    var phase := Node(s, e).phase;
    if START <= phase <= WAIT {
      RunPhaseShared(s.vc, self, phase, e.answers, m);
    }
  }

  /** Some turn since the last clearing recorded `m`. */
  ghost predicate Recorded(self: string, states: seq<State>, events: seq<Event>, n: nat, m: string)
    requires n <= |events| <= |states|
  {
    exists i :: 0 <= i < n && Records(states[i], self, events[i], m) && NotCleared(self, states, events, i, n)
  }

  ghost predicate NotCleared(self: string, states: seq<State>, events: seq<Event>, i: nat, n: nat)
    requires n <= |events| <= |states|
  {
    forall k :: i <= k < n ==> !Clears(states[k], self, events[k])
  }

  /** In every run the miners recorded are those that some turn recorded since the last clearing. */
  lemma {:induction false} SharedInRun(self: string, states: seq<State>, events: seq<Event>, n: nat, m: string)
    requires IsRun(self, states, events) && n < |states|
    ensures m in states[n].vc.shared <==> Recorded(self, states, events, n, m)
  {
    hide Step, InOrder, Records, Clears;
    if n > 0 {
      SharedInRun(self, states, events, n - 1, m);
      PhasesInOrder(self, states, events, n - 1);
      SharedExactly(states[n - 1], self, events[n - 1], m);
      if m in states[n].vc.shared {
        if Records(states[n - 1], self, events[n - 1], m) {
          assert NotCleared(self, states, events, n - 1, n);
        } else {
          var i :| 0 <= i < n - 1 && Records(states[i], self, events[i], m) &&
                   NotCleared(self, states, events, i, n - 1);
          assert NotCleared(self, states, events, i, n);
        }
      }
      if Recorded(self, states, events, n, m) {
        var i :| 0 <= i < n && Records(states[i], self, events[i], m) && NotCleared(self, states, events, i, n);
        assert i < n - 1 ==> NotCleared(self, states, events, i, n - 1);
      }
    }
  }

  /**
   In every run a turn that sends shares asks exactly the other miners of the list that no turn recorded since the
   last clearing.
   */
  lemma AskedExactly(self: string, states: seq<State>, events: seq<Event>, n: nat, m: string)
    requires IsRun(self, states, events) && n < |events|
    requires events[n].answers.miners.Some?
    ensures m in SendTo(states[n].vc, self, events[n].answers.miners.value) <==>
            m in events[n].answers.miners.value && m != self && !Recorded(self, states, events, n, m)
  {
    hide Step, Recorded;
    SharedInRun(self, states, events, n, m);
  }
}
