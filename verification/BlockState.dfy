/**
 How a block gets its client state: loaded from the node store, computed by replaying the block's
 transactions on the previous block's state, or synced from a set of state changes. A state trie is
 known by its root; the root function is injective, so a root is either `RootOf` some contents or a
 hash of nothing.
 */
module BlockState {
  import opened Common

  type Contents = map<string, string>

  datatype Root = RootOf(contents: Contents) | NoState(hash: string)

  /** A transaction, as far as it changes the state. */
  datatype Txn = Txn(hash: string, payload: string)

  /** The effect of a transaction on the state; `None` if the update fails. */
  datatype Rules = Rules(exec: (Txn, Contents) -> Option<Contents>)

  const PENDING := 0
  const CANCELLED := 2
  const FAILED := 3
  const SUCCESSFUL := 4
  const SYNCHED := 5

  /** The state part of a block. */
  datatype Fields = Fields(clientState: Option<Root>, clientStateHash: Root, status: int)

  predicate IsComputed(status: int) {
    status >= SUCCESSFUL
  }

  // ---------------------------------------------------------------- replaying transactions

  /** What can stop the replay at a transaction, apart from the transaction itself. */
  datatype Trouble = NoClientId | ContextCancelled | DeadlineExceeded | ContractTimeout

  datatype ReplayResult = Reached(root: Root) | Stopped(trouble: Trouble) | UpdateFailed

  function Execute(rules: Rules, t: Txn, root: Root): Option<Root> {
    match root
    case NoState(_) => None
    case RootOf(c) => if rules.exec(t, c).Some? then Some(RootOf(rules.exec(t, c).value)) else None
  }

  /** Replaying `txns` from `root`, with `trouble` striking at some positions. */
  function Replay(rules: Rules, root: Root, txns: seq<Txn>, trouble: map<nat, Trouble>, at: nat): ReplayResult
    decreases txns
  {
    if txns == [] then Reached(root)
    else if at in trouble then Stopped(trouble[at])
    else match Execute(rules, txns[0], root)
      case None => UpdateFailed
      case Some(next) => Replay(rules, next, txns[1..], trouble, at + 1)
  }

  /** The undisturbed meaning of a list of transactions. */
  function RunAll(rules: Rules, c: Contents, txns: seq<Txn>): Option<Contents>
    decreases txns
  {
    if txns == [] then Some(c)
    else match rules.exec(txns[0], c)
      case None => None
      case Some(next) => RunAll(rules, next, txns[1..])
  }

  /** The same on roots: where there is no state, no transaction can be executed. */
  function RunFrom(rules: Rules, root: Root, txns: seq<Txn>): Option<Root> {
    match root
    case NoState(_) => if txns == [] then Some(root) else None
    case RootOf(c) => var d := RunAll(rules, c, txns); if d.None? then None else Some(RootOf(d.value))
  }

  lemma RunFromStep(rules: Rules, root: Root, txns: seq<Txn>)
    requires txns != []
    ensures RunFrom(rules, root, txns) ==
            match Execute(rules, txns[0], root) case None => None case Some(next) => RunFrom(rules, next, txns[1..])
    ensures RunFrom(rules, root, []) == Some(root)
  {
  }

  /** Nothing strikes before position `to`. */
  predicate Untroubled(trouble: map<nat, Trouble>, at: nat, to: nat) {
    forall i :: at <= i < to ==> i !in trouble
  }

  /** The first `i` transactions execute, and nothing strikes at them. */
  predicate Gets(rules: Rules, root: Root, txns: seq<Txn>, trouble: map<nat, Trouble>, at: nat, i: nat)
    requires i <= |txns|
  {
    Untroubled(trouble, at, at + i) && RunFrom(rules, root, txns[..i]).Some?
  }

  /** The transaction at `i` is reached, and there `x` strikes. */
  predicate StruckAt(rules: Rules, root: Root, txns: seq<Txn>, trouble: map<nat, Trouble>, at: nat, i: nat,
                     x: Trouble)
  {
    i < |txns| && Gets(rules, root, txns, trouble, at, i) && at + i in trouble && trouble[at + i] == x
  }

  /** The transaction at `i` is reached undisturbed, and its execution fails. */
  predicate FailsAt(rules: Rules, root: Root, txns: seq<Txn>, trouble: map<nat, Trouble>, at: nat, i: nat) {
    i < |txns| && Gets(rules, root, txns, trouble, at, i) && at + i !in trouble &&
    RunFrom(rules, root, txns[..i + 1]).None?
  }

  lemma GetsStep(rules: Rules, root: Root, txns: seq<Txn>, trouble: map<nat, Trouble>, at: nat, i: nat)
    requires txns != [] && i <= |txns| - 1
    ensures txns[1..][..i] == txns[1..i + 1]
    ensures RunFrom(rules, root, txns[..i + 1]) ==
            match Execute(rules, txns[0], root)
            case None => None
            case Some(next) => RunFrom(rules, next, txns[1..][..i])
    ensures Untroubled(trouble, at, at + i + 1) <==> at !in trouble && Untroubled(trouble, at + 1, at + 1 + i)
  {
    hide RunFrom, Execute;
    assert txns[..i + 1][0] == txns[0] && txns[..i + 1][1..] == txns[1..][..i];
    RunFromStep(rules, root, txns[..i + 1]);
  }

  /** A replay gets through exactly if nothing strikes and the transactions execute; it then reaches what they make. */
  lemma {:induction false} ReplayReachesExactly(rules: Rules, root: Root, txns: seq<Txn>, trouble: map<nat, Trouble>,
                                                at: nat, end: Root)
    ensures Replay(rules, root, txns, trouble, at) == Reached(end) <==>
            Untroubled(trouble, at, at + |txns|) && RunFrom(rules, root, txns) == Some(end)
    decreases txns
  {
    hide RunFrom, Execute;
    if txns == [] {
      RunNothingFrom(rules, root);
    } else {
      RunFromStep(rules, root, txns);
      var next := Execute(rules, txns[0], root);
      if at !in trouble && next.Some? {
        ReplayReachesExactly(rules, next.value, txns[1..], trouble, at + 1, end);
      }
    }
  }

  lemma RunNothingFrom(rules: Rules, root: Root)
    ensures RunFrom(rules, root, []) == Some(root)
  {
  }

  /** A replay stops exactly at the first trouble, if everything before executes. */
  lemma {:induction false} ReplayStopsExactly(rules: Rules, root: Root, txns: seq<Txn>, trouble: map<nat, Trouble>,
                                              at: nat, x: Trouble)
    ensures Replay(rules, root, txns, trouble, at) == Stopped(x) <==>
            exists i: nat :: StruckAt(rules, root, txns, trouble, at, i, x)
    decreases txns
  {
    hide RunFrom, Execute;
    if txns != [] {
      RunNothingFrom(rules, root);
      assert txns[..0] == [];
      assert StruckAt(rules, root, txns, trouble, at, 0, x) <==> at in trouble && trouble[at] == x;
      var rest, next := txns[1..], Execute(rules, txns[0], root);
      forall i: nat | 0 < i < |txns|
        ensures StruckAt(rules, root, txns, trouble, at, i, x) <==>
                at !in trouble && next.Some? && StruckAt(rules, next.value, rest, trouble, at + 1, i - 1, x)
      {
        GetsStep(rules, root, txns, trouble, at, i - 1);
      }
      if at !in trouble && next.Some? {
        ReplayStopsExactly(rules, next.value, rest, trouble, at + 1, x);
        if i: nat :| StruckAt(rules, root, txns, trouble, at, i, x) {
          assert StruckAt(rules, next.value, rest, trouble, at + 1, i - 1, x);
        }
        var later := at + 1;
        if i: nat :| StruckAt(rules, next.value, rest, trouble, later, i, x) {
          assert StruckAt(rules, root, txns, trouble, at, i + 1, x);
        }
      }
    }
  }

  /** A replay fails exactly at the first transaction that does not execute, if nothing strikes up to it. */
  lemma {:induction false} ReplayFailsExactly(rules: Rules, root: Root, txns: seq<Txn>, trouble: map<nat, Trouble>,
                                              at: nat)
    ensures Replay(rules, root, txns, trouble, at) == UpdateFailed <==>
            exists i: nat :: FailsAt(rules, root, txns, trouble, at, i)
    decreases txns
  {
    hide RunFrom, Execute;
    if txns != [] {
      RunNothingFrom(rules, root);
      assert txns[..0] == [];
      var rest, next := txns[1..], Execute(rules, txns[0], root);
      FirstFails(rules, root, txns, trouble, at);
      forall i: nat | 0 < i < |txns|
        ensures FailsAt(rules, root, txns, trouble, at, i) <==>
                at !in trouble && next.Some? && FailsAt(rules, next.value, rest, trouble, at + 1, i - 1)
      {
        GetsStep(rules, root, txns, trouble, at, i - 1);
        GetsStep(rules, root, txns, trouble, at, i);
      }
      if at !in trouble && next.Some? {
        ReplayFailsExactly(rules, next.value, rest, trouble, at + 1);
        if i: nat :| FailsAt(rules, root, txns, trouble, at, i) {
          assert FailsAt(rules, next.value, rest, trouble, at + 1, i - 1);
        }
        var later := at + 1;
        if i: nat :| FailsAt(rules, next.value, rest, trouble, later, i) {
          assert FailsAt(rules, root, txns, trouble, at, i + 1);
        }
      }
    }
  }

  lemma FirstFails(rules: Rules, root: Root, txns: seq<Txn>, trouble: map<nat, Trouble>, at: nat)
    requires txns != []
    ensures FailsAt(rules, root, txns, trouble, at, 0) <==> at !in trouble && Execute(rules, txns[0], root).None?
  {
    hide RunFrom, Execute;
    RunNothingFrom(rules, root);
    assert txns[..0] == [];
    GetsStep(rules, root, txns, trouble, at, 0);
    assert txns[1..][..0] == [];
    if Execute(rules, txns[0], root).Some? {
      RunNothingFrom(rules, Execute(rules, txns[0], root).value);
    }
  }

  lemma {:induction false} RunAllConcat(rules: Rules, c: Contents, one: seq<Txn>, two: seq<Txn>)
    requires RunAll(rules, c, one).Some?
    ensures RunAll(rules, c, one + two) == RunAll(rules, RunAll(rules, c, one).value, two)
    decreases one
  {
    if one == [] {
      assert one + two == two;
    } else {
      assert (one + two)[1..] == one[1..] + two;
      RunAllConcat(rules, rules.exec(one[0], c).value, one[1..], two);
    }
  }

  // ---------------------------------------------------------------- one attempt

  /** What an attempt sees of another block. */
  type View = Fields

  datatype ComputeError =
    | ContextDone
    | PreviousBlockUnavailable
    | PreviousStateUnavailable
    | ReplayStopped(trouble: Trouble)
    | StateUpdateError
    | StateMismatch

  function StatusAfter(trouble: Trouble, status: int): int {
    if trouble == NoClientId then status else CANCELLED
  }

  /** Computing: the new fields and the error, if any. */
  function Computed(f: Fields, cancelled: bool, pb: Option<View>, txns: seq<Txn>, trouble: map<nat, Trouble>,
                    rules: Rules): (Fields, Option<ComputeError>)
  {
    if cancelled then (f.(status := CANCELLED), Some(ContextDone))
    else if IsComputed(f.status) then (f, None)
    else if pb.None? then (f.(status := FAILED), Some(PreviousBlockUnavailable))
    else if !IsComputed(pb.value.status) || pb.value.clientState.None? then (f, Some(PreviousStateUnavailable))
    else match Replay(rules, pb.value.clientStateHash, txns, trouble, 0)
      case Stopped(t) => (f.(status := StatusAfter(t, f.status)), Some(ReplayStopped(t)))
      case UpdateFailed => (f.(status := FAILED), Some(StateUpdateError))
      case Reached(root) =>
        if root != f.clientStateHash then (f.(status := FAILED), Some(StateMismatch))
        else (Fields(Some(root), root, SUCCESSFUL), None)
  }

  /** A set of state changes received for a block. */
  datatype StateChange = StateChange(block: string, hash: Root, root: Option<Root>, nodes: nat)

  datatype SyncError =
    | BlockHashMismatch | StateHashMismatch | NoStateRoot | MalformedChanges | MergeFailed | SyncMismatch

  /** Syncing: the merge takes the change set's root, or fails. */
  function Synced(f: Fields, hash: string, changes: nat, prevHash: Option<Root>, bsc: StateChange, merges: bool)
    : (Fields, Option<SyncError>)
  {
    if IsComputed(f.status) then (f, None)
    else if hash != bsc.block then (f, Some(BlockHashMismatch))
    else if f.clientStateHash != bsc.hash then (f, Some(StateHashMismatch))
    else if bsc.root.None? then (f, if prevHash == Some(f.clientStateHash) then None else Some(NoStateRoot))
    else if bsc.nodes != changes then (f, Some(MalformedChanges))
    else if !merges then (f, Some(MergeFailed))
    else if f.clientStateHash != bsc.root.value then (f, Some(SyncMismatch))
    else (Fields(Some(bsc.root.value), bsc.root.value, SYNCHED), None)
  }

  /** Loading a state that is already in the node store. */
  function Loaded(f: Fields, present: bool): Fields {
    if present then Fields(Some(f.clientStateHash), f.clientStateHash, SUCCESSFUL) else f.(status := FAILED)
  }

  /** A block that does not change the state takes over the previous block's, if that is computed. */
  function Inherited(f: Fields, pb: Option<View>): Fields {
    if pb.Some? && pb.value.clientStateHash == f.clientStateHash && IsComputed(pb.value.status)
    then Fields(Some(pb.value.clientStateHash), pb.value.clientStateHash, pb.value.status) else f
  }

  /** Exactly when loading makes a block computed: when the store has the announced root; it is then its state. */
  lemma LoadedExactly(f: Fields, present: bool)
    requires !IsComputed(f.status)
    ensures IsComputed(Loaded(f, present).status) <==> present
    ensures present ==> Loaded(f, present).clientState == Some(f.clientStateHash)
    ensures !present ==> Loaded(f, present).clientState == f.clientState && Loaded(f, present).status == FAILED
  {
  }

  /** The previous block is there with its state. */
  predicate PreviousReady(pb: Option<View>) {
    pb.Some? && IsComputed(pb.value.status) && pb.value.clientState.Some?
  }

  /** Exactly when an attempt to compute gives a block a state it did not have. */
  lemma ComputeSucceedsExactly(f: Fields, cancelled: bool, pb: Option<View>, txns: seq<Txn>,
                               trouble: map<nat, Trouble>, rules: Rules)
    requires !IsComputed(f.status)
    ensures var (f', err) := Computed(f, cancelled, pb, txns, trouble, rules);
      && (err.None? <==> !cancelled && PreviousReady(pb) && Untroubled(trouble, 0, |txns|) &&
                         RunFrom(rules, pb.value.clientStateHash, txns) == Some(f.clientStateHash))
      && (err.None? ==> f' == Fields(Some(f.clientStateHash), f.clientStateHash, SUCCESSFUL))
      && (err.Some? ==>
            f'.clientState == f.clientState && f'.clientStateHash == f.clientStateHash && !IsComputed(f'.status))
  {
    hide Replay, RunFrom, Untroubled;
    if PreviousReady(pb) {
      ReplayReachesExactly(rules, pb.value.clientStateHash, txns, trouble, 0, f.clientStateHash);
    }
  }

  /** Exactly when an attempt fails with which error, and the status each leaves. */
  lemma ComputeFailsExactly(f: Fields, cancelled: bool, pb: Option<View>, txns: seq<Txn>, trouble: map<nat, Trouble>,
                            rules: Rules, x: Trouble)
    requires !IsComputed(f.status)
    ensures var (f', err) := Computed(f, cancelled, pb, txns, trouble, rules);
      && (err == Some(ContextDone) <==> cancelled)
      && (err == Some(PreviousBlockUnavailable) <==> !cancelled && pb.None?)
      && (err == Some(PreviousStateUnavailable) <==> !cancelled && pb.Some? && !PreviousReady(pb))
      && (err == Some(ReplayStopped(x)) <==>
            !cancelled && PreviousReady(pb) &&
            exists i: nat :: StruckAt(rules, pb.value.clientStateHash, txns, trouble, 0, i, x))
      && (err == Some(StateUpdateError) <==>
            !cancelled && PreviousReady(pb) &&
            exists i: nat :: FailsAt(rules, pb.value.clientStateHash, txns, trouble, 0, i))
      && (err == Some(StateMismatch) <==>
            !cancelled && PreviousReady(pb) && Untroubled(trouble, 0, |txns|) &&
            RunFrom(rules, pb.value.clientStateHash, txns).Some? &&
            RunFrom(rules, pb.value.clientStateHash, txns) != Some(f.clientStateHash))
      && (err == Some(PreviousStateUnavailable) || err == Some(ReplayStopped(NoClientId)) ==> f'.status == f.status)
      && (err == Some(ContextDone) || (err == Some(ReplayStopped(x)) && x != NoClientId) ==> f'.status == CANCELLED)
      && (err == Some(PreviousBlockUnavailable) || err == Some(StateUpdateError) || err == Some(StateMismatch) ==>
            f'.status == FAILED)
  {
    hide Replay, RunFrom, Untroubled, StruckAt, FailsAt;
    if PreviousReady(pb) {
      var root := pb.value.clientStateHash;
      ReplayStopsExactly(rules, root, txns, trouble, 0, x);
      ReplayFailsExactly(rules, root, txns, trouble, 0);
      forall end ensures Replay(rules, root, txns, trouble, 0) == Reached(end) <==>
                         Untroubled(trouble, 0, |txns|) && RunFrom(rules, root, txns) == Some(end)
      {
        ReplayReachesExactly(rules, root, txns, trouble, 0, end);
      }
    }
  }

  /** A sync without error leaves the block uncomputed exactly when the change set is empty and the root is the old. */
  lemma SyncSucceedsExactly(f: Fields, hash: string, changes: nat, prevHash: Option<Root>, bsc: StateChange,
                            merges: bool)
    requires !IsComputed(f.status)
    ensures var (f', err) := Synced(f, hash, changes, prevHash, bsc, merges);
      && (IsComputed(f'.status) <==> hash == bsc.block && bsc.hash == f.clientStateHash &&
                                     bsc.root == Some(f.clientStateHash) && bsc.nodes == changes && merges)
      && (err.None? && !IsComputed(f'.status) <==>
            hash == bsc.block && bsc.hash == f.clientStateHash && bsc.root.None? && prevHash == Some(f.clientStateHash))
      && (!IsComputed(f'.status) ==> f' == f)
  {
  }

  // ---------------------------------------------------------------- the block

  class Block {
    const hash: string
    const txns: seq<Txn>
    const changes: nat
    var prev: Block?
    var clientState: Option<Root>
    var clientStateHash: Root
    var status: int

    constructor (hash: string, txns: seq<Txn>, changes: nat, clientStateHash: Root)
      ensures this.hash == hash && this.txns == txns && this.changes == changes && prev == null
      ensures Mine() == Fields(None, clientStateHash, PENDING)
    {
      this.hash, this.txns, this.changes := hash, txns, changes;
      prev, clientState, this.clientStateHash, status := null, None, clientStateHash, PENDING;
    }

    function Mine(): Fields
      reads this
    {
      Fields(clientState, clientStateHash, status)
    }

    method InitStateDB(present: bool)
      modifies this`clientState, this`status
      ensures Mine() == Loaded(old(Mine()), present)
    {
      if !present {
        status := FAILED;
        return;
      }
      clientState := Some(clientStateHash);
      status := SUCCESSFUL;
    }

    /**
     `found` is what the chain answers when asked for the previous block; answering, it also links it. The
     checks on `pb` that follow in the source cannot fail: it is computed and this block is not.
     */
    method ComputeState(cancelled: bool, found: Block?, trouble: map<nat, Trouble>, rules: Rules)
      returns (err: Option<ComputeError>)
      modifies this`prev, this`clientState, this`clientStateHash, this`status
      ensures var pb := if old(prev) != null && IsComputed(old(prev.status)) then old(prev) else found;
              (Mine(), err) ==
              Computed(old(Mine()), cancelled, if pb == null then None else Some(old(pb.Mine())), txns, trouble, rules)
      ensures var asks := !cancelled && !IsComputed(old(status)) &&
                          (old(prev) == null || !IsComputed(old(prev.status)));
              prev == if !asks then old(prev)
                      else if found != null then found
                      else if old(prev) == this then null else old(prev)
    {
      if cancelled {
        status := CANCELLED;
        return Some(ContextDone);
      }
      if IsComputed(status) {
        return None;
      }
      var pb := prev;
      if pb == this {
        prev := null;
      }
      if pb == null || !IsComputed(pb.status) {
        pb := found;
        if pb == null {
          status := FAILED;
          return Some(PreviousBlockUnavailable);
        }
        prev := pb;
        if !IsComputed(pb.status) {
          return Some(PreviousStateUnavailable);
        }
      }
      assert pb != this && IsComputed(pb.status);
      if pb.clientState.None? {
        return Some(PreviousStateUnavailable);
      }
      var state := pb.clientStateHash;
      for i := 0 to |txns|
        invariant Replay(rules, pb.clientStateHash, txns, trouble, 0) == Replay(rules, state, txns[i..], trouble, i)
        invariant status == old(status)
      {
        assert txns[i..][0] == txns[i] && txns[i..][1..] == txns[i + 1..];
        if i in trouble {
          status := StatusAfter(trouble[i], status);
          return Some(ReplayStopped(trouble[i]));
        }
        var next := Execute(rules, txns[i], state);
        if next.None? {
          status := FAILED;
          return Some(StateUpdateError);
        }
        state := next.value;
      }
      if clientStateHash != state {
        status := FAILED;
        return Some(StateMismatch);
      }
      clientState, clientStateHash := Some(state), state;
      status := SUCCESSFUL;
      return None;
    }

    /** The shortcut of a sync: `done` if there is nothing left to fetch, `err` if the previous state is missing. */
    method InheritState() returns (done: bool, err: bool)
      modifies this`clientState, this`clientStateHash, this`status
      ensures Mine() == Inherited(old(Mine()), if prev == null then None else Some(old(prev.Mine())))
      ensures done || err <==> prev != null && old(prev.clientStateHash) == old(clientStateHash)
      ensures err ==> !IsComputed(old(prev.status))
      ensures done ==> IsComputed(status)
    {
      if prev == null || prev.clientStateHash != clientStateHash {
        return false, false;
      }
      if !IsComputed(prev.status) {
        return false, true;
      }
      clientState, clientStateHash, status := Some(prev.clientStateHash), prev.clientStateHash, prev.status;
      return true, false;
    }

    method ApplyBlockStateChange(bsc: StateChange, merges: bool) returns (err: Option<SyncError>)
      modifies this`clientState, this`clientStateHash, this`status
      ensures (Mine(), err) ==
              Synced(old(Mine()), hash, changes, if prev == null then None else Some(old(prev.clientStateHash)),
                     bsc, merges)
    {
      if IsComputed(status) {
        return None;
      }
      if hash != bsc.block {
        return Some(BlockHashMismatch);
      }
      if clientStateHash != bsc.hash {
        return Some(StateHashMismatch);
      }
      if bsc.root.None? {
        if prev != null && prev.clientStateHash == clientStateHash {
          return None;
        }
        return Some(NoStateRoot);
      }
      if bsc.nodes != changes {
        return Some(MalformedChanges);
      }
      if !merges {
        return Some(MergeFailed);
      }
      if clientStateHash != bsc.root.value {
        return Some(SyncMismatch);
      }
      clientState, clientStateHash := Some(bsc.root.value), bsc.root.value;
      status := SYNCHED;
      return None;
    }
  }

  // ---------------------------------------------------------------- a node's blocks

  /** A block in a node's memory; `replayed` records that its state was once computed by replay. */
  datatype Entry = Entry(prevHash: string, txns: seq<Txn>, changes: nat, fields: Fields, replayed: bool)

  type World = map<string, Entry>

  datatype Event =
    | Arrive(hash: string, entry: Entry)
    | Load(hash: string, present: bool)
    | Compute(hash: string, cancelled: bool, found: bool, trouble: map<nat, Trouble>)
    | Sync(hash: string, bsc: StateChange, linked: bool, merges: bool)
    | Inherit(hash: string, linked: bool)
    | Generate(hash: string, prevHash: string, txns: seq<Txn>, changes: nat)

  /** The previous block, if the node has it. */
  function Previous(w: World, e: Entry, found: bool): Option<View> {
    if found && e.prevHash in w then Some(w[e.prevHash].fields) else None
  }

  /** Blocks arrive without a state; a generated one has the state its transactions make of the previous block's. */
  predicate Enabled(w: World, rules: Rules, e: Event) {
    match e
    case Arrive(hash, entry) =>
      hash !in w && entry.fields.clientState.None? && entry.fields.status == PENDING && !entry.replayed
    case Generate(hash, prevHash, txns, _) =>
      hash !in w && prevHash in w && Replay(rules, w[prevHash].fields.clientStateHash, txns, map[], 0).Reached?
    case _ => e.hash in w
  }

  function Step(w: World, rules: Rules, e: Event): World
    requires Enabled(w, rules, e)
  {
    match e
    case Arrive(hash, entry) => w[hash := entry]
    case Load(hash, present) => w[hash := w[hash].(fields := Loaded(w[hash].fields, present))]
    case Compute(hash, cancelled, found, trouble) =>
      var b := w[hash];
      var (f, err) := Computed(b.fields, cancelled, Previous(w, b, found), b.txns, trouble, rules);
      w[hash := b.(fields := f, replayed := b.replayed || (err.None? && !IsComputed(b.fields.status)))]
    case Sync(hash, bsc, linked, merges) =>
      var b := w[hash];
      var prev := Previous(w, b, linked);
      var prevRoot := if prev.None? then None else Some(prev.value.clientStateHash);
      var (f, _) := Synced(b.fields, hash, b.changes, prevRoot, bsc, merges);
      w[hash := b.(fields := f)]
    case Inherit(hash, linked) =>
      w[hash := w[hash].(fields := Inherited(w[hash].fields, Previous(w, w[hash], linked)))]
    case Generate(hash, prevHash, txns, changes) =>
      var root := Replay(rules, w[prevHash].fields.clientStateHash, txns, map[], 0).root;
      w[hash := Entry(prevHash, txns, changes, Fields(Some(root), root, SUCCESSFUL), true)]
  }

  function Genesis(hash: string, c: Contents): World {
    map[hash := Entry("", [], 0, Fields(Some(RootOf(c)), RootOf(c), SUCCESSFUL), false)]
  }

  ghost predicate IsRun(rules: Rules, start: World, worlds: seq<World>, events: seq<Event>) {
    && |worlds| == |events| + 1
    && worlds[0] == start
    && forall i :: 0 <= i < |events| ==> IsStep(worlds[i], rules, events[i], worlds[i + 1])
  }

  ghost predicate IsStep(w: World, rules: Rules, e: Event, w': World) {
    Enabled(w, rules, e) && w' == Step(w, rules, e)
  }

  ghost predicate Reachable(rules: Rules, start: World, w: World) {
    exists worlds, events :: IsRun(rules, start, worlds, events) && worlds[|events|] == w
  }

  // ---------------------------------------------------------------- what every step keeps

  /** A block with a computed state has the state whose root it announces. */
  ghost predicate Sound(w: World) {
    forall h :: h in w ==> FieldsSound(w[h].fields)
  }

  predicate FieldsSound(f: Fields) {
    && (IsComputed(f.status) ==> f.clientState.Some?)
    && (f.clientState.Some? ==> f.clientState.value == f.clientStateHash)
  }

  /** A replayed block's announced root is what its transactions make of the previous block's. */
  ghost predicate Replays(w: World, rules: Rules) {
    forall h :: h in w && w[h].replayed ==> ReplayLinked(w, rules, h)
  }

  ghost predicate ReplayLinked(w: World, rules: Rules, h: string)
    requires h in w
  {
    var b := w[h];
    && b.prevHash in w
    && RunFrom(rules, w[b.prevHash].fields.clientStateHash, b.txns) == Some(b.fields.clientStateHash)
  }

  /** Nothing but the state and its status ever changes, and the announced root does not. */
  ghost predicate Keeps(w: World, w': World) {
    forall h :: h in w ==>
      h in w' && w'[h].prevHash == w[h].prevHash && w'[h].txns == w[h].txns &&
      w'[h].fields.clientStateHash == w[h].fields.clientStateHash && (w[h].replayed ==> w'[h].replayed)
  }

  lemma StepKeeps(w: World, rules: Rules, e: Event)
    requires Enabled(w, rules, e)
    ensures Keeps(w, Step(w, rules, e))
  {
    hide Replay;
  }

  lemma StepKeepsSound(w: World, rules: Rules, e: Event)
    requires Sound(w) && Enabled(w, rules, e)
    ensures Sound(Step(w, rules, e))
  {
    hide Replay;
  }

  lemma StepKeepsReplays(w: World, rules: Rules, e: Event)
    requires Replays(w, rules) && Enabled(w, rules, e)
    ensures Replays(Step(w, rules, e), rules)
  {
    hide Replay, Step;
    StepKeeps(w, rules, e);
    var w' := Step(w, rules, e);
    forall h | h in w' && w'[h].replayed ensures ReplayLinked(w', rules, h) {
      if h in w && w[h].replayed {
        assert ReplayLinked(w, rules, h);
      } else {
        NewlyReplayed(w, rules, e, h);
      }
    }
  }

  lemma NewlyReplayed(w: World, rules: Rules, e: Event, h: string)
    requires Enabled(w, rules, e) && h in Step(w, rules, e) && Step(w, rules, e)[h].replayed
    requires h in w ==> !w[h].replayed
    ensures ReplayLinked(Step(w, rules, e), rules, h)
  {
    hide Replay;
    if e.Generate? {
      var w' := Step(w, rules, e);
      var b := w'[h];
      assert h == e.hash && w'[b.prevHash] == w[b.prevHash];
      var none: map<nat, Trouble> := map[];
      ReplayReachesExactly(rules, w[b.prevHash].fields.clientStateHash, b.txns, none, 0, b.fields.clientStateHash);
    } else {
      assert e.Compute? && h == e.hash;
      var b := w[h];
      ComputeSucceedsExactly(b.fields, e.cancelled, Previous(w, b, e.found), b.txns, e.trouble, rules);
    }
  }

  /** A block whose announced root is what its transactions make of its computed parent's can be computed. */
  lemma RightRootIsComputed(w: World, rules: Rules, h: string)
    requires Sound(w) && h in w && !IsComputed(w[h].fields.status)
    requires w[h].prevHash in w && w[h].prevHash != h && IsComputed(w[w[h].prevHash].fields.status)
    requires RunFrom(rules, w[w[h].prevHash].fields.clientStateHash, w[h].txns) == Some(w[h].fields.clientStateHash)
    ensures var b := Step(w, rules, Compute(h, false, true, map[]))[h];
            b.replayed && b.fields == Fields(Some(w[h].fields.clientStateHash), w[h].fields.clientStateHash, SUCCESSFUL)
  {
    hide Replay, RunFrom;
    var b, none: map<nat, Trouble> := w[h], map[];
    ComputeSucceedsExactly(b.fields, false, Previous(w, b, true), b.txns, none, rules);
  }

  lemma {:induction false} RunInvariant(rules: Rules, start: World, worlds: seq<World>, events: seq<Event>, n: nat)
    requires Sound(start) && Replays(start, rules) && IsRun(rules, start, worlds, events) && n < |worlds|
    ensures Sound(worlds[n]) && Replays(worlds[n], rules) && Keeps(start, worlds[n])
  {
    hide Step, Sound, Replays;
    if n > 0 {
      RunInvariant(rules, start, worlds, events, n - 1);
      assert IsStep(worlds[n - 1], rules, events[n - 1], worlds[n]);
      StepKeeps(worlds[n - 1], rules, events[n - 1]);
      StepKeepsSound(worlds[n - 1], rules, events[n - 1]);
      StepKeepsReplays(worlds[n - 1], rules, events[n - 1]);
    }
  }

  /** In every reachable state of a node, computed means: the state is there and has the announced root. */
  lemma ReachableIsSound(rules: Rules, g: string, c: Contents, w: World)
    requires Reachable(rules, Genesis(g, c), w)
    ensures Sound(w) && Replays(w, rules)
    ensures g in w && w[g].fields.clientStateHash == RootOf(c)
  {
    hide Step, Replays;
    assert Replays(Genesis(g, c), rules) by { GenesisReplays(rules, g, c); }
    var worlds, events :| IsRun(rules, Genesis(g, c), worlds, events) && worlds[|events|] == w;
    RunInvariant(rules, Genesis(g, c), worlds, events, |events|);
  }

  lemma GenesisReplays(rules: Rules, g: string, c: Contents)
    ensures Replays(Genesis(g, c), rules)
  {
  }

  // ---------------------------------------------------------------- chains

  /** `chain` leads from genesis to its last block, each block naming the one before. */
  predicate IsChain(w: World, g: string, chain: seq<string>) {
    && chain != [] && chain[0] == g
    && (forall i :: 0 <= i < |chain| ==> chain[i] in w)
    && (forall i :: 0 < i < |chain| ==> w[chain[i]].prevHash == chain[i - 1])
  }

  /** The transactions of the blocks after genesis, in chain order. */
  function ChainTxns(w: World, chain: seq<string>): seq<Txn>
    requires chain != [] && forall i :: 0 <= i < |chain| ==> chain[i] in w
  {
    if |chain| == 1 then [] else ChainTxns(w, chain[..|chain| - 1]) + w[chain[|chain| - 1]].txns
  }

  /** If every block back to genesis was computed, the announced root is that of all their transactions in order. */
  lemma {:induction false} ChainReplay(rules: Rules, g: string, c: Contents, w: World, chain: seq<string>)
    requires g in w && w[g].fields.clientStateHash == RootOf(c) && Replays(w, rules) && IsChain(w, g, chain)
    requires forall i :: 0 < i < |chain| ==> w[chain[i]].replayed
    ensures RunAll(rules, c, ChainTxns(w, chain)).Some?
    ensures w[chain[|chain| - 1]].fields.clientStateHash == RootOf(RunAll(rules, c, ChainTxns(w, chain)).value)
  {
    hide Replay, RunAll;
    if |chain| == 1 {
      RunNothing(rules, c);
    } else {
      var front, last := chain[..|chain| - 1], chain[|chain| - 1];
      assert IsChain(w, g, front);
      ChainReplay(rules, g, c, w, front);
      assert ReplayLinked(w, rules, last);
      var mid := RunAll(rules, c, ChainTxns(w, front)).value;
      assert w[w[last].prevHash].fields.clientStateHash == RootOf(mid);
      RunAllConcat(rules, c, ChainTxns(w, front), w[last].txns);
    }
  }

  lemma RunNothing(rules: Rules, c: Contents)
    ensures RunAll(rules, c, []) == Some(c)
  {
  }

  /** A computed block's state is the replay of the whole chain, when every block back to genesis was computed. */
  lemma ComputedStateIsReplay(rules: Rules, g: string, c: Contents, w: World, chain: seq<string>)
    requires Reachable(rules, Genesis(g, c), w) && IsChain(w, g, chain)
    requires forall i :: 0 < i < |chain| ==> w[chain[i]].replayed
    requires IsComputed(w[chain[|chain| - 1]].fields.status)
    ensures RunAll(rules, c, ChainTxns(w, chain)).Some?
    ensures w[chain[|chain| - 1]].fields.clientState == Some(RootOf(RunAll(rules, c, ChainTxns(w, chain)).value))
  {
    hide RunAll, Replays;
    ReachableIsSound(rules, g, c, w);
    ChainReplay(rules, g, c, w, chain);
    assert FieldsSound(w[chain[|chain| - 1]].fields);
  }

  /**
   A node that got a block's state in any way, by sync or from its store, has the state that another
   node, which computed every block back to genesis, reached by replay.
   */
  lemma SyncedEqualsComputed(rules: Rules, g: string, c: Contents, w: World, chain: seq<string>, start: World,
                             other: World)
    requires Reachable(rules, Genesis(g, c), w) && IsChain(w, g, chain)
    requires forall i :: 0 < i < |chain| ==> w[chain[i]].replayed
    requires Sound(start) && Replays(start, rules) && Reachable(rules, start, other)
    requires var h := chain[|chain| - 1];
             h in other && IsComputed(other[h].fields.status) &&
             other[h].fields.clientStateHash == w[h].fields.clientStateHash
    ensures RunAll(rules, c, ChainTxns(w, chain)).Some?
    ensures other[chain[|chain| - 1]].fields.clientState == Some(RootOf(RunAll(rules, c, ChainTxns(w, chain)).value))
  {
    hide RunAll, Replays, Step;
    ReachableIsSound(rules, g, c, w);
    ChainReplay(rules, g, c, w, chain);
    var worlds, events :| IsRun(rules, start, worlds, events) && worlds[|events|] == other;
    RunInvariant(rules, start, worlds, events, |events|);
    assert FieldsSound(other[chain[|chain| - 1]].fields);
  }
}
