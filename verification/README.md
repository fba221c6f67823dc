# Verified model of 0chain's block production and synchronisation

This project models, in Dafny, the parts of the 0chain node that decide how blocks are assembled,
fetched, verified and given their state, and proves what every run of them keeps:

- **Block assembly** (`Sorting`, `Transactions`, `ClientNonces`, `Parking`, `AssemblyBooks`, `AssemblyProgress`,
  `BlockAssembly`): pool transactions in any order are executed, parked by nonce, released into a queue that grows and is sorted
  while it is walked by index, and completed by built-in transactions.
- **Block fetcher** (`BlockFetcher`, `FetchRuns`, `FetchAnswers`): one worker, two semaphores, requests coalesced by hash
  or by round, with all interleavings of callers, fetch goroutines and tickets.
- **Binary codecs** (`MsgPack`, `KeyOrder`, `MpksCodec`, `LfbRoundCodec`).
- **Block state** (`BlockState`): states loaded, computed by replay, inherited, generated or synced, over
  all runs of a node.
- **Random beacon and round seed** (`RandomBeacon`, `BeaconRuns`, `BeaconAgreement`, `BeaconStalls`,
  `BeaconShares`, `RoundSeed`): threshold shares with caches, restarts, deletions, and the rules by which received and
  notarized blocks set or replace a seed.
- **Verification loop** (`VerificationLoop`), **key generation phases** (`DkgPhases`, `DkgProgress`), **chain history**
  (`ChainHistory`), **verification tickets** (`VerificationTickets`) and **genesis balances** (`Genesis`).

Code that changes objects step by step is modelled by classes and loops, each proved against a function
of the old state; the functions make up the step systems over which the whole-run theorems are stated.
`dafny verify dfyconfig.toml` verifies all files.

## Properties that the code meets only under a condition

- A waiter by round is lost when a request by hash for the same round ends first (`FetchRuns.LostExactly`,
  `FetchRuns.LostInRun`, example `FetchRuns.RoundWaiterCanBeLost`).
- A fetch-table entry is left with no fetch when a by-round fetch brings a block of another round
  (`FetchRuns.BackedExactly`, example `FetchRuns.EntryCanBeOrphaned`).
- "The round's seed is the seed of one of its notarized blocks" fails when a block of the same rank
  displaces the only one that has it (`RoundSeed.NotarizationHoldsSeedExactly`, example
  `RoundSeed.SeedCanBeDisplaced`).
- "Publish has its key generation" fails when `Wait` cleared it and its transaction was not confirmed
  (`DkgPhases.PublishLosesDkgExactly`, example `DkgPhases.PublishCanLoseDkg`).
- Distinct verifiers after a merge, and merging only unknown tickets, need good input when the block has no
  tickets (`VerificationTickets.MergeKeepsGoodExactly`, `VerificationTickets.MergeUnknownExactly`, example
  `VerificationTickets.EmptyTakesRepetition`).
- Genesis balances sum to the supply only if no id with tokens is written twice
  (`Genesis.GenesisSumsExactly`, example `Genesis.RepeatedClientLosesTokens`).
- The history lookup misses a transaction when a block after it is dated too old
  (`ChainHistory.EarlyExitMissesExactly`, example `ChainHistory.EarlyExitNeedsOrder`).
- Miners at the same timeout counts agree on a round's seed as long as every seed taken from a block is one that
  the round's message recovers, nothing later hangs on a seed that is replaced, and no round is restarted whose
  successor has a seed (`BeaconRuns.StepKeepsGoodExactly`, `BeaconAgreement.Agreement`). A block whose tickets
  are not verified yet already gives its seed to a round without one, so one sender can make two miners differ
  (`BeaconAgreement.OfferAgreesExactly`, example `BeaconAgreement.OffersCanSplitMiners`).
- A beacon round with enough shares has no seed when parked shares fill the threshold and the arriving share
  does not verify (`BeaconStalls.StallsExactly`, `BeaconStalls.NoStallInRun`, example
  `BeaconStalls.RoundCanStall`).

The history lookup `chainHasTransaction` has no caller in the node. What keeps transactions from being
included twice is the nonce check (`ChainHistory.NoTransactionTwice`).

## What is assumed

- Time, timers, the network, stores and other goroutines enter as parameters or events
  (`Surroundings`, `World`, `Answers`, `Verdict`, `Outside`); a handler call is one atomic step.
- Executing a transaction either fails without effect or sets the sender's nonce to the transaction's and no
  other client's; state lookup answers present, absent or a fault (`ClientNonces.Execute`,
  `AssemblyBooks.UpdateState`). A transaction's estimated cost depends only on its payload
  (`Config.costOf`). The pool delivers no transaction twice; that every
  executable transaction is included is stated for transactions with keys of their own. Nonces do not overflow
  and are not negative.
- A state trie's root determines its contents; executing a transaction is a function of it and the contents.
- Threshold signatures: enough valid shares for one message recover one value
  (`BeaconAgreement.UniqueRecovery`). The signed text is the round, the timeout count and the previous seed written
  without separators (code/go/0chain.net/miner/protocol_bls.go:176), so two messages can have one text, as round 1
  with timeout 11 and round 11 with timeout 1; the model keeps such messages apart. Shares for rounds before the
  current one are rejected on arrival, so none reaches a round that was deleted; the same is assumed of blocks,
  and none is taken for genesis. A restart goes to the current round or the one after the last finalized
  block (code/go/0chain.net/miner/m_handler.go:158-246, code/go/0chain.net/miner/protocol_round.go:1641-1661).
- A block fetched by hash has that hash; block hashes never look like decimal round numbers, so the two kinds
  of table key are kept apart.
- A block's hash fixes its seed and timeout count; in the verification loop ranks are fixed.
- Percentages are exact, not floating point.

## Model

| member | source | states |
|---|---|---|
| `Transactions.StableSortSorted` | code/go/0chain.net/miner/protocol_block.go:742-748 | Sorting by nonce, and by fee within a nonce, leaves no transaction before a smaller one. |
| `Transactions.StableSortKeepsPeers` | code/go/0chain.net/miner/protocol_block.go:876 | Sorting keeps transactions that compare equal in the order they had. |
| `Transactions.StableSortIsTheStableOrder` | code/go/0chain.net/miner/protocol_block.go:742-748 | The sorted list is the only ordered permutation that keeps equal transactions in place, so any stable sort gives it. |
| `Transactions.SortKeepsPrefix` | code/go/0chain.net/miner/protocol_block.go:876 | If nothing in the tail belongs before the sorted front, sorting the whole leaves the front untouched and sorts the tail. |
| `ClientNonces.Execute` | code/go/0chain.net/chaincore/chain/state.go:847-884 | Executing succeeds exactly when the nonce is the sender's next one; then the sender's nonce becomes it and no other client's changes. A client without an entry counts as 0. |
| `ClientNonces.ReplayConsecutive` | code/go/0chain.net/chaincore/chain/state.go:847-884 | Whatever list of transactions a replay accepts, each client's nonces in list order are s+1, s+2, ..., s+k. |
| `ClientNonces.ConsecutiveReplays` | code/go/0chain.net/miner/protocol_block.go:707-812 | Conversely every list with consecutive nonces per client is accepted by a replay, with the same final nonces. |
| `ClientNonces.ConsecutiveConcat` | code/go/0chain.net/chaincore/chain/state.go:847-884 | Lists executed one after the other have consecutive nonces as one list. |
| `ClientNonces.NoNonceTwice` | code/go/0chain.net/chaincore/chain/state.go:847-860 | In an executed list no client uses a nonce twice: later ones are larger. |
| `Parking.ReleaseConserves` | code/go/0chain.net/miner/protocol_block.go:846-889 | Past, queued and still parked transactions together are exactly the parked list: nothing lost, nothing doubled. |
| `Parking.ReleaseIsARun` | code/go/0chain.net/miner/protocol_block.go:861-874 | The queued transactions carry the nonces n+1, n+2, ... after the included nonce n, without gap or repeat. |
| `Parking.ReleaseSplitsByNonce` | code/go/0chain.net/miner/protocol_block.go:861-880 | On a sorted list what stays parked is the rear part, all of it beyond the next nonce; what is past is at or below the last queued nonce. |
| `Parking.ReleasePicksBestFee` | code/go/0chain.net/miner/protocol_block.go:742-748 | Among parked transactions of one nonce the one released has the highest fee. |
| `Parking.VisitedStay` | code/go/0chain.net/miner/protocol_block.go:876 | Entries at or before the current index keep their place when released transactions are appended and sorted in; the rest is a permutation of the old rest and the released ones. |
| `Parking.ReleaseKeepsQueue` | code/go/0chain.net/miner/protocol_block.go:846-889 | A release keeps the queue sorted and free of repetition, keeps parked transactions out of its unvisited part, and does not move visited entries. |
| `AssemblyBooks.Validate` | code/go/0chain.net/miner/protocol_block.go:143-174 | Exactly which of next, past, future, out of time or lookup failure a transaction is, in terms of the state nonce and the time tolerance. |
| `AssemblyBooks.AfterInclusion` | code/go/0chain.net/miner/protocol_block.go:792-810 | An inclusion keeps every parked list sorted and beyond reach, keeps the queue walkable, fixes visited entries, and adds nothing to what is pending. |
| `AssemblyBooks.ParkingKeepsLists` | code/go/0chain.net/miner/protocol_block.go:732-749 | Parking keeps each client's list sorted, its own, and beyond the executable nonce. |
| `AssemblyBooks.ReadyAdvance` | code/go/0chain.net/miner/protocol_block.go:1162-1164 | The next queue entry is neither parked nor queued again, and no visited entry has a larger nonce. |
| `AssemblyBooks.PendingAdvance` | code/go/0chain.net/miner/protocol_block.go:1162-1193 | The measure by which the walk ends: parked and unvisited transactions shrink on an inclusion and never grow otherwise. |
| `AssemblyBooks.TooFarIsTooFar` | code/go/0chain.net/miner/protocol_block.go:1073-1086 | Every transaction of a dropped list is more than the allowed distance ahead of its client's nonce. |
| `AssemblyProgress.ReleaseCovers` | code/go/0chain.net/miner/protocol_block.go:861-874 | A parked transaction that an inclusion passes over is at or below the included nonce, or another one of its nonce is released. |
| `AssemblyProgress.CoveredAfterInclusion` | code/go/0chain.net/miner/protocol_block.go:792-810 | After an inclusion every delivered transaction that was accounted for still is: past, parked, or one of its client and nonce waits in the queue. |
| `AssemblyProgress.ProgressStep` | code/go/0chain.net/miner/protocol_block.go:707-812 | Handling any transaction without a fault keeps every delivered transaction within time accounted for. |
| `AssemblyProgress.SteadyAfterInclusion` | code/go/0chain.net/miner/protocol_block.go:846-889 | An inclusion keeps the queue without a gap, and the nonce each parked list counts from is reached or will be by a queued transaction. |
| `AssemblyProgress.WalkedIsComplete` | code/go/0chain.net/miner/protocol_block.go:1158-1193 | Once the queue is walked to its end, no delivered transaction within time has its client's next nonce, those beyond it are parked, and parked lists count from their client's nonce. |
| `AssemblyProgress.NoGapIsIncluded` | code/go/0chain.net/miner/protocol_block.go:1158-1193 | Hence delivered transactions that follow a client's state without a gap are in the block, one for each nonce. |
| `AssemblyProgress.DroppedExactly` | code/go/0chain.net/miner/protocol_block.go:1067-1086 | Then a parked transaction is dropped if and only if all parked ones of its client are further ahead of its nonce than allowed. |
| `AssemblyProgress.RoomForAll` | code/go/0chain.net/miner/protocol_block.go:978-1016 | Room for the whole pool is room for every choice from it, which is what the limits are tested against. |
| `BlockAssembly.TxnIterInfo.CheckForCurrent` | code/go/0chain.net/miner/protocol_block.go:846-889 | The loop over the parked list performs exactly one release and files past transactions. |
| `BlockAssembly.TxnIterInfo.Park` | code/go/0chain.net/miner/protocol_block.go:732-749 | The client's list gains the transaction in (nonce, fee) order and its nonce does not fall behind the state. |
| `BlockAssembly.TxnIterInfo.ParkFuture` | code/go/0chain.net/miner/protocol_block.go:732-749 | Parking leaves the generator's invariant intact and adds only this transaction to what is pending. |
| `BlockAssembly.TxnIterInfo.SetAside` | code/go/0chain.net/miner/protocol_block.go:721-764 | A past, future or out-of-time transaction changes only its own list; the invariant holds. |
| `BlockAssembly.TxnIterInfo.Include` | code/go/0chain.net/miner/protocol_block.go:792-810 | An executed transaction extends the block, all books agree, and its successors are released. |
| `BlockAssembly.TxnIterInfo.ProcessTxn` | code/go/0chain.net/miner/protocol_block.go:707-812 | A transaction is included exactly if its key is new, it is within time, its nonce is the client's next, its state can be looked up and its execution does not fail; it is then at the end of the block and its successors are released. Otherwise it is filed as past, parked or invalid exactly by nonce and date, or changes nothing; when it stops the iteration is stated too. The invariant is kept on every branch. |
| `BlockAssembly.TxnIterInfo.HandlePoolItem` | code/go/0chain.net/miner/protocol_block.go:902-1019 | The early refusals and interruptions; the cost equation and limit and the time window are kept by one pool delivery; without a disturbance the iteration goes on and no delivered transaction is left out of account. |
| `BlockAssembly.TxnIterInfo.PoolPass` | code/go/0chain.net/miner/protocol_block.go:902-1019 | After the pool was delivered in any order, block, parked lists and queue are consistent and hold only delivered transactions. |
| `BlockAssembly.TxnIterInfo.QueuePass` | code/go/0chain.net/miner/protocol_block.go:1158-1193 | The walk by index ends; the transactions tried are the front of the final queue, none twice; block size grows by the count of successes; without a disturbance the whole queue is tried. |
| `BlockAssembly.TxnIterInfo.TooFarAhead` | code/go/0chain.net/miner/protocol_block.go:1067-1086 | Exactly the transactions of lists whose first entry is too far ahead are dropped. |
| `BlockAssembly.CollectTxns` | code/go/0chain.net/miner/protocol_block.go:1105-1202 | Both passes together: consecutive nonces, cost accounting, distinct keys, and the final cut of the slices removes nothing. Without faults and with room for all, it succeeds and no delivered transaction within time has its client's next nonce. |
| `BlockAssembly.BuiltInCost` | code/go/0chain.net/miner/protocol_block.go:1370-1380 | The cost of the built-in transactions is their sum; it fails exactly if an estimate fails, with the first such fault. |
| `BlockAssembly.AddBuiltIns` | code/go/0chain.net/miner/protocol_block.go:1204-1255 | Built-ins extend the block, keep nonces consecutive, change only the miner's nonce and add at most their estimated cost; without faults all of them are added, in order, at the miner's next nonces. |
| `BlockAssembly.GenerateBlock` | code/go/0chain.net/miner/protocol_block.go:1025-1325 | A finished block has, per client and built-ins included, exactly the nonces s+1..s+k over the previous state; no pool transaction twice; its date is not before the previous block's; every dropped parked transaction is beyond the allowed future nonce. Without faults and with room for all, whatever the order of the pool: no delivered transaction within time has its client's next nonce, those beyond a gap are parked, exactly the clients whose parked transactions are all too far ahead have them dropped, and all built-ins are in the block. |
| `BlockAssembly.GoodBlockFits` | code/go/0chain.net/miner/protocol_block.go:345-376 | A finished block with a pool transaction, or with built-in cost within the limit, is within the verifier's cost limit. |
| `BlockAssembly.DroppedOutOfReach` | code/go/0chain.net/miner/protocol_block.go:1073-1086 | Dropped transactions are further ahead of their client's nonce than allowed. |
| `BlockAssembly.VerifyCost` | code/go/0chain.net/miner/protocol_block.go:345-376 | The loop answers unknown exactly if an estimate failed, and otherwise compares the sum with the limit. |
| `BlockAssembly.GeneratedIsNotTooBig` | code/go/0chain.net/miner/protocol_block.go:371-376 | A generated block is found too big only if it holds no pool transaction and its built-in cost exceeds the limit. |
| `BlockFetcher.FetchWorker.HandleRequest` | code/go/0chain.net/chaincore/chain/block_fetcher.go:170-218 | A request joins the entry of its key, is refused when the table is full, or is inserted and its fetch started. |
| `BlockFetcher.FetchWorker.HandleReply` | code/go/0chain.net/chaincore/chain/block_fetcher.go:220-278 | A result is matched by hash, then by round; it ends the entry, removes both keys and answers its waiters, or sends it to sharders once. |
| `FetchRuns.StepKeepsWaiters` | code/go/0chain.net/chaincore/chain/block_fetcher.go:170-278 | Every step keeps the ledger: each submitted waiter is under exactly one key, or answered once, or lost. |
| `FetchRuns.StepKeepsSlots` | code/go/0chain.net/chaincore/chain/block_fetcher.go:101-114 | Every step keeps the table within fm+fs entries and the fetches holding slots within fm and fs, also when a handler takes the slot that the delivering goroutine gives back while it waits. |
| `FetchRuns.StepKeepsStarts` | code/go/0chain.net/chaincore/chain/block_fetcher.go:186-277 | Every step keeps: each request object has started at most one miner fetch and at most one sharder fetch, also when stale replies arrive. |
| `FetchRuns.SharderErrorIsAlwaysHandled` | code/go/0chain.net/chaincore/chain/block_fetcher.go:270-277 | The error of a sharder fetch, stale or not, can always be handled: the slot it may need is at the latest its own. |
| `FetchRuns.StaleErrorReusesItsSlot` | code/go/0chain.net/chaincore/chain/block_fetcher.go:270-277 | A stale sharder error that a younger request takes as its own starts that request's one sharder fetch within the limits. |
| `FetchRuns.RunInvariant` | code/go/0chain.net/chaincore/chain/block_fetcher.go:148-280 | All three hold in every state of every run. |
| `FetchRuns.LostExactly` | code/go/0chain.net/chaincore/chain/block_fetcher.go:220-268 | A step loses a waiter exactly when it waits by round and a reply matched to a hash-keyed request of the same round ends that request. |
| `FetchRuns.LostInRun` | code/go/0chain.net/chaincore/chain/block_fetcher.go:220-268 | In any run a waiter is lost if and only if some step overtook it in this way. |
| `FetchRuns.AnswersFit` | code/go/0chain.net/chaincore/chain/block_fetcher.go:222-241 | A waiter that is sent a block is sent one with its hash or its round. |
| `FetchRuns.BackedExactly` | code/go/0chain.net/chaincore/chain/block_fetcher.go:220-278 | An entry is left without a fetch to wait for exactly when its own by-round fetch brings a block of another round. |
| `FetchRuns.BackedInRun` | code/go/0chain.net/chaincore/chain/block_fetcher.go:220-278 | In runs without such a reply every entry always has its own fetch still to deliver. |
| `FetchRuns.RoundWaiterCanBeLost` | code/go/0chain.net/chaincore/chain/block_fetcher.go:232-241 | For every hash and round: a request by round, one by hash for the same round, and its block lose the first waiter. |
| `FetchRuns.EntryCanBeOrphaned` | code/go/0chain.net/chaincore/chain/block_fetcher.go:220-241 | For every two different rounds: a request by round answered with a block of the other round stays in the table with no fetch. |
| `FetchAnswers.ToldExactly` | code/go/0chain.net/chaincore/chain/block_fetcher.go:170-278 | In a step a waiter is told a block exactly if that block arrives for its entry, an error exactly if one arrives and sharders were asked or cannot have the round, queue full exactly if its request meets a full table; no answer is taken back. |
| `FetchAnswers.GoesToShardersExactly` | code/go/0chain.net/chaincore/chain/block_fetcher.go:245-277 | An entry goes to sharders exactly if an error arrives for it, they were not asked and the latest ticket has reached its round; its one sharder fetch then runs. |
| `FetchAnswers.ToldInRun` | code/go/0chain.net/chaincore/chain/block_fetcher.go:170-278 | In every run exactly the answered waiters have an answer, and it is the one that some step gave. |
| `FetchAnswers.AnsweredWhatItAsked` | code/go/0chain.net/chaincore/chain/block_fetcher.go:222-241 | In every run a waiter that is told a block asked for its hash, or by round for its round. |
| `MsgPack.HeaderRoundTrip` | code/go/0chain.net/chaincore/block/mpk_gen.go:95 | A str, bin, array or map header (MessagePack specification, "Formats") followed by anything reads back as its length and the rest. |
| `MsgPack.HeaderIsShortest` | code/go/0chain.net/chaincore/block/mpk_gen.go:95 | No shorter header of the family reads back as the length. |
| `MsgPack.StringRoundTrip` | code/go/0chain.net/chaincore/block/mpk_gen.go:103 | An encoded string followed by anything reads back as the string and the rest. |
| `MsgPack.Int64RoundTrip` | code/go/0chain.net/chaincore/chain/lfb_round_node_gen.go:15 | Every 64-bit integer reads back from its shortest signed form. |
| `MsgPack.Int64IsShortest` | code/go/0chain.net/chaincore/chain/lfb_round_node_gen.go:15 | No shorter signed form reads back as the integer. |
| `MsgPack.SkipObject` | code/go/0chain.net/chaincore/block/mpk_gen.go:69 | Skipping passes over exactly one object of any format, nested ones included, whatever follows. |
| `KeyOrder.SortKeysSorted` | code/go/0chain.net/chaincore/block/mpk_gen.go:100 | Sorting puts keys in byte order. |
| `KeyOrder.SortedUnique` | code/go/0chain.net/chaincore/block/mpk_gen.go:100 | A collection of keys has only one sorted order. |
| `MpksCodec.MpkRoundTrip` | code/go/0chain.net/chaincore/block/mpk_gen.go:26-78 | Decoding an encoded record gives the record and exactly the bytes after it, whatever the receiver held. |
| `MpksCodec.FieldsRoundTrip` | code/go/0chain.net/chaincore/block/mpk_gen.go:35-75 | Any list of fields decodes one after the other: a later one replaces an earlier, an unknown one changes nothing. |
| `MpksCodec.FieldOrderDoesNotMatter` | code/go/0chain.net/chaincore/block/mpk_gen.go:35-75 | A record with its fields in any order and any unknown fields among them decodes to the same record. |
| `MpksCodec.MpksRoundTrip` | code/go/0chain.net/chaincore/block/mpk_gen.go:90-233 | Decoding an encoded map of optional records, its entries in any order, gives the map and exactly the bytes after it, whatever the receiver held. |
| `MpksCodec.EncodingIgnoresMapOrder` | code/go/0chain.net/chaincore/block/mpk_gen.go:96-118 | The encoding does not depend on the order in which the runtime enumerates the map. |
| `MpksCodec.MpkFitsItsSize` | code/go/0chain.net/chaincore/block/mpk_gen.go:81-87 | The encoding of a record is never longer than its size estimate. |
| `MpksCodec.MpksFitsItsSize` | code/go/0chain.net/chaincore/block/mpk_gen.go:236-253 | The encoding of a map is never longer than its size estimate, whatever orders the two loops take. |
| `MpksCodec.MarshalMpk` | code/go/0chain.net/chaincore/block/mpk_gen.go:10-23 | The append loop writes the encoding after the given buffer. |
| `MpksCodec.MsgsizeMpk` | code/go/0chain.net/chaincore/block/mpk_gen.go:81-87 | The loop adds up the size estimate, which bounds the encoding. |
| `MpksCodec.UnmarshalStrings` | code/go/0chain.net/chaincore/block/mpk_gen.go:61-67 | The array loop reads the given number of strings or reports the first error. |
| `MpksCodec.UnmarshalMpk` | code/go/0chain.net/chaincore/block/mpk_gen.go:26-78 | The count-down loop decodes the fields in any order, skips unknown ones, and reports the first error. |
| `MpksCodec.Mpks.MarshalMsg` | code/go/0chain.net/chaincore/block/mpk_gen.go:90-120 | Whatever enumeration the runtime chose, the bytes written are those of the entries in sorted order. |
| `MpksCodec.Mpks.Msgsize` | code/go/0chain.net/chaincore/block/mpk_gen.go:236-253 | The loop over the map gives the same size for every enumeration, and it bounds the encoding. |
| `MpksCodec.Mpks.UnmarshalEntries` | code/go/0chain.net/chaincore/block/mpk_gen.go:142-222 | The old entries are cleared, then the given number of entries, nil or record, are read in; after an error those before it are there. |
| `MpksCodec.Mpks.UnmarshalMsg` | code/go/0chain.net/chaincore/block/mpk_gen.go:123-233 | The receiver, also after an error, and the remaining bytes or the first error are those of the decoding function. |
| `LfbRoundCodec.RoundTrip` | code/go/0chain.net/chaincore/chain/lfb_round_node_gen.go:10-62 | Decoding an encoded round and hash gives them back and exactly the bytes after them. |
| `LfbRoundCodec.FitsItsSize` | code/go/0chain.net/chaincore/chain/lfb_round_node_gen.go:65-68 | The encoding is never longer than the size estimate. |
| `LfbRoundCodec.Receiver.UnmarshalMsg` | code/go/0chain.net/chaincore/chain/lfb_round_node_gen.go:23-62 | The decoding loop sets the receiver's fields as decoded or reports the first error. |
| `BlockState.Block.InitStateDB` | code/go/0chain.net/chaincore/block/entity.go:350-359 | The state is the one of the announced root, or the status is failed and the state is unchanged. |
| `BlockState.Block.ComputeState` | code/go/0chain.net/chaincore/block/entity.go:835-1040 | All outcomes of computing: which error, which status, on success the replay of the block's transactions on the previous state, and which previous block it is linked to afterwards. The later checks on the previous block are shown to be dead. |
| `BlockState.Block.InheritState` | code/go/0chain.net/chaincore/chain/state_sync.go:37-53 | A block with the previous block's root takes over its state and status if that is computed. |
| `BlockState.Block.ApplyBlockStateChange` | code/go/0chain.net/chaincore/block/entity.go:1064-1133 | All outcomes of applying a change set, including the empty one that changes nothing and reports no error. |
| `BlockState.ComputeSucceedsExactly` | code/go/0chain.net/chaincore/block/entity.go:835-1040 | Computing succeeds if and only if the previous block is computed, nothing strikes and the transactions make the announced root of the previous state; a failure leaves state and root unchanged. |
| `BlockState.ComputeFailsExactly` | code/go/0chain.net/chaincore/block/entity.go:835-1016 | Which error an attempt ends with, each if and only if its cause is there, and which status each leaves: failed, cancelled or unchanged. |
| `BlockState.RightRootIsComputed` | code/go/0chain.net/chaincore/block/entity.go:919-1021 | In a node, a block whose announced root is what its transactions make of its computed parent's state can be computed. |
| `BlockState.LoadedExactly` | code/go/0chain.net/chaincore/block/entity.go:350-359 | Loading makes a block computed if and only if the store has the announced root, which is then its state. |
| `BlockState.SyncSucceedsExactly` | code/go/0chain.net/chaincore/block/entity.go:1064-1133 | Exactly when a change set gives a state, and exactly when it reports success without giving one; otherwise nothing changes. The latter needs a set without a root, which no caller passes: what they fetch is refused without one (code/go/0chain.net/chaincore/chain/state_sync.go:304-313). |
| `BlockState.StepKeepsSound` | code/go/0chain.net/chaincore/block/entity.go:350-373 | Every step keeps: a computed block has a state, and any state it has is that of the announced root. |
| `BlockState.RunInvariant` | code/go/0chain.net/chaincore/block/entity.go:835-1133 | Along any run the announced root, the transactions and the link of a block never change, and replayed blocks stay linked by replay. |
| `BlockState.ReachableIsSound` | code/go/0chain.net/chaincore/block/entity.go:350-373 | In every reachable state of a node, status computed means that the state's root is the announced one. |
| `BlockState.ReplayReachesExactly` | code/go/0chain.net/chaincore/block/entity.go:919-1001 | A replay reaches a root if and only if nothing strikes at any of its transactions and their meaning, executed in order, is that root. |
| `BlockState.ReplayStopsExactly` | code/go/0chain.net/chaincore/block/entity.go:945-987 | It is stopped if and only if everything before the first trouble executes, and then by that trouble. |
| `BlockState.ReplayFailsExactly` | code/go/0chain.net/chaincore/block/entity.go:988-998 | It fails if and only if some transaction does not execute after all before it did undisturbed. |
| `BlockState.ComputedStateIsReplay` | code/go/0chain.net/chaincore/block/entity.go:803-825 | If every block back to genesis was computed, a block's state is the replay of all their transactions in chain order. |
| `BlockState.SyncedEqualsComputed` | code/go/0chain.net/chaincore/block/entity.go:1064-1133 | A node that got the state by sync or from its store has the state another node computed by replaying the whole chain. |
| `RandomBeacon.Beacon.HandleVRFShare` | code/go/0chain.net/miner/protocol_receive.go:18-40 | A share of a future round is parked; any other goes through the checks for its round. |
| `RandomBeacon.Beacon.AddVRFShare` | code/go/0chain.net/miner/protocol_bls.go:231-311 | All branches: no keys, other timeout count, repeated party, threshold reached, message not ready, invalid share, joined; and the seed once enough shares are there. |
| `RandomBeacon.VerifyCachedVRFShares` | code/go/0chain.net/miner/protocol_bls.go:352-383 | Parked shares of the round's timeout count that verify join in the order tried and leave the cache. |
| `RandomBeacon.Beacon.HandleNotarizedBlock` | code/go/0chain.net/miner/protocol_receive.go:475-518 | A round without seed and notarized block takes the block's seed before the tickets are verified; the block itself is added only if they hold. |
| `RandomBeacon.Beacon.AddNotarizedBlockToRound` | code/go/0chain.net/chaincore/chain/entity.go:1511-1548 | Seed and timeout count follow the block if it is the round's first or of a later timeout; the round is then notarized in any case. |
| `RandomBeacon.SameRules` | code/go/0chain.net/chaincore/chain/entity.go:1527-1545 | Both rules for the seed agree with those of the round object with its list of blocks. |
| `RandomBeacon.Beacon.Restart` | code/go/0chain.net/miner/round.go:247-262 | A restarted round has no seed, no shares and no parked shares; a round with a notarized block is not restarted. |
| `RandomBeacon.Beacon.DeleteRoundsBelow` | code/go/0chain.net/chaincore/chain/entity.go:1893-1907 | The loop deletes exactly the rounds more than ten before the given one, never genesis. |
| `BeaconRuns.AddedOk` | code/go/0chain.net/miner/protocol_bls.go:231-311 | Adding a share keeps all shares of a round valid for its present message, also when the previous round is deleted; a seed is set only from enough of them. |
| `BeaconRuns.AddedSeed` | code/go/0chain.net/miner/protocol_bls.go:386-449 | Adding a share never replaces a seed and gives none to a round with a notarized block; a seed it sets is recovered from the round's own shares. |
| `BeaconRuns.ReplaceExactly` | code/go/0chain.net/miner/protocol_bls.go:151-187 | Changing one round leaves all rounds in order if and only if it is right itself and the next one still fits its changed message. |
| `BeaconRuns.OfferExactly` | code/go/0chain.net/miner/protocol_receive.go:488-490 | A seed taken from a block that is not verified yet keeps the invariant if and only if the round's message recovers it. |
| `BeaconRuns.AdoptExactly` | code/go/0chain.net/chaincore/chain/entity.go:1527-1541 | A notarized block that sets or replaces a seed keeps the invariant if and only if the message at the new timeout count recovers it and what the next round holds stands with it. |
| `BeaconRuns.TimeOutExactly` | code/go/0chain.net/miner/protocol_round.go:1641-1661 | A restart of the frontier round keeps the invariant if and only if the next round has no seed. |
| `BeaconRuns.DeleteMoves` | code/go/0chain.net/chaincore/chain/entity.go:1893-1907 | Deleting rounds changes nothing in what live and deleted rounds together hold. |
| `BeaconRuns.StepKeepsGoodExactly` | code/go/0chain.net/miner/protocol_bls.go:151-187 | Every step, of whatever kind, keeps the invariant if and only if it fits in this sense. |
| `BeaconRuns.RunInvariant` | code/go/0chain.net/miner/protocol_bls.go:151-187 | In every run whose steps fit, deletions included: a round's shares are valid for its message and recover its seed, or the seed came from a block and the message recovers it; rounds beyond the frontier hold only parked shares and seeds from blocks. |
| `BeaconRuns.UntouchedRunFits` | code/go/0chain.net/miner/protocol_bls.go:386-513 | In every run in which no block sets or replaces a seed, all steps fit, all shares are valid for their round's message and every seed is recovered from enough of the round's own shares. |
| `BeaconAgreement.SeedsAgree` | code/go/0chain.net/miner/protocol_bls.go:386-449 | Two such collections of rounds with equal timeout counts have equal seeds in every round both completed. |
| `BeaconAgreement.Agreement` | code/go/0chain.net/miner/protocol_bls.go:476-513 | Two miners from the same genesis seed, with the same timeout count in each round and only fitting steps, get the same seed in every round both completed, whatever valid shares each collected, however they arrived, which rounds each deleted and which seeds each took from blocks. |
| `BeaconAgreement.AgreementWithoutBlocks` | code/go/0chain.net/miner/protocol_bls.go:476-513 | In particular two miners of which no block ever sets or replaces a seed agree, with no further condition. |
| `BeaconAgreement.OfferAgreesExactly` | code/go/0chain.net/miner/protocol_receive.go:488-490 | A miner that takes a seed from a block agrees with one that completed the round if and only if the round's message recovers that seed. |
| `BeaconAgreement.OffersCanSplitMiners` | code/go/0chain.net/miner/protocol_receive.go:488-510 | For every two seeds: one block each, not verified, gives two miners at the same timeout count different seeds. |
| `BeaconAgreement.SeedChangesExactly` | code/go/0chain.net/chaincore/round/entity.go:259-270 | A seed a round has is replaced exactly by a restart or by a notarized block of another seed, not by shares that arrive later. |
| `BeaconAgreement.SeedOrigin` | code/go/0chain.net/chaincore/chain/entity.go:1910-1929 | In every run, fitting or not, a round's seed is recovered from enough of its own shares or was brought by a block. |
| `BeaconStalls.StallsExactly` | code/go/0chain.net/miner/protocol_bls.go:265-311 | Exactly when a share leaves its round with enough shares and no seed: parked shares fill the threshold and it does not verify, or the shares recover no seed that may be set. |
| `BeaconStalls.StallStartsExactly` | code/go/0chain.net/miner/protocol_bls.go:265-311 | Exactly which steps stall a round: such a share, or a notarized block without a seed that replaces the seed of a round with enough shares. |
| `BeaconStalls.NoStallInRun` | code/go/0chain.net/miner/protocol_bls.go:386-449 | In every run without such a step a round has a seed whenever it has enough shares. |
| `BeaconStalls.StallEndsExactly` | code/go/0chain.net/miner/protocol_bls.go:265-273 | A stall ends exactly by a restart, by a deletion or by a block that gives the round a seed; every other step keeps the round's shares and timeout count. |
| `BeaconStalls.StallLastsInRun` | code/go/0chain.net/miner/protocol_bls.go:265-273 | In every run a stalled round gets no seed and no new share until one of these three happens. |
| `BeaconStalls.RoundCanStall` | code/go/0chain.net/miner/protocol_bls.go:294-300 | For every positive threshold: that many valid shares are parked, the round starts, and an invalid share arrives. |
| `BeaconShares.AddedSharesExactly` | code/go/0chain.net/miner/protocol_bls.go:265-311 | What a round's shares are after a share is looked at: those it had, others only from parties with a valid parked or arriving share of its timeout count, and all of these unless the threshold is filled; otherwise they are unchanged. |
| `BeaconShares.ValidShareJoins` | code/go/0chain.net/miner/protocol_bls.go:294-303 | A valid share of the round's timeout count is there afterwards, or the threshold is filled. |
| `BeaconShares.FullIsSeeded` | code/go/0chain.net/miner/protocol_bls.go:305-308 | The valid share that fills the threshold gives the round the seed the shares recover, if that is not zero. |
| `BeaconShares.AddedCacheExactly` | code/go/0chain.net/miner/protocol_bls.go:242-292 | Exactly which shares are parked afterwards: those of a later timeout count or without a message are added, valid ones that were tried are removed. |
| `BeaconShares.ParkedNotLost` | code/go/0chain.net/miner/protocol_bls.go:352-383 | A parked share leaves the cache only into the round, or because the threshold is filled. |
| `BeaconShares.FutureShareWaits` | code/go/0chain.net/miner/protocol_receive.go:32-37 | A share for a future round is parked there. |
| `BeaconShares.BroughtCounts` | code/go/0chain.net/miner/protocol_bls.go:231-311 | In every run a valid share that was brought is among the round's shares, or the threshold is filled, until a restart or deletion. |
| `BeaconShares.ParkedStaysInRun` | code/go/0chain.net/miner/protocol_bls.go:352-383 | In every run a parked share waits until it counts, until a restart or deletion. |
| `BeaconShares.EnoughIsEnough` | code/go/0chain.net/miner/protocol_bls.go:386-400 | In every run a round has enough shares once valid ones of threshold-many parties were brought. |
| `BeaconShares.EnoughGivesSeed` | code/go/0chain.net/miner/protocol_bls.go:386-449 | Without seeds from blocks and without a stall it then has a seed, the one that any such shares for its message recover. |
| `RoundSeed.SeedRound.AddNotarizedBlock` | code/go/0chain.net/chaincore/round/entity.go:298-345 | A known block changes nothing; a new one replaces the last of its rank and the list is then ordered by weight. |
| `RoundSeed.SortByWeightOrders` | code/go/0chain.net/chaincore/round/entity.go:339-343 | The list is ordered by weight, heavier blocks first. |
| `RoundSeed.SeedRound.AddNotarizedBlockToRound` | code/go/0chain.net/chaincore/chain/entity.go:1511-1548 | The seed and timeout count follow the block if there was none before or it is from a later timeout. |
| `RoundSeed.SeedRound.SetRandomSeed` | code/go/0chain.net/chaincore/chain/entity.go:1910-1929 | When the seed is refused, when it is set, and that "true" is also answered when an earlier different seed stays. |
| `RoundSeed.SeedRound.Restart` | code/go/0chain.net/chaincore/round/entity.go:646-658 | A round with a notarized block is not restarted. |
| `RoundSeed.RestartExactly` | code/go/0chain.net/chaincore/round/entity.go:646-658 | A restart succeeds exactly before the share phase; the round then has no seed and no notarized block. |
| `RoundSeed.VrfSeedExactly` | code/go/0chain.net/chaincore/chain/entity.go:1910-1929 | A seed is the round's afterwards exactly if it was, or the round had neither a seed nor a notarized block. |
| `RoundSeed.AdoptedSeedExactly` | code/go/0chain.net/chaincore/chain/entity.go:1527-1545 | After a notarized block the seed is the block's exactly if it is the first, of a later timeout, or of the same seed; the block is listed. |
| `RoundSeed.NotarizationHoldsSeedExactly` | code/go/0chain.net/chaincore/chain/entity.go:1527-1545 | One of the notarized blocks still has the round's seed exactly unless the new one displaces the only block that has it. |
| `RoundSeed.SeedHeldInRun` | code/go/0chain.net/chaincore/chain/entity.go:1511-1548 | Over any run without a displacement the seed of a notarized round is that of one of its notarized blocks. |
| `RoundSeed.SeedChangesWithTimeout` | code/go/0chain.net/chaincore/chain/entity.go:1511-1548 | Over any run, after a notarization the timeout count never falls and a different seed means a strictly larger one. |
| `RoundSeed.SeedCanBeDisplaced` | code/go/0chain.net/chaincore/round/entity.go:316-330 | For every two seeds and an earlier timeout count: a late block of the same rank takes the place of the first, and no notarized block has the round's seed. |
| `VerificationLoop.Collector.Meanwhile` | code/go/0chain.net/chaincore/round/entity.go:298-345 | Other goroutines' notarizations and better blocks take effect one by one. |
| `VerificationLoop.Collector.TryBlock` | code/go/0chain.net/miner/protocol_round.go:863-946 | After a success the ticket is sent unless another block is the best notarized one, and the round's block is set only if none is notarized. |
| `VerificationLoop.TicketExactly` | code/go/0chain.net/miner/protocol_round.go:915-926 | After a verification the ticket is sent if and only if it passed and nothing is notarized or the block is the first notarized one of the best rank; the block becomes the round's if and only if it passed and nothing is notarized. |
| `VerificationLoop.OutsideTakesEffect` | code/go/0chain.net/chaincore/round/entity.go:298-345 | A notarized block is listed afterwards and the round's block is no worse than it. |
| `VerificationLoop.Collector.InitiateVerification` | code/go/0chain.net/miner/protocol_round.go:949-979 | The collected blocks are tried by rank until the first success or the end of the context. |
| `VerificationLoop.Collector.HandleBlock` | code/go/0chain.net/miner/protocol_round.go:1004-1032 | A block that arrives later is tried only if the round's block is not better. |
| `VerificationLoop.VerifyAndSendGood` | code/go/0chain.net/miner/protocol_round.go:863-946 | Whatever happens during a verification, a block no worse than the last one sent keeps the tickets in order. |
| `VerificationLoop.TicketsNeverGetWorse` | code/go/0chain.net/miner/protocol_round.go:863-1025 | In every run the blocks tickets are sent for have non-increasing rank. |
| `VerificationLoop.FirstTicketIsForTheBest` | code/go/0chain.net/miner/protocol_round.go:949-979 | The opening ticket is for the first block in rank order that passes, sent if and only if it may be sent at that time; every collected block of better rank was tried before and failed; when the round's block becomes it is stated too. |
| `VerificationLoop.NoPassNoTicket` | code/go/0chain.net/miner/protocol_round.go:949-979 | Without a block that passes before the context ends, no ticket is sent. |
| `VerificationLoop.LateTicketExactly` | code/go/0chain.net/miner/protocol_round.go:1004-1025 | For a block that arrives later a ticket is sent if and only if the round's block is not better, it passes and its ticket may be sent. |
| `DkgPhases.DkgProcess.ContributeMpk` | code/go/0chain.net/miner/protocol_view_chainge_main.go:182-230 | The key generation is set up unless the miner list is missing or empty of size; the outcome depends on sending. |
| `DkgPhases.SendSijsPrepare` | code/go/0chain.net/miner/protocol_view_change.go:452-459 | Shares go to all miners but this one and those that acknowledged. |
| `DkgPhases.SendShares` | code/go/0chain.net/miner/protocol_view_change.go:506-514 | Each miner is asked once; acknowledged and failed miners partition the list. |
| `DkgPhases.DkgProcess.SendSijs` | code/go/0chain.net/miner/protocol_view_change.go:492-525 | Acknowledgements are recorded also when the phase fails; it fails only with too few of enough miners. |
| `DkgPhases.DkgProcess.PublishShareOrSigns` | code/go/0chain.net/miner/protocol_view_chainge_main.go:100-176 | Known shares are filled in for miners that did not acknowledge. |
| `DkgPhases.DkgProcess.Wait` | code/go/0chain.net/miner/protocol_view_change.go:637-736 | The view change data is cleared before the wait transaction is sent. |
| `DkgPhases.DkgProcess.Handle` | code/go/0chain.net/miner/protocol_view_change.go:123-231 | One turn of the loop, including the start-up timer that repeats the last event. |
| `DkgProgress.PhaseExactly` | code/go/0chain.net/miner/protocol_view_chainge_main.go:100-230 | On exactly which answers each phase and its transaction succeed. |
| `DkgProgress.AcceptedExactly` | code/go/0chain.net/miner/protocol_view_change.go:146-229 | A turn accepts a phase if and only if its event is new or a share retry, the phase is expected and it succeeds; it skips to Unknown if and only if the phase is not expected. |
| `DkgProgress.RetryExactly` | code/go/0chain.net/miner/protocol_view_change.go:146-212 | A share retry is pending if and only if Share failed, by too few acknowledgements or otherwise, and no event of another phase came since. |
| `DkgProgress.SharedInRun` | code/go/0chain.net/miner/protocol_view_change.go:452-525 | In every run the miners counted as having their share are exactly those recorded since the data was last cleared. |
| `DkgProgress.AskedExactly` | code/go/0chain.net/miner/protocol_view_change.go:452-459 | In every run a share goes to exactly the other miners that were not recorded since then. |
| `DkgPhases.StepKeepsOrder` | code/go/0chain.net/miner/protocol_view_change.go:146-229 | Every turn keeps: the phases accepted since the last Start are Start, Contribute, Share one or more times, Publish, Wait, as far as the current one; a pending share retry means the current phase is Share. |
| `DkgPhases.PhasesInOrder` | code/go/0chain.net/miner/protocol_view_change.go:123-231 | This holds in every state of every run, and the key generation is set in Contribute and Share and gone in Wait. |
| `DkgPhases.SkipForcesStart` | code/go/0chain.net/miner/protocol_view_change.go:173-181 | After a skipped phase only Start is accepted. |
| `DkgPhases.FreshStartAfterSkip` | code/go/0chain.net/miner/protocol_view_change.go:173-181 | In every run a skip is followed by nothing but Unknown until a Start. |
| `DkgPhases.PublishLosesDkgExactly` | code/go/0chain.net/miner/protocol_view_change.go:637-736 | The Publish phase is left without its key generation exactly when Wait did its work and its transaction was not sent or confirmed. |
| `DkgPhases.PublishHasDkgInRun` | code/go/0chain.net/miner/protocol_view_change.go:123-231 | In every run without such a loss the Publish phase has its key generation. |
| `DkgPhases.StuckUntilStart` | code/go/0chain.net/miner/protocol_view_change.go:637-646 | Without it the Publish phase ends only in a skip or a fresh Start. |
| `DkgPhases.PublishCanLoseDkg` | code/go/0chain.net/miner/protocol_view_change.go:727-733 | A full run that ends in Publish without the key generation. |
| `DkgPhases.NoShareTwice` | code/go/0chain.net/miner/protocol_view_change.go:452-459 | In every run a miner that acknowledged its share is not sent another until the data is cleared. |
| `ChainHistory.ChainHasTransaction` | code/go/0chain.net/chaincore/chain/entity.go:1814-1834 | Found and error exactly as the walk over the blocks at hand says. |
| `ChainHistory.EarlyExitIsSound` | code/go/0chain.net/chaincore/chain/entity.go:1814-1834 | With non-decreasing dates and transactions of their block's time, "not found" from any part of the chain means that no block after genesis has the transaction. |
| `ChainHistory.EarlyExitMissesExactly` | code/go/0chain.net/chaincore/chain/entity.go:1814-1834 | Whatever the dates: a transaction is missed exactly when a block after the newest one that has it is dated too old, and otherwise found. |
| `ChainHistory.FoundIsThere` | code/go/0chain.net/chaincore/chain/entity.go:1822-1824 | "Found" means that a block at hand has it. |
| `ChainHistory.EarlyExitNeedsOrder` | code/go/0chain.net/chaincore/chain/entity.go:1825-1827 | A chain with unordered dates in which the early exit misses a transaction. |
| `ChainHistory.GrownIsDated` | code/go/0chain.net/miner/protocol_round.go:654-662 | A chain grown from genesis by the date rule is ordered and timely. Generation always follows the rule; acceptance tests it only when the previous block is linked, so a block accepted without that link must meet it by itself. |
| `ChainHistory.ChainNoncesConsecutive` | code/go/0chain.net/chaincore/chain/state.go:847-884 | Over a whole chain of executed blocks each client's nonces, in chain order, are s+1, s+2, ..., s+k over the genesis state. |
| `ChainHistory.NoTransactionTwice` | code/go/0chain.net/chaincore/chain/state.go:847-860 | Hence no client's nonce, and no transaction, is in two blocks of a chain after genesis. |
| `ChainHistory.NoTransactionTwiceInBlock` | code/go/0chain.net/chaincore/chain/state.go:847-860 | Nor twice in one block. |
| `ChainHistory.GeneratedIsExecuted` | code/go/0chain.net/miner/protocol_block.go:707-812 | A block with the nonces that generation guarantees is accepted by the nonce check on its parent's state. |
| `VerificationTickets.TicketedBlock.AddVerificationTicket` | code/go/0chain.net/chaincore/block/entity.go:392-404 | A ticket is appended exactly if its verifier is new. |
| `VerificationTickets.TicketedBlock.MergeVerificationTickets` | code/go/0chain.net/chaincore/block/entity.go:409-441 | An empty list takes what it gets; otherwise the fresh tickets are appended, or nothing if there is a nil. |
| `VerificationTickets.TicketedBlock.UnknownTickets` | code/go/0chain.net/chaincore/block/entity.go:673-692 | The fresh tickets of a list in order, or none if there is a nil. |
| `VerificationTickets.FreshExactly` | code/go/0chain.net/chaincore/block/entity.go:409-441 | The fresh tickets are exactly the first ones of verifiers that are not known. |
| `VerificationTickets.FreshInOrder` | code/go/0chain.net/chaincore/block/entity.go:409-441 | They keep the order in which they were received. |
| `VerificationTickets.MergeBringsAll` | code/go/0chain.net/chaincore/block/entity.go:409-441 | After merging a list without nil the verifiers are those of both lists. |
| `VerificationTickets.AddedKeepsGood` | code/go/0chain.net/chaincore/block/entity.go:392-404 | Adding keeps verifiers distinct and the old list a prefix. |
| `VerificationTickets.MergeKeepsGoodExactly` | code/go/0chain.net/chaincore/block/entity.go:409-441 | Merging keeps the old list a prefix always, and verifiers distinct and nil-free if and only if the block had tickets or the received list is so. |
| `VerificationTickets.EmptyTakesRepetition` | code/go/0chain.net/chaincore/block/entity.go:411-413 | A repeated verifier gets into an empty list. |
| `VerificationTickets.MergeUnknownExactly` | code/go/0chain.net/chaincore/block/entity.go:409-441 | Merging only the unknown tickets equals merging all, if and only if the block had tickets or the received list is duplicate-free and nil-free. |
| `VerificationTickets.TicketsOnlyGrow` | code/go/0chain.net/chaincore/block/entity.go:392-441 | In any interleaving of adds and merges verifiers stay distinct and every earlier list is a prefix of every later one. |
| `VerificationTickets.ThresholdCount` | code/go/0chain.net/chaincore/chain/entity.go:1807-1811 | The threshold is the least count that is at least the given percentage of the miners. |
| `VerificationTickets.QuorumsOverlap` | code/go/0chain.net/chaincore/chain/entity.go:1807-1811 | Two lists that reach the threshold share at least twice the threshold minus the miners; with more than half they share one. |
| `Genesis.WriteClients` | code/go/0chain.net/chaincore/chain/entity.go:1337-1351 | The inner loop writes the clients' amounts and their sum, unless it overflows. |
| `Genesis.MustInitGBState` | code/go/0chain.net/chaincore/chain/entity.go:1328-1372 | Succeeds exactly when no contract gives away more than it has and all together have the maximum supply, and then writes exactly those amounts. |
| `Genesis.BalancesAsConfigured` | code/go/0chain.net/chaincore/chain/entity.go:1328-1372 | With distinct ids every client has its configured tokens and every contract what it keeps. |
| `Genesis.GenesisConserves` | code/go/0chain.net/chaincore/chain/entity.go:1328-1372 | Written balances plus replaced amounts are the maximum supply. |
| `Genesis.GenesisSumsToSupply` | code/go/0chain.net/chaincore/chain/entity.go:1328-1372 | With distinct ids the balances sum to exactly the maximum supply. |
| `Genesis.GenesisSumsExactly` | code/go/0chain.net/chaincore/chain/entity.go:1328-1372 | In general they do if and only if no id with tokens is written again. |
| `Genesis.RepeatedClientLosesTokens` | code/go/0chain.net/chaincore/chain/entity.go:1338-1342 | A client listed twice makes the balances fall short. |

## Left out

- FetchRuns.RunInvariant: safety while the context is live; that every request is eventually answered does not follow, because acquiring a slot blocks the loop that drains results, and the final termination of all entries when the context ends is not modelled.
- MpksCodec.MpksRoundTrip: lengths below 2^32, as the 32-bit headers allow; longer ones are cut in the model as in the encoder.
- MpksCodec.UnmarshalMpk: says nothing about the receiver after an error, because slice capacity decides what is left in it.
- LfbRoundCodec.Receiver.UnmarshalMsg: says nothing about the receiver after an error, because what a failed read stores is the library's choice.
- BlockAssembly.GenerateBlock: says nothing about the block when generation fails; events, output hashes, the clearing of client IDs, hashing and signing are not modelled.
- BlockAssembly.AddBuiltIns: the minimum block size is tested inside the loop and counts failed built-ins, as in the source; nothing is claimed about it.
- BeaconAgreement.Agreement: a share or block that is handled only after its round was deleted is not part of the runs. Without distributed keys the seed comes from a local generator, which is not modelled.
- RandomBeacon.Beacon.Restart: the source leaves the round's lock held when it refuses, so that later operations on the round block; here they go on.
- RoundSeed.SeedRound.Restart: the source leaves the round's lock held when it refuses, so that later operations on the round block; here they go on.
- RoundSeed.SeedRound.AddNotarizedBlock: blocks of equal weight are ordered by a stable insertion where the source's sort leaves the order open; proposed blocks and ticket merging are not modelled here.
- VerificationLoop.Collector.TryBlock: the part after a successful verification is one step; block states and miner statistics are not modelled.
- BlockState.ReachableIsSound: adding a block to the chain cache, which copies a block state into a state status, and replacing the cached state of a finalized block are not steps of the model.
- DkgPhases.DkgProcess.Wait: validation and aggregation of shares are one answer of the environment.
- Transactions.StableSortSorted: the sort is an insertion sort; that any stable sort gives the same list is `Transactions.StableSortIsTheStableOrder`.
- ChainHistory.GrownIsDated: assumes the date rule for every block; acceptance skips its test when the previous block is not linked.
- The map of notarization tasks in `getOrSetBlockNotarizing` and `getBlockNotarizationResultSync`: easy to state, little to gain.
- BLS, signatures, hashing, Merkle trees and the trie itself.
- HTTP handlers, message senders and receivers, diagnostics, metrics, logging and configuration.
- Persistent stores, event database, sharder start-up and health checks.
- Magic blocks, finalization choice, LFB tickets beyond their round number.
- Builds with injected faults for integration tests.
