# Verified models of a PalletOne node

Dafny models of the parts of a PalletOne node (go-palletone) whose behaviour is hardest to see from the code, and
proofs about them. `dafny verify dfyconfig.toml` checks the whole project.

- **Gossip of consensus messages** (`GossipModel.dfy`, `GossipNode.dfy`, `RacyGossip.dfy`, `ReceivedCache.dfy`,
  `KnownSet.dfy`). VSS deals, VSS responses
  and group signatures flood the network. The network is a step system: every goroutine still to run is an element of
  a multiset of its state, and evictions from the bounded "known" sets, lost packets and passed deadlines are steps
  like any other. One invariant, kept by every step, gives coverage, deal routing, the bound on what is sent and
  termination. The handlers of one node are a class whose methods refine those steps. There the received-cache is looked up
  and filled in one step, and a hash is marked as known in one step. The code makes several calls of either:
  `ReceivedCache` and `KnownSet` show exactly what can go wrong because of that, and when, and `RacyGossip`, where every
  such call is a step, that coverage does not suffer.
- **Header queries** (`HeaderQuery.dfy`). One loop serves four modes: by hash or number, forward or backward, with a
  skip. Over stores with forks, consecutive headers are related by parent links; over a consistent chain the modes are
  compared with one arithmetic progression, with the exact conditions under which each of them leaves it.
- **Payments** (`CoinSelection.dfy`, `Payments.dfy`). Greedy coin selection is complete and maximal. Every constructor of
  a transaction is described for all inputs: when it succeeds, what it spends, and exactly when it loses the fee it
  reports and no more.
- **Schedulers** (`Fetcher.dfy`, `TxSync.dfy`). The light fetcher's import bookkeeping and the transaction sync loop as
  event loops with background workers, over all runs.
- **Peers** (`PeerNotify.dfy`, `PeerStats.dfy`). Callbacks issued outside a lock, the head of a peer, and the median of
  the stable indexes.
- **Ledger views and start-up** (`TokenLedger.dfy`, `TokenFlow.dfy`, `FlowLines.dfy`, `AddressFlow.dfy`,
  `BalanceStats.dfy`, `ChainAudit.dfy`, `Migration.dfy`). The token flow of an address against the ledger, balance
  statistics, the header audit and the database migration.

`Uint64.dfy` spells out 64-bit wrap-around; `Sorting.dfy`, `MapSum.dfy`, `SeqSum.dfy` and
`Distinctness.dfy` hold shared lemmas.

## What turned out not to hold

Each of these is stated with the exact condition under which it does hold.

- A message is reacted to once per node only if no two handlers race on the received-cache
  (`ReceivedCache.ReactsTwiceIffRace`, `ReceivedCache.RaceHappens`).
- A known set stays within its cap only if the marks that are past their test at the same time leave room for it
  (`KnownSet.OverfillIff`, `KnownSet.ExcessBound`, `KnownSet.OverfillHappens`).
- The headers of a hash-forward reply carry the number of the next header, because the search for it writes through the
  pointer that `GetNumber` returns (`dag/modules/unit.go:528`), unless the number overflows (`HeaderTheorems.ReplyNumbers`).
- Hash-backward queries repeat the genesis header or panic when they stride past it, and repeat their origin for a skip
  that `int` makes negative (`HeaderTheorems.ReverseModesAgree`).
- Number-forward queries start again from the bottom of the chain when the number wraps (`HeaderTheorems.NumberForward`).
- Coin selection can refuse a payment that a single output could make when the sum of its outputs overflows
  (`CoinSelection.OverflowHidesFunds`).
- The median of an even number of reports leaves the majority's range when the middle pair overflows
  (`StableMedian.MedianRobustIff`).
- A payment loses more than its fee when the sums of its inputs and of amount and fee wrap differently
  (`Payments.BuildPayload`, `Payments.FeeExact`, `Payments.OverflowBurns`).
- The last pack of a transaction sync is lost without a trace when its send fails (`TxSyncModel.ArrivesWholeIff`,
  `TxSyncModel.LastPackFails`).
- A service can hear that a peer has gone before it hears that it came if, and only if, Unregister is called while the
  callback about the arrival is outstanding (`PeerNotifyModel.UnregisterTooEarlyIff`, `PeerNotifyModel.GoneBeforeCome`);
  the counts of the callbacks are right all the same.
- The flow of a token misses what the address gets behind the first output of another asset, such as every token but the
  first that a contract mints together (`TokenFlow.FlowIsLedgerIff`, `TokenFlow.OnlyMintsHide`, `TokenFlow.MintHides`).
- The flow of a token crashes on a transaction that spends an output of its own, as contract paybacks do
  (`TokenFlow.CrashIff`, `TokenFlow.CrashesIffSelf`, `TokenFlow.PaybackCrashes`).
- The lines of a token flow can show other balances than those after their payments when, of two of its transactions with
  the same timestamp, one has a line and the other changes the balance (`AddressFlow.FlowAlwaysRightIff`,
  `AddressFlow.TiesGoWrong`).
- Looking for the best peer crashes when a peer without a head for the asset follows one that has a head
  (`StableMedian.BestPeer`, `StableMedian.SilentPeerCrashes`).
- A passed header audit need not have reached height 0 (`ChainAudit.ReachesZeroIff`, `ChainAudit.OtherRootPasses`,
  `ChainAudit.AuditCanStopEarly`).
- Start-up spins for ever on a database version that the migration table does not know, or on a cycle (`Migration.HaltsIff`).

## Model

| member | source | states |
|---|---|---|
| `GossipProofs.StepKeepsInv` | ptn/message.go:532-619 | every step of the network, from a birth to a loss or an eviction, keeps the invariant: traces lie where the message has been, broadcasts, sends and deliveries happen at most once, a node that has a message reacts exactly as it should, what a peer is believed to know it has or is being sent, whoever has a message has passed it on or has a reason not to, and known sets, as long as marks do not overlap, stay within their caps |
| `GossipProofs.RunKeepsInv` | ptn/vss_tbls.go:126-223 | so does every run of every network |
| `GossipProofs.OriginateKeeps` | ptn/vss_tbls.go:126-223 | the birth of a message keeps the invariant for every node, peer and message |
| `GossipProofs.FireHere` | ptn/mediator_connection.go:231-243 | a broadcast that runs keeps it for the message at that node: one send per peer not believed to know it, none after the deadline |
| `GossipProofs.ArriveKeeps` | ptn/message.go:555-570 | marking the sender on arrival, as one step, keeps it, whatever the full known set evicts |
| `GossipProofs.FirstReceiptHere` | ptn/message.go:568-589 | the reaction to a first receipt keeps it, synced or not, owner or not |
| `GossipTheorems.HopClosure` | ptn/mediator_connection.go:245-290 | at rest, a peer misses a message that its neighbour has only because of a late broadcast, a lost packet or because the neighbour buffered the deal |
| `GossipTheorems.Coverage` | ptn/message.go:591-619 | when a reliable flood of a response or group signature has come to rest, every node connected to the originator has it and has delivered it exactly once, unless it was unsynced when a response arrived |
| `GossipTheorems.SeenIffConnected` | ptn/message.go:532-553 | at rest the nodes that have seen it are exactly those connected to the originator |
| `GossipTheorems.DealSeenIff` | ptn/message.go:581-586 | at rest a node has seen a deal if and only if a path of nodes that have not buffered it leads there from the originator |
| `GossipTheorems.SeenOnlyIfConnected` | ptn/mediator_connection.go:245-256 | in every reachable state, only nodes connected to the originator have seen a message |
| `GossipTheorems.SeenOnlyIfRelayed` | ptn/mediator_connection.go:231-256 | in every state of every run, whoever has seen a message has got it along a path of nodes that have broadcast it |
| `GossipTheorems.DealRouting` | ptn/message.go:555-589 | on any path from the originator to an owner of the destination, the first owner has the deal at rest and has buffered it exactly once unless it was unsynced |
| `GossipTheorems.DestinationBuffers` | ptn/vss_tbls.go:170-189 | with one owner, it and no other node buffers the deal |
| `GossipTheorems.DealBuffering` | ptn/message.go:581-586 | in every reachable state a deal is buffered only by an owner, at most once, and never by a node that forwarded it |
| `GossipTheorems.ReactsExactly` | ptn/message.go:573-619 | in every reachable state: a node that was not synced when a deal or a response came broadcasts it exactly once and hands over nothing; any other node hands over exactly what it is meant to, once, and broadcasts everything once but a deal that it keeps |
| `GossipTheorems.FloodBound` | ptn/vss_tbls.go:259-280 | in every reachable state each node has broadcast a message at most once and written it to each peer at most once; all writes are bounded by links times messages; known sets, as long as marks do not overlap, stay within their caps |
| `GossipTheorems.StepShrinks` | ptn/handler.go:253-259 | every step other than a birth makes a lexicographic measure smaller |
| `GossipTheorems.FloodStops` | ptn/handler.go:253-259 | no infinite run goes on without new messages |
| `GossipTheorems.NotStuck` | ptn/mediator_connection.go:224-243 | a state that is not at rest has a step that neither originates, loses nor delays anything |
| `GossipTheorems.CanComeToRest` | ptn/mediator_connection.go:224-243 | from every state that keeps the invariant some run comes to rest without births, losses or delays |
| `GossipNode.Evict` | ptn/mediator_connection.go:224-229 | the loop of the Mark methods leaves everything if there is room, else arbitrary members, one fewer than the cap |
| `GossipNode.Peer.Mark` | ptn/peer.go:206-211 | one of the three known sets gets the hash and, the mark being one step, stays within its cap; the others do not change |
| `GossipNode.ProtocolManager.IsExistInCache` | ptn/handler.go:253-259 | answers whether the message was there and leaves it there |
| `GossipNode.ProtocolManager.Receive` | ptn/message.go:555-570 | the head of a handler is an arrival and a lookup of the step system |
| `GossipNode.ProtocolManager.VSSDealMsg` | ptn/message.go:555-589 | the handler takes those steps and starts nothing on a repeat; on a first receipt an unsynced node forwards and does not buffer, a synced one buffers if it is the owner and forwards otherwise |
| `GossipNode.ProtocolManager.VSSResponseMsg` | ptn/message.go:591-619 | the same for responses: a first receipt is forwarded, and buffered if and only if the node is synced |
| `GossipNode.ProtocolManager.GroupSigMsg` | ptn/message.go:532-553 | the same for group signatures: a first receipt is forwarded and handed over, synced or not |
| `GossipNode.ProtocolManager.Transmit` | ptn/vss_tbls.go:170-223 | a new message of the node's own producer is a birth of the step system |
| `GossipNode.ProtocolManager.PeersWithout` | ptn/mediator_connection.go:245-256 | exactly the peers not believed to know the message, each once |
| `GossipNode.ProtocolManager.Broadcast` | ptn/mediator_connection.go:231-243 | nothing after the deadline, otherwise one send to each peer not believed to know the message, which are the sends of the step system |
| `GossipNode.ProtocolManager.SendTo` | ptn/vss_tbls.go:259-280 | marking and writing are two steps of the step system, in that order; the peer is believed to know the message from then on |
| `ReceivedCache.MissedIffEarly` | ptn/handler.go:253-259 | a handler misses a message exactly when it looks before anyone has added it |
| `ReceivedCache.ReactsTwiceIffRace` | ptn/handler.go:253-259 | over every schedule of lookups and additions, two handlers react if and only if two look before the first addition |
| `ReceivedCache.SerialNeverRaces` | ptn/handler.go:253-259 | not if whoever misses adds at once |
| `ReceivedCache.RaceHappens` | ptn/handler.go:253-259 | a schedule in which both handlers react |
| `KnownSet.StepKeepsInv` | ptn/mediator_connection.go:224-229 | each test, pop and addition of marks that overlap in any way keeps the bound below |
| `KnownSet.ExcessBound` | ptn/mediator_connection.go:258-263 | in every run a known set exceeds its cap by less than the number of marks that were past their test at the same time; if that was at most one, not at all |
| `KnownSet.OverfillIff` | ptn/peer.go:206-211 | the marks past their test can take a known set past its cap if and only if its hashes and the new ones of those marks are more than the cap |
| `KnownSet.OverfillHappens` | ptn/mediator_connection.go:224-229 | for every cap, a run of two marks that leaves one hash more than the cap |
| `KnownSet.UndisturbedMark` | ptn/mediator_connection.go:224-229 | a mark whose steps no other mark disturbs, from whichever stage on, does what the step system takes for one step: it pops nothing if there is room, else down to one below the cap, and adds its hash |
| `KnownSet.MarkEnds` | ptn/mediator_connection.go:224-229 | and it can always go on until it has added its hash |
| `RacyGossip.MoveKeeps` | ptn/message.go:591-608 | with the lookup, the addition, the mark, the test of each peer and each eviction as steps of their own, every step keeps: what a peer is believed to know it has or is being sent, whoever has the message passes it on, and every broadcast has a handler that missed the message or a birth behind it |
| `RacyGossip.RacyCoverage` | ptn/message.go:532-553 | when a reliable flood has come to rest, a node has the message if and only if it is connected to a node that originated it, however handlers raced and however often it was originated |
| `RacyGossip.OneBroadcastPerMiss` | ptn/handler.go:253-259 | in every state of every run a node has started exactly one broadcast per handler that missed the message and added it, and one per birth |
| `RacyGossip.NoEcho` | ptn/mediator_connection.go:245-256 | in every run without evictions, a node starts no further send to a peer that it knows to have the message, and it knows that of every peer it has sent the message to or got it from |
| `HeaderStore.GetUnitHashesFromHash` | dag/dag.go:394-414 | entry k is the (k+1)-th ancestor, the walk is as long as it can be, and it crashes exactly at a header without parents or on a length for which no slice can be made |
| `HeaderStore.UpMeans` | dag/dag.go:394-414 | what such a walk means: it arrives where a path of that many stored first parents ends, panics where a shorter one ends above height 0 at a header without parents, and stops where one ends at height 0 or at a missing parent |
| `HeaderQuery.WalkBackLoop` | ptn/message.go:92-104 | follows int(skip)+1 parent links in signed 64-bit arithmetic, staying where it is at number 0 |
| `HeaderQuery.NextOnSameChain` | ptn/message.go:105-141 | accepts the header at the next number if and only if skip+1 parent links lead from it to the origin; panics as the ancestor walk does |
| `HeaderQuery.NextQuery` | ptn/message.go:90-156 | the four-way switch takes the query where the specification takes it, and overwrites the number of the header just added in hash-forward mode |
| `HeaderQuery.GetBlockHeaders` | ptn/message.go:60-157 | the loop with its four limits returns the recursive specification of a reply, panics included; no header for an amount of 0 or one that `int` makes negative, never more than the amount nor than 192 |
| `HeaderTheorems.HashForwardSpacing` | ptn/message.go:105-141 | over any store, consecutive headers of a hash-forward reply are exactly skip+1 parent links apart |
| `HeaderTheorems.HashForwardMaximal` | ptn/message.go:105-141 | over any store, such a reply stops short only where the next number overflows, no header has it, or the header that has it does not descend from the last one in skip+1 links |
| `HeaderTheorems.HashForwardPanicsIff` | ptn/message.go:119-141 | over any store, a hash-forward query panics if and only if it comes to a header from whose successor the walk back is longer than a slice can be, meets a header above height 0 without parents, or ends early for a skip that `int` makes negative |
| `HeaderTheorems.WalkBackIsUp` | ptn/message.go:92-104 | over any store whose heights fall by one, the backward loop follows parent links as long as it stays above height 0, and may end one link past the last stored header |
| `HeaderTheorems.HashReverseSpacing` | ptn/message.go:92-104 | so consecutive headers of a hash-backward reply are exactly skip+1 parent links apart |
| `HeaderTheorems.HashReverseMaximal` | ptn/message.go:92-104 | and it stops short only where those links leave the store |
| `HeaderTheorems.ReplyNumbers` | ptn/message.go:105-141 | a header is sent as stored if and only if the mode is not hash-forward or the next number overflows; otherwise only its number differs, and it is skip+1 too large |
| `HeaderTheorems.ForwardEntry` | ptn/message.go:152-156 | entry i of the forward progression is the header i strides away |
| `HeaderTheorems.ForwardMaximal` | ptn/message.go:70-83 | it ends only at a limit or past the top |
| `HeaderTheorems.BackwardEntry` | ptn/message.go:142-150 | entry i of the backward progression is the header i strides below |
| `HeaderTheorems.BackwardMaximal` | ptn/message.go:70-83 | it ends only at a limit or at the bottom |
| `HeaderTheorems.NumberForward` | ptn/message.go:152-156 | number-forward replies are the progression if and only if they are full before the number wraps |
| `HeaderTheorems.NumberForwardReply` | ptn/message.go:70-83 | a number-forward query gets the progression, as far as its amount, 192 and the chain allow, if and only if it is full before the number wraps |
| `HeaderTheorems.NumberForwardCount` | ptn/message.go:70-83 | that is exactly the smallest of the amount, 192 and (top - number) / (skip + 1) + 1 headers, none from above the top |
| `HeaderTheorems.NumberReverse` | ptn/message.go:142-150 | number-backward replies are the progression |
| `HeaderTheorems.NumberReverseReply` | ptn/message.go:142-150 | exactly the smallest of the amount, 192 and number / (skip + 1) + 1 of them, none from above the top |
| `HeaderTheorems.NumberReverseRepeats` | ptn/message.go:142-150 | with the largest skip they repeat their origin instead |
| `HeaderTheorems.HashForward` | ptn/message.go:105-141 | hash-forward replies are the headers of the progression, unless a stride that stays on the chain is longer than a slice can be: then, and only then, they panic |
| `HeaderTheorems.HashForwardCount` | ptn/message.go:105-141 | as many as number-forward, unless they panic |
| `HeaderTheorems.ForkReply` | ptn/message.go:124-132 | a stored header beside the indexed chain is answered with alone, unless such a stride makes the query panic |
| `HeaderTheorems.ForwardModesAgree` | light/message.go:101-190 | forward, hash mode finds the progression unless such a stride makes it panic, and number mode if and only if it is full before the number wraps |
| `HeaderTheorems.HashReverse` | ptn/message.go:92-104 | hash-backward replies are the progression if and only if room times stride is at most n+1; otherwise they panic, or with skip 0 repeat the genesis header |
| `HeaderTheorems.RepeatsGenesis` | ptn/message.go:92-104 | from the genesis header, hash-backward fills the reply with copies of it, or panics |
| `HeaderTheorems.HashReverseRepeats` | ptn/message.go:92-104 | from a skip of 2^63-1 on, hash-backward replies repeat their origin |
| `HeaderTheorems.ReverseModesAgree` | light/message.go:101-190 | backward, the exact condition for both modes to send the same reply, for every skip |
| `CoinSelection.SelectUtxoGreedy` | core/utxo_pickup.go:58-87 | sorts the outputs in place by falling amount and returns the greedy selection over them |
| `CoinSelection.TakeAll` | core/utxo_pickup.go:65-86 | the loop takes the first 500 and compares a sum that wraps at 2^64 |
| `CoinSelection.TopIsMaximal` | core/utxo_pickup.go:42-44 | no choice of at most k outputs beats the first k of the sorted list |
| `CoinSelection.GreedyIsComplete` | core/utxo_pickup.go:58-87 | below 2^64, selection succeeds if and only if some choice of at most 500 outputs pays the amount; it takes as many as it may, their total is amount plus change, and no choice has a larger total |
| `CoinSelection.OverflowHidesFunds` | core/utxo_pickup.go:65-86 | from 2^64 on the amount is payable, and selection succeeds if and only if what is left of the sum still covers it; it takes the same outputs, the change is then too small, and the two refusals are told apart by the number of outputs |
| `CoinSelection.OverflowExample` | core/utxo_pickup.go:65-86 | two outputs of 2^63 cannot pay 1 |
| `Payments.GetAddrCoreUtxos` | dag/dag_transaction.go:227-256 | exactly the address's unspent gas-token outputs that the pool does not spend |
| `Payments.GetAddrCoreUtxosToken` | dag/dag_transaction.go:258-297 | the same, and those of the other token |
| `Payments.CoinsAvailable` | dag/dag_transaction.go:227-297 | whatever is picked from them is an output of the payer, of the right asset, unspent and not spent by the pool |
| `Payments.NoDoubleSpend` | dag/dag_transaction.go:248-285 | transactions that are each built on a ledger whose pool has taken the earlier ones never spend the same output, whoever builds them |
| `Payments.SelectInputs` | dag/dag_transaction.go:66-76 | picks the heaviest choice of at most 500 different outputs, if and only if its total modulo 2^64 covers the amount, with the change that is left modulo 2^64 |
| `Payments.TopIsBest` | core/utxo_pickup.go:58-87 | the first 500 of the sorted list are the heaviest choice of different outputs |
| `Payments.CoversIffAffordable` | dag/dag_transaction.go:66-76 | without overflow the choice covers an amount if and only if some choice of at most 500 outputs pays it |
| `Payments.InputsOf` | dag/dag_transaction.go:82-86 | one input per picked output, in their order |
| `Payments.MakeOutputs` | dag/dag_transaction.go:88-113 | the receiver gets the amount and the payer the change, in one output if they are the same, and there is no output for a change of 0 |
| `Payments.FeeExact` | dag/dag_transaction.go:66-113 | inputs less outputs are the fee if and only if the sums wrap equally often, or, for a merged output, the inputs less the fee fit 64 bits |
| `Payments.BuildPayload` | dag/dag_transaction.go:66-113 | for all inputs: a payload is built if and only if the heaviest choice covers amount plus fee in 64 bits; it spends that choice, pays the amount to the receiver and the rest back, loses the fee modulo 2^64, and loses exactly the fee if and only if the fee fits; without overflow it is built if and only if it is affordable, and settles |
| `Payments.CreateBaseTransaction` | dag/dag_transaction.go:52-123 | one such payment from the gas coins, if and only if the ledger is readable and they cover it; overflow included; every input is an unspent gas output of the payer that the pool does not spend |
| `Payments.CreateGenericTransaction` | dag/dag_transaction.go:306-319 | the same, and the fee returned, with the data fee for a text, is the fee of the payment |
| `Payments.GenTransferPtnTx` | dag/dag_transaction.go:373-398 | the same through both the text and the no-text branch |
| `Payments.GetPayload` | dag/dag_transaction.go:164-225 | such a payload in the asset of an output it may spend |
| `Payments.CoinsDisjoint` | dag/dag_transaction.go:258-297 | gas inputs and token inputs never share an output |
| `Payments.CreateTokenTransaction` | dag/dag_transaction.go:125-162 | succeeds if and only if the gas coins cover the fee and the token coins the amount; two such payments that share no input, each from available outputs of its asset; without overflow the gas payment loses exactly the fee and the token payment nothing |
| `Payments.OverflowBurns` | dag/dag_transaction.go:66-113 | with outputs of 2^63+5 and 2^63, a payment of 2 with a fee of 3 is built from both and does not settle |
| `FetcherModel.StepKeepsInv` | light/fetcher.go:134-163 | every event keeps the invariant: exact counters, every queued hash in exactly one of queue, running and finished imports |
| `FetcherModel.FetcherAccounting` | light/fetcher.go:134-252 | in every reachable state a peer's counter is the number of its queued hashes, between 1 and 64 when present; a hash is queued if and only if it is in exactly one of the queue, the running and the finished imports, and otherwise in none; while the loop waits the queue is empty |
| `FetcherModel.TakenIff` | light/fetcher.go:222-252 | in every reachable state a header is taken if and only if its hash is not queued, its peer has fewer than 64 queued hashes and, in 64 bits, its number is one of the 47 from 14 below the chain height on; otherwise nothing changes |
| `FetcherModel.InRangeIff` | light/fetcher.go:234-239 | the signed distance is within its limits exactly then; below 2^63 exactly from 14 below to 32 above the height |
| `FetcherModel.StepShrinks` | light/fetcher.go:134-163 | without new headers every step makes the rest of the work smaller |
| `FetcherModel.RestIsEmpty` | light/fetcher.go:167-175 | at rest the fetcher has forgotten everything |
| `Fetcher.LightFetcher.PopItem` | light/fetcher.go:143-147 | taking an operation and starting its import is a step of the model |
| `Fetcher.LightFetcher.Drain` | light/fetcher.go:139-148 | the loop empties its queue before it waits, through reachable states |
| `Fetcher.LightFetcher.Enqueue` | light/fetcher.go:222-252 | as the model has it; below 2^63: the header is queued and counted if it is new, its peer has fewer than 64 and it is from 14 below to 32 above the height, and otherwise nothing changes |
| `Fetcher.LightFetcher.ForgetBlock` | light/fetcher.go:167-175 | drops a hash and its peer's count, the count itself at 0 |
| `Fetcher.LightFetcher.ImportEnds` | light/fetcher.go:180-218 | an import that ends hands its hash to the loop, a step from reachable to reachable |
| `Fetcher.LightFetcher.OnInject` | light/fetcher.go:154-156 | the loop takes a new header, a step from reachable to reachable, and queues it under the exact conditions above |
| `Fetcher.LightFetcher.OnDone` | light/fetcher.go:158-160 | the loop takes the hash of an import that has ended, a step from reachable to reachable |
| `TxSyncModel.StepKeepsInv` | ptn/sync.go:110-131 | every event keeps: packs whose sends started and transactions left make up each accepted sync, in order, unless it was replaced or failed; packs arrive in order, all but the one in flight and a failed one; packs are within their size; no idle loop with work pending |
| `TxSyncModel.Delivery` | ptn/sync.go:67-132 | so in every state of every run |
| `TxSyncModel.ArrivesWholeIff` | ptn/sync.go:67-132 | at rest a sync has arrived whole if and only if it was empty, or no newer sync replaced its rest and no send failed that carried a pack of it or dropped its rest |
| `TxSyncModel.ArrivedSoFar` | ptn/sync.go:67-132 | in every state of every run, what has arrived of a sync is a prefix of it |
| `TxSyncModel.LastPackFails` | ptn/sync.go:86-88 | a run in which the only pack of a sync fails when the loop has already forgotten the sync |
| `TxSyncModel.StepIsLoop` | ptn/sync.go:110-131 | the steps of a run do to the loop's variables what the loop does |
| `TxSyncModel.PackIsStable` | ptn/sync.go:110-131 | one send at a time, whose pack nothing touches |
| `TxSyncModel.NewestWins` | ptn/sync.go:112-116 | a new sync takes the place of what is pending for its peer, whose rest is not sent any more, and concerns no other peer; it is all pending while a send is active, otherwise its first pack is sent at once |
| `TxSyncModel.FillFull` | ptn/sync.go:76-94 | a pack takes everything or reaches the target size, and makes progress |
| `TxSyncModel.DoneShrinks` | ptn/sync.go:117-131 | without new syncs every completed send makes the rest of the work smaller |
| `TxSync.TxSyncLoop.StartSend` | ptn/sync.go:76-94 | fills the pack transaction by transaction, as specified |
| `TxSync.TxSyncLoop.Pick` | ptn/sync.go:97-108 | counts down to the sync at the drawn place of the iteration over the map, and answers none if and only if nothing is pending |
| `TxSync.TxSyncLoop.OnSync` | ptn/sync.go:112-116 | replaces the peer's sync, touches no other, and starts a send if none is active |
| `TxSync.TxSyncLoop.OnDone` | ptn/sync.go:117-131 | forgets a failed peer and goes on with any pending sync |
| `PeerNotifyModel.StepKeepsInv` | light/peer.go:464-522 | under every interleaving of notify, register, unregister and outstanding callbacks, issued plus pending callbacks balance to what is due |
| `PeerNotifyModel.ExactlyOnce` | light/peer.go:464-522 | so in every state of every run, for every service and peer |
| `PeerNotifyModel.ToldRight` | light/peer.go:464-522 | what a service has been told is right if and only if as many register as unregister callbacks are outstanding |
| `PeerNotifyModel.ClosedGainsNothing` | light/peer.go:606-616 | in every run, a closed set stays closed and never gains a peer |
| `PeerNotifyModel.HearsGoneFirstIff` | light/peer.go:464-522 | callbacks still to be issued can make a service hear of more departures than arrivals if and only if more arrivals are outstanding than are due |
| `PeerNotifyModel.UnregisterTooEarlyIff` | light/peer.go:504-522 | Unregister allows that if and only if a callback about the arrival of that peer is still outstanding for the service when it is called |
| `PeerNotifyModel.OrderIsKept` | light/peer.go:464-522 | in every run whose Unregister calls wait for those callbacks, no service ever hears of more departures than arrivals |
| `PeerNotifyModel.GoneBeforeCome` | light/peer.go:480-522 | a run in which a service hears of the departure first |
| `PeerNotify.PeerSetObject.Notify` | light/peer.go:464-476 | the locked part and the callbacks of a subscription, as a step |
| `PeerNotify.PeerSetObject.Register` | light/peer.go:480-500 | fails, without any effect, exactly on a closed set or a known id; otherwise adds the peer and makes one callback per subscription |
| `PeerNotify.PeerSetObject.Unregister` | light/peer.go:504-522 | fails on an unknown id, otherwise one callback per subscription |
| `PeerNotify.PeerSetObject.Close` | light/peer.go:606-616 | closes the set, a step of the model |
| `PeerHeads.HeadIsFirstMaximum` | ptn/peer.go:173-194 | after any announcements a peer's head per asset is that of the first one with the largest number |
| `PeerHeads.StableIsLastReported` | ptn/peer.go:178-189 | the stable index kept is that of the last announcement that raised the number and carried one, and 0 if none did |
| `PeerHeads.Peer.SetHead` | ptn/peer.go:173-194 | updates that asset only, and only to a larger number; without a stable index the one kept before stays |
| `StableMedian.MedianRobustIff` | ptn/peer.go:666-685 | the median lies in every range that holds a strict majority if and only if its middle pair does not overflow |
| `StableMedian.MedianRobust` | ptn/peer.go:666-685 | the forward direction, for odd and even counts |
| `StableMedian.MedianOverflow` | ptn/peer.go:676-684 | an overflowing pair puts the median 2^63 below its average |
| `StableMedian.StableIndex` | ptn/peer.go:666-685 | the median of one report per reporting peer, for an even number the average of the middle pair unless it overflows; it then lies in every range that holds the reports of a strict majority, and it does not overflow if a strict majority reports less than 2^63 |
| `StableMedian.BestPeer` | ptn/peer.go:636-652 | for every iteration order: the first peer with the highest head, none if and only if none reports the asset; it crashes if and only if a peer that does not report the asset follows one that does |
| `StableMedian.SilentPeerCrashes` | ptn/peer.go:644-650 | two peers of which one does not report the asset: one order of iteration crashes, the other does not |
| `TokenLedger.GetTxOutput` | dag/dag.go:866-884 | finds an output whether it is spent or not, under the name that an input has for it |
| `TokenLedger.StepHoldings` | dag/common/utxo_repository.go:307-345 | a payment, of several assets too, changes the holdings of an address by all its outputs less all that it spends, outputs of its own transaction included |
| `TokenLedger.KnownForEver` | dag/dag.go:866-884 | every output of a complete history can be looked up for ever |
| `TokenLedger.HistoryFound` | dag/common/utxo_repository.go:316-321 | everything a history spends is known at its end; the name an input has for it is, if and only if it is not the special hash for its own transaction |
| `TokenFlow.ChangeSplits` | ptnjson/tokenflowjson.go:57-80 | what a payment does to the holdings is what it does to the running balance and what lies behind the first output and input of another asset |
| `TokenFlow.CrashIff` | ptnjson/tokenflowjson.go:57-61 | the loop crashes if and only if an input that cannot be looked up comes before the first input of another asset |
| `TokenFlow.FlowIsLedgerIff` | ptnjson/tokenflowjson.go:48-112 | in causal order every running balance is the sum of the address's unspent outputs at that point, modulo 2^64, if and only if for every payment what lies behind nets to 0 modulo 2^64 |
| `TokenFlow.FlowEndsAtLedgerIff` | ptn/api_backend.go:604-632 | in any order, and without the payments that do not touch the address, the flow ends at the ledger balance if and only if all that lies behind nets to 0 modulo 2^64 |
| `TokenFlow.OneAssetIsSeen` | ptnjson/tokenflowjson.go:57-80 | for a payment in one asset that does not crash, nothing lies behind |
| `TokenFlow.OnlyMintsHide` | validator/validate_payment.go:157-168 | of validated payments that do not crash, only those without inputs can have something behind |
| `TokenFlow.MintHides` | ptnjson/tokenflowjson.go:69-83 | of two tokens minted together, the address holds the second and its flow has no line |
| `TokenFlow.OrderIrrelevant` | ptn/api_backend.go:604-632 | the final balance does not depend on the order of the replay |
| `TokenFlow.RowsShowLedger` | ptnjson/tokenflowjson.go:81-112 | if nothing lies behind, every line of a history in causal order shows the ledger balance after its payment |
| `TokenFlow.UnconcernedIsSilent` | ptnjson/tokenflowjson.go:57-83 | a payment that neither spends from nor pays to the address has no line and no effect |
| `TokenFlow.OwnRows` | ptn/api_backend.go:613-630 | so the flow of the address's own payments is line for line that of the whole history |
| `TokenFlow.OwnLinesShowLedger` | ptn/api_backend.go:613-630 | and so does every line of the address's own transactions in the order of the chain |
| `TokenFlow.CrashesIffSelf` | ptnjson/tokenflowjson.go:57-61 | from the transactions of a complete chain the flow crashes if and only if a payment has an input under the special hash before its first input of another asset |
| `TokenFlow.PaybackCrashes` | consensus/jury/common.go:410-418 | a payment to a contract that is paid back in the same transaction crashes the flow of the payer |
| `TokenFlow.FlowEndsRightIff` | ptn/api_backend.go:613-630 | the balance that the flow of the address's own transactions ends at is the ledger balance if and only if all that lies behind in the chain nets to 0 modulo 2^64 |
| `TokenFlow.ScanInputs` | ptnjson/tokenflowjson.go:56-68 | adds up the inputs before the first of another asset, and crashes if and only if an unknown one comes before it |
| `TokenFlow.ScanOutputs` | ptnjson/tokenflowjson.go:69-80 | the same for outputs |
| `TokenFlow.ConvertPayment` | ptnjson/tokenflowjson.go:48-112 | the line of a payment as specified, which `FlowLines` relates to the ledger, and no line for a payment that does not concern the address; crashes if and only if the scan of its inputs does |
| `TokenFlow.MakeLine` | ptnjson/tokenflowjson.go:81-111 | the balance changes by income less spending modulo 2^64; no line if and only if both are 0; otherwise outgoing if and only if more is spent than comes in, with the difference as amount, and with a fee only if there are inputs |
| `TokenFlow.ConvertTx` | ptnjson/tokenflowjson.go:45-115 | the lines and the balance of all payments of a transaction; crashes if and only if one of them does |
| `TokenFlow.ConvertAll` | ptn/api_backend.go:623-631 | the same over all transactions |
| `FlowLines.LineTells` | ptnjson/tokenflowjson.go:99-111 | the line of a payment that is seen whole and whose sums fit 64 bits is outgoing if and only if the address holds less after it, and its amount is the difference |
| `FlowLines.LineTellsFee` | ptnjson/tokenflowjson.go:91-94 | for a payment of one asset, the fee of its line is what all inputs are worth less what all outputs are worth; where it pays out more than it takes in, that wraps around 2^64, or is 0 if it takes in nothing |
| `FlowLines.MintHasNoFee` | ptnjson/tokenflowjson.go:91-94 | without inputs it is 0 |
| `FlowLines.LinesTellLedger` | ptn/api_backend.go:613-631 | in whatever order the address's transactions of a complete chain are replayed whose payments are seen whole and whose sums fit 64 bits, every line has the direction and the amount by which the ledger balance of the chain changes at its payment, and that fee |
| `AddressFlow.AlwaysRightIff` | ptn/api_backend.go:617-620 | every way to sort the transactions by time gives lines that show the ledger if and only if, of two with the same time, one having a line implies that the other changes the balance by 0 modulo 2^64 |
| `AddressFlow.FlowAlwaysRightIff` | ptn/api_backend.go:613-631 | so for the address's transactions of every complete chain behind whose payments nothing lies |
| `AddressFlow.TiesGoWrong` | ptn/api_backend.go:617-620 | somebody is given an amount twice at the same time: one way to sort gives lines with balances that are not those after their payments |
| `AddressFlow.GetAddrTokenFlow` | ptn/api_backend.go:604-632 | the lines in an order of time, and a balance that any other order gives too; crash, final balance and lines of a complete chain - balance, direction, amount and fee - under the exact conditions above |
| `BalanceStats.BalancesSumToSupply` | ptn/api_backend.go:1009-1034 | the balances of all addresses add up to the sum of the matching, decodable, non-blacklisted outputs |
| `BalanceStats.BlacklistBalance` | ptn/api_backend.go:1023-1025 | a blacklisted address has no balance, and every other one has what it would have without the blacklist |
| `BalanceStats.SupplyLessBarred` | ptn/api_backend.go:1023-1025 | the supply is that without a blacklist less exactly what blacklisted addresses own |
| `BalanceStats.Tally` | ptn/api_backend.go:1003-1034 | the loops compute balances and supply modulo 2^64, for exactly the owners of such outputs |
| `BalanceStats.ReportExactIff` | ptn/api_backend.go:1018-1034 | the report is exact if and only if the supply is below 2^64 |
| `BalanceStats.ReportAddsUp` | ptn/api_backend.go:1018-1034 | reported balances add up to the reported total modulo 2^64 whatever overflowed |
| `BalanceStats.TopBalances` | ptn/api_backend.go:1036-1059 | the list is descending, names each address once with its balance, has the length asked for, and no address it leaves out holds more than one it names |
| `BalanceStats.GetAddressBalanceStatistics` | ptn/api_backend.go:992-1061 | the whole report; it lists no blacklisted address, and its total is what there is less what blacklisted addresses own, modulo 2^64 |
| `ChainAudit.PathBound` | dag/dag.go:1383-1403 | a chain of falling heights is never longer than the header table, so the audit ends on every store of fewer than 2^64 headers, cyclic ones included |
| `ChainAudit.Walk` | dag/dag.go:1383-1403 | each outcome of the loop is explained by the chain walked so far, and it completes if and only if a complete chain exists |
| `ChainAudit.CheckHeaderCorrect` | dag/dag.go:1372-1405 | the audit passes if and only if a complete parent chain with heights falling by one hangs below the start, which is the newest stable height for number 0; it panics exactly without a newest unit or on a first header without parents |
| `ChainAudit.AuditCoversHeights` | dag/dag.go:1372-1405 | an audit that ended at height 0 has seen a header at every height below its start |
| `ChainAudit.ReachesZeroIff` | dag/dag.go:1383-1403 | where one stored header has no parents, a passed audit reached height 0 if and only if that header is at height 0 |
| `ChainAudit.RootsAtZeroCover` | dag/dag.go:1372-1405 | where all stored headers without parents are at height 0, a passed audit has seen every height below its start |
| `ChainAudit.OtherRootPasses` | dag/dag.go:1393-1399 | a header without parents at any other height passes below a start one above it |
| `ChainAudit.AuditCanStopEarly` | dag/dag.go:1393-1399 | a two-header chain that ends at height 7 and passes |
| `Migration.HaltsIff` | dag/dag.go:703-724 | the loop ends if and only if the table leads to the program's version or a failing upgrade, within as many upgrades as the table holds |
| `Migration.UnknownSpins` | dag/dag.go:703-717 | it never ends on an unknown version |
| `Migration.SoonOrNever` | dag/dag.go:703-724 | a loop still running after one round more than the table has entries runs for ever |
| `Migration.EndsDistinct` | dag/dag.go:703-717 | no upgrade is made twice |
| `Migration.RestartsComplete` | dag/dag.go:676-731 | after any number of failed and repeated start-ups, the completed upgrades are those of one start-up without failures, each once and in order |
| `Migration.StateDb.CheckDbMigration` | dag/dag.go:676-731 | for every stored version and number of rounds, what the loop has stored and completed by then; once it stops the stored version is that of the last completed upgrade, and the program's exactly on success; after one round more than the table has entries it is still running if and only if it never stops |
| `Releases.StartupIff` | dag/migration/versions.go:26-104 | with the repository's table and upgrades that work, start-up ends exactly from the versions of the table and from 1.0.5-hotfix1 |
| `Releases.Climb` | dag/migration/versions.go:26-104 | from any release, start-up makes all upgrades from there on, one release after the other, and no other |

## Left out

- GossipNode.ProtocolManager.IsExistInCache: one step here and in the step system, a lookup and an addition in the code; `ReceivedCache` states what the difference allows.
- GossipNode.Peer.Mark: one step here and in the step system, separate calls for the test, each pop and the addition in the code; `KnownSet` states what the difference allows.
- GossipNode.ProtocolManager.Transmit: a message is born once and at one node; `RacyGossip` does without that.
- GossipTheorems.Coverage: assumes that the received-cache does not evict, that hashes are injective, that links are symmetric and do not change, and that a message is born once.
- GossipTheorems.DealRouting: under the same assumptions as coverage, and with one owner relation that is the same for all nodes and does not change; in the code each node reads it from its own chain state.
- RacyGossip.RacyCoverage: one message that is a response or a group signature, without its deliveries; the received-cache does not evict.
- HeaderQuery.GetBlockHeaders: one asset; unstable and partition stores are one store; running out of memory below the runtime's limit for a slice is not modelled.
- HeaderTheorems.ForwardModesAgree: the two copies of the traversal in `ptn` and `light` are one model.
- Payments.CreateGenericTransaction: the data fee is a parameter, since `calculateDataFee` computes it in floating point.
- Payments.BuildPayload: lock scripts stand for the address they pay to; certificates and signatures are not modelled.
- TokenFlow.ConvertPayment: the address lists of a line are not modelled.
- AddressFlow.GetAddrTokenFlow: starts from the parsed address and token and the transactions; a parse or database error ends the call before.
- FlowLines.LinesTellLedger: for payments whose inputs and outputs are worth less than 2^64 each in all; beyond that direction, amount and fee are those of the wrapped sums.
- AddressFlow.AlwaysRightIff: for a chain whose order is an order of time, without repeated transactions or payment ids.
- TokenLedger.StepHoldings: inputs name outputs of earlier payments, of the same transaction or others, as the ledger's own update requires.
- Fetcher.LightFetcher.PopItem: the priority queue is a bag, so nothing is claimed about the order of imports; the quit event is not modelled.
- BalanceStats.GetAddressBalanceStatistics: starts from the outputs and the parsed token; a database or parse error ends the call before.
- ChainAudit.CheckHeaderCorrect: needs fewer than 2^64 stored headers; the periodic log line is not modelled.
- Migration.StateDb.CheckDbMigration: a failure to save the version, which the code ignores, is not modelled, and an upgrade either completes or fails as a whole.
- Signature shares: their broadcast filter looks up another hash than the one that is marked, so no gossip claim is made for them.
- Votes for mediators (`GenVoteMediatorTx`) and the unit audit (`CheckUnitsCorrect`): they would add members like those that are here.
- Cryptography, codecs, scripts, JSON views, RPC, timers, handshakes, the downloader, the memory DAG and the transaction pool.
