# Relay, segmented ingestion and key store of the TransEuroOGS KMS

This project models three parts of the key management service and proves what they promise.

**The relay** (`Relay*.dfy`, with `Uuid`, `Core`, `Peering`, `Etsi020`). Every node keeps a journaled state: key
records with their flags, an insertion order, round-robin cursors and an outbox of acknowledgements. A handler works
on a copy of that state and the copy is journaled before anything becomes visible. `RelayState` gives each handler as
a function from state to outcome. `RelayDraft` and `RelayEngine` are the imperative form: a working copy edited in
place and an engine that commits it, every method proved equal to its function. `RelayNetwork` is a network of such
nodes with messages that may be lost, duplicated and reordered, workers that let go of the lock between looking at a
record and committing to a peer, saves that fail with the old or the new state on disk, and crashes. A run is any
sequence of labels; the theorems quantify over all of them. A network remembers, besides its nodes and messages, where
each key was stored, the nodes it visited, which acknowledgements were committed, and what was handed out.

- `RelayInvariant`, `RelayHandlers`: one node's invariant and the moves a handler may make.
- `RelayTrace`, `RelayMoves`, `RelayRuns`: the network's invariant and its preservation by every label.
- `RelayTheorems`, `RelayNode`, `RelayTurns`, `RelayTokens`: agreement, single delivery, pinning, voids, outbox,
  material, atomicity, inventory, capacity, round robin, reservations.
- `RelayEffects`, `RelayAckEffects`, `RelayVoidEffects`, `RelayTransferEffects`, `RelayLocalEffects`: when each request
  is accepted, and what it makes of every record and of the results pending about every key, written out key by key
  without the handlers' functions.
- `RelayVerdicts`, `RelayVoidProgress`: over runs, what results say, that a key whose time has come is never said to be
  relayed, and that a void completes once its neighbours have confirmed.
- `RelayWiring`, `RelayWork`, `RelayProgress`: two rounds of worker steps per hop make the source ready.
- `RelayWorker`: the worker's own step with its loops, letting go of the lock before every call; every execution is a
  run of the network, one whose calls go through is a step in the sense of the progress theorem, and rounds of them
  make the source ready.
- `RelayVoidGap`, `RelayLine`: where the documentation promises too much about voids, with concrete runs.

**The memory repository** (`Memory*.dfy`). `MemoryLedger` gives the lazy operations, `MemoryStore` the class with
its scanning loops, `MemoryReference` the ledger that sweeps everything first and the refinement between the two,
`MemoryHistory` what holds after any sequence of calls, and `MemoryTimes` what each call then grants, hands out or tells,
by the keys as they were stored.

**Segmented ingestion** (`Ingest*.dfy`, `Client014`, `Segmented`). A site writes its intent, calls a provider that must
not be asked twice, checks the reply and writes the outcome. `IngestState` and `IngestRepository` are the two forms of
the repository, `IngestService` says exactly when a call succeeds and with what, `IngestInvariant` and `IngestRuns` give
its books over runs with failing saves and crashes, for any provider.
`Segmented` puts a memory repository, a master site and a slave site together.

## Where documentation and code differ

`docs/ETSI020_PROFILE.md:79-80` says that "failed to void" propagates when a recipient has consumed its copy. In the
code a neighbour that asks for a void counts as having confirmed it (`src/internal/relay/engine.go:381-384`). When the
request comes from the next hop, the relay no longer waits for that hop's verdict and may tell its sender "voided"
although the target has delivered. The model follows the code. `RelayTheorems.VoidSoundness` proves the promise, for
everything that may still happen, whenever none of the nodes the key visited from the speaking one on has at that moment
been asked by its own next hop. `RelayVoidGap.UpwardVoidHidesDelivery` shows that otherwise the promise can be broken,
from every state in which a relay has brought a key to a target that delivered it; and `RelayVoidGap.RelayCannotTell` that
the node has no better condition to go by: the same journal of the relay arises when the target delivered and when it
did not. `RelayLine.LineMisleads` with `RelayLine.ThreeInLine` gives a network of three nodes and runs from its start
that do both.

`StartVoid` also forgets the reservation of a voided key (`src/internal/relay/engine.go:362`). A relay reservation may
therefore shrink: `RelayTokens.ReservationKeepsItsMembers` says exactly what consuming it then comes to. The memory and ingestion
repositories deliver exactly the reserved batch or nothing.

## Model

| member | source | states |
|---|---|---|
| Uuid.ValidIffCanonical | src/internal/core/key.go:35-42 | a string is accepted exactly when it is the canonical text of some 16 bytes with version 4 and variant 10 (sections 4 and 5.4 of RFC 9562) |
| Uuid.CanonicalDecodes | src/internal/core/key.go:35-42 | removing all dashes from a canonical text and decoding the rest gives the bytes back |
| Uuid.NewID | src/internal/core/key.go:27-33 | whatever the random bytes, the identifier is valid and is the text of the bytes with version and variant set |
| Peering.Validate | src/internal/peering/config.go:50-81 | accepts exactly configurations with distinct peer identities and addresses, none the node's own, distinct local recipients, and non-empty duplicate-free routes of known peers to non-local targets |
| Etsi020.ValidateTransfer | src/internal/etsi020/models.go:92-130 | accepts exactly batches of 1 to 128 well-formed keys with distinct identifiers for one pair, with the error the checks would report first |
| Etsi020.ValidateAcks | src/internal/etsi020/models.go:131-156 | accepts exactly groups of single-pair results whose identifiers are valid and distinct across the whole group; refuses any other with the error of its first result out of order |
| Etsi020.ValidateVoid | src/internal/etsi020/models.go:157-178 | accepts distinct valid identifiers of one pair; an empty list only when all keys are asked for, with an error of its own |
| Etsi020.PairRules | src/internal/etsi020/models.go:92-105 | one recipient each, well named and different; several good targets are unsupported, anything else invalid |
| Etsi020.TransferRules | src/internal/etsi020/models.go:106-130 | the conditions on a transfer with their limits in numbers, and which fault is reported when there are several |
| Etsi020.AcksRules | src/internal/etsi020/models.go:131-156 | the conditions on a group of results; the first result with which the group is not well formed decides the error |
| Etsi020.VoidRules | src/internal/etsi020/models.go:157-178 | the conditions on a request to void, and which fault is reported when there are several |
| RelayDraft.Draft.Enqueue | src/internal/relay/engine.go:234-249 | the in-place outbox scan leaves one result per key and peer: an equal one stays, another is replaced, nobody is owed nothing |
| RelayDraft.Draft.StartVoid | src/internal/relay/engine.go:358-385 | discards material, readiness and reservation once, collects the neighbours that must confirm, drops stale results, records the requester |
| RelayDraft.Draft.FinishVoid | src/internal/relay/engine.go:386-400 | once nothing is outstanding, every requester is owed the record's verdict, whatever the order of the requesters |
| RelayDraft.Draft.NextCandidates | src/internal/relay/engine.go:172-187 | the loop computes the route from the cursor on without the sender and moves the cursor by one |
| RelayEngine.Engine.constructor | src/internal/relay/engine.go:77-117 | opening commits the journaled or the empty state once more; a failing save leaves a broken engine |
| RelayEngine.Engine.Commit | src/internal/relay/engine.go:130-170 | live state and journal move together; a failed save leaves the old or the new state on disk and poisons the process |
| RelayEngine.Engine.StoreKey | src/internal/relay/engine.go:209-233 | one transaction carrying out the storing handler, errors in the order of the checks |
| RelayEngine.Engine.Accept | src/internal/relay/engine.go:250-308 | check pass and editing pass amount to one transaction; a refusal in the middle of the batch leaves the store as it was |
| RelayEngine.Engine.Acknowledge | src/internal/relay/engine.go:309-357 | all results of a group are checked before any is applied, then applied in order, in one transaction |
| RelayEngine.Engine.VoidKeysOf | src/internal/relay/engine.go:401-464 | explicit, empty and unmatched lists, unknown keys and capacity, in one transaction |
| RelayEngine.Engine.ReserveKeys | src/internal/relay/engine.go:469-499 | the scan with early exit reserves the first n available keys or changes nothing |
| RelayEngine.Engine.ConsumeReservation | src/internal/relay/engine.go:500-537 | all keys carrying the token are delivered and cleared in one transaction, or none |
| RelayEngine.Engine.ConsumePeerKeys | src/internal/relay/engine.go:538-581 | the whole requested batch is delivered and cleared in one transaction, or none |
| RelayEngine.Engine.InvalidateKey | src/internal/relay/engine.go:582-592 | voids a known key on the operator's request |
| RelayEngine.Engine.CountAvailable | src/internal/relay/engine.go:593-606 | counts over the map, in any order, the keys available for the pair; zero when the engine is broken |
| RelayEngine.Engine.ExpireDue | src/internal/relay/engine.go:689-709 | the sweep in any order voids exactly the due records in one transaction |
| RelayEngine.Engine.PersistSend | src/internal/relay/engine.go:788-802 | the intent to send is journaled before the transfer is posted, and refused when the key was voided, acknowledged or expired meanwhile |
| RelayEngine.Engine.PersistDefer | src/internal/relay/engine.go:767-786 | postpones the next attempt, nothing else |
| RelayEngine.Engine.FinishAck | src/internal/relay/engine.go:724-737 | an answered result leaves the outbox, an unanswered one is postponed, a vanished one is ignored |
| RelayHandlers.StoreMoves | src/internal/relay/engine.go:209-233 | storing keeps the node's invariant and adds a source record of exactly that key |
| RelayHandlers.AcceptMoves | src/internal/relay/engine.go:250-308 | a transfer keeps the invariant; known records only move forward, new ones carry the sender, pair and bytes of the message |
| RelayHandlers.AcknowledgeMoves | src/internal/relay/engine.go:309-357 | acknowledgements keep the invariant; a record becomes ready only on "relayed" from its next hop |
| RelayHandlers.VoidRequestMoves | src/internal/relay/engine.go:401-464 | voids keep the invariant; unknown keys become tombstones of that sender |
| RelayHandlers.ReserveMoves | src/internal/relay/engine.go:469-499 | a reservation keeps the invariant and marks only free, ready source keys, with a token newer than all before |
| RelayHandlers.ConsumeReservationMoves | src/internal/relay/engine.go:500-537 | consumption keeps the invariant and marks delivered only what was usable |
| RelayHandlers.ConsumePeerMoves | src/internal/relay/engine.go:538-581 | the same for target keys |
| RelayHandlers.ExpireMoves | src/internal/relay/engine.go:689-709 | expiry keeps the invariant and loses no result that is still owed |
| RelayHandlers.CommitSendMoves | src/internal/relay/engine.go:788-802 | committing to a peer keeps the invariant, pins an unsent key to a candidate and a sent key to its peer |
| RelayHandlers.AckSentMoves | src/internal/relay/engine.go:724-737 | removing an answered result keeps the invariant and touches no other result |
| RelayTransferEffects.StoreEffect | src/internal/relay/engine.go:209-233 | a key is stored exactly when it is valid now, its master alone is local, it is new, fits and has a route; its record is unsent with the whole route as candidates, and no other key or result changes |
| RelayTransferEffects.AcceptEffect | src/internal/relay/engine.go:250-308 | exactly the transfers that are the peer's, agree with what is known of each key, fit and can be passed on are accepted; an unknown key gets a record of an hour's life, "relayed" if it is a target's; a known one is answered by what it is, or begins to be voided when its time has come; no other key or result changes |
| RelayAckEffects.AcknowledgeEffect | src/internal/relay/engine.go:309-357 | exactly the groups whose results the peer may report are accepted; on a key being voided each of "voided", "key not present" and "failed to void" takes the peer from those waited for, the last marks a failure, and once nobody is waited for every requester is owed the verdict, anything else changing nothing; a key not voided becomes ready, or begins to be voided when its time has come or the report is another; no other key or result changes |
| RelayVoidEffects.VoidListEffect | src/internal/relay/engine.go:401-464 | exactly the lists the peer may void and that fit are accepted; every known key begins to be voided for the peer or has it among its requesters, with the verdicts that makes due; every unknown one becomes a tombstone for which the peer is owed "key not present" |
| RelayVoidEffects.VoidEverythingEffect | src/internal/relay/engine.go:413-431 | a request for all keys voids exactly those of the pair exchanged with the peer; when there are none it is owed one result that names no key |
| RelayLocalEffects.ExpireEffect | src/internal/relay/engine.go:689-709 | the sweep begins to void exactly the records not being voided with `expires <= now`: their bytes and their pending results are gone; every other record and result stays |
| RelayLocalEffects.ReserveEffect | src/internal/relay/engine.go:469-499 | a batch is reserved exactly when the pair's master is local and 1 <= n <= 128 of its keys are ready, alive and not reserved; the first n in insertion order are marked with the new token, nothing else changes |
| RelayLocalEffects.ConsumeReservationEffect | src/internal/relay/engine.go:500-537 | a token is consumed exactly when some key carries it and all that do are the pair's and alive; all of them are handed out with their bytes in insertion order, and are delivered without bytes |
| RelayLocalEffects.ConsumePeerEffect | src/internal/relay/engine.go:538-581 | keys are consumed by name exactly when the pair's slave is local and all 1 to 128 are valid, distinct, received for the pair and alive; they are handed out in the order asked |
| RelayLocalEffects.InvalidateEffect | src/internal/relay/engine.go:582-592 | exactly a known key can be invalidated; it begins to be voided, or goes on being so, with the verdicts that makes due |
| RelayLocalEffects.SendEffect | src/internal/relay/engine.go:788-802 | sending is journaled exactly while the record is not voided, not ready and not expired; it pins the peer and puts the next attempt off by a second, nothing else changes |
| RelayLocalEffects.SendsWhatItHas | src/internal/relay/engine.go:803-805 | the transfer built from a record still to be sent has the key, extensions and pair that were stored or received |
| RelayLocalEffects.AnsweredEffect | src/internal/relay/engine.go:724-737 | a delivered result leaves the outbox with no other |
| RelayLocalEffects.UnansweredEffect | src/internal/relay/engine.go:724-737 | a result that did not arrive stays for a second later, and all others as they are |
| RelayRuns.RunKeeps | src/internal/relay/engine.go:77-806 | every run from empty nodes ends in a network satisfying the network invariant |
| RelayRuns.RunGrows | src/internal/relay/engine.go:130-170 | however a run goes on, no committed record, flag, route, pin, reservation, message, path or release is taken back |
| RelayTheorems.OriginIsStored | src/internal/relay/engine.go:209-233 | what a run counts as stored was offered by a storing step at that node with that pair and those bytes |
| RelayTheorems.EndToEndAgreement | src/internal/relay/engine.go:250-357 | a ready source record implies that some target accepted the key for the same pair and with the stored bytes |
| RelayTheorems.DeliveredBytesAgree | src/internal/relay/engine.go:500-581 | all releases of a key, at either end, hand out the stored bytes |
| RelayTheorems.NeverRevived | src/internal/relay/engine.go:466-468 | a record that is being voided or was delivered is never usable again, whatever arrives, crashes or reopens |
| RelayTheorems.NoReleaseAfter | src/internal/relay/engine.go:358-385 | nothing is released at a node for a key once it is being voided or delivered there |
| RelayTheorems.SingleDelivery | src/internal/relay/engine.go:500-581 | over a whole run each node releases a key at most once, as source or target, before it expires, and clears it |
| RelayTheorems.Pinned | src/internal/relay/engine.go:746-806 | every transfer sent goes to the journaled next hop, a candidate from the route and never the sender, and carries the original bytes even from a stale copy |
| RelayTheorems.OnePeerPerKey | src/internal/relay/engine.go:788-805 | two transfers of one node with any key in common go to one peer |
| RelayTheorems.VoidSoundness | src/internal/relay/engine.go:358-464 | once a node owes or has sent "voided" or "key not present", no target has delivered the key or will in any continuation, if at that moment no node the key visited from there on has been asked by its own next hop |
| RelayTheorems.OutboxCurrent | src/internal/relay/engine.go:234-249 | every pending result about a key is the only one for that peer, goes to a peer that is owed it, and carries the record's current status |
| RelayTheorems.OutboxComplete | src/internal/relay/engine.go:342-400 | the result owed to the sender of a ready key, and to every requester once nothing is outstanding, is pending or was committed by that peer |
| RelayVerdicts.PendingVerdicts | src/internal/relay/engine.go:386-400 | at every moment of every run a pending result about a key is "relayed" exactly when the key is not being voided, "failed to void" when it is and failed, "key not present" when it is unknown and has not failed, and else "voided"; one about no key is "key not present" |
| RelayVerdicts.SentVerdicts | src/internal/relay/engine.go:234-249 | every result ever sent says one of these four things, of one key its sender has a record of, which is then being voided and failed, unknown, or known, as the verdict says; or of none and then "key not present" |
| RelayVerdicts.ExpiredNeverRelayed | src/internal/relay/engine.go:281-333 | an accepted transfer or group of results about a key with `expires <= now` leaves it being voided, with no result that says it was relayed |
| RelayVoidProgress.VoidCompletes | src/internal/relay/engine.go:334-400 | in every run, once each neighbour a void waited for has had a confirmation of it committed or has asked for the void itself, nobody is waited for, and every requester is owed the verdict or has committed it |
| RelayTheorems.MaterialConserved | src/internal/relay/engine.go:328-368 | ends hold the stored bytes exactly until voided or delivered, relays exactly until voided or acknowledged, and nothing afterwards |
| RelayTheorems.RefusalLeavesNoTrace | src/internal/relay/engine.go:130-170 | a corollary, for whole networks, of what Accept, Acknowledge, VoidKeysOf and the other methods of the engine prove of a refusal in the middle of a batch: a refused key, transfer, acknowledgement, void, reservation, consumption or invalidation leaves the network as it was; a serving node's live state is its journal |
| RelayNode.OutboxBound | src/internal/relay/engine.go:234-249 | the outbox never holds more than two results per key and one per peer and allowed pair |
| RelayNode.ReservesWhatInventoryShows | src/internal/relay/engine.go:469-606 | n keys can be reserved exactly when the inventory shows n, and they are the first n available in insertion order |
| RelayNode.TurnIsRotation | src/internal/relay/engine.go:172-187 | each candidate list is the route rotated to the position whose turn it is, and the turn passes on |
| RelayTurns.AcceptFits | src/internal/relay/engine.go:262-307 | a transfer that is accepted leaves the node within its lifetime capacity, whatever state it started from |
| RelayTurns.NodesStayWithinBounds | src/internal/relay/engine.go:209-464 | at every moment of every run a node has no more records than its capacity, stored, transferred or voided in advance, and no more than two results per record and one per peer and allowed pair in its outbox |
| RelayTurns.RecordsTakeTurns | src/internal/relay/engine.go:172-187 | at every moment of every run the k-th record forwarded to a target has as candidates the route rotated by k without its sender; refused and rolled-back requests and reopenings use up no turn |
| RelayTurns.RoundRobinBalance | src/internal/relay/engine.go:172-187 | at every moment of every run, of every window of consecutive records a node forwards to a target, none from a peer on the route, each peer of the route is first choice of the rounded-down or the rounded-up even share |
| RelayTokens.ReservationKeepsItsMembers | src/internal/relay/engine.go:469-537 | after any run, what consuming a reservation comes to: nothing found when all members were voided or delivered since, refused for another pair, failing as a whole when one of the rest has expired, and otherwise delivering exactly the rest, in the order reserved |
| RelayTokens.NoReplay | src/internal/relay/engine.go:500-537 | a token spent once, even by a save whose outcome is unknown to the caller, is refused ever after |
| RelayWorker.Worker.SendRecord | src/internal/relay/engine.go:746-806 | the visit to one key: nothing when it is not due; every outstanding void posted and the next attempt put off; else the first candidate that answers, or the pinned peer, committed to before the transfer is posted, whatever others do meanwhile; and nothing the record does not call for |
| RelayWorker.Worker.Report | src/internal/relay/engine.go:717-738 | every copied result that is due is posted, and dropped or postponed by its answer; one that is not due is left; only a cancelled context ends the pass early |
| RelayWorker.Worker.Step | src/internal/relay/engine.go:681-745 | the step is a run of the network with other labels at every release of the lock: a sweep exactly when some key's time has come, the outbox copied, then every copied result and after them every listed key in insertion order attended to; it does nothing if its process was poisoned before, ends with its sweep if the process was poisoned by then, and ends early after the copy only when its context is cancelled |
| RelayWorker.StepCounts | src/internal/relay/engine.go:681-806 | a step of the worker whose calls about a key go through is a step in the sense of the progress theorem |
| RelayProgress.StepHelps | src/internal/relay/engine.go:681-806 | while hops are left, a step of the node whose turn it is, spread over a run in any way, takes the key at least one hop forth or its acknowledgement one hop back |
| RelayProgress.SourceBecomesReady | src/internal/relay/engine.go:681-806 | in every run, 2h rounds after it is there a source record at most h hops from the target is ready; in a round every node the routes from there lead to takes a step about the key whose due results are answered and whose transfer goes through, with any other labels before, between and within the steps, and the key is not voided; the other nodes of the network are arbitrary |
| RelayWorker.WorkersMakeReady | src/internal/relay/engine.go:681-806 | the same for the worker's own step: in every run, once the workers on the routes from the source's node took 2h rounds of whole steps whose calls about the key went through, the source record is ready |
| RelayVoidGap.UpwardVoidHidesDelivery | src/internal/relay/engine.go:381-400 | from every state in which a relay brought a key to a target that delivered it, two void requests, the first from the target, make the relay owe its sender "voided" |
| RelayVoidGap.RelayCannotTell | src/internal/relay/engine.go:381-400 | if the relay's journal is the same in two runs, with the key delivered at the target in one only, they continue to the same journal again, in which the relay owes "voided", wrongly in one and rightly in the other |
| RelayLine.LineMisleads | src/internal/relay/engine.go:381-400 | on every line of three nodes, for every valid key, there are two runs from the start that end like that |
| RelayLine.ThreeInLine | src/internal/peering/config.go:50-81 | a concrete configuration of three nodes is such a line |
| MemoryStore.Memory.Open | src/internal/storage/memory.go:33-41 | a repository is opened exactly for capacities 1 to 100000, and is empty |
| MemoryStore.Memory.StoreKey | src/internal/storage/memory.go:43-61 | stores a valid new key within capacity for both sides, or reports the first failing check and changes nothing |
| MemoryStore.Memory.Expire | src/internal/storage/memory.go:63-78 | ends exactly the open sides of one entry once its time is up |
| MemoryStore.Memory.ReserveKeys | src/internal/storage/memory.go:80-113 | the expiring scan with early exit, the fresh token and the marking loop are the ledger's reservation |
| MemoryStore.Memory.ConsumeReservation | src/internal/storage/memory.go:115-144 | the expiring check and the delivering loop are the ledger's consumption |
| MemoryStore.Memory.ConsumePeerKeys | src/internal/storage/memory.go:146-182 | the same for the slave's copies, by identifier |
| MemoryStore.Memory.InvalidateKey | src/internal/storage/memory.go:184-203 | ends the sides still open, after expiry |
| MemoryStore.Memory.Metadata | src/internal/storage/memory.go:205-214 | reports the entry after expiring it |
| MemoryStore.Memory.Inventory | src/internal/storage/memory.go:216-228 | expires everything and counts what is on offer, in any order |
| MemoryReference.StepRefines | src/internal/storage/memory.go:43-228 | one lazy call answers as the ledger that sweeps first, and the swept states agree afterwards |
| MemoryReference.LazyExpiryRefines | src/internal/storage/memory.go:63-228 | under a clock that never runs backwards every sequence of calls gets the same answers as from the ledger that sweeps everything before every call |
| MemoryReference.InventoryIsAllocation | src/internal/storage/memory.go:80-113 | at one instant n keys can be reserved exactly when the inventory shows n; they are the first n on offer in insertion order, under an unused token |
| MemoryHistory.EveryHistory | src/internal/storage/memory.go:43-203 | after any calls under any clock: only eight pairs of states; each side's bytes are the stored ones exactly while it is open; reservations are disjoint and cover what is reserved; each side was handed a key at most once, the slave only after the master |
| MemoryHistory.ReservationHandsItsBatch | src/internal/storage/memory.go:115-144 | consuming a reservation hands out exactly the keys it was made of, in order, with their stored bytes |
| MemoryTimes.StoresWhatFits | src/internal/storage/memory.go:43-61 | after any calls a key is taken exactly when it is valid now, new and within capacity, and is then on offer to its master |
| MemoryTimes.GrantsWhatIsOnOffer | src/internal/storage/memory.go:80-113 | after any calls a batch is granted exactly when n keys stored for the pair, with `expires > now`, are available; it is the first n of them, and the inventory shows how many there are |
| MemoryTimes.DeliversWhatIsReserved | src/internal/storage/memory.go:115-144 | after any calls a reservation is consumed exactly by its pair while every key is reserved and stored with `expires > now`; it hands out their stored bytes in order |
| MemoryTimes.DeliversWhatIsNamed | src/internal/storage/memory.go:146-182 | the same for the slave's copies by identifier, once the master has consumed its own |
| MemoryTimes.MetadataTells | src/internal/storage/memory.go:205-214 | after any calls the metadata are the stored pair, source and times; before `expires` each side is as the calls left it, from then on none is open |
| MemoryTimes.EndsOnlySo | src/internal/storage/memory.go:63-203 | a side that was open and is not after a call was handed out by it, invalidated by it, or its stored time was up |
| MemoryTimes.ExpiredByThen | src/internal/storage/memory.go:63-78 | after any calls a side that reads expired belongs to a key whose stored time some call had reached |
| MemoryTimes.InvalidatesWhatIsOpen | src/internal/storage/memory.go:184-203 | exactly a stored key can be invalidated; a side still open is expired if its time was up, else invalid, and no other key changes |
| Client014.ValidateKeys | src/internal/etsi014/client.go:130-158 | accepts exactly complete replies of distinct, well-formed, full-length keys, all of them asked for |
| Client014.Allocate | src/internal/etsi014/client.go:160-172 | nothing is sent unless the role and count allow it; an accepted reply has the count asked for |
| Client014.Retrieve | src/internal/etsi014/client.go:174-195 | what is sent names exactly the keys asked for; an accepted reply is a permutation of them |
| Client014.PermutesRequest | src/internal/etsi014/client.go:139-157 | right length, no repetition and membership are enough for every key asked for to be answered |
| IngestRepository.Repository.Open | src/internal/ingest/repository.go:59-115 | recovery in any order, expiry and saving; a journal over capacity or not saved again is not served |
| IngestRepository.Repository.Recover | src/internal/ingest/repository.go:84-99 | every pending request becomes uncertain and its keys invalid, nothing else changes |
| IngestRepository.Repository.ExpireKeys | src/internal/ingest/repository.go:130-144 | the sweep in any order ends exactly the due keys and saves only when there were any |
| IngestRepository.Repository.BeginRequest | src/internal/ingest/repository.go:154-176 | the intent is journaled under an unused token and counted before the provider is called |
| IngestRepository.Repository.MarkUncertain | src/internal/ingest/repository.go:182-195 | the request is uncertain and its keys invalid, journaled |
| IngestRepository.Repository.Validate | src/internal/ingest/repository.go:198-217 | accepts exactly complete replies in time with distinct well-formed keys, among those asked for or new to the site |
| IngestRepository.Repository.ReserveKeys | src/internal/ingest/repository.go:222-246 | intent, reply, check and outcome amount to the two halves of the site's reservation, for every reply and every way the saves end |
| IngestRepository.Repository.ConsumeReservation | src/internal/ingest/repository.go:248-278 | a stored, unexpired batch is handed out and cleared as a whole, only once journaled |
| IngestRepository.Repository.ConsumePeerKeys | src/internal/ingest/repository.go:280-323 | the named keys are journaled before the retrieval and handed out in the order asked, only once journaled |
| IngestRepository.Repository.InvalidateKey | src/internal/ingest/repository.go:325-342 | ends an open key, leaves a finished one alone |
| IngestRepository.Repository.CountOffer | src/internal/ingest/repository.go:364-376 | shows no more than the provider offers and the capacity leaves |
| IngestService.OpenIs | src/internal/ingest/repository.go:59-115 | what is served after opening: pending requests uncertain and their keys invalid, due keys ended; shut exactly by a journal beyond capacity or a failing save |
| IngestService.ExpireIs | src/internal/ingest/repository.go:130-144 | exactly the unspent keys with `expires <= now` end, and a save happens only when there are some |
| IngestService.BeginIs | src/internal/ingest/repository.go:154-176 | an intent is written exactly for 1 to 128 keys within capacity and a good save: counted, pending, to live for the profile's lifetime, with an empty record for every key named |
| IngestService.EndReserveIs | src/internal/ingest/repository.go:230-246 | a complete reply in time is kept key by key under its request; after any other the request is uncertain, its keys invalid and the keys unavailable |
| IngestService.ReserveIs | src/internal/ingest/repository.go:222-246 | every outcome of a reservation: with the right role and pair, 1 <= n <= 128, attempts + n within capacity and good saves, n distinct new valid 32-byte keys replied before `begun + lifetime` are granted with exactly those identifiers in order and that lifetime, and otherwise the keys are unavailable |
| IngestService.ConsumeIs | src/internal/ingest/repository.go:248-278 | every outcome of consuming: the bytes are handed out in order exactly while the request is stored, in time, and all its keys are there, and all of them are gone afterwards |
| IngestService.EndRetrieveIs | src/internal/ingest/repository.go:297-323 | a full reply to these names in time consumes the request and its keys; after any other the request is uncertain and its keys invalid |
| IngestService.RetrieveIs | src/internal/ingest/repository.go:280-323 | every outcome of a retrieval: names are refused as they stand, and a full reply to exactly these names before `begun + lifetime` is handed out in the order asked, any other leaves them unavailable |
| IngestService.InvalidateIs | src/internal/ingest/repository.go:325-342 | every outcome of an invalidation: an unspent key ends without bytes and with its times, and nothing else changes |
| IngestService.InventoryIs | src/internal/ingest/repository.go:364-376 | the inventory is the lesser of the offer and the capacity left, and nothing for a call turned away |
| IngestInvariant.Books | src/internal/ingest/repository.go:154-176 | keys are at most attempts, attempts are the sum of all counts and at most the capacity, bytes are kept only for reserved keys of stored reservations |
| IngestRuns.JournalMovesForward | src/internal/ingest/repository.go:59-115 | across crashes and failing saves attempts grow, no request or key is forgotten, phases and key states never go back, bytes once gone stay gone |
| IngestRuns.Accounting | src/internal/ingest/repository.go:130-323 | at every moment of every run, for any provider: the books balance, request lists are disjoint and cover the keys, and a serving site's state is its journal |
| IngestRuns.OnceEach | src/internal/ingest/repository.go:222-323 | a site hands out each key at most once and asks the provider for a named key at most once, for any provider |
| IngestRuns.RetrievalMatches | src/internal/ingest/repository.go:303-316 | an accepted reply to a retrieval is a permutation of the request, so every key gets the bytes bound to it, in the order asked |
| IngestRuns.ReservationHandsItsBatch | src/internal/ingest/repository.go:237-278 | consuming a reservation hands out exactly the keys granted, in order, across crashes and failing saves |
| IngestService.ReservationHonoured | src/internal/ingest/repository.go:237-278 | whatever happened between, crashes included, a reservation granted in a run is consumed exactly while it is stored, none of its keys has ended, and `begun + lifetime` has not come, and then hands out the provider's reply |
| IngestBytes.BytesFromReply | src/internal/ingest/repository.go:237-240 | the only bytes a step brings to a site are those of the reply to its own reservation, and no kept record is overwritten |
| IngestBytes.LoggedFrom | src/internal/ingest/repository.go:264-316 | a master hands out what it kept, a slave what the reply to its retrieval held |
| Segmented.SitesAgree | src/internal/ingest/repository.go:222-323 | however messages are lost, saves fail and sites crash, a key delivered at both sites has the same bytes, those stored at the provider |
| Segmented.OncePerSite | src/internal/ingest/repository.go:222-323 | each site delivers a key at most once and no key is passed to the provider's retrieval twice |
| Segmented.SlaveFollowsMaster | src/internal/storage/memory.go:115-182 | the slave site delivers only keys the provider released to the master side before releasing them to the slave side |

## Left out

- RelayTheorems.VoidSoundness: the condition on the visited nodes is sufficient; it is not necessary, since a next hop that asks may be right, and RelayVoidGap.RelayCannotTell shows that no condition on the speaking node's journal is both.
- RelayTurns.RoundRobinBalance: a window with a record received from a peer on the route is excluded; RelayTurns.RecordsTakeTurns gives the candidates of such records too.
- RelayProgress.SourceBecomesReady: that calls go through, that results and records are due and that receivers have room is required of the steps of each round, not derived from bounds on time.
- RelayWorker.Worker.Step: the passes over the outbox and over the neighbours to be voided are in any order, as a map's are in the code.
- Peering.Validate: URL syntax, the names of peering modes and the state directory are preconditions.
- Etsi020.ValidateTransfer: key values are bytes, so canonical base64 text is not modelled; empty extension objects are not told from absent ones.
- Etsi020.ValidateAcks: message texts and the extensions of results and of their keys are left out, with their limits; empty identifier lists are not told from absent ones.
- Etsi020.ValidateVoid: the extension is left out; empty identifier lists are not told from absent ones.
- Clock readings: a relay transaction reads the clock once where the code reads it several times; the ingestion repository reads it once per phase.
- Fresh identifiers: relay reservations and outbox entries are numbered by the transaction that creates them; tokens of the other repositories come from a supply of draws that do not repeat. A key identifier is stored at most once in a network.
- Encodings: SHA-256 digests, canonical base64, JSON and AES-GCM are taken as injective and lossless; the clauses on configuration and wire messages above say what is a precondition there.
- Extensions: values are carried and compared as opaque text.
- Byte wiping: cleared material becomes the empty sequence; copies in other buffers are not modelled.
- The file system below a save, the state lock of a journal directory and the binding of a journal to its configuration.
- HTTP, TLS, certificates, duplicate-member JSON checks, command-line programs and the simulators; a peer's identity is a parameter of each handler. All nodes call a peer by the same name.
- Voids of all keys of a pair are handled by a node but never sent by one; networks of engines therefore exchange only voids of single keys.
- The background schedule of a worker: pieces of a worker step happen in any order and any number of times, which covers every schedule; only the progress theorem and the worker's own step say which belong together.
- Metadata and Snapshot of the relay, Metadata of the ingestion repository, the refused StoreKey of the ingestion repository, and closing a repository: views and easy members.
- Entries of the memory and ingestion repositories are values in a map rather than shared objects, so aliasing between callers and stored bytes is not modelled.
- Common deadlines across nodes: every call carries its own clock reading.
