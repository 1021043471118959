# Verified model of go-epik-protocol's core

A Dafny model of the parts of go-epik-protocol (an EpiK / Lotus-style node) whose
behaviour is hardest to see from any one function, with proofs of what they keep
over whole runs. `dafny verify dfyconfig.toml` checks everything.

The system has five parts, and the files follow them.

* **The sync scheduler** (`chain/sync_manager.go`). Peers report chain heads; one
  goroutine sorts them into an active set of workers, a queue of tipsets that build
  on active work (`pend`) and a queue of other chains (`deferred`).
  `SyncBuckets`, `SyncBuffer`: the queues and the ring buffer. `SyncSchedule`: the
  handlers as a transition relation, since Go's order of iteration over the worker
  map is free, with the invariant of all runs. `SyncScheduleRuns`, `SyncLosses`,
  `SyncSharing`: what becomes of heads, when one is lost, when two workers get the same;
  `SyncCounterexamples`: runs in which they do. `SyncHistory`: what the scheduler has recorded,
  and so what it starts, told by the events of the run alone. `SyncManager`: the handlers as
  methods that update the manager in place, each proved to take a step of that relation.
* **Flow channels** (`flowchmgr`). `FundsProtocol`, `FundsAccessor`, `FundsProgress`: merging
  fund requests into one chain message, waiting for it, crediting the channel, restarting
  after a crash at any point, and when requests get stuck. `FundsHistory`: queue, messages,
  results, channels and waits told by the events alone. `Lanes`, `FlowVouchers`, `ChannelAccessor`:
  vouchers, lane states, balance checks. `VoucherRules`: which vouchers are accepted, told by the
  stored ones and the chain.
* **Chain assembly** (`chain/sync.go`, `chain/checkpoint.go`, `chain/badtscache.go`).
  `ForkChoice`, `BadBlocks`, `HeaderTraces`, `HeaderCollection`: walking back from a
  target to our chain; `UncheckedFork`, `UnmarkedSubchain`: what that misses. `MessageFetch`, `MessageIteration`: fetching messages with
  concurrent workers and running a callback over the filled tipsets. `BlockMessages`,
  `BlockTimes`: nonce, gas and timestamp rules.
* **The CBOR codec of the sealing API** (`api/cbor_gen.go`): `Cbor`, `SealCodec`,
  `SealTickets`, over the heads of sections 3 and 3.1 of RFC 8949. `WireFormat`: the bytes
  that are written, as literals. `WireAcceptance`: the bytes that are read.
* **The rotating cache blockstore** (`blockstore/timed.go`): `TimedCache`.

`Options`, `MachineInts`, `Division`, `MapSums` and `TipSets` hold shared definitions.

A state machine is written as `Next` or `Step`, a `Run` that is a start state or a run
followed by one event, an invariant `Inv`, and a lemma `RunInvariant` about every run.
Classes carry the source's fields; their methods equate the new state with a function
of the old one, and the properties are proved of that function.

## What is assumed of the surroundings

* Tipsets lie above their parents, and a key determines its tipset.
* `GetBlocks` returns a non-empty, parent-linked list that starts at the requested key;
  `GetChainMessages` returns the messages of a non-empty prefix of the headers asked for.
* Store writes succeed and are atomic one by one. A crash may come between any two.
* The outcomes of signature checks, beacon comparison, the wallet, the message pool, chain
  waits and block validation callbacks are parameters and may be anything.
* The price of a message's size is not negative, and actor nonces fit 64 bits.

## Where the code and its documentation differ

The model follows the code.

* A deferred head "will be processed once a worker is freed" (chain/sync_manager.go:411-412).
  It is lost if the freed worker was the last one (`SyncCounterexamples.DeferredHeadLost`), and
  also, with workers active, when an equally heavy tip of its bucket is started instead
  (`SyncCounterexamples.SiblingLost`). `SyncLosses.HeadLostIff` says for every state of a run, every
  event and every deferred head when the step can lose it, `SyncLosses.DeferredLostIff` says it of
  a selection and `SyncScheduleRuns.KeptByRoundIff` of one round.
* The scheduler deduplicates active syncs (chain/sync_manager.go:49-51). Two workers can get the
  same target, from the deferred queue (`SyncCounterexamples.SharedTargetReachable`) and from the
  pending one (`SyncCounterexamples.SharedByPending`). `SyncSharing.SharedStartIff` says for every
  state of a run and every event when the step can do that.
* Received blocks are checked against the deny list throughout (chain/sync.go:1257-1258). Neither
  the target's own blocks are (`UncheckedFork.BadTargetCollected`) nor the part of a fork that
  `syncFork` returns (`UncheckedFork.BadBlockCollected`). The result is free of bad blocks exactly if
  the target is and no fork was needed or the fetched fork is clean down to where it meets our chain
  (`HeaderCollection.AllCleanIff`, also a clause of `HeaderCollection.CollectHeaders`).
* A fork that is too long or crosses the checkpoint puts the entire subchain on the deny list
  (chain/sync.go:1450-1452). Only the blocks of the target are marked, neither other headers of the
  loop (`UnmarkedSubchain.HeaderStaysUnmarked`) nor what was fetched below them
  (`UnmarkedSubchain.ForkStaysUnmarked`). All of it is marked exactly if the loop leaves the target
  alone and our head is the checkpoint, so that nothing is fetched, or everything fetched had been
  marked before (`HeaderCollection.ForkMarkedIff`).
* An operation that fails does not keep those waiting behind it from being tried
  (flowchmgr/simple.go:157-158). It does after a wait that fails without an answer from the chain
  (`FundsProgress.WaitErrorStarves`): `FundsProgress.StuckIff` says for every run when queued
  requests can no longer get into a message without a restart.
* The incremental voucher total is the recomputed one, except for a voucher that repeats its
  lane's nonce with another amount (`Lanes.IncrementalTotal`); `checkVoucherValidUnlocked`
  rejects those first.
* `submitVoucher` stores a voucher it has not seen without the balance check
  (flowchmgr/flowch.go:433-439): `ChannelAccessor.UnseenSubmitOverclaims`, and
  `ChannelAccessor.UnseenSubmitBoundedIff` for when the balance still covers the lanes.
* A repeated `Value` key with an empty byte string takes the bytes after it
  (api/cbor_gen.go:550-556): `SealTickets.ValueBackIff` and `SealTickets.EmptyValueAgain`.

## Model

| member | source | states |
|---|---|---|
| SyncBuckets.PopSplits | chain/sync_manager.go:570-594 | removing the popped bucket splits the multiset of all tips exactly into the bucket and the rest |
| SyncBuckets.PopRelatedSplits | chain/sync_manager.go:596-608 | the merged related tips and the tips left over make up exactly the tips there were |
| SyncBuckets.PopRelatedTakesAll | chain/sync_manager.go:596-608 | nothing left is related to the tipset, no bucket is altered, every related tip is handed out |
| SyncBuckets.InsertConserves | chain/sync_manager.go:560-568 | inserting adds the tip once, or nothing if its bucket holds an equal one |
| SyncBuckets.BestIsGlobalMaximum | chain/sync_manager.go:570-620 | the popped bucket and `Heaviest` give a maximum over every tip of every bucket |
| SyncBuckets.FirstMaxIsMax | chain/sync_manager.go:679-691 | the heaviest tip of a bucket is heavier than all before it and no lighter than any after it |
| SyncBuckets.AddKeepsShape | chain/sync_manager.go:641-677 | adding a related tip keeps a bucket non-empty, duplicate-free and connected by parent links |
| SyncBuckets.InsertKeepsShape | chain/sync_manager.go:560-568 | every bucket stays well formed and grows at its end only, and the tip is then held |
| SyncBuckets.PopKeepsShape | chain/sync_manager.go:570-594 | the remaining buckets stay well formed |
| SyncBuckets.PopRelatedKeepsShape | chain/sync_manager.go:596-608 | the remaining buckets stay well formed and a popped bucket is not empty |
| SyncBuckets.TipSameChain | chain/sync_manager.go:626-639 | true exactly if some tip is equal to, parent of or child of the tipset |
| SyncBuckets.AddTip | chain/sync_manager.go:641-677 | appends unless an equal tip is there |
| SyncBuckets.HeaviestTipSet | chain/sync_manager.go:679-691 | the loop finds the first tip of greatest weight, none in an empty bucket |
| SyncBuckets.BucketSet.AnyRelated | chain/sync_manager.go:551-558 | true exactly if some bucket is related |
| SyncBuckets.BucketSet.InsertTip | chain/sync_manager.go:560-568 | the tip goes to the first related bucket or to a new one |
| SyncBuckets.BucketSet.RemoveBucket | chain/sync_manager.go:586-594 | all buckets but one remain, in order |
| SyncBuckets.BucketSet.Pop | chain/sync_manager.go:570-584 | hands out and removes the first bucket with a heaviest tip |
| SyncBuckets.BucketSet.PopRelated | chain/sync_manager.go:596-608 | removing while walking the list takes out exactly the related buckets, merged in order |
| SyncBuckets.BucketSet.HeaviestOfAll | chain/sync_manager.go:610-620 | the first heaviest of the buckets' heaviest tips |
| SyncBuffer.Buffer.Push | chain/sync_manager.go:505-509 | the ring holds the last entries of the log of everything pushed |
| SyncBuffer.Buffer.Synced | chain/sync_manager.go:511-519 | true exactly if one of the last entries is equal or heavier |
| SyncSchedule.RunInvariant | chain/sync_manager.go:196-489 | in every run each pending bucket extends an active target, at most one worker before initial sync and five ever, ids below nextWorker, nothing deferred when idle, and every started target differs from and is as heavy as each of the last ten synced |
| SyncSchedule.StepKeepsInv | chain/sync_manager.go:196-311 | each event keeps that invariant, for any order in which the worker map is visited |
| SyncSchedule.PeerHeadStep | chain/sync_manager.go:225-234 | a peer head keeps it, and what it starts is that head and at least as heavy as all active and pending tipsets |
| SyncSchedule.WorkerDoneStep | chain/sync_manager.go:237-275 | a finished worker keeps it, whatever is selected next |
| SyncSchedule.RampUpStep | chain/sync_manager.go:277-294 | starting deferred targets after initial sync keeps it and stops at the limit |
| SyncSchedule.SelectDeferredOutcome | chain/sync_manager.go:453-489 | the deferred selection only changes the two queues, yields fresh work only while a worker is active, and without work leaves nothing deferred |
| SyncSchedule.RemovalKeepsAnchors | chain/sync_manager.go:425-432 | once the finished worker's chain is popped, what is pending still extends the other workers |
| SyncSchedule.StartedHeadIsHeaviest | chain/sync_manager.go:361-421 | in every run, a target started by a peer head after start-up is no lighter than anything active or pending |
| SyncSchedule.QuiescentWhenIdle | chain/sync_manager.go:237-275 | in every run, when no worker is active both queues are empty |
| SyncScheduleRuns.InitialTargetIsHeaviest | chain/sync_manager.go:331-356 | start-up picks a heaviest of the reported heads, for any order of the map and of equal heights |
| SyncScheduleRuns.HeadNotForgotten | chain/sync_manager.go:361-421 | a peer head is handed out or queued unless it or something heavier was synced, is being synced or is pending |
| SyncScheduleRuns.HeadStartedIff | chain/sync_manager.go:361-421 | exactly when a peer head is started beside other workers |
| SyncScheduleRuns.KeptByRoundIff | chain/sync_manager.go:455-486 | for every deferred tipset and every order of the map: a round leaves it started or queued if and only if it is in another bucket, already pending, or is the popped tip and that one is related to `pend` or not refused by the first worker |
| SyncLosses.HeadLostIff | chain/sync_manager.go:196-294 | for every state of a run, every event and every deferred head: some order of the map lets the step lose the head if and only if a deferred selection it makes may; never by a peer head, nor while a pending target comes next |
| SyncLosses.DeferredLostIff | chain/sync_manager.go:453-489 | for every state and deferred head: some order of the map makes the whole selection lose it if and only if it may be popped, after others are passed over, without being taken up |
| SyncScheduleRuns.DeferredStartedIffBusy | chain/sync_manager.go:453-489 | the tip that is popped first, if no worker objects to it, is started if and only if some worker is active |
| SyncCounterexamples.DeferredHeadLost | chain/sync_manager.go:409-417 | a run in which a deferred head, heavier than all that was synced, is lost |
| SyncCounterexamples.SiblingLost | chain/sync_manager.go:453-489 | a run in which a deferred head that nothing makes redundant is lost while workers are active |
| SyncSharing.SharedStartIff | chain/sync_manager.go:196-311 | for every state of a run and every event: some order of the map lets the step start a target that is already active if and only if the next pending tip is active, or the deferred selection or ramp-up can come to one that some worker is indifferent to; never by a peer head |
| SyncSharing.HeadNotShared | chain/sync_manager.go:361-421 | a peer head handed out as work is not active |
| SyncSharing.PendingStartedIff | chain/sync_manager.go:425-449 | the heaviest pending tip of a finished chain is started, active or not, if and only if it is not lighter than what was done or is active and was not covered lately |
| SyncSharing.DuplicateStartIff | chain/sync_manager.go:470-485 | the popped tip, if active, can be started again if and only if another worker is indifferent to it |
| SyncCounterexamples.SharedTargetReachable | chain/sync_manager.go:277-294 | a run that ends with two workers on one target |
| SyncCounterexamples.SharedByPending | chain/sync_manager.go:433-448 | a run that ends with two workers on one target, the second started from `pend` with nothing deferred |
| SyncHistory.RecordIsHistory | chain/sync_manager.go:175-262 | in every run the synced targets are those of the workers that reported success, in order; initial sync is done exactly if one of these was fast; the ticker has stopped exactly if it fired after that |
| SyncHistory.StartsWithEnoughPeers | chain/sync_manager.go:196-223 | in every run the first worker is started by the first event at which as many peers have reported as the threshold asks, and until then `heads` maps each to its last report |
| SyncHistory.FirstTargetIsHeaviest | chain/sync_manager.go:331-356 | it is started on a heaviest of the last reported heads |
| SyncHistory.WorkersStay | chain/sync_manager.go:237-248 | a worker keeps its target and stays until it is reported done |
| SyncHistory.StartedIsFresh | chain/sync_manager.go:196-311 | in every run a started target differs from and is as heavy as each of the last ten that succeeded; five workers at most, one before a fast success |
| SyncHistory.IdleStartsFresh | chain/sync_manager.go:361-375 | with no worker active a reported head is started if and only if none of the last ten that succeeded equals it or is heavier |
| SyncHistory.FailedStartsAgain | chain/sync_manager.go:250-256 | so a head whose syncs all failed is started again, unless an equal or heavier one was synced |
| SyncHistory.BusyStartsFresh | chain/sync_manager.go:377-421 | beside other workers a reported head is started if and only if a fast sync succeeded, there are fewer than five workers, and nothing that was synced lately, is active or is pending covers it or is linked to it |
| SyncHistory.RelatedMeans | chain/sync_manager.go:551-639 | a queue is related to a tipset exactly if some tip of it has its height and key, is its parent or is its child |
| SyncManager.SortByHeight | chain/sync_manager.go:334-342 | the peers ordered by the height of their heads, each once |
| SyncManager.Manager.SelectInitialSyncTarget | chain/sync_manager.go:331-356 | picks an initial target and clears the heads |
| SyncManager.Manager.AddSyncTarget | chain/sync_manager.go:361-421 | updates the queues and hands out work as the relation allows |
| SyncManager.Manager.SelectDeferredSyncTarget | chain/sync_manager.go:453-489 | the loop over popped buckets is an instance of the deferred selection |
| SyncManager.Manager.OfferDeferred | chain/sync_manager.go:456-486 | a popped tip is started, passed on to `pend` or dropped by the first worker visited |
| SyncManager.Manager.SelectSyncTarget | chain/sync_manager.go:425-449 | selection after a worker is done |
| SyncManager.Manager.SpawnWorker | chain/sync_manager.go:296-311 | a worker with a new id on the target |
| SyncManager.Manager.HandlePeerHead | chain/sync_manager.go:196-235 | takes a peer-head step and keeps the invariant |
| SyncManager.Manager.HandleWorkerStatus | chain/sync_manager.go:237-275 | takes a worker-done step and keeps the invariant |
| SyncManager.Manager.HandleTick | chain/sync_manager.go:175-194 | the ticker starts deferred work once, after initial sync |
| SyncManager.Manager.HandleInitialSyncDone | chain/sync_manager.go:277-294 | the loop that starts deferred targets up to the limit |
| FundsProtocol.RunInvariant | flowchmgr/simple.go:137-631 | in every run, with crashes between any two store writes: one non-settling channel at most, one outstanding message per channel, `PendingAmount` is its amount, `Amount` the sum of the confirmed ones, waiting goroutines and saved messages agree with the records, no request in two messages |
| FundsProtocol.StepKeepsInv | flowchmgr/simple.go:182-596 | each event keeps that |
| FundsProtocol.TaskKeepsBooks | flowchmgr/simple.go:336-376 | processing a merged request keeps channels and messages in agreement, cut short anywhere |
| FundsProtocol.ProcessKeepsRequests | flowchmgr/simple.go:182-246 | filtering, merging and sending keep every request in at most one place |
| FundsProtocol.WaitKeepsBooks | flowchmgr/simple.go:415-536 | the return of either wait, with any outcome, keeps the agreement |
| FundsProtocol.CreditKeepsBooks | flowchmgr/simple.go:448-457 | crediting adds exactly the message's amount on its own channel |
| FundsProtocol.FailedCreateKeepsBooks | flowchmgr/simple.go:422-436 | a failed create message takes its channel record with it and leaves the rest sound |
| FundsProtocol.NothingConfirmedBeforeCreate | flowchmgr/simple.go:451-457 | overwriting `Amount` when the create message confirms loses nothing |
| FundsProtocol.RestartKeepsBooks | flowchmgr/simple.go:565-596 | dropping queue and goroutines and waiting again keeps the agreement |
| FundsProtocol.CompleteKeepsBooks | flowchmgr/simple.go:258-276 | saving a message result keeps it |
| FundsProtocol.SettleKeepsBooks | flowchmgr/flowch.go:568-597 | settling a channel keeps it |
| FundsAccessor.WaitReadyNeverPanics | flowchmgr/simple.go:599-631 | in every run, a message received without error has a channel with an address, so the panic is unreachable |
| FundsAccessor.SuccessCredits | flowchmgr/simple.go:415-536 | in every run, a successful wait credits exactly the requests of its message to its channel and no other |
| FundsAccessor.FateIsFinal | flowchmgr/simple.go:415-536 | what became of a message never changes again, so it is credited once |
| FundsAccessor.RestartWaitsForOutstanding | flowchmgr/simple.go:565-596 | after a crash anywhere exactly the messages recorded as outstanding are waited for |
| FundsAccessor.RequestSentOnce | flowchmgr/simple.go:182-222 | in every run a request is part of at most one message |
| FundsHistory.QueueIsHistory | flowchmgr/simple.go:159-246 | in every run the requests that wait are those enqueued since the last message or restart and not cancelled, in order and with their amounts |
| FundsHistory.SentIsHistory | flowchmgr/simple.go:336-495 | the messages pushed are one for each processing that got as far, each with the requests that waited then, and the saved ones those whose record was written |
| FundsHistory.ResultIsHistory | flowchmgr/store.go:325-343 | in every run a saved message is marked received exactly if a wait for it completed, and failed exactly if one completed with an error |
| FundsHistory.ReturnMeans | flowchmgr/simple.go:415-536 | a wait returns an error exactly if it was not answered with success |
| FundsHistory.ChannelIsHistory | flowchmgr/simple.go:415-536 | in every run a channel has the address its create message succeeded with, the sum of what its successful messages carried, and is settling exactly if it was settled |
| FundsHistory.ReadyIsHistory | flowchmgr/simple.go:599-631 | in every run `getFlowchWaitReady` does not find a message that was not saved, fails exactly if a wait for it completed with an error, waits exactly while none completed, and otherwise returns the address its channel was created with |
| FundsHistory.WaitsAreHistory | flowchmgr/simple.go:415-596 | in every run a message under way is waited for exactly if no wait for it came back without an answer since the last restart |
| FundsProgress.StuckIff | flowchmgr/simple.go:148-222 | in every run: without crash and restart, queued requests that sum to something can never get into a message if and only if the message under way on the active channel is not waited for and the channel is not settled, or cannot be for lack of an address |
| FundsProgress.StarvedStep | flowchmgr/simple.go:336-376 | no event but a restart or settling ends that, sends anything, or takes requests off the queue that are not cancelled |
| FundsProgress.NotStarvedSends | flowchmgr/simple.go:182-222 | in any other case the whole active queue can go into one message, in at most two steps |
| FundsProgress.RestartFeeds | flowchmgr/simple.go:565-596 | after a restart every message under way is waited for |
| FundsProgress.WaitErrorStarves | flowchmgr/simple.go:415-420 | a run in which a wait error leaves a queued request stuck |
| FundsAccessor.Accessor.GetFlowch | flowchmgr/simple.go:159-179 | enqueues a request with a new id |
| FundsAccessor.Accessor.FilterQueue | flowchmgr/simple.go:225-246 | compacting the slice in place keeps exactly the active requests, in order |
| FundsAccessor.Accessor.SumActive | flowchmgr/simple.go:138-146 | the sum of the requests still active |
| FundsAccessor.Accessor.FindActive | flowchmgr/store.go:381-391 | a channel that is not settling, if there is one |
| FundsAccessor.Accessor.ProcessQueue | flowchmgr/simple.go:182-222 | a processing step of the protocol |
| FundsAccessor.Accessor.ProcessTask | flowchmgr/simple.go:336-376 | leaves the queue while a message is under way or the sum is zero, otherwise sends one message and clears it |
| FundsAccessor.Accessor.CreateFlowch | flowchmgr/simple.go:379-406 | records the new channel and message and waits |
| FundsAccessor.Accessor.AddFunds | flowchmgr/simple.go:463-495 | records the pending amount and message and waits |
| FundsAccessor.Accessor.WaitReturns | flowchmgr/simple.go:415-536 | what each wait does to the record for each outcome |
| FundsAccessor.Accessor.MsgWaitComplete | flowchmgr/store.go:325-343 | a message is marked received and an earlier error stays |
| FundsAccessor.Accessor.RestartPending | flowchmgr/simple.go:565-596 | one new wait for each channel with a message under way |
| FundsAccessor.Accessor.GetFlowchWaitReady | flowchmgr/simple.go:599-631 | the answer up to where it starts waiting |
| Lanes.ComputeOverlay | flowchmgr/flowch.go:468-521 | the loop over stored vouchers computes the overlay |
| Lanes.OverlayPerLane | flowchmgr/flowch.go:468-521 | a lane's state is its last stored voucher unless the chain is ahead of it |
| Lanes.RedeemKeepsOverlay | flowchmgr/flowch.go:468-521 | redeeming any stored voucher on chain leaves the overlay unchanged |
| Lanes.ComputeTotal | flowchmgr/flowch.go:530-540 | the loop over the lanes sums the redeemed amounts |
| Lanes.ComputeTotalWith | flowchmgr/flowch.go:524-566 | the incremental total with one voucher |
| Lanes.IncrementalTotal | flowchmgr/flowch.go:524-566 | it equals recomputing with the voucher appended if and only if the voucher does not repeat its lane's nonce with another amount |
| FlowVouchers.RunInvariant | flowchmgr/flowch.go:112-390 | over every run of creates, adds, submissions, allocations, deposits and redemptions the lanes' total stays within the received balance, stored vouchers of a lane keep increasing in nonce and amount, submission is downward closed by nonce |
| FlowVouchers.AddStep | flowchmgr/flowch.go:339-390 | whatever the outcome of an add, the invariant holds and the total rises by exactly the returned delta, and not at all on error |
| FlowVouchers.AcceptedTotal | flowchmgr/flowch.go:257-276 | for an accepted voucher, delta, incremental total and recomputed total agree |
| FlowVouchers.AcceptedIsAbove | flowchmgr/flowch.go:213-240 | an accepted voucher is above every stored voucher of its lane in nonce and amount |
| FlowVouchers.SubmitStep | flowchmgr/flowch.go:392-448 | submitting a stored voucher keeps the invariant and the lanes |
| FlowVouchers.RedeemStep | flowchmgr/flowch.go:468-521 | redemption on chain keeps the invariant and the lanes |
| FlowVouchers.AllocatedLaneFresh | flowchmgr/store.go:257-267 | a lane handed out is unused and never handed out again, however the run goes on |
| FlowVouchers.ShortfallIsLeast | flowchmgr/flowch.go:112-156 | a reported shortfall is positive and the least deposit with which the same call succeeds; less leaves exactly the rest missing |
| VoucherRules.AddMeans | flowchmgr/flowch.go:178-390 | the exact result of adding a voucher, each error with its cause in terms of the stored vouchers, the chain and the balance, and the exact new record |
| VoucherRules.AcceptedIff | flowchmgr/flowch.go:178-276 | a voucher not stored yet is accepted if and only if it is for this channel, signed, without merges, above all stored vouchers of its lane in nonce and amount, or above the chain where none is stored, within the balance, and raises the total by what is asked |
| VoucherRules.NextNonceMeans | flowchmgr/flowch.go:158-169 | a new voucher gets the least nonce above those of its lane, from 1 on |
| VoucherRules.CreatedIff | flowchmgr/flowch.go:112-156 | with the chain not ahead on its lane, a draft becomes a voucher if and only if its amount rises and the balance has room; a shortfall is reported exactly if only room is missing, and is what is missing |
| VoucherRules.SubmittedIsHistory | flowchmgr/store.go:126-147 | in every run a stored voucher is marked submitted exactly if it or a later one of its lane was submitted while it was stored |
| ChannelAccessor.Accessor.NextNonceForLane | flowchmgr/flowch.go:158-169 | one more than the greatest stored nonce of the lane |
| ChannelAccessor.Accessor.LoadLaneState | flowchmgr/flowch.go:468-521 | the overlay, or an error if a stored voucher has merges |
| ChannelAccessor.Accessor.CheckVoucherValid | flowchmgr/flowch.go:178-276 | the checks in their order, with the shortfall |
| ChannelAccessor.Accessor.AddVoucherUnlocked | flowchmgr/flowch.go:339-390 | an add on the stored record |
| ChannelAccessor.Accessor.Create | flowchmgr/flowch.go:112-156 | a create on the stored record |
| ChannelAccessor.Accessor.MarkVoucherSubmitted | flowchmgr/store.go:126-147 | marks the voucher and every lower nonce of its lane, nothing else |
| ChannelAccessor.Accessor.Submit | flowchmgr/flowch.go:392-448 | submits a stored voucher once; an unseen one is stored first |
| ChannelAccessor.Accessor.Allocate | flowchmgr/store.go:257-267 | hands out the next lane |
| ChannelAccessor.BestSpendableByLane | flowchmgr/util.go:16-35 | each lane with a spendable voucher gets one of greatest amount, and no other lane gets any |
| ChannelAccessor.HeaviestIsLatest | flowchmgr/util.go:16-35 | in every run that one is the spendable voucher with the highest nonce |
| ChannelAccessor.UnseenSubmitOverclaims | flowchmgr/flowch.go:433-439 | a state in which submitting an unseen voucher leaves the lanes above the balance |
| ChannelAccessor.UnseenSubmitBoundedIff | flowchmgr/flowch.go:433-439 | it stays within the balance if and only if the balance has room for the change in the lanes' total |
| ForkChoice.SyncFork | chain/sync.go:1454-1512 | succeeds if and only if the fetched fork meets an ancestor of `known` above height 0, within the threshold and without giving up the checkpoint; the result is the fork down to the highest such meeting; each error has its cause; the walk ends |
| ForkChoice.WalkBack | chain/sync.go:1472-1511 | the two-pointer loop passes no common tipset |
| ForkChoice.IsAncestorOf | chain/store/store.go:718-734 | decides whether a tipset is a proper ancestor, or fails where the walk breaks off before |
| ForkChoice.Checkpoint.SetCheckpoint | chain/checkpoint.go:39-75 | accepts exactly a stored tipset that is the heaviest one or an ancestor of it |
| ForkChoice.CheckpointSurvives | chain/sync.go:1454-1512 | a checkpoint on our chain is the tipset where an accepted fork branches off or an ancestor of it |
| BadBlocks.ReasonsStayFlat | chain/badtscache.go:28-34 | in every reachable cache the original of a linked reason is not itself linked |
| HeaderCollection.MarksKeepFlat | chain/sync.go:1269-1439 | whatever the outcome of collecting headers, if originals of linked reasons were unlinked they still are |
| BadBlocks.Cache.Add | chain/badtscache.go:55-57 | sets the reason of one block |
| BadBlocks.Cache.AddAll | chain/sync.go:1272-1275 | sets one reason for all blocks of a list and changes no other |
| BadBlocks.Cache.Remove | chain/badtscache.go:59-61 | forgets one block and no other |
| BadBlocks.Cache.Purge | chain/badtscache.go:63-65 | forgets all blocks |
| BadBlocks.Cache.FirstBad | chain/sync.go:1271-1272 | the first bad block of a list, or none if all are good |
| HeaderCollection.CollectHeaders | chain/sync.go:1259-1443 | ends; on success the headers start at the target, each is a child of the next, and the last is a child of `known`, a child of its parent or an ancestor of `known`, for any mix of local and fetched segments; the loop gathers what store and exchange determine, free of bad blocks; the whole is clean if and only if the target and what links the rest to our chain are; each failure has its cause; what each outcome marks bad |
| HeaderCollection.CollectMain | chain/sync.go:1307-1404 | the loop ends with a clean parent-linked chain made of stored tipsets and replies in turn; on meeting a bad block exactly the blocks that earlier segments were located by are marked, with that block's original reason |
| HeaderCollection.RefuseBad | chain/sync.go:1321-1331 | a bad block among the next parents is found if there is one, and marks exactly the blocks located so far |
| HeaderCollection.FetchNext | chain/sync.go:1346-1403 | one request: no reply and one that does not connect fail, another is appended |
| HeaderCollection.AppendReply | chain/sync.go:1383-1403 | a reply is appended whole, up to its first tipset that is too low, which ends the loop, or up to a bad block, which marks the blocks located so far |
| HeaderTraces.GatheredOnce | chain/sync.go:1307-1404 | what the loop gathers is determined by target, head, store and exchange |
| HeaderTraces.TargetAloneIff | chain/sync.go:1320-1404 | it is the target alone if and only if the target is low enough or its parents are not stored and the first fetched tipset is too low |
| HeaderCollection.AddSegment | chain/sync.go:1383-1399 | appends a fetched segment up to a tipset that is too low or has a bad block |
| HeaderCollection.CheckTarget | chain/sync.go:1269-1305 | fails on a bad parent exactly if there is one, and marks accordingly |
| HeaderCollection.LinkUp | chain/sync.go:1406-1442 | ties the chain to ours at `known`, its parent, or a fork point |
| HeaderCollection.LinkByFork | chain/sync.go:1427-1442 | appends the fetched fork down to the fork point, or refuses because there is none, marking only the target |
| HeaderCollection.MarksAreSound | chain/sync.go:1269-1439 | fresh reasons go to blocks of the target only, and every block given a linked reason properly descends from a block that was bad and carries that block's original reason |
| UncheckedFork.BadBlockCollected | chain/sync.go:1427-1442 | an input for which a block in the bad cache is among the collected headers |
| UncheckedFork.BadTargetCollected | chain/sync.go:1269-1305 | an input without a fork for which the block of the target itself is in the bad cache |
| HeaderCollection.AllCleanIff | chain/sync.go:1259-1443 | all collected headers are free of bad blocks if and only if the target is and what links the loop's part to our chain is |
| HeaderCollection.CleanIffLinkClean | chain/sync.go:1406-1442 | collected headers are free of bad blocks below the target if and only if the last gathered one is a child of `known` or of its parent, or the fetched fork is free of them down to the first tipset our chain shares |
| HeaderCollection.ForkMarkedIff | chain/sync.go:1429-1437 | after a refusal for length or checkpoint all gathered and fetched tipsets are marked if and only if the loop leaves the target alone and nothing was fetched, our head being the checkpoint, or all that was fetched had been marked before |
| HeaderCollection.FetchedMarkedIff | chain/sync.go:1429-1437 | no fetched block is newly marked |
| HeaderCollection.SubchainMarkedIff | chain/sync.go:1429-1437 | after a refusal for length or checkpoint the whole of the loop's chain is marked if and only if each block below the target is one of the target's own |
| HeaderCollection.SubchainMarkedIffTargetAlone | chain/sync.go:1429-1437 | a block having one height, that part is marked if and only if the loop leaves the target alone, as target, head, store and exchange decide |
| UnmarkedSubchain.HeaderStaysUnmarked | chain/sync.go:1429-1437 | an input, for every threshold, with two collected headers refused as too long and the second one unmarked |
| UnmarkedSubchain.ForkStaysUnmarked | chain/sync.go:1429-1437 | an input, for every threshold, with the target alone, the fork refused as too long and the fetched block unmarked |
| MessageFetch.FetchedInOrder | chain/sync.go:1601-1665 | for every interleaving of the workers and any partial replies: without an error each slot has the messages of its own header, and there is an error exactly if some worker had five requests refused at one header |
| MessageFetch.RequestsPerHeader | chain/sync.go:1622-1642 | at most five requests ever start at a header |
| MessageFetch.FetchEnds | chain/sync.go:1611-1657 | no run has more than six steps a header, and one that cannot go on is done |
| MessageFetch.FailsOnlyRefused | chain/sync.go:1622-1653 | in every run there is an error only after five requests at one header were not answered, and none if all are answered |
| MessageFetch.RunInvariant | chain/sync.go:1601-1665 | what holds of every worker and its slots in every run |
| MessageFetch.OthersKeep | chain/sync.go:1644-1653 | a step of one worker leaves the slots of all others alone |
| MessageIteration.Iteration.IterFullTipsets | chain/sync.go:1533-1599 | requests, callbacks and persisted messages are exactly those the answers from outside lead to; on success the callback ran once per header, last header first, with the messages of that header; an error has its cause in the answer at the point where it stopped; with good answers there is none |
| MessageIteration.Iteration.CallBatch | chain/sync.go:1569-1594 | the same for one fetched batch |
| MessageIteration.Iteration.CallFetched | chain/sync.go:1569-1594 | the same for one header of it: the callback, then persisting, each only if what comes before succeeded |
| MessageIteration.Iteration.CallStored | chain/sync.go:1541-1552 | the same for a header that is stored |
| MessageIteration.Iteration.FetchBatch | chain/sync.go:1553-1596 | a missing header asks for the batch of at most 128 headers that ends with it |
| MessageIteration.FollowsAt | chain/sync.go:1533-1599 | such a log has one callback per header in turn, with that header's messages, and persists only straight after a callback that succeeded |
| MessageIteration.GoodNeverStops | chain/sync.go:1533-1599 | with good answers no cause to stop arises |
| MessageIteration.BatchMatches | chain/sync.go:1560-1567 | what any finished fetch returns matches the headers slot by slot |
| MessageIteration.ParentsFirst | chain/sync.go:1541-1552 | in a parent-linked chain each callback after the first is for a child of the one before |
| BlockMessages.CheckBlockMessages | chain/sync.go:1037-1168 | accepts exactly if signatures are good, each message is valid, the exact sum of gas limits is within the block limit, senders are accounts, and each sender's nonces over both lists are the consecutive run from its state nonce |
| BlockMessages.Checker.CheckMsg | chain/sync.go:1072-1109 | one message passes exactly if the messages so far stay acceptable with it |
| BlockMessages.Checker.CheckList | chain/sync.go:1119-1168 | one list of messages, with signatures where they are checked one by one |
| BlockMessages.PrefixAcceptable | chain/sync.go:1072-1109 | every prefix of an acceptable list is acceptable, so checking one by one rejects nothing good |
| BlockMessages.NoOverflow | chain/sync.go:1081-1086 | the 64-bit running sum of gas limits equals the exact sum at every prefix |
| BlockMessages.NonceWraps | chain/sync.go:1103-1106 | counting up a 64-bit nonce is addition modulo 2^64 |
| BlockTimes.MinTimestamp | chain/types/tipset.go:197-205 | the least timestamp of a tipset's blocks |
| BlockTimes.TargetMeaning | chain/sync.go:747-748 | the target is base time plus one delay per epoch modulo 2^64, whatever wraps around on the way |
| BlockTimes.TimestampsFollowHeights | chain/sync.go:746-755 | along every chain of validated blocks a timestamp is genesis time plus delay times height, modulo 2^64 |
| BlockTimes.ExactTimestamp | chain/sync.go:746-755 | and exactly that as long as it fits 64 bits |
| BlockTimes.TemplateMeetsTarget | miner/miner.go:507-524 | a block templated by `createBlock` meets the timestamp rule for any base and any null rounds |
| BlockTimes.TemplatePasses | miner/miner.go:507-524 | it passes the time checks if and only if it is not ahead of the clock by more than the drift |
| BlockTimes.TemplateExact | miner/miner.go:507-524 | without wrap-around it is one epoch and one delay above the base, and one more of each for every null round |
| BlockTimes.BeyondIff | chain/sync.go:1806-1813 | a height is beyond the bound if and only if its scheduled time is more than five delays ahead of the clock |
| BlockTimes.PassingBlockWithinBound | chain/sync.go:752-755 | for any allowed drift of at most five delays, a block that passes the future-time check is never beyond the height bound at the same clock |
| BlockTimes.ValidatedBlockWithinBound | chain/sync.go:746-755 | on top of every chain of validated blocks, a block that passes with the one second of drift allowed is within the height bound at that clock |
| Cbor.HeadRoundTrip | api/cbor_gen.go:194-208 | a head of any major type and 64-bit argument is read back, whatever follows |
| Cbor.EachBack | api/cbor_gen.go:247-442 | if every entry of a map is read back, all are, in turn |
| Cbor.IntRoundTrip | api/cbor_gen.go:491-499 | every 64-bit signed integer is read back, the least one included |
| Cbor.TextRoundTrip | api/cbor_gen.go:202-207 | text keys are read back |
| SealCodec.RefRoundTrip | api/cbor_gen.go:185-333 | decoding the encoding of a `SealedRef` followed by anything gives the value and the rest |
| SealCodec.RefMapDecodes | api/cbor_gen.go:247-333 | any map of known entries, in any order and with repeats, decodes to the values set in that order |
| SealCodec.RefOrderIrrelevant | api/cbor_gen.go:247-333 | permuting entries with distinct keys does not change the decoded value |
| SealCodec.RefsRoundTrip | api/cbor_gen.go:334-442 | the same round trip for the nested `SealedRefs` |
| SealCodec.RefsMapDecodes | api/cbor_gen.go:372-442 | any number of `Refs` entries, their elements with entries in any order, decode to the elements of the last non-empty array in order |
| SealCodec.MarshalRef | api/cbor_gen.go:185-245 | writes the encoding |
| SealCodec.UnmarshalRef | api/cbor_gen.go:247-333 | reads exactly what the decoding function parses and leaves the rest in the stream |
| SealCodec.MarshalRefs | api/cbor_gen.go:334-370 | writes the encoding, or fails exactly if there are too many elements |
| SealCodec.UnmarshalRefs | api/cbor_gen.go:372-442 | reads exactly what the decoding function parses |
| SealTickets.TicketRoundTrip | api/cbor_gen.go:443-591 | the round trip for `SealTicket`, and alike for `SealSeed`, for every epoch |
| SealTickets.TicketMapDecodes | api/cbor_gen.go:502-591 | any map of known entries, in any order and with repeats, decodes to the values set in that order, provided no empty `Value` follows a non-empty one |
| SealTickets.TicketOrderIrrelevant | api/cbor_gen.go:502-591 | the two entries may come in either order |
| SealTickets.TicketPrefixFree | api/cbor_gen.go:592-740 | no encoding is the beginning of another |
| SealTickets.ValueBackIff | api/cbor_gen.go:538-556 | a `Value` entry is read back if and only if it is non-empty or follows no non-empty one |
| SealTickets.EmptyValueAgain | api/cbor_gen.go:550-556 | what an empty repeat of the key reads instead |
| SealTickets.MarshalTicket | api/cbor_gen.go:443-500 | writes the encoding, or fails exactly if the value is too long |
| SealTickets.UnmarshalTicket | api/cbor_gen.go:502-591 | reads exactly what the decoding function parses |
| SealTickets.NextEpoch | api/cbor_gen.go:558-583 | the signed epoch, with both overflow errors |
| WireFormat.HeadsAre | api/cbor_gen.go:194-207 | the heads written, in literal bytes: initial byte by major type and size of the argument, then the argument in the fewest of 0, 1, 2, 4 or 8 bytes, most significant first |
| WireFormat.RefIs | api/cbor_gen.go:185-245 | the literal bytes of every `SealedRef` |
| WireFormat.RefsAre | api/cbor_gen.go:334-370 | the literal bytes of every `SealedRefs` |
| WireFormat.TicketIs | api/cbor_gen.go:443-500 | the literal bytes of every `SealTicket`, and alike `SealSeed` |
| WireAcceptance.RefIff | api/cbor_gen.go:247-333 | bytes decode to a `SealedRef` if and only if they are a map of at most 8192 entries that are read in turn, and the rest is what follows |
| WireAcceptance.RefEntryIff | api/cbor_gen.go:279-325 | an entry is read exactly as one of the three keys with an unsigned number |
| WireAcceptance.ReadTextIff | api/cbor_gen.go:266-277 | a key is accepted if and only if it is a text string of at most 8192 bytes |
| WireAcceptance.ReadUnsignedIff | api/cbor_gen.go:285-292 | a number is accepted if and only if its head is one of an unsigned number |
| WireAcceptance.RefsIff | api/cbor_gen.go:372-442 | the same for a `SealedRefs` |
| WireAcceptance.RefsEntryIff | api/cbor_gen.go:403-433 | an entry is read exactly as the key `Refs` with its array |
| WireAcceptance.RefsFieldIff | api/cbor_gen.go:404-433 | its array is accepted if and only if the head is one of an array of at most 8192 elements and each is accepted |
| WireAcceptance.TicketIff | api/cbor_gen.go:502-591 | the same for a ticket |
| WireAcceptance.TicketEntryIff | api/cbor_gen.go:533-583 | an entry is read exactly as one of the two keys with its kind of value |
| WireAcceptance.ValueIff | api/cbor_gen.go:536-556 | its bytes are accepted if and only if the head is one of a byte string of at most two mebibytes and so many bytes follow |
| WireAcceptance.ReadIntIff | api/cbor_gen.go:558-583 | its epoch is accepted if and only if the head is one of a number that fits 64 bits with its sign |
| TimedCache.HeldIffLive | blockstore/timed.go:87-171 | over every interleaving of puts, deletes and rotations a key is held if and only if its last put or delete is a put and fewer than two rotations followed |
| TimedCache.KeptOneIntervalGoneAfterTwo | blockstore/timed.go:14-22 | with a rotation every interval a block stays at least one interval and is gone after two |
| TimedCache.FoundIsPut | blockstore/mem.go:43-75 | what is found under a key is the data put there |
| TimedCache.TimedCacheBlockstore.Get | blockstore/timed.go:126-134 | succeeds exactly for live keys |
| TimedCache.TimedCacheBlockstore.Has | blockstore/timed.go:146-155 | true exactly for live keys |
| TimedCache.TimedCacheBlockstore.AllKeysChan | blockstore/timed.go:173-189 | lists exactly the live keys, each once |
| TimedCache.TimedCacheBlockstore.RotateGenerations | blockstore/timed.go:87-93 | one rotation in the history |
| TimedCache.TimedCacheBlockstore.PutBlock | blockstore/mem.go:61-75 | one put in the history |
| TimedCache.TimedCacheBlockstore.PutMany | blockstore/timed.go:103-107 | the puts in the history, in order |
| TimedCache.TimedCacheBlockstore.DeleteBlock | blockstore/timed.go:161-165 | one delete in the history |
| TimedCache.TimedCacheBlockstore.DeleteMany | blockstore/timed.go:167-171 | the deletes in the history, in order |

## Left out

- The coalescing branch of `syncTargetBucket.add` (chain/sync_manager.go:646-672): off by default, and it needs tipset construction that is not part of this model.
- The scheduler's history ring and its state snapshots: they influence nothing that is scheduled.
- The library sort of the initial heads: an insertion sort stands in for it, and like it may leave equal heights in any order.
- Pointer identity of buckets: where the source compares pointers a bucket is identified by its position.
- BadBlocks.Cache.Add: does not evict another block, as the bounded cache of the source may, because the replacement policy is a library's.
- BadBlocks.Cache.AddAll: does not evict other blocks either.
- The texts of bad-block reasons do not include the block they name.
- MessageIteration.Iteration.IterFullTipsets: persisting the messages of one tipset is one step, and zipping messages to blocks is a yes-or-no answer.
- BlockMessages.CheckBlockMessages: the checks on version, addresses, value and fees, and the message roots, are answers from outside.
- FundsProtocol.RunInvariant: outbound channels of one from / to pair, and a restart comes before new requests; inbound channels are reached through other accessor keys.
- Errors from store reads and writes in `flowchmgr`, available-funds reports, callbacks to requesters, `collect`, and voucher secrets.
- FlowVouchers.RunInvariant: submission is of stored vouchers; vouchers with merges are refused by the code and so never stored.
- Lane numbers and voucher nonces are unbounded natural numbers.
- Skipping of unknown CBOR map keys: the decoders stop with an error of their own at one. Heads longer than needed are read, as section 3.1 of RFC 8949 allows; whether the CBOR library rejects them, and the null written for a nil pointer, are not part of this model.
- SealTickets.TicketMapDecodes: for whole maps this goes one way, because bytes that an empty repeat takes may by chance leave an encoding of the same values; `SealTickets.ValueBackIff` is exact for one entry.
- Start and Stop of the timed cache, and `View` and `GetSize`, which look keys up as `Get` does.
- Proof-of-spacetime, VRF and beacon verification, state roots, the miner's loop, the command line, RPC and the other blockstores.
