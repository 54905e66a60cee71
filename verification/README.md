# Two ends of a Solana block stream

A model of the yellowstone-grpc client's replay layer and of the geyser plugin's reconstruction, gossip and billing
loops, with proofs of what they keep over whole runs. `dafny verify dfyconfig.toml` checks everything.

Code that changes state in place is modelled by classes with the source's fields. Their methods are proved against
functions on values (`Value() == Spec(old(Value()), ...)`), and what the source promises is proved about these
functions, over every run, as lemmas. What the functions themselves compute (keys, levels, tables, lag, what is owed
to a subscriber) is said a second time by kinds, fields and constructors, in the modules that end in `Keys` and
`Meaning` and beside the runs.

* **Replay layer** (`Protocol`, `ProtocolKeys`, `DedupModel`, `Dedup`, `DedupWindow`, `DedupSlots`, `DedupHistory`,
  `DedupExactlyOnce`, `DedupStatuses`, `DedupFate`, `DedupRefinement`, `DedupMemory`, `DedupLimits`). `Run` is the
  layer as a function of the messages pulled, each with the reconnect count seen after it. `ExactlyOnce` is the main
  result, over streams of any length. It asks that the window still tracks the slot whenever another message of it
  comes (`TrackedThroughout`), and that the BlockMeta of the slot agree. The first holds on every input that names no
  more slots than the window retains between two messages of the slot (`ListedIsTracked`; `SpanIsEnough` says it of
  the span from the slot's first message to its last). What the reconnects must replay, and when a CreatedBank does
  harm, are not hypotheses but sides of equivalences.
* **Reconnecting wrapper** (`Reconnect`, `ReconnectRuns`, `EndToEnd`). Every poll extends a ghost history of messages,
  errors, requests and streams; `Legal` says which histories are possible. `NothingLostNothingTwice` puts the wrapper
  in front of the replay layer. Beyond what `ExactlyOnce` asks, it asks, of the one slot only: that its messages carry
  a user filter, because the wrapper swallows a BlockMeta that only its own matched; that wherever the stream breaks
  with the slot unfinished, there is a checkpoint to resume from and the last BlockMeta is near the slot; and that the
  server replays the slot when it is asked for from there (`ServerReplays`). That is an assumption about the server.
  This repository's server replays frozen slots only, so that it does not hold at Processed for a slot that was in
  progress when the connection broke: the live events of such a slot that were missed are not sent again. What this
  server does at the two other levels is `BlocksComeWhole`.
* **Gossip table** (`ContactInfo`, `ContactInfoRuns`, `ContactInfoTasks`, `ContactInfoMeaning`). Writer and
  subscribers as interleaved steps over a lock and a bounded broadcast channel; the sequential tasks are shown to be
  runs of these steps.
* **Block reconstruction** (`Blocks`, `Sealing`, `Storage`, `StorageRuns`, `StorageGc`, `StorageMeaning`). The
  collector of a slot, the store with its indices, and garbage collection. The external state machine may say
  anything, except that it freezes a slot only after it was told that the slot is sealed (`Legal`); the store then
  never panics.
* **Fan-out and replay** (`Publication`, `PublicationMeaning`, `ReplayHandoff`, `ReplayTiming`, `ClientLoop`,
  `ClientRuns`). The channels of the three commitment levels, replay requests, and a session that joins both. In
  `ClientRuns` requests, their later answers, receives, the batches of the loop, each single send of its
  announcements, and whatever the plugin sends to the same channels interleave in any order. `ReplayIsWhatWasSent`
  also assumes that a slot's statuses come after its frozen block.
* **Batching** (`Batching`) and **billing** (`Billing`). The loops in front of reconstruction and the HTTP sink,
  against environments that answer anything; `PipelineConserves` interleaves plugin, loop and reader.

Findings about the code, each a lemma:

* The retention bounds the listed slots only. A BlockMeta of an untracked slot is sealed without being listed and is
  never pruned (`MetaEventsFillMemory`). `BareExactly` says for which slots that is so, and `FirstMetaStays` and
  `OnlyFirstMetaStays` say it of the input alone.
* Payload that first comes after the BlockMeta of its slot is held and not handed out; the refinement holds exactly
  when there is none (`OutputIsFirstOccurrences`, `LateFirstPayloadIsHeld`).
* A CreatedBank that is replayed for a sealed slot can make its block come again, and one that comes after payload on
  the slot's first connection can make payload come again (`ReplayedBankRepeatsBlock`, `BankAmidPayloadRepeatsKey`).
  Delivery is exactly once if and only if `BanksAreHarmless`: no key from before such a CreatedBank comes again before
  the BlockMeta, on the first or on the completing connection; and after the first CreatedBank behind the BlockMeta
  there is no BlockMeta of the slot, and no payload of it on that connection.
* Finalized slots that are not stored count towards the ten that garbage collection keeps. Ten stored ones remain if
  and only if there are none of the others, or ten finalized slots are among the newest that fill the capacity
  (`TenStayStored`). At every capacity, ten Finalized statuses of slots that are never frozen are enough that none
  remains: a store with one block too many then loses its only finalized one (`NoneFinalizedRemains`).
* A live gossip notification that comes while no client waits for the end of the startup is not remembered; the next
  client waits for another one (`CompleteExactly`).
* A replay request for which no stored block qualifies is not answered at all, unless it lags, and the session that
  made it ends with an error (`ReplyIs`, `EmptyStoreIsSilent`, `Session.OnAnswer`).

Where the code and its documentation differ, the model follows the code:

* `yellowstone-grpc-geyser/src/grpc.rs:1216-1239` describes one loop that broadcasts lifecycle statuses at all three
  levels and, for a ready block, content, block and status. In the code the batching loop broadcasts at Processed
  only, the plugin sends lifecycle statuses to the other two levels itself, and a ready block is sent together with
  its BlockMeta.
* `yellowstone-grpc-client/src/dedup.rs:358` says that pruning keeps tracked slots bounded; see the first finding.

## Model

| member | source | states |
|---|---|---|
| Dedup.DedupState.WithSlotRetention | yellowstone-grpc-client/src/dedup.rs:265-270 | a new state tracks nothing and keeps the given window size |
| Dedup.DedupState.SlotEntry | yellowstone-grpc-client/src/dedup.rs:272-277 | an untracked slot enters the order at its end and gets an empty in-flight entry; a tracked one keeps its place |
| Dedup.DedupState.ObserveMessage | yellowstone-grpc-client/src/dedup.rs:280-356 | the in-place update computes the window and the verdict of the specification, on every window, for every kind of key |
| Dedup.DedupState.PruneWindow | yellowstone-grpc-client/src/dedup.rs:359-369 | the popping loop forgets exactly the oldest slots in excess of the retention, in flight or sealed |
| Dedup.DedupState.MarkReplaying | yellowstone-grpc-client/src/dedup.rs:372-376 | every slot in flight, and nothing else, is marked as replaying |
| Dedup.DedupState.Clear | yellowstone-grpc-client/src/dedup.rs:378-382 | the slot leaves both maps and the order; all else stays |
| Dedup.ReplayBuffer.Hold | yellowstone-grpc-client/src/dedup.rs:49-51 | a held message goes to the end of its own slot, without any deduplication |
| Dedup.ReplayBuffer.PrepareForReplay | yellowstone-grpc-client/src/dedup.rs:53-55 | a reconnect empties the quarantine |
| Dedup.ReplayBuffer.PruneTo | yellowstone-grpc-client/src/dedup.rs:57-60 | the quarantine keeps exactly the slots that the window still tracks |
| Dedup.ReplayBuffer.Flush | yellowstone-grpc-client/src/dedup.rs:62-67 | the whole quarantine of the slot, in order, then the BlockMeta, is queued |
| Dedup.ReplayBuffer.Discard | yellowstone-grpc-client/src/dedup.rs:69-71 | the quarantine of the slot is dropped and nothing queued |
| Dedup.ReplayBuffer.DrainNext | yellowstone-grpc-client/src/dedup.rs:73-75 | messages leave the flush queue at its front |
| Dedup.ReplayBuffer.Reconcile | yellowstone-grpc-client/src/dedup.rs:78-89 | the filtering loop queues the held messages with keys neither delivered nor repeated, in order, then the BlockMeta |
| Dedup.DedupStream.AcceptKeyed | yellowstone-grpc-client/src/dedup.rs:142-163 | the five verdicts: what is handed out at once, queued, held or dropped for each |
| Dedup.DedupStream.Accept | yellowstone-grpc-client/src/dedup.rs:132-163 | one pulled message takes the layer exactly through one step of the specification, reconnect detection included |
| Dedup.DedupStream.DrainFlushed | yellowstone-grpc-client/src/dedup.rs:127-129 | queued messages are handed out before anything is pulled |
| Dedup.DedupStream.Pull | yellowstone-grpc-client/src/dedup.rs:131-166 | what was delivered and is queued is always the output of the whole run over what was pulled |
| Dedup.DedupStream.PollNext | yellowstone-grpc-client/src/dedup.rs:121-170 | every poll keeps that; at each poll of the inner stream everything deliverable had been handed out, its errors, its end and its pending pass through |
| ProtocolKeys.KeysAreExact | yellowstone-grpc-client/src/dedup.rs:173-262 | a message has no key if and only if it is a ping, a pong, empty or malformed; two messages have the same slot and key if and only if they are of the same kind and agree on slot and identifying fields |
| ProtocolKeys.KindsAre | yellowstone-grpc-client/src/dedup.rs:173-262 | which kinds are statuses, BlockMeta and payload, and which status is CreatedBank |
| DedupWindow.RunWellFormed | yellowstone-grpc-client/src/dedup.rs:272-382 | in every run: in flight and sealed are disjoint, the order has no repeats and lists only tracked slots, every slot in flight is listed, the list is no longer than the retention, only tracked slots are quarantined |
| DedupWindow.UnlistedAreBare | yellowstone-grpc-client/src/dedup.rs:308-332 | in every run the sealed slots outside the order are exactly those whose sealing BlockMeta found no in-flight entry |
| DedupWindow.TrackedCount | yellowstone-grpc-client/src/dedup.rs:358-369 | the number of tracked slots is the length of the order, which the retention bounds, plus those unlisted ones |
| DedupWindow.MetaEventsFillMemory | yellowstone-grpc-client/src/dedup.rs:316-326 | the retention does not bound the memory: n BlockMeta of untracked slots leave n sealed slots that pruning never reaches |
| DedupWindow.RunQuarantineIsPayload | yellowstone-grpc-client/src/dedup.rs:49-51 | whatever is quarantined is payload of the slot it is filed under |
| DedupWindow.VerdictMemory | yellowstone-grpc-client/src/dedup.rs:308-331 | in every run the hash stored for a sealed slot is the hash of the last BlockMeta of the slot on the output |
| DedupWindow.ReplayVerdict | yellowstone-grpc-client/src/dedup.rs:308-314 | in every run a BlockMeta of a sealed slot emits nothing if it repeats the last hash on the output, and otherwise the whole quarantine in order and then itself |
| DedupSlots.StepView | yellowstone-grpc-client/src/dedup.rs:132-163 | one step of the layer, seen by one slot, is one step of that slot's own machine, or none |
| DedupSlots.SlotIsIndependent | yellowstone-grpc-client/src/dedup.rs:272-369 | from its first message until more slots were named than the window retains, the state of a slot is that of its own machine |
| DedupSlots.SpanIsEnough | yellowstone-grpc-client/src/dedup.rs:359-369 | for that it is enough that the slots named from the first message of the slot to its last fit the window |
| DedupSlots.ListedIsTracked | yellowstone-grpc-client/src/dedup.rs:359-369 | if no more slots than the window retains are named between two messages of the slot, the window still tracks it at each of them |
| DedupSlots.SlotsAreIndependent | yellowstone-grpc-client/src/dedup.rs:121-170 | while the window still tracks a slot at each of its messages, the output restricted to it is that of its own machine, in streams of any length |
| DedupExactlyOnce.AlwaysUnfinished | yellowstone-grpc-client/src/dedup.rs:121-170 | before its BlockMeta a slot has handed out the payload keys of its first connection, once each unless a CreatedBank there was followed by one of them, and holds exactly what the live connection brought |
| DedupExactlyOnce.FirstMeta | yellowstone-grpc-client/src/dedup.rs:316-331 | the first BlockMeta completes the block with the missing keys of the completing connection, without repeating one unless a CreatedBank made the slot forget it |
| DedupExactlyOnce.AfterMeta | yellowstone-grpc-client/src/dedup.rs:308-345 | from its first BlockMeta to the next CreatedBank the block part of the output of a slot does not change, whatever is replayed |
| DedupExactlyOnce.AfterBank | yellowstone-grpc-client/src/dedup.rs:282-289 | after a CreatedBank for a sealed slot its block grows if and only if a BlockMeta of it comes, or payload on that connection |
| DedupExactlyOnce.MachineDeliversOnce | yellowstone-grpc-client/src/dedup.rs:121-170 | the machine of a slot delivers the block once if and only if no CreatedBank does harm |
| DedupExactlyOnce.BanksInOrderAreHarmless | yellowstone-grpc-client/src/dedup.rs:282-289 | a CreatedBank that comes before the payload of its slot, or while the slot waits to be completed by a replay, does no harm |
| DedupHistory.DeliverableIsCarried | yellowstone-grpc-client/src/dedup.rs:308-331 | the keys handed out are keys that were carried, and all of them if and only if the completing connection replayed what connections in between had brought |
| DedupExactlyOnce.ExactlyOnce | yellowstone-grpc-client/src/dedup.rs:121-170 | over any number of reconnects and slots: each payload key exactly once, all before the BlockMeta, which comes exactly once, if and only if no CreatedBank does harm; nothing is missing if and only if the slot was replayed in full |
| DedupStatuses.StatusesOnce | yellowstone-grpc-client/src/dedup.rs:280-306 | each status of a slot is handed out exactly once, at its first occurrence and in order, over any number of reconnects and replays, before and after the BlockMeta, if a CreatedBank comes only first or from a replay of the unfinished slot |
| DedupStatuses.BankForgets | yellowstone-grpc-client/src/dedup.rs:282-289 | any other CreatedBank makes the slot forget its keys, its statuses and its BlockMeta |
| DedupFate.LedgerAgrees | yellowstone-grpc-client/src/dedup.rs:49-89 | the quarantine is at all times what the ledger of held messages says, slot by slot and in order |
| DedupFate.MessagesAreConserved | yellowstone-grpc-client/src/dedup.rs:121-170 | in every run the messages pulled are, with multiplicities, those on the output, those held and those dropped |
| DedupFate.DropsAreJustified | yellowstone-grpc-client/src/dedup.rs:121-170 | in every run each dropped message has a key that was delivered, or is or came before a BlockMeta of its slot that repeated the hash then last delivered, or was followed by a new connection, or came before the step at which its slot left the window |
| DedupFate.RepeatIsTheSame | yellowstone-grpc-client/src/dedup.rs:334-345 | in every run, what is dropped as repeated is of the same kind as a message on the output and agrees with it on slot and identifying fields: messages of different kinds never suppress each other |
| DedupFate.KeylessPasses | yellowstone-grpc-client/src/dedup.rs:141-143 | a message without a key is handed out at once, whatever came before |
| DedupFate.HeldCameLive | yellowstone-grpc-client/src/dedup.rs:53-55 | in every run what is held came on the live connection |
| DedupFate.OnlyAFullWindowForgets | yellowstone-grpc-client/src/dedup.rs:359-369 | a slot leaves the window only when more slots than it retains were named since its first message |
| DedupFate.NothingForgotten | yellowstone-grpc-client/src/dedup.rs:57-60 | before that, nothing of the slot is dropped because its slot left the window |
| DedupRefinement.SlotRemembers | yellowstone-grpc-client/src/dedup.rs:280-356 | on a clean stream the state of a slot remembers exactly the keys, statuses and hash that the input brought |
| DedupRefinement.SeenIsSame | yellowstone-grpc-client/src/dedup.rs:280-356 | a slot and key were seen exactly if a message of the same kind with the same slot and identifying fields came before |
| DedupRefinement.OutputIsFirstOccurrences | yellowstone-grpc-client/src/dedup.rs:121-170 | on a clean stream of one connection the output is the input without repeated slots and keys, in order, if and only if no payload key first comes after the BlockMeta of its slot |
| DedupLimits.LateFirstPayloadIsHeld | yellowstone-grpc-client/src/dedup.rs:334-345 | a concrete stream on which payload that comes after its BlockMeta is never handed out |
| DedupLimits.ReplayedBankRepeatsBlock | yellowstone-grpc-client/src/dedup.rs:282-289 | a concrete reconnect on which a replayed CreatedBank makes a sealed block come twice |
| DedupLimits.BankAmidPayloadRepeatsKey | yellowstone-grpc-client/src/dedup.rs:282-289 | a concrete stream on which a CreatedBank amid the payload makes a repeated key come twice |
| DedupMemory.BareExactly | yellowstone-grpc-client/src/dedup.rs:316-326 | in every run a sealed slot is out of the reach of pruning if and only if a BlockMeta of it came while it was not tracked, and no CreatedBank since |
| DedupMemory.FirstMetaStays | yellowstone-grpc-client/src/dedup.rs:316-369 | for every retention: a BlockMeta that is the first message of its slot leaves the slot in memory until its CreatedBank |
| DedupMemory.OnlyFirstMetaStays | yellowstone-grpc-client/src/dedup.rs:316-369 | and while the slot has its place in the window, only such a BlockMeta does |
| Reconnect.AutoReconnect.constructor | yellowstone-grpc-client/src/reconnect.rs:363-407 | a new wrapper streams, has no checkpoint and an empty history |
| Reconnect.AutoReconnect.OnMessage | yellowstone-grpc-client/src/reconnect.rs:431-459 | a message that only the injected filter matched is swallowed, after it moved the checkpoint; any other is handed on without that filter |
| Reconnect.AutoReconnect.OnBroken | yellowstone-grpc-client/src/reconnect.rs:461-488 | a recoverable error asks for a reconnect from the checkpoint, which OutOfRange clears; without retries, or for any other code, the wrapper stops with that error |
| Reconnect.AutoReconnect.PollStream | yellowstone-grpc-client/src/reconnect.rs:429-498 | every answer of the live stream extends the history as the specification allows |
| Reconnect.AutoReconnect.PollConnecting | yellowstone-grpc-client/src/reconnect.rs:500-519 | a new stream counts as a reconnect; a failed connect stops the wrapper with an error |
| Reconnect.AutoReconnect.Turn | yellowstone-grpc-client/src/reconnect.rs:428-524 | one turn of the loop: the history grows by what the answers of the polled sides bring, a broken stream and the connecting task in the same turn, and the outcome is that of the last event |
| Reconnect.AutoReconnect.PollNext | yellowstone-grpc-client/src/reconnect.rs:423-527 | the poll takes the answers of some turns, the history grows by exactly what these bring, no turn before the last has an outcome, and Pending is answered only when the answers have run out or the last turn says so; the wrapper is then in exactly one of streaming, connecting and stopped; once stopped it answers only the end of the stream and does nothing |
| ReconnectRuns.PendingTurn | yellowstone-grpc-client/src/reconnect.rs:494-518 | a turn answers Pending if and only if the side that was polled last is not ready |
| ReconnectRuns.GivesUpOn | yellowstone-grpc-client/src/reconnect.rs:547-561 | the codes after which the wrapper gives up |
| ReconnectRuns.NothingAfterTheEnd | yellowstone-grpc-client/src/reconnect.rs:423-427 | in every legal history nothing follows a terminal event |
| ReconnectRuns.RequestsAndStreams | yellowstone-grpc-client/src/reconnect.rs:483-506 | in every legal history each new stream answers its own reconnect request |
| ReconnectRuns.CheckpointMeaning | yellowstone-grpc-client/src/reconnect.rs:432-467 | the checkpoint is two slots, floored at zero, behind the last BlockMeta since the last OutOfRange, and absent if and only if there is none |
| ReconnectRuns.RequestedCheckpoint | yellowstone-grpc-client/src/reconnect.rs:382-392 | every slot ever asked for is the checkpoint of the last BlockMeta before the break, and is asked for only when resuming is on |
| ReconnectRuns.RequestReaches | yellowstone-grpc-client/src/reconnect.rs:432-441 | a resuming reconnect asks for a slot or from below it if and only if the last BlockMeta before the break is not more than two slots ahead of it |
| ReconnectRuns.CheckpointIsSafe | yellowstone-grpc-client/src/reconnect.rs:432-441 | for each slot: no reconnect that finds it unfinished asks for a slot above it if, and where reconnects resume only if, the stream breaks near the slot |
| ReconnectRuns.ForwardedCounts | yellowstone-grpc-client/src/reconnect.rs:395-399 | the reconnect counts seen behind the wrapper never go down |
| ReconnectRuns.ForwardedSource | yellowstone-grpc-client/src/reconnect.rs:447-459 | every forwarded message stems from one received message, in order |
| ReconnectRuns.ForwardedTarget | yellowstone-grpc-client/src/reconnect.rs:447-459 | every received message that is not internal-only is forwarded |
| ReconnectRuns.StripKeepsKey | yellowstone-grpc-client/src/reconnect.rs:455-459 | stripping the internal filter leaves no trace of it and changes no key |
| ReconnectRuns.FiltersAre | yellowstone-grpc-client/src/reconnect.rs:444-456 | the internal filter is taken out and every other filter kept as often as it was; a message is swallowed exactly if it had filters and none remains |
| EndToEnd.RequestedFromBelow | yellowstone-grpc-client/src/reconnect.rs:382-392 | the connection that completes a slot begun by an earlier one was asked for from that slot or below |
| EndToEnd.BegunIsReplayed | yellowstone-grpc-client/src/reconnect.rs:382-392 | so a slot that an earlier connection began is replayed in full by the one that completes it |
| EndToEnd.CompletionIsInFull | yellowstone-grpc-client/src/lib.rs:566-589 | behind the wrapper, the replay layer sees every slot replayed in full |
| EndToEnd.NothingLostNothingTwice | yellowstone-grpc-client/src/lib.rs:566-589 | the two layers together, slot by slot: over any run of errors and reconnects the user gets each payload key of the slot that any connection carried exactly once, then its BlockMeta exactly once, if and only if no CreatedBank does harm; conditions are on this slot and on the breaks that find it unfinished |
| ContactInfoTasks.ContactInfoState.constructor | yellowstone-grpc-geyser/src/contact_info.rs:47-57 | the table starts empty, at version zero, incomplete |
| ContactInfoTasks.ContactInfoState.OnNotification | yellowstone-grpc-geyser/src/contact_info.rs:97-122 | the sequential writer is the seven interleaved steps run without interruption |
| ContactInfoTasks.ContactInfoState.SubscribeAndSnapshot | yellowstone-grpc-geyser/src/contact_info.rs:76-86 | the receiver starts at the end of the channel and the copy is of the version it names |
| ContactInfoTasks.ContactInfoState.HandOff | yellowstone-grpc-geyser/src/contact_info.rs:254-272 | the sequential handoff is the six interleaved steps of a client |
| ContactInfoTasks.ContactInfoState.ReceiveOne | yellowstone-grpc-geyser/src/contact_info.rs:281-322 | a live client drops what its snapshot has, forwards the rest, and re-snapshots or gives up when it lags |
| ContactInfoTasks.ContactInfoState.Drain | yellowstone-grpc-geyser/src/contact_info.rs:254-325 | the client loop ends caught up or gone, through steps of the interleaved system only |
| ContactInfoTasks.IterationIs | yellowstone-grpc-geyser/src/contact_info.rs:97-122 | what the seven steps of the writer amount to |
| ContactInfoTasks.HandoffIs | yellowstone-grpc-geyser/src/contact_info.rs:254-272 | what the six steps of a client amount to |
| ContactInfoRuns.CriticalSectionKeepsInv | yellowstone-grpc-geyser/src/contact_info.rs:108-121 | while the writer bumps, mutates and broadcasts under the lock, no client is disturbed |
| ContactInfoRuns.LockStaysApart | yellowstone-grpc-geyser/src/contact_info.rs:76-86 | a client takes the lock only from nobody and gives back only its own |
| ContactInfoRuns.RunKeepsInv | yellowstone-grpc-geyser/src/contact_info.rs:93-123 | under every interleaving every client stands at a consistent point of the published history |
| ContactInfoRuns.EveryViewIsATable | yellowstone-grpc-geyser/src/contact_info.rs:310-314 | under every interleaving, all that a client was ever sent adds up to the writer's table at the revision the client believes in |
| ContactInfoRuns.CaughtUpIsCurrent | yellowstone-grpc-geyser/src/contact_info.rs:69-86 | a client that has received all that was published shows the current table |
| ContactInfoRuns.EveryFeedIsProper | yellowstone-grpc-geyser/src/contact_info.rs:243-323 | updates are numbered without holes, snapshots never go back and contain all startup notifications, and at most three re-snapshots come between two updates |
| ContactInfoMeaning.TableMeaning | yellowstone-grpc-geyser/src/contact_info.rs:111-121 | the table says of each node what the last notification about it says, and nothing of a node removed last or never announced |
| ContactInfoMeaning.EveryViewIsTheLastWord | yellowstone-grpc-geyser/src/contact_info.rs:310-314 | under every interleaving, what a client was sent adds up to the last words on each node among the notifications up to its revision |
| ContactInfoMeaning.CaughtUpHasTheLastWord | yellowstone-grpc-geyser/src/contact_info.rs:69-86 | and once it has received everything, among all notifications |
| ContactInfoMeaning.LagsExactly | yellowstone-grpc-geyser/src/contact_info.rs:285-305 | under every interleaving, a client loses its place if and only if it is more than the capacity behind, and is told goodbye if and only if that is its fourth lag without an update in between |
| ContactInfoMeaning.CompleteExactly | yellowstone-grpc-geyser/src/contact_info.rs:99-106 | under every interleaving, the startup counts as over if and only if a live notification came while a client was waiting |
| Blocks.ProcessingSlot.constructor | yellowstone-grpc-geyser/src/block_reconstruction.rs:35-47 | a new collector is empty |
| Blocks.ProcessingSlot.Add | yellowstone-grpc-geyser/src/block_reconstruction.rs:55-85 | an event goes to the messages and to the list of its kind; an account raises the recorded version of its key, never lowers it |
| Blocks.ProcessingSlot.TryToSeal | yellowstone-grpc-geyser/src/block_reconstruction.rs:87-106 | it seals once, and only with the BlockMeta and both counts in; the error tells which |
| Blocks.AddEventConsistent | yellowstone-grpc-geyser/src/block_reconstruction.rs:55-85 | the lists stay the three projections of the messages and the recorded versions their maxima |
| Blocks.SealedBlock | yellowstone-grpc-geyser/src/block_reconstruction.rs:108-166 | a frozen block holds the received messages without outdated accounts, in order; its lists are the projections of these; every account seen survives in its newest version |
| Blocks.SealedHolds | yellowstone-grpc-geyser/src/block_reconstruction.rs:108-166 | which of the received messages a frozen block holds and in which of its lists: accounts of the newest version of their key, all transactions, all entries |
| Sealing.SealsWhenComplete | yellowstone-grpc-geyser/src/block_reconstruction.rs:353-408 | over all orders of arrival: sealed if and only if at some moment the BlockMeta in force and what it counts were all in; then exactly one summary, of that BlockMeta; a BlockMeta before any data is lost |
| Sealing.SealsInAnyOrder | yellowstone-grpc-geyser/src/block_reconstruction.rs:382-408 | with one BlockMeta: sealed if and only if some data came before it and as many transactions and entries as it counts are in |
| Storage.BlockMachineStorage.constructor | yellowstone-grpc-geyser/src/block_reconstruction.rs:268-279 | a new store is empty |
| Storage.BlockMachineStorage.RefreshMinSlot | yellowstone-grpc-geyser/src/block_reconstruction.rs:281-283 | the smallest stored slot is recorded |
| Storage.BlockMachineStorage.PruneSlot | yellowstone-grpc-geyser/src/block_reconstruction.rs:285-297 | the slot leaves the three indices and the finalized count |
| Storage.BlockMachineStorage.SlotReset | yellowstone-grpc-geyser/src/block_reconstruction.rs:299-303 | pruning, and the ready queue loses the blocks of the slot |
| Storage.BlockMachineStorage.TryToSeal | yellowstone-grpc-geyser/src/block_reconstruction.rs:353-380 | success is reported to the state machine with the BlockMeta of the collector; without a collector nothing happens |
| Storage.BlockMachineStorage.HandleBlockMeta | yellowstone-grpc-geyser/src/block_reconstruction.rs:382-387 | a BlockMeta reaches the collector of its slot, if there is one, and no other |
| Storage.BlockMachineStorage.HandleBlockData | yellowstone-grpc-geyser/src/block_reconstruction.rs:389-408 | untracked and already frozen slots drop data; otherwise it reaches the slot's own collector, made on demand, and no other |
| Storage.BlockMachineStorage.RunGc | yellowstone-grpc-geyser/src/block_reconstruction.rs:410-422 | the loop with its two guards computes the collection of the specification and ends |
| Storage.BlockMachineStorage.OnFrozenBlock | yellowstone-grpc-geyser/src/block_reconstruction.rs:425-435 | the collector becomes the stored block of its slot |
| Storage.BlockMachineStorage.OnSlotStatus | yellowstone-grpc-geyser/src/block_reconstruction.rs:436-493 | the progression, its maximum, the finalized count and the ready queue after a status |
| Storage.BlockMachineStorage.OnBlockmachineOutput | yellowstone-grpc-geyser/src/block_reconstruction.rs:424-505 | every output of the state machine has the effect of the specification |
| Storage.BlockMachineStorage.PopReadyBlock | yellowstone-grpc-geyser/src/block_reconstruction.rs:539-541 | ready entries leave at the front |
| StorageRuns.DropCounts | yellowstone-grpc-geyser/src/block_reconstruction.rs:285-297 | dropping a slot keeps the count of finalized slots right, so its saturating decrement never saturates |
| StorageRuns.RecordCounts | yellowstone-grpc-geyser/src/block_reconstruction.rs:436-480 | a status keeps levels distinct, the maximum right, and the count of finalized slots right |
| StorageRuns.CollectorKeeps | yellowstone-grpc-geyser/src/block_reconstruction.rs:353-408 | whatever arrives, a collector stays consistent and of its own slot, and sealed only with a BlockMeta |
| StorageRuns.SealMakesBlock | yellowstone-grpc-geyser/src/block_reconstruction.rs:108-166 | freezing yields a block of the collector's slot whose parts agree |
| StorageRuns.FrozenMin | yellowstone-grpc-geyser/src/block_reconstruction.rs:430-431 | freezing keeps the recorded smallest slot right without a search |
| StorageRuns.OutputAgrees | yellowstone-grpc-geyser/src/block_reconstruction.rs:424-505 | every output keeps all indices in agreement |
| StorageRuns.IndicesAgree | yellowstone-grpc-geyser/src/block_reconstruction.rs:353-505 | in every run: no panic, processing and stored are disjoint, stored blocks carry their own slot, the smallest slot, the maxima and the finalized count are right |
| StorageGc.GcRemovesOldest | yellowstone-grpc-geyser/src/block_reconstruction.rs:410-422 | collection removes the smallest stored slots from every index and nothing else; it acts if and only if both guards hold, ends when one fails, and leaves at least the capacity and ten finalized slots |
| StorageGc.FinalizedStayStored | yellowstone-grpc-geyser/src/block_reconstruction.rs:252-265 | how many finalized slots stay replayable: ten, less the finalized ones that are not stored |
| StorageGc.TenStayStored | yellowstone-grpc-geyser/src/block_reconstruction.rs:410-422 | when collection removes something, ten finalized slots stay replayable if and only if none is finalized but not stored, or ten are among the newest stored ones that fill the capacity |
| StorageGc.NoneFinalizedRemains | yellowstone-grpc-geyser/src/block_reconstruction.rs:410-422 | at every capacity, a run in which n Finalized statuses of slots that are never frozen let collection remove the only finalized stored slot if and only if n is ten or more |
| StorageGc.ResetForgets | yellowstone-grpc-geyser/src/block_reconstruction.rs:299-303 | after BankReset nothing mentions the slot, and all other slots and ready entries are as before |
| StorageGc.CollectorOfRun | yellowstone-grpc-geyser/src/block_reconstruction.rs:382-422 | until a slot is frozen or forgotten its collector is what its own arrivals make of it, whatever happens to other slots |
| StorageGc.FrozenIsWhatArrived | yellowstone-grpc-geyser/src/block_reconstruction.rs:424-435 | in every run the frozen block of a slot holds exactly the data that arrived for it, in order, without outdated accounts, and the BlockMeta in force |
| StorageMeaning.LevelsAreOrdered | yellowstone-grpc-geyser/src/block_reconstruction.rs:211-222 | Processed is below Confirmed, Confirmed below Finalized |
| StorageMeaning.MaximumIsReached | yellowstone-grpc-geyser/src/block_reconstruction.rs:436-480 | the maximum on record tells exactly which levels the slot has reached |
| StorageMeaning.StatusMeaning | yellowstone-grpc-geyser/src/block_reconstruction.rs:436-493 | the first status of each level is recorded, in order of arrival; every status is queued for publication exactly if the block of its slot is stored; only a Finalized one collects garbage |
| StorageMeaning.OutputMeaning | yellowstone-grpc-geyser/src/block_reconstruction.rs:424-505 | forks and dead slots make the store forget the slot, but not what waits for publication; a created bank changes nothing; a frozen slot moves from collecting to stored, and is passed over without a collector |
| StorageMeaning.SummariesOfRun | yellowstone-grpc-geyser/src/block_reconstruction.rs:353-380 | in every run the state machine was given of a slot the summary of its completed BlockMeta, once, and nothing else |
| Publication.ReplayIter.constructor | yellowstone-grpc-geyser/src/block_reconstruction.rs:543-550 | the iterator starts at the stored slots from the given one on |
| Publication.ReplayIter.Next | yellowstone-grpc-geyser/src/block_reconstruction.rs:232-249 | the skipping loop yields the qualifying slots one by one, in order, and then nothing |
| Publication.ReconstructionLoop.constructor | yellowstone-grpc-geyser/src/grpc.rs:1354-1365 | the loop starts with an empty store and silent channels |
| Publication.ReconstructionLoop.Announce | yellowstone-grpc-geyser/src/grpc.rs:1398-1430 | what each of the three channels is sent for one ready block |
| Publication.ReconstructionLoop.PublishReady | yellowstone-grpc-geyser/src/grpc.rs:1398-1431 | the queue is published to its end, in order |
| Publication.ReconstructionLoop.Add | yellowstone-grpc-geyser/src/block_reconstruction.rs:507-533 | one message, or one output of the state machine, takes the store one step |
| Publication.ReconstructionLoop.OnMessages | yellowstone-grpc-geyser/src/grpc.rs:1369-1431 | a batch goes through the store in order, then everything ready is published |
| Publication.ReconstructionLoop.Serve | yellowstone-grpc-geyser/src/grpc.rs:1438-1489 | the answer to a replay request is that of the specification |
| Publication.PushReplayed | yellowstone-grpc-geyser/src/grpc.rs:1459-1485 | a replayed slot: content, block, summary, then its statuses in order |
| Publication.Collect | yellowstone-grpc-geyser/src/grpc.rs:1457-1485 | the whole iterator is answered, in order |
| ReplayHandoff.ChannelInOrder | yellowstone-grpc-geyser/src/grpc.rs:1398-1431 | on any channel a status of its level comes right after the block of its slot, on Confirmed and Finalized right after its content, and each block right before its status |
| ReplayHandoff.HubChannelInOrder | yellowstone-grpc-geyser/src/grpc.rs:1398-1431 | and so in every run of the loop |
| ReplayHandoff.SharedChannelInOrder | yellowstone-grpc-geyser/src/grpc.rs:1398-1431 | whatever other senders put in between, each of the loop's statuses of the level comes after the block of its slot, with nothing of the loop's between them, and above Processed after its content |
| ReplayHandoff.AcceptKeepsRemembered | yellowstone-grpc-geyser/src/block_reconstruction.rs:424-505 | as long as a published block is stored, its level stays on record, through every operation |
| ReplayHandoff.HubRunAgrees | yellowstone-grpc-geyser/src/grpc.rs:1367-1498 | in every run the indices agree between two batches and everything ready has been published |
| ReplayHandoff.AnswerInOrder | yellowstone-grpc-geyser/src/grpc.rs:1459-1485 | in an answer every status comes after the whole block of its slot |
| ReplayHandoff.ReplyIs | yellowstone-grpc-geyser/src/grpc.rs:1438-1489 | a request lags if and only if it is below every stored slot; otherwise the answer holds exactly the stored blocks from there on that reached the level, in ascending order, and is not sent at all if and only if there is none |
| ReplayHandoff.EmptyStoreIsSilent | yellowstone-grpc-geyser/src/grpc.rs:1487-1489 | a request to an empty store is not answered |
| PublicationMeaning.AnswerAtLevel | yellowstone-grpc-geyser/src/grpc.rs:1438-1489 | in every run an answer holds exactly the stored blocks from the slot on whose record has a status of the level or a higher one: any, a Confirmed or Finalized one, a Finalized one |
| PublicationMeaning.AnswerHasStatuses | yellowstone-grpc-geyser/src/grpc.rs:1470-1485 | and exactly the statuses on record of these slots |
| PublicationMeaning.ChannelCarries | yellowstone-grpc-geyser/src/grpc.rs:1398-1431 | a channel carries every published status, and of those at its level each block with its summary, and above Processed its content, all in order of publication |
| PublicationMeaning.StatusIsPublished | yellowstone-grpc-geyser/src/grpc.rs:1369-1431 | in every run a status that finds the block of its slot stored is published with it, unless a BankReset of the slot comes first |
| ReplayHandoff.NoGap | yellowstone-grpc-geyser/src/grpc.rs:1582-1642 | among the loop's own batches, every block that the channel carries, before or after the answer, is in the answer or ahead of the receiver, unless it was no longer stored |
| ReplayHandoff.NoGapShared | yellowstone-grpc-geyser/src/grpc.rs:1582-1642 | the same with positions on the channel that the plugin also sends to, whatever it sends in between |
| ReplayTiming.HubAnnounced | yellowstone-grpc-geyser/src/block_reconstruction.rs:482-487 | when statuses follow their blocks, every level on record was announced with the stored block |
| ReplayTiming.ReplayIsWhatWasSent | yellowstone-grpc-geyser/src/grpc.rs:1438-1489 | then a replay answers exactly the stored blocks that subscribers of the level, or a higher one, have been sent |
| ClientLoop.Session.constructor | yellowstone-grpc-geyser/src/grpc.rs:1543-1544 | a session starts at the end of its channel |
| ClientLoop.Session.OnRequest | yellowstone-grpc-geyser/src/grpc.rs:1571-1593 | a new level moves the receiver to the end of that channel before the replay is asked for; the same level leaves it in place; where replay is not configured a request for it ends the session |
| ClientLoop.Session.OnAnswer | yellowstone-grpc-geyser/src/grpc.rs:1602-1641 | the answer, given when the loop comes to it, is filtered and sent in order; a lagged or missing one ends the session |
| ClientLoop.Session.OnBroadcast | yellowstone-grpc-geyser/src/grpc.rs:1654-1693 | the next batch is filtered and sent item by item, none is skipped; a receiver too far behind, or a client channel without room, ends the session |
| ClientRuns.AlwaysInStep | yellowstone-grpc-geyser/src/grpc.rs:1546-1696 | over all interleavings with loop and plugin: since its answer a session was sent that answer and then its channel from where its receiver stood when it asked, filtered, in order |
| ClientRuns.AskKeepsPlace | yellowstone-grpc-geyser/src/grpc.rs:1572-1590 | a request leaves the receiver where it is, or at the end of the channel of another level |
| ClientRuns.NothingSkipped | yellowstone-grpc-geyser/src/grpc.rs:1654-1693 | over all interleavings: a session without a replay was sent everything on its channel from where its receiver stood at its last request, filtered, in order |
| ClientRuns.ReceiveExactly | yellowstone-grpc-geyser/src/grpc.rs:1654-1693 | a receive ends the session by lag if and only if more batches than the channel keeps are waiting, by a full channel if and only if the next batch has more matching items than there is room, and else sends them all |
| ClientRuns.AnswerExactly | yellowstone-grpc-geyser/src/grpc.rs:1602-1641 | an answer with messages keeps the session open, a lagged or missing one ends it |
| ClientRuns.EndsExactly | yellowstone-grpc-geyser/src/grpc.rs:1654-1693 | over all interleavings: a session is thrown off for lagging, or for its full channel, if and only if it received in that situation |
| ClientRuns.CatchesUp | yellowstone-grpc-geyser/src/grpc.rs:1654-1693 | a session within reach and with room is, after as many receives as batches wait, at the end of its channel with all of them sent |
| ClientRuns.SessionHasNoGap | yellowstone-grpc-geyser/src/grpc.rs:1571-1693 | over all interleavings: what a session was sent since its request contains every block that its channel carried from the requested slot on, up to its receiver, and that was still stored when the answer was given |
| ClientRuns.BlocksComeWhole | yellowstone-grpc-geyser/src/grpc.rs:1398-1430 | over all interleavings, above Processed: the content of a block is sent before its summary, also to a session that asked between the two, unless it asked for later slots or the block was no longer stored when it was answered |
| Batching.PartitionedBuffer.Accumulate | yellowstone-grpc-geyser/src/grpc.rs:1291-1301 | a ready buffer accepts any item at the end of its contents; only a full one gives it back |
| Batching.PartitionedBuffer.TakeQueued | yellowstone-grpc-geyser/src/stream.rs:187-195 | the drain loop moves a prefix of the queue into the buffer |
| Batching.PartitionedBuffer.PollRecvBatch | yellowstone-grpc-geyser/src/stream.rs:167-201 | the buffer gets exactly the next batch, nothing rejected, lost or reordered, and the count is right: both unreachable arms are dead |
| Batching.TakenIsOneBatch | yellowstone-grpc-geyser/src/grpc.rs:1303-1306 | a batch ends with a BlockMeta, with a full buffer or with an empty queue, and contains a BlockMeta only at its end |
| Batching.VecBuffer.Accumulate | yellowstone-grpc-geyser/src/stream.rs:17-30 | a vector with room accepts, a full one gives the item back |
| Batching.VecBuffer.PollRecvBatch | yellowstone-grpc-geyser/src/stream.rs:207-241 | the vector gets as much of the queue as fits, in order |
| Batching.GeyserLoop.constructor | yellowstone-grpc-geyser/src/grpc.rs:1308-1311 | the loop starts with an empty buffer |
| Batching.GeyserLoop.SendBatch | yellowstone-grpc-geyser/src/grpc.rs:1319-1330 | a batch goes to Processed and to reconstruction |
| Batching.GeyserLoop.SendBlockMeta | yellowstone-grpc-geyser/src/grpc.rs:1332-1341 | a BlockMeta goes to reconstruction only, after the batch before it |
| Batching.GeyserLoop.Turn | yellowstone-grpc-geyser/src/grpc.rs:1312-1342 | one turn sends on exactly what it read, and ends the loop only on a closed, drained channel |
| Batching.GeyserLoop.Drain | yellowstone-grpc-geyser/src/grpc.rs:1312-1343 | flattened, reconstruction was handed exactly the input, and Processed its messages other than BlockMeta, in order, in batches of at most 1024 |
| Batching.AddBuffered | yellowstone-grpc-geyser/src/grpc.rs:1377-1396 | reconstruction adds the messages of its buffered batches one by one, in order |
| Batching.ReconstructionReader.Turn | yellowstone-grpc-geyser/src/grpc.rs:1364-1396 | reading in vectors of 32 keeps the order and leaves nothing behind |
| Batching.HandedIsAll | yellowstone-grpc-geyser/src/grpc.rs:1319-1341 | what the loop makes of a batch carries the messages of the batch, in order |
| Batching.PipelineConserves | yellowstone-grpc-geyser/src/grpc.rs:1312-1396 | over all interleavings of plugin, loop and reader: what reconstruction has added, then what is on the way, then what waits is exactly what the plugin sent, in order |
| Billing.HttpBillingEventSink.constructor | yellowstone-grpc-geyser/src/billing.rs:179-197 | a new sink is empty |
| Billing.HttpBillingEventSink.TryFlushBufferWithoutPolling | yellowstone-grpc-geyser/src/billing.rs:208-236 | a flush takes the whole buffer and the events in it, never while another is in progress |
| Billing.HttpBillingEventSink.PollOngoingFlush | yellowstone-grpc-geyser/src/billing.rs:238-256 | a flush in progress is polled once; its events are booked as delivered if it succeeded and as failed if it did not, and room is made for the next |
| Billing.HttpBillingEventSink.Accept | yellowstone-grpc-geyser/src/billing.rs:322-345 | an event is appended as a line, and a flush starts exactly when the threshold is reached |
| Billing.HttpBillingEventSink.PollSource | yellowstone-grpc-geyser/src/billing.rs:321-366 | an idle source flushes what is buffered; the end of the source, and nothing else, closes the sink for further events |
| Billing.HttpBillingEventSink.Turn | yellowstone-grpc-geyser/src/billing.rs:292-368 | one turn of the loop: at most one answer of each side is taken, and it waits only for a side that has just said that it is not ready |
| Billing.HttpBillingEventSink.Poll | yellowstone-grpc-geyser/src/billing.rs:292-368 | posted bodies and the buffer make up the source's events byte by byte, every event is waiting, in flight, delivered or failed, the buffer stays below 4096 bytes, at most one flush starts after the source closed, the sink never waits with something to send and no flush, and it completes only with everything posted |
| Billing.EncodedLines | yellowstone-grpc-geyser/src/billing.rs:327-331 | with serialization succeeding every event is accepted and the bytes end with a complete line |
| Billing.EncodedIs | yellowstone-grpc-geyser/src/billing.rs:321-334 | each event that was serialized adds its JSON and a newline, each other one what the serializer had written |

## Left out

- The internals of the external block state machine: filling in commitment levels and finalizing ancestors. Its outputs are inputs here; `StorageRuns.Legal` and `ReplayTiming.BlockFirst` are all that is asked of them.
- Slot messages given to the store: they go to the external state machine only, and come back as its outputs.
- Commitment statuses that the plugin hands straight to reconstruction, past the batching loop, and their order relative to it.
- Filter evaluation: a filter is a predicate; in a session it decides about a block's content as a whole.
- Messages broadcast at Processed before their slot is frozen: they bypass the store, so `NoGap` speaks of blocks, and of content as part of a block.
- Wakers, sockets, TLS, cancellation, ping tasks, request hot-swapping, timestamps, metrics and logs.
- Backoff intervals and the retries inside one connect: a connect succeeds, fails or is pending.
- Integer widths: slots, versions and counters are unbounded. The reconnect counter would wrap after 2^32 reconnects, and the event counter of the billing sink saturates.
- Interleaving of threads on one object, except for the gossip table: the other tasks own their state.
- Messages that arrive while a channel is being drained count as part of its queue at the time of the poll.
- The order of the nodes in a gossip snapshot: the source copies a hash map in no particular order.
- Subscription permits, rate limits, authentication, configuration, and the block meta storage.
- Dedup.DedupStream.PollNext: an endless supply of messages within one poll is not modelled; the inner stream is pending when its answers have run out, as are the environments of the wrapper and of the billing sink.
- Storage.BlockMachineStorage.OnBlockmachineOutput: freezing a collector without BlockMeta panics in the source and is excluded by its precondition, which `IndicesAgree` shows to hold in every legal run.
- Sealing.SealsWhenComplete: a transaction count that does not match the BlockMeta is only logged in the source, and so not recorded here.
- Billing.HttpBillingEventSink.Poll: the periodic report and its counter reset are logging; the events flushed are counted in total.
- A session that finds several requests waiting for it takes the newest; here every request is taken.
- A client that closes its stream while it is sent to; the session just ends.
