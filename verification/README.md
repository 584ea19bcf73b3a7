# Cowchat, modelled and proved

Cowchat coordinates agents through durable logs, cursors, leases and locks. This project models the
parts of it where several parties, crashes or untrusted bytes meet, and proves what each part is for.
`dafny verify dfyconfig.toml` checks everything.

## The parts

**The wake bridge** (`WakePaging`, `WakeStore`, `WakeProtocol`, `WakeNoLost`, `WakeDedup`, `WakeLease`,
`WakeReads`, `WakeAcked`, `WakeService`). `WakeProtocol` is a state machine: a step is one store call or one room call
of some `wake_agent`, `read_inbox` or `acknowledge`, and a run interleaves the steps of any number of
calls, any of which may be interrupted. Four results stand on it. Once a target's calls have returned, an
eligible event waits without a claim exactly when the target's wake was last given up by a Codex failure or
an interruption. An event gets a second message exactly when it is appended while the room holds it, which
one caller at a time cannot do. A target is woken at most once a lease.
Everything up to the read cursors has been handed out exactly as long as no recorded read started beyond an
unread event or beyond the end of its log, and then acknowledged events were read. `WakeStore` holds the tables a store call
changes, `WakeService` the service methods, each proved to do only steps of the machine, and `WakePaging`
the page loops, proved to return what filtering the log would even while the log grows under them.

**The Telegram bridge** (`BridgeModel`, `BridgeInbound`, `BridgeOutbound`, `BridgeProcess`, `Chunks`). The
machine keeps memory, the state file, the room and the chat apart. A crash may come before any step and a
failed save leaves either file. Inbound updates reach the room exactly once and in order; outbound messages
are never skipped or reordered. `BridgeProcess` has the bridge's own methods and loops over that machine.
`Chunks` splits a text within Telegram's bound, with the fewest pieces possible.

**Room lifecycle** (`Tombstones`, `Frames`, `StashRace`, `Reconnect`, `ReconnectLease`, `ReconnectManager`,
`VisiblePaths`, `Broker`, `BrokerTurns`). `StashRace` interleaves stashing and destruction lock by lock; `Reconnect` takes
one manager call at a time and `ReconnectLease` proves leases exclusive and lossless on it;
`ReconnectManager` is the class that does those calls. `VisiblePaths` follows one agent's registration,
with writes that fail part of the way, against concurrent broadcasts. `Broker` has what each broker call
does and the class, `BrokerTurns` the same calls table by table, with advances that hold no lock between
them. `Tombstones` is the bounded table both the broker and the manager keep.

**Artifacts and charts** (`MergePatch`, `Validation`, `Base64`, `JsonString`, `Chart`). Merge patches
against section 2 of RFC 7396, what a merge can do to validity, and the chart envelope's round trip with its
byte bounds.

**Votes, limits and framing** (`Voting`, `VotingRace`, `RateLimit`, `SessionRace`, `MessageRace`, `Framing`,
`Transport`). One vote from the commit of its row on, under concurrent casts, its deadline and the destruction of its room; counting windows
over arbitrary intervals, and the two limits whose check and update are separate steps of overlapping calls,
with usage records that an overlapping creation replaces;
RFC 6455 frames and the two line readers of the Python client. Shared values are in `Prelude` and `Text`.

## Where the code does less than one might hope

- When the last call that owes an unclaimed target its wake is interrupted, its event is left pending, unclaimed
  and owed by nobody (`WakeNoLost.InterruptionLoses`, `WakeNoLost.CrashBeforeClaimLoses`).
  `WakeNoLost.SettledMeansClaimed` says exactly when that is so, and any later acknowledgement repairs it
  (`WakeNoLost.AckHeals`).
- Two calls on one event that are both about to append it duplicate it, from any state
  (`WakeDedup.TwoSendersDuplicate`); `WakeDedup.DurableDedup` says exactly when there is a duplicate.
- A read accepts any cursor that is not negative and records it even when its page is empty. A cursor beyond an
  unread event, or beyond the end of the log, makes an event acknowledgeable that no read returned
  (`WakeAcked.CursorBeyondUnreadLoses`, `WakeAcked.CursorBeyondTipLoses`, `WakeAcked.UncoveredCursorLoses`).
  `WakeAcked.ExplicitCursor` says exactly when one read keeps everything up to the read cursor handed out, and
  `WakeAcked.PrefixReadExactly` when a run does.
- `buffer_message` looks at the tombstones before it takes the entry, so a message can land after its room
  was destroyed and swept (`StashRace.LateRelayHappens`). Exactly the runs with such a late relay have a moment
  at which a buffer holds an event of a destroyed room that no running call will clear
  (`StashRace.FramesGuardedExactly`); it stays until the stash goes or the room is destroyed once more.
- A registration whose write fails keeps its stash whole, although part of the replay may have reached the
  agent. The next attempt replays it all: an event arrives once, and once more for each failed write that had
  let it out (`VisiblePaths.ExactlyOnceUnlessLeaked`, `VisiblePaths.FailedWriteRepeats`).
- A cast persists its ballot first and may then find no vote to record it in: a vote opens in memory only after its
  row is committed, and leaves it before its row is closed. Such a ballot stays stored and is never counted, and its
  agent cannot vote again (`VotingRace.LostIsNeverCounted`,
  `VotingRace.EarlyBallotIsStoredOnly`, `VotingRace.LateBallotIsStoredOnly`). The published tally equals the tally
  of the stored ballots exactly when no cast with a valid option came too early or too late that way
  (`VotingRace.PublishedTallyMatchesStored`).
- `advance_turn_from` reads the members and writes the holder without the lifecycle lock. A room can be
  destroyed, the chosen member can leave, or a first member can join in between
  (`BrokerTurns.DestroyedRoomKeepsHolder`, `BrokerTurns.LeftMemberHolds`, `BrokerTurns.FirstJoinerLosesTurn`).
  `BrokerTurns.TurnsHoldExactly` and `BrokerTurns.DestroyedStaysVacantExactly` say exactly when the turns stay right.
- `try_register_session` looks at its table and registers in separate steps. With up to k calls in between, the
  table reaches 4095 + k buckets, and this is reached (`SessionRace.BoundIsReached`). It stays within 4096 exactly
  when no new bucket is registered at a full table (`SessionRace.BoundedExactly`).
- A message is counted after it is appended, so with up to k sends in between a usage record counts up to
  max + k - 1 a window. `get_or_create` looks for the record and inserts one in separate steps: calls that overlap
  the first use of a key replace the record, which loses its count and goes back to the time at which the new one
  was made. And a check gives an elapsed window its new start before it resets the count, which sends may raise in
  between. An interval as short as a window then has up to 2 (r + 1) (max + k - 1) + k sends, with r records
  replaced (`MessageRace.SendsBoundedBy`), and this is reached (`MessageRace.BoundIsReached`). r is less than the
  number of calls that make a record at once (`MessageRace.ReplacedBoundedBy`). No more than the maximum are
  counted between two resets exactly when no send is counted late and none slips past a replaced record
  (`MessageRace.WithinExactly`). Sends that nothing comes between keep the bound of the other windows, by
  `RateLimit.RateLimiter.SendMessage`.
- A window does not admit twice its maximum within its length, as one might first think, but at most one less,
  and that bound is reached (`RateLimit.BoundIsReached`).

## Assumptions

- A room log only grows and its sequences increase; retention purging is not part of the model. A history
  request with a cursor returns the oldest messages above it.
- An append request that outlives its interrupted call is a call still about to append: its interruption comes
  after the request has landed.
- Only the bridge writes wake metadata, and nobody else uses a bridge message identity. Message identities
  are values of a datatype: the text formats they are written in are injective.
- Telegram delivers updates in ascending order with stable content.
- Ciphertext is an opaque value that only its key opens; where only its size matters, it has its size.
- Times are integers (nanoseconds, except the seconds of the wake store) that never go back, and times, keys
  and random values are parameters. Characters are Unicode scalar values. Connections, locks and timers appear as steps, not as code.

## Model

| member | source | states |
|---|---|---|
| WakePaging.FindEvent | crates/cowchat-codex/src/service.rs:204-232 | the paged search ends and answers the event's first message in the log as its last page saw it, while the log grows between pages |
| WakePaging.ReadEvents | crates/cowchat-codex/src/service.rs:234-266 | the paged read ends and returns the first `limit` wake messages above the cursor, as filtering the log at one moment of the call would |
| WakePaging.Collect | crates/cowchat-codex/src/service.rs:252-260 | one page adds its wake messages in order and stops at the limit |
| WakePaging.FirstMatchMeans | crates/cowchat-codex/src/service.rs:638-656 | the simple search: some message of the event with none of it before, or none at all |
| WakeStore.MaxSeq | crates/cowchat-codex/src/store.rs:243-267 | the greatest pending sequence, none exactly when nothing is pending |
| WakeStore.WakeStore.ReserveEvent | crates/cowchat-codex/src/store.rs:87-143 | inserts the event once, reports a repeat with its sequence, refuses different content under the same identity |
| WakeStore.WakeStore.Mark | crates/cowchat-codex/src/store.rs:145-164 | writes sequence and message identity of a reserved event; an unreserved one is an error |
| WakeStore.WakeStore.ClaimWake | crates/cowchat-codex/src/store.rs:166-187 | claims when the sequence is unacknowledged and no live lease is held, and reports whether it did |
| WakeStore.WakeStore.ReleaseWake | crates/cowchat-codex/src/store.rs:189-196 | gives the target's claim up and changes nothing else |
| WakeStore.WakeStore.Record | crates/cowchat-codex/src/store.rs:210-220 | raises the read cursor, never lowers it |
| WakeStore.WakeStore.Ack | crates/cowchat-codex/src/store.rs:222-241 | moves the acknowledged cursor up to at most the read cursor and frees the claim; beyond it is an error that changes nothing |
| WakeStore.WakeStore.DeliveredEvent | crates/cowchat-codex/src/store.rs:269-294 | finds an event of the target with that sequence, if there is one |
| WakeNoLost.InvPreserved | crates/cowchat-codex/src/service.rs:381-394 | every step of every call keeps: each delivered, eligible, unacknowledged event is claimed or owed a claim |
| WakeNoLost.NoLostWake | crates/cowchat-codex/src/service.rs:455-520 | the same over every run of interleaved calls |
| WakeNoLost.SettledMeansClaimed | crates/cowchat-codex/src/service.rs:487-520 | once a target's calls have returned, an eligible pending event is unclaimed exactly when the target's wake was last given up, by a failure or by the interruption of a call that owed it, and not resumed |
| WakeNoLost.NoErrorNoLoss | crates/cowchat-codex/src/service.rs:381-394 | without failures and interruptions nothing eligible is pending without a claim |
| WakeNoLost.ExcusedOnlyByFailure | crates/cowchat-codex/src/service.rs:514-518 | only a failed Codex wake or an interrupted call gives a wake up |
| WakeNoLost.AckHeals | crates/cowchat-codex/src/service.rs:455-480 | an accepted acknowledgement puts its target under the guarantee again |
| WakeNoLost.ExcusedIsGivenUp | crates/cowchat-codex/src/service.rs:487-520 | over every run: which steps give a wake up, and which resume it |
| WakeNoLost.InterruptionLoses | crates/cowchat-codex/src/service.rs:381-394 | from any state, interrupting the last call that owes an unclaimed target its wake leaves its event nobody owes |
| WakeNoLost.CrashBeforeClaimLoses | crates/cowchat-codex/src/service.rs:366-394 | and it happens to the first delivery of any event |
| WakeDedup.StoredSequences | crates/cowchat-codex/src/store.rs:145-164 | a stored sequence is that of a message of the event, and no other event of the target has it |
| WakeDedup.SequencesAreFinal | crates/cowchat-codex/src/store.rs:145-164 | a stored sequence never changes again |
| WakeDedup.DurableDedup | crates/cowchat-codex/src/service.rs:327-375 | over every run of interleaved and interrupted calls, no event has two messages if and only if none was appended while its room held it |
| WakeDedup.OneSenderNeverRepeats | crates/cowchat-codex/src/service.rs:344-375 | while no two calls on one event are about to append at once, none is |
| WakeDedup.SerialHasOneSender | crates/cowchat-codex/src/service.rs:302-375 | calls on one event that follow one another, however they crash after the append, never are |
| WakeDedup.AtMostOneMessage | crates/cowchat-codex/src/service.rs:327-375 | then two messages of one event, in any rooms, are the same message |
| WakeDedup.TwoSendersDuplicate | crates/cowchat-codex/src/service.rs:360-375 | from any state with two calls about to append one event, their appends duplicate it |
| WakeDedup.OverlapAppendsTwice | crates/cowchat-codex/src/service.rs:344-375 | and two overlapping calls get there from the empty bridge |
| WakeLease.OneWakePerLease | crates/cowchat-codex/src/store.rs:166-187 | two wakes of one target with no acknowledgement and no failed wake between them are a lease apart |
| WakeReads.CursorsAlwaysOrdered | crates/cowchat-codex/src/store.rs:210-241 | in every run 0 <= acknowledged <= read, and neither cursor goes back |
| WakeReads.InboxComplete | crates/cowchat-codex/src/service.rs:234-266 | a page has no hole between its cursor and its last event |
| WakeAcked.PrefixReadExactly | crates/cowchat-codex/src/service.rs:410-453 | over every run of interleaved calls, everything up to the read cursors has been returned all along if and only if no recorded read had started beyond an event still unread or beyond the end of its log |
| WakeAcked.AckedWasRead | crates/cowchat-codex/src/service.rs:410-460 | then every acknowledged event was returned by an earlier read |
| WakeAcked.CoveredStartsNeverOutrun | crates/cowchat-codex/src/service.rs:415-417 | and callers can see to it: no cursor, or one that is covered when they call, is enough |
| WakeAcked.ExplicitCursor | crates/cowchat-codex/src/service.rs:415-445 | an uninterleaved read keeps everything up to the read cursor returned exactly when all events up to its cursor had been returned and the cursor is not beyond the end of the log |
| WakeAcked.BrokenPrefixLoses | crates/cowchat-codex/src/store.rs:222-241 | from any state in which not everything up to the read cursor was returned, an event can be acknowledged unread: one that is there or the next to come |
| WakeAcked.UncoveredCursorLoses | crates/cowchat-codex/src/service.rs:443-445 | so every read from a cursor that is not covered has such a continuation |
| WakeAcked.CursorBeyondUnreadLoses | crates/cowchat-codex/src/service.rs:443-445 | for a cursor beyond an unread event, that event |
| WakeAcked.CursorBeyondTipLoses | crates/cowchat-codex/src/service.rs:415-445 | for a cursor beyond the end of the log, the next event, even when all before it was read |
| WakeService.WakeService.Locate | crates/cowchat-codex/src/service.rs:344-375 | finds the event in the room or appends it; only steps of the machine |
| WakeService.WakeService.MaybeWake | crates/cowchat-codex/src/service.rs:487-520 | ends with a claim held, the event acknowledged, or the claim given back after a failure |
| WakeService.WakeService.WakeAgent | crates/cowchat-codex/src/service.rs:302-408 | a run of the machine; refusals change nothing; filtered exactly below the target's policy; triggered means claimed |
| WakeService.WakeService.ReadInbox | crates/cowchat-codex/src/service.rs:410-453 | returns the inbox above the caller's or the acknowledged cursor and records it; refused exactly for unknown targets and negative cursors |
| WakeService.WakeService.AcknowledgeInbox | crates/cowchat-codex/src/service.rs:455-485 | a run of the machine; without a follow-up nothing eligible is left pending |
| WakeReads.ReadAloneRuns | crates/cowchat-codex/src/service.rs:410-453 | a read nobody interleaves with is three steps of the machine |
| BridgeInbound.InvPreserved | crates/cowchat-cli/src/telegram.rs:130-173 | every step, crash and ambiguous save keeps the file, the memory and the room in agreement |
| BridgeInbound.InboundExactlyOnce | crates/cowchat-cli/src/bridge.rs:61-72 | over all runs the bridge's room messages are the accepted updates below the saved cursor, once each and in order, plus at most the saved pending one |
| BridgeInbound.ReplayNeverConflicts | crates/cowchat-server/src/store.rs:868-960 | replaying the pending record never conflicts with what the server holds |
| BridgeInbound.AcceptedAscend | crates/cowchat-cli/src/telegram.rs:65-93 | accepted update ids ascend, so order leaves no repeats |
| BridgeInbound.InboundKeepsText | crates/cowchat-cli/src/bridge.rs:39-59 | what is in the room under an update's identity is that update's sender and text |
| BridgeInbound.AppendFits | crates/cowchat-server/src/store.rs:2271-2303 | the pending record is absent from the room or held there unchanged |
| BridgeOutbound.InvPreserved | crates/cowchat-cli/src/bridge.rs:74-125 | every step keeps the chat at the saved sequence, or one message ahead |
| BridgeOutbound.OutboundNeverSkips | crates/cowchat-cli/src/bridge.rs:74-125 | over all runs the accepted texts, repeats and notices aside, are the eligible messages from the first tip through the saved sequence, in order, or one more |
| BridgeOutbound.PassedMeansTold | crates/cowchat-cli/src/bridge.rs:86-123 | a passed message was told in its own words, or its gap notice was, and then an operator had chosen to skip exactly it |
| BridgeOutbound.TruthAlways | crates/cowchat-cli/src/bridge.rs:88-117 | every whole text in the chat is a room message's, or a gap notice for an unreadable skipped one |
| BridgeProcess.BridgeProcess.Save | crates/cowchat-cli/src/bridge.rs:160-175 | success puts the memory on disk; failure leaves the old file or the new one |
| BridgeProcess.BridgeProcess.FlushPending | crates/cowchat-cli/src/bridge.rs:177-192 | success leaves nothing pending; failure leads to the reload; only steps of the machine |
| BridgeProcess.BridgeProcess.Receive | crates/cowchat-cli/src/bridge.rs:61-72 | flushes, records before sending, and flushes again |
| BridgeProcess.BridgeProcess.ProcessUpdates | crates/cowchat-cli/src/telegram.rs:148-171 | the update loop goes through the whole batch in steps of the machine, or stops for a reload |
| BridgeProcess.BridgeProcess.RelayOne | crates/cowchat-cli/src/bridge.rs:86-122 | one room message relayed and saved before the next |
| BridgeProcess.BridgeProcess.Forward | crates/cowchat-cli/src/bridge.rs:74-125 | the forward loop in steps of the machine |
| BridgeProcess.BridgeProcess.Pump | crates/cowchat-cli/src/telegram.rs:130-173 | one round in both directions, ready for the next or for a reload |
| BridgeProcess.BridgeProcess.Retry | crates/cowchat-cli/src/telegram.rs:272-286 | a retry takes the file, never the memory, and changes nothing else |
| Chunks.Split | crates/cowchat-cli/src/telegram.rs:110-128 | the pieces rebuild the text, none is empty or over 4000 UTF-16 units, and no split within the bound has fewer |
| Chunks.Fewest | crates/cowchat-cli/src/telegram.rs:117-123 | packed pieces are the fewest, even with text still to cover before them |
| MergePatch.Merge | crates/cowchat-server/src/artifact.rs:179-195 | the in-place merge over the patch's keys in any order is the recursive definition of section 2 of RFC 7396 |
| MergePatch.MergeIdempotent | crates/cowchat-server/src/artifact.rs:177-195 | applying a patch twice is applying it once |
| MergePatch.MergeKeepsNullFree | crates/cowchat-server/src/artifact.rs:187-190 | merging never introduces a null object member |
| MergePatch.SomePatchReaches | crates/cowchat-server/src/artifact.rs:177-195 | some patch turns one document into another exactly when every null member of the result was there before |
| MergePatch.DiffMerges | crates/cowchat-server/src/artifact.rs:177-195 | merging the difference of two documents gives the second |
| MergePatch.AnyNullFreeDocument | crates/cowchat-server/src/artifact.rs:177-195 | any document becomes any null-free one by some patch |
| Validation.Visit | crates/cowchat-server/src/artifact.rs:103-170 | the counting visit accepts exactly the values within depth, keys, reserved objects and the item limit, in any member order |
| Validation.VisitMembers | crates/cowchat-server/src/artifact.rs:149-159 | its loop over members, stopping at the first breach |
| Validation.VisitItems | crates/cowchat-server/src/artifact.rs:161-165 | its loop over array items |
| Validation.ValidateData | crates/cowchat-server/src/artifact.rs:97-175 | accepts exactly the objects that keep the rules and the two totals |
| Validation.MergeStaysShapely | crates/cowchat-server/src/artifact.rs:97-195 | a merge of two values within the depth, key and reserved-object rules is within them |
| Validation.MergeStaysPlain | crates/cowchat-server/src/artifact.rs:131-148 | a merge makes no reserved object that was not one before |
| Validation.MergeCount | crates/cowchat-server/src/artifact.rs:103-109 | a merge has at most the items of both, less the shared root |
| Validation.PatchFailsOnlyOnTotals | crates/cowchat-server/src/store/artifact.rs:108-136 | patching a published document can fail revalidation only on its item or byte totals |
| Base64.RoundTrip | crates/cowchat-server/src/chart.rs:66-70 | any bytes decode as encoded, section 4 of RFC 4648 |
| Base64.DecodeIsCanonical | crates/cowchat-server/src/chart.rs:81 | nothing decodes but what encoding produces |
| Base64.EncodedLength | crates/cowchat-server/src/chart.rs:68 | padded length: four characters for every three bytes begun |
| Base64.UnpaddedDrops | examples/python/cowchat.py:93-94 | stripping the padding leaves exactly the unpadded length |
| JsonString.QuotedParses | crates/cowchat-server/src/chart.rs:71-74 | any text reads back from its JSON literal, section 7 of RFC 8259, whatever follows |
| JsonString.EscapeDoubles | crates/cowchat-server/src/chart.rs:48-57 | escaping text without controls other than newlines, returns and tabs at most doubles its bytes |
| JsonString.EscapeQuadruples | crates/cowchat-server/src/chart.rs:58-65 | an escaped title takes at most four bytes a character |
| Chart.ParsePrint | crates/cowchat-server/src/chart.rs:71-80 | any chart record parses back as printed |
| Chart.EncodedFits | crates/cowchat-server/src/chart.rs:76-79 | everything that encodes is within the reader's length cap |
| Chart.RoundTrip | crates/cowchat-server/src/chart.rs:42-85 | every chart that encodes decodes to the same title and image |
| Chart.DecodedReencodes | crates/cowchat-server/src/chart.rs:76-85 | whatever decodes, from anyone and however written, encodes anew and is then read as the same title and image |
| Chart.EncryptedFits | crates/cowchat-server/src/handler.rs:1294-1301 | every encodable chart still fits the server's 640 KiB once encrypted |
| Chart.BlobLength | examples/python/cowchat.py:87-94 | the size of an encrypted blob |
| Tombstones.Tombstones.Prune | crates/cowchat-server/src/reconnect.rs:28-42 | drops what is out of date and then only the oldest, until 4096 remain |
| Tombstones.Tombstones.Insert | crates/cowchat-server/src/broker.rs:52-57 | pruned, added, pruned again |
| Tombstones.RetainedThrough | crates/cowchat-server/src/broker.rs:36-57 | a tombstone stands for its lifetime unless that many later destructions fill the table |
| StashRace.ExposedStep | crates/cowchat-server/src/reconnect.rs:154-189 | every step keeps: a stash naming a destroyed room has a running call that will clear it |
| StashRace.RoomsStayGuarded | crates/cowchat-server/src/reconnect.rs:154-189 | the same over every interleaving |
| StashRace.DestroyedRoomsLeaveStashes | crates/cowchat-server/src/reconnect.rs:306-314 | once the stash and the destruction have returned, no stash names a destroyed room whose tombstone stands |
| StashRace.DestroyedRoomsLeaveFrames | crates/cowchat-server/src/reconnect.rs:267-287 | nor holds its events, as long as no message was relayed too late |
| StashRace.FramesGuardedExactly | crates/cowchat-server/src/reconnect.rs:252-287 | all along a run no buffer holds an event of a destroyed room that no running call will clear, if and only if no message is relayed too late |
| StashRace.LateRelayHappens | crates/cowchat-server/src/reconnect.rs:252-261 | from any quiet state such a relay can happen to any stash with space |
| ReconnectLease.LeasesAreTransparent | crates/cowchat-server/src/reconnect.rs:117-128 | a run with leases leaves the stashes of the run without them |
| ReconnectLease.CommitReturnsTheStash | crates/cowchat-server/src/reconnect.rs:101-114 | a commit hands over the stash as the run without leases has it |
| ReconnectLease.CommitSpends | crates/cowchat-server/src/reconnect.rs:101-128 | a committed or dropped lease never commits again |
| ReconnectLease.OneCommitPerStash | crates/cowchat-server/src/reconnect.rs:101-114 | two commits for an agent have another stash between them |
| ReconnectLease.LaterLeaseVoidsEarlier | crates/cowchat-server/src/reconnect.rs:197-226 | over every run, a second lease on an agent is given out only when the first has lost its stash, and then the first never commits |
| ReconnectLease.BufferIsLossless | crates/cowchat-server/src/reconnect.rs:252-287 | a stash holds exactly the events offered since it was made, in order, less those of destroyed rooms, while 200 suffice |
| ReconnectLease.CommitIsLossless | crates/cowchat-server/src/reconnect.rs:101-114 | and a commit hands over exactly those, whatever arrived during the lease included |
| ReconnectLease.BufferMissesOnlyDropped | crates/cowchat-server/src/reconnect.rs:230-345 | in every run of a stash, the events offered to it and not destroyed are the buffered and the dropped ones merged in order, and one is dropped only when 200 are held |
| ReconnectLease.CommitMissesOnlyDropped | crates/cowchat-server/src/reconnect.rs:230-345 | so a commit hands over all of them exactly when none was dropped |
| ReconnectLease.AtMostTwoHundred | crates/cowchat-server/src/reconnect.rs:252-287 | no stash ever holds more than 200 events |
| ReconnectManager.ReconnectManager.Keep | crates/cowchat-server/src/reconnect.rs:154-189 | filter, insert and filter again leave the stash with exactly the rooms that have no tombstone |
| ReconnectManager.ReconnectManager.BeginReclaim | crates/cowchat-server/src/reconnect.rs:197-226 | every branch: none, elapsed, wrong key, already claimed, leased |
| ReconnectManager.ReconnectManager.Commit | crates/cowchat-server/src/reconnect.rs:101-114 | removes and returns the stash exactly if the lease owns it |
| ReconnectManager.ReconnectManager.Drop | crates/cowchat-server/src/reconnect.rs:117-128 | frees the stash exactly if the lease owns it |
| ReconnectManager.ReconnectManager.BufferMessage | crates/cowchat-server/src/reconnect.rs:252-261 | one agent's buffer, unless the room is destroyed or the buffer full |
| ReconnectManager.ReconnectManager.BufferVisible | crates/cowchat-server/src/reconnect.rs:267-287 | the loop over all stashes pushes to exactly those it returns |
| ReconnectManager.ReconnectManager.ForgetRoom | crates/cowchat-server/src/reconnect.rs:306-314 | tombstones the room, then clears it and its events from every stash |
| ReconnectManager.ReconnectManager.CleanUp | crates/cowchat-server/src/reconnect.rs:137-149 | drops exactly the stashes past the window, and prunes the tombstones |
| VisiblePaths.NeverOnBothPaths | crates/cowchat-server/src/handler.rs:39-65 | however registration, failed writes, disconnects and broadcasts interleave, no visible event is ever both buffered or replayed and sent live; live it is sent once at most, and in all got at most once more than failed writes had let it out |
| VisiblePaths.ExactlyOnceUnlessLeaked | crates/cowchat-server/src/server.rs:1315-1335 | across a reconnect of any number of attempts, each broadcast event has arrived when the agent is back, if its buffer never filled: exactly once if and only if no failed write had let it out, and otherwise once more for each that had |
| VisiblePaths.FailedWriteRepeats | crates/cowchat-server/src/server.rs:1549-1576 | a run in which it arrives twice: the replay gets out, its write fails, the next attempt succeeds |
| Broker.RoomStep | crates/cowchat-server/src/broker.rs:230-310 | each whole operation under the lifecycle lock keeps members distinct and a holder among them exactly while there are members |
| BrokerTurns.BeginSettles | crates/cowchat-server/src/broker.rs:230-262 | under the lock, an operation that changes its tables one after the other takes effect as a whole |
| BrokerTurns.StepKeepsExactly | crates/cowchat-server/src/broker.rs:360-375 | a step breaks a room's turn exactly when an advance writes what is out of date: a non-member, or nobody while there are members, with no lock holder about to correct it |
| BrokerTurns.TurnsHoldExactly | crates/cowchat-server/src/broker.rs:230-375 | over every run, all rooms have distinct members and a holder among them or neither all along, if and only if no advance writes what is out of date |
| BrokerTurns.MembersAlwaysDistinct | crates/cowchat-server/src/broker.rs:248-251 | members stay distinct whatever the advances do |
| BrokerTurns.GoneForGood | crates/cowchat-server/src/broker.rs:381-401 | a destroyed room never has members again, tombstone or not |
| BrokerTurns.DestroyedStaysVacantExactly | crates/cowchat-server/src/broker.rs:360-401 | nor a holder, exactly as long as no advance that read its members before writes after |
| BrokerTurns.DestroyedRoomKeepsHolder | crates/cowchat-server/src/broker.rs:360-375 | from any state a run that leaves a holder in a destroyed room |
| BrokerTurns.LeftMemberHolds | crates/cowchat-server/src/broker.rs:360-375 | a run that leaves the turn with a member who has left |
| BrokerTurns.FirstJoinerLosesTurn | crates/cowchat-server/src/broker.rs:360-366 | a run that leaves a joined room without a holder |
| BrokerTurns.AdvanceAlone | crates/cowchat-server/src/broker.rs:360-375 | an advance that nothing comes between is one step to the next member |
| BrokerTurns.OrderIsStable | crates/cowchat-server/src/broker.rs:247-286 | members who stay keep their order, over every run |
| Broker.NewcomerIsLast | crates/cowchat-server/src/broker.rs:247-250 | who joins goes behind everyone who is there |
| Broker.LeavePassesToTheEldest | crates/cowchat-server/src/broker.rs:289-302 | a leaving holder passes the token to whoever joined first of those left; other leavers do not move it |
| Broker.TokenRotates | crates/cowchat-server/src/broker.rs:360-375 | after k sends by the holders the token is k places further in join order |
| Broker.EveryMemberOnce | crates/cowchat-server/src/broker.rs:352-375 | every n sends each of the n members has held the token exactly once |
| Broker.Broker.JoinRoom | crates/cowchat-server/src/broker.rs:230-262 | refused exactly for tombstoned or missing rooms; otherwise joined once, holder if there was none |
| Broker.Broker.LeaveRoom | crates/cowchat-server/src/broker.rs:266-310 | the member gone, the token with the first one left if it was theirs |
| Broker.Broker.ChooseNext | crates/cowchat-server/src/broker.rs:360-372 | the search of the members and the choice of the next one around |
| Broker.Broker.PassTurn | crates/cowchat-server/src/broker.rs:362-374 | the write of the holder, whatever has happened since |
| Broker.Broker.DestroyRoomWith | crates/cowchat-server/src/broker.rs:381-402 | a failed deletion changes nothing; a successful one tombstones and empties the room |
| Framing.SendFrame | examples/python/cowchat.py:217-231 | the header and the masked payload, byte by byte |
| Framing.SentReadsBack | examples/python/cowchat.py:217-231 | any opcode and payload, in all three length forms and under any mask, read back as section 5.2 of RFC 6455 says |
| Framing.ServerReadsBack | examples/python/cowchat.py:204-215 | any frame a server sends is read as sent |
| Framing.ClientReadsUnmasked | examples/python/cowchat.py:214-215 | for unmasked frames the client reads what section 5.2 of RFC 6455 says |
| Framing.XorUndone | examples/python/cowchat.py:230 | masking twice with one octet is no masking |
| Framing.LengthReadsBack | examples/python/cowchat.py:208-212 | a length reads back from its 7, 16 or 64 bits |
| Transport.TcpTransport.RecvLine | examples/python/cowchat.py:126-133 | the next line of the stream however it is cut into pieces, or an error with nothing lost |
| Transport.LinesReadBack | examples/python/cowchat.py:123-133 | the lines read are the lines sent |
| Transport.WsTransport.RecvExact | examples/python/cowchat.py:195-202 | exactly n bytes from as many pieces as it takes |
| Transport.WsTransport.RecvFrame | examples/python/cowchat.py:204-215 | one frame off the stream, or an error when it ends |
| Transport.WsTransport.RecvLine | examples/python/cowchat.py:236-249 | one message off the stream, each ping on the way answered by a pong a peer reads back |
| Transport.FragmentsReassemble | examples/python/cowchat.py:236-249 | any fragmentation with any pings and pongs between gives back the message, section 5.4 of RFC 6455 |
| Voting.FullMeansAll | crates/cowchat-server/src/voting.rs:179-186 | as many ballots as eligible agents is exactly everybody having voted |
| Voting.Tally | crates/cowchat-server/src/voting.rs:346-361 | the counting loop counts each option's ballots |
| Voting.CountsSum | crates/cowchat-server/src/handler.rs:2072-2090 | the counts add up to the ballots |
| Voting.TallyMatchesStored | crates/cowchat-server/src/store.rs:1330-1350 | a tally is the stored one exactly when every stored ballot for an option there is was counted |
| Voting.CastKeepsProper | crates/cowchat-server/src/voting.rs:158-178 | an accepted ballot keeps ballots distinct, eligible and in range |
| Voting.VoteManager.CreateVote | crates/cowchat-server/src/voting.rs:106-144 | a new open vote without ballots, nothing else changed |
| Voting.VoteManager.CastBallot | crates/cowchat-server/src/voting.rs:147-189 | each refusal in the order of the checks; an accepted ballot is added, and the last one says so |
| Voting.VoteManager.Take | crates/cowchat-server/src/voting.rs:190-194 | one taker gets the vote, later ones nothing |
| Voting.VoteManager.ForgetRoom | crates/cowchat-server/src/voting.rs:337-342 | exactly the room's votes are gone |
| VotingRace.PublishedAtMostOnce | crates/cowchat-server/src/voting.rs:89-104 | over all interleavings one result at most is published, and then the vote is no longer open |
| VotingRace.PublishedIsProper | crates/cowchat-server/src/voting.rs:346-398 | a published result has one recorded ballot each from eligible agents, and its counts add up |
| VotingRace.PublishedTallyMatchesStored | crates/cowchat-server/src/handler.rs:1886-1914 | its tally is the stored one exactly when no cast with a valid option came to record its ballot before the vote opened in memory or after it was taken |
| VotingRace.LostIsNeverCounted | crates/cowchat-server/src/handler.rs:2026-2060 | the ballot of such a cast stays stored and is never in the vote, whatever its agent tries later |
| VotingRace.OpenMissesAVoter | crates/cowchat-server/src/voting.rs:179-194 | a closing cast is under way exactly when ballots are in from every eligible agent; otherwise an open vote has none or misses one |
| VotingRace.EarlyBallotIsStoredOnly | crates/cowchat-server/src/handler.rs:1886-1914 | a run with a cast between the commit of the row and the opening: a stored ballot and an empty published tally |
| VotingRace.LateBallotIsStoredOnly | crates/cowchat-server/src/handler.rs:2026-2060 | a run with a cast that the deadline overtakes, which ends the same way |
| RateLimit.AtMostTwiceTheMaximum | crates/cowchat-server/src/rate_limit.rs:98-119 | over any trace, any interval as short as the window has at most 2 max - 1 accepted calls |
| RateLimit.BoundIsReached | crates/cowchat-server/src/rate_limit.rs:98-119 | some trace reaches that bound |
| MessageRace.SendsBoundedBy | crates/cowchat-server/src/rate_limit.rs:162-190 | with at most k sends between check and count and r usage records replaced, no interval as short as the window has more than 2 (r + 1) (max + k - 1) + k sends |
| MessageRace.ReplacedBoundedBy | crates/cowchat-server/src/rate_limit.rs:162-167 | r is zero or less than the most calls that make a record at once, all from the first use of the key |
| MessageRace.CountsExactly | crates/cowchat-server/src/rate_limit.rs:174-190 | no record counts more than the maximum if and only if no send is counted when the record is full already |
| MessageRace.WithinExactly | crates/cowchat-server/src/rate_limit.rs:162-190 | between two resets no more than the maximum are counted, in whichever record, if and only if besides none is counted that only a replaced record left space for |
| MessageRace.OneRecordNeverSlips | crates/cowchat-server/src/rate_limit.rs:162-167 | which needs a replacement |
| MessageRace.SendsBoundedUnlessLate | crates/cowchat-server/src/rate_limit.rs:162-190 | if no send is counted at a full record, no such interval has more than 2 (r + 1) max + max, however many sends overlap |
| MessageRace.BoundIsReached | crates/cowchat-server/src/handler.rs:1334-1360 | for every k, and every r that fits into a window, a run that reaches the bound |
| SessionRace.TableBoundedBy | crates/cowchat-server/src/rate_limit.rs:146-156 | with at most k calls between their look at the table and their registration it holds at most 4095 + k buckets |
| SessionRace.BoundedExactly | crates/cowchat-server/src/rate_limit.rs:146-156 | it stays within 4096 if and only if no new bucket is registered when it is full already |
| SessionRace.TogetherTheyOverfill | crates/cowchat-server/src/rate_limit.rs:146-156 | any new addresses that look together at a table one short of full all get in |
| SessionRace.BoundIsReached | crates/cowchat-server/src/rate_limit.rs:146-156 | for every k a run from the empty table that reaches 4095 + k |
| SessionRace.RegistrationAlone | crates/cowchat-server/src/rate_limit.rs:146-156 | a call that nothing comes between is one registration |
| RateLimit.AnswersAsUnbounded | crates/cowchat-server/src/rate_limit.rs:146-156 | a call not refused for capacity is answered as an unbounded table answers it |
| RateLimit.RateLimiter.TryRegisterWindow | crates/cowchat-server/src/rate_limit.rs:98-119 | one registration on a bucket |
| RateLimit.RateLimiter.TryRegisterUpload | crates/cowchat-server/src/rate_limit.rs:157-160 | one registration against the upload window |
| RateLimit.RateLimiter.TryRegisterSignup | crates/cowchat-server/src/rate_limit.rs:140-144 | one registration against the signup window |
| RateLimit.RateLimiter.AdmitSession | crates/cowchat-server/src/rate_limit.rs:146-153 | the look at the table: sweep when full, refuse a new bucket while it stays full |
| RateLimit.RateLimiter.HasUsage | crates/cowchat-server/src/rate_limit.rs:163 | the look for the usage record |
| RateLimit.RateLimiter.InsertUsage | crates/cowchat-server/src/rate_limit.rs:164 | the insertion of a new record, over one that is there by now |
| RateLimit.RateLimiter.CheckUsage | crates/cowchat-server/src/rate_limit.rs:175-184 | with a record there: resets an elapsed window and says whether there is space |
| RateLimit.RateLimiter.CountUsage | crates/cowchat-server/src/rate_limit.rs:189 | with a record there: counts one more message |
| RateLimit.RateLimiter.CheckMessageRate | crates/cowchat-server/src/rate_limit.rs:162-185 | look, insertion and check in a row |
| RateLimit.RateLimiter.IncrementMessage | crates/cowchat-server/src/rate_limit.rs:162-190 | look, insertion and count in a row |

## Left out

- Sockets, handshakes, process supervision, terminals and files: I/O. A save is one step that may be ambiguous.
- SQLite and its queries: each call or transaction is one step on maps. Errors of the database itself are not modelled.
- Cryptography: key derivation, authentication tags and signatures. crypto.rs and the client library are not part of this model.
- A wake event that cannot be read back from the room is an interrupted read; its content is not parsed.
- The checks of a first start of the Telegram bridge (binding digest, recent-history key check) and its waits.
- Vote recovery after a restart, leader elections, and the removal of a destroyed room's vote rows.
- The array form in which the chart parser also accepts its three fields, and number formats inside documents: a document's serialized size is a parameter.
- ReconnectManager.ReconnectManager.BeginReclaim: an elapsed entry is released before it is removed; the model takes that as one step, because the agent lifecycle lock is held around it (crates/cowchat-server/src/server.rs:1115-1126) and around the only place that makes a stash (server.rs:1750-1782).
- VisiblePaths: the agent may see the room throughout; who may see a room is a parameter elsewhere, and no room is destroyed meanwhile. The live queue is unbounded. An agent that leaves no rooms behind makes no stash, and what is broadcast while it is away is not kept for it.
- Chart: the uploads limit and the routing of a chart message are not repeated there; the limiter is in RateLimit.
- Broker.Broker.AdvanceTurnFrom: the method runs its two halves without anything in between; BrokerTurns has what comes between.
- RateLimit.RateLimiter.SendMessage: the method runs check and count without anything in between; MessageRace has what comes between. A server without authentication counts without checking, and no bound holds there.
- RateLimit.RateLimiter.CheckMessageRate: the method runs look, insertion and check without anything in between; MessageRace has what comes between.
- RateLimit.RateLimiter.IncrementMessage: the method runs look, insertion and count without anything in between; MessageRace has what comes between.
- RateLimit.RateLimiter.TryRegisterSession: the method runs look and registration without anything in between; SessionRace has what comes between.
- Transport.WsTransport.RecvLine: messages are bytes; decoding them as text is not modelled.
- Agent limits, tiers, webhooks, tasks, social accounts and server-side leases: counters or code outside these files.
