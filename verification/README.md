# Nexnet model

A Dafny model of the parts of Nexnet in which the hard guarantees live, with proofs of those
guarantees over whole runs. `dafny verify dfyconfig.toml` checks everything.

| file | models |
|---|---|
| `Basics.dfy` | options, bytes, maps and the lists they are written as |
| `Symbolic.dfy` | keys, HKDF, AEAD and identities as free terms; Diffie-Hellman commutes |
| `DoubleRatchet.dfy` | the ratchet of `packages/client/src/double-ratchet.ts`, as functions and as the mutable state object |
| `RatchetRuns.dfy`, `RatchetTheorems.dfy` | two ratchets over a network that loses, reorders, replays and forges |
| `WireCodec.dfy` | header, frame, X3DH prefix and stored-session formats |
| `X3dh.dfy` | prekeys, bundles and the two sides of the bootstrap |
| `DeviceStore.dfy` | the encrypted row store: limits, usage, transactions |
| `PersistentClient.dfy`, `QueueManager.dfy` | outbox, inbox, receipts, retention and the retry loop |
| `ClientEffects.dfy` | exactly when each operation of the persistent client takes effect |
| `DirectMessages.dfy` | the staged receive and the commit-before-transmit send, on values |
| `DmHandlers.dfy` | the same handlers as they run: objects changed in place, staged copies, one transaction |
| `DmPipeline.dfy` | one conversation end to end, with crashes anywhere |
| `Network.dfy`, `DmTheorems.dfy` | any number of devices and conversations over shared rows, and what holds of them |
| `Delivery.dfy` | exactly when a message is taken, answered and settled, in every run |
| `RetryRuns.dfy` | the retry loop as a run of that network |
| `Starvation.dfy` | what happens when two initiators were offered one one-time prekey |
| `AgentMailbox.dfy`, `MailboxEffects.dfy` | the request and evidence protocol on top of direct messages |
| `RelaySession.dfy`, `RelayEffects.dfy` | the relay's four tables, the presence view of every client, and all that is sent to it |
| `ChainStub.dfy`, `ChainFile.dfy`, `ChainRuns.dfy`, `ChainEffects.dfy` | the development chain, its state file, which call moves which table, and the gateway's authentication on it |
| `Policy.dfy` | the rate limiter and the duplicate guard, against ones that forget nothing |
| `Gateway.dfy`, `GatewayLimits.dfy`, `GatewayEffects.dfy` | the message store, the post handler and what it lets through, restarts included |
| `Calendar.dfy`, `LineReader.dfy`, `ChannelView.dfy`, `Attachments.dfy` | date arithmetic, capped lines, the bounded view, chunked attachments |

Three kinds of result run through the project. Where the source changes state step by step there is a
class whose methods are proved equal to functions on values; the invariants and the main results are
lemmas about those functions, over every sequence of steps. Beside what never goes wrong stands what does go
right: for each operation that may refuse there is an if-and-only-if that says, on the state before the call and
without naming the operation's parts, when it takes effect and what it leaves behind. Every main result is stated against
something independent of the code: a log of what was sealed, the history of connections, a limiter that
forgets nothing, the calendar, the segments between newlines, a stable sort.

## How cryptography and the outside appear

Keys are terms, HKDF is an injective constructor (section 2 of RFC 5869), Diffie-Hellman commutes
(section 6.1 of RFC 7748), an AEAD opens exactly when key, nonce and associated data match, and hashes are
injective. A signature is its signer and message; where only the verdict matters it is a boolean. Clock
readings, random draws, what the network delivers, which sends succeed and how reads are cut are
parameters, so each result holds for all of them. A crash is a transaction that keeps nothing; everything a
device remembers is in its rows.

## What the code turned out to do

- Header counters and one-time prekey ids are written with `setUint32`, so they are kept modulo 2^32.
  `WireCodec.HeaderRoundTrip`, `WireCodec.PrefixRoundTrip` and `RatchetTheorems.OneKeyPerMessage` state
  exactly when that changes nothing. Agreement needs only the chain of the message itself to be shorter than
  2^32.
- A one-time prekey offered under id 0 is used by one side only (`X3dh.ZeroIdBreaksAgreement`);
  `X3dh.X3dhAgreementIff` gives the exact condition. `createLocalPrekeys` starts at 1.
- A bundle offers the same one-time key to everyone who fetches it. Once another initiator has been received,
  a sender that used the same offer can never be delivered, and its queue retries forever:
  `DmTheorems.NoDeadlockIff` gives the exact condition for progress, `Starvation.StarvedForever` says that losing it
  is permanent, and `Starvation.TwoInitiatorsOneKey` is the run of three honest devices.
- `open` moves its state before it can fail to decrypt (`DmHandlers.FailedOpenMoves`), which is why a receive works on
  a copy.
- The development chain can hold a passkey counter in memory that is ahead of its file:
  `authorizeDeviceCertificateWithPasskey` moves the counter, then throws on a device conflict without
  persisting; `beginPasskeyDeviceCertificateAuthorization` prunes, then throws at the limit.
  `ChainRuns.CounterRunsAhead` is a run of five calls that does it, `ChainRuns.AheadIff` says exactly which calls
  do, and `ChainRuns.DiskBehindOnlyInCounters` that nothing else can differ.
- The sliding window and the duplicate guard forget what their clock has passed, so they answer wrongly when the
  clock goes back far enough. `Policy.WindowRefinesIff` and `Policy.GuardRefinesIff` say exactly when: if and only if
  some hit that had left the window is inside it again later. `Policy.ClockMustNotGoBack` is the shortest such run.
- The limits are per process. After a restart the limiter is empty: `GatewayLimits.RestartsLiftTheLimit` accepts any
  number of posts in one minute, and `GatewayLimits.RateAcrossRestarts` bounds them by the limit times one plus
  the restarts in that minute. Between restarts `Gateway.PostsStayWithinRate` holds.

## Model

| member | source | states |
|---|---|---|
| `DoubleRatchet.SkipToKeepsChain` | packages/client/src/double-ratchet.ts:101-112 | skipping changes only the chain key, its counter and the skipped keys |
| `DoubleRatchet.SkipToClosedForm` | packages/client/src/double-ratchet.ts:101-112 | after any skip the chain key is the start advanced that often, and exactly the keys passed over are kept under their own number |
| `DoubleRatchet.RatchetState.FromValue` | packages/client/src/double-ratchet.ts:26-42 | the state object holds the given ratchet |
| `DoubleRatchet.RatchetState.SkipKeys` | packages/client/src/double-ratchet.ts:101-112 | the loop throws past the 100-key limit without change, else ends in the closed form of skipping |
| `DoubleRatchet.RatchetState.DhStep` | packages/client/src/double-ratchet.ts:114-130 | the in-place Diffie-Hellman ratchet equals the step on values |
| `DoubleRatchet.RatchetState.SealMessage` | packages/client/src/double-ratchet.ts:173-200 | sealing in place gives the blob and state of the value function, including the missing-chain error |
| `DoubleRatchet.RatchetState.OpenMessage` | packages/client/src/double-ratchet.ts:202-248 | opening in place gives the result and state of the value function on every branch, failures included |
| `RatchetRuns.OpenOnEpoch` | packages/client/src/double-ratchet.ts:202-248 | which key `open` tries for a header of any epoch, and that it refuses exactly past the skip limit |
| `RatchetRuns.TriedKeyIsFresh` | packages/client/src/double-ratchet.ts:202-248 | a tried key that is a peer's message key belongs to a message never opened before |
| `RatchetRuns.UnopenedKeyIsTried` | packages/client/src/double-ratchet.ts:202-248 | for a peer's unopened message the key tried is that message's own |
| `RatchetRuns.OpenedIsGenuine` | packages/client/src/double-ratchet.ts:202-248 | whatever an active network delivers, what opens was sealed by the peer for that associated data and is unopened |
| `RatchetRuns.Agreement` | packages/client/src/double-ratchet.ts:173-248 | opening a genuine unopened blob returns its plaintext exactly within the skip limit, and the skip error otherwise |
| `RatchetRuns.SealStepKeeps` | packages/client/src/double-ratchet.ts:133-149 | sealing, with or without starting the reply chain, keeps both peers aligned with the history of epochs |
| `RatchetRuns.DeliverKeeps` | packages/client/src/double-ratchet.ts:202-248 | delivering anything, genuine, replayed or forged, keeps both peers aligned with the history |
| `RatchetRuns.InitKeeps` | packages/client/src/double-ratchet.ts:66-95 | initiator and responder start aligned on one shared root |
| `RatchetRuns.RunKeeps` | packages/client/src/double-ratchet.ts:66-248 | every run of seals and deliveries keeps the invariant |
| `RatchetTheorems.RunAgreement` | packages/client/src/double-ratchet.ts:66-248 | in every run a genuine unopened message opens to what was sealed if and only if its gaps are within 100 keys |
| `RatchetTheorems.RunAuthenticity` | packages/client/src/double-ratchet.ts:202-248 | in every run anything that opens was sealed by the peer, for this associated data, and was unopened |
| `RatchetTheorems.NeverOpensTwice` | packages/client/src/double-ratchet.ts:202-248 | once opened, a blob never opens again, whatever follows |
| `RatchetTheorems.OneKeyPerMessage` | packages/client/src/double-ratchet.ts:151-200 | no key seals two messages; ratchet key and counter repeat exactly for messages of one chain a multiple of 2^32 apart |
| `RatchetTheorems.SomethingOpens` | packages/client/src/double-ratchet.ts:101-130 | while a peer's message is unopened, some message of that peer is within the skip limit now |
| `WireCodec.U32RoundTrip` | packages/client/src/double-ratchet.ts:151-168 | big-endian write and read give the number modulo 2^32 |
| `WireCodec.HeaderRoundTrip` | packages/client/src/double-ratchet.ts:151-168 | decoding an encoded header gives it back if and only if both counters fit 32 bits |
| `WireCodec.HeaderBinding` | packages/client/src/double-ratchet.ts:173-200 | associated data with the header appended determines both |
| `WireCodec.FrameRoundTrip` | packages/client/src/double-ratchet.ts:194-217 | a frame with a nonempty ciphertext decodes to its parts, and an empty one is too short |
| `WireCodec.FrameCanonical` | packages/client/src/double-ratchet.ts:202-217 | bytes are a frame exactly when long enough and of its version, and encode back to themselves |
| `WireCodec.PrefixCanonical` | packages/client/src/dm.ts:220-236 | the same for first messages |
| `WireCodec.PrefixRoundTrip` | packages/client/src/dm.ts:211-236 | the X3DH prefix survives if and only if the rest has two bytes and the prekey id is absent or a nonzero 32-bit number |
| `WireCodec.VersionsDoNotMix` | packages/client/src/dm.ts:220-236 | no reply decodes as a first message and no first message as a reply |
| `WireCodec.SerializeState` | packages/client/src/double-ratchet.ts:293-309 | writes every field, and exactly the skipped keys |
| `WireCodec.StateRoundTrip` | packages/client/src/double-ratchet.ts:293-327 | deserialising a serialised session gives the same session, in any order of its skipped keys |
| `WireCodec.PrefixCarriesId` | packages/client/src/dm.ts:211-236 | for any prekey id, what the bytes of the prefix decode to, and when they decode at all |
| `WireCodec.X3dhOverTheWire` | packages/client/src/x3dh.ts:86-167 | through the encoded prefix both sides derive one root and the offered key is spent; a key spent meanwhile is refused |
| `X3dh.CreateLocalPrekeys` | packages/client/src/x3dh.ts:64-83 | ids run from 1 to the count, each naming its own key, and the prekey is signed |
| `X3dh.PrekeyMaterial.RespondTo` | packages/client/src/x3dh.ts:145-167 | the root of the value function; the one-time key used is deleted in place, and an unknown one changes nothing |
| `X3dh.InitiatesIff` | packages/client/src/x3dh.ts:111-139 | for every bundle a session is initiated if and only if the signature is by the identity the bundle names and over its prekey |
| `X3dh.X3dhAgreement` | packages/client/src/x3dh.ts:86-167 | for a nonzero 32-bit id both sides derive one root and the offered key is spent; a key spent meanwhile is refused |
| `X3dh.X3dhAgreementIff` | packages/client/src/x3dh.ts:111-167 | for any offered id, both sides agree exactly when the id left by the wire is nonzero and names the offered key |
| `X3dh.ZeroIdBreaksAgreement` | packages/client/src/dm.ts:211-236 | a key offered under id 0 gives the two sides different roots |
| `DeviceStore.BytesAfterWrite` | packages/storage/src/device-store.ts:79-97 | the incremental byte count of a write equals the sum recomputed over all rows |
| `DeviceStore.PutIff` | packages/storage/src/device-store.ts:79-97 | a row is written if and only if neither record count nor byte sum, recomputed over all rows, grows past its limit |
| `DeviceStore.PutWithin` | packages/storage/src/device-store.ts:79-97 | an accepted write keeps bytes and records at or below the larger of limit and starting value |
| `DeviceStore.CapacityHolds` | packages/storage/src/device-store.ts:79-129 | so does every sequence of transactions, committed or rolled back |
| `DeviceStore.CapacityFromSetLimits` | packages/storage/src/device-store.ts:100-117 | starting from what is stored when limits are set |
| `DeviceStore.Store.SetLimits` | packages/storage/src/device-store.ts:100-109 | limits below one are refused and change nothing |
| `DeviceStore.Store.Usage` | packages/storage/src/device-store.ts:111-117 | the loop computes the byte sum and the row count |
| `DeviceStore.Store.PutRow` | packages/storage/src/device-store.ts:79-97 | a row is written exactly when it fits, otherwise nothing changes |
| `DeviceStore.Store.Transaction` | packages/storage/src/device-store.ts:127-129 | all writes are kept, or none |
| `PersistentClient.PersistentDmState.ConfigureLimits` | packages/client/src/persistent-client.ts:65-70 | accepted exactly when every limit is at least one |
| `PersistentClient.PersistentDmState.RetainRows` | packages/client/src/persistent-client.ts:73-105 | visiting rows one by one equals compacting them all at once, and no write of it can be refused |
| `PersistentClient.PersistentDmState.EnqueueItem` | packages/client/src/persistent-client.ts:138-148 | refuses repeats and full outboxes, else stores the item |
| `PersistentClient.PersistentDmState.CommitSendTx` | packages/client/src/persistent-client.ts:223-234 | ratchet, item and metadata together, or the rows as before |
| `PersistentClient.PersistentDmState.CommitReceiveTx` | packages/client/src/persistent-client.ts:199-221 | session, prekeys and inbox entry together, or the rows as before |
| `PersistentClient.PersistentDmState.MarkDeliveredTx` | packages/client/src/persistent-client.ts:178-189 | only a matching receipt marks an item, together with the stored proof |
| `PersistentClient.CountCapsHold` | packages/client/src/persistent-client.ts:138-221 | over all operations pending, pending per peer, live inbox and live per peer stay at or below the larger of limit and starting count |
| `PersistentClient.CountCaps` | packages/client/src/persistent-client.ts:138-221 | the same from the moment limits are set |
| `PersistentClient.BudgetCapsHold` | packages/client/src/persistent-client.ts:73-234 | bytes and records stay capped over the client's own operations, retention included |
| `ClientEffects.ReceiveCommitsIff` | packages/client/src/persistent-client.ts:199-221 | a new message is stored with session and spent key exactly when the inbox is below its limits and each row finds room |
| `ClientEffects.SendCommitsIff` | packages/client/src/persistent-client.ts:223-234 | a send commits exactly when its id is unused, the outbox is below its limits, each row finds room and the callback returns |
| `ClientEffects.PreparesIff` | packages/client/src/dm.ts:289-315 | something is sealed exactly on a session with a chain to send on, or without a session on a genuine bundle |
| `ClientEffects.SendsIff` | packages/client/src/dm.ts:289-366 | an envelope is returned, and queued as sealed, exactly when it can be sealed and committed; a bundle signed by anybody else sends nothing |
| `ClientEffects.DeliveredIff` | packages/client/src/persistent-client.ts:178-189 | a receipt ends the retries of its item and of no other exactly when it matches and the proof finds room |
| `ClientEffects.BackoffDoubles` | packages/client/src/persistent-client.ts:165-176 | the wait is thirty seconds doubled per attempt, at most half an hour |
| `ClientEffects.AttemptCountsIff` | packages/client/src/persistent-client.ts:165-176 | a pending item is counted exactly when its new row finds room, and stays pending |
| `ClientEffects.RetentionExact` | packages/client/src/persistent-client.ts:73-105 | exactly disposable messages and proven items of the retention age are emptied; younger ones keep their bodies |
| `QueueManager.QueueManager.MarkAttemptOf` | packages/client/src/persistent-client.ts:165-176 | only attempt count and next time change; a row that no longer fits changes nothing |
| `QueueManager.QueueManager.Attempt` | packages/client/src/queue-manager.ts:93-100 | the stored envelope goes out first and is counted after |
| `QueueManager.QueueManager.ProcessQueue` | packages/client/src/queue-manager.ts:87-101 | what goes out is, one for one, the stored envelopes of distinct due items of reachable peers, all of them unless the pass stops; each is counted as the value function counts it, no item is dropped, no state changes, and a pass that stops does so right after a send whose counting was refused |
| `DirectMessages.CommitSendChange` | packages/client/src/persistent-client.ts:223-234 | what a committed send changes outside metadata: the session and one new queue item |
| `DirectMessages.RetainKeepsKeys` | packages/client/src/persistent-client.ts:73-105 | retention loses no row and touches no session, prekey or metadata |
| `DirectMessages.StoredRows` | packages/client/src/dm.ts:121-186 | a stored receive changes the session, the prekeys if one was spent, and one new inbox row |
| `DirectMessages.OneTimeKeysSpentOnce` | packages/client/src/dm.ts:130-160 | over every run, whoever sends what, a one-time prekey backs at most one installed session |
| `DmHandlers.CopySession` | packages/client/src/dm.ts:127 | a copy through the stored form is another object with the same session |
| `DmHandlers.FailedOpenMoves` | packages/client/src/double-ratchet.ts:202-248 | an `open` that fails to decrypt has already advanced the receiving chain |
| `DmHandlers.StageEnvelope` | packages/client/src/dm.ts:121-149 | the staged session is new, the staged prekeys are a copy, and both are what the value function says |
| `DmHandlers.HandleDirectMessage` | packages/client/src/dm.ts:103-186 | on every branch, throwing ones included, the rows are those of the value function; a receive that stores nothing leaves every session, the prekeys and the metadata untouched |
| `DmHandlers.PrepareMessage` | packages/client/src/dm.ts:289-315 | the sealed envelope and advanced session of the value function, with nothing stored |
| `DmHandlers.SendDirectMessage` | packages/client/src/dm.ts:289-366 | an envelope is returned only if the rows hold it, its session and its metadata; otherwise the rows are unchanged |
| `DmHandlers.LiveClient.StageLive` | packages/client/src/dm.ts:121-149 | staging on live objects changes none of them |
| `DmHandlers.MemoryAsStored` | packages/client/src/dm.ts:121-163 | with live objects and with rows the same messages open, to the same payload, sessions and keys |
| `DmHandlers.LiveClient.Receive` | packages/client/src/dm.ts:121-163 | with sessions kept as live objects, a failed receive changes none of them nor the prekeys; a successful one installs the staged session and spends the key |
| `DmPipeline.SendKeeps` | packages/client/src/dm.ts:245-366 | a send, refused or committed, keeps sessions, rows and history in step |
| `DmPipeline.ReceiveKeeps` | packages/client/src/dm.ts:103-186 | so does handling any envelope that is on the wire, any number of times |
| `DmPipeline.StagedIsHistory` | packages/client/src/dm.ts:121-149 | what is staged for an envelope is the recipient's side of the history, and staging succeeds exactly with a session or with a first message whose key is unspent |
| `DmPipeline.ReceiptBooks` | packages/client/src/queue-manager.ts:40-61 | acting on a receipt marks delivered only what is in the inbox |
| `DmPipeline.TransmitBooks` | packages/client/src/queue-manager.ts:87-101 | an attempt, counted or cut short by a crash, puts only stored envelopes on the wire |
| `DmPipeline.RetainKeeps` | packages/client/src/persistent-client.ts:73-105 | retention at any time keeps sessions, rows and history in step |
| `DmPipeline.StepKeeps` | packages/client/src/dm.ts:103-366 | every step of a conversation keeps its invariant, whatever else its devices are doing |
| `Network.StepLocal` | packages/client/src/persistent-client.ts:199-234 | what a step of one conversation does to a device: other sessions stay, one-time keys are only spent, other messages change at most as retention changes them |
| `Network.QuietKeeps` | packages/client/src/persistent-client.ts:199-234 | such changes keep the invariant of every other conversation of the device |
| `Network.RunKeeps` | packages/client/src/dm.ts:103-366 | every run of any number of devices keeps the invariant of every conversation, and every outbox and inbox row belongs to a message of some conversation of its device |
| `Network.StepKeys` | packages/client/src/dm.ts:291-315 | a conversation uses only ratchet keys it had or has just drawn, and keeps its root |
| `Network.RunKeys` | packages/client/src/x3dh.ts:111-139 | in every run two conversations share no root and no ratchet key |
| `DmTheorems.ExactlyOnce` | packages/client/src/dm.ts:103-186 | in every run of any number of devices nothing enters an inbox twice, no id belongs to two conversations, what is marked delivered is in the inbox, and what is not still holds its envelope |
| `DmTheorems.NoKeyTwiceOnTheWire` | packages/client/src/dm.ts:291-383 | no two envelopes that left any devices share a message key, nor a ratchet key and counter except past 2^32 messages of one chain |
| `DmTheorems.SendAllOrNothing` | packages/client/src/dm.ts:291-383 | ratchet advance, queue item and metadata are stored together or not at all: each tag written holds its last value and no other tag changed |
| `DmTheorems.DeliverableIff` | packages/client/src/dm.ts:121-159 | a message not yet delivered decrypts exactly when it is within the skip limit of the installed session or, without one, is a first message whose one-time key is unspent |
| `DmTheorems.NoDeadlockIff` | packages/client/src/queue-manager.ts:87-101 | while a message is missing, some queued message of the same sender would decrypt now if and only if there is a session or the key the sender was offered is unspent |
| `Delivery.HandlerTakesIff` | packages/client/src/dm.ts:103-186 | in every run a message not yet in the inbox is there after the handler, with the payload sent, if and only if it is welcome, the inbox is below its limits and its rows find room; otherwise retention is all that changed |
| `Delivery.CanPrepareIff` | packages/client/src/dm.ts:289-315 | in every run the opener of a conversation can always seal, and the other side exactly once it has a session |
| `Delivery.RoundSettlesIff` | packages/client/src/queue-manager.ts:40-101 | from every reachable state, transmission, handling and receipt bring a message into the inbox exactly when it is taken, and end its retries exactly when the proof also finds room |
| `RetryRuns.DueAfterWait` | packages/client/src/queue-manager.ts:87-101 | a tried item is due on the timer exactly after its wait, and at once when its peer comes online |
| `RetryRuns.RowsHaveOwners` | packages/client/src/persistent-client.ts:199-234 | in every run each outbox row of each device belongs to exactly one message of one conversation, sent by that device, and each inbox row to one sent to it |
| `RetryRuns.PendingHoldsEnvelope` | packages/client/src/queue-manager.ts:87-101 | in every run every pending row of every device holds its envelope, so the retry pass applies to all of them |
| `RetryRuns.PassIsRun` | packages/client/src/queue-manager.ts:87-101 | a retry pass at any device of any reachable network is a run of counted transmissions, the last one uncounted if it stops: same rows, each envelope on the wire of its own conversation, nothing else changed |
| `Starvation.StarvedForever` | packages/client/src/dm.ts:130-160 | once that condition is lost, no message of the initiator is ever delivered and all stay queued, in every continuation |
| `Starvation.TwoInitiatorsOneKey` | packages/client/src/x3dh.ts:86-101 | three honest devices, two of them offered the same key: a run after which the second initiator is starved |
| `AgentMailbox.Mailbox.Sync` | packages/client/src/agent-mailbox.ts:54-100 | the loop observes each inbox entry once, rejections recorded |
| `AgentMailbox.Mailbox.SyncLetter` | packages/client/src/agent-mailbox.ts:54-116 | one entry: skipped, applied or rejected, and then marked seen |
| `AgentMailbox.Mailbox.SubmitRequest` | packages/client/src/agent-mailbox.ts:139-158 | a new request is recorded and sent once; a repeat sends nothing; a different request under the id conflicts |
| `AgentMailbox.Mailbox.AdmitRequest` | packages/client/src/agent-mailbox.ts:166-202 | admits only if both clock readings are before the deadline, else reports expiry |
| `AgentMailbox.Mailbox.RespondWith` | packages/client/src/agent-mailbox.ts:204-225 | an outcome only follows admission, a failed admission only precedes it, and a repeat sends nothing |
| `AgentMailbox.SyncKeepsRequests` | packages/client/src/agent-mailbox.ts:54-100 | replay never drops an outgoing record or changes its request |
| `AgentMailbox.EvidenceApplies` | packages/client/src/agent-mailbox.ts:102-116 | evidence an honest responder stands by never conflicts with what the requester holds, and gives the responder's state |
| `AgentMailbox.RunKeeps` | packages/client/src/agent-mailbox.ts:54-225 | every run of two honest mailboxes keeps both ends of every request consistent |
| `AgentMailbox.Convergence` | packages/client/src/agent-mailbox.ts:54-116 | no rejection is ever recorded, a terminal state at the requester is the responder's, and once all evidence is seen both agree |
| `AgentMailbox.AdmittedOnceInTime` | packages/client/src/agent-mailbox.ts:166-202 | at most one new admission per request, committed strictly before the requester's deadline |
| `MailboxEffects.AdmitsIff` | packages/client/src/agent-mailbox.ts:166-202 | in every run an undecided request is admitted, with one acceptance mailed and the admission on record, if and only if both clock readings are before the requester's deadline; otherwise exactly the expiry is mailed and held |
| `MailboxEffects.RespondsIff` | packages/client/src/agent-mailbox.ts:204-225 | in every run a report is mailed and recorded exactly when it refuses what is undecided or concludes what was admitted |
| `MailboxEffects.SubmitsIff` | packages/client/src/agent-mailbox.ts:139-158 | in every run a submission is recorded and mailed exactly when its correlation is new |
| `MailboxEffects.ObservesIff` | packages/client/src/agent-mailbox.ts:54-116 | in every run each letter of the peer has exactly its effect on the box, once |
| `MailboxEffects.SyncExact` | packages/client/src/agent-mailbox.ts:54-116 | any letter from anybody is ignored, rejected for exactly its fault and nothing else, or observed |
| `MailboxEffects.NothingRewritten` | packages/client/src/agent-mailbox.ts:54-116 | whatever a peer sends, requests and decisions on record and reported outcomes never change, and every letter of an allowed peer is taken note of |
| `MailboxEffects.RequestCompletes` | packages/client/src/agent-mailbox.ts:54-225 | after any run a new request admitted in time can be taken to any outcome, with both sides holding it |
| `RelaySession.Session.HandleUpgrade` | workers/relay/src/index.ts:153-179 | a new socket waits on its claim and nothing else changes |
| `RelaySession.Session.WebSocketMessage` | workers/relay/src/index.ts:181-231 | the dispatcher equals the step on tables and keeps them exact |
| `RelaySession.Session.HandleAuth` | workers/relay/src/index.ts:243-286 | rejection, or replacement followed by joining, with snapshot and announcements |
| `RelaySession.Session.NotifyPresence` | workers/relay/src/index.ts:288-292 | every connected socket is sent the update once, nobody else anything |
| `RelaySession.Session.RejectAuth` | workers/relay/src/index.ts:294-302 | the claim is dropped and the error sent |
| `RelaySession.Session.DropSocket` | workers/relay/src/index.ts:304-313 | only the socket that still holds an identity removes its connection |
| `RelaySession.Session.SubscribeRoom` | workers/relay/src/index.ts:350-362 | identity and room list each other |
| `RelaySession.Session.UnsubscribeRoom` | workers/relay/src/index.ts:364-377 | neither lists the other, and an empty room disappears |
| `RelaySession.Session.BroadcastRoomEvent` | workers/relay/src/index.ts:379-390 | every other connected subscriber is sent the event once |
| `RelaySession.Session.RemoveConnection` | workers/relay/src/index.ts:394-411 | the loop leaves every room and tells those who remain |
| `RelaySession.MessageKeeps` | workers/relay/src/index.ts:181-286 | any message on any socket keeps the four tables exact and every presence view right |
| `RelaySession.DropKeeps` | workers/relay/src/index.ts:304-313 | so does any close |
| `RelaySession.TablesStayExact` | workers/relay/src/index.ts:153-411 | in every run socketIdentity and connections are inverse, rooms are exact and never empty, and each client's replay is the set of connected identities |
| `RelaySession.HistoryTells` | workers/relay/src/index.ts:153-411 | the tables are what the history says: standing claims, the latest authenticated socket of each identity, and rooms asked for since |
| `RelaySession.PublishReaches` | workers/relay/src/index.ts:379-390 | an event reaches, once each, exactly the other identities whose connection last asked for the room |
| `RelaySession.DirectReaches` | workers/relay/src/index.ts:317-346 | a direct message reaches exactly the socket holding the recipient's identity and names the identity its sender authenticated as |
| `RelayEffects.ConnectTells` | workers/relay/src/index.ts:153-179 | a new socket is sent the challenge and nobody else anything |
| `RelayEffects.RefusalTells` | workers/relay/src/index.ts:181-302 | a late, failed or missing authentication is answered with exactly its error, to that socket alone |
| `RelayEffects.AuthTells` | workers/relay/src/index.ts:243-292 | what every socket is sent when an identity authenticates, replaced holder and newcomer included |
| `RelayEffects.CloseTells` | workers/relay/src/index.ts:304-411 | a closing holder takes its identity offline for everybody else, and a socket that holds nothing is not noticed |
| `RelayEffects.ServedTells` | workers/relay/src/index.ts:181-231 | on a connected socket, what is not understood gets an error and joining or leaving a room is silent |
| `ChainFile.DevChain.RegisterUsernameFor` | packages/client/src/chain-stub.ts:170-229 | the rules in order; a refused call changes neither memory nor file, a successful one persists |
| `ChainFile.DevChain.ReleaseInactive` | packages/client/src/chain-stub.ts:196-214 | a name is freed exactly when its owner has been inactive for ninety days |
| `ChainFile.DevChain.PrunePending` | packages/client/src/chain-stub.ts:565-573 | expired challenges go, and the count is of those left for the identity |
| `ChainFile.DevChain.BeginPasskeyFor` | packages/client/src/chain-stub.ts:332-362 | at the limit it throws with memory pruned and the file untouched |
| `ChainFile.DevChain.CommitPasskeyFor` | packages/client/src/chain-stub.ts:399-409 | on a conflict it throws with the counter moved in memory and the file untouched |
| `ChainFile.DevChain.RevokeCredential` | packages/client/src/chain-stub.ts:520-547 | only the root, only with a larger sequence at most a day ahead |
| `ChainFile.DevChain.Persist` | packages/client/src/chain-stub.ts:677-722 | writes a file that lists exactly the tables, without the wallet index |
| `ChainFile.DevChain.Restore` | packages/client/src/chain-stub.ts:620-675 | rebuilds every table, the wallet index and, if absent, the roots |
| `ChainFile.DevChain.RebuildRoots` | packages/client/src/chain-stub.ts:659-665 | the nested loop takes the last owner of each identity in the history |
| `ChainFile.WalletsRoundTrip` | packages/client/src/chain-stub.ts:672-674 | rebuilding the wallet index from the usernames gives back the index in memory |
| `ChainFile.RootsRoundTrip` | packages/client/src/chain-stub.ts:630-665 | the root fallback changes nothing |
| `ChainFile.RestorePersist` | packages/client/src/chain-stub.ts:620-722 | restoring any file persist may write gives back the chain |
| `ChainStub.RegisterUsernameKeeps` | packages/client/src/chain-stub.ts:170-229 | registration, by release or not, keeps the indexes inverse and bound roots fixed |
| `ChainStub.RegisterIdentityKeeps` | packages/client/src/chain-stub.ts:411-432 | binding an identity keeps every invariant and no bound root changes |
| `ChainStub.BeginPasskeyKeeps` | packages/client/src/chain-stub.ts:332-362 | at most sixteen challenges wait per identity, refused call or not |
| `ChainStub.CommitPasskeyKeeps` | packages/client/src/chain-stub.ts:399-409 | an authorisation rests on a registered passkey of its account |
| `ChainStub.RegisterSshKeyKeeps` | packages/client/src/chain-stub.ts:447-487 | at most eight live SSH keys per identity |
| `ChainStub.RevokeKeeps` | packages/client/src/chain-stub.ts:520-547 | revocations and their sequence only grow |
| `ChainRuns.RegisterCertificateKeeps` | packages/client/src/chain-stub.ts:248-281 | a root authorisation carries the bound root's signature |
| `ChainRuns.CommitSshKeeps` | packages/client/src/chain-stub.ts:496-518 | an SSH authorisation rests on a registered key of its account |
| `ChainRuns.RestartForm` | packages/client/src/chain-stub.ts:620-675 | a restart brings back exactly what was last persisted |
| `ChainRuns.RunKeeps` | packages/client/src/chain-stub.ts:146-547 | every run, restarts and interleaved awaits included, keeps the invariants and only grows roots, keys, revocations and history |
| `ChainRuns.IndexesInverse` | packages/client/src/chain-stub.ts:170-229 | in every reachable state the username indexes are inverse and each name is held by the last owner in its history |
| `ChainRuns.RootNeverChanges` | packages/client/src/chain-stub.ts:411-432 | a bound root is the same after any run |
| `ChainRuns.RestoreIsIdentity` | packages/client/src/chain-stub.ts:620-722 | in every reachable state restoring what persist writes changes nothing |
| `ChainRuns.ResolvesIff` | packages/client/src/chain-stub.ts:283-289 | a certificate resolves if and only if it is in its window, its device unrevoked, and the root's signature or an unrevoked registered key stands behind it |
| `ChainRuns.NothingThroughRevoked` | packages/gateway/src/gateway.ts:603-620 | once a credential is revoked it stays revoked, and no later gateway authentication succeeds through a certificate that rests on it |
| `ChainRuns.DiskBehindOnlyInCounters` | packages/client/src/chain-stub.ts:364-409 | memory and file differ at most in passkey counters and waiting challenges |
| `ChainRuns.AheadIff` | packages/client/src/chain-stub.ts:332-409 | from agreement, a call leaves memory and file different exactly for a pruning refusal at the limit or a conflict after a moved counter |
| `ChainRuns.CounterRunsAhead` | packages/client/src/chain-stub.ts:399-409 | five calls that leave counter 5 in memory and 0 in the file |
| `ChainEffects.RevocationsMoveIff` | packages/client/src/chain-stub.ts:520-547 | in every reachable state a revocation is recorded, and the call returns, exactly by the root, valid, with a sequence above the last and at most a day ahead; nothing else moves revocations |
| `ChainEffects.RevocationTakesEffect` | packages/client/src/chain-stub.ts:520-547 | after such a call the credential, and no other, has become revoked, and no later authentication succeeds through a certificate resting on it |
| `ChainEffects.NamesMoveIff` | packages/client/src/chain-stub.ts:170-229 | names, history and roots move exactly by registrations of a seven-day-old account without a name for a name free or ninety days unused, and roots by binding an identity |
| `ChainEffects.AccountsMoveIff` | packages/client/src/chain-stub.ts:146-168 | when accounts start and what counts as activity |
| `ChainEffects.OwnerKeepsName` | packages/client/src/chain-stub.ts:194-214 | through every run an owner keeps its name unless somebody asks for it after ninety days of silence |
| `ChainEffects.AuthorizationsMoveIff` | packages/client/src/chain-stub.ts:248-518 | a certificate is recorded exactly when the root signed it or a checked credential is committed, unopposed and for a device not revoked where that is asked |
| `ChainEffects.FlightsMoveIff` | packages/client/src/chain-stub.ts:364-507 | a credential check passes exactly for a current certificate, an unrevoked registered key and, for passkeys, a standing challenge |
| `ChainEffects.ChallengesMoveIff` | packages/client/src/chain-stub.ts:332-409 | challenges are given, dropped and used up exactly so, at most sixteen waiting |
| `ChainEffects.KeysMoveIff` | packages/client/src/chain-stub.ts:291-487 | keys are added exactly by the root, new, complete and at most eight live SSH keys; none is taken away |
| `ChainEffects.AuthenticatesIff` | packages/gateway/src/gateway.ts:603-620 | a request is authenticated if and only if its session is known and unexpired and the device's certificate is in force; otherwise the session ends |
| `ChainEffects.CertificateStands` | packages/client/src/chain-stub.ts:283-289 | through every run that neither revokes what it rests on nor authorises its device anew, a certificate in force keeps authenticating |
| `Policy.SlidingWindow.AllowHit` | packages/gateway/src/policy.ts:38-61 | filter, decide, record and prune equal the function on tables |
| `Policy.SlidingWindow.Prune` | packages/gateway/src/policy.ts:54-58 | exactly the keys with nothing recent are dropped |
| `Policy.RecentLater` | packages/gateway/src/policy.ts:46-47 | filtering early loses nothing a later window needs |
| `Policy.RunWindow` | packages/gateway/src/policy.ts:38-61 | the object, called in a loop, goes through the tables and answers of a run |
| `Policy.WindowRefines` | packages/gateway/src/policy.ts:38-61 | while no hit that left the window comes back, the answers are those of a limiter that keeps every hit |
| `Policy.ReturnShows` | packages/gateway/src/policy.ts:46-47 | where one comes back, a limit of two and a second key for the other calls give different answers |
| `Policy.WindowRefinesIff` | packages/gateway/src/policy.ts:38-61 | for given call times, forgetting changes no answer for any keys and limit if and only if no hit that left the window comes back |
| `Policy.NeverMoreThanLimit` | packages/gateway/src/policy.ts:38-61 | while no hit comes back, no window, wherever it ends, holds more granted hits of a key than the limit |
| `Policy.ClockMustNotGoBack` | packages/gateway/src/policy.ts:46-47 | three calls with a clock that goes back, answered differently |
| `Policy.DuplicateGuard.AllowBody` | packages/gateway/src/policy.ts:63-82 | the counting loop equals the function on tables |
| `Policy.GuardRefines` | packages/gateway/src/policy.ts:63-82 | while no posting comes back, the guard answers as a limiter of threshold minus one per poster and body that forgets nothing |
| `Policy.GuardRefinesIff` | packages/gateway/src/policy.ts:63-82 | for given times, forgetting changes no answer for any posters, bodies and threshold if and only if no posting that left the window comes back |
| `Policy.FewEqualBodies` | packages/gateway/src/policy.ts:63-82 | while no posting comes back, at most threshold minus one equal bodies of a poster in any window |
| `Gateway.Store.Holds` | packages/gateway/src/store.ts:70-72 | whether a stored message has the id |
| `Gateway.Store.LastMessageAt` | packages/gateway/src/store.ts:117-122 | the latest reception time in the channel, none exactly for an empty channel |
| `Gateway.Store.InsertMessage` | packages/gateway/src/store.ts:74-103 | row and device sequence together; duplicates and stale sequences change nothing |
| `Gateway.Store.PurgeChannel` | packages/gateway/src/store.ts:124-126 | exactly the channel's rows go, sequences stay |
| `Gateway.Store.ExpireChannel` | packages/gateway/src/gateway.ts:650-656 | purges only a channel that does not retain, and only after its retention time |
| `Gateway.PostFacts` | packages/gateway/src/gateway.ts:674-738 | an accepted post has a verified id and a larger sequence, which becomes the device's; a refused one moves no sequence |
| `Gateway.NeverAcceptedTwice` | packages/gateway/src/gateway.ts:674-738 | in the life of a gateway, through purges and restarts, no event is accepted twice and device sequences strictly increase |
| `Gateway.PostsStayWithinRate` | packages/gateway/src/gateway.ts:715-720 | since the last restart no minute holds more accepted posts of an identity to a channel than its limit |
| `GatewayEffects.AcceptsIff` | packages/gateway/src/gateway.ts:674-738 | in every run a post is accepted and stored under its own fields if and only if author, version, id, signature, time, channel, body and owner are right, its sequence is above all its device had accepted, and limit and repeats leave room in the minute before |
| `GatewayEffects.AllowedMoves` | packages/gateway/src/gateway.ts:715-725 | what counts against the next post: every proper post in sequence the limiter had room for, and the accepted ones for repeats |
| `GatewayEffects.EveryAcceptedEarned` | packages/gateway/src/gateway.ts:674-738 | every event ever accepted, through purges and restarts, met all of it when it was posted |
| `GatewayEffects.ExpiresIff` | packages/gateway/src/gateway.ts:650-656 | a stored message goes exactly when its channel is public and no message of it was received within the retention time |
| `GatewayLimits.RepeatsStayFew` | packages/gateway/src/gateway.ts:715-725 | since the last restart no minute holds more than two accepted posts of an identity with the same body in a channel |
| `GatewayLimits.RateAcrossRestarts` | packages/gateway/src/gateway.ts:116-131 | over the whole life no minute holds more accepted posts of an identity to a channel than the limit times one plus the restarts in that minute |
| `GatewayLimits.RestartsLiftTheLimit` | packages/gateway/src/gateway.ts:116-131 | for every number there is a run with restarts in which one minute holds that many accepted posts of one identity |
| `Calendar.DayNumberCounts` | terminal/src/text.rs:110-129 | the reference: day numbers start at 1 January 1970 and the next calendar date has the next number |
| `Calendar.YearHoldsDay` | terminal/src/text.rs:114-119 | the corrected quotient finds the year of the era that holds the day |
| `Calendar.MonthDayRight` | terminal/src/text.rs:120-123 | month and day are valid and have the right number |
| `Calendar.CivilRight` | terminal/src/text.rs:114-123 | for every day number, before or after 1970, the date is valid and has that number |
| `Calendar.CivilInverse` | terminal/src/text.rs:114-123 | every valid date comes back from its number, and one more day is the next calendar date |
| `Calendar.DatetimeRight` | terminal/src/text.rs:110-129 | for every millisecond the date and time are the minute that holds it, and a day later it is the next date at the same time |
| `LineReader.Reader.FillBuf` | terminal/src/link.rs:269-273 | the buffer is a prefix of what is left, empty only at the end |
| `LineReader.ReadCappedLine` | terminal/src/link.rs:260-306 | however the stream is cut, one call reads exactly one line of it |
| `LineReader.SegmentsJoin` | terminal/src/link.rs:260-306 | the reference: segments hold no newline and join back to the stream |
| `LineReader.ItemsAreSegments` | terminal/src/link.rs:260-306 | reading line by line is splitting at newlines and marking long segments |
| `LineReader.ReadAll` | terminal/src/link.rs:260-306 | for every stream, cut and cap the results are the marked segments, so a long line never disturbs the next |
| `ChannelView.Channel.InsertMessage` | terminal/src/app.rs:137-150 | equals the function on values; false exactly for an id held |
| `ChannelView.SeenIsHeld` | terminal/src/app.rs:137-150 | in every run the seen set is the ids held, the view is sorted, distinct and bounded |
| `ChannelView.StableSortSorts` | terminal/src/app.rs:137-150 | the reference sorts and keeps the order of equal times |
| `ChannelView.StableSortUnique` | terminal/src/app.rs:137-150 | only one sequence does both |
| `ChannelView.ViewIsSortedTail` | terminal/src/app.rs:137-150 | for distinct ids the view is the last 1000 of the stable sort of everything inserted |
| `Attachments.TransferBlob` | packages/client/src/attachments.ts:127-155 | the chunks of the blob in order, all of them unless the session closes |
| `Attachments.AttachmentReceiver.ReceiveChunk` | packages/client/src/attachments.ts:178-245 | every branch equals the function on tables and keeps transfers unfinished, in range and for the hash their id names |
| `Attachments.FullIffCount` | packages/client/src/attachments.ts:222-225 | counting chunks is enough to know that every index is there |
| `Attachments.AttachmentRoundTrip` | packages/client/src/attachments.ts:178-245 | whatever order, repeats and other transfers, a chunk returns nothing unless it is the last missing index, and then exactly the blob |
| `Attachments.OnlyTheNamedBlob` | packages/client/src/attachments.ts:178-245 | whatever anybody sends, a blob is handed out only under the id its own hash names |
| `Attachments.ReceivesIff` | packages/client/src/attachments.ts:178-245 | after any deliveries exactly the chunks that do not fit are refused, with no effect; others are kept until the last ends the transfer |

## Left out

- Real cryptography, CBOR, JSON and base64 text, WebAuthn and SSH hashing: symbolic terms and injective encodings stand for them.
- SQLite, file, lock and rename mechanics: the store is a map with transactions that commit or roll back.
- WebSocket and HTTP plumbing, timers, reconnection and WebRTC: their events are steps and their outcomes parameters.
- A relay send that fails: the message counts as handed to a socket that reads nothing more.
- I/O errors of the line reader other than interruption, which is a retry.
- Simultaneous initiation by both peers, sending without the persistent store, and legacy queue rows.
- Message ids and keys that collide between honest draws, and devices that do not follow the protocol once they hold a session: in `Network.dfy` devices are honest and draws fresh; `RatchetRuns.dfy` has the active network.
- Prekey replenishment and rotation; what a bundle offered is fixed when it is fetched.
- MLS groups: wrappers over the ts-mls library, whose group state is not part of this model.
- The standalone relay: the same state machine as the worker's.
- User interface, configuration and field-by-field parsers: each is one pass over its input with no state and no law beyond its own branches.
- The validator set of the development chain, which nothing else reads, and lower-casing and trimming of usernames: names in the model are already normal.
- The clock is read once per synchronous section; the source reads it again a few instructions later.
- Numbers are unbounded: JavaScript's 2^53 limit is not modelled, the 32-bit wire counters are.
- RatchetTheorems.RunAgreement: stated for messages of chains shorter than 2^32, since a longer chain repeats header counters.
- DmTheorems.DeliverableIff: stated for messages of chains shorter than 2^32, for the same reason.
- DmTheorems.NoDeadlockIff: stated while every chain of the conversation is shorter than 2^32.
- Delivery.HandlerTakesIff: stated for messages of chains shorter than 2^32.
- Delivery.RoundSettlesIff: the same.
- GatewayEffects.AcceptsIff: for a nondecreasing clock, as for the limits; which of several refusals is reported is the order of the checks and not stated.
- Gateway.PostsStayWithinRate: counts since the last restart and for a nondecreasing clock, since the limiter is in memory and filters by the clock; `GatewayLimits.RateAcrossRestarts` counts across restarts.
- GatewayLimits.RepeatsStayFew: the same.
- Policy.WindowRefinesIff: for windows of positive length, the only ones the gateway makes.
- QueueManager.QueueManager.ProcessQueue: requires that pending items hold their envelope, which `RetryRuns.PendingHoldsEnvelope` proves of every device in every run.
- Update in place of the shorter chain operations (accounts, identities, certificates, passkeys, SSH keys): they are functions on values, and their failures change nothing; the ones that can throw after a change are methods.
- Update in place of the gateway's post handler: its store and limiters are methods, the handler around them a function on values.
- Gateway sessions: only `authenticate` is modelled; minting and logout add no property.
