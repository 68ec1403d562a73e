# Logger and dash firmware: a verified model

This project models the parts of the data-acquisition firmware that must survive power
cuts, lossy links and unhelpful servers, and proves what they promise. It covers

- the **durable upload pipeline**: the two-segment file queue (`StoreForwardQueue` over `Flash`,
  `SegmentLog`, `QueueDisk`, `QueueSteps`), its encodings (`QueueFormat`, `ArchiveEncoding`), the archive of
  rejected uploads (`RejectedUploads`), and the upload loop that drains the queue while capture
  keeps appending and rotating underneath (`LiveUpload`, with the account of every record in
  `DeliveryLedger` and the batch body in `UploadEnvelope`); `QueueLimits` says exactly where the
  recovery promise ends;
- **credential rotation**: the per-key bearer rotation (`AppBearerRotation`), the same rotation driven
  against a server over a lossy link (`BearerHandover`), and the one-record authorization
  (`LoggerAuthorization`);
- **event forwarding** from dash to logger: layout, receiver and rings (`SystemEvents`), the system log
  (`SystemLog`), the protocol as a state machine (`EventProtocol`) and both ends of the link
  (`EventForwarding`);
- **owner change**: the reset latch (`OwnerReset`) and provisioning (`DeviceProvisioning`);
- the **shared HTTPS worker** (`HttpsWorker`), **signed updates and boot health** (`SignedOta`), **upload
  evidence** on two devices (`UploadEvidence`) and the **age of the oldest record** (`QueueAge`).

How failures are modelled. Storage is a class whose steps may fail and may lose power before,
during or after any of them; once power is gone, later steps of the same boot do nothing and
fail. What a method ensures about the stored state at its return therefore holds for a power
cut at any point inside it. Each storage class also knows a `reliable` run, in which no step fails;
contracts say what operations then achieve, and `LiveUpload.Run` and `LiveUpload.DeliverAll` what whole runs do. Replies, clocks, randomness and the radio are parameters or
nondeterministic choices. Concurrency is a set of atomic steps with an invariant that holds
between any two. Checksums and encodings are parameters of the recovery proofs; `QueueFormat` and
`ArchiveEncoding` give the firmware's own and show that they meet what the proofs ask, for any
checksum function.

Where the code disagrees with its comments or with a natural reading of its promise, the model
follows the code and states the exact condition:

- `QueueLimits.DurableHeadMustAgree`, `QueueLimits.DurableOrderMustAgree`: after a failed second commit in `pop`, or a
  failed last commit in `rotateSegment`, memory is ahead of flash, in the way `Reclaim` and `RotateSegment` state
  (`HeadBehind`, `OrderBehind`); a later append followed by a cut is recovered correctly if and only if the durable head,
  or the two segments and the durable head, meet the stated condition. `StaleHeadHidesAppend` and `StaleOrderReverses`
  give such states. A run (`LiveUpload.Run`) leaves what it promises only by an append attempted in that window; until
  then, and again from the next commit that succeeds, the next boot recovers everything.
- `QueueLimits.StrayBytesHideAppends`: `enqueue` does not repair a short write. Wherever the write stopped, nothing
  appended behind it in the same boot can be replayed, if and only if the checksum does not take it for the rest of the
  torn record.
- `AppBearerRotation.ReadyMayOutliveFields`: `cand_ready` implies a complete candidate exactly when the
  unchecked removals took `cand_ready` itself or nothing; `ReadyOutlivesItsToken` gives an input where it does not.
- `UploadEvidence.ReportsDecode`: a report decodes as sent except an acceptance whose age reads as "never";
  `Tracker.Report` says for which attempts and times that happens, and `NeverAgeIsRefused` gives a tracker and a time.
- `LoggerAuthorization`: a save reports failure also when only the read-back failed. What a failed save rolls back to
  agrees with the record if and only if the save had no effect; `StageRotation`, `StatusResult`,
  `FinishRotationFallback`, `Acknowledged`, `Rejected` and `Issued` each say so. The record may then be ahead of memory,
  and the next save takes it back.
- `LoggerAuthorization.LoggerAuthorization.Acknowledged`: a failed save after an acknowledgement restores the rotation, the
  origin and the pending proof, but not the user code shown to the owner: the proof is as it was exactly if there was none.

## Model

| member | source | states |
|---|---|---|
| SegmentLog.AppendedRecordIsLive | logger/firmware/src/StoreForwardQueue.cpp:139-160 | a whole framed record appended to a fully live segment is replayed last, after exactly what was replayed before |
| SegmentLog.TornRecordIsDead | logger/firmware/src/StoreForwardQueue.cpp:453-478 | an append cut anywhere before its last byte leaves the replayed records and the end of the live run as they were |
| SegmentLog.LiveIsLongest | logger/firmware/src/StoreForwardQueue.cpp:453-478 | whatever run of framed records stands at an offset, the scan finds all of it first, in order: no longer prefix exists |
| SegmentLog.LiveIsFramed | logger/firmware/src/StoreForwardQueue.cpp:453-478 | what the scan accepts is, byte for byte, the framing of the records it returns |
| SegmentLog.TornTailIsCutOff | logger/firmware/src/StoreForwardQueue.cpp:453-481 | any records followed by any strict part of another record replay as exactly those records, and the scan ends where the part begins |
| SegmentLog.LiveSurvivesCut | logger/firmware/src/StoreForwardQueue.cpp:481-521 | cutting a segment anywhere behind its live run changes neither the run nor its end, so a second scan finds nothing to do |
| QueueFormat.TestsMeanFraming | logger/firmware/src/StoreForwardQueue.cpp:457-475 | for every file and offset the field-by-field header tests pass if and only if the bytes are some payload's framing |
| QueueFormat.MetadataRoundTrip | logger/firmware/src/StoreForwardQueue.cpp:381-432 | the metadata record that is committed is the one the next boot loads |
| QueueFormat.LegacyIsTakenOver | logger/firmware/src/StoreForwardQueue.cpp:391-408 | a version-1 record is taken over with its heads, order and drop count |
| QueueFormat.EncodingsAreSound | logger/firmware/src/StoreForwardQueue.cpp:360-432 | the firmware's framing and metadata encodings have every property the recovery proofs use, for any checksum |
| Bytes.Checksum | logger/firmware/src/StoreForwardQueue.cpp:360-367 | the checksum loop computes the FNV-1a fold over all bytes in order, in 32 wrapping bits |
| Bytes.XorBits | logger/firmware/src/StoreForwardQueue.cpp:360-367 | each bit of the fold is the sum of the two without a carry |
| Bytes.KnownChecksums | logger/firmware/src/StoreForwardQueue.cpp:360-367 | the hash of nothing and of one letter has the published FNV-1a value |
| StoreForwardQueue.Queue.SaveMetadata | logger/firmware/src/StoreForwardQueue.cpp:411-432 | the metadata file is the old one or the new one at every moment, and nothing else changes |
| StoreForwardQueue.Queue.Begin | logger/firmware/src/StoreForwardQueue.cpp:37-117 | a boot shows in FIFO order exactly what the flash would replay, without readable metadata every record of both segments, counts what it quarantines and reclaims segments without records; interrupted anywhere, it leaves the next boot the same records, drop count, doubts and capacity bounds |
| QueueDisk.WithoutMetadata | logger/firmware/src/StoreForwardQueue.cpp:84-102 | without readable metadata a boot replays both segments from their first bytes, counts no drop, and doubts that count exactly if a file of the queue is there |
| StoreForwardQueue.SegmentCapacity | logger/firmware/src/StoreForwardQueue.cpp:71-80 | the largest segment size of which two keep within the configured limit and leave the reserve |
| StoreForwardQueue.Queue.ScanSegment | logger/firmware/src/StoreForwardQueue.cpp:434-522 | the live prefix stays, the bytes behind it are added to quarantine and counted there, and at no moment does the segment replay anything else |
| StoreForwardQueue.ScanRecords | logger/firmware/src/StoreForwardQueue.cpp:449-481 | the scan loop finds the end and the number of the live records from the head |
| StoreForwardQueue.Queue.RepairTail | logger/firmware/src/StoreForwardQueue.cpp:481-517 | the segment is replaced by its live prefix only once prefix and suffix are durable elsewhere |
| StoreForwardQueue.Queue.Enqueue | logger/firmware/src/StoreForwardQueue.cpp:119-161 | appends one record after dropping nothing or exactly the older segment; every power cut leaves one of the listed replays, with a drop counted before its bytes go; failures leave the contents or the counted rotation, and memory level with the flash or ahead of it by the switch of segments alone |
| StoreForwardQueue.Queue.RotateSegment | logger/firmware/src/StoreForwardQueue.cpp:524-543 | gives up exactly the older segment, counts it durably first, and keeps capacity and order bounds, also when cut; a failure leaves memory level with the flash unless it had switched segments, and then ahead by exactly that |
| QueueSteps.LevelReplays | logger/firmware/src/StoreForwardQueue.cpp:82-117 | memory level with the flash, or ahead by one uncommitted reset with nothing appended since: either way the next boot replays what the queue shows |
| StoreForwardQueue.Queue.Peek | logger/firmware/src/StoreForwardQueue.cpp:164-204 | returns the oldest pending record, if and only if there is one |
| StoreForwardQueue.Queue.Pop | logger/firmware/src/StoreForwardQueue.cpp:250-296 | removes exactly the oldest record, and reclaims the segment it drains; a cut inside leaves everything or everything but that record; once it is gone the flash replays what the queue shows, level with memory unless the last commit failed, and then behind by that commit alone |
| StoreForwardQueue.Queue.EmptyNeedsNoRotation | logger/firmware/src/StoreForwardQueue.cpp:128-135 | once drained, a queue whose empty segments are reclaimed takes any record it accepts without rotating |
| StoreForwardQueue.Queue.Reclaim | logger/firmware/src/StoreForwardQueue.cpp:284-292 | emptying an acknowledged segment changes nothing that is replayed; only the second commit failing leaves memory ahead of flash, by that segment's head |
| StoreForwardQueue.Queue.PopIfMatches | logger/firmware/src/StoreForwardQueue.cpp:243-248 | removes the oldest record only if it is the submitted one; otherwise nothing changes at all |
| StoreForwardQueue.Queue.PeekBatch | logger/firmware/src/StoreForwardQueue.cpp:206-241 | returns, without changing the queue, the longest oldest-first prefix within the record limit and the byte budget |
| StoreForwardQueue.ExtendBatch | logger/firmware/src/StoreForwardQueue.cpp:218-236 | one segment's records extend the batch to the longest prefix the limits allow, and it is known whether a limit stopped it |
| QueueSteps.RepairedSegment | logger/firmware/src/StoreForwardQueue.cpp:449-517 | cut at the end of its live run, a segment replays the same from the durable and from the clipped head, and is fully indexed |
| QueueSteps.RotationMeansFull | logger/firmware/src/StoreForwardQueue.cpp:128-135 | older records are given up only if the newer ones and the incoming one exceed a whole segment |
| QueueSteps.AdvancedView | logger/firmware/src/StoreForwardQueue.cpp:265-278 | moving the oldest segment's head over one record removes exactly the first record of the queue |
| QueueLimits.DurableHeadMustAgree | logger/firmware/src/StoreForwardQueue.cpp:287-292 | in the state a failed second commit of pop leaves, and after later appends to that segment, a boot replays the queue if and only if the durable head is 0 too |
| QueueLimits.StaleHeadHidesAppend | logger/firmware/src/StoreForwardQueue.cpp:287-292 | for any two payloads: the first popped with that commit failing, the second appended, and the next boot does not replay it |
| QueueLimits.OlderHeadMayLag | logger/firmware/src/StoreForwardQueue.cpp:287-292 | when the emptied segment was the older one, a stale durable head changes nothing |
| QueueLimits.DurableOrderMustAgree | logger/firmware/src/StoreForwardQueue.cpp:538-543 | in the state a failed last commit of rotation leaves, a boot replays the queue in order if and only if nothing was appended since, or the other segment is empty and the durable head is 0 |
| QueueLimits.StaleOrderReverses | logger/firmware/src/StoreForwardQueue.cpp:538-543 | for any two different payloads around such a rotation, the next boot replays the later one first |
| QueueLimits.AppendNeedsCleanTail | logger/firmware/src/StoreForwardQueue.cpp:143-160 | the index left by an append describes the file if and only if no stray bytes preceded it, and then the record is replayed last |
| QueueLimits.StrayBytesHideAppends | logger/firmware/src/StoreForwardQueue.cpp:143-160 | behind a record torn after any number of bytes, whatever is appended is not replayed, if and only if the checksum does not accept it as the rest of the torn record |
| QueueLimits.MisreadPayload | logger/firmware/src/StoreForwardQueue.cpp:457-475 | torn inside the payload, that means: the bytes written of it and those behind fill its length and have its checksum |
| ArchiveEncoding.ArchivedRoundTrip | logger/firmware/src/RejectedUploads.cpp:13-30 | an archived upload reads back with the payload and status it was written with |
| ArchiveEncoding.ArchivedIsCanonical | logger/firmware/src/RejectedUploads.cpp:13-30 | a file that reads back as an archived upload is exactly what archiving it would write |
| RejectedUploads.Archive.PreserveRejected | logger/firmware/src/RejectedUploads.cpp:59-99 | no occupied slot ever changes, no payload gets a second readable copy, success means a readable byte-equal copy, and archiving again changes nothing |
| RejectedUploads.Archive.FindSlot | logger/firmware/src/RejectedUploads.cpp:66-77 | finds a readable copy if there is one, and otherwise a free slot if there is one |
| RejectedUploads.StepIntoSlot | logger/firmware/src/RejectedUploads.cpp:78-97 | filling a free slot with a payload held nowhere keeps every copy unique and raises the number of occupied slots by one |
| DeliveryLedger.Conservation | logger/firmware/src/LiveUploadAsync.cpp:45-151 | records accepted equal pending plus acknowledged plus archived plus lost |
| DeliveryLedger.ReclaimExplained | logger/firmware/src/StoreForwardQueue.cpp:524-543 | losing the older segment keeps the account when the drop count grows by as many, saturating |
| DeliveryLedger.CaptureOutcomeExplained | logger/firmware/src/StoreForwardQueue.cpp:119-161 | every way a capture can end, cut included, leaves all records accounted for in order |
| DeliveryLedger.CaptureStep | logger/firmware/src/StoreForwardQueue.cpp:119-161 | the account after an attempted capture: recovered by a cut if it was recoverable and memory was level with the flash or the capture rotates first, kept in any case while power lasts |
| DeliveryLedger.LevelIsSafe | logger/firmware/src/StoreForwardQueue.cpp:82-117 | with memory level with the flash, or ahead by one uncommitted reset, a cut recovers the account, in order and within capacity, whatever went before |
| DeliveryLedger.LostMetadataIsDoubted | logger/firmware/src/StoreForwardQueue.cpp:84-98 | without readable metadata the drop count is in doubt from the next boot on exactly if a file of the queue is there |
| DeliveryLedger.TurnedChain | logger/firmware/src/LiveUploadAsync.cpp:45-182 | what an upload step keeps (recovery, order, capacity, a doubt about the drop count) and regains composes over any number of steps |
| DeliveryLedger.PlacedHead | logger/firmware/src/LiveUploadAsync.cpp:141-148 | a record of the batch is in the queue if and only if it is the queue's head and as many records have left as precede it |
| LiveUpload.LiveUpload.Capture | logger/firmware/src/LiveUploadAsync.cpp:12-30 | a capture under an upload in flight keeps the account; records are lost only when they and the new one no longer fit; how each outcome leaves memory and flash (`Leaves`); the volatile slot is never overwritten |
| LiveUpload.LiveUpload.Settle | logger/firmware/src/StoreForwardQueue.cpp:243-296 | one record leaves the queue for a stated reason or none does; recovery, order and capacity are kept, and after any departure the flash holds the account again, level with memory or behind by a failed last commit |
| LiveUpload.LiveUpload.Complete | logger/firmware/src/LiveUploadAsync.cpp:49-106 | a record leaves the queue only for a strict acknowledgement of it or, rejected for good, after an archive copy; any other reply changes neither files nor account; a batch is kept for retry, drained, given up for single records, or given up with batching, as the reply says; every outcome is an upload step (`Turned`) |
| LiveUpload.LiveUpload.CompleteBatch | logger/firmware/src/LiveUploadAsync.cpp:59-73 | a strict answer starts the drain; a rejection of the content leaves the records to go singly and counts them; 404 and 405 turn batching off; anything else keeps the envelope as it is |
| LiveUpload.LiveUpload.CompleteStatus | logger/firmware/src/LiveUpload.cpp:719-737 | an accepted heartbeat, and nothing else, says whether batches are used; withdrawing them drops the batch not yet acknowledged, never a record |
| LiveUpload.LiveUpload.ResolveRejected | logger/firmware/include/UploadRecovery.h:14-22 | a rejected record leaves replay only once a readable copy of it is archived |
| LiveUpload.LiveUpload.Drain | logger/firmware/src/LiveUploadAsync.cpp:141-151 | one turn removes at most one record, the batch member whose turn it is, unless it had left before; a drained batch is gone completely; every outcome is an upload step |
| LiveUpload.LiveUpload.DrainAll | logger/firmware/src/LiveUploadAsync.cpp:141-151 | over all its turns, with snapshots and rotations in between and any step failing, a drain acknowledges only batch members, every other departure is a counted loss, and a drain that ends has emptied the batch; without failures it ends |
| LiveUpload.LiveUpload.AssembleBatch | logger/firmware/src/LiveUploadAsync.cpp:169-178 | a batch is the longest prefix the request can carry, and the oversize branch is never taken |
| LiveUpload.LiveUpload.Submit | logger/firmware/src/LiveUploadAsync.cpp:154-182 | sends the batch to be retried, a new longest batch when singles are done, or the oldest record alone |
| LiveUpload.LiveUpload.Service | logger/firmware/src/LiveUploadAsync.cpp:45-182 | a main-loop turn lets at most one record leave, keeps the account, confirms only what the server strictly acknowledged, and is an upload step |
| LiveUpload.LiveUpload.Proceed | logger/firmware/src/LiveUploadAsync.cpp:141-182 | a turn drains one record of an acknowledged batch or starts what the pacing allows: a heartbeat, or the oldest records; nothing else changes |
| LiveUpload.LiveUpload.Round | logger/firmware/src/LiveUploadAsync.cpp:45-182 | a turn and the answer to what it asked bring the queue closer to empty, whether by a record, a batch taken, a batch refused, or the rest of a batch that rotation has overtaken |
| LiveUpload.LiveUpload.DeliverAll | logger/firmware/src/LiveUploadAsync.cpp:45-182 | while the server takes single records and no step fails, the queue empties from any state between requests, whether the server takes batches, rejects them or has no endpoint for them, and every record leaves as acknowledged |
| LiveUpload.LiveUpload.OnSample | logger/firmware/src/LiveUploadAsync.cpp:12-30 | in a run, a sample loses records only when crowded; memory gets ahead of the flash only by a rotation that failed after switching segments, and cuts stop being covered only by an append attempted while it is ahead |
| LiveUpload.LiveUpload.OnReply | logger/firmware/src/LiveUploadAsync.cpp:49-133 | in a run, memory gets ahead of the flash only by a departure whose last commit failed, any other departure puts them level, and an ambiguous reply changes nothing |
| LiveUpload.LiveUpload.OnTurn | logger/firmware/src/LiveUploadAsync.cpp:141-182 | the same of a turn, which without an acknowledged batch leaves the account alone; on a device whose steps succeed it drains the member whose turn it is, or asks for what the pacing allows |
| LiveUpload.LiveUpload.Run | logger/firmware/src/LiveUploadAsync.cpp:12-182 | over any run of samples, replies, heartbeats, turns and power cuts, with single records and batches and any step failing, the account only grows, the next boot recovers exactly its pending part unless an append was attempted with memory ahead of the flash, ambiguous replies settle nothing, and a drop count once in doubt stays so; without failures every sample that fits is stored |
| LiveUpload.LiveUpload.Reboot | logger/firmware/src/StoreForwardQueue.cpp:82-117 | after a power cut anywhere the recovered queue is exactly the pending part of the same account, and a doubt about the drop count is kept |
| UploadEnvelope.EnvelopeFits | logger/firmware/src/LiveUploadAsync.cpp:172-176 | the batch body has a known length and always fits 6144 bytes for device ids of up to 63 plain characters |
| UploadEnvelope.EnvelopeReads | logger/firmware/src/LiveUploadAsync.cpp:169-175 | the body names this device and this batch under their keys, and holds the records in order, separated by commas, up to its last two characters |
| UploadEnvelope.EscapedReads | logger/firmware/src/LiveUpload.cpp:866-893 | whatever its characters, an escaped text is read back as it was |
| UploadEnvelope.BuildEnvelope | logger/firmware/src/LiveUploadAsync.cpp:173-175 | the assembly loop yields the frame around the comma-separated records |
| AppBearerRotation.AppBearerRotation.Begin | logger/firmware/src/AppBearerRotation.cpp:46-98 | a boot resumes a complete candidate unchanged, clears only an invalid one, and loads the durable bearer |
| AppBearerRotation.AppBearerRotation.Stage | logger/firmware/src/AppBearerRotation.cpp:100-144 | never replaces a pending candidate, never goes back in version, and a stored ready candidate is complete and from this call |
| AppBearerRotation.AppBearerRotation.MarkAcknowledged | logger/firmware/src/AppBearerRotation.cpp:146-170 | only the phase key changes; the candidate stays durable throughout |
| AppBearerRotation.AppBearerRotation.PromoteCandidate | logger/firmware/src/AppBearerRotation.cpp:172-212 | the candidate becomes active before anything that could restore it goes, wherever the promotion stops |
| AppBearerRotation.AppBearerRotation.PersistCandidate | logger/firmware/src/AppBearerRotation.cpp:254-286 | `cand_ready` is durable only with all fields of this candidate |
| AppBearerRotation.ResumedIsOneStaging | logger/firmware/src/AppBearerRotation.cpp:72-82 | a candidate that a boot resumes has all its fields from one accepted `stage` call |
| AppBearerRotation.ReadyMayOutliveFields | logger/firmware/src/AppBearerRotation.cpp:296-308 | after the unchecked removals, ready implies complete if and only if ready went or nothing did |
| AppBearerRotation.ReadyOutlivesItsToken | logger/firmware/src/AppBearerRotation.cpp:296-308 | a stored candidate whose token is gone while ready stays, which no boot resumes |
| BearerHandover.Handover.Boot | logger/firmware/src/AppBearerRotation.cpp:46-98 | after any history of cuts, failed writes and lost replies, a boot that reads its store can authenticate |
| BearerHandover.Handover.AcknowledgementTurn | logger/firmware/src/LiveUploadAsync.cpp:109-117 | every outcome of acknowledging keeps the device able to authenticate; the candidate becomes acknowledged exactly if the server took it and said so, and a refused one is given up, in the store too |
| BearerHandover.Handover.Rotate | logger/firmware/src/LiveUploadAsync.cpp:109-122 | offered, staged, acknowledged and proven without a failure, a rotation becomes the bearer on both sides and the version applied |
| BearerHandover.Handover.RefusedThenRotated | logger/firmware/src/LiveUploadAsync.cpp:114-117 | a candidate the server refuses does not stand in the way of the next one |
| BearerHandover.Handover.ProofTurn | logger/firmware/src/LiveUploadAsync.cpp:118-122 | only a candidate the server has accepted under itself becomes active; the applied version never decreases |
| BearerHandover.Handover.Deliver | logger/firmware/src/LiveUpload.cpp:958-993 | an offer in an authenticated reply, current or replayed, cannot lock the device out or lower the applied version |
| BearerHandover.PromotedSafe | logger/firmware/src/AppBearerRotation.cpp:182-194 | at every point of a promotion the durable bearer or the durable acknowledged candidate is the server's |
| BearerHandover.AcknowledgeHonest | logger/firmware/src/LiveUploadAsync.cpp:110-113 | acknowledging keeps the server's books: only offered candidates are ever confirmed |
| LoggerAuthorization.LoggerAuthorization.Accept | logger/firmware/src/LoggerAuthorization.cpp:217-283 | the stored token changes only to a pending bootstrap token that the server acknowledged or confirmed by identity, or back to memory's where a failed save had left the record ahead |
| LoggerAuthorization.LoggerAuthorization.Acknowledged | logger/firmware/src/LoggerAuthorization.cpp:242-255 | token, origin, rotation and proofs are replaced together; after a failed save memory is as before but for the user code, and agrees with the record exactly if the save had no effect |
| LoggerAuthorization.LoggerAuthorization.StatusResult | logger/firmware/src/LoggerAuthorization.cpp:342-358 | the token is replaced only after acceptance under the old bearer and then under the candidate; the record saved is the same logger with the new token and version and the rotation applied, and makes sense to a boot; a failed save takes the rotation back |
| LoggerAuthorization.RotatedBoots | logger/firmware/src/LoggerAuthorization.cpp:107-147 | what a completed rotation stores is taken over by a boot: new token and version, same device, the offer applied, none in progress |
| LoggerAuthorization.BootstrappedBoots | logger/firmware/src/LoggerAuthorization.cpp:107-147 | what an acknowledged bootstrap stores is taken over by a boot: the credential issued and its device, nothing pending |
| LoggerAuthorization.LoggerAuthorization.Rotate | logger/firmware/src/LoggerAuthorization.cpp:315-358 | without a failure, a fresh offer accepted twice is the token the next boot starts with, on the same device |
| LoggerAuthorization.LoggerAuthorization.Authorize | logger/firmware/src/LoggerAuthorization.cpp:217-303 | without a failure, a credential approved, issued and acknowledged is what the next boot starts with |
| LoggerAuthorization.TextLimits | logger/firmware/include/DeviceAuthorizationPolicy.h:7-16 | which lengths and characters tokens and device ids may have |
| LoggerAuthorization.LoggerAuthorization.StageRotation | logger/firmware/src/LoggerAuthorization.cpp:315-332 | a failed save leaves no candidate in memory, and none durably exactly if memory and record agree; versions never go back and a pending one is never replaced |
| LoggerAuthorization.LoggerAuthorization.FinishRotationFallback | logger/firmware/src/LoggerAuthorization.cpp:360-371 | only an accepted old bearer and a successful save discard a candidate; after a failed save memory keeps it, and agrees with the record exactly if the save had no effect or there was none |
| LoggerAuthorization.LoggerAuthorization.Restore | logger/firmware/src/LoggerAuthorization.cpp:107-147 | a boot takes over exactly the records that make sense, and touches none |
| LoggerAuthorization.LoggerAuthorization.Boot | logger/firmware/src/LoggerAuthorization.cpp:69-147 | after a cut anywhere memory is what the record says, and the token kept was there at the start, vouched for, or accepted under itself |
| LoggerAuthorization.SavedAgrees | logger/firmware/src/LoggerAuthorization.cpp:189-214 | whatever memory holds, what a save of it leaves is what a boot would rebuild it from |
| SystemEvents.PartsRebuild | shared/protocols/SystemEvents.h:26-39 | the four notifications of an event carry its whole layout, and parse to the event |
| SystemEvents.IdentityInFirstPart | shared/protocols/SystemEvents.h:43-55 | an event put together from any parts has boot, number and version of the event its first part came from |
| SystemEvents.Receiver.Accept | shared/protocols/SystemEvents.h:40-56 | a first part starts over, the expected part with the same sequence byte is added, anything else discards; completion yields the join of exactly those parts |
| SystemEvents.RingQueue.Push | shared/protocols/SystemEvents.h:59-62 | the ring is a bounded FIFO that refuses and counts what does not fit |
| SystemEvents.RingQueue.Pop | shared/protocols/SystemEvents.h:64-64 | removes exactly the front |
| SystemLog.LineRing.Enqueue | logger/firmware/src/SystemLog.cpp:13-30 | the parallel line ring holds the text of every queued event at the position of its turn, across counter wrap |
| SystemLog.SystemLog.AcceptDash | logger/firmware/src/SystemLog.cpp:39-73 | acknowledges if and only if a number that is already flushed is repeated; a newer event is at most held in memory, one at a time |
| SystemLog.DashCodesAreSafe | shared/protocols/SystemEvents.h:78-82 | the logger takes the code of every event a dash records, so none can block the queue by its code |
| SystemLog.SystemLog.TailIsLast | logger/firmware/src/SystemLog.cpp:42-66 | the greatest file tail of this boot is the last event ever flushed, whatever the order of files |
| SystemLog.SystemLog.RecoverTail | logger/firmware/src/SystemLog.cpp:45-64 | the directory loop finds the greatest tail among files that end with this boot |
| SystemLog.SystemLog.Loop | logger/firmware/src/SystemLog.cpp:74-112 | a line is forgotten only once it is on the card; acknowledgement state follows the flush |
| SystemLog.AppendedRecord | logger/firmware/src/SystemLog.cpp:85-98 | appending a newer event to any file, even an older one, keeps the files and the history in agreement |
| EventProtocol.SpliceIsLogged | shared/protocols/SystemEvents.h:43-55 | an event spliced from parts of several repeats a number already logged, unless it is the dash's oldest event byte for byte |
| EventProtocol.RecordedIsGood | dash/firmware/src/dash_main.cpp:84-89 | recording an event keeps the invariant, whether or not the ring has room for it |
| EventProtocol.ArrivedIsGood | logger/firmware/src/DashLink.cpp:168-175 | the receiver's state after any arrival keeps the protocol's invariant |
| EventProtocol.PolledIsGood | logger/firmware/src/DashLink.cpp:193-203 | holding or acknowledging a received event keeps the invariant |
| EventProtocol.FlushedIsGood | logger/firmware/src/SystemLog.cpp:94-99 | flushing the held event keeps the log in order, without repetition, and level with the dash's oldest event |
| EventProtocol.AcknowledgedIsGood | dash/firmware/src/dash_main.cpp:90-97 | what an acknowledgement makes the dash drop is on the card |
| EventForwarding.Dash.Service | dash/firmware/src/dash_main.cpp:100-113 | sends the parts of the oldest event in turn, starting over when the event changes |
| EventForwarding.Dash.OnWrite | dash/firmware/src/dash_main.cpp:90-97 | drops the oldest event if and only if boot and number match |
| EventForwarding.Link.Deliver | logger/firmware/src/DashLink.cpp:168-175 | an arriving notification keeps the protocol's invariant |
| EventForwarding.Link.Poll | logger/firmware/src/DashLink.cpp:190-203 | an acknowledgement goes out only for a number on the card |
| EventForwarding.Link.DeliverAck | dash/firmware/src/dash_main.cpp:91-96 | the dash drops only an event that is on the card |
| EventForwarding.Link.RestartLogger | logger/firmware/src/SystemLog.cpp:39-73 | a logger restart at any moment loses no event and repeats none |
| EventForwarding.Link.Transfer | dash/firmware/src/dash_main.cpp:100-113 | on a quiet link at most seven notifications bring the oldest event across, whatever the receiver held |
| EventForwarding.Link.Round | logger/firmware/src/SystemLog.cpp:39-99 | with the link quiet and the card writing, one round puts the oldest event on the card and lets the dash drop it |
| EventForwarding.Link.Promise | logger/firmware/src/SystemLog.cpp:39-99 | at any time the logged numbers strictly increase, every logged line is an event the queue took in, every dropped event is logged, and every other one is still queued |
| OwnerReset.Coordinator.Resume | shared/libraries/OwnerReset.h:23-35 | with a reset pending or requested, networking is allowed only if this call cleared every store and verified the latch clear |
| OwnerReset.Coordinator.Request | shared/libraries/OwnerReset.h:41-49 | nothing is cleared before the latch is written and read back; afterwards, wherever it stops, the latch stays or nothing is left to clear |
| OwnerReset.Coordinator.Finish | shared/libraries/OwnerReset.h:53-65 | every callback is called, the latch is withdrawn only if all succeeded, and completion means it was read back as withdrawn |
| OwnerReset.Vault.GetPending | shared/libraries/OwnerResetNvs.h:11-25 | an absent latch means no reset, a damaged or unreadable one is an error |
| OwnerReset.Boot | shared/libraries/OwnerReset.h:21-35 | a boot lets a latched device online only with every store cleared, and cut anywhere leaves the latch or nothing to clear |
| OwnerReset.RequestThenBoots | shared/libraries/OwnerReset.h:21-65 | from a request on, over any number of boots each cut anywhere, the first that lets the device online finds every store cleared; if nothing fails, one does |
| DeviceProvisioning.Provisioning.Accept | logger/firmware/src/DeviceProvisioning.cpp:186-260 | wherever a command stops the device has its untouched old owner, is held by the latch, has no owner, or has exactly the new one |
| DeviceProvisioning.CommandsAndBoots | logger/firmware/src/DeviceProvisioning.cpp:53-260 | commands and boots in any order, each cut anywhere: whoever is let online is the untouched old owner, nobody, or exactly the owner of one command; without failures, that of a valid command that came last |
| DeviceProvisioning.RecordBoots | logger/firmware/src/DeviceProvisioning.cpp:61-127 | a complete record boots as exactly the settings that were sent |
| DeviceProvisioning.MissingKeyIsNoticed | logger/firmware/src/DeviceProvisioning.cpp:53-127 | a record marked ready that lacks a key it cannot do without, or names no protocol there is, makes no owner |
| DeviceProvisioning.FieldLimits | logger/firmware/src/ProvisioningPolicy.cpp:49-101 | how long each text of a valid command may be |
| DeviceProvisioning.Provisioning.WriteOwner | logger/firmware/src/DeviceProvisioning.cpp:218-251 | the namespace is the complete record or not marked ready, at every moment |
| HttpsWorker.LowestBit | logger/firmware/include/HttpsArbiter.h:13-13 | for every mask, `p & -p` equals a bit exactly when the mask has that bit and no lower one |
| HttpsWorker.TurnMeansFirst | logger/firmware/include/HttpsArbiter.h:9-14 | an owner has its turn if and only if nobody who outranks it has asked |
| HttpsWorker.HttpsWorker.SubmitRequest | logger/firmware/src/HttpsWorker.cpp:41-45 | succeeds exactly when idle, fitting and not outranked by anyone who asked; refused, the owner's claim stays |
| HttpsWorker.HttpsWorker.Publish | logger/firmware/src/HttpsWorker.cpp:65-106 | the result published answers the request that was submitted, byte for byte |
| HttpsWorker.HttpsWorker.Poll | logger/firmware/include/HttpsWorker.h:17-17 | a result is visible if and only if it is complete and the asker's own |
| HttpsWorker.HttpsWorker.Release | logger/firmware/include/HttpsWorker.h:18-18 | only the owner of a complete result gives the buffers back, and nothing secret stays in them |
| HttpsWorker.HttpsWorker.Interleave | logger/firmware/src/HttpsWorker.cpp:41-106 | in every interleaving of the two tasks each answer is to the request accepted in its turn, for its owner; and an owner that has asked, however often it tries again, is let in before anyone it outranks unless it cancels or submits what does not fit |
| HttpsWorker.HttpsWorker.Finish | logger/firmware/src/HttpsWorker.cpp:41-106 | every accepted request gets its answer once the step due has been taken five times, whatever both tasks do in between |
| HttpsWorker.Collect | logger/firmware/src/HttpsWorker.cpp:10-28 | the body is all pieces in order if they fit together, and a failure otherwise |
| SignedOta.SignedOta.Finish | logger/firmware/src/SignedOta.cpp:31-41 | an image is selected only if its chunks total the declared size, it has just been verified, it is of this project and security version, no reading found the chip insecure or its image invalid, and the slot is still the inactive one; on a device whose calls succeed, exactly then |
| SignedOta.SignedOta.Append | logger/firmware/src/SignedOta.cpp:21-29 | a session holds exactly the chunks written, and fails for good on any bad one |
| SignedOta.SignedOta.Begin | logger/firmware/src/SignedOta.cpp:8-19 | a session starts only with the handle open and no reading that found the chip insecure or its image invalid; a running or selected one is left alone |
| SignedOta.Backend.FinishAndVerify | logger/firmware/src/SignedOtaEsp32.cpp:71-84 | ending consumes the handle on every outcome; verified means the image ended just now, and its description allows it to replace the running one |
| SignedOta.Backend.Abort | logger/firmware/src/SignedOtaEsp32.cpp:92-96 | a consumed handle is never aborted |
| SignedOta.OtaBootHealth.Poll | logger/firmware/src/SignedOta.cpp:55-73 | the image is confirmed exactly when an unbroken healthy run spans ten seconds inside the window, with at most one confirm and one rollback, across clock wrap |
| UploadEvidence.Tracker.Report | logger/firmware/include/UploadEvidence.h:19-26 | an acceptance is reported if and only if uploads are available and the last attempt succeeded; the frame sent does not decode to it exactly if the time since then reads as never |
| UploadEvidence.ReportsDecode | shared/protocols/DashUploadStatus.h:13-28 | a report decodes to itself unless it is an acceptance whose age reads as never |
| UploadEvidence.DecodedIsCanonical | shared/protocols/DashUploadStatus.h:18-28 | a frame that decodes is the encoding of what it decodes to: no byte of it is ignored |
| UploadEvidence.NeverAgeIsRefused | logger/firmware/include/UploadEvidence.h:13-26 | a tracker with one success at time 0, asked 2^32 - 1 milliseconds later, reports what the dash refuses |
| UploadEvidence.ElapsedIsTrue | shared/protocols/DashUploadStatus.h:34-37 | the time two 32-bit readings give is the true one less whole turns of the counter |
| UploadEvidence.Model.Show | shared/protocols/DashUploadStatus.h:35-43 | each of the views but Stale is shown exactly for its state in a report received a moment ago, Accepted and Unconfirmed only while the success is inside the window |
| UploadEvidence.Display.Show | shared/protocols/DashUploadStatus.h:33-43 | after any attempts, reports, losses and refusals, the dash shows Accepted exactly if the report taken in last followed a successful attempt, arrived under five seconds ago, and the success is younger than the window |
| UploadEvidence.Display.Receive | shared/protocols/DashUploadStatus.h:19-33 | a report is taken in exactly if it decodes, and a refused one changes nothing |
| QueueAge.EraCountsDays | logger/firmware/include/QueueAge.h:26-31 | for every year from 1 on, the era formula counts days exactly as the calendar does |
| QueueAge.Epoch | logger/firmware/include/QueueAge.h:7-32 | nonzero exactly on valid timestamps, equal to the day-by-day count in seconds, within 32 bits |
| QueueAge.RecordAge | logger/firmware/include/QueueAge.h:33-37 | the age is known exactly for a valid timestamp that is not ahead of the clock or 2^32 seconds behind it, and is the time between; at another timestamp's moment, exactly if it does not sort behind that one |
| QueueAge.TimestampsArePrinted | logger/firmware/src/Timekeeper.cpp:160-179 | the strings accepted are exactly those the logger's printer makes of valid dates and times |
| QueueAge.PrintIsRead | logger/firmware/src/Logic.cpp:117-134 | what the logger prints is read back as the fields it was printed from |
| QueueAge.TextOrderIsTimeOrder | logger/firmware/include/QueueAge.h:7-32 | accepted timestamps sort as text exactly as the moments they name |
| QueueAge.ReadFields | logger/firmware/include/QueueAge.h:10-19 | the nested digit loops read all six numbers, or find the first character that is not a digit |

## Left out

- StoreForwardQueue.Queue.Begin: file sizes on mount are assumed below 2^32, and bounds on the segments are kept, not established, because the code does not shrink an oversized segment. Mounting and the blank-partition check are one parameter.
- StoreForwardQueue.Queue.Enqueue: what a cut leaves is stated for a state whose heads and active segment are durable; `QueueLimits` gives the exact conditions without that. After a failed append the queue needs the next boot's repair.
- StoreForwardQueue.Queue.Pop: what a cut inside it leaves is stated for a state in which the next boot would replay what the queue shows.
- LiveUpload.LiveUpload.Capture: payloads are taken to be distinct, as session and sequence numbers make them, and a cut during a capture is covered while memory is level with the flash, or the capture rotates first.
- LiveUpload.LiveUpload.Run: a run is followed up to a boot after an append attempted with memory ahead of the flash, and after a failed append only from the next boot on; every boot uses the same configuration and file sizes within capacity.
- LiveUpload.LiveUpload.DeliverAll: delivery to the end is stated for a reliable device with the worker free and a server that takes single records; pacing intervals and the volatile slot are not part of it.
- LiveUpload.LiveUpload.Complete: whether a reply's JSON says what a strict acknowledgement needs is given with the reply; JSON parsing, counters and error texts are not modelled.
- BearerHandover.Handover.Propose: the server is assumed never to reuse a version nor to offer the bearer the device was provisioned with, and to honour the old bearer until it has seen the candidate.
- AppBearerRotation.AppBearerRotation.AbandonCandidate: stated outside phase Acknowledged, where alone the upload loop calls it.
- LoggerAuthorization.LoggerAuthorization.Accept: expiry times, polling intervals and status texts are left out, and claims end when a restart is requested.
- DeviceProvisioning.Provisioning.Accept: a key write that fails with power on is taken to have had no effect; JSON parsing precedes it.
- EventForwarding.Link.Record: one dash and one boot of it; event numbers do not wrap, writes to the card are whole or absent, and a restarted dash is not part of the model.
- SystemLog.SystemLog.Loop: dates, segment sizes and which file is pruned are choices of the environment; the logger's own files are not kept.
- SignedOta.OtaBootHealth.Poll: checks come less than a counter turn apart.
- QueueAge.Epoch: a missing (null) text, which yields 0, is not distinguished from an empty one.
- Storage reads do not fail, and an existing segment can always be opened for reading; a failing flash step with power on leaves the file it would have replaced as it was.
- Buffers of the HTTPS exchange, the receiver and the strings of the firmware are values assigned as a whole; aliasing and partial string copies are not modelled.
- The management path that discards a queue head on MQTT, the ESP8266 upload path, MQTT, TLS, Wi-Fi, BLE pairing, the web interface, the displays, sensor filtering and battery curves.
- `RuntimeSettings` migrations, `CsvLogger` framing, `HttpsPacing` intervals, `DashTelemetry`, provisioning and release scripts: smaller or presentational.
