/**
 Delivery of captured snapshots: capture appends to the queue (and rotates it when it
 is full) while at most one request is in flight, and replies resolve queue records.
 */
module LiveUpload {
  import opened Bytes
  import opened SegmentLog
  import opened Flash
  import opened QueueDisk
  import opened QueueSteps
  import opened StoreForwardQueue
  import opened RejectedUploads
  import opened DeliveryLedger
  import opened UploadEnvelope

  /** The fields of a reply's JSON body that decide acceptance. */
  datatype Answer = Answer(ok: bool, accepted: bool, batchId: bytes, count: nat)

  /** `batching` is what the body of a status reply says of batches, if it can be read. */
  datatype Reply = Reply(status: int, body: Option<Answer>, permanent: bool, batching: Option<bool>)

  /** Only this counts as the server's word that it has the snapshot. */
  predicate StrictSnapshot(r: Reply)
  {
    r.status == 200 && r.body.Some? && r.body.value.accepted && r.body.value.ok
  }

  predicate StrictBatch(r: Reply, id: bytes, n: nat)
  {
    StrictSnapshot(r) && 1 <= n <= BATCH_RECORDS && |id| == BATCH_ID_LENGTH && r.body.value.batchId == id &&
    r.body.value.count == n
  }

  /** Anything less, or for another batch, is no acknowledgement. */
  lemma LessIsNotStrict(r: Reply, id: bytes, n: nat)
    ensures r.status != 200 || r.body.None? || !r.body.value.accepted || !r.body.value.ok ==>
      !StrictSnapshot(r) && !StrictBatch(r, id, n)
    ensures r.body.Some? && (r.body.value.batchId != id || r.body.value.count != n) ==> !StrictBatch(r, id, n)
    ensures |id| != 32 || n == 0 || n > 8 ==> !StrictBatch(r, id, n)
    ensures StrictSnapshot(Reply(200, Some(Answer(true, true, id, n)), false, None))
    ensures StrictBatch(Reply(200, Some(Answer(true, true, id, n)), false, None), id, n) <==> |id| == 32 && 1 <= n <= 8
  {
  }

  datatype Resolution = ReplayRetained | RecordArchived | ArchiveFailed | AdvanceFailed

  datatype Operation = NoOperation | Snapshot | Batch | Status

  class LiveUpload {
    const device: Device
    const deviceId: bytes
    var queue: Queue
    var archive: Archive
    var operation: Operation
    var inFlight: Payload
    var durableInFlight: bool
    var volatilePayload: Payload
    var batch: seq<Payload>
    var batchId: bytes
    var envelope: bytes
    var batchAcknowledged: bool
    var batchAckIndex: nat
    var batchEnabled: bool
    var singlesRemaining: nat
    ghost var ledger: Ledger
    /** The records in the request the worker holds, and where the ledger has them. */
    ghost var sent: seq<Payload>
    ghost var sentAt: nat
    ghost var batchAt: nat
    /** The events the device has lived through with power, in order. */
    ghost var seen: seq<Event>

    /** Power on for the first time: whatever the flash would replay is what has been accepted so far. */
    constructor (device: Device, deviceId: bytes, format: Format, archiveFormat: ArchiveFormat)
      requires DeviceId(deviceId)
      requires SoundFormat(format) && SoundArchive(archiveFormat)
      requires Distinct(Replay(format, device.files))
      ensures this.device == device && this.deviceId == deviceId && Accounted() && Wired() && Recoverable()
      ensures ledger == Ledger(Replay(format, device.files), [], {})
    {
      hide Live, LiveEnd, View, Replay, Boot, SoundFormat, SoundArchive;
      this.device, this.deviceId := device, deviceId;
      queue := new Queue(device, format);
      archive := new Archive(device, archiveFormat);
      operation, inFlight, durableInFlight, volatilePayload := NoOperation, [], false, [];
      batch, batchId, envelope, batchAcknowledged, batchAckIndex := [], [], [], false, 0;
      batchEnabled, singlesRemaining := false, 0;
      ledger := Ledger(Replay(format, device.files), [], {});
      sent, sentAt, batchAt, seen := [], 0, 0, [];
    }

    ghost predicate Accounted()
      reads this`queue, this`archive, this`ledger, archive, device
      reads queue`metadata, queue`tail, queue`count, queue`segmentMaximumBytes, queue`ready
    {
      && queue.device == device && archive.device == device
      && queue.Valid() && archive.Valid()
      && (queue.ready ==>
          && archive.ready
          && Explained(archive.format, device.files, ledger, queue.Contents(), queue.metadata.dropped)
          && Counted(queue.format, device.files, queue.metadata))
    }

    ghost function Now(): Moment
      reads this`queue, this`archive, this`ledger, queue`metadata, queue`segmentMaximumBytes, queue`ready, device
    {
      Moment(queue.format, archive.format, device.files, queue.metadata, queue.segmentMaximumBytes, queue.ready,
        device.powered, ledger)
    }

    /** A power cut now would lose nothing: the next boot recovers the account. */
    ghost predicate Recoverable()
      reads this`queue, this`archive, this`ledger, queue`metadata, queue`segmentMaximumBytes, queue`ready, device
    {
      RecoverableAt(Now())
    }

    /** A final commit has failed, and nothing has been appended since. */
    ghost predicate AheadOfFlash()
      reads this`queue, this`archive, this`ledger, queue`metadata, queue`segmentMaximumBytes, queue`ready, device
    {
      BehindAt(Now())
    }

    ghost predicate Committed()
      reads this`queue, this`archive, this`ledger, queue`metadata, queue`segmentMaximumBytes, queue`ready, device
    {
      CommittedAt(Now())
    }

    /** What is being sent is in the ledger, and a batch being drained is behind where the queue now starts. */
    ghost predicate Wired()
      reads this`operation, this`inFlight, this`durableInFlight, this`sent, this`sentAt, this`ledger, this`batch,
        this`batchId, this`envelope, this`batchAcknowledged, this`batchAckIndex, this`batchAt, this`queue, queue`ready
    {
      && (operation.Snapshot? ==> sent == [inFlight])
      && (operation.Snapshot? && durableInFlight ==> Placed(ledger, sent, sentAt))
      && (operation.Batch? ==> sent == batch && envelope != [] && !batchAcknowledged)
      && (envelope != [] ==> 1 < |batch| <= BATCH_RECORDS && |batchId| == BATCH_ID_LENGTH && |envelope| <= BODY_LIMIT)
      && (envelope != [] ==> envelope == Envelope(deviceId, batchId, batch))
      && (batch != [] ==> queue.ready && Placed(ledger, batch, batchAt))
      && (batchAcknowledged ==>
           operation.NoOperation? && batchAckIndex <= |batch| && batchAt + batchAckIndex <= |ledger.fates|)
      && (batchAcknowledged ==> AllConfirmed(ledger, batch))
    }

    /**
     Acknowledge one record, or give it up after archiving it: it leaves the queue if it is
     still the oldest, and nothing else ever does.
     */
    method Depart(payload: Payload, fate: Fate) returns (ok: bool)
      requires Accounted() && device.powered && fate != Lost
      requires fate == Acknowledged ==> payload in ledger.confirmed
      requires fate == Preserved ==> Archived(archive.format, device.files, payload)
      modifies device, queue`metadata, queue`tail, queue`count, queue`lastError, this`ledger
      ensures device.powered ==> Accounted()
      ensures Turned(device.reliable, old(Now()), Now())
      ensures SameSlots(old(device.files), device.files)
      ensures ledger == old(ledger) || (old(queue.Matches(payload)) && ledger == Resolved(old(ledger), fate))
      ensures ok && old(queue.Matches(payload)) ==> device.powered && ledger == Resolved(old(ledger), fate)
      ensures old(!queue.Matches(payload)) ==> device.files == old(device.files)
      ensures old(queue.ready && Committed()) && ok && device.powered ==> Committed()
      ensures device.powered && ledger.fates != old(ledger).fates ==>
        if queue.lastError == MetadataWriteFailed then AheadOfFlash() else Committed()
      ensures device.reliable && ledger.fates != old(ledger).fates ==> queue.lastError == NoFault
      ensures device.reliable ==> device.powered && (queue.ready ==> ok)
    {
      hide Retained, DurablyRetained, HeadBehind, Behind, Live, LiveEnd, View, SegmentLive, Indexed, Content, Aligned,
        Replay, Boot, Explained, SoundFormat, Tallied, Counted, SameSlots, SoundArchive, OccupiedBelow,
        Queue.Reclaimed, Queue.Tidy;
      ghost var fm, af, files0, m0, l0 := queue.format, archive.format, device.files, queue.metadata, ledger;
      TallyNothing(fm, files0, m0, m0);
      TallyFacts(fm, files0, m0, files0, m0);
      ghost var before, matched, recoverable := queue.Contents(), queue.Matches(payload), Recoverable();
      ok := queue.PopIfMatches(payload, false);
      ghost var now := if device.powered then queue.Contents() else Replay(fm, device.files);
      ghost var d := if device.powered then queue.metadata.dropped else Boot(fm, device.files).dropped;
      TallyFacts(fm, files0, m0, device.files, queue.metadata);
      SlotsOccupied(files0, device.files, REJECTED_SLOTS);
      if matched && recoverable {
        PendingUnique(af, files0, l0, before, m0.dropped, Replay(fm, files0), Boot(fm, files0).dropped);
      }
      if matched && (device.powered || recoverable) {
        SettleExplained(af, files0, device.files, l0, before, now, m0.dropped, d, fate);
        ledger := AfterSettle(l0, before, now, fate);
      }
    }

    /** The same, with what is in flight and the batch being drained still in their places. */
    method Settle(payload: Payload, fate: Fate) returns (ok: bool)
      requires Accounted() && Wired() && device.powered && fate != Lost
      requires fate == Acknowledged ==> payload in ledger.confirmed
      requires fate == Preserved ==> Archived(archive.format, device.files, payload)
      modifies device, queue`metadata, queue`tail, queue`count, queue`lastError, this`ledger
      ensures Wired() && (device.powered ==> Accounted())
      ensures Turned(device.reliable, old(Now()), Now())
      ensures SameSlots(old(device.files), device.files)
      ensures ledger == old(ledger) || (old(queue.Matches(payload)) && ledger == Resolved(old(ledger), fate))
      ensures ok && old(queue.Matches(payload)) ==> device.powered && ledger == Resolved(old(ledger), fate)
      ensures old(!queue.Matches(payload)) ==> device.files == old(device.files)
      ensures old(queue.ready && Committed()) && ok && device.powered ==> Committed()
      ensures device.powered && ledger.fates != old(ledger).fates ==>
        if queue.lastError == MetadataWriteFailed then AheadOfFlash() else Committed()
      ensures device.reliable && ledger.fates != old(ledger).fates ==> queue.lastError == NoFault
      ensures device.reliable ==> device.powered && (queue.ready ==> ok)
    {
      hide Turned, Accounted, Recoverable, Committed, AheadOfFlash, Placed, Grown, AllConfirmed, SameSlots, Envelope,
        View, Replay, Boot;
      ghost var l0 := ledger;
      ok := Depart(payload, fate);
      ResolvedGrows(l0, fate);
      StillPlaced(l0, ledger, sent, sentAt);
      StillPlaced(l0, ledger, batch, batchAt);
      StillConfirmed(l0, ledger, batch);
    }

    /** The records behind the next segment to be given up, with `payload`, no longer fit in one segment. */
    ghost predicate Crowded(payload: Payload)
      reads queue`metadata, queue`segmentMaximumBytes, queue.device, this`queue
      requires Shaped(queue.metadata)
    {
      |EncodeAll(queue.format.framing, queue.Newer() + [payload])| > queue.segmentMaximumBytes
    }

    lemma FullBefore(payload: Payload)
      requires queue.Valid() && queue.ready && queue.Orderly() && queue.Rotates(payload) && Storable(payload)
      requires SegmentLive(queue.format, queue.device.files, queue.metadata, Other(queue.metadata.active)) != []
      ensures Crowded(payload)
    {
      hide Live, LiveEnd, EncodeAll, Indexed, Retained;
      RotationMeansFull(queue.format, queue.device.files, queue.metadata, queue.tail, queue.count,
        queue.segmentMaximumBytes, payload);
    }

    /**
     Capture into the queue. Only an append that failed on the flash leaves it needing the next
     boot's repair, and only an append while memory is ahead of the flash can make a cut lose
     anything; a rotation that succeeds ends that.
     */
    method Record(payload: Payload) returns (ok: bool)
      requires Accounted() && device.powered && queue.ready && payload !in ledger.accepted
      modifies device, queue`metadata, queue`tail, queue`count, queue`lastError, this`ledger
      ensures device.powered ==>
        ok || queue.lastError != AppendFailed || !old(queue.Accepts(payload)) || device.reliable ==> Accounted()
      ensures SameSlots(old(device.files), device.files)
      ensures Captures(old(ledger), ledger, payload, |old(queue.Contents())| - |old(queue.Newer())|)
      ensures OrderlyAt(old(Now())) ==> OrderlyAt(Now())
      ensures old(Recoverable() && queue.Covered(payload)) ==> Recoverable() && (KeptAt(old(Now())) ==> KeptAt(Now()))
      ensures DropsUnknown(old(Now())) ==> DropsUnknown(Now())
      ensures (ok ==> device.powered) &&
        (device.powered ==> ledger.accepted == old(ledger).accepted + if ok then [payload] else [])
      ensures ledger.fates != old(ledger).fates && OrderlyAt(old(Now())) ==> old(Crowded(payload))
      ensures Leaves(old(Now()), Now(), ok, old(queue.Accepts(payload)), old(queue.Rotates(payload)),
        old(queue.Covered(payload)), queue.lastError)
      ensures device.powered && old(queue.Accepts(payload) && queue.Rotates(payload)) &&
              (ok || queue.lastError == AppendFailed) ==>
        Recoverable() && (OrderlyAt(Now()) ==> KeptAt(Now()))
      ensures !old(queue.Accepts(payload)) ==> ledger == old(ledger)
      ensures !old(queue.Accepts(payload)) ==> device.powered
      ensures device.reliable ==> device.powered && (ok <==> old(queue.Accepts(payload)))
    {
      hide Live, LiveEnd, View, SegmentLive, Indexed, Content, Aligned, Replay, Boot, Explained, SoundFormat, Tallied,
        Counted, SameSlots, SoundArchive, OccupiedBelow, Retained, DurablyRetained, EncodeAll, LedgerAfter, Enqueued,
        Crowded, Captures, RecoverableAt, Behind, Queue.Covered;
      ghost var a := Now();
      Parts();
      RotatesWhenFull(payload);
      ghost var accepts, rotates := queue.Accepts(payload), queue.Accepts(payload) && queue.Rotates(payload);
      ghost var covered := queue.Covered(payload);
      ok := Attempt(payload);
      ghost var b := Now();
      CaptureStep(a, b, payload, ok, accepts, rotates, covered);
      SlotsOccupied(a.files, b.files, REJECTED_SLOTS);
      if !accepts { RefusedCapture(a, b, payload, ok, rotates, covered); }
      ledger := LedgerAfter(a, b, payload, covered);
      if device.powered && rotates && Committed() { LevelIsSafe(Now()); }
    }

    lemma RotatesWhenFull(payload: Payload)
      requires Accounted() && queue.ready
      ensures OrderlyAt(Now()) && queue.Accepts(payload) && queue.Rotates(payload) && OlderAt(Now()) != [] ==>
        Crowded(payload)
      ensures |OlderAt(Now())| == |queue.Contents()| - |queue.Newer()|
    {
      hide Crowded, Retained, SegmentLive, Live, Indexed, Explained;
      OlderNewer(Now());
      if queue.Orderly() && queue.Accepts(payload) && queue.Rotates(payload) && OlderAt(Now()) != [] {
        FullBefore(payload);
      }
    }

    /** The queue's part of a capture. */
    method Attempt(payload: Payload) returns (ok: bool)
      requires Accounted() && device.powered && queue.ready && payload !in ledger.accepted
      modifies device, queue`metadata, queue`tail, queue`count, queue`lastError
      ensures Shaped(queue.metadata) && SameSlots(old(device.files), device.files)
      ensures device.powered ==> Counted(queue.format, device.files, queue.metadata)
      ensures Enqueued(old(Now()), Now(), payload, ok, old(queue.Accepts(payload)),
        old(queue.Accepts(payload) && queue.Rotates(payload)), old(queue.Covered(payload)))
      ensures device.powered ==>
        ok || queue.lastError != AppendFailed || !old(queue.Accepts(payload)) || device.reliable ==> queue.Valid()
      ensures (ok ==> device.powered) && (device.powered ==> (ok <==> payload in queue.Contents()))
      ensures OrderlyAt(old(Now())) ==> OrderlyAt(Now())
      ensures old(queue.Covered(payload)) && KeptAt(old(Now())) ==> KeptAt(Now())
      ensures Leaves(old(Now()), Now(), ok, old(queue.Accepts(payload)), old(queue.Rotates(payload)),
        old(queue.Covered(payload)), queue.lastError)
      ensures !old(queue.Accepts(payload)) ==> device.powered
      ensures device.reliable ==> device.powered && (ok <==> old(queue.Accepts(payload)))
    {
      hide Live, LiveEnd, View, SegmentLive, Indexed, Content, Aligned, Replay, Boot, Explained, SoundFormat, Tallied,
        Counted, SameSlots, SoundArchive, OccupiedBelow, Retained, DurablyRetained, CaptureOutcome, EnqueueOutcome,
        SaturatingAdd, OrderBehind, Behind, Queue.Covered;
      ghost var a := Now();
      OlderNewer(a);
      ghost var accepts, rotates := queue.Accepts(payload), queue.Accepts(payload) && queue.Rotates(payload);
      IndexCounts(a.format, a.files, a.metadata, queue.tail, queue.count, Other(a.metadata.active));
      ok := queue.Enqueue(payload);
      ghost var b := Now();
      TallyGrows(a, b);
      PendingAccepted(a.archive, a.files, a.ledger, OlderAt(a) + NewerAt(a), a.metadata.dropped);
      if device.powered && accepts {
        DoneOutcome(OlderAt(a), NewerAt(a), a.metadata.dropped, PendingAt(b), b.metadata.dropped, payload, ok, rotates);
      }
    }

    /** A snapshot goes to the queue: there is one that takes it, and the device has a credential. */
    predicate Stores(payload: Payload, authorized: bool)
      reads this`queue, queue`ready, queue`segmentMaximumBytes
    {
      authorized && queue.Accepts(payload)
    }

    /**
     A snapshot was taken: into the queue, or into the one volatile slot when there is no queue.
     `authorized` is false while the device has no credential for its identity.
     */
    method Capture(payload: Payload, authorized: bool) returns (ok: bool)
      requires Accounted() && Wired() && device.powered && payload != [] && payload !in ledger.accepted
      modifies device, queue`metadata, queue`tail, queue`count, queue`lastError, this`ledger, this`volatilePayload
      ensures Wired() && SameSlots(old(device.files), device.files)
      ensures device.powered ==>
        ok || queue.lastError != AppendFailed || !old(Stores(payload, authorized)) || device.reliable ==> Accounted()
      ensures old(Recoverable() && (Stores(payload, authorized) ==> queue.Covered(payload))) ==>
        Recoverable() && (KeptAt(old(Now())) ==> KeptAt(Now()))
      ensures OrderlyAt(old(Now())) ==> OrderlyAt(Now())
      ensures DropsUnknown(old(Now())) ==> DropsUnknown(Now())
      ensures old(Stores(payload, authorized)) ==>
        Leaves(old(Now()), Now(), ok, true, old(queue.Rotates(payload)), old(queue.Covered(payload)), queue.lastError)
      ensures old(Stores(payload, authorized) && queue.Rotates(payload)) && device.powered &&
              (ok || queue.lastError == AppendFailed) ==>
        Recoverable() && (OrderlyAt(Now()) ==> KeptAt(Now()))
      ensures (ok ==> device.powered) &&
        (device.powered ==> ledger.accepted == old(ledger).accepted + if ok && queue.ready then [payload] else [])
      ensures ledger.accepted == old(ledger).accepted || ledger.accepted == old(ledger).accepted + [payload]
      ensures OnlyLosses(old(ledger).fates, ledger.fates) && ledger.confirmed == old(ledger).confirmed
      ensures ledger.fates != old(ledger).fates && OrderlyAt(old(Now())) ==> old(Crowded(payload))
      ensures !old(Stores(payload, authorized)) ==>
        device.powered && device.files == old(device.files) && ledger == old(ledger) &&
        queue.metadata == old(queue.metadata)
      ensures ok ==> if queue.ready then old(Stores(payload, authorized)) else authorized && old(volatilePayload) == []
      ensures !queue.ready && authorized && old(volatilePayload) == [] ==> ok
      ensures volatilePayload == if ok && !queue.ready then payload else old(volatilePayload)
      ensures device.reliable ==> device.powered && (old(Stores(payload, authorized)) ==> ok)
    {
      hide Accounted, Crowded, Placed, AllConfirmed, SoundFormat, Retained, DurablyRetained, RecoverableAt, CommittedAt,
        BehindAt, OrderlyAt, KeptAt, DropsUnknown, Queue.Covered, Envelope, SameSlots;
      SlotsItself(device.files);
      NothingLost(ledger);
      Parts();
      if !authorized {
        return false;
      }
      if !queue.ready {
        ok := volatilePayload == [];
        if ok {
          volatilePayload := payload;
        }
        return;
      }
      ghost var l0 := ledger;
      ok := Record(payload);
      StillPlaced(l0, ledger, sent, sentAt);
      StillPlaced(l0, ledger, batch, batchAt);
      StillConfirmed(l0, ledger, batch);
    }

    /** Acknowledge the batch member whose turn it is; the turn passes unless that could not be made durable. */
    method AcknowledgeNext()
      requires Accounted() && Wired() && device.powered && batchAcknowledged && batchAckIndex < |batch|
      modifies device, queue`metadata, queue`tail, queue`count, queue`lastError, this`ledger, this`batchAckIndex
      ensures device.powered ==> Accounted()
      ensures Wired() && Turned(device.reliable, old(Now()), Now())
      ensures SameSlots(old(device.files), device.files)
      ensures old(batchAckIndex) <= batchAckIndex <= old(batchAckIndex) + 1
      ensures ledger == old(ledger) ||
        (old(|ledger.fates| == batchAt + batchAckIndex) && ledger == Resolved(old(ledger), Acknowledged))
      ensures batchAckIndex > old(batchAckIndex) ==> |ledger.fates| > batchAt + old(batchAckIndex)
      ensures device.reliable ==> device.powered && batchAckIndex == old(batchAckIndex) + 1
      ensures device.reliable && old(|ledger.fates| == batchAt + batchAckIndex) ==>
        ledger == Resolved(old(ledger), Acknowledged)
      ensures device.powered && ledger.fates != old(ledger).fates ==>
        if queue.lastError == MetadataWriteFailed then AheadOfFlash() else Committed()
      ensures device.reliable && ledger.fates != old(ledger).fates ==> queue.lastError == NoFault
    {
      hide Turned, Accounted, Recoverable, Committed, AheadOfFlash, Placed, Grown, AllConfirmed, SoundFormat, Aligned,
        SameSlots, View, Indexed, Replay, Boot, Explained;
      HeadOfBatch(batchAckIndex);
      ConfirmedMember(ledger, batch, batchAckIndex);
      var ok := Settle(batch[batchAckIndex], Acknowledged);
      if ok {
        batchAckIndex := batchAckIndex + 1;
      }
    }

    /**
     One turn of a confirmed batch's drain: at most one record leaves, it is the batch member
     whose turn it is, and it leaves unless it had left before.
     */
    method Drain() returns (busy: bool)
      requires Accounted() && Wired() && device.powered
      modifies device, queue`metadata, queue`tail, queue`count, queue`lastError, this`ledger,
        this`batch, this`batchId, this`envelope, this`batchAcknowledged, this`batchAckIndex
      ensures device.powered ==> Accounted()
      ensures Wired() && Turned(device.reliable, old(Now()), Now())
      ensures SameSlots(old(device.files), device.files)
      ensures busy <==> old(Draining())
      ensures busy ==> batch == old(batch) && old(batchAckIndex) <= batchAckIndex <= old(batchAckIndex) + 1
      ensures busy && batchAckIndex > old(batchAckIndex) ==> |ledger.fates| > batchAt + old(batchAckIndex)
      ensures !busy ==>
        queue.count == old(queue.count) && !batchAcknowledged && ledger == old(ledger) &&
        device.files == old(device.files) && device.powered
      ensures !busy && old(batchAcknowledged) ==>
        batch == [] && batchId == [] && envelope == [] && |ledger.fates| >= batchAt + |old(batch)|
      ensures !busy && !old(batchAcknowledged) ==>
        batch == old(batch) && envelope == old(envelope) && batchId == old(batchId)
      ensures ledger == old(ledger) ||
        (busy && old(|ledger.fates| == batchAt + batchAckIndex) && ledger == Resolved(old(ledger), Acknowledged))
      ensures device.reliable && busy ==> device.powered && batchAckIndex == old(batchAckIndex) + 1
      ensures device.reliable && busy && old(|ledger.fates| == batchAt + batchAckIndex) ==>
        ledger == Resolved(old(ledger), Acknowledged)
      ensures if busy then batchAcknowledged else batchAckIndex == old(batchAckIndex)
      ensures device.powered && ledger.fates != old(ledger).fates ==>
        if queue.lastError == MetadataWriteFailed then AheadOfFlash() else Committed()
      ensures device.reliable && ledger.fates != old(ledger).fates ==> queue.lastError == NoFault
    {
      hide Turned, Accounted, Recoverable, Committed, AheadOfFlash, Placed, AllConfirmed, SameSlots;
      SlotsItself(device.files);
      NothingTurned(device.reliable, Now());
      if !batchAcknowledged {
        return false;
      }
      if batchAckIndex < |batch| {
        AcknowledgeNext();
        return true;
      }
      batchAcknowledged, batch, batchId, envelope := false, [], [], [];
      busy := false;
    }

    /**
     One turn of a drain, or a snapshot taken between two. The drain ends with power, a failed
     append, or the batch.
     */
    method DrainStep(step: Interleaved, payload: Payload) returns (going: bool)
      requires Accounted() && Wired() && device.powered && batchAcknowledged
      requires payload != [] && payload !in ledger.accepted
      modifies device, queue`metadata, queue`tail, queue`count, queue`lastError, this`ledger, this`volatilePayload,
        this`batch, this`batchId, this`envelope, this`batchAcknowledged, this`batchAckIndex
      ensures Wired() && SameSlots(old(device.files), device.files)
      ensures going ==>
        Accounted() && device.powered && batchAcknowledged && batch == old(batch) && batchAckIndex >= old(batchAckIndex)
      ensures !batchAcknowledged ==>
        Accounted() && device.powered && batch == [] && |ledger.fates| >= old(batchAt + |batch|)
      ensures Drains(old(ledger), ledger, old(batchAt + |batch|))
      ensures step.DrainTurn? ==>
        ledger.accepted == old(ledger).accepted && OnlyAcknowledged(old(ledger).fates, ledger.fates)
      ensures ledger.accepted == old(ledger).accepted || ledger.accepted == old(ledger).accepted + [payload]
      ensures device.reliable ==> going == batchAcknowledged
      ensures device.reliable && going && step.DrainTurn? ==> batchAckIndex == old(batchAckIndex) + 1
    {
      hide Accounted, Recoverable, Committed, AheadOfFlash, Placed, AllConfirmed, SameSlots, Envelope, Turned, Wired,
        RecoverableAt, OrderlyAt, KeptAt, CommittedAt, Crowded;
      InFlightIsSent();
      match step
      case DrainTurn =>
        var busy := Drain();
        going := busy && device.powered;
      case NewSnapshot(authorized) =>
        var ok := Capture(payload, authorized);
        going := device.powered && (ok || queue.lastError != AppendFailed || !queue.ready || !authorized ||
          device.reliable);
    }

    /**
     The turns of one drain with any snapshots taken, and records rotated away, in between, and
     any step failing: whatever leaves within the batch has been acknowledged or is a counted loss,
     nothing behind it is taken for acknowledged, and a drain that has ended has emptied the batch.
     */
    method DrainAll(steps: seq<Interleaved>, payloads: seq<Payload>) returns (done: bool)
      requires Accounted() && Wired() && device.powered && batchAcknowledged && |steps| == |payloads| &&
               AllNew(ledger, payloads)
      modifies device, queue`metadata, queue`tail, queue`count, queue`lastError, this`ledger, this`volatilePayload,
        this`batch, this`batchId, this`envelope, this`batchAcknowledged, this`batchAckIndex
      ensures Wired() && SameSlots(old(device.files), device.files)
      ensures Drains(old(ledger), ledger, old(batchAt + |batch|))
      ensures done ==>
        Accounted() && device.powered && !batchAcknowledged && batch == [] && |ledger.fates| >= old(batchAt + |batch|)
      ensures device.reliable && DrainTurns(steps) > old(|batch| - batchAckIndex) ==> done
      ensures (forall step | step in steps :: step.DrainTurn?) ==>
        ledger.accepted == old(ledger).accepted && OnlyAcknowledged(old(ledger).fates, ledger.fates)
      ensures done && (forall step | step in steps :: step.DrainTurn?) ==>
        |ledger.fates| == if old(|ledger.fates| < batchAt + |batch|) then old(batchAt + |batch|)
          else old(|ledger.fates|)
    {
      hide Accounted, Recoverable, Committed, AheadOfFlash, Placed, AllConfirmed, SameSlots, Envelope, Wired, AllNew,
        Drains;
      ghost var files0, l0, end := device.files, ledger, batchAt + |batch|;
      SlotsItself(files0);
      NothingDrained(l0, end);
      done := false;
      var going, i := true, 0;
      assert steps[..0] == [];
      BatchBounds();
      while going && i < |steps|
        invariant i <= |steps| && Wired() && SameSlots(files0, device.files)
        invariant going ==>
          Accounted() && device.powered && batchAcknowledged && batch == old(batch) && batchAckIndex <= |batch|
        invariant done ==> Accounted() && device.powered && batch == [] && |ledger.fates| >= end
        invariant done == !batchAcknowledged && Drains(l0, ledger, end) && AllNew(ledger, payloads[i..])
        invariant device.reliable ==> going == batchAcknowledged
        invariant device.reliable && going ==> DrainTurns(steps[..i]) <= batchAckIndex - old(batchAckIndex)
        invariant (forall step | step in steps[..i] :: step.DrainTurn?) ==>
          ledger.accepted == l0.accepted && OnlyAcknowledged(l0.fates, ledger.fates)
      {
        ghost var files1, l1 := device.files, ledger;
        NextIsNew(ledger, payloads, i);
        going := DrainStep(steps[i], payloads[i]);
        done := !batchAcknowledged;
        BatchBounds();
        SlotsChain(files0, files1, device.files);
        DrainsChain(l0, l1, ledger, end);
        StillNew(l1, ledger, payloads, i);
        assert steps[..i + 1] == steps[..i] + [steps[i]] && steps[..i + 1][..i] == steps[..i];
        i := i + 1;
      }
      assert steps[..|steps|] == steps;
      DrainedCount(l0, ledger, end);
    }

    /** The queue's oldest record, or a batch, is with the server. */
    ghost predicate Asking()
      reads this`operation, this`durableInFlight, this`inFlight, this`queue, queue`ready, queue`metadata, queue.device
    {
      operation.Batch? || (operation.Snapshot? && durableInFlight && Shaped(queue.metadata) && queue.Matches(inFlight))
    }

    /** A turn now goes to the batch being drained. */
    predicate Draining()
      reads this`batchAcknowledged, this`batchAckIndex, this`batch
    {
      batchAcknowledged && batchAckIndex < |batch|
    }

    lemma BatchBounds()
      requires Wired()
      ensures batchAcknowledged ==> batchAckIndex <= |batch|
    {
    }

    /** The reply is the server's strict acknowledgement of the request in flight. */
    predicate Strict(reply: Reply)
      reads this
    {
      (operation.Snapshot? && StrictSnapshot(reply)) || (operation.Batch? && StrictBatch(reply, batchId, |batch|))
    }

    /** The reply settles the one record in flight: acknowledged, or rejected for good because of its content. */
    predicate Resolves(reply: Reply)
      reads this
    {
      operation.Snapshot? && (StrictSnapshot(reply) || (reply.permanent && PayloadRejected(reply.status)))
    }

    /** An acknowledged snapshot: advance the queue, or free the volatile slot. */
    method AcceptSnapshot()
      requires Accounted() && Wired() && device.powered && operation.Snapshot? && inFlight in ledger.confirmed
      modifies device, queue`metadata, queue`tail, queue`count, queue`lastError, this`ledger, this`volatilePayload,
        this`singlesRemaining
      ensures device.powered ==> Accounted()
      ensures Wired() && Turned(device.reliable, old(Now()), Now())
      ensures SameSlots(old(device.files), device.files)
      ensures ledger == old(ledger) || (old(queue.Matches(inFlight)) && ledger == Resolved(old(ledger), Acknowledged))
      ensures device.reliable && durableInFlight && old(queue.Matches(inFlight)) ==>
        ledger == Resolved(old(ledger), Acknowledged)
      ensures device.powered && ledger.fates != old(ledger).fates ==>
        if queue.lastError == MetadataWriteFailed then AheadOfFlash() else Committed()
      ensures durableInFlight ==> volatilePayload == old(volatilePayload)
      ensures !durableInFlight ==>
        && ledger == old(ledger) && device.files == old(device.files)
        && (if old(volatilePayload) == inFlight then volatilePayload == [] &&
             singlesRemaining == OneLess(old(singlesRemaining))
            else volatilePayload == old(volatilePayload) && singlesRemaining == old(singlesRemaining))
      ensures device.reliable && durableInFlight && queue.ready ==> singlesRemaining == OneLess(old(singlesRemaining))
      ensures device.reliable && ledger.fates != old(ledger).fates ==> queue.lastError == NoFault
    {
      hide Turned, Wired, Accounted, Recoverable, Committed, AheadOfFlash, Placed, Grown, AllConfirmed, SoundFormat,
        Aligned, SameSlots, View, Indexed, Replay, Boot, Explained, Envelope;
      SlotsItself(device.files);
      NothingTurned(device.reliable, Now());
      var advanced := false;
      if durableInFlight {
        advanced := Settle(inFlight, Acknowledged);
      } else if volatilePayload == inFlight {
        volatilePayload := [];
        advanced := true;
      }
      RecordResolved(advanced);
    }

    lemma InFlightIsSent()
      requires Wired()
      ensures operation.Snapshot? ==> sent == [inFlight]
      ensures !operation.NoOperation? ==> !batchAcknowledged
    {
    }

    /** Nothing is in flight any more. */
    method Conclude()
      requires Wired()
      modifies this`operation, this`inFlight
      ensures Wired() && operation == NoOperation && inFlight == if old(operation.Snapshot?) then [] else old(inFlight)
    {
      hide Placed, AllConfirmed, Envelope;
      operation, inFlight := NoOperation, if operation.Snapshot? then [] else inFlight;
    }

    /** One record fewer to send alone before batches are tried again. */
    method RecordResolved(advanced: bool)
      modifies this`singlesRemaining
      ensures singlesRemaining == if advanced then OneLess(old(singlesRemaining)) else old(singlesRemaining)
    {
      if advanced && singlesRemaining > 0 {
        singlesRemaining := singlesRemaining - 1;
      }
    }

    /** A permanent rejection of the payload itself: archive it, and only then let the queue advance. */
    method ResolveRejected(status: int, permanent: bool) returns (resolution: Resolution)
      requires Accounted() && Wired() && device.powered && operation.Snapshot?
      modifies device, queue`metadata, queue`tail, queue`count, queue`lastError, archive`rejectedRecords, this`ledger,
        this`singlesRemaining
      ensures device.powered ==> Accounted()
      ensures Wired() && Turned(device.reliable, old(Now()), Now())
      ensures SlotsKept(old(device.files), device.files)
      ensures ledger == old(ledger) || (old(queue.Matches(inFlight)) && ledger == Resolved(old(ledger), Preserved))
      ensures !permanent || !PayloadRejected(status) ==>
        resolution == ReplayRetained && device.files == old(device.files) && queue.metadata == old(queue.metadata) &&
        ledger == old(ledger)
      ensures device.reliable && permanent && PayloadRejected(status) && Storable(inFlight) ==>
        archive.ready && old(Room(device.files)) && (durableInFlight ==> queue.ready) ==> resolution.RecordArchived?
      ensures singlesRemaining ==
        if resolution.RecordArchived? then OneLess(old(singlesRemaining)) else old(singlesRemaining)
      ensures resolution.RecordArchived? ==> Archived(archive.format, device.files, inFlight)
      ensures resolution.RecordArchived? && old(queue.Matches(inFlight)) && durableInFlight ==>
        ledger == Resolved(old(ledger), Preserved)
      ensures device.powered && ledger.fates != old(ledger).fates ==>
        if queue.lastError == MetadataWriteFailed then AheadOfFlash() else Committed()
      ensures device.reliable && ledger.fates != old(ledger).fates ==> queue.lastError == NoFault
    {
      hide Turned, Wired, Accounted, Recoverable, Committed, AheadOfFlash, Placed, Grown, AllConfirmed, SoundFormat,
        Aligned, SameSlots, View, Indexed, Replay, Boot, Explained, Envelope, SlotsKept, Archived, ArchiveStep;
      ghost var af, files0, now0 := archive.format, device.files, Now();
      SameSlotsItself(files0);
      NothingTurned(device.reliable, now0);
      if !permanent || !PayloadRejected(status) {
        return ReplayRetained;
      }
      var saved := Preserve(status);
      ghost var files1, now1 := device.files, Now();
      if !saved {
        return ArchiveFailed;
      }
      var advanced := true;
      if durableInFlight {
        advanced := Settle(inFlight, Preserved);
        TurnedChain(device.reliable, now0, now1, Now());
        SameSlotsKept(files1, device.files);
        SlotsKeptChain(files0, files1, device.files);
        ArchivedKept(af, files1, device.files, inFlight);
      }
      if !advanced {
        return AdvanceFailed;
      }
      RecordResolved(true);
      resolution := RecordArchived;
    }

    /** Archiving leaves the queue, and what the next boot would replay, alone. */
    method Preserve(status: uint32) returns (saved: bool)
      requires Accounted() && device.powered && PayloadRejected(status)
      modifies device, archive`rejectedRecords
      ensures (device.powered || saved ==> Accounted() && device.powered) && (device.reliable ==> device.powered)
      ensures Turned(device.reliable, old(Now()), Now())
      ensures SlotsKept(old(device.files), device.files)
      ensures saved ==> Archived(archive.format, device.files, inFlight)
      ensures device.reliable && archive.ready && Storable(inFlight) && old(Room(device.files)) ==> saved
      ensures queue.Matches(inFlight) == old(queue.Matches(inFlight))
      ensures old(Archived(archive.format, device.files, inFlight)) ==> device.files == old(device.files)
    {
      hide Behind, Aligned, Retained, DurablyRetained, Live, LiveEnd, View, SegmentLive, Indexed, Content, Replay, Boot,
        Explained, SoundFormat, Counted, SameSlots, SoundArchive, OccupiedBelow, SlotsKept, Archived, ArchiveStep;
      ghost var fm, files0 := queue.format, device.files;
      saved := archive.PreserveRejected(inFlight, status);
      ArchiveSteps(archive.format, files0, device.files);
      ArchiveBoot(fm, files0, device.files, queue.metadata, queue.tail, queue.count, queue.segmentMaximumBytes);
      if queue.ready {
        KeptExplained(archive.format, files0, device.files, ledger, queue.Contents(), queue.metadata.dropped,
          queue.metadata.dropped);
      }
      if old(Recoverable()) {
        KeptExplained(archive.format, files0, device.files, ledger, Replay(fm, files0), Boot(fm, files0).dropped,
          Boot(fm, files0).dropped);
      }
    }

    /** The worker has the answer to the request in flight. */
    method Complete(reply: Reply)
      requires Accounted() && Wired() && device.powered && !operation.NoOperation?
      modifies device, queue`metadata, queue`tail, queue`count, queue`lastError, archive`rejectedRecords, this`ledger,
        this`operation, this`inFlight, this`volatilePayload, this`batch, this`batchId, this`envelope,
        this`batchAcknowledged, this`batchAckIndex, this`batchEnabled, this`singlesRemaining
      ensures device.powered ==> Accounted()
      ensures Wired() && operation == NoOperation && Turned(device.reliable, old(Now()), Now())
      ensures SlotsKept(old(device.files), device.files)
      ensures ledger.accepted == old(ledger).accepted
      ensures ledger.confirmed == old(ledger).confirmed + if old(Strict(reply)) then set p | p in old(sent) else {}
      ensures ledger.fates == old(ledger).fates ||
        (old(Resolves(reply)) && ledger.fates == old(ledger).fates
          + [if old(Strict(reply)) then Acknowledged else Preserved])
      ensures !old(Resolves(reply)) ==> device.files == old(device.files) && queue.metadata == old(queue.metadata)
      ensures batchAcknowledged <==> old(operation.Batch? && Strict(reply))
      ensures old(operation.Status?) && StrictSnapshot(reply) && reply.batching.Some? ==>
        batchEnabled == reply.batching.value
      ensures old(operation.Snapshot?) ||
              (old(operation.Status?) && (!StrictSnapshot(reply) || reply.batching.None?)) ==>
        batchEnabled == old(batchEnabled) && batch == old(batch) && envelope == old(envelope)
      ensures batchAcknowledged ==> batchAckIndex == 0 && batch == old(sent)
      ensures !old(Resolves(reply) || Strict(reply)) ==> ledger == old(ledger)
      ensures old(operation.Batch? && !Strict(reply)) && !PayloadRejected(reply.status) && reply.status != 404 &&
              reply.status != 405
        ==> batch == old(batch) && envelope == old(envelope) && batchId == old(batchId)
      ensures old(operation.Batch? && !Strict(reply)) && PayloadRejected(reply.status) ==>
        batch == [] && envelope == [] && singlesRemaining == |old(batch)| && batchEnabled == old(batchEnabled)
      ensures old(operation.Batch? && !Strict(reply)) && (reply.status == 404 || reply.status == 405) ==>
        !batchEnabled && batch == [] && envelope == [] && singlesRemaining == old(singlesRemaining)
      ensures device.reliable && old(operation.Snapshot? && durableInFlight && queue.Matches(inFlight)) &&
              StrictSnapshot(reply) ==>
        ledger.fates == old(ledger).fates + [Acknowledged]
      ensures old(operation.Snapshot?) ==>
        Freed(reply, old(Room(device.files)), old(inFlight), old(volatilePayload), old(singlesRemaining))
      ensures old(operation.Snapshot? && durableInFlight && queue.ready && queue.Matches(inFlight)) ==>
        !StrictSnapshot(reply) && Settled(old(inFlight), reply, old(Room(device.files))) ==>
          ledger.fates == old(ledger).fates + [Preserved]
      ensures device.powered && ledger.fates != old(ledger).fates ==>
        if queue.lastError == MetadataWriteFailed then AheadOfFlash() else Committed()
      ensures device.reliable && ledger.fates != old(ledger).fates ==> queue.lastError == NoFault
    {
      hide Turned, Wired, Accounted, Recoverable, Committed, AheadOfFlash, Placed, Grown, AllConfirmed, SoundFormat,
        Aligned, SameSlots, View, Indexed, Replay, Boot, Explained, Envelope, SlotsKept, RejectedUploads.Archived,
        Queue.Matches, Freed, Settled;
      SameSlotsItself(device.files);
      ghost var now0 := Now();
      NothingTurned(device.reliable, now0);
      InFlightIsSent();
      if Strict(reply) {
        Confirm();
      }
      ghost var now1 := Now();
      if operation.Batch? {
        CompleteBatch(reply);
      } else if operation.Snapshot? {
        CompleteSnapshot(reply);
        TurnedChain(device.reliable, now0, now1, Now());
      } else {
        CompleteStatus(reply);
      }
    }

    /** A heartbeat's answer, if it is one, says whether the server takes batches. */
    method CompleteStatus(reply: Reply)
      requires Wired() && operation.Status?
      modifies this`operation, this`inFlight, this`batchEnabled, this`batch, this`batchId, this`envelope
      ensures Wired() && operation == NoOperation
      ensures if StrictSnapshot(reply) && reply.batching.Some? then batchEnabled == reply.batching.value
        else
          && batchEnabled == old(batchEnabled) && batch == old(batch) && envelope == old(envelope)
          && batchId == old(batchId)
    {
      hide Wired;
      if StrictSnapshot(reply) && reply.batching.Some? {
        SetBatching(reply.batching.value);
      }
      Conclude();
    }

    /** On a device whose steps succeed this reply ends the matter: taken, or rejected with room to archive. */
    predicate Settled(payload: Payload, reply: Reply, room: bool)
      reads this`archive, archive`ready
    {
      && device.reliable
      && (StrictSnapshot(reply) ||
          (reply.permanent && PayloadRejected(reply.status) && archive.ready && Storable(payload) && room))
    }

    /**
     The volatile slot is freed only of `payload`, once taken or archived; and a reply that ends the
     matter frees it, or counts down the records to send alone.
     */
    ghost predicate Freed(reply: Reply, room: bool, payload: Payload, held: Payload, singles: nat)
      reads this`volatilePayload, this`durableInFlight, this`singlesRemaining, this`queue, queue`ready, this`archive,
        archive`ready, device
    {
      && (volatilePayload == held ||
          (volatilePayload == [] && !durableInFlight && held == payload &&
           (StrictSnapshot(reply) || RejectedUploads.Archived(archive.format, device.files, payload))))
      && (Settled(payload, reply, room) && (if durableInFlight then queue.ready else held == payload) ==>
           singlesRemaining == OneLess(singles) && (!durableInFlight ==> volatilePayload == []))
    }

    method CompleteSnapshot(reply: Reply)
      requires Accounted() && Wired() && device.powered && operation.Snapshot?
      requires StrictSnapshot(reply) ==> AllConfirmed(ledger, sent)
      modifies device, queue`metadata, queue`tail, queue`count, queue`lastError, archive`rejectedRecords, this`ledger,
        this`operation, this`inFlight, this`volatilePayload, this`singlesRemaining
      ensures device.powered ==> Accounted()
      ensures Wired() && operation == NoOperation && Turned(device.reliable, old(Now()), Now())
      ensures SlotsKept(old(device.files), device.files)
      ensures ledger == old(ledger) ||
        (old(Resolves(reply)) && ledger ==
          Resolved(old(ledger), if StrictSnapshot(reply) then Acknowledged else Preserved))
      ensures !old(Resolves(reply)) ==> device.files == old(device.files) && queue.metadata == old(queue.metadata)
      ensures device.reliable && StrictSnapshot(reply) && old(durableInFlight && queue.Matches(inFlight)) ==>
        ledger == Resolved(old(ledger), Acknowledged)
      ensures old(durableInFlight && queue.ready && queue.Matches(inFlight)) && !StrictSnapshot(reply) ==>
        Settled(old(inFlight), reply, old(Room(device.files))) ==> ledger == Resolved(old(ledger), Preserved)
      ensures device.powered && ledger.fates != old(ledger).fates ==>
        if queue.lastError == MetadataWriteFailed then AheadOfFlash() else Committed()
      ensures Freed(reply, old(Room(device.files)), old(inFlight), old(volatilePayload), old(singlesRemaining))
      ensures !old(Resolves(reply)) ==>
        singlesRemaining == old(singlesRemaining) && volatilePayload == old(volatilePayload)
      ensures device.reliable && ledger.fates != old(ledger).fates ==> queue.lastError == NoFault
    {
      hide Turned, Wired, Accounted, Recoverable, Committed, AheadOfFlash, Placed, AllConfirmed, SoundFormat, Aligned,
        SameSlots, View, Indexed, Replay, Boot, Explained, Envelope, SlotsKept, RejectedUploads.Archived,
        Queue.Matches;
      ghost var files0 := device.files;
      SameSlotsItself(files0);
      NothingTurned(device.reliable, Now());
      InFlightIsSent();
      if StrictSnapshot(reply) {
        ConfirmedMember(ledger, sent, 0);
        AcceptSnapshot();
        SameSlotsKept(files0, device.files);
      } else if reply.permanent {
        var resolution := ResolveRejected(reply.status, reply.permanent);
        if resolution.RecordArchived? && !durableInFlight && volatilePayload == inFlight {
          volatilePayload := [];
        }
      }
      Conclude();
    }

    /** The server's word covers exactly the records in the request. */
    ghost method Confirm()
      requires Accounted() && Wired()
      modifies this`ledger
      ensures Accounted() && Wired() && Turned(device.reliable, old(Now()), Now())
      ensures ledger == Confirmed(old(ledger), sent)
      ensures AllConfirmed(ledger, sent)
    {
      hide View, Indexed, SoundFormat, SoundArchive, Replay, Boot, Explained, Counted, Placed, Envelope, Content;
      ghost var fm, af, l0 := queue.format, archive.format, ledger;
      if queue.ready {
        ConfirmExplained(af, device.files, l0, queue.Contents(), queue.metadata.dropped, sent);
      }
      if Recoverable() {
        ConfirmExplained(af, device.files, l0, Replay(fm, device.files), Boot(fm, device.files).dropped, sent);
      }
      ledger := Confirmed(ledger, sent);
      StillPlaced(l0, ledger, sent, sentAt);
      StillPlaced(l0, ledger, batch, batchAt);
    }

    method CompleteBatch(reply: Reply)
      requires Wired() && operation.Batch? && (Strict(reply) ==> AllConfirmed(ledger, sent))
      modifies this`operation, this`batch, this`batchId, this`envelope, this`batchAcknowledged, this`batchAckIndex,
        this`batchEnabled, this`singlesRemaining
      ensures Wired() && operation.NoOperation?
      ensures batchAcknowledged <==> old(Strict(reply))
      ensures batchAcknowledged ==> batchAckIndex == 0 && batch == old(sent)
      ensures old(!Strict(reply)) && !PayloadRejected(reply.status) && reply.status != 404 && reply.status != 405
        ==> batch == old(batch) && envelope == old(envelope) && batchId == old(batchId)
      ensures old(!Strict(reply)) && PayloadRejected(reply.status) ==>
        batch == [] && batchId == [] && envelope == [] && singlesRemaining == |old(batch)| &&
        batchEnabled == old(batchEnabled)
      ensures old(!Strict(reply)) && (reply.status == 404 || reply.status == 405) ==>
        !batchEnabled && batch == [] && batchId == [] && envelope == [] && singlesRemaining == old(singlesRemaining)
    {
      hide AllConfirmed, Envelope;
      if Strict(reply) {
        batchAcknowledged, batchAckIndex := true, 0;
      } else if PayloadRejected(reply.status) {
        singlesRemaining := |batch|;
        batch, batchId, envelope := [], [], [];
      } else if reply.status == 404 || reply.status == 405 {
        batchEnabled := false;
        batch, batchId, envelope := [], [], [];
      }
      operation := NoOperation;
    }

    /** The records to deliver, oldest first. */
    ghost function Waiting(): seq<Payload>
      reads this`queue, queue`metadata, queue`ready, queue.device
    {
      if queue.ready && Shaped(queue.metadata) then queue.Contents() else []
    }

    function Pending(): nat
      reads this`queue, queue`count
      requires |queue.count| == 2
    {
      queue.count[0] + queue.count[1]
    }

    /** Hand a request to the worker, unless that is busy with someone else's. */
    method Send(next: Operation, ghost records: seq<Payload>, ghost at: nat, free: bool)
      requires operation.NoOperation?
      modifies this`operation, this`sent, this`sentAt
      ensures if free then operation == next && sent == records && sentAt == at
        else operation == old(operation) && sent == old(sent) && sentAt == old(sentAt)
    {
      if free {
        operation := next;
        sent, sentAt := records, at;
      }
    }

    /** A status heartbeat carries no record. */
    method Ask(free: bool)
      requires Wired() && operation.NoOperation? && !batchAcknowledged
      modifies this`operation, this`sent, this`sentAt
      ensures Wired() && operation == if free then Status else NoOperation
    {
      hide Placed, Envelope, AllConfirmed;
      Send(Status, [], 0, free);
    }

    /** The records of a new batch: the longest run of oldest records that the request can carry. */
    method TakeBatch() returns (ok: bool)
      requires Accounted() && Wired() && device.powered && operation.NoOperation? && !batchAcknowledged &&
               envelope == []
      modifies queue`lastError, this`batch, this`batchAt
      ensures Accounted() && Wired() && Now() == old(Now()) && (ok <==> batch != []) && batchAt == |ledger.fates|
      ensures LongestBatch(Waiting(), BATCH_RECORDS, BATCH_BUDGET, batch)
    {
      hide Accounted, Recoverable, Committed, AheadOfFlash, Placed, Explained, Live, LiveEnd, View, SegmentLive,
        Indexed, SoundFormat, Envelope, LongestBatch, AllConfirmed, Counted, Boot, Replay, Aligned, Content,
        Archive.Valid;
      Parts();
      ok, batch := queue.PeekBatch(BATCH_RECORDS, BATCH_BUDGET);
      EmptyBatch(Waiting(), BATCH_RECORDS, BATCH_BUDGET);
      batchAt := |ledger.fates|;
      if queue.ready {
        WithinBudget(queue.Contents(), BATCH_RECORDS, BATCH_BUDGET, batch);
        PlacedPrefix(archive.format, device.files, ledger, queue.Contents(), queue.metadata.dropped, batch);
      }
    }

    /** Make them a request, unless a single record is all there is. */
    method AssembleBatch(randomId: bytes) returns (ok: bool)
      requires Accounted() && Wired() && device.powered && operation.NoOperation? && !batchAcknowledged &&
               envelope == []
      requires |randomId| == BATCH_ID_LENGTH && DeviceId(deviceId)
      modifies queue`lastError, this`batch, this`batchId, this`envelope, this`batchAt
      ensures Accounted() && Wired() && Now() == old(Now())
      ensures ok <==> envelope != []
      ensures ok <==> |batch| > 1
      ensures batchAt == |ledger.fates|
      ensures LongestBatch(Waiting(), BATCH_RECORDS, BATCH_BUDGET, batch)
    {
      hide Accounted, Recoverable, Committed, AheadOfFlash, Placed, Envelope, LongestBatch, DeviceId, AllConfirmed,
        View;
      ok := TakeBatch();
      if !ok || |batch| <= 1 {
        return false;
      }
      WithinBudget(Waiting(), BATCH_RECORDS, BATCH_BUDGET, batch);
      batchId := randomId;
      envelope := BuildEnvelope(deviceId, batchId, batch);
      EnvelopeFits(deviceId, batchId, batch);
      if |envelope| > BODY_LIMIT {
        assert false;
      }
    }

    /** Start the next upload: the batch waiting to be retried, a new one, or the oldest record alone. */
    method Submit(randomId: bytes, free: bool)
      requires Accounted() && Wired() && device.powered && operation.NoOperation? && !batchAcknowledged
      requires |randomId| == BATCH_ID_LENGTH && DeviceId(deviceId)
      requires Pending() > 0 || volatilePayload != []
      modifies queue`lastError, this`operation, this`inFlight, this`durableInFlight, this`batch, this`batchId,
        this`envelope, this`sent, this`sentAt, this`batchAt
      ensures Accounted() && Wired() && Now() == old(Now())
      ensures operation.Snapshot? ==> if Waiting() != [] then durableInFlight && sent == Waiting()[..1]
        else !durableInFlight && sent == [volatilePayload]
      ensures operation.Batch? ==>
        |envelope| <= BODY_LIMIT && envelope == Envelope(deviceId, batchId, sent) && |sent| > 1
      ensures !operation.Status? && (free && queue.ready && old(Pending() > 0) ==> Asking())
      ensures operation.Batch? && old(envelope) == [] ==>
        old(batchEnabled && singlesRemaining == 0) && LongestBatch(Waiting(), BATCH_RECORDS, BATCH_BUDGET, sent)
        && batchAt == |ledger.fates|
      ensures old(envelope) != [] ==> batch == old(batch) && envelope == old(envelope)
      ensures free && queue.ready ==> !operation.NoOperation?
      ensures free && old(envelope) != [] ==> operation.Batch?
      ensures free && old(envelope == [] && Pending() == 0) ==>
        operation.Snapshot? && !durableInFlight && inFlight == volatilePayload
      ensures free && queue.ready && old(batchEnabled && singlesRemaining == 0 && Pending() > 1) && |batch| > 1 ==>
        operation.Batch?
    {
      hide Accounted, Recoverable, Placed, Live, LiveEnd, View, Indexed, SoundFormat, Envelope, LongestBatch, DeviceId,
        AllConfirmed;
      Parts();
      if envelope != [] {
        Send(Batch, batch, batchAt, free);
        return;
      }
      if batchEnabled && singlesRemaining == 0 && Pending() > 1 {
        var assembled := AssembleBatch(randomId);
        if assembled {
          Send(Batch, batch, batchAt, free);
          return;
        }
      }
      SubmitOldest(free);
    }

    /** The next record to send alone: the queue's oldest, or the one held without a queue. */
    method TakeOldest() returns (found: bool)
      requires Accounted() && Wired() && device.powered && operation.NoOperation? && !batchAcknowledged
      modifies queue`lastError, this`inFlight, this`durableInFlight
      ensures Accounted() && Wired() && Now() == old(Now())
      ensures durableInFlight <==> Pending() > 0
      ensures found <==> durableInFlight ==> queue.ready
      ensures found && durableInFlight ==> queue.Matches(inFlight)
      ensures found && durableInFlight ==>
        Waiting() != [] && inFlight == Waiting()[0] && Placed(ledger, [inFlight], |ledger.fates|)
      ensures found && !durableInFlight ==> inFlight == volatilePayload && Waiting() == []
    {
      hide Accounted, Recoverable, Placed, Explained, Live, LiveEnd, View, Indexed, SoundFormat, Envelope, AllConfirmed;
      Parts();
      durableInFlight := Pending() > 0;
      found := true;
      if durableInFlight {
        found, inFlight := queue.Peek();
        if found {
          PlacedPrefix(archive.format, device.files, ledger, queue.Contents(), queue.metadata.dropped, [inFlight]);
        }
      } else {
        inFlight := volatilePayload;
      }
    }

    method SubmitOldest(free: bool)
      requires Accounted() && Wired() && device.powered && operation.NoOperation? && !batchAcknowledged
      modifies queue`lastError, this`operation, this`inFlight, this`durableInFlight, this`sent, this`sentAt
      ensures Accounted() && Wired() && !operation.Batch? && !operation.Status? && Now() == old(Now())
      ensures operation.Snapshot? ==> if Waiting() != [] then durableInFlight && sent == Waiting()[..1]
        else !durableInFlight && sent == [volatilePayload]
      ensures free && (queue.ready || old(Pending()) == 0) ==> operation.Snapshot? && (old(Pending()) > 0 ==> Asking())
      ensures free && old(Pending()) == 0 ==> !durableInFlight && inFlight == volatilePayload
      ensures !free ==> operation.NoOperation? && (queue.ready || old(Pending()) == 0 ==> inFlight == [])
    {
      hide Accounted, Recoverable, Placed, Explained, Live, LiveEnd, View, Indexed, SoundFormat, Envelope, AllConfirmed;
      Parts();
      var found := TakeOldest();
      if !found {
        return;
      }
      Send(Snapshot, [inFlight], |ledger.fates|, free);
      if !free {
        inFlight := [];
      }
    }

    /** A status reply says whether the server takes batches; without that, no batch is retried. */
    method SetBatching(enabled: bool)
      requires Wired() && !operation.Batch?
      modifies this`batchEnabled, this`batch, this`batchId, this`envelope
      ensures Wired() && batchEnabled == enabled
      ensures enabled || batchAcknowledged ==>
        batch == old(batch) && envelope == old(envelope) && batchId == old(batchId)
      ensures !enabled && !batchAcknowledged ==> batch == [] && batchId == [] && envelope == []
    {
      hide Placed, Envelope, AllConfirmed;
      batchEnabled := enabled;
      if !batchEnabled && !batchAcknowledged {
        batch, batchId, envelope := [], [], [];
      }
    }

    /** Start what the pacing allows, if nothing is in flight. */
    method StartWork(work: Work, free: bool, randomId: bytes)
      requires Accounted() && Wired() && device.powered && !batchAcknowledged && |randomId| == BATCH_ID_LENGTH &&
               DeviceId(deviceId)
      modifies queue`lastError, this`operation, this`inFlight, this`durableInFlight, this`batch, this`batchId,
        this`envelope, this`sent, this`sentAt, this`batchAt
      ensures Accounted() && Wired() && Now() == old(Now())
      ensures old(operation.NoOperation?) && work.Heartbeat? && free ==> operation.Status?
      ensures work.Wait? || old(!operation.NoOperation?) ==>
        && operation == old(operation) && inFlight == old(inFlight) && sent == old(sent)
        && batch == old(batch) && envelope == old(envelope)
      ensures old(operation.NoOperation? && Pending() == 0 && volatilePayload != [] && envelope == []) &&
              work.Upload? ==>
        free ==> operation.Snapshot? && !durableInFlight && inFlight == volatilePayload
      ensures operation.Status? && old(!operation.Status?) ==> work.Heartbeat?
      ensures old(operation.NoOperation? && queue.ready && Pending() > 0) && work.Upload? && free ==>
        Asking() && !operation.NoOperation?
      ensures operation.Batch? && old(operation.NoOperation?) ==>
        if old(envelope) == [] then batchAt == |ledger.fates| && old(MayBatch()) else batch == old(batch)
    {
      hide Wired, Accounted, Recoverable, Placed, Envelope, AllConfirmed, DeviceId, LongestBatch, View, Asking, Waiting;
      if work.Wait? || !operation.NoOperation? {
        return;
      }
      if work.Heartbeat? {
        Ask(free);
        return;
      }
      Parts();
      if Pending() > 0 || volatilePayload != [] {
        Submit(randomId, free);
      }
    }

    /** The rest of a turn: drain one record of a confirmed batch, or start what the pacing allows. */
    method Proceed(work: Work, free: bool, randomId: bytes)
      requires Accounted() && Wired() && device.powered && |randomId| == BATCH_ID_LENGTH && DeviceId(deviceId)
      modifies device, queue`metadata, queue`tail, queue`count, queue`lastError, this`ledger, this`operation,
        this`inFlight, this`durableInFlight, this`batch, this`batchId, this`envelope, this`batchAcknowledged,
        this`batchAckIndex, this`sent, this`sentAt, this`batchAt
      ensures device.powered ==> Accounted()
      ensures Wired() && Turned(device.reliable, old(Now()), Now())
      ensures SameSlots(old(device.files), device.files)
      ensures ledger == old(ledger) || (old(batchAcknowledged) && ledger == Resolved(old(ledger), Acknowledged))
      ensures !old(batchAcknowledged) ==> device.files == old(device.files) && !batchAcknowledged
      ensures device.powered && ledger.fates != old(ledger).fates ==>
        if queue.lastError == MetadataWriteFailed then AheadOfFlash() else Committed()
      ensures device.reliable && ledger.fates != old(ledger).fates ==> queue.lastError == NoFault
      ensures !old(Draining()) && old(operation.NoOperation?) && work.Heartbeat? && free ==> operation.Status?
      ensures operation.Status? && old(!operation.Status?) ==> work.Heartbeat?
      ensures old(Draining()) ==>
        batchAcknowledged && batch == old(batch) && batchAt == old(batchAt) && operation == old(operation)
      ensures device.reliable && old(Draining()) ==> batchAckIndex == old(batchAckIndex) + 1
      ensures device.reliable && old(Draining() && |ledger.fates| == batchAt + batchAckIndex) ==>
        ledger == Resolved(old(ledger), Acknowledged)
      ensures !old(Draining()) ==> ledger == old(ledger) && !batchAcknowledged && device.powered
      ensures old(!Draining() && operation.NoOperation? && queue.ready && Pending() > 0) && work.Upload? && free ==>
        Asking() && !operation.NoOperation?
      ensures !old(Draining()) && operation.Batch? && old(operation.NoOperation?) ==>
        if old(envelope == [] || batchAcknowledged) then batchAt == |ledger.fates| && old(MayBatch())
        else batch == old(batch)
    {
      hide Turned, Wired, Accounted, Recoverable, Committed, AheadOfFlash, Placed, Envelope, AllConfirmed, SameSlots,
        DeviceId, LongestBatch, View, Asking;
      var busy := Drain();
      if !busy {
        StartWork(work, free, randomId);
      }
    }

    /**
     One turn of the main loop: take in a reply, drain one record of a confirmed batch, start
     the next upload. At most one record leaves the queue.
     */
    method Service(reply: Option<Reply>, work: Work, free: bool, randomId: bytes)
      requires Accounted() && Wired() && device.powered && |randomId| == BATCH_ID_LENGTH && DeviceId(deviceId)
      requires reply.Some? ==> !operation.NoOperation?
      modifies device, queue`metadata, queue`tail, queue`count, queue`lastError, archive`rejectedRecords, this
      ensures queue == old(queue) && archive == old(archive)
      ensures device.powered ==> Accounted()
      ensures Wired() && Turned(device.reliable, old(Now()), Now())
      ensures SlotsKept(old(device.files), device.files)
      ensures ledger.accepted == old(ledger).accepted && old(ledger).fates <= ledger.fates &&
              |ledger.fates| <= |old(ledger).fates| + 1
      ensures ledger.confirmed == old(ledger).confirmed +
        if reply.Some? && old(Strict(reply.value)) then set p | p in old(sent) else {}
      ensures reply.None? && device.reliable && old(Draining() && |ledger.fates| == batchAt + batchAckIndex) ==>
        ledger == Resolved(old(ledger), Acknowledged)
      ensures reply.None? && old(!Draining() && operation.NoOperation?) && free ==>
        && (work.Heartbeat? ==> operation.Status?)
        && (work.Upload? && old(queue.ready && |queue.count| == 2 && Pending() > 0) ==> Asking())
      ensures !(reply.Some? && old(Resolves(reply.value) || Strict(reply.value))) && !old(batchAcknowledged) ==>
        device.files == old(device.files) && ledger == old(ledger)
    {
      hide Turned, Wired, Accounted, Recoverable, Committed, AheadOfFlash, Placed, Envelope, AllConfirmed, SlotsKept,
        SameSlots, StrictBatch, DeviceId, LongestBatch, View;
      ghost var files0 := device.files;
      SameSlotsItself(files0);
      ghost var now0 := Now();
      NothingTurned(device.reliable, now0);
      if reply.Some? {
        Complete(reply.value);
      }
      if device.powered {
        ghost var files1, now1 := device.files, Now();
        Proceed(work, free, randomId);
        TurnedChain(device.reliable, now0, now1, Now());
        SameSlotsKept(files1, device.files);
        SlotsKeptChain(files0, files1, device.files);
      }
    }

    /** What a server answers that takes every single record, and every batch or not as `verdict` says. */
    function Answering(verdict: Verdict): (reply: Reply)
      reads this`batchId, this`batch, this`operation
    {
      if operation.Batch? && verdict.NoBatches? then Reply(verdict.status, None, false, None)
      else if operation.Batch? && verdict.RejectsBatch? then Reply(verdict.status, None, true, None)
      else Reply(200, Some(Answer(true, true, batchId, |batch|)), false, None)
    }

    /** The next upload may be a batch. */
    predicate MayBatch()
      reads this`batchEnabled, this`singlesRemaining
    {
      batchEnabled && singlesRemaining == 0
    }

    /** How far the batch at hand is from what makes the queue shorter. */
    ghost function Phase(): nat
      reads this`batchAcknowledged, this`batchAckIndex, this`batch, this`batchAt, this`envelope, this`ledger
      reads this`batchEnabled, this`singlesRemaining
    {
      if Draining() then (if |ledger.fates| == batchAt + batchAckIndex then 0 else 4 + |batch| - batchAckIndex)
      else if batchAcknowledged then 3
      else if envelope != [] then 5 + |batch|
      else if MayBatch() then 2
      else 1
    }

    /** One turn and the answer to what it asked bring the queue closer to being empty, with batches or without. */
    method Round(randomId: bytes, verdict: Verdict)
      requires Accounted() && Wired() && device.powered && device.reliable && queue.ready && operation.NoOperation?
      requires |randomId| == BATCH_ID_LENGTH && DeviceId(deviceId) && Pending() > 0
      requires Possible(verdict)
      modifies device, queue`metadata, queue`tail, queue`count, queue`lastError, archive`rejectedRecords, this`ledger,
        this`operation, this`inFlight, this`durableInFlight, this`volatilePayload, this`batch, this`batchId,
        this`envelope, this`batchAcknowledged, this`batchAckIndex, this`batchEnabled, this`singlesRemaining, this`sent,
        this`sentAt, this`batchAt
      ensures Accounted() && Wired() && device.powered && operation.NoOperation?
      ensures ledger.accepted == old(ledger).accepted && OnlyAcknowledged(old(ledger).fates, ledger.fates)
      ensures Pending() < old(Pending()) || (Pending() == old(Pending()) && Phase() < old(Phase()))
    {
      hide Turned, Wired, Accounted, Recoverable, Committed, AheadOfFlash, Placed, Envelope, AllConfirmed, SlotsKept,
        SameSlots, StrictBatch, DeviceId, LongestBatch, View, Asking;
      ghost var a := Now();
      PendingCount();
      Proceed(Upload, true, randomId);
      TurnedFacts(true, a, Now());
      if !operation.NoOperation? {
        Take(verdict);
      }
      PendingCount();
    }

    /**
     The server answers what is in flight: a single record leaves the queue; a batch begins to drain,
     or its records are left to go one by one.
     */
    method Take(verdict: Verdict)
      requires Accounted() && Wired() && device.powered && device.reliable && Asking()
      requires Possible(verdict)
      modifies device, queue`metadata, queue`tail, queue`count, queue`lastError, archive`rejectedRecords, this`ledger,
        this`operation, this`inFlight, this`volatilePayload, this`batch, this`batchId, this`envelope,
        this`batchAcknowledged, this`batchAckIndex, this`batchEnabled, this`singlesRemaining
      ensures Accounted() && Wired() && device.powered && operation.NoOperation?
      ensures ledger.accepted == old(ledger).accepted && old(operation.Snapshot? || operation.Batch?)
      ensures old(operation.Snapshot?) ==> ledger.fates == old(ledger).fates + [Acknowledged]
      ensures old(operation.Batch?) ==> ledger.fates == old(ledger).fates
      ensures old(operation.Batch?) && verdict.TakesBatch? ==>
        batchAcknowledged && batchAckIndex == 0 && batch == old(batch) && batch != []
      ensures old(operation.Batch?) && !verdict.TakesBatch? ==> !batchAcknowledged && envelope == [] && !MayBatch()
    {
      hide Turned, Wired, Accounted, Recoverable, Committed, AheadOfFlash, Placed, Envelope, AllConfirmed, SlotsKept,
        SameSlots, StrictBatch, LongestBatch, View, Queue.Matches;
      ghost var a := Now();
      AnsweringDecides(verdict);
      Complete(Answering(verdict));
      TurnedFacts(true, a, Now());
    }

    lemma AnsweringDecides(verdict: Verdict)
      requires Wired() && (operation.Batch? || operation.Snapshot?)
      requires Possible(verdict)
      ensures Strict(Answering(verdict)) <==> operation.Snapshot? || verdict.TakesBatch?
      ensures operation.Snapshot? ==> StrictSnapshot(Answering(verdict))
      ensures operation.Batch? ==> sent == batch && |batch| > 1
    {
    }

    /**
     Replay gets everything across: while the server takes single records and no step fails, the
     queue empties, whatever batch was left over and whatever the server makes of batches, and every
     record leaves as acknowledged.
     */
    method DeliverAll(randomId: nat -> bytes, verdict: nat -> Verdict)
      requires Accounted() && Wired() && device.powered && device.reliable && queue.ready && operation.NoOperation?
      requires (forall i :: |randomId(i)| == BATCH_ID_LENGTH) && DeviceId(deviceId)
      requires forall i :: Possible(verdict(i))
      modifies device, queue`metadata, queue`tail, queue`count, queue`lastError, archive`rejectedRecords, this`ledger,
        this`operation, this`inFlight, this`durableInFlight, this`volatilePayload, this`batch, this`batchId,
        this`envelope, this`batchAcknowledged, this`batchAckIndex, this`batchEnabled, this`singlesRemaining, this`sent,
        this`sentAt, this`batchAt
      ensures Accounted() && Wired() && device.powered && operation.NoOperation?
      ensures queue.Contents() == [] && |ledger.fates| == |ledger.accepted|
      ensures ledger.accepted == old(ledger).accepted && OnlyAcknowledged(old(ledger).fates, ledger.fates)
    {
      hide Wired, Accounted, DeviceId;
      QueueShape();
      var round := 0;
      while Pending() > 0
        invariant Accounted() && Wired() && device.powered && operation.NoOperation? && |queue.count| == 2
        invariant ledger.accepted == old(ledger).accepted && OnlyAcknowledged(old(ledger).fates, ledger.fates)
        decreases Pending(), Phase()
      {
        Round(randomId(round), verdict(round));
        QueueShape();
        round := round + 1;
      }
      Parts();
      PendingCount();
    }

    /** Mount and recover the queue with fresh objects, as a boot does. */
    method Recover(enable: bool, maximumBytes: nat, mounted: bool, totalBytes: nat)
      requires Recoverable() && SoundArchive(archive.format) && totalBytes < WORD
      requires |Content(device.files, Segment(0))| < WORD && |Content(device.files, Segment(1))| < WORD
      modifies device, this`queue, this`archive
      ensures SlotsKept(old(device.files), device.files)
      ensures queue.format == old(queue.format) && archive.format == old(archive.format)
      ensures fresh(queue) && fresh(archive) && queue.device == archive.device == device && archive.Valid()
      ensures Recoverable() && Accounted() && (queue.ready ==> archive.ready && device.powered && Committed())
      ensures queue.ready ==> queue.Contents() == old(Replay(queue.format, device.files))
      ensures queue.ready ==>
        old(DurablyRetained(queue.format, device.files, SegmentCapacity(maximumBytes, totalBytes))) ==> KeptAt(Now())
      ensures device.reliable && enable && mounted && SegmentCapacity(maximumBytes, totalBytes) > HEADER_BYTES + 1 ==>
        queue.ready
      ensures queue.ready ==> queue.segmentMaximumBytes == SegmentCapacity(maximumBytes, totalBytes)
      ensures forall capacity | old(DurablyRetained(queue.format, device.files, capacity)) ::
        DurablyRetained(queue.format, device.files, capacity)
      ensures old(Boot(queue.format, device.files).reserved != 0) ==> DropsUnknown(Now())
    {
      hide Live, LiveEnd, View, Indexed, SoundFormat, SoundArchive, OccupiedBelow, Replay, Boot, Explained, SlotsKept,
        Retained, DurablyRetained,
        Content, SameSlots, SameSegments, BootKept;
      ghost var fm, af, files0 := queue.format, archive.format, device.files;
      device.Restart();
      queue := new Queue(device, queue.format);
      archive := new Archive(device, archive.format);
      var ok := queue.Begin(enable, maximumBytes, mounted, totalBytes);
      BootKeptFacts(fm, files0, device.files);
      SameSlotsKept(files0, device.files);
      KeptExplained(af, files0, device.files, ledger, Replay(fm, files0), Boot(fm, files0).dropped,
        Boot(fm, files0).dropped);
      if queue.ready {
        archive.Begin();
      }
    }

    /**
     The next boot, after a power cut anywhere: everything in memory is gone, the queue is
     recovered from flash, and it shows exactly the pending part of the same account.
     */
    method Reboot(enable: bool, maximumBytes: nat, mounted: bool, totalBytes: nat)
      requires Recoverable() && SoundArchive(archive.format) && totalBytes < WORD
      requires |Content(device.files, Segment(0))| < WORD && |Content(device.files, Segment(1))| < WORD
      modifies device, this
      ensures ledger == old(ledger) && seen == old(seen) && SlotsKept(old(device.files), device.files)
      ensures queue.format == old(queue.format) && archive.format == old(archive.format) && fresh(queue) &&
              fresh(archive)
      ensures Recoverable() && Wired() && Accounted()
      ensures queue.ready ==> device.powered && queue.Contents() == ledger.accepted[|ledger.fates|..] && Committed()
      ensures queue.ready ==>
        old(DurablyRetained(queue.format, device.files, SegmentCapacity(maximumBytes, totalBytes))) ==> KeptAt(Now())
      ensures volatilePayload == [] && !batchAcknowledged && operation.NoOperation? && envelope == []
      ensures !batchEnabled && singlesRemaining == 0 && (queue.ready ==> archive.ready)
      ensures device.reliable && enable && mounted && SegmentCapacity(maximumBytes, totalBytes) > HEADER_BYTES + 1 ==>
        queue.ready
      ensures queue.ready ==> queue.segmentMaximumBytes == SegmentCapacity(maximumBytes, totalBytes)
      ensures forall capacity | old(DurablyRetained(queue.format, device.files, capacity)) ::
        DurablyRetained(queue.format, device.files, capacity)
      ensures old(Boot(queue.format, device.files).reserved != 0) ==> DropsUnknown(Now())
    {
      hide Accounted, Recoverable, Committed, AheadOfFlash, Placed, Envelope, AllConfirmed, SlotsKept, DurablyRetained,
        Content, View, Replay, Explained, SoundFormat, SoundArchive, Queue.Kept;
      RecoverableParts();
      Recover(enable, maximumBytes, mounted, totalBytes);
      RecoveredContents();
      Forget();
    }

    /** What holds between any two events of a run; `usable` is false once power is gone or an append has failed. */
    ghost predicate Running(usable: bool, standing: Standing, capacity: nat)
      reads this, queue, archive, device
    {
      && Wired() && SoundArchive(archive.format) && DeviceId(deviceId)
      && (usable ==> device.powered && Accounted())
      && RunningAt(Now(), usable, standing, capacity)
    }

    /** A record in the queue has left if fewer are pending than before. */
    lemma DepartedOrNot(a: Moment, before: nat)
      requires Accounted() && queue.ready && a.ledger.accepted == ledger.accepted &&
               before + |a.ledger.fates| == |a.ledger.accepted|
      requires |a.ledger.fates| <= |a.ledger.accepted| && a.ledger.fates <= ledger.fates
      ensures Pending() == before <==> ledger.fates == a.ledger.fates
    {
      hide View, Indexed, SoundFormat;
      Parts();
    }

    lemma PendingCount()
      requires Accounted() && queue.ready
      ensures |ledger.fates| <= |ledger.accepted| && Pending() + |ledger.fates| == |ledger.accepted|
    {
      hide View, Indexed, SoundFormat;
      Parts();
    }

    /**
     A sample is captured while anything may be in flight. Memory gets ahead of the flash only by a
     rotation that failed after switching segments, and a cut stops being covered only by an append
     attempted while it is.
     */
    method OnSample(payload: Payload, authorized: bool, standing: Standing, ghost capacity: nat)
      returns (usable: bool, now: Standing)
      requires Running(true, standing, capacity) && payload != [] && payload !in ledger.accepted
      modifies device, queue`metadata, queue`tail, queue`count, queue`lastError, this`ledger, this`volatilePayload,
        this`seen
      ensures seen == old(seen) + [Sample(authorized)]
      ensures Running(usable, now, capacity)
      ensures usable || !device.powered || (old(Stores(payload, authorized)) && queue.lastError == AppendFailed)
      ensures old(ledger).accepted <= ledger.accepted && OnlyLosses(old(ledger).fates, ledger.fates)
      ensures ledger.accepted == old(ledger).accepted || ledger.accepted == old(ledger).accepted + [payload]
      ensures ledger.confirmed == old(ledger).confirmed && (ledger.fates != old(ledger).fates ==> old(Crowded(payload)))
      ensures DropsUnknown(old(Now())) ==> DropsUnknown(Now())
      ensures !old(Stores(payload, authorized)) ==> usable && now == standing && ledger == old(ledger)
      ensures now == Exposed && standing != Exposed ==>
        standing == Ahead && old(Stores(payload, authorized)) && old(!queue.Rotates(payload))
      ensures now == Ahead && standing == InStep ==>
        device.powered && queue.metadata.active != old(queue.metadata.active)
      ensures ledger.accepted != old(ledger).accepted && usable && old(queue.Rotates(payload)) ==> now == InStep
      ensures usable && queue.metadata.dropped != old(queue.metadata.dropped) ==> now != Exposed
      ensures device.reliable && standing == InStep ==> usable && now == InStep
      ensures device.reliable && old(Stores(payload, authorized)) ==>
        ledger.accepted == old(ledger).accepted + [payload]
    {
      hide Accounted, Placed, AllConfirmed, SoundFormat, Retained, DurablyRetained, RecoverableAt, Aligned,
        DropsUnknown, HeadBehind, OnlyReset, OrderBehind, Envelope, SameSlots, Wired, Crowded, SoundArchive, DeviceId,
        OnlyLosses;
      seen := seen + [Sample(authorized)];
      NothingLost(ledger);
      QueueShape();
      var stored := Stores(payload, authorized);
      var rotates := queue.Rotates(payload);
      var active, dropped := queue.metadata.active, queue.metadata.dropped;
      var ok := Capture(payload, authorized);
      usable := device.powered && (ok || queue.lastError != AppendFailed || !stored);
      if !stored {
        now := standing;
      } else if standing != InStep && !rotates {
        now := Exposed;
      } else if !device.powered {
        now := standing;
      } else if ok || queue.lastError == AppendFailed {
        now := InStep;
      } else if standing == InStep || queue.metadata.dropped != dropped {
        now := if queue.metadata.active != active then Ahead else InStep;
        Regained();
      } else {
        now := standing;
      }
    }

    /** How memory and flash stand after an upload step. */
    function After(standing: Standing, departed: bool): Standing
      reads queue`lastError, this`queue
    {
      if !departed then standing else if queue.lastError == MetadataWriteFailed then Ahead else InStep
    }

    /** An upload step keeps the run going: whatever it did is in `Turned`. */
    lemma StepKeepsRunning(a: Moment, standing: Standing, departed: bool, capacity: nat)
      requires RunningAt(a, true, standing, capacity) && Turned(device.reliable, a, Now()) && a.powered
      requires Wired() && SoundArchive(archive.format) && DeviceId(deviceId) && (device.powered ==> Accounted())
      requires queue.ready && device.powered ==> (departed <==> ledger.fates != a.ledger.fates)
      requires !queue.ready || !device.powered ==> !departed
      requires device.powered && ledger.fates != a.ledger.fates ==>
        if queue.lastError == MetadataWriteFailed then AheadOfFlash() else Committed()
      ensures Running(device.powered, After(standing, departed), capacity)
    {
      hide Accounted, Placed, AllConfirmed, Retained, DurablyRetained, RecoverableAt, CommittedAt, BehindAt, Envelope,
        Wired, SoundArchive, DeviceId, DropsUnknown;
      if departed { Regained(); }
    }

    /** How memory and flash stand after an upload step, told from whether the queue has become shorter. */
    method Stand(ghost a: Moment, before: nat, standing: Standing, ghost capacity: nat)
      returns (usable: bool, now: Standing)
      requires RunningAt(a, true, standing, capacity) && Turned(device.reliable, a, Now()) && a.powered
      requires Wired() && SoundArchive(archive.format) && DeviceId(deviceId) && (device.powered ==> Accounted())
      requires a.ledger.accepted == ledger.accepted
      requires a.ready ==>
        |a.ledger.fates| <= |a.ledger.accepted| && before + |a.ledger.fates| == |a.ledger.accepted|
      requires device.powered && ledger.fates != a.ledger.fates ==>
        if queue.lastError == MetadataWriteFailed then AheadOfFlash() else Committed()
      requires device.reliable && ledger.fates != a.ledger.fates ==> queue.lastError == NoFault
      ensures Running(usable, now, capacity) && usable == device.powered
      ensures a.ledger.fates <= ledger.fates && (DropsUnknown(a) ==> DropsUnknown(Now()))
      ensures now != standing ==> ledger.fates != a.ledger.fates && now != Exposed
      ensures now == Exposed && usable && queue.ready ==> ledger.fates == a.ledger.fates
      ensures device.reliable && standing == InStep ==> usable && now == InStep
    {
      hide Accounted, Placed, AllConfirmed, SoundFormat, Retained, DurablyRetained, RecoverableAt, CommittedAt,
        BehindAt, DropsUnknown, Envelope, Wired, SoundArchive, DeviceId, Turned, OrderlyAt, View;
      TurnedFacts(device.reliable, a, Now());
      if device.powered { QueueShape(); }
      if device.powered && queue.ready { DepartedOrNot(a, before); }
      usable := device.powered;
      var departed := usable && queue.ready && Pending() != before;
      now := After(standing, departed);
      StepKeepsRunning(a, standing, departed, capacity);
    }

    /** The worker has an answer, if anything was asked. */
    method OnReply(reply: Reply, standing: Standing, ghost capacity: nat) returns (usable: bool, now: Standing)
      requires Running(true, standing, capacity)
      modifies device, queue`metadata, queue`tail, queue`count, queue`lastError, archive`rejectedRecords, this`ledger,
        this`operation, this`inFlight, this`volatilePayload, this`batch, this`batchId, this`envelope,
        this`batchAcknowledged, this`batchAckIndex, this`batchEnabled, this`singlesRemaining, this`seen
      ensures seen == old(seen) + [Answered(reply)]
      ensures Running(usable, now, capacity) && usable == device.powered
      ensures ledger.accepted == old(ledger).accepted && old(ledger).fates <= ledger.fates
      ensures DropsUnknown(old(Now())) ==> DropsUnknown(Now())
      ensures now != standing ==> ledger.fates != old(ledger).fates && now != Exposed
      ensures now == Exposed && usable && queue.ready ==> ledger.fates == old(ledger).fates
      ensures Ambiguous(reply) ==> ledger == old(ledger) && (batchAcknowledged ==> old(batchAcknowledged))
      ensures operation.NoOperation? &&
        ledger.confirmed == old(ledger).confirmed + if old(Strict(reply)) then set p | p in old(sent) else {}
      ensures old(operation.Batch?) ==> (batchAcknowledged <==> old(Strict(reply)))
      ensures old(operation.Status?) && StrictSnapshot(reply) && reply.batching.Some? ==>
        batchEnabled == reply.batching.value
      ensures device.reliable && old(operation.Snapshot? && durableInFlight && queue.Matches(inFlight)) ==>
        StrictSnapshot(reply) ==> ledger.fates == old(ledger).fates + [Acknowledged]
      ensures device.reliable && standing == InStep ==> usable && now == InStep
    {
      hide Accounted, Placed, AllConfirmed, SoundFormat, Retained, DurablyRetained, RecoverableAt, CommittedAt,
        BehindAt, DropsUnknown, Envelope, SameSlots, SlotsKept, Wired, SoundArchive, DeviceId, Turned, OrderlyAt, View,
        Queue.Matches;
      seen := seen + [Answered(reply)];
      if operation.NoOperation? {
        return true, standing;
      }
      ghost var a := Now();
      QueueShape();
      var before := Pending();
      if queue.ready { PendingCount(); }
      Complete(reply);
      usable, now := Stand(a, before, standing, capacity);
    }

    /** The rest of a main-loop turn. */
    method OnTurn(work: Work, free: bool, randomId: bytes, standing: Standing, ghost capacity: nat)
      returns (usable: bool, now: Standing)
      requires Running(true, standing, capacity) && |randomId| == BATCH_ID_LENGTH
      modifies device, queue`metadata, queue`tail, queue`count, queue`lastError, this`ledger, this`operation,
        this`inFlight, this`durableInFlight, this`batch, this`batchId, this`envelope, this`batchAcknowledged,
        this`batchAckIndex, this`sent, this`sentAt, this`batchAt, this`seen
      ensures seen == old(seen) + [Turn(work, free, randomId)]
      ensures Running(usable, now, capacity) && usable == device.powered
      ensures ledger.accepted == old(ledger).accepted && old(ledger).fates <= ledger.fates
      ensures DropsUnknown(old(Now())) ==> DropsUnknown(Now())
      ensures now != standing ==> ledger.fates != old(ledger).fates && now != Exposed
      ensures now == Exposed && usable && queue.ready ==> ledger.fates == old(ledger).fates
      ensures !old(batchAcknowledged) ==> ledger == old(ledger) && !batchAcknowledged
      ensures device.reliable && old(Draining() && |ledger.fates| == batchAt + batchAckIndex) ==>
        ledger == Resolved(old(ledger), Acknowledged)
      ensures old(!Draining() && operation.NoOperation?) && free ==>
        && (work.Heartbeat? ==> operation.Status?)
        && (work.Upload? && old(queue.ready && |queue.count| == 2 && Pending() > 0) ==> Asking())
      ensures device.reliable && standing == InStep ==> usable && now == InStep
    {
      hide Accounted, Placed, AllConfirmed, SoundFormat, Retained, DurablyRetained, RecoverableAt, CommittedAt,
        BehindAt, DropsUnknown, Envelope, SameSlots, Wired, SoundArchive, DeviceId, Turned, OrderlyAt, Asking;
      seen := seen + [Turn(work, free, randomId)];
      ghost var a := Now();
      QueueShape();
      var before := Pending();
      if queue.ready { PendingCount(); }
      Proceed(work, free, randomId);
      usable, now := Stand(a, before, standing, capacity);
    }

    /** Power comes back, wherever it went. */
    method OnPower(boot: BootConfig, mounted: bool, ghost usable: bool, standing: Standing)
      requires Running(usable, standing, boot.Capacity()) && standing != Exposed && boot.totalBytes < WORD
      modifies device, this
      ensures seen == old(seen) + [PowerBack(mounted)]
      ensures Running(device.powered, InStep, boot.Capacity()) && ledger == old(ledger) && !batchAcknowledged
      ensures fresh(queue) && fresh(archive) && SlotsKept(old(device.files), device.files)
      ensures old(DropsUnknown(Now())) ==> DropsUnknown(Now())
      ensures device.reliable && boot.Works() && mounted ==> device.powered && queue.ready
    {
      hide Accounted, Placed, AllConfirmed, SoundFormat, Retained, DurablyRetained, RecoverableAt, CommittedAt,
        Envelope, SlotsKept, Wired, SoundArchive, DeviceId, Content, View;
      seen := seen + [PowerBack(mounted)];
      RetainedSizes(Now(), boot.Capacity());
      Reboot(boot.enable, boot.maximumBytes, mounted, boot.totalBytes);
      if queue.ready { Regained(); }
    }

    /** One event of a run, unless there is no power for it. */
    method Happen(event: Event, payload: Payload, boot: BootConfig, before: bool, standing: Standing)
      returns (usable: bool, now: Standing)
      requires Running(before, standing, boot.Capacity()) && boot.totalBytes < WORD && payload != [] &&
               payload !in ledger.accepted
      requires (event.Turn? ==> |event.randomId| == BATCH_ID_LENGTH) && (event.PowerBack? ==> standing != Exposed)
      modifies device, this, queue, archive
      ensures Running(usable, now, boot.Capacity())
      ensures (queue == old(queue) || fresh(queue)) && (archive == old(archive) || fresh(archive))
      ensures ledger.accepted == old(ledger).accepted || ledger.accepted == old(ledger).accepted + [payload]
      ensures old(ledger).fates <= ledger.fates
      ensures seen == old(seen) + if before || event.PowerBack? then [event] else []
      ensures (event.Answered? ==> Ambiguous(event.reply)) && (before ==> !old(batchAcknowledged)) ==>
        OnlyLosses(old(ledger).fates, ledger.fates) && ledger.confirmed == old(ledger).confirmed &&
        (usable ==> !batchAcknowledged)
      ensures DropsUnknown(old(Now())) ==> DropsUnknown(Now())
      ensures device.reliable && standing == InStep ==> now == InStep
      ensures device.reliable && standing == InStep && boot.Works() && (event.PowerBack? ==> event.mounted) &&
              (before ==> old(queue.ready)) ==>
        && (usable <==> before || event.PowerBack?) && (usable ==> queue.ready)
        && ledger.accepted == old(ledger).accepted +
             if Takes(event, payload, before, boot.Capacity()) then [payload] else []
    {
      hide Wired, Accounted, SoundArchive, DeviceId, RecoverableAt, DurablyRetained, CommittedAt, BehindAt, OrderlyAt,
        SoundFormat, OnlyLosses, Crowded, DropsUnknown, SlotsKept;
      NothingLost(ledger);
      usable, now := before, standing;
      match event {
        case PowerBack(mounted) =>
          OnPower(boot, mounted, before, standing);
          usable, now := device.powered, InStep;
        case Sample(authorized) =>
          if before {
            usable, now := OnSample(payload, authorized, standing, boot.Capacity());
          }
        case Answered(reply) =>
          if before {
            usable, now := OnReply(reply, standing, boot.Capacity());
          }
        case Turn(work, free, randomId) =>
          if before {
            usable, now := OnTurn(work, free, randomId, standing, boot.Capacity());
          }
      }
      LossesChain([], old(ledger), ledger);
    }

    /**
     A whole run: samples, replies, turns and power cuts in any order, every step failing or cut
     anywhere, single records and batches alike. The account only grows, and by nothing an ambiguous
     reply says; while no append has been attempted with memory ahead of the flash, the next boot
     recovers exactly its pending part; and the next commit that succeeds puts them in step again.
     A run is followed up to a boot that finds them apart, and after a failed append to the next
     boot. On a device whose steps succeed there is neither, and every sample that fits is stored.
     */
    method Run(events: seq<Event>, payloads: seq<Payload>, boot: BootConfig)
      returns (usable: bool, standing: Standing, followed: nat)
      requires Running(false, InStep, boot.Capacity()) && boot.totalBytes < WORD
      requires |events| == |payloads| && AllNew(ledger, payloads)
      requires forall e | e in events && e.Turn? :: |e.randomId| == BATCH_ID_LENGTH
      modifies device, this, queue, archive
      ensures Running(usable, standing, boot.Capacity())
      ensures followed == |events| || (followed < |events| && events[followed].PowerBack? && standing == Exposed)
      ensures old(ledger).accepted <= ledger.accepted && old(ledger).fates <= ledger.fates
      ensures Within(ledger.accepted, old(ledger).accepted, payloads)
      ensures AllAmbiguous(events) ==>
        OnlyLosses(old(ledger).fates, ledger.fates) && ledger.confirmed == old(ledger).confirmed
      ensures DropsUnknown(old(Now())) ==> DropsUnknown(Now()) && !queue.DroppedRecordsKnown()
      ensures device.reliable ==> standing == InStep
      ensures device.reliable && boot.Works() && AllMounted(events) ==>
        (usable <==> Booted(events)) && seen == old(seen) + LivedIn(events) &&
        ledger.accepted == old(ledger).accepted + StoredIn(events, payloads, boot.Capacity())
    {
      hide Running, AllNew, OnlyLosses, DropsUnknown, Within, StoredIn, LivedIn, Booted;
      NothingLost(ledger);
      NothingTaken(events[..0], payloads[..0], ledger.accepted, payloads, boot.Capacity());
      usable, standing, followed := false, InStep, 0;
      while followed < |events|
        invariant followed <= |events| && Running(usable, standing, boot.Capacity()) &&
                  AllNew(ledger, payloads[followed..])
        invariant (queue == old(queue) || fresh(queue)) && (archive == old(archive) || fresh(archive))
        invariant old(ledger).accepted <= ledger.accepted && old(ledger).fates <= ledger.fates
        invariant Within(ledger.accepted, old(ledger).accepted, payloads)
        invariant AllAmbiguous(events) ==>
          && OnlyLosses(old(ledger).fates, ledger.fates) && ledger.confirmed == old(ledger).confirmed
          && (usable ==> !batchAcknowledged)
        invariant DropsUnknown(old(Now())) ==> DropsUnknown(Now())
        invariant device.reliable ==> standing == InStep
        invariant device.reliable && boot.Works() && AllMounted(events) ==>
          && (usable <==> Booted(events[..followed])) && (usable ==> queue.ready)
          && seen == old(seen) + LivedIn(events[..followed])
          && ledger.accepted == old(ledger).accepted
               + StoredIn(events[..followed], payloads[..followed], boot.Capacity())
      {
        ghost var l := ledger;
        NextIsNew(l, payloads, followed);
        OneMore(events, payloads, followed, boot.Capacity());
        if events[followed].PowerBack? && standing == Exposed {
          DoubtShows();
          return;
        }
        usable, standing := Happen(events[followed], payloads[followed], boot, usable, standing);
        LossesChain(old(ledger).fates, l, ledger);
        StillNew(l, ledger, payloads, followed);
        StillWithin(l.accepted, ledger.accepted, old(ledger).accepted, payloads, followed);
        followed := followed + 1;
      }
      DoubtShows();
      assert events[..|events|] == events && payloads[..|events|] == payloads;
    }

    lemma DoubtShows()
      ensures DropsUnknown(Now()) ==> !queue.DroppedRecordsKnown()
    {
      hide Boot;
    }

    lemma QueueShape()
      requires Accounted()
      ensures queue.device == device && Shaped(queue.metadata) && |queue.tail| == |queue.count| == 2
    {
    }

    /** Durable heads and order, or one uncommitted reset, make everything else durable. */
    lemma Regained()
      requires Accounted() && queue.ready && (Committed() || AheadOfFlash())
      ensures Recoverable() && (OrderlyAt(Now()) ==> KeptAt(Now()))
    {
      hide View, Indexed, SoundFormat, Retained, DurablyRetained, Replay, Boot;
      LevelIsSafe(Now());
    }

    /** Memory starts empty. */
    method Forget()
      modifies this`operation, this`inFlight, this`durableInFlight, this`volatilePayload, this`batch, this`batchId,
        this`envelope, this`batchAcknowledged, this`batchAckIndex, this`batchEnabled, this`singlesRemaining
      ensures Wired() && operation.NoOperation? && inFlight == [] && !durableInFlight && volatilePayload == []
      ensures batch == [] && batchId == [] && envelope == [] && !batchAcknowledged && batchAckIndex == 0
      ensures !batchEnabled && singlesRemaining == 0
    {
      operation, inFlight, durableInFlight, volatilePayload := NoOperation, [], false, [];
      batch, batchId, envelope, batchAcknowledged, batchAckIndex := [], [], [], false, 0;
      batchEnabled, singlesRemaining := false, 0;
    }

    lemma RecoveredContents()
      requires Accounted()
      ensures queue.ready ==>
        queue.Contents() == ledger.accepted[|ledger.fates|..] && |ledger.fates| <= |ledger.accepted|
    {
      hide View, Indexed, SoundFormat;
    }

    lemma RecoverableParts()
      requires Recoverable()
      ensures SoundFormat(queue.format) && |ledger.fates| <= |ledger.accepted|
      ensures Replay(queue.format, device.files) == ledger.accepted[|ledger.fates|..]
    {
      hide SoundFormat, Replay, Boot;
    }

    lemma Parts()
      requires Accounted()
      ensures queue.device == device && queue.Valid()
      ensures queue.ready ==> Explained(archive.format, device.files, ledger, queue.Contents(), queue.metadata.dropped)
      ensures queue.ready ==> |queue.Contents()| == Pending()
    {
      hide Live, LiveEnd, View, SoundFormat, Explained, Indexed;
      if queue.ready { OldestRecord(queue.format, device.files, queue.metadata, queue.tail, queue.count); }
    }

    /** The batch member whose turn it is is the queue's head, or gone. */
    lemma HeadOfBatch(i: nat)
      requires Accounted() && i < |batch| && Placed(ledger, batch, batchAt) && batchAt + i <= |ledger.fates|
      ensures queue.ready ==> (queue.Matches(batch[i]) <==> |ledger.fates| == batchAt + i)
      ensures queue.ready ==> (batch[i] in queue.Contents() <==> |ledger.fates| == batchAt + i)
    {
      hide View, Indexed, SoundFormat, Explained, Placed;
      if queue.ready {
        PlacedHead(archive.format, device.files, ledger, queue.Contents(), queue.metadata.dropped, batch, batchAt, i);
      }
    }
  }

  /**
   How memory and flash stand. `InStep`: heads and order are durable. `Ahead`: a final commit has
   failed, so an append followed by a cut is not covered. `Exposed`: one has been attempted. The
   next commit that succeeds puts them in step again.
   */
  datatype Standing = InStep | Ahead | Exposed

  /** The part of a running state that is about the queue and its files. */
  ghost predicate RunningAt(a: Moment, usable: bool, standing: Standing, capacity: nat)
  {
    && SoundFormat(a.format)
    && (usable && a.ready ==>
        && OrderlyAt(a) && a.capacity == capacity
        && (standing == InStep ==> CommittedAt(a)) && (standing == Ahead ==> BehindAt(a)))
    && (standing != Exposed ==> RecoverableAt(a) && DurablyRetained(a.format, a.files, capacity))
  }

  function OneLess(n: nat): nat
  {
    if n == 0 then 0 else n - 1
  }

  /** What the pacing lets a turn start: nothing, a status heartbeat, or the upload of what is waiting. */
  datatype Work = Wait | Heartbeat | Upload

  /** What a server makes of a batch: it takes it, has no endpoint for it, or rejects its content. */
  datatype Verdict = TakesBatch | NoBatches(status: int) | RejectsBatch(status: int)

  predicate Possible(verdict: Verdict)
  {
    && (verdict.NoBatches? ==> verdict.status == 404 || verdict.status == 405)
    && (verdict.RejectsBatch? ==> PayloadRejected(verdict.status))
  }

  /** What can happen in a run. */
  datatype Event =
    | Sample(authorized: bool)
    | Answered(reply: Reply)
    | Turn(work: Work, free: bool, randomId: bytes)
    | PowerBack(mounted: bool)

  /** What every boot of a run is configured with. */
  datatype BootConfig = BootConfig(enable: bool, maximumBytes: nat, totalBytes: nat) {
    function Capacity(): nat
    {
      SegmentCapacity(maximumBytes, totalBytes)
    }

    predicate Works()
    {
      enable && Capacity() > HEADER_BYTES + 1
    }
  }

  /** Neither a strict acknowledgement nor a final rejection of the payload itself. */
  predicate Ambiguous(r: Reply)
  {
    !StrictSnapshot(r) && !(r.permanent && PayloadRejected(r.status))
  }

  ghost predicate AllAmbiguous(events: seq<Event>)
  {
    forall e | e in events && e.Answered? :: Ambiguous(e.reply)
  }

  ghost predicate AllMounted(events: seq<Event>)
  {
    forall e | e in events && e.PowerBack? :: e.mounted
  }

  ghost predicate Booted(events: seq<Event>)
  {
    exists e | e in events :: e.PowerBack?
  }

  /**
   An event that a device whose steps succeed stores a payload at: a sample that fits, taken with a
   credential and power.
   */
  predicate Takes(event: Event, payload: Payload, powered: bool, capacity: nat)
  {
    powered && event.Sample? && event.authorized && Storable(payload) && HEADER_BYTES + |payload| <= capacity
  }

  /** The samples of a run that such a device stores. */
  ghost function StoredIn(events: seq<Event>, payloads: seq<Payload>, capacity: nat): seq<Payload>
    requires |events| == |payloads|
  {
    if events == [] then [] else
      var i := |events| - 1;
      StoredIn(events[..i], payloads[..i], capacity) +
        if Takes(events[i], payloads[i], Booted(events[..i]), capacity) then [payloads[i]] else []
  }

  /** The events of a run from the first time power is there. */
  ghost function LivedIn(events: seq<Event>): seq<Event>
  {
    if events == [] then [] else
      var i := |events| - 1;
      LivedIn(events[..i]) + if Booted(events[..i]) || events[i].PowerBack? then [events[i]] else []
  }

  lemma OneMore(events: seq<Event>, payloads: seq<Payload>, i: nat, capacity: nat)
    requires i < |events| == |payloads|
    ensures Booted(events[..i + 1]) <==> Booted(events[..i]) || events[i].PowerBack?
    ensures LivedIn(events[..i + 1]) ==
      LivedIn(events[..i]) + if Booted(events[..i]) || events[i].PowerBack? then [events[i]] else []
    ensures StoredIn(events[..i + 1], payloads[..i + 1], capacity) == StoredIn(events[..i], payloads[..i], capacity) +
      if Takes(events[i], payloads[i], Booted(events[..i]), capacity) then [payloads[i]] else []
  {
    assert events[..i + 1] == events[..i] + [events[i]] && payloads[..i + 1][..i] == payloads[..i];
    if events[i].PowerBack? { assert events[i] in events[..i + 1]; }
  }

  /** Everything accepted was there before or is one of the samples. */
  ghost predicate Within(accepted: seq<Payload>, before: seq<Payload>, payloads: seq<Payload>)
  {
    forall p | p in accepted :: p in before || p in payloads
  }

  lemma NothingTaken(events: seq<Event>, taken: seq<Payload>, accepted: seq<Payload>, payloads: seq<Payload>,
      capacity: nat)
    requires events == [] && taken == []
    ensures !Booted(events) && LivedIn(events) == [] && StoredIn(events, taken, capacity) == [] &&
            Within(accepted, accepted, payloads)
  {
  }

  lemma StillWithin(accepted: seq<Payload>, now: seq<Payload>, before: seq<Payload>, payloads: seq<Payload>, i: nat)
    requires i < |payloads| && Within(accepted, before, payloads) &&
             (now == accepted || now == accepted + [payloads[i]])
    ensures Within(now, before, payloads)
  {
  }

  /** What can come between two turns of a drain. */
  datatype Interleaved = DrainTurn | NewSnapshot(authorized: bool)

  function DrainTurns(steps: seq<Interleaved>): nat
  {
    if steps == [] then 0 else DrainTurns(steps[..|steps| - 1]) + if steps[|steps| - 1].DrainTurn? then 1 else 0
  }

  /** Payloads never accepted before, and all different, as session and sequence numbers make them. */
  ghost predicate AllNew(l: Ledger, ps: seq<Payload>)
  {
    (forall i | 0 <= i < |ps| :: ps[i] != [] && ps[i] !in l.accepted) && Distinct(ps)
  }

  lemma NextIsNew(l: Ledger, ps: seq<Payload>, i: nat)
    requires i < |ps| && AllNew(l, ps[i..])
    ensures ps[i] != [] && ps[i] !in l.accepted
  {
    assert ps[i..][0] == ps[i];
  }

  lemma StillNew(l: Ledger, n: Ledger, ps: seq<Payload>, i: nat)
    requires i < |ps| && AllNew(l, ps[i..]) && (n.accepted == l.accepted || n.accepted == l.accepted + [ps[i]])
    ensures AllNew(n, ps[i + 1..])
  {
    var a, b := ps[i..], ps[i + 1..];
    assert a[0] == ps[i];
    forall k | 0 <= k < |b| ensures b[k] == a[k + 1] {
    }
  }

  lemma LossesChain(fates: seq<Fate>, l: Ledger, n: Ledger)
    ensures OnlyLosses(l.fates, n.fates) ==> l.fates <= n.fates
    ensures OnlyLosses(fates, l.fates) && OnlyLosses(l.fates, n.fates) ==> OnlyLosses(fates, n.fates)
    ensures OnlyLosses(l.fates, l.fates)
  {
  }

  lemma TurnedFacts(reliable: bool, a: Moment, b: Moment)
    requires Turned(reliable, a, b)
    ensures a.ledger.fates <= b.ledger.fates && (b.ledger.fates != a.ledger.fates ==> a.ready) && b.ready == a.ready
    ensures (DropsUnknown(a) ==> DropsUnknown(b)) && (reliable && a.powered ==> b.powered)
  {
  }

  /** What a drain up to record `end` does to the account: records leave as lost, or as acknowledged before `end`. */
  ghost predicate Drains(l: Ledger, n: Ledger, end: nat)
  {
    && l.accepted <= n.accepted && l.fates <= n.fates
    && forall k | |l.fates| <= k < |n.fates| :: n.fates[k] == Lost || (n.fates[k] == Acknowledged && k < end)
  }

  lemma NothingDrained(l: Ledger, end: nat)
    ensures Drains(l, l, end) && OnlyAcknowledged(l.fates, l.fates)
  {
  }

  lemma DrainsChain(l: Ledger, m: Ledger, n: Ledger, end: nat)
    requires Drains(l, m, end) && Drains(m, n, end)
    ensures Drains(l, n, end)
    ensures OnlyAcknowledged(l.fates, m.fates) && OnlyAcknowledged(m.fates, n.fates) ==>
      OnlyAcknowledged(l.fates, n.fates)
  {
  }

  lemma DrainedCount(l: Ledger, n: Ledger, end: nat)
    requires Drains(l, n, end)
    ensures OnlyAcknowledged(l.fates, n.fates) && |n.fates| >= end ==>
      |n.fates| == if |l.fates| < end then end else |l.fates|
  {
    if OnlyAcknowledged(l.fates, n.fates) && |n.fates| > |l.fates| {
      assert n.fates[|n.fates| - 1] == Acknowledged;
    }
  }

  lemma BootKeptFacts(fm: Format, a: Files, b: Files)
    requires SoundFormat(fm) && BootKept(fm, a, b)
    ensures Replay(fm, b) == Replay(fm, a) && Boot(fm, b).dropped == Boot(fm, a).dropped
    ensures Boot(fm, a).reserved != 0 ==> Boot(fm, b).reserved != 0
    ensures forall capacity | DurablyRetained(fm, a, capacity) :: DurablyRetained(fm, b, capacity)
  {
    hide Replay, Boot, DurablyRetained;
  }

  ghost predicate OnlyAcknowledged(before: seq<Fate>, after: seq<Fate>)
  {
    before <= after && forall i | |before| <= i < |after| :: after[i] == Acknowledged
  }

  /** Records placed in the account stay placed as it grows. */
  lemma StillPlaced(l: Ledger, n: Ledger, ps: seq<Payload>, at: nat)
    requires Grown(l, n)
    ensures Placed(l, ps, at) ==> Placed(n, ps, at)
  {
    if Placed(l, ps, at) { PlacedGrows(l, n, ps, at); }
  }

  lemma ResolvedGrows(l: Ledger, fate: Fate)
    ensures Grown(l, Resolved(l, fate)) && Grown(l, l)
  {
  }

  lemma SameSlotsItself(a: Files)
    ensures SlotsKept(a, a) && SameSlots(a, a)
  {
  }

  lemma SlotsKeptChain(a: Files, b: Files, c: Files)
    requires SlotsKept(a, b) && SlotsKept(b, c)
    ensures SlotsKept(a, c)
  {
  }

  lemma WithinBudget(pending: seq<Payload>, limit: nat, budget: nat, batch: seq<Payload>)
    requires LongestBatch(pending, limit, budget, batch)
    ensures batch <= pending && |batch| <= limit && BatchBytes(batch) <= budget
  {
  }

  lemma StillConfirmed(l: Ledger, n: Ledger, ps: seq<Payload>)
    requires Grown(l, n)
    ensures AllConfirmed(l, ps) ==> AllConfirmed(n, ps)
  {
  }

  lemma ConfirmedMember(l: Ledger, ps: seq<Payload>, i: nat)
    requires AllConfirmed(l, ps) && i < |ps|
    ensures ps[i] in l.confirmed
  {
  }

  lemma TallyFacts(fm: Format, a: Files, m: Counters, b: Files, n: Counters)
    requires Tallied(fm, a, m, b, n)
    ensures n.dropped >= m.dropped && (Counted(fm, a, m) ==> Boot(fm, b).dropped >= m.dropped)
    ensures Counted(fm, b, n) <==> Boot(fm, b).dropped == n.dropped
    ensures Counted(fm, a, m) <==> Boot(fm, a).dropped == m.dropped
    ensures n.reserved == m.reserved && (Boot(fm, a).reserved != 0 && m.reserved != 0 ==> Boot(fm, b).reserved != 0)
  {
  }

  /** A capture that returned leaves one of the outcomes of a capture. */
  lemma DoneOutcome(older: seq<Payload>, newer: seq<Payload>, d: uint32, now: seq<Payload>, e: uint32, p: Payload,
      ok: bool, rotates: bool)
    requires d <= e
    requires ok ==> now == (if rotates then newer else older + newer) + [p]
    requires !ok ==> now == older + newer || (rotates && now == newer && e == SaturatingAdd(d, |older|))
    requires ok && rotates ==> e == SaturatingAdd(d, |older|)
    ensures CaptureOutcome(older, newer, d, now, e, p, rotates)
  {
  }

  lemma ArchiveSteps(af: ArchiveFormat, a: Files, b: Files)
    requires ArchiveStep(af, a, b)
    ensures SlotsKept(a, b) && SameSegments(a, b) && Content(a, Path.Metadata) == Content(b, Path.Metadata)
    ensures Reconstructed(a) == Reconstructed(b)
    ensures forall s: nat :: (Segment(s) in a <==> Segment(s) in b)
  {
    assert forall s: nat ::
      Content(a, Segment(s)) == Content(b, Segment(s)) && Content(a, Quarantine(s)) == Content(b, Quarantine(s));
  }

  /** Files that differ outside the queue's own mean the same to the queue and to its next boot. */
  lemma ArchiveBoot(fm: Format, a: Files, b: Files, m: Counters, tail: seq<nat>, count: seq<nat>, capacity: nat)
    requires SoundFormat(fm) && Shaped(m) && SameSegments(a, b) &&
             Content(a, Path.Metadata) == Content(b, Path.Metadata)
    requires Reconstructed(a) == Reconstructed(b) && forall s: nat :: (Segment(s) in a <==> Segment(s) in b)
    ensures Replay(fm, a) == Replay(fm, b) && Boot(fm, a) == Boot(fm, b)
    ensures View(fm, a, m) == View(fm, b, m) && Counted(fm, a, m) == Counted(fm, b, m)
    ensures Indexed(fm, a, m, tail, count) == Indexed(fm, b, m, tail, count)
    ensures Aligned(fm, a, m) == Aligned(fm, b, m) && Retained(fm, a, m, capacity) == Retained(fm, b, m, capacity)
    ensures forall c :: DurablyRetained(fm, a, c) == DurablyRetained(fm, b, c)
    ensures Behind(fm, a, m) == Behind(fm, b, m)
  {
    hide Live, LiveEnd, View, SegmentLive, Content, Reconstructed, Retained, Behind;
    ReplayKept(fm, a, b);
    ViewDependsOnSegments(fm, a, b, m, m);
    RetainedDependsOnSegments(fm, a, b, m, m, capacity);
    BehindKept(fm, a, b, m);
    BootIsShaped(fm, a);
    forall c ensures DurablyRetained(fm, a, c) == DurablyRetained(fm, b, c) {
      RetainedDependsOnSegments(fm, a, b, Boot(fm, a), Boot(fm, b), c);
    }
    assert Content(a, Segment(0)) == Content(b, Segment(0)) && Content(a, Segment(1)) == Content(b, Segment(1));
  }
}
