/**
 The onboard store-and-forward queue: two append-only segments, an index in
 memory, and a metadata record that is replaced atomically.
 */
module StoreForwardQueue {
  import opened Bytes
  import opened SegmentLog
  import opened Flash
  import opened QueueDisk
  import opened QueueSteps

  datatype Fault =
    | NoFault | Unavailable | PayloadSizeInvalid | PayloadExceedsSegment | MetadataWriteFailed
    | SegmentResetFailed | AppendFailed | TailRepairFailed | SegmentCreateFailed | CapacityTooSmall | MountFailed
    | BatchLimit

  /** Counters stop at the largest 32-bit value. */
  function SaturatingAdd(value: uint32, increment: nat): (sum: uint32)
    ensures sum == Min(value + increment, WORD - 1)
  {
    if increment > WORD - 1 - value then WORD - 1 else value + increment
  }

  /**
   Every way the replay can look once `enqueue` of `p` has started, power cuts included:
   untouched, extended by `p`, and - only when the active segment was full - without the
   whole older segment, whose loss is then already counted durably.
   */
  ghost predicate EnqueueOutcome(fm: Format, before: Files, m: Counters, p: Payload, rotates: bool, after: Files)
    requires SoundFormat(fm) && Shaped(m)
  {
    var older, newer := SegmentLive(fm, before, m, Other(m.active)), SegmentLive(fm, before, m, m.active);
    || Replay(fm, after) == older + newer
    || (!rotates && Replay(fm, after) == older + newer + [p])
    || (rotates && (Replay(fm, after) == newer || Replay(fm, after) == newer + [p])
        && (older != [] ==> Boot(fm, after).dropped == SaturatingAdd(m.dropped, |older|)))
  }

  ghost predicate RotateOutcome(fm: Format, before: Files, m: Counters, after: Files)
    requires SoundFormat(fm) && Shaped(m)
  {
    var older, newer := SegmentLive(fm, before, m, Other(m.active)), SegmentLive(fm, before, m, m.active);
    || Replay(fm, after) == older + newer
    || (Replay(fm, after) == newer && (older != [] ==> Boot(fm, after).dropped == SaturatingAdd(m.dropped, |older|)))
  }

  /** A file replaced by renaming another over it, or not. */
  lemma MetadataReplaced(a: Files, b: Files, c: Files)
    requires SameExcept(a, b, {MetadataTemporary}) &&
             (c == b || (MetadataTemporary in b && c == Renamed(b, MetadataTemporary, Path.Metadata)))
    ensures SameExcept(a, c, {Path.Metadata, MetadataTemporary}) && SameSlots(a, c) &&
            (Path.Metadata in a ==> Path.Metadata in c)
    ensures c == b ==> Content(c, Path.Metadata) == Content(a, Path.Metadata)
    ensures MetadataTemporary in b && c == Renamed(b, MetadataTemporary, Path.Metadata) ==>
      Content(c, Path.Metadata) == b[MetadataTemporary]
  {
  }

  /** What a batch costs in the request body: every record and its separator. */
  function BatchBytes(ps: seq<Payload>): nat
  {
    if ps == [] then 0 else BatchBytes(ps[..|ps| - 1]) + |ps[|ps| - 1]| + 1
  }

  /** `batch` is the longest prefix of `pending` within the record limit and the byte budget. */
  ghost predicate LongestBatch(pending: seq<Payload>, limit: nat, budget: nat, batch: seq<Payload>)
  {
    && batch <= pending && |batch| <= limit && BatchBytes(batch) <= budget
    && (|batch| < limit && |batch| < |pending| ==> BatchBytes(pending[..|batch| + 1]) > budget)
  }

  /** Read a record's payload the way the firmware does, in pieces of at most 256 bytes. */
  method ReadPayload(f: bytes, at: nat, length: nat) returns (payload: bytes)
    requires at + length <= |f|
    ensures payload == f[at..at + length]
  {
    payload := [];
    while |payload| < length
      invariant |payload| <= length && payload == f[at..at + |payload|]
    {
      var wanted := Min(256, length - |payload|);
      payload := payload + f[at + |payload|..at + |payload| + wanted];
    }
  }

  /** One segment's share of a batch: extend `taken` record by record until a limit stops it. */
  method ExtendBatch(fr: Framing, f: bytes, head: nat, count: nat, limit: nat, budget: nat, taken: seq<Payload>,
      ghost all: seq<Payload>)
    returns (batch: seq<Payload>, stopped: bool)
    requires |Live(fr, f, head)| == count && all == taken + Live(fr, f, head)
    requires |taken| <= limit && BatchBytes(taken) <= budget
    ensures LongestBatch(all, limit, budget, batch)
    ensures if stopped then |batch| < |all| else |batch| == limit || batch == all
  {
    hide RecordAt, PayloadAt, LengthAt, Live, NextAt, BatchBytes;
    batch := taken;
    var at: nat, index: nat := head, 0;
    assert batch == all[..|taken|] && all[|taken|..] == Live(fr, f, head);
    while index < count && |batch| < limit
      invariant index <= count && |batch| == |taken| + index <= limit && BatchBytes(batch) <= budget
      invariant batch == all[..|batch|] && Live(fr, f, at) == all[|batch|..]
    {
      NextInBatch(fr, f, at, all, batch);
      var length := LengthAt(fr, f, at);
      if BatchBytes(batch) + length + 1 > budget {
        return batch, true;
      }
      var payload := ReadPayload(f, at + HEADER_BYTES, length);
      batch := batch + [payload];
      at, index := NextAt(fr, f, at), index + 1;
    }
    stopped := false;
  }

  /** The record at `at` is the next of all, and what it would add to the batch. */
  lemma NextInBatch(fr: Framing, f: bytes, at: nat, all: seq<Payload>, batch: seq<Payload>)
    requires batch < all && batch == all[..|batch|] && Live(fr, f, at) == all[|batch|..]
    ensures RecordAt(fr, f, at) && at + HEADER_BYTES <= |f| && at + HEADER_BYTES + LengthAt(fr, f, at) <= |f|
    ensures var next := f[at + HEADER_BYTES..at + HEADER_BYTES + LengthAt(fr, f, at)];
      && all[..|batch| + 1] == batch + [next] && Live(fr, f, NextAt(fr, f, at)) == all[|batch| + 1..]
      && BatchBytes(batch + [next]) == BatchBytes(batch) + LengthAt(fr, f, at) + 1
  {
    hide RecordAt, PayloadAt, LengthAt, Live, NextAt, BatchBytes;
    LiveHead(fr, f, at);
    RecordFits(fr, f, at);
    var next := all[|batch|];
    assert all[..|batch| + 1] == batch + [next] && all[|batch|..][1..] == all[|batch| + 1..];
    BatchGrows(batch, next);
  }

  /** The oldest segment's records, then the other one's, each as its index says. */
  lemma SegmentsInOrder(fm: Format, files: Files, m: Counters, tail: seq<nat>, count: seq<nat>)
    requires Indexed(fm, files, m, tail, count)
    ensures var s, o := OldestSegment(m, count), Other(OldestSegment(m, count));
      && View(fm, files, m) == SegmentLive(fm, files, m, s) + SegmentLive(fm, files, m, o)
      && |SegmentLive(fm, files, m, s)| == count[s] && |SegmentLive(fm, files, m, o)| == count[o]
      && SegmentLive(fm, files, m, s) == Live(fm.framing, Content(files, Segment(s)), m.head[s])
      && SegmentLive(fm, files, m, o) == Live(fm.framing, Content(files, Segment(o)), m.head[o])
  {
    hide Live, LiveEnd, SegmentLive, View, SegmentIndexed;
    var s, o := OldestSegment(m, count), Other(OldestSegment(m, count));
    IndexedSegment(fm, files, m, tail[s], count[s], s);
    IndexedSegment(fm, files, m, tail[o], count[o], o);
    OlderThenNewer(fm, files, m, tail, count);
  }

  /** A batch that a limit ended inside `a`, or with nothing behind it, is the longest one of the whole, too. */
  lemma BatchEndedEarly(a: seq<Payload>, b: seq<Payload>, limit: nat, budget: nat, batch: seq<Payload>)
    requires LongestBatch(a, limit, budget, batch) && (|batch| < |a| || |batch| == limit || b == [])
    ensures LongestBatch(a + b, limit, budget, batch)
  {
    if b == [] {
      assert a + b == a;
    } else if |batch| < |a| {
      assert (a + b)[..|batch| + 1] == a[..|batch| + 1];
    }
  }

  lemma EmptyBatch(pending: seq<Payload>, limit: nat, budget: nat)
    ensures pending == [] || limit == 0 ==> LongestBatch(pending, limit, budget, [])
    ensures BatchBytes([]) == 0
  {
  }

  lemma BatchGrows(ps: seq<Payload>, p: Payload)
    ensures BatchBytes(ps + [p]) == BatchBytes(ps) + |p| + 1
  {
    assert (ps + [p])[..|ps|] == ps;
  }

  /** `length` is the payload length in the header at the segment's head. */
  ghost predicate HeadMoves(fm: Format, files: Files, m: Counters, segment: nat, length: nat)
    requires Shaped(m) && segment < 2
  {
    var f := Content(files, Segment(segment));
    RecordAt(fm.framing, f, m.head[segment]) ==>
      NextAt(fm.framing, f, m.head[segment]) == m.head[segment] + HEADER_BYTES + length
  }

  /** Counters that differ in the drop count only mean the same segments in the same order. */
  lemma SameHeads(fm: Format, files: Files, m: Counters, n: Counters, capacity: nat)
    requires Shaped(m) && Shaped(n) && m.active == n.active && m.head == n.head
    ensures View(fm, files, m) == View(fm, files, n) && Aligned(fm, files, m) == Aligned(fm, files, n)
    ensures Retained(fm, files, m, capacity) == Retained(fm, files, n, capacity)
  {
    ViewDependsOnSegments(fm, files, files, m, n);
    RetainedDependsOnSegments(fm, files, files, m, n, capacity);
  }

  lemma HeaderMoves(fm: Format, files: Files, m: Counters, segment: nat)
    requires Shaped(m) && segment < 2
    requires m.head[segment] + HEADER_BYTES <= |Content(files, Segment(segment))|
    ensures HeadMoves(fm, files, m, segment, LengthAt(fm.framing, Content(files, Segment(segment)), m.head[segment]))
  {
  }

  lemma HeadFits(fm: Format, files: Files, m: Counters, tail: seq<nat>, count: seq<nat>, segment: nat, length: nat)
    requires Indexed(fm, files, m, tail, count) && View(fm, files, m) != [] && segment == OldestSegment(m, count)
    requires HeadMoves(fm, files, m, segment, length)
    ensures count[segment] > 0 && m.head[segment] + HEADER_BYTES + length <= tail[segment]
  {
    hide Live, LiveEnd;
    OldestRecord(fm, files, m, tail, count);
  }

  /** How many bytes behind the live run a scan cuts off. */
  ghost function TailCut(fm: Format, files: Files, m: Counters, segment: nat): nat
    requires Shaped(m) && segment < 2
  {
    |Content(files, Segment(segment))| - ScanEnd(fm, files, m, segment)
  }

  /** Every cut-off tail is one corruption event, and its bytes are added to the quarantine's, in wrapping 32 bits. */
  ghost predicate TailTallied(fm: Format, a: Files, m: Counters, n: Counters, segment: nat)
    requires Shaped(m) && segment < 2
  {
    var cut := TailCut(fm, a, m, segment);
    && n.corruptionEvents == (m.corruptionEvents + if cut > 0 then 1 else 0) % WORD
    && n.quarantinedBytes == (m.quarantinedBytes + cut) % WORD
  }

  /** The same for both scans of a boot. */
  ghost predicate BothTallied(fm: Format, a: Files, m: Counters, n: Counters)
    requires Shaped(m)
  {
    var c, d := TailCut(fm, a, m, 0), TailCut(fm, a, m, 1);
    && n.corruptionEvents == (m.corruptionEvents + (if c > 0 then 1 else 0) + (if d > 0 then 1 else 0)) % WORD
    && n.quarantinedBytes == (m.quarantinedBytes + c + d) % WORD
  }

  lemma TalliedTwice(fm: Format, a: Files, b: Files, m: Counters, k: Counters, n: Counters)
    requires Shaped(m) && Shaped(k) && TailTallied(fm, a, m, k, 0) && TailTallied(fm, b, k, n, 1)
    requires Content(b, Segment(1)) == Content(a, Segment(1)) && k.head[1] == m.head[1]
    ensures BothTallied(fm, a, m, n)
  {
    hide Content, TailCut;
    SameCut(fm, a, b, m, k);
    AddedTwice(m.corruptionEvents, if TailCut(fm, a, m, 0) > 0 then 1 else 0, if TailCut(fm, a, m, 1) > 0 then 1
      else 0);
    AddedTwice(m.quarantinedBytes, TailCut(fm, a, m, 0), TailCut(fm, a, m, 1));
  }

  lemma SameCut(fm: Format, a: Files, b: Files, m: Counters, k: Counters)
    requires Shaped(m) && Shaped(k) && Content(b, Segment(1)) == Content(a, Segment(1)) && k.head[1] == m.head[1]
    ensures TailCut(fm, b, k, 1) == TailCut(fm, a, m, 1)
  {
  }

  /** Adding twice in wrapping 32 bits. */
  lemma AddedTwice(x: nat, y: nat, z: nat)
    ensures ((x + y) % WORD + z) % WORD == (x + y + z) % WORD
  {
    var q, w := (x + y) / WORD, (x + y) % WORD;
    assert x + y == WORD * q + w;
    var t := (w + z) / WORD;
    Quotient(x + y + z, WORD, q + t, (w + z) % WORD);
  }

  lemma SameTails(fm: Format, a: Files, b: Files, m: Counters, n: Counters)
    requires Shaped(m) && Content(b, Segment(0)) == Content(a, Segment(0)) &&
             Content(b, Segment(1)) == Content(a, Segment(1))
    ensures BothTallied(fm, a, m, n) == BothTallied(fm, b, m, n)
  {
    hide Content;
    assert TailCut(fm, b, m, 0) == TailCut(fm, a, m, 0) && TailCut(fm, b, m, 1) == TailCut(fm, a, m, 1);
  }

  /** What scanning a segment leaves alone, however it ends. */
  ghost predicate Scanned(a: Files, m: Counters, b: Files, n: Counters, segment: nat)
    requires Shaped(m) && segment < 2
  {
    && Shaped(n) && n.active == m.active && n.reserved == m.reserved && n.dropped == m.dropped
    && n.head[Other(segment)] == m.head[Other(segment)] && n.head[segment] <= m.head[segment]
    && ScanFrame(a, b, segment)
  }

  /** The boot scan of one segment: how far its records reach from the head, and how many there are. */
  method ScanRecords(fr: Framing, f: bytes, head: nat) returns (end: nat, records: nat)
    requires head <= |f|
    ensures end == LiveEnd(fr, f, head) && records == |Live(fr, f, head)|
  {
    hide RecordAt, NextAt, PayloadAt;
    end, records := head, 0;
    while RecordAt(fr, f, end)
      invariant head <= end <= |f|
      invariant LiveEnd(fr, f, end) == LiveEnd(fr, f, head)
      invariant records + |Live(fr, f, end)| == |Live(fr, f, head)|
      decreases |f| - end
    {
      LiveStep(fr, f, end);
      end, records := NextAt(fr, f, end), records + 1;
    }
  }

  /** Copy bytes to the end of a file, 256 at a time; what arrived is always a prefix. */
  method CopyTo(device: Device, data: bytes, to: Path) returns (ok: bool, ghost copied: bytes)
    modifies device
    ensures device.powered ==> old(device.powered)
    ensures |copied| <= |data| && copied == data[..|copied|]
    ensures ok ==> |copied| == |data| && device.powered == old(device.powered)
    ensures SameExcept(old(device.files), device.files, {to})
    ensures Content(device.files, to) == Content(old(device.files), to) + copied
    ensures to in old(device.files) ==> to in device.files
    ensures device.reliable && old(device.powered) ==> ok
  {
    hide SameExcept;
    ok, copied := true, [];
    ghost var files0 := device.files;
    var remaining: nat := |data|;
    Unchanged(files0, {to});
    while ok && remaining > 0
      invariant remaining <= |data| && |copied| <= |data| && copied == data[..|copied|]
      invariant device.powered ==> old(device.powered)
      invariant ok ==> |copied| == |data| - remaining && device.powered == old(device.powered)
      invariant device.reliable && old(device.powered) ==> ok
      invariant SameExcept(files0, device.files, {to})
      invariant Content(device.files, to) == Content(files0, to) + copied
      invariant to in files0 ==> to in device.files
    {
      ghost var files1, before := device.files, copied;
      ok, copied := CopyChunk(device, data, |data| - remaining, Min(remaining, 256), to);
      SameExceptChain(files0, files1, device.files, {to});
      assert Content(files0, to) + before + data[|before|..|copied|] == Content(files0, to) + copied;
      remaining := remaining - Min(remaining, 256);
    }
  }

  method CopyChunk(device: Device, data: bytes, from: nat, chunk: nat, to: Path) returns (ok: bool, ghost copied: bytes)
    requires chunk > 0 && from + chunk <= |data|
    modifies device
    ensures device.powered ==> old(device.powered)
    ensures from <= |copied| <= |data| && copied == data[..|copied|]
    ensures ok ==> |copied| == from + chunk && device.powered
    ensures SameExcept(old(device.files), device.files, {to})
    ensures Content(device.files, to) == Content(old(device.files), to) + data[from..|copied|]
    ensures to in old(device.files) ==> to in device.files
    ensures device.reliable && old(device.powered) ==> ok
  {
    ghost var written;
    ok, written := device.Append(to, data[from..from + chunk]);
    copied := data[..from + |written|];
    assert data[from..|copied|] == written;
  }

  /** What no boot, however interrupted, changes about the next boot. */
  ghost predicate BootKept(fm: Format, a: Files, b: Files)
    requires SoundFormat(fm)
  {
    && Replay(fm, b) == Replay(fm, a)
    && Boot(fm, b).dropped == Boot(fm, a).dropped
    && (Boot(fm, a).reserved != 0 ==> Boot(fm, b).reserved != 0)
    && (forall capacity | DurablyRetained(fm, a, capacity) :: DurablyRetained(fm, b, capacity))
  }

  lemma ScanStep(fm: Format, a: Files, b: Files, m: Counters, s: nat)
    requires SoundFormat(fm) && Shaped(m) && s < 2 && ScanFrame(a, b, s)
    requires Boot(fm, a).head[s] == m.head[s] && SegmentLive(fm, b, m, s) == SegmentLive(fm, a, m, s)
    ensures BootKept(fm, a, b) && Boot(fm, b).head == Boot(fm, a).head
  {
    hide *;
    ScanBoot(fm, a, b, s);
    forall capacity | DurablyRetained(fm, a, capacity) ensures DurablyRetained(fm, b, capacity) {
      ScanKeepsReplay(fm, a, b, m, s, capacity);
    }
    ScanKeepsReplay(fm, a, b, m, s, 0);
    BootKeptFrom(fm, a, b);
  }

  lemma BootKeptFrom(fm: Format, a: Files, b: Files)
    requires SoundFormat(fm) && Replay(fm, b) == Replay(fm, a) && Boot(fm, b).dropped == Boot(fm, a).dropped
    requires Boot(fm, a).reserved != 0 ==> Boot(fm, b).reserved != 0
    requires forall capacity | DurablyRetained(fm, a, capacity) :: DurablyRetained(fm, b, capacity)
    ensures BootKept(fm, a, b)
  {
  }

  const FILESYSTEM_RESERVE_BYTES := 512 * 1024

  /** The largest size of which two segments keep within the configured limit and leave the reserve. */
  function SegmentCapacity(maximumBytes: nat, totalBytes: nat): (capacity: nat)
    ensures 2 * capacity <= maximumBytes && (capacity > 0 ==> 2 * capacity + FILESYSTEM_RESERVE_BYTES <= totalBytes)
    ensures 2 * (capacity + 1) > maximumBytes || 2 * (capacity + 1) + FILESYSTEM_RESERVE_BYTES > totalBytes
  {
    Min(maximumBytes, if totalBytes <= FILESYSTEM_RESERVE_BYTES then 0 else totalBytes - FILESYSTEM_RESERVE_BYTES) / 2
  }

  lemma BootKeptItself(fm: Format, a: Files)
    requires SoundFormat(fm)
    ensures BootKept(fm, a, a)
  {
  }

  lemma BootKeptChain(fm: Format, a: Files, b: Files, c: Files)
    requires SoundFormat(fm) && BootKept(fm, a, b) && BootKept(fm, b, c)
    ensures BootKept(fm, a, c)
  {
    hide Replay, Boot, DurablyRetained;
  }

  /** Same metadata bytes, same segments, no file gone: the same boot. */
  lemma SameBoot(fm: Format, a: Files, b: Files)
    requires SoundFormat(fm) && SameSegments(a, b) && Content(a, Path.Metadata) == Content(b, Path.Metadata)
    requires Reconstructed(a).reserved != 0 ==> Reconstructed(b).reserved != 0
    ensures BootKept(fm, a, b)
  {
    hide Live, LiveEnd, SegmentLive, Content, Retained, Replay;
    BootIsShaped(fm, a);
    BootIsShaped(fm, b);
    ReplayKept(fm, a, b);
    forall capacity | DurablyRetained(fm, a, capacity) ensures DurablyRetained(fm, b, capacity) {
      RetainedDependsOnSegments(fm, a, b, Boot(fm, a), Boot(fm, b), capacity);
    }
  }

  lemma TemporariesFacts(a: Files, b: Files)
    requires SameExcept(a, b, {MetadataTemporary, SegmentRepair})
    ensures SameSegments(a, b) && Content(a, Path.Metadata) == Content(b, Path.Metadata) &&
            Reconstructed(a) == Reconstructed(b)
    ensures Content(b, Segment(0)) == Content(a, Segment(0)) && Content(b, Segment(1)) == Content(a, Segment(1))
  {
    assert Content(b, Segment(0)) == Content(a, Segment(0)) && Content(b, Segment(1)) == Content(a, Segment(1));
    assert Content(b, Quarantine(0)) == Content(a, Quarantine(0)) &&
    Content(b, Quarantine(1)) == Content(a, Quarantine(1));
    assert Content(b, Path.Metadata) == Content(a, Path.Metadata);
  }

  /** Temporary files mean nothing to a boot. */
  lemma TemporariesGone(fm: Format, a: Files, b: Files)
    requires SoundFormat(fm) && SameExcept(a, b, {MetadataTemporary, SegmentRepair})
    ensures BootKept(fm, a, b) && Boot(fm, a) == Boot(fm, b) && Replay(fm, a) == Replay(fm, b)
    ensures Content(b, Segment(0)) == Content(a, Segment(0)) && Content(b, Segment(1)) == Content(a, Segment(1))
  {
    hide BootKept, SameExcept, Content, Reconstructed;
    TemporariesFacts(a, b);
    SameBoot(fm, a, b);
    ReplayKept(fm, a, b);
  }

  /** The boot's own metadata commit: a cut in it is no different from a cut before or after it. */
  lemma BootSaved(fm: Format, a: Files, b: Files, c: Files, n: Counters)
    requires SoundFormat(fm) && Shaped(n) && SameExcept(b, c, {Path.Metadata, MetadataTemporary}) && BootKept(fm, a, b)
    requires Path.Metadata in b ==> Path.Metadata in c
    requires Content(c, Path.Metadata) == fm.write(n) || Content(c, Path.Metadata) == Content(b, Path.Metadata)
    requires View(fm, b, n) == Replay(fm, a) && n.dropped == Boot(fm, a).dropped
    requires Boot(fm, a).reserved != 0 ==> n.reserved != 0
    requires RetainedAsBooted(fm, a, b, n)
    ensures BootKept(fm, a, c)
  {
    hide Live, LiveEnd, SegmentLive, Content, Retained, Replay, Boot, Reconstructed, View, SameExcept, SameSegments,
      SoundFormat;
    SavedFacts(fm, b, c);
    if Content(c, Path.Metadata) == fm.write(n) {
      MetadataAttempt(fm, b, c, n);
      forall capacity | DurablyRetained(fm, a, capacity) ensures DurablyRetained(fm, c, capacity) {
        RetainedDependsOnSegments(fm, b, c, n, n, capacity);
        AlignedRetained(fm, c, n, capacity);
      }
    } else {
      SameBoot(fm, b, c);
      BootKeptChain(fm, a, b, c);
    }
  }

  lemma BootedKept(fm: Format, a: Files, b: Files, c: Files, d: Files, n: Counters, capacity: nat)
    requires SoundFormat(fm) && Shaped(n) && BootKept(fm, a, b) && RetainedAsBooted(fm, b, c, n) && SameSegments(c, d)
    requires Aligned(fm, d, n)
    ensures DurablyRetained(fm, a, capacity) ==> Retained(fm, d, n, capacity) && DurablyRetained(fm, d, capacity)
  {
    hide Live, LiveEnd, SegmentLive, Content, Retained, Replay, Boot, SameSegments, SoundFormat, Aligned,
      DurablyRetained;
    AlignedRetained(fm, d, n, capacity);
    RetainedDependsOnSegments(fm, c, d, n, n, capacity);
  }

  class Queue {
    const device: Device
    const format: Format
    var metadata: Counters
    var tail: seq<nat>
    var count: seq<nat>
    var segmentMaximumBytes: nat
    var enabled: bool
    var ready: bool
    var lastError: Fault

    constructor (device: Device, format: Format)
      requires SoundFormat(format)
      ensures Valid() && !ready && this.device == device && this.format == format
    {
      this.device, this.format := device, format;
      metadata, tail, count := Counters(0, 0, [0, 0], 0, 0, 0), [0, 0], [0, 0];
      segmentMaximumBytes, enabled, ready, lastError := 0, false, false, NoFault;
    }

    ghost predicate Valid()
      reads this`metadata, this`tail, this`count, this`segmentMaximumBytes, this`ready, device
    {
      && SoundFormat(format)
      && Shaped(metadata) && |tail| == |count| == 2
      && (ready ==>
           segmentMaximumBytes < WORD && tail[0] < WORD && tail[1] < WORD &&
           Indexed(format, device.files, metadata, tail, count))
    }

    ghost function Contents(): seq<Payload>
      reads this`metadata, device
      requires Shaped(metadata)
    {
      View(format, device.files, metadata)
    }

    /** The records of the active segment, which rotation keeps. */
    ghost function Newer(): seq<Payload>
      reads this`metadata, device
      requires Shaped(metadata)
    {
      SegmentLive(format, device.files, metadata, metadata.active)
    }

    /** The drop count once the older segment is given up. */
    ghost function AfterDrop(): uint32
      reads this`metadata, this`count
      requires Shaped(metadata) && |count| == 2
    {
      SaturatingAdd(metadata.dropped, count[Other(metadata.active)])
    }

    /** Both segments are within capacity and the active head is 0 while the older segment holds records. */
    ghost predicate Orderly()
      reads this`metadata, this`segmentMaximumBytes, device
      requires Shaped(metadata)
    {
      Retained(format, device.files, metadata, segmentMaximumBytes)
    }

    /** The same now and at any boot. */
    ghost predicate Kept()
      reads this`metadata, this`segmentMaximumBytes, device
      requires Shaped(metadata) && SoundFormat(format)
    {
      Orderly() && DurablyRetained(format, device.files, segmentMaximumBytes)
    }

    /** Memory is level with the flash, or ahead of it by a reset that the next rotation commits. */
    ghost predicate Recovers()
      reads this`metadata, this`tail, device
      requires metadata.active < |tail|
    {
      Aligned(format, device.files, metadata) || (Behind(format, device.files, metadata) && tail[metadata.active] > 0)
    }

    /** A segment without pending records holds no bytes either: it has been reclaimed. */
    ghost predicate Tidy()
      reads this`tail, this`count
    {
      |tail| == |count| == 2 && forall s | 0 <= s < 2 && count[s] == 0 :: tail[s] == 0
    }

    /** A segment that held records before, and no longer does, has been emptied. */
    ghost predicate Reclaimed(was: seq<nat>)
      reads this`metadata, this`tail, this`count, device
    {
      Shaped(metadata) && |tail| == |count| == |was| == 2 &&
      forall s: nat | s < 2 && count[s] == 0 && was[s] > 0 ::
        Content(device.files, Segment(s)) == [] && metadata.head[s] == 0 && tail[s] == 0
    }

    lemma DrainedOnly(was: seq<nat>, segment: nat)
      requires Valid() && ready && |was| == 2 && segment < 2 && count[Other(segment)] == was[Other(segment)]
      requires count[segment] == 0 ==> tail[segment] == 0
      ensures Reclaimed(was)
    {
      hide Live, LiveEnd, SoundFormat;
    }

    /** An empty queue that is tidy takes any record it accepts without rotating. */
    lemma EmptyNeedsNoRotation(payload: Payload)
      requires Valid() && ready && Tidy() && Contents() == [] && Accepts(payload)
      ensures !Rotates(payload) && Content(device.files, Segment(0)) == Content(device.files, Segment(1)) == []
    {
      hide Live, LiveEnd, SegmentLive;
      IndexCounts(format, device.files, metadata, tail, count, 0);
      IndexCounts(format, device.files, metadata, tail, count, 1);
    }

    /** The drop count is what the queue reports as known. */
    predicate DroppedRecordsKnown()
      reads this`ready, this`metadata
    {
      ready && metadata.reserved == 0
    }

    /** The next append of `payload` first reclaims the older segment. */
    predicate Rotates(payload: Payload)
      reads this`metadata, this`tail, this`segmentMaximumBytes
      requires metadata.active < |tail|
    {
      tail[metadata.active] + HEADER_BYTES + |payload| > segmentMaximumBytes
    }

    method SaveMetadata() returns (ok: bool)
      requires Shaped(metadata) && SoundFormat(format)
      modifies device, this`lastError
      ensures SameSlots(old(device.files), device.files)
      ensures device.powered ==> old(device.powered)
      ensures SameExcept(old(device.files), device.files, {Path.Metadata, MetadataTemporary})
      ensures Path.Metadata in old(device.files) ==> Path.Metadata in device.files
      ensures ok ==> device.powered && Content(device.files, Path.Metadata) == format.write(metadata)
      ensures Content(device.files, Path.Metadata) == format.write(metadata)
           || Content(device.files, Path.Metadata) == Content(old(device.files), Path.Metadata)
      ensures !ok && device.powered ==>
        Content(device.files, Path.Metadata) == Content(old(device.files), Path.Metadata)
      ensures !ok ==> lastError == MetadataWriteFailed
      ensures device.reliable && old(device.powered) ==> ok
    {
      ghost var files0 := device.files;
      ok := WriteTemporary();
      ghost var files1 := device.files;
      if ok {
        ok := device.Rename(MetadataTemporary, Path.Metadata);
      }
      MetadataReplaced(files0, files1, device.files);
      if !ok {
        lastError := MetadataWriteFailed;
      }
    }

    method WriteTemporary() returns (ok: bool)
      requires Shaped(metadata) && SoundFormat(format)
      modifies device
      ensures device.powered ==> old(device.powered)
      ensures SameExcept(old(device.files), device.files, {MetadataTemporary})
      ensures ok ==>
        device.powered && MetadataTemporary in device.files && device.files[MetadataTemporary] == format.write(metadata)
      ensures device.reliable && old(device.powered) ==> ok
    {
      device.Remove(MetadataTemporary);
      ok := device.Truncate(MetadataTemporary);
      if ok {
        ghost var written;
        ok, written := device.Append(MetadataTemporary, format.write(metadata));
      }
    }

    method TruncateSegment(segment: nat) returns (ok: bool)
      requires segment < 2 && |metadata.head| == |tail| == |count| == 2
      modifies device, this`metadata, this`tail, this`count, this`lastError
      ensures SameSlots(old(device.files), device.files)
      ensures device.powered ==> old(device.powered)
      ensures !ok ==> metadata == old(metadata) && tail == old(tail) && count == old(count)
      ensures ok ==> device.powered && metadata == old(metadata).(head := old(metadata).head[segment := 0])
      ensures ok ==> tail == old(tail)[segment := 0] && count == old(count)[segment := 0]
      ensures device.files == old(device.files) || device.files == old(device.files)[Segment(segment) := []]
      ensures ok ==> device.files == old(device.files)[Segment(segment) := []]
      ensures !ok && device.powered ==> device.files == old(device.files)
      ensures !ok ==> lastError == SegmentResetFailed
      ensures device.reliable && old(device.powered) ==> ok
    {
      ok := device.Truncate(Segment(segment));
      if !ok {
        lastError := SegmentResetFailed;
        return;
      }
      metadata := metadata.(head := metadata.head[segment := 0]);
      tail := tail[segment := 0];
      count := count[segment := 0];
    }

    /** Record a capacity loss durably before its bytes are reclaimed; undone in memory when that fails. */
    method CommitDrop(records: nat) returns (ok: bool)
      requires Shaped(metadata) && SoundFormat(format)
      modifies device, this`metadata, this`lastError
      ensures Tallied(format, old(device.files), old(metadata), device.files, metadata)
      ensures device.powered && old(Counted(format, device.files, metadata)) ==> Counted(format, device.files, metadata)
      ensures SameSlots(old(device.files), device.files)
      ensures device.powered ==> old(device.powered)
      ensures SameExcept(old(device.files), device.files, {Path.Metadata, MetadataTemporary})
      ensures metadata == if ok then old(metadata).(dropped := SaturatingAdd(old(metadata).dropped, records))
        else old(metadata)
      ensures ok ==> device.powered && Boot(format, device.files) == metadata && Aligned(format, device.files, metadata)
      ensures old(Aligned(format, device.files, metadata)) ==>
        && Aligned(format, device.files, metadata)
        && Replay(format, device.files) == old(View(format, device.files, metadata))
      ensures (old(Orderly()) ==> Orderly()) && (old(Kept()) ==> Kept())
      ensures !ok ==> lastError == MetadataWriteFailed
      ensures device.reliable && old(device.powered) ==> ok
    {
      hide Live, LiveEnd, SegmentLive, Replay, Boot, Indexed, Aligned, SameExcept, View, Retained, DurablyRetained,
        Tallied, Counted, Content;
      ghost var files0, m0 := device.files, metadata;
      var previous := metadata.dropped;
      metadata := metadata.(dropped := SaturatingAdd(previous, records));
      ghost var m1 := metadata;
      SameHeads(format, files0, m0, m1, segmentMaximumBytes);
      ok := SaveMetadata();
      CommitAttempt(format, files0, m0, device.files, m1, tail, count, count, segmentMaximumBytes);
      SameHeads(format, device.files, m0, m1, segmentMaximumBytes);
      if Aligned(format, files0, m0) { AlignedReplays(format, files0, m0); }
      if !ok {
        metadata := metadata.(dropped := previous);
      }
    }

    /** Make the emptied segment the active one, in memory and then durably. */
    method Activate(next: nat) returns (ok: bool)
      requires Valid() && ready && next == Other(metadata.active)
      requires SegmentLive(format, device.files, metadata, next) == []
      modifies device, this`metadata, this`lastError
      ensures Tallied(format, old(device.files), old(metadata), device.files, metadata)
      ensures device.powered && old(Counted(format, device.files, metadata)) ==> Counted(format, device.files, metadata)
      ensures SameSlots(old(device.files), device.files)
      ensures device.powered ==> old(device.powered)
      ensures metadata == old(metadata).(active := next)
      ensures Valid() && Contents() == old(Contents())
      ensures ok ==> device.powered && Aligned(format, device.files, metadata) && Boot(format, device.files) == metadata
      ensures old(Replay(format, device.files)) == old(Contents()) ==>
        && Replay(format, device.files) == old(Contents())
        && (Boot(format, device.files).dropped == old(metadata).dropped
            || Boot(format, device.files).dropped == old(Boot(format, device.files)).dropped)
      ensures metadata.head[next] == 0 ==> (old(Orderly()) ==> Orderly()) && (old(Kept()) ==> Kept())
      ensures !ok ==> lastError == MetadataWriteFailed
      ensures SameSegments(old(device.files), device.files)
      ensures !ok && device.powered ==>
        Boot(format, device.files).active == old(Boot(format, device.files).active)
        && Boot(format, device.files).head == old(Boot(format, device.files).head)
      ensures device.reliable && old(device.powered) ==> ok
    {
      hide Live, LiveEnd, SegmentLive, Replay, Boot, Indexed, Aligned, SameExcept, Retained, DurablyRetained, Tallied,
        Counted, Content;
      ghost var files0, m0 := device.files, metadata;
      metadata := metadata.(active := next);
      ghost var m1 := metadata;
      ok := SaveMetadata();
      CommitAttempt(format, files0, m0, device.files, m1, tail, count, count, segmentMaximumBytes);
      IndexShared(format, device.files, m0, m1, tail, count);
      SameHeadsSegments(format, files0, m0, m1);
      SameDropped(format, files0, device.files, m0, m1);
      if old(Orderly()) && m0.head[next] == 0 {
        ActivatedRetained(format, files0, m0, m1, segmentMaximumBytes);
      }
    }

    /** The first half of rotation: count the older segment's records as lost, then empty it. */
    method GiveUp(next: nat) returns (ok: bool)
      requires Valid() && ready && next == Other(metadata.active)
      modifies device, this`metadata, this`tail, this`count, this`lastError
      ensures Tallied(format, old(device.files), old(metadata), device.files, metadata)
      ensures device.powered && old(Counted(format, device.files, metadata)) ==> Counted(format, device.files, metadata)
      ensures SameSlots(old(device.files), device.files)
      ensures Shaped(metadata) && metadata.active == old(metadata.active) && (device.powered ==> old(device.powered))
      ensures old(Recovers()) ==> RotateOutcome(format, old(device.files), old(metadata), device.files)
      ensures ok ==>
        device.powered && Valid() && Contents() == old(Newer()) &&
        SegmentLive(format, device.files, metadata, next) == []
      ensures ok ==> metadata.head[next] == 0 && metadata.dropped == old(AfterDrop())
      ensures ok && old(count[next]) > 0 ==> Boot(format, device.files).dropped == metadata.dropped
      ensures ok ==> tail == old(tail[next := 0]) && count == old(count[next := 0])
      ensures !ok && device.powered ==> Valid() && Contents() == old(Contents())
      ensures (old(Orderly()) ==> Orderly()) && (old(Kept()) ==> Kept())
      ensures old(Recovers()) && device.powered ==> Replay(format, device.files) == Contents()
      ensures ok && (old(Recovers()) || metadata.dropped != old(metadata.dropped)) ==>
        HeadBehind(format, device.files, metadata, next) && Content(device.files, Segment(next)) == []
      ensures !ok && device.powered &&
              (old(Aligned(format, device.files, metadata)) || metadata.dropped != old(metadata.dropped)) ==>
        Aligned(format, device.files, metadata)
      ensures !ok && device.powered && old(Recovers() && !Aligned(format, device.files, metadata)) ==>
        Behind(format, device.files, metadata)
      ensures !ok ==> lastError == MetadataWriteFailed || lastError == SegmentResetFailed
      ensures !ok ==> tail == old(tail) && count == old(count)
      ensures device.reliable && old(device.powered) ==> ok
    {
      hide Live, LiveEnd, SegmentLive, Replay, Boot, Indexed, Aligned, SameExcept, Retained, DurablyRetained, Behind,
        HeadBehind, SameSlots, Content, SoundFormat, Tallied, Counted, SaturatingAdd;
      ghost var fm, files0, m0, tail0, count0 := format, device.files, metadata, tail, count;
      ghost var behind := Behind(fm, files0, m0) && tail[m0.active] > 0;
      if behind { BehindIsEmptied(fm, files0, m0, tail0, count0); }
      var recordsToDrop := count[next];
      IndexCounts(fm, files0, m0, tail0, count0, next);
      SlotsItself(files0);
      TallyNothing(fm, files0, m0, m0);
      if Recovers() { LevelReplays(fm, files0, m0); }
      if recordsToDrop > 0 {
        ok := CommitDrop(recordsToDrop);
        MetadataStep(fm, files0, device.files, m0, tail0, count0);
        ViewDependsOnSegments(fm, files0, device.files, m0, metadata);
        IndexShared(fm, device.files, m0, metadata, tail0, count0);
        if !ok {
          return;
        }
      }
      ghost var files1, m1 := device.files, metadata;
      ok := TruncateSegment(next);
      EmptyAttempt(fm, files1, m1, device.files, metadata, next, segmentMaximumBytes);
      SlotsChain(files0, files1, device.files);
      TallyChain(fm, files0, m0, files1, m1, device.files, metadata);
      if !ok {
        return;
      }
      EmptiedIndex(fm, files1, m1, tail0, count0, next, metadata);
      EmptiedView(fm, files1, metadata, next);
      if Aligned(fm, files1, m1) {
        ResetLags(fm, files1, m1, device.files, metadata, next);
      } else {
        assert behind ==> device.files == files0 && metadata.head == m0.head;
      }
    }

    /**
     Give up the older segment and make it the active one. Only the last commit failing leaves
     memory ahead of the flash.
     */
    method RotateSegment() returns (ok: bool)
      requires Valid() && ready
      modifies device, this`metadata, this`tail, this`count, this`lastError
      ensures Tallied(format, old(device.files), old(metadata), device.files, metadata)
      ensures device.powered && old(Counted(format, device.files, metadata)) ==> Counted(format, device.files, metadata)
      ensures SameSlots(old(device.files), device.files)
      ensures Shaped(metadata)
      ensures device.powered ==> old(device.powered)
      ensures old(Recovers()) ==> RotateOutcome(format, old(device.files), old(metadata), device.files)
      ensures ok ==> device.powered && Aligned(format, device.files, metadata) && Valid()
      ensures ok ==> Boot(format, device.files) == metadata
      ensures ok ==> metadata.active == old(Other(metadata.active)) && Contents() == old(Newer())
      ensures ok ==> tail == old(tail[Other(metadata.active) := 0]) && count == old(count[Other(metadata.active) := 0])
      ensures ok ==> metadata.dropped == old(AfterDrop())
      ensures !ok && device.powered ==>
        Valid() && (Contents() == old(Contents()) ||
          (Contents() == old(Newer()) && metadata.dropped == old(AfterDrop())))
      ensures (old(Orderly()) ==> Orderly()) && (old(Kept()) ==> Kept())
      ensures old(Recovers()) && device.powered ==> Replay(format, device.files) == Contents()
      ensures !ok && device.powered &&
              (old(Aligned(format, device.files, metadata)) || metadata.dropped != old(metadata.dropped)) ==>
        if metadata.active == old(metadata.active) then Aligned(format, device.files, metadata)
        else OrderBehind(format, device.files, metadata) && Behind(format, device.files, metadata)
      ensures !ok && device.powered && old(Recovers() && !Aligned(format, device.files, metadata)) ==>
        Behind(format, device.files, metadata)
      ensures !ok ==> lastError == MetadataWriteFailed || lastError == SegmentResetFailed
      ensures old(Tidy()) ==> Tidy()
      ensures device.reliable && old(device.powered) ==> ok
    {
      hide Live, LiveEnd, SegmentLive, Replay, Boot, Indexed, Aligned, SameExcept, Retained, DurablyRetained,
        OrderBehind, Behind, HeadBehind, SameSlots, Content, SoundFormat, Tallied, Counted, SaturatingAdd;
      ghost var fm, files0, m0 := format, device.files, metadata;
      var next := Other(metadata.active);
      IndexCounts(fm, files0, m0, tail, count, next);
      ok := GiveUp(next);
      if !ok {
        return;
      }
      ghost var files2, m2 := device.files, metadata;
      ok := Activate(next);
      if !ok && device.powered && HeadBehind(fm, files2, m2, next) && Content(files2, Segment(next)) == [] {
        SwitchedBehind(fm, files2, m2, device.files, metadata);
      }
      SlotsChain(files0, files2, device.files);
      TallyChain(fm, files0, m0, files2, m2, device.files, metadata);
    }

    /** The second half of `enqueue`: append one framed record to the active segment. */
    method AppendRecord(payload: Payload) returns (ok: bool)
      requires Valid() && ready && Storable(payload) && !Rotates(payload)
      modifies device, this`tail, this`count, this`lastError
      ensures Tallied(format, old(device.files), old(metadata), device.files, metadata)
      ensures device.powered && old(Counted(format, device.files, metadata)) ==> Counted(format, device.files, metadata)
      ensures SameSlots(old(device.files), device.files)
      ensures device.powered ==> old(device.powered)
      ensures ok ==> device.powered && Valid() && Contents() == old(Contents()) + [payload] && lastError == NoFault
      ensures !ok && device.powered ==> Contents() == old(Contents())
      ensures !ok ==> lastError == AppendFailed
      ensures old(Aligned(format, device.files, metadata)) ==>
        && Aligned(format, device.files, metadata)
        && (Replay(format, device.files) == old(Contents()) ||
             Replay(format, device.files) == old(Contents()) + [payload])
        && Boot(format, device.files).dropped == old(Boot(format, device.files).dropped)
      ensures (old(Orderly()) ==> Orderly()) && (old(Aligned(format, device.files, metadata) && Kept()) ==> Kept())
      ensures old(Aligned(format, device.files, metadata)) && device.powered ==>
        Replay(format, device.files) == Contents()
      ensures Boot(format, device.files).active == old(Boot(format, device.files).active)
           && Boot(format, device.files).head == old(Boot(format, device.files).head)
      ensures old(Tidy()) ==> Tidy()
      ensures device.reliable && old(device.powered) ==> ok
    {
      hide Live, LiveEnd, SegmentLive, Replay, Boot, Indexed, Aligned, Retained, DurablyRetained, View, Encode, Sound,
        Tallied, Counted;
      var segment := metadata.active;
      ghost var files0, tail0, count0 := device.files, tail, count;
      EncodedLength(format.framing, payload);
      ghost var written;
      ok, written := device.Append(Segment(segment), Encode(format.framing, payload));
      AppendedView(format, files0, metadata, tail0, count0, payload, written);
      TallyNothing(format, files0, metadata, metadata);
      TallyWritten(format, files0, metadata, segment, Content(files0, Segment(segment)) + written);
      SameDropped(format, files0, device.files, metadata, metadata);
      WrittenBoot(format, files0, segment, Content(files0, Segment(segment)) + written);
      if Aligned(format, files0, metadata) {
        AlignedReplays(format, files0, metadata);
        AppendedBoot(format, files0, metadata, segment, written);
      }
      if old(Orderly()) {
        AppendedRetained(format, files0, metadata, tail0, count0, written, segmentMaximumBytes);
      }
      if !ok {
        lastError := AppendFailed;
        return;
      }
      tail := tail[segment := tail[segment] + HEADER_BYTES + |payload|];
      count := count[segment := count[segment] + 1];
      lastError := NoFault;
    }

    /** Whether `enqueue` gets past its argument checks. */
    predicate Accepts(payload: Payload)
      reads this`ready, this`segmentMaximumBytes
    {
      ready && Storable(payload) && HEADER_BYTES + |payload| <= segmentMaximumBytes
    }

    /**
     A power cut during `enqueue` is covered: memory is level with the flash, or ahead of it where
     this append will rotate first, or be refused.
     */
    ghost predicate Covered(payload: Payload)
      reads this`metadata, this`tail, this`segmentMaximumBytes, this`ready, device
      requires metadata.active < |tail|
    {
      || Aligned(format, device.files, metadata)
      || (Behind(format, device.files, metadata) && (Rotates(payload) || !Accepts(payload)))
    }

    /**
     A successful `enqueue` appends one record after dropping nothing, or exactly the older
     segment. However it ends, power cut included, the next boot replays one of the
     outcomes listed in `EnqueueOutcome`, provided the heads were durable when it began.
     */
    method Enqueue(payload: Payload) returns (ok: bool)
      requires Valid()
      modifies device, this`metadata, this`tail, this`count, this`lastError
      ensures Tallied(format, old(device.files), old(metadata), device.files, metadata)
      ensures device.powered && old(Counted(format, device.files, metadata)) ==> Counted(format, device.files, metadata)
      ensures SameSlots(old(device.files), device.files)
      ensures Shaped(metadata) && (device.powered ==> old(device.powered))
      ensures !old(Accepts(payload)) ==>
        !ok && device.files == old(device.files) && metadata == old(metadata) && Valid()
      ensures !old(Accepts(payload)) ==> device.powered == old(device.powered)
      ensures !old(Accepts(payload)) ==>
        lastError == if !ready then Unavailable else if !Storable(payload) then PayloadSizeInvalid
          else PayloadExceedsSegment
      ensures ok ==> device.powered && Valid() && lastError == NoFault
      ensures ok ==> Contents() == (if old(Rotates(payload)) then old(Newer()) else old(Contents())) + [payload]
      ensures ok && old(Rotates(payload)) ==> metadata.dropped == old(AfterDrop())
      ensures !old(Rotates(payload)) ==> metadata.dropped == old(metadata.dropped)
      ensures !ok && device.powered ==>
        || Contents() == old(Contents())
        || (old(Rotates(payload)) && Contents() == old(Newer()) && metadata.dropped == old(AfterDrop()))
      ensures !ok && device.powered && lastError != AppendFailed ==> Valid()
      ensures ok && old(Aligned(format, device.files, metadata)) ==> Aligned(format, device.files, metadata)
      ensures old(Covered(payload)) ==>
        EnqueueOutcome(format, old(device.files), old(metadata), payload, old(Rotates(payload)), device.files)
      ensures (old(Orderly()) ==> Orderly()) && (old(Covered(payload) && Kept()) ==> Kept())
      ensures old(Covered(payload)) && device.powered ==> Replay(format, device.files) == Contents()
      ensures ok && old(Rotates(payload)) ==> Aligned(format, device.files, metadata)
      ensures !ok && device.powered && lastError != AppendFailed ==>
        (old(Aligned(format, device.files, metadata)) || metadata.dropped != old(metadata.dropped) ==>
         if metadata.active == old(metadata.active) then Aligned(format, device.files, metadata)
         else OrderBehind(format, device.files, metadata) && Behind(format, device.files, metadata))
      ensures !ok && device.powered && lastError != AppendFailed &&
              old(Covered(payload) && !Aligned(format, device.files, metadata)) ==>
        Behind(format, device.files, metadata)
      ensures device.powered && lastError == AppendFailed && old(Accepts(payload)) && old(Rotates(payload)) ==>
        Aligned(format, device.files, metadata)
      ensures old(Tidy()) ==> Tidy()
      ensures device.reliable && old(device.powered) ==> device.powered && (ok <==> old(Accepts(payload)))
    {
      hide Live, LiveEnd, SegmentLive, Replay, Boot, Indexed, Aligned, Retained, DurablyRetained, Encode, Sound,
        Tallied, Counted, OrderBehind, Behind;
      ghost var files0, m0 := device.files, metadata;
      if Covered(payload) { LevelReplays(format, files0, m0); }
      TallyNothing(format, files0, m0, m0);
      if !ready || payload == [] || |payload| > MAXIMUM_PAYLOAD_BYTES {
        lastError := if ready then PayloadSizeInvalid else Unavailable;
        return false;
      }
      if HEADER_BYTES + |payload| > segmentMaximumBytes {
        lastError := PayloadExceedsSegment;
        return false;
      }
      IndexCounts(format, files0, m0, tail, count, Other(m0.active));
      if Rotates(payload) {
        ok := RotateSegment();
        if !ok {
          return;
        }
        AlignedReplays(format, device.files, metadata);
      }
      ghost var files1, m1 := device.files, metadata;
      ok := AppendRecord(payload);
      TallyChain(format, files0, m0, files1, m1, device.files, metadata);
    }

    /** The oldest pending record, unchanged. */
    method Peek() returns (ok: bool, payload: Payload)
      requires Valid()
      modifies this`lastError
      ensures Valid() && (ok <==> ready && Contents() != [])
      ensures ok ==> payload == Contents()[0] && lastError == NoFault
    {
      hide Live, LiveEnd, View, SegmentLive, RecordAt, PayloadAt, LengthAt, Indexed, SoundFormat, OldestSegment,
        Content;
      payload := [];
      if !ready {
        return false, [];
      }
      OldestRecord(format, device.files, metadata, tail, count);
      if count[0] + count[1] == 0 {
        return false, [];
      }
      var segment := OldestSegment(metadata, count);
      var file, at := Content(device.files, Segment(segment)), metadata.head[segment];
      OldestRecordFits(format, device.files, metadata, tail, count);
      payload := ReadPayload(file, at + HEADER_BYTES, LengthAt(format.framing, file, at));
      lastError := NoFault;
      ok := true;
    }

    /** Commit the acknowledgement: the oldest segment's head moves durably over `length` payload bytes. */
    method CommitHead(segment: nat, length: nat, discarded: bool) returns (ok: bool)
      requires Valid() && ready && Contents() != []
      requires segment == OldestSegment(metadata, count)
      requires HeadMoves(format, device.files, metadata, segment, length)
      modifies device, this`metadata, this`count, this`lastError
      ensures Tallied(format, old(device.files), old(metadata), device.files, metadata)
      ensures device.powered && old(Counted(format, device.files, metadata)) ==> Counted(format, device.files, metadata)
      ensures SameSlots(old(device.files), device.files)
      ensures Shaped(metadata) && (device.powered ==> old(device.powered))
      ensures ok ==> Valid() && device.powered && Contents() == old(Contents())[1..]
      ensures ok ==> Boot(format, device.files) == metadata && Aligned(format, device.files, metadata)
      ensures ok ==> metadata.active == old(metadata.active)
      ensures ok ==>
        metadata.dropped == (if discarded then old(SaturatingAdd(metadata.dropped, 1)) else old(metadata.dropped))
      ensures !ok ==> metadata == old(metadata) && count == old(count)
      ensures !ok && device.powered ==> Valid() && Contents() == old(Contents())
      ensures old(Replay(format, device.files)) == old(Contents()) ==>
        Replay(format, device.files) == old(Contents()) || Replay(format, device.files) == old(Contents())[1..]
      ensures (old(Orderly()) ==> Orderly()) && (old(Kept()) ==> Kept())
      ensures old(Replay(format, device.files) == Contents()) && device.powered ==>
        Replay(format, device.files) == Contents()
      ensures !ok ==> lastError == MetadataWriteFailed
      ensures !ok && device.powered ==>
        && (old(Aligned(format, device.files, metadata)) ==> Aligned(format, device.files, metadata))
        && (old(Behind(format, device.files, metadata)) ==> Behind(format, device.files, metadata))
      ensures ok ==> metadata.head[segment] > 0 && |count| == 2 && count[Other(segment)] == old(count)[Other(segment)]
      ensures device.reliable && old(device.powered) ==> ok
    {
      hide Live, LiveEnd, View, SegmentLive, RecordAt, PayloadAt, LengthAt, Indexed, Content, Aligned, Replay, Boot,
        Retained, DurablyRetained, SameExcept, Tallied, Counted, Behind;
      ghost var files0, m0, count0 := device.files, metadata, count;
      var previousHead, previousCount, previousDropped := metadata.head[segment], count[segment], metadata.dropped;
      HeadFits(format, files0, m0, tail, count, segment, length);
      metadata := metadata.(head := metadata.head[segment := previousHead + HEADER_BYTES + length]);
      count := count[segment := previousCount - 1];
      if discarded {
        metadata := metadata.(dropped := SaturatingAdd(metadata.dropped, 1));
      }
      ghost var m1, count1 := metadata, count;
      AdvancedView(format, files0, m0, m1, tail, count0, segmentMaximumBytes);
      ok := SaveMetadata();
      CommitAttempt(format, files0, m0, device.files, m1, tail, count0, count1, segmentMaximumBytes);
      if !ok {
        metadata := metadata.(head := metadata.head[segment := previousHead], dropped := previousDropped);
        count := count[segment := previousCount];
        assert metadata.head == m0.head && count == count0;
      }
    }

    /** Reclaim a segment whose records are all acknowledged. */
    method Reclaim(segment: nat) returns (ok: bool)
      requires Valid() && ready && segment < 2 && count[segment] == 0
      requires Aligned(format, device.files, metadata) && metadata.head[segment] > 0
      requires segment == metadata.active ==> count[Other(segment)] == 0
      modifies device, this`metadata, this`tail, this`count, this`lastError
      ensures Tallied(format, old(device.files), old(metadata), device.files, metadata)
      ensures device.powered && old(Counted(format, device.files, metadata)) ==> Counted(format, device.files, metadata)
      ensures SameSlots(old(device.files), device.files)
      ensures Shaped(metadata) && (device.powered ==> old(device.powered))
      ensures ok || device.powered ==> Valid() && Contents() == old(Contents())
      ensures ok ==> device.powered && Aligned(format, device.files, metadata)
      ensures metadata.dropped == old(metadata.dropped)
      ensures Replay(format, device.files) == old(Contents())
      ensures (old(Orderly()) ==> Orderly()) && (old(Kept()) ==> Kept())
      ensures !ok && device.powered ==>
        if lastError != MetadataWriteFailed then Aligned(format, device.files, metadata)
        else HeadBehind(format, device.files, metadata, segment) && Behind(format, device.files, metadata)
      ensures !ok ==> lastError == MetadataWriteFailed || lastError == SegmentResetFailed
      ensures ok ==> tail == old(tail)[segment := 0] && count == old(count)
      ensures !ok && lastError == MetadataWriteFailed ==> tail == old(tail)[segment := 0] && count == old(count)
      ensures device.reliable && old(device.powered) ==> ok
    {
      hide Live, LiveEnd, View, SegmentLive, Content, SoundFormat, Replay, Boot, Indexed, Aligned, SameExcept,
        Retained, DurablyRetained, Tallied, Counted, HeadBehind, Behind;
      ghost var fm, files0, m0, tail0, count0 := format, device.files, metadata, tail, count;
      DrainedView(fm, files0, m0, tail0, count0, segment);
      ok := TruncateSegment(segment);
      EmptyAttempt(fm, files0, m0, device.files, metadata, segment, segmentMaximumBytes);
      if !ok {
        return;
      }
      ghost var files1, m1 := device.files, metadata;
      EmptiedIndex(fm, files0, m0, tail0, count0, segment, metadata);
      EmptiedView(fm, files0, metadata, segment);
      ok := SaveMetadata();
      CommitAttempt(fm, files1, m1, device.files, m1, tail, count, count, segmentMaximumBytes);
      TallyChain(fm, files0, m0, files1, m1, device.files, metadata);
      if !ok && device.powered {
        IndexCounts(fm, files1, metadata, tail, count, Other(segment));
        SegmentSame(fm, files1, device.files, metadata, metadata, Other(segment));
        ResetLeavesBehind(fm, files0, m0, files1, device.files, metadata, segment);
      }
    }

    /**
     `pop` removes the oldest record. A power cut anywhere inside it leaves a queue that
     replays either everything or everything but that record.
     */
    method Pop(discarded: bool) returns (ok: bool)
      requires Valid()
      modifies device, this`metadata, this`tail, this`count, this`lastError
      ensures Tallied(format, old(device.files), old(metadata), device.files, metadata)
      ensures device.powered && old(Counted(format, device.files, metadata)) ==> Counted(format, device.files, metadata)
      ensures SameSlots(old(device.files), device.files)
      ensures Shaped(metadata) && (device.powered ==> old(device.powered))
      ensures !ready || old(Contents()) == [] ==>
        !ok && device.files == old(device.files) && metadata == old(metadata) && Valid()
      ensures ok ==> Valid() && device.powered && old(Contents()) != [] && Contents() == old(Contents())[1..]
      ensures ok ==> Aligned(format, device.files, metadata)
      ensures ok ==>
        metadata.dropped == (if discarded then old(SaturatingAdd(metadata.dropped, 1)) else old(metadata.dropped))
      ensures !ok && device.powered ==>
        Valid() && (Contents() == old(Contents()) || (old(Contents()) != [] && Contents() == old(Contents())[1..]))
      ensures old(Replay(format, device.files)) == old(Contents()) ==>
        || Replay(format, device.files) == old(Contents())
        || (old(Contents()) != [] && Replay(format, device.files) == old(Contents())[1..])
      ensures (old(Orderly()) ==> Orderly()) && (old(Kept()) ==> Kept())
      ensures old(Replay(format, device.files) == Contents()) && device.powered ==>
        Replay(format, device.files) == Contents()
      ensures device.powered && Contents() != old(Contents()) ==>
        && Replay(format, device.files) == Contents()
        && (if lastError == MetadataWriteFailed then Behind(format, device.files, metadata)
             else Aligned(format, device.files, metadata))
      ensures device.powered && Contents() == old(Contents()) ==>
        && (old(Aligned(format, device.files, metadata)) ==> Aligned(format, device.files, metadata))
        && (old(Behind(format, device.files, metadata)) ==> Behind(format, device.files, metadata))
      ensures if ok then lastError == NoFault else old(ready && Contents() != []) ==> lastError != NoFault
      ensures ok ==> Reclaimed(old(count))
      ensures old(Tidy()) && (ok || lastError != SegmentResetFailed) ==> Tidy()
      ensures device.reliable && old(device.powered && ready && Contents() != []) ==> ok
      ensures device.reliable && old(device.powered) ==> device.powered
    {
      hide Live, LiveEnd, View, SegmentLive, RecordAt, PayloadAt, LengthAt, Indexed, Content, Aligned, Replay, Boot,
        Retained, DurablyRetained, SoundFormat, SaturatingAdd, Tallied, Counted, HeadBehind, Behind, Reclaimed;
      ghost var files0, m0, count0 := device.files, metadata, count;
      TallyNothing(format, files0, m0, m0);
      if !ready {
        return false;
      }
      OldestRecord(format, device.files, metadata, tail, count);
      if count[0] + count[1] == 0 {
        return false;
      }
      var segment := OldestSegment(metadata, count);
      var file, at := Content(device.files, Segment(segment)), metadata.head[segment];
      OldestRecordFits(format, device.files, metadata, tail, count);
      var length := LengthAt(format.framing, file, at);
      HeaderMoves(format, device.files, metadata, segment);
      ok := CommitHead(segment, length, discarded);
      if !ok {
        return;
      }
      if count[segment] == 0 {
        ghost var files1, m1 := device.files, metadata;
        ok := Reclaim(segment);
        TallyChain(format, files0, m0, files1, m1, device.files, metadata);
        if !ok {
          return;
        }
      }
      DrainedOnly(count0, segment);
      AlignedReplays(format, device.files, metadata);
      lastError := NoFault;
    }

    /**
     Acknowledge `submitted` only: if rotation has removed it meanwhile, the record now at
     the head stays. True when `submitted` is no longer the oldest record.
     */
    method PopIfMatches(submitted: Payload, discarded: bool) returns (ok: bool)
      requires Valid()
      modifies device, this`metadata, this`tail, this`count, this`lastError
      ensures Tallied(format, old(device.files), old(metadata), device.files, metadata)
      ensures device.powered && old(Counted(format, device.files, metadata)) ==> Counted(format, device.files, metadata)
      ensures SameSlots(old(device.files), device.files)
      ensures Shaped(metadata) && (device.powered ==> old(device.powered))
      ensures old(!Matches(submitted)) ==> device.files == old(device.files) && metadata == old(metadata) && Valid()
      ensures old(!Matches(submitted)) && ready ==> ok
      ensures !ready ==> (ok <==> old(count[0] + count[1]) == 0)
      ensures old(Matches(submitted)) && ok ==> Valid() && device.powered && Contents() == old(Contents())[1..]
      ensures old(Matches(submitted)) && !ok && device.powered ==>
        Valid() && (Contents() == old(Contents()) || Contents() == old(Contents())[1..])
      ensures old(Matches(submitted)) && old(Replay(format, device.files)) == old(Contents()) ==>
        Replay(format, device.files) == old(Contents()) || Replay(format, device.files) == old(Contents())[1..]
      ensures (old(Orderly()) ==> Orderly()) && (old(Kept()) ==> Kept())
      ensures old(Aligned(format, device.files, metadata)) && ok ==> Aligned(format, device.files, metadata)
      ensures old(Matches(submitted)) && ok ==> Aligned(format, device.files, metadata)
      ensures device.powered && Contents() != old(Contents()) ==>
        && Replay(format, device.files) == Contents()
        && (if lastError == MetadataWriteFailed then Behind(format, device.files, metadata)
             else Aligned(format, device.files, metadata))
      ensures device.powered && Contents() == old(Contents()) ==>
        && (old(Aligned(format, device.files, metadata)) ==> Aligned(format, device.files, metadata))
        && (old(Behind(format, device.files, metadata)) ==> Behind(format, device.files, metadata))
      ensures old(Matches(submitted)) ==> (ok <==> lastError == NoFault)
      ensures old(Replay(format, device.files) == Contents()) && device.powered ==>
        Replay(format, device.files) == Contents()
      ensures ok ==> Reclaimed(old(count))
      ensures old(Tidy()) && (ok || lastError != SegmentResetFailed) ==> Tidy()
      ensures device.reliable && old(device.powered) ==> device.powered && (ready ==> ok)
    {
      hide Live, LiveEnd, View, SegmentLive, Indexed, Content, Aligned, Replay, Boot, Retained, DurablyRetained,
        SoundFormat, Tallied, Counted, HeadBehind, Behind;
      TallyNothing(format, device.files, metadata, metadata);
      var found, current := Peek();
      if !found {
        if ready { OldestRecord(format, device.files, metadata, tail, count); }
        return count[0] + count[1] == 0;
      }
      if current != submitted {
        return true;
      }
      ok := Pop(discarded);
    }

    ghost predicate Matches(submitted: Payload)
      reads this`ready, this`metadata, device
      requires Shaped(metadata)
    {
      ready && Contents() != [] && Contents()[0] == submitted
    }

    /** The longest oldest-first prefix within the record limit and the byte budget; the queue is unchanged. */
    method PeekBatch(maximumRecords: nat, maximumBytes: nat) returns (ok: bool, batch: seq<Payload>)
      requires Valid()
      modifies this`lastError
      ensures Valid() && (ok <==> batch != []) && (ok ==> lastError == NoFault)
      ensures !ready ==> batch == []
      ensures ready ==> LongestBatch(Contents(), Min(maximumRecords, 8), maximumBytes, batch)
    {
      hide Live, LiveEnd, SegmentLive, RecordAt, PayloadAt, SoundFormat, View, SegmentIndexed, BatchBytes;
      batch := [];
      if !ready {
        return false, [];
      }
      EmptyBatch(Contents(), Min(maximumRecords, 8), maximumBytes);
      OldestRecord(format, device.files, metadata, tail, count);
      if count[0] + count[1] == 0 || maximumRecords == 0 {
        return false, [];
      }
      var limit, first := Min(maximumRecords, 8), OldestSegment(metadata, count);
      var second := Other(first);
      ghost var older := SegmentLive(format, device.files, metadata, first);
      ghost var newer := SegmentLive(format, device.files, metadata, second);
      SegmentsInOrder(format, device.files, metadata, tail, count);
      assert [] + older == older;
      var stopped;
      batch, stopped := ExtendBatch(format.framing, Content(device.files, Segment(first)), metadata.head[first],
        count[first], limit, maximumBytes, [], older);
      if !stopped && |batch| < limit && count[second] > 0 {
        batch, stopped := ExtendBatch(format.framing, Content(device.files, Segment(second)), metadata.head[second],
                                      count[second], limit, maximumBytes, batch, older + newer);
      } else {
        BatchEndedEarly(older, newer, limit, maximumBytes, batch);
      }
      if batch != [] {
        lastError := NoFault;
      }
      ok := batch != [];
    }

    /**
     Replace a segment by its live prefix, once both that prefix and the bytes behind it
     are durable elsewhere. Interrupted anywhere, the segment is the old one or the new one.
     */
    method RepairTail(segment: nat, end: nat) returns (ok: bool)
      requires end < |Content(device.files, Segment(segment))| && Segment(segment) in device.files
      modifies device, this`lastError
      ensures device.powered ==> old(device.powered)
      ensures SameExcept(old(device.files), device.files, {Segment(segment), Quarantine(segment), SegmentRepair})
      ensures Segment(segment) in device.files
      ensures Quarantine(segment) in old(device.files) ==> Quarantine(segment) in device.files
      ensures Content(device.files, Segment(segment)) == old(Content(device.files, Segment(segment)))
           || Content(device.files, Segment(segment)) == old(Content(device.files, Segment(segment)))[..end]
      ensures !ok && device.powered ==>
        Content(device.files, Segment(segment)) == old(Content(device.files, Segment(segment)))
      ensures ok ==>
        device.powered && Content(device.files, Segment(segment)) == old(Content(device.files, Segment(segment)))[..end]
      ensures ok ==> Content(device.files, Quarantine(segment)) ==
                     old(Content(device.files, Quarantine(segment)) + Content(device.files, Segment(segment))[end..])
      ensures !ok ==> lastError == TailRepairFailed
      ensures device.reliable && old(device.powered) ==> ok
    {
      var source := Content(device.files, Segment(segment));
      ok := WriteRepair(source[..end]);
      if ok {
        ghost var suffix;
        ok, suffix := CopyTo(device, source[end..], Quarantine(segment));
      }
      if ok {
        ok := device.Rename(SegmentRepair, Segment(segment));
      }
      if !ok {
        lastError := TailRepairFailed;
      }
    }

    method WriteRepair(prefix: bytes) returns (ok: bool)
      modifies device
      ensures device.powered ==> old(device.powered)
      ensures SameExcept(old(device.files), device.files, {SegmentRepair})
      ensures ok ==> device.powered && SegmentRepair in device.files && device.files[SegmentRepair] == prefix
      ensures device.reliable && old(device.powered) ==> ok
    {
      device.Remove(SegmentRepair);
      ok := device.Truncate(SegmentRepair);
      if ok {
        ghost var copied;
        ok, copied := CopyTo(device, prefix, SegmentRepair);
      }
    }

    /** Find the live run of an existing segment and cut the file behind it. */
    method ScanExisting(segment: nat) returns (ok: bool)
      requires Shaped(metadata) && |tail| == |count| == 2 && segment < 2
      requires |Content(device.files, Segment(segment))| < WORD && Segment(segment) in device.files
      modifies device, this`metadata, this`tail, this`count, this`lastError
      ensures device.powered ==> old(device.powered)
      ensures Scanned(old(device.files), old(metadata), device.files, metadata, segment)
      ensures |tail| == |count| == 2 && tail[segment] < WORD
      ensures tail[Other(segment)] == old(tail[Other(segment)]) && count[Other(segment)] == old(count[Other(segment)])
      ensures count[segment] == old(|SegmentLive(format, device.files, metadata, segment)|)
      ensures SegmentLive(format, device.files, old(metadata), segment) ==
        old(SegmentLive(format, device.files, metadata, segment))
      ensures ok ==> SegmentIndexed(format, device.files, metadata, tail[segment], count[segment], segment)
      ensures ok ==>
        SegmentLive(format, device.files, metadata, segment) ==
          old(SegmentLive(format, device.files, metadata, segment))
      ensures ok ==> TailMoved(format, old(device.files), old(metadata), device.files, segment)
      ensures ok ==> TailTallied(format, old(device.files), old(metadata), metadata, segment)
      ensures device.reliable && old(device.powered) ==> ok
      ensures ok && old(device.powered) ==> device.powered
    {
      hide Live, LiveEnd, SegmentLive, ScanEnd, SegmentIndexed;
      ghost var fm, files0, m0 := format, device.files, metadata;
      var file := Content(device.files, Segment(segment));
      metadata := metadata.(head := metadata.head[segment := Min(metadata.head[segment], |file|)]);
      var end, records := ScanRecords(format.framing, file, metadata.head[segment]);
      ScanFacts(fm, files0, m0, segment);
      tail, count := tail[segment := end], count[segment := records];
      ok := true;
      if end < |file| {
        ok := RepairTail(segment, end);
        if ok {
          metadata := metadata.(
            corruptionEvents := (metadata.corruptionEvents + 1) % WORD,
            quarantinedBytes := (metadata.quarantinedBytes + |file| - end) % WORD);
        }
      }
      RepairedSegment(fm, files0, device.files, m0, metadata, segment);
    }

    /**
     Scan one segment at boot. Whatever happens, the segment replays what it replayed
     before; on success it is indexed and its tail repaired.
     */
    method ScanSegment(segment: nat) returns (ok: bool)
      requires Shaped(metadata) && |tail| == |count| == 2 && segment < 2
      requires |Content(device.files, Segment(segment))| < WORD
      modifies device, this`metadata, this`tail, this`count, this`lastError
      ensures SameSlots(old(device.files), device.files)
      ensures device.powered ==> old(device.powered)
      ensures Scanned(old(device.files), old(metadata), device.files, metadata, segment)
      ensures |tail| == |count| == 2 && (ok ==> tail[segment] < WORD)
      ensures tail[Other(segment)] == old(tail[Other(segment)]) && count[Other(segment)] == old(count[Other(segment)])
      ensures SegmentLive(format, device.files, old(metadata), segment) ==
        old(SegmentLive(format, device.files, metadata, segment))
      ensures ok ==> SegmentIndexed(format, device.files, metadata, tail[segment], count[segment], segment)
      ensures ok ==>
        SegmentLive(format, device.files, metadata, segment) ==
          old(SegmentLive(format, device.files, metadata, segment))
      ensures ok ==> TailRepaired(format, old(device.files), old(metadata), device.files, segment)
      ensures ok ==> TailTallied(format, old(device.files), old(metadata), metadata, segment)
      ensures ok && count[segment] == 0 ==> tail[segment] == 0
      ensures device.reliable && old(device.powered) ==> ok
      ensures ok && old(device.powered) ==> device.powered
    {
      hide Live, LiveEnd, SegmentLive, ScanEnd, TailRepaired, SegmentIndexed, TailMoved;
      ghost var fm, files0, m0 := format, device.files, metadata;
      if Segment(segment) !in device.files {
        ok := TruncateSegment(segment);
        AbsentSegment(fm, files0, device.files, m0, metadata, segment);
        return;
      }
      ok := ScanExisting(segment);
      if !ok {
        return;
      }
      ghost var files1, m1 := device.files, metadata;
      MovedIsRepaired(fm, files0, m0, files1, segment);
      if count[segment] == 0 {
        ok := TruncateSegment(segment);
        ScannedEmpty(fm, files0, files1, device.files, m0, m1, metadata, segment);
      }
    }

    /** Both scans of a boot, after the starting metadata is in memory. */
    method ScanBoth() returns (ok: bool)
      requires SoundFormat(format) && Boot(format, device.files) == metadata && |tail| == |count| == 2
      requires |Content(device.files, Segment(0))| < WORD && |Content(device.files, Segment(1))| < WORD
      modifies device, this`metadata, this`tail, this`count, this`lastError
      ensures SameSlots(old(device.files), device.files)
      ensures device.powered ==> old(device.powered)
      ensures BootKept(format, old(device.files), device.files)
      ensures Shaped(metadata) && |tail| == |count| == 2
      ensures metadata.reserved == old(metadata.reserved) && metadata.dropped == old(metadata.dropped)
      ensures ok ==> tail[0] < WORD && tail[1] < WORD && Indexed(format, device.files, metadata, tail, count)
      ensures ok ==> View(format, device.files, metadata) == old(Replay(format, device.files))
      ensures ok ==> RetainedAsBooted(format, old(device.files), device.files, metadata)
      ensures ok ==> BothTallied(format, old(device.files), old(metadata), metadata)
      ensures ok ==> Tidy()
      ensures device.reliable && old(device.powered) ==> ok
      ensures ok && old(device.powered) ==> device.powered
    {
      hide Live, LiveEnd, SegmentLive, SegmentIndexed, Boot, Content, SoundFormat, DurablyRetained, Replay,
        TailRepaired, ScanFrame, TailTallied, BothTallied;
      ghost var fm, files0, m0 := format, device.files, metadata;
      BootIsShaped(fm, files0);
      ok := ScanSegment(0);
      ghost var files1, m1, tail1, count1 := device.files, metadata, tail, count;
      ScanFrameFacts(files0, files1, 0);
      ScanStep(fm, files0, files1, m0, 0);
      if !ok {
        return;
      }
      ok := ScanSegment(1);
      ScanStep(fm, files1, device.files, m1, 1);
      if !ok {
        return;
      }
      ScanDone(fm, files0, files1, device.files, m0, m1, metadata, tail1[0], count1[0]);
      TalliedTwice(fm, files0, files1, m0, m1, metadata);
    }

    /**
     Mount, recover and become ready. `mounted` says whether the file system could be mounted
     or, on proven-blank flash, initialised; `totalBytes` is its size. A cut anywhere inside
     a boot leaves the next boot the same records, the same drop count and the same doubts.
     */
    method Begin(enable: bool, maximumBytes: nat, mounted: bool, totalBytes: nat) returns (ok: bool)
      requires SoundFormat(format) && totalBytes < WORD && |tail| == |count| == 2 && Shaped(metadata)
      requires |Content(device.files, Segment(0))| < WORD && |Content(device.files, Segment(1))| < WORD
      modifies device, this
      ensures Valid() && (ready ==> Tidy())
      ensures ready && MetadataLost(format, old(device.files)) ==>
        FromScratch(format, old(device.files), Contents(), metadata)
      ensures SameSlots(old(device.files), device.files)
      ensures Valid() && (device.powered ==> old(device.powered))
      ensures BootKept(format, old(device.files), device.files)
      ensures ready <==> ok && enable
      ensures ok <==> !enable || ready
      ensures enable && (!mounted || totalBytes <= FILESYSTEM_RESERVE_BYTES + 2 * HEADER_BYTES) ==>
        !ok && device.files == old(device.files) && lastError == if mounted then CapacityTooSmall else MountFailed
      ensures !enable ==> device.files == old(device.files) && lastError == Unavailable
      ensures ready ==>
        device.powered && Boot(format, device.files) == metadata && Aligned(format, device.files, metadata)
      ensures ready ==> Contents() == old(Replay(format, device.files))
      ensures ready ==> metadata.dropped == old(Boot(format, device.files).dropped)
      ensures Shaped(old(Boot(format, device.files)))
      ensures ready ==> BothTallied(format, old(device.files), old(Boot(format, device.files)), metadata)
      ensures ready ==> segmentMaximumBytes == SegmentCapacity(maximumBytes, totalBytes) > HEADER_BYTES + 1
      ensures ready && old(DurablyRetained(format, device.files, SegmentCapacity(maximumBytes, totalBytes))) ==> Kept()
      ensures device.reliable && old(device.powered) && enable && mounted &&
              SegmentCapacity(maximumBytes, totalBytes) > HEADER_BYTES + 1 ==>
        ok
    {
      hide Live, LiveEnd, SegmentLive, Indexed, Boot, Content, SoundFormat, DurablyRetained, Retained, Replay, View,
        SameExcept, BootKept,
        SameSlots, RetainedAsBooted, SameSegments, BothTallied, Tidy, MetadataLost;
      ghost var files0 := device.files;
      SlotsItself(files0);
      BootIsShaped(format, files0);
      enabled, ready, lastError := enable, false, NoFault;
      BootKeptItself(format, files0);
      if !enabled {
        lastError := Unavailable;
        return true;
      }
      if !mounted {
        lastError := MountFailed;
        return false;
      }
      segmentMaximumBytes := SegmentCapacity(maximumBytes, totalBytes);
      if totalBytes <= FILESYSTEM_RESERVE_BYTES + 2 * HEADER_BYTES || segmentMaximumBytes <= HEADER_BYTES + 1 {
        lastError := CapacityTooSmall;
        return false;
      }
      RemoveTemporaries();
      ghost var files1 := device.files;
      TemporariesGone(format, files0, files1);
      metadata := Boot(format, device.files);
      BootIsShaped(format, device.files);
      ok := ScanBoth();
      ghost var files2, m2 := device.files, metadata;
      BootKeptChain(format, files0, files1, files2);
      SlotsUntouched(files0, files1, {MetadataTemporary, SegmentRepair});
      SlotsChain(files0, files1, files2);
      SameTails(format, files0, files1, Boot(format, files0), metadata);
      if !ok {
        return;
      }
      ok := SaveMetadata();
      BootSaved(format, files1, files2, device.files, m2);
      BootKeptChain(format, files0, files1, device.files);
      SlotsChain(files0, files2, device.files);
      MetadataStep(format, files2, device.files, m2, tail, count);
      ViewDependsOnSegments(format, files2, device.files, m2, m2);
      if ok {
        CommittedIsAligned(format, device.files, m2);
        BootedKept(format, files0, files1, files2, device.files, m2, segmentMaximumBytes);
      }
      if MetadataLost(format, files0) {
        WithoutMetadata(format, files0);
      }
      ready := ok;
    }

    method RemoveTemporaries()
      modifies device
      ensures device.powered ==> old(device.powered)
      ensures SameExcept(old(device.files), device.files, {MetadataTemporary, SegmentRepair})
      ensures device.reliable && old(device.powered) ==>
        device.powered && MetadataTemporary !in device.files && SegmentRepair !in device.files
    {
      device.Remove(MetadataTemporary);
      device.Remove(SegmentRepair);
    }
  }
}
