/**
 What the queue's files mean: the metadata a boot starts from, the records it
 would replay, and what each single storage step does to that replay.
 */
module QueueDisk {
  import opened Bytes
  import opened SegmentLog
  import opened Flash

  datatype Option<+T> = None | Some(value: T)

  /** The metadata record. `reserved` is nonzero once the historical drop count is uncertain. */
  datatype Counters = Counters(
    active: nat, reserved: byte, head: seq<uint32>,
    dropped: uint32, corruptionEvents: uint32, quarantinedBytes: uint32)

  predicate Shaped(m: Counters)
  {
    m.active < 2 && |m.head| == 2
  }

  /** Every encoding on the flash: record framing, metadata writer and metadata reader. */
  datatype Format = Format(framing: Framing, write: Counters -> bytes, read: bytes -> Option<Counters>)

  ghost predicate SoundFormat(fm: Format)
  {
    && Sound(fm.framing)
    && (forall m :: Shaped(m) ==> fm.write(m) != [] && fm.read(fm.write(m)) == Some(m))
    && (forall b :: fm.read(b).Some? ==> Shaped(fm.read(b).value))
  }

  function Min(a: nat, b: nat): nat
  {
    if a <= b then a else b
  }

  function Other(segment: nat): nat
  {
    1 - if segment == 0 then 0 else 1
  }

  function Quarantined(files: Files): nat
  {
    |Content(files, Quarantine(0))| + |Content(files, Quarantine(1))|
  }

  /** Metadata reconstructed when none is readable. */
  function Reconstructed(files: Files): Counters
  {
    Counters(
      0,
      if Path.Metadata in files || Segment(0) in files || Segment(1) in files || Quarantine(0) in files ||
      Quarantine(1) in files
      then 1 else 0,
      [0, 0],
      0,
      (if Content(files, Quarantine(0)) != [] then 1 else 0) + (if Content(files, Quarantine(1)) != [] then 1 else 0),
      Quarantined(files) % WORD)
  }

  /** The metadata a boot starts from. */
  function Boot(fm: Format, files: Files): Counters
  {
    match fm.read(Content(files, Path.Metadata))
    case Some(m) => m
    case None => Reconstructed(files)
  }

  ghost function SegmentLive(fm: Format, files: Files, m: Counters, s: nat): (ps: seq<Payload>)
    requires Shaped(m) && s < 2
  {
    var f := Content(files, Segment(s));
    Live(fm.framing, f, Min(m.head[s], |f|))
  }

  /** The queue's contents, oldest first: the inactive segment, then the active one. */
  ghost function View(fm: Format, files: Files, m: Counters): seq<Payload>
    requires Shaped(m)
  {
    SegmentLive(fm, files, m, Other(m.active)) + SegmentLive(fm, files, m, m.active)
  }

  lemma BootIsShaped(fm: Format, files: Files)
    requires SoundFormat(fm)
    ensures Shaped(Boot(fm, files))
  {
  }

  /** What a boot on these files would replay. */
  ghost function Replay(fm: Format, files: Files): seq<Payload>
    requires SoundFormat(fm)
  {
    BootIsShaped(fm, files);
    View(fm, files, Boot(fm, files))
  }

  predicate MetadataLost(fm: Format, files: Files)
  {
    fm.read(Content(files, Path.Metadata)).None?
  }

  /** There is a file from which records may have been lost. */
  predicate AnyQueueFile(files: Files)
  {
    Path.Metadata in files || exists s: nat :: s < 2 && (Segment(s) in files || Quarantine(s) in files)
  }

  /** All records of both segments, from their first bytes on, no drop, and a doubt exactly if some file is there. */
  ghost predicate FromScratch(fm: Format, files: Files, contents: seq<Payload>, m: Counters)
  {
    && contents == Live(fm.framing, Content(files, Segment(1)), 0) + Live(fm.framing, Content(files, Segment(0)), 0)
    && m.dropped == 0 && (m.reserved != 0 <==> AnyQueueFile(files))
  }

  /** Without readable metadata a boot starts over from what the segments hold. */
  lemma WithoutMetadata(fm: Format, files: Files)
    requires SoundFormat(fm) && MetadataLost(fm, files)
    ensures FromScratch(fm, files, Replay(fm, files), Boot(fm, files))
    ensures var m, q, r := Boot(fm, files), Content(files, Quarantine(0)), Content(files, Quarantine(1));
      && m.reserved <= 1 && m.quarantinedBytes == (|q| + |r|) % WORD && m.corruptionEvents <= 2
      && (m.corruptionEvents == 0 <==> q == [] && r == []) && (m.corruptionEvents == 2 <==> q != [] && r != [])
  {
    hide Live, Content;
    assert Segment(0) in files || Quarantine(0) in files || Segment(1) in files || Quarantine(1) in files <==>
      exists s: nat :: s < 2 && (Segment(s) in files || Quarantine(s) in files);
  }

  /** Heads and active segment are durable as the queue holds them in memory. */
  ghost predicate Aligned(fm: Format, files: Files, m: Counters)
  {
    Boot(fm, files).active == m.active && Boot(fm, files).head == m.head
  }

  /** One segment's index entries describe its file: all bytes from the head on are live records. */
  ghost predicate SegmentIndexed(fm: Format, files: Files, m: Counters, tail: nat, count: nat, s: nat)
    requires Shaped(m) && s < 2
  {
    var f := Content(files, Segment(s));
    && Segment(s) in files
    && m.head[s] <= tail == |f| == LiveEnd(fm.framing, f, m.head[s])
    && |Live(fm.framing, f, m.head[s])| == count
  }

  ghost predicate Indexed(fm: Format, files: Files, m: Counters, tail: seq<nat>, count: seq<nat>)
  {
    && Shaped(m) && |tail| == |count| == 2
    && SegmentIndexed(fm, files, m, tail[0], count[0], 0)
    && SegmentIndexed(fm, files, m, tail[1], count[1], 1)
  }

  /** Both segments are within their capacity, and the active head moves only once the older segment is empty. */
  ghost predicate Retained(fm: Format, files: Files, m: Counters, capacity: nat)
    requires Shaped(m)
  {
    && |Content(files, Segment(0))| <= capacity
    && |Content(files, Segment(1))| <= capacity
    && (SegmentLive(fm, files, m, Other(m.active)) != [] ==> m.head[m.active] == 0)
  }

  ghost predicate DurablyRetained(fm: Format, files: Files, capacity: nat)
    requires SoundFormat(fm)
  {
    BootIsShaped(fm, files);
    Retained(fm, files, Boot(fm, files), capacity)
  }

  ghost predicate SameSegments(a: Files, b: Files)
  {
    forall s: nat | s < 2 :: Content(a, Segment(s)) == Content(b, Segment(s))
  }

  /** The view depends on the segments, the heads and the active segment only. */
  lemma ViewDependsOnSegments(fm: Format, a: Files, b: Files, m: Counters, n: Counters)
    requires Shaped(m) && Shaped(n) && SameSegments(a, b) && m.active == n.active && m.head == n.head
    ensures View(fm, a, m) == View(fm, b, n)
    ensures SegmentLive(fm, a, m, 0) == SegmentLive(fm, b, n, 0) && SegmentLive(fm, a, m, 1) == SegmentLive(fm, b, n, 1)
  {
    hide Live, Content;
    assert Content(a, Segment(0)) == Content(b, Segment(0)) && Content(a, Segment(1)) == Content(b, Segment(1));
  }

  lemma AlignedReplays(fm: Format, files: Files, m: Counters)
    requires SoundFormat(fm) && Shaped(m) && Aligned(fm, files, m)
    ensures Replay(fm, files) == View(fm, files, m)
  {
    BootIsShaped(fm, files);
    ViewDependsOnSegments(fm, files, files, m, Boot(fm, files));
  }

  lemma CommittedIsAligned(fm: Format, files: Files, m: Counters)
    requires SoundFormat(fm) && Shaped(m) && Content(files, Path.Metadata) == fm.write(m)
    ensures Boot(fm, files) == m && Aligned(fm, files, m)
  {
  }

  /** A step that keeps the metadata file and the segments keeps the replay. */
  lemma ReplayKept(fm: Format, a: Files, b: Files)
    requires SoundFormat(fm) && SameSegments(a, b) && Content(a, Path.Metadata) == Content(b, Path.Metadata)
    ensures Replay(fm, a) == Replay(fm, b)
    ensures Boot(fm, a).active == Boot(fm, b).active && Boot(fm, a).head == Boot(fm, b).head
    ensures Boot(fm, a).dropped == Boot(fm, b).dropped
  {
    hide View, Content, SegmentLive;
    BootIsShaped(fm, a);
    BootIsShaped(fm, b);
    ViewDependsOnSegments(fm, a, b, Boot(fm, a), Boot(fm, b));
  }

  lemma RetainedDependsOnSegments(fm: Format, a: Files, b: Files, m: Counters, n: Counters, capacity: nat)
    requires Shaped(m) && Shaped(n) && SameSegments(a, b) && m.active == n.active && m.head == n.head
    ensures Retained(fm, a, m, capacity) == Retained(fm, b, n, capacity)
  {
    hide Live, Content;
    assert Content(a, Segment(0)) == Content(b, Segment(0)) && Content(a, Segment(1)) == Content(b, Segment(1));
  }

  lemma AlignedRetained(fm: Format, files: Files, m: Counters, capacity: nat)
    requires SoundFormat(fm) && Shaped(m) && Aligned(fm, files, m)
    ensures Retained(fm, files, m, capacity) == DurablyRetained(fm, files, capacity)
  {
    BootIsShaped(fm, files);
    RetainedDependsOnSegments(fm, files, files, m, Boot(fm, files), capacity);
  }
}
