/**
 What one storage step of the queue does to its index and to its view, for every
 state in which the index describes the files.
 */
module QueueSteps {
  import opened Bytes
  import opened SegmentLog
  import opened Flash
  import opened QueueDisk

  /** Read through its index, a segment's live run is all of it from the head on. */
  lemma IndexedSegment(fm: Format, files: Files, m: Counters, tail: nat, count: nat, s: nat)
    requires Shaped(m) && s < 2 && SegmentIndexed(fm, files, m, tail, count, s)
    ensures SegmentLive(fm, files, m, s) == Live(fm.framing, Content(files, Segment(s)), m.head[s])
    ensures |SegmentLive(fm, files, m, s)| == count
  {
  }

  /** A step that touches neither this segment's bytes nor its head keeps its index entries. */
  lemma SegmentKept(fm: Format, a: Files, b: Files, m: Counters, n: Counters, tail: nat, count: nat, s: nat)
    requires Shaped(m) && Shaped(n) && s < 2 && m.head[s] == n.head[s]
    requires Segment(s) in a <==> Segment(s) in b
    requires Segment(s) in a ==> a[Segment(s)] == b[Segment(s)]
    ensures SegmentLive(fm, a, m, s) == SegmentLive(fm, b, n, s)
    ensures SegmentIndexed(fm, a, m, tail, count, s) == SegmentIndexed(fm, b, n, tail, count, s)
  {
  }

  /** Appending a whole record to an indexed segment adds it behind the segment's live records. */
  lemma AppendedSegment(fm: Format, files: Files, m: Counters, tail: nat, count: nat, s: nat, p: Payload)
    requires SoundFormat(fm) && Shaped(m) && s < 2 && SegmentIndexed(fm, files, m, tail, count, s) && Storable(p)
    ensures var after := files[Segment(s) := Content(files, Segment(s)) + Encode(fm.framing, p)];
      && SegmentLive(fm, after, m, s) == SegmentLive(fm, files, m, s) + [p]
      && SegmentIndexed(fm, after, m, tail + HEADER_BYTES + |p|, count + 1, s)
  {
    hide Live, LiveEnd, Sound, Encode;
    var f := Content(files, Segment(s));
    EncodedLength(fm.framing, p);
    AppendedRecordIsLive(fm.framing, f, m.head[s], p);
  }

  /** An append torn anywhere before its last byte changes nothing that is replayed. */
  lemma TornSegment(fm: Format, files: Files, m: Counters, tail: nat, count: nat, s: nat, p: Payload, torn: bytes)
    requires SoundFormat(fm) && Shaped(m) && s < 2 && SegmentIndexed(fm, files, m, tail, count, s) && Storable(p)
    requires torn < Encode(fm.framing, p)
    ensures SegmentLive(fm, files[Segment(s) := Content(files, Segment(s)) + torn], m, s) ==
      SegmentLive(fm, files, m, s)
  {
    hide Live, LiveEnd, Sound, Encode;
    TornRecordIsDead(fm.framing, Content(files, Segment(s)), m.head[s], p, torn);
  }

  /** Moving the head over the first live record removes exactly that record. */
  lemma AdvancedSegment(fm: Format, files: Files, m: Counters, n: Counters, tail: nat, count: nat, s: nat)
    requires Shaped(m) && Shaped(n) && s < 2 && SegmentIndexed(fm, files, m, tail, count, s) && count > 0
    requires RecordAt(fm.framing, Content(files, Segment(s)), m.head[s])
         ==> n.head[s] == NextAt(fm.framing, Content(files, Segment(s)), m.head[s])
    ensures RecordAt(fm.framing, Content(files, Segment(s)), m.head[s])
    ensures SegmentLive(fm, files, m, s) == [PayloadAt(fm.framing, Content(files, Segment(s)), m.head[s])]
      + SegmentLive(fm, files, n, s)
    ensures SegmentIndexed(fm, files, n, tail, count - 1, s)
  {
    hide RecordAt, PayloadAt;
  }

  /** An emptied segment is indexed by zeros and replays nothing, whatever head it is read from. */
  lemma EmptiedSegment(fm: Format, files: Files, m: Counters, s: nat)
    requires Shaped(m) && s < 2
    ensures SegmentLive(fm, files[Segment(s) := []], m, s) == []
    ensures m.head[s] == 0 ==> SegmentIndexed(fm, files[Segment(s) := []], m, 0, 0, s)
  {
  }

  /** Replacing the metadata file keeps the segments, the index and the view. */
  lemma MetadataStep(fm: Format, a: Files, b: Files, m: Counters, tail: seq<nat>, count: seq<nat>)
    requires SameExcept(a, b, {Path.Metadata, MetadataTemporary})
    ensures SameSegments(a, b)
    ensures Indexed(fm, a, m, tail, count) == Indexed(fm, b, m, tail, count)
  {
    hide LiveEnd, Live;
    assert forall s: nat | s < 2 ::
      (Segment(s) in a <==> Segment(s) in b) && Content(a, Segment(s)) == Content(b, Segment(s));
  }

  /** Emptying a segment removes that segment's records from the view, and nothing else. */
  lemma EmptiedView(fm: Format, files: Files, m: Counters, s: nat)
    requires Shaped(m) && s < 2
    ensures View(fm, files[Segment(s) := []], m) == SegmentLive(fm, files, m, Other(s))
  {
    hide Live;
    var after := files[Segment(s) := []];
    assert Content(after, Segment(Other(s))) == Content(files, Segment(Other(s)));
    assert SegmentLive(fm, after, m, Other(s)) == SegmentLive(fm, files, m, Other(s));
    EmptiedSegment(fm, files, m, s);
  }

  lemma EmptiedIndex(fm: Format, files: Files, m: Counters, tail: seq<nat>, count: seq<nat>, s: nat, n: Counters)
    requires Indexed(fm, files, m, tail, count) && s < 2
    requires Shaped(n) && n.head == m.head[s := 0]
    ensures SegmentLive(fm, files, n, Other(s)) == SegmentLive(fm, files, m, Other(s))
    ensures SegmentLive(fm, files[Segment(s) := []], n, s) == []
    ensures Indexed(fm, files[Segment(s) := []], n, tail[s := 0], count[s := 0])
  {
    hide Live, LiveEnd;
    var after, o := files[Segment(s) := []], Other(s);
    SegmentKept(fm, files, after, m, n, tail[o], count[o], o);
    EmptiedSegment(fm, files, n, s);
  }

  /** After an attempt to replace the metadata, a boot sees either the old record or the new one. */
  lemma MetadataAttempt(fm: Format, a: Files, b: Files, n: Counters)
    requires SoundFormat(fm) && SameExcept(a, b, {Path.Metadata, MetadataTemporary}) && Shaped(n)
    requires Content(b, Path.Metadata) == fm.write(n) || Content(b, Path.Metadata) == Content(a, Path.Metadata)
    ensures Content(b, Path.Metadata) == fm.write(n) ==>
      Boot(fm, b) == n && Aligned(fm, b, n) && Replay(fm, b) == View(fm, a, n)
    ensures Content(b, Path.Metadata) == Content(a, Path.Metadata) ==>
      && Replay(fm, b) == Replay(fm, a) && Boot(fm, b).dropped == Boot(fm, a).dropped
      && Boot(fm, b).active == Boot(fm, a).active && Boot(fm, b).head == Boot(fm, a).head
  {
    hide Live, LiveEnd, View, SegmentLive, Content;
    MetadataStep(fm, a, b, n, [0, 0], [0, 0]);
    if Content(b, Path.Metadata) == fm.write(n) {
      CommittedIsAligned(fm, b, n);
      AlignedReplays(fm, b, n);
      ViewDependsOnSegments(fm, a, b, n, n);
    }
    if Content(b, Path.Metadata) == Content(a, Path.Metadata) {
      ReplayKept(fm, a, b);
    }
  }

  /** Emptying a segment on the flash empties it in the replay and leaves the durable counters. */
  lemma EmptiedReplay(fm: Format, files: Files, m: Counters, s: nat)
    requires SoundFormat(fm) && Shaped(m) && s < 2 && Aligned(fm, files, m)
    ensures var after := files[Segment(s) := []];
      && Aligned(fm, after, m)
      && Replay(fm, after) == SegmentLive(fm, files, m, Other(s))
      && Boot(fm, after).dropped == Boot(fm, files).dropped
  {
    hide Live, LiveEnd, View, SegmentLive;
    var after := files[Segment(s) := []];
    assert Content(after, Path.Metadata) == Content(files, Path.Metadata);
    AlignedReplays(fm, after, m);
    EmptiedView(fm, files, m, s);
  }

  lemma IndexCounts(fm: Format, files: Files, m: Counters, tail: seq<nat>, count: seq<nat>, s: nat)
    requires Indexed(fm, files, m, tail, count) && s < 2
    ensures |SegmentLive(fm, files, m, s)| == count[s]
  {
    IndexedSegment(fm, files, m, tail[s], count[s], s);
  }

  lemma BootAligned(fm: Format, a: Files, b: Files, m: Counters)
    requires Boot(fm, a).active == Boot(fm, b).active && Boot(fm, a).head == Boot(fm, b).head
    ensures Aligned(fm, a, m) == Aligned(fm, b, m)
  {
  }

  lemma IndexShared(fm: Format, files: Files, m: Counters, n: Counters, tail: seq<nat>, count: seq<nat>)
    requires Shaped(m) && Shaped(n) && m.head == n.head
    ensures Indexed(fm, files, m, tail, count) == Indexed(fm, files, n, tail, count)
  {
  }

  lemma SameHeadsSegments(fm: Format, files: Files, m: Counters, n: Counters)
    requires Shaped(m) && Shaped(n) && m.head == n.head
    ensures SegmentLive(fm, files, m, 0) == SegmentLive(fm, files, n, 0)
    ensures SegmentLive(fm, files, m, 1) == SegmentLive(fm, files, n, 1)
  {
  }

  /** Retention after a metadata replacement was attempted, as the next boot will see it. */
  lemma RetainedAttempt(fm: Format, a: Files, b: Files, n: Counters, capacity: nat)
    requires SoundFormat(fm) && SameExcept(a, b, {Path.Metadata, MetadataTemporary}) && Shaped(n)
    requires Content(b, Path.Metadata) == fm.write(n) || Content(b, Path.Metadata) == Content(a, Path.Metadata)
    requires DurablyRetained(fm, a, capacity) && Retained(fm, a, n, capacity)
    ensures DurablyRetained(fm, b, capacity) && Retained(fm, b, n, capacity)
  {
    hide Live, LiveEnd, SegmentLive, Content, Retained;
    MetadataStep(fm, a, b, n, [0, 0], [0, 0]);
    RetainedDependsOnSegments(fm, a, b, n, n, capacity);
    if Content(b, Path.Metadata) == fm.write(n) {
      CommittedIsAligned(fm, b, n);
      AlignedRetained(fm, b, n, capacity);
    } else {
      ReplayKept(fm, a, b);
      BootIsShaped(fm, a);
      BootIsShaped(fm, b);
      RetainedDependsOnSegments(fm, a, b, Boot(fm, a), Boot(fm, b), capacity);
    }
  }

  lemma ActivatedRetained(fm: Format, files: Files, m: Counters, n: Counters, capacity: nat)
    requires Shaped(m) && Retained(fm, files, m, capacity)
    requires n == m.(active := Other(m.active)) && n.head[n.active] == 0
    ensures Retained(fm, files, n, capacity)
  {
  }

  lemma RetainedEmptied(fm: Format, files: Files, m: Counters, n: Counters, s: nat, capacity: nat)
    requires Shaped(m) && Shaped(n) && s < 2 && n.active == m.active && (n.head == m.head || n.head == m.head[s := 0])
    requires Retained(fm, files, m, capacity)
    ensures Retained(fm, files[Segment(s) := []], n, capacity)
  {
    hide Live;
    EmptiedHeads(fm, files, m, n, s);
  }

  /** Emptying a segment keeps retention, for the queue (with its head reset or not) and for the next boot. */
  lemma RetainedWhenEmptied(fm: Format, files: Files, m: Counters, n: Counters, s: nat, capacity: nat)
    requires SoundFormat(fm) && Shaped(m) && Shaped(n) && s < 2
    requires n.active == m.active && (n.head == m.head || n.head == m.head[s := 0])
    requires Retained(fm, files, m, capacity) && DurablyRetained(fm, files, capacity)
    ensures Retained(fm, files[Segment(s) := []], n, capacity) && DurablyRetained(fm, files[Segment(s) := []], capacity)
  {
    hide Live, DurablyRetained, Boot, Retained;
    RetainedEmptied(fm, files, m, n, s, capacity);
    EmptiedBoot(fm, files, s, capacity);
  }

  lemma EmptiedHeads(fm: Format, files: Files, m: Counters, n: Counters, s: nat)
    requires Shaped(m) && Shaped(n) && s < 2 && (n.head == m.head || n.head == m.head[s := 0])
    ensures SegmentLive(fm, files[Segment(s) := []], n, s) == []
    ensures SegmentLive(fm, files[Segment(s) := []], n, Other(s)) == SegmentLive(fm, files, m, Other(s))
  {
  }

  lemma EmptiedBoot(fm: Format, files: Files, s: nat, capacity: nat)
    requires SoundFormat(fm) && s < 2 && DurablyRetained(fm, files, capacity)
    ensures DurablyRetained(fm, files[Segment(s) := []], capacity)
  {
    hide Live;
    var after := files[Segment(s) := []];
    assert Content(after, Path.Metadata) == Content(files, Path.Metadata);
    BootIsShaped(fm, files);
    BootIsShaped(fm, after);
    EmptiedHeads(fm, files, Boot(fm, files), Boot(fm, after), s);
  }

  /** The view after `written`, a prefix of one framed record, reached the active segment. */
  lemma AppendedView(fm: Format, files: Files, m: Counters, tail: seq<nat>, count: seq<nat>, p: Payload, written: bytes)
    requires SoundFormat(fm) && Indexed(fm, files, m, tail, count) && Storable(p) && written <= Encode(fm.framing, p)
    ensures var after := files[Segment(m.active) := Content(files, Segment(m.active)) + written];
      && (written < Encode(fm.framing, p) ==> View(fm, after, m) == View(fm, files, m))
      && (written == Encode(fm.framing, p) ==>
          && View(fm, after, m) == View(fm, files, m) + [p]
          && Indexed(fm, after, m, tail[m.active := tail[m.active] + HEADER_BYTES + |p|],
               count[m.active := count[m.active] + 1]))
      && SegmentLive(fm, after, m, Other(m.active)) == SegmentLive(fm, files, m, Other(m.active))
  {
    hide Live, LiveEnd, Encode, Sound;
    var s, o := m.active, Other(m.active);
    var after := files[Segment(s) := Content(files, Segment(s)) + written];
    SegmentKept(fm, files, after, m, m, tail[o], count[o], o);
    if written == Encode(fm.framing, p) {
      AppendedSegment(fm, files, m, tail[s], count[s], s, p);
    } else {
      TornSegment(fm, files, m, tail[s], count[s], s, p, written);
    }
  }

  /** Bytes appended to the active segment leave the metadata, and so the next boot's heads and counters, alone. */
  lemma AppendedBoot(fm: Format, files: Files, m: Counters, s: nat, more: bytes)
    requires SoundFormat(fm) && Shaped(m) && Aligned(fm, files, m)
    ensures var after := files[Segment(s) := Content(files, Segment(s)) + more];
      Aligned(fm, after, m) && Boot(fm, after).dropped == Boot(fm, files).dropped &&
      Replay(fm, after) == View(fm, after, m)
  {
    hide Live, LiveEnd, View;
    var after := files[Segment(s) := Content(files, Segment(s)) + more];
    assert Content(after, Path.Metadata) == Content(files, Path.Metadata);
    AlignedReplays(fm, after, m);
  }

  lemma AppendedRetained(fm: Format, files: Files, m: Counters, tail: seq<nat>, count: seq<nat>, more: bytes,
      capacity: nat)
    requires SoundFormat(fm) && Indexed(fm, files, m, tail, count)
    requires Retained(fm, files, m, capacity) && tail[m.active] + |more| <= capacity
    ensures var after := files[Segment(m.active) := Content(files, Segment(m.active)) + more];
      Retained(fm, after, m, capacity) && (Aligned(fm, files, m) ==> DurablyRetained(fm, after, capacity))
  {
    hide Live, LiveEnd, DurablyRetained, Boot;
    var o := Other(m.active);
    var after := files[Segment(m.active) := Content(files, Segment(m.active)) + more];
    SegmentKept(fm, files, after, m, m, tail[o], count[o], o);
    if Aligned(fm, files, m) {
      AppendedBoot(fm, files, m, m.active, more);
      AlignedRetained(fm, after, m, capacity);
    }
  }

  /**
   What a failed second commit of `pop` leaves: memory has reset the head of the segment it emptied,
   the flash has not.
   */
  ghost predicate HeadBehind(fm: Format, files: Files, m: Counters, s: nat)
  {
    && Shaped(m) && s < 2 && m.head[s] == 0 && |Boot(fm, files).head| == 2
    && Boot(fm, files).active == m.active && Boot(fm, files).head[Other(s)] == m.head[Other(s)]
  }

  /** What a failed last commit of rotation leaves: memory has switched to the segment it emptied, the flash has not. */
  ghost predicate OrderBehind(fm: Format, files: Files, m: Counters)
  {
    && Shaped(m) && m.head[m.active] == 0 && |Boot(fm, files).head| == 2
    && Boot(fm, files).active == Other(m.active) && Boot(fm, files).head[Other(m.active)] == m.head[Other(m.active)]
  }

  lemma WrittenBoot(fm: Format, files: Files, s: nat, content: bytes)
    ensures var after := files[Segment(s) := content];
      Boot(fm, after).active == Boot(fm, files).active && Boot(fm, after).head == Boot(fm, files).head
  {
    assert Content(files[Segment(s) := content], Path.Metadata) == Content(files, Path.Metadata);
  }

  /** The reset is the only thing the flash lacks: the segment is empty, and with it the queue or its older part. */
  ghost predicate OnlyReset(fm: Format, files: Files, m: Counters, s: nat)
    requires Shaped(m)
  {
    Content(files, Segment(s)) == [] && (s == m.active ==> SegmentLive(fm, files, m, Other(m.active)) == [])
  }

  /** Memory is ahead of the flash by one uncommitted reset, and nothing has been appended since. */
  ghost predicate Behind(fm: Format, files: Files, m: Counters)
  {
    && Shaped(m) && !Aligned(fm, files, m)
    && ((exists s :: HeadBehind(fm, files, m, s) && OnlyReset(fm, files, m, s))
        || (OrderBehind(fm, files, m) && Content(files, Segment(m.active)) == []))
  }

  /** Memory is level with the flash, or ahead of it by one uncommitted reset. */
  ghost predicate Level(fm: Format, files: Files, m: Counters)
  {
    Aligned(fm, files, m) || Behind(fm, files, m)
  }

  /** Either way the next boot replays what the queue shows. */
  lemma LevelReplays(fm: Format, files: Files, m: Counters)
    requires SoundFormat(fm) && Shaped(m) && Level(fm, files, m)
    ensures Replay(fm, files) == View(fm, files, m)
  {
    hide SoundFormat, Boot, Live, LiveEnd, SegmentLive, Content;
    if Aligned(fm, files, m) {
      AlignedReplays(fm, files, m);
    } else {
      BootIsShaped(fm, files);
      SameLive(fm, files, m, Boot(fm, files));
    }
  }

  /** Heads matter only where there are bytes. */
  lemma SameLive(fm: Format, files: Files, m: Counters, n: Counters)
    requires Shaped(m) && Shaped(n)
    ensures forall s | 0 <= s < 2 && (m.head[s] == n.head[s] || Content(files, Segment(s)) == []) ::
      SegmentLive(fm, files, m, s) == SegmentLive(fm, files, n, s)
    ensures forall s | 0 <= s < 2 && Content(files, Segment(s)) == [] :: SegmentLive(fm, files, m, s) == []
  {
  }

  lemma LevelRetained(fm: Format, files: Files, m: Counters, capacity: nat)
    requires SoundFormat(fm) && Shaped(m) && Level(fm, files, m) && Retained(fm, files, m, capacity)
    ensures DurablyRetained(fm, files, capacity)
  {
    hide SoundFormat, Boot, Live, LiveEnd, SegmentLive, Content;
    if Aligned(fm, files, m) {
      AlignedRetained(fm, files, m, capacity);
    } else {
      BootIsShaped(fm, files);
      SameLive(fm, files, m, Boot(fm, files));
    }
  }

  /** Steps that keep the segments and what the next boot finds keep memory as far ahead as it was. */
  lemma BehindKept(fm: Format, a: Files, b: Files, m: Counters)
    requires SameSegments(a, b) && Boot(fm, a).active == Boot(fm, b).active && Boot(fm, a).head == Boot(fm, b).head
    ensures Behind(fm, a, m) == Behind(fm, b, m)
  {
    hide Live, LiveEnd, Boot, Content;
    if Shaped(m) {
      forall s | 0 <= s < 2
        ensures HeadBehind(fm, a, m, s) == HeadBehind(fm, b, m, s) && OnlyReset(fm, a, m, s) == OnlyReset(fm, b, m, s)
      {
        SegmentSame(fm, a, b, m, m, Other(m.active));
      }
      assert Content(a, Segment(m.active)) == Content(b, Segment(m.active));
    }
  }

  /** A segment emptied and its head reset, the reset not committed. */
  lemma ResetLags(fm: Format, a: Files, m: Counters, b: Files, n: Counters, s: nat)
    requires Shaped(m) && s < 2 && Aligned(fm, a, m) && b == a[Segment(s) := []] && n == m.(head := m.head[s := 0])
    ensures HeadBehind(fm, b, n, s) && Content(b, Segment(s)) == []
  {
    WrittenBoot(fm, a, s, []);
  }

  /** A segment's emptying and the reset of its head, neither committed. */
  lemma ResetLeavesBehind(fm: Format, a: Files, m: Counters, c: Files, b: Files, n: Counters, s: nat)
    requires Shaped(m) && Shaped(n) && s < 2 && Aligned(fm, a, m) && c == a[Segment(s) := []] && SameSegments(c, b)
    requires Boot(fm, b).active == Boot(fm, a).active && Boot(fm, b).head == Boot(fm, a).head &&
             n.head == m.head[s := 0]
    ensures n.active == m.active && m.head[s] == 0 ==> Aligned(fm, b, n)
    ensures n.active == m.active && m.head[s] != 0 && (s == n.active ==> SegmentLive(fm, b, n, Other(s)) == []) ==>
      HeadBehind(fm, b, n, s) && Behind(fm, b, n)
  {
    hide SegmentLive;
    assert Content(b, Segment(s)) == Content(c, Segment(s)) == [];
    if n.active == m.active {
      assert HeadBehind(fm, b, n, s);
      if m.head[s] == 0 { assert n.head == m.head; }
      assert n.head[s] == 0;
    }
  }

  /** Ahead with bytes in the active segment, the reset was of the other one; so rotation finds nothing to give up. */
  lemma BehindIsEmptied(fm: Format, files: Files, m: Counters, tail: seq<nat>, count: seq<nat>)
    requires Indexed(fm, files, m, tail, count) && Behind(fm, files, m) && tail[m.active] > 0
    ensures var o := Other(m.active);
      HeadBehind(fm, files, m, o) && Content(files, Segment(o)) == [] && files[Segment(o) := []] == files &&
      m.head[o] == 0 && count[o] == 0
  {
    hide Live, LiveEnd, Boot;
    IndexCounts(fm, files, m, tail, count, Other(m.active));
    SameLive(fm, files, m, m);
  }

  /** Switching to the segment that had been reset, in memory only. */
  lemma SwitchedBehind(fm: Format, a: Files, m: Counters, b: Files, n: Counters)
    requires Shaped(m) && HeadBehind(fm, a, m, Other(m.active)) && Content(a, Segment(Other(m.active))) == []
    requires SameSegments(a, b) && Boot(fm, a).active == Boot(fm, b).active && Boot(fm, a).head == Boot(fm, b).head
    requires n == m.(active := Other(m.active))
    ensures OrderBehind(fm, b, n) && Behind(fm, b, n)
  {
    hide Boot, Content;
    assert Content(a, Segment(n.active)) == Content(b, Segment(n.active));
  }

  function OldestSegment(m: Counters, count: seq<nat>): (s: nat)
    requires Shaped(m) && |count| == 2
    ensures s < 2
  {
    if count[Other(m.active)] > 0 then Other(m.active) else m.active
  }

  /** The oldest record is where the queue looks for it. */
  lemma OldestRecord(fm: Format, files: Files, m: Counters, tail: seq<nat>, count: seq<nat>)
    requires Indexed(fm, files, m, tail, count)
    ensures |View(fm, files, m)| == count[0] + count[1]
    ensures View(fm, files, m) != [] ==>
      var s := OldestSegment(m, count);
      var f := Content(files, Segment(s));
      count[s] > 0 && RecordAt(fm.framing, f, m.head[s]) && PayloadAt(fm.framing, f, m.head[s]) == View(fm, files, m)[0]
  {
    hide Live, LiveEnd, RecordAt, PayloadAt;
    IndexCounts(fm, files, m, tail, count, 0);
    IndexCounts(fm, files, m, tail, count, 1);
    if View(fm, files, m) != [] {
      var s := OldestSegment(m, count);
      LiveHead(fm.framing, Content(files, Segment(s)), m.head[s]);
    }
  }

  lemma OldestRecordFits(fm: Format, files: Files, m: Counters, tail: seq<nat>, count: seq<nat>)
    requires Indexed(fm, files, m, tail, count) && View(fm, files, m) != []
    ensures var s := OldestSegment(m, count);
      var f, at := Content(files, Segment(s)), m.head[s];
      && at + HEADER_BYTES <= |f| && at + HEADER_BYTES + LengthAt(fm.framing, f, at) <= |f|
      && View(fm, files, m)[0] == f[at + HEADER_BYTES..at + HEADER_BYTES + LengthAt(fm.framing, f, at)]
  {
    hide Live, LiveEnd, RecordAt, View, SegmentIndexed;
    OldestRecord(fm, files, m, tail, count);
    var s := OldestSegment(m, count);
    RecordFits(fm.framing, Content(files, Segment(s)), m.head[s]);
  }

  lemma LiveHead(fr: Framing, f: bytes, at: nat)
    requires Live(fr, f, at) != []
    ensures RecordAt(fr, f, at) && Live(fr, f, at)[0] == PayloadAt(fr, f, at)
    ensures Live(fr, f, at)[1..] == Live(fr, f, NextAt(fr, f, at)) &&
            LiveEnd(fr, f, at) == LiveEnd(fr, f, NextAt(fr, f, at))
  {
  }

  /** Moving the oldest segment's head over its first record drops exactly the first record of the view. */
  lemma AdvancedView(fm: Format, files: Files, m: Counters, n: Counters, tail: seq<nat>, count: seq<nat>, capacity: nat)
    requires Indexed(fm, files, m, tail, count) && View(fm, files, m) != []
    requires var s := OldestSegment(m, count);
      && n.active == m.active && |n.head| == 2 && n.head[Other(s)] == m.head[Other(s)]
      && (RecordAt(fm.framing, Content(files, Segment(s)), m.head[s])
          ==> n.head[s] == NextAt(fm.framing, Content(files, Segment(s)), m.head[s]))
    ensures var s := OldestSegment(m, count);
      && count[s] > 0
      && View(fm, files, n) == View(fm, files, m)[1..]
      && Indexed(fm, files, n, tail, count[s := count[s] - 1])
    ensures Retained(fm, files, m, capacity) ==> Retained(fm, files, n, capacity)
  {
    hide Live, LiveEnd, RecordAt, PayloadAt, NextAt, Content;
    var s := OldestSegment(m, count);
    OldestRecord(fm, files, m, tail, count);
    IndexCounts(fm, files, m, tail, count, 0);
    IndexCounts(fm, files, m, tail, count, 1);
    LiveHead(fm.framing, Content(files, Segment(s)), m.head[s]);
    AdvancedSegment(fm, files, m, n, tail[s], count[s], s);
    SegmentKept(fm, files, files, m, n, tail[Other(s)], count[Other(s)], Other(s));
  }

  lemma DrainedView(fm: Format, files: Files, m: Counters, tail: seq<nat>, count: seq<nat>, s: nat)
    requires Indexed(fm, files, m, tail, count) && s < 2 && count[s] == 0
    ensures View(fm, files, m) == SegmentLive(fm, files, m, Other(s))
  {
    hide Live, LiveEnd, SegmentLive, SegmentIndexed;
    IndexCounts(fm, files, m, tail, count, s);
  }

  lemma OlderThenNewer(fm: Format, files: Files, m: Counters, tail: seq<nat>, count: seq<nat>)
    requires Indexed(fm, files, m, tail, count)
    ensures var s := OldestSegment(m, count);
      View(fm, files, m) == SegmentLive(fm, files, m, s) + SegmentLive(fm, files, m, Other(s))
  {
    hide Live, LiveEnd, SegmentLive, SegmentIndexed;
    IndexCounts(fm, files, m, tail, count, Other(m.active));
  }

  /** Where the boot scan of a segment starts and where its live run ends. */
  ghost function ScanEnd(fm: Format, files: Files, m: Counters, s: nat): (end: nat)
    requires Shaped(m) && s < 2
    ensures Min(m.head[s], |Content(files, Segment(s))|) <= end <= |Content(files, Segment(s))|
  {
    var f := Content(files, Segment(s));
    LiveEnd(fm.framing, f, Min(m.head[s], |f|))
  }

  /** What a completed boot scan did to the segment: live prefix kept in place, the rest added to quarantine. */
  ghost predicate TailRepaired(fm: Format, a: Files, m: Counters, b: Files, s: nat)
    requires Shaped(m) && s < 2
  {
    var f, end := Content(a, Segment(s)), ScanEnd(fm, a, m, s);
    && Content(b, Quarantine(s)) == Content(a, Quarantine(s)) + f[end..]
    && Content(b, Segment(s)) == if SegmentLive(fm, a, m, s) == [] then [] else f[..end]
  }

  lemma ScanFacts(fm: Format, a: Files, m: Counters, s: nat)
    requires Shaped(m) && s < 2
    ensures ScanEnd(fm, a, m, s) ==
      LiveEnd(fm.framing, Content(a, Segment(s)), Min(m.head[s], |Content(a, Segment(s))|))
    ensures SegmentLive(fm, a, m, s) ==
      Live(fm.framing, Content(a, Segment(s)), Min(m.head[s], |Content(a, Segment(s))|))
  {
  }

  /** The same before a segment without records is emptied. */
  ghost predicate TailMoved(fm: Format, a: Files, m: Counters, b: Files, s: nat)
    requires Shaped(m) && s < 2
  {
    var f, end := Content(a, Segment(s)), ScanEnd(fm, a, m, s);
    && Content(b, Quarantine(s)) == Content(a, Quarantine(s)) + f[end..]
    && Content(b, Segment(s)) == f[..end]
  }

  lemma MovedIsRepaired(fm: Format, a: Files, m: Counters, b: Files, s: nat)
    requires Shaped(m) && s < 2 && TailMoved(fm, a, m, b, s)
    ensures SegmentLive(fm, a, m, s) != [] ==> TailRepaired(fm, a, m, b, s)
  {
  }

  /**
   The scan's last step, emptying a segment without records; `n` is the metadata with the head reset
   if that worked.
   */
  lemma ScannedEmpty(fm: Format, a: Files, b: Files, c: Files, m: Counters, k: Counters, n: Counters, s: nat)
    requires Shaped(m) && Shaped(k) && Shaped(n) && s < 2
    requires SegmentLive(fm, a, m, s) == SegmentLive(fm, b, m, s) == SegmentLive(fm, b, k, s) == []
    requires TailMoved(fm, a, m, b, s) && (c == b || c == b[Segment(s) := []])
    ensures SegmentLive(fm, c, m, s) == []
    ensures c == b[Segment(s) := []] && n.head[s] == 0 ==>
      SegmentIndexed(fm, c, n, 0, 0, s) && SegmentLive(fm, c, n, s) == [] && TailRepaired(fm, a, m, c, s)
  {
    EmptiedSegment(fm, b, m, s);
    EmptiedSegment(fm, b, n, s);
  }

  /**
   Cutting a segment at the end of its live run, or emptying it when that run has no
   record, changes nothing a boot replays from it, whichever head it uses: the durable
   one or the one clipped to the file. Cut this way, the segment is indexed, so that a
   second scan finds nothing to repair.
   */
  lemma RepairedSegment(fm: Format, a: Files, b: Files, m: Counters, n: Counters, s: nat)
    requires Shaped(m) && Shaped(n) && s < 2 && n.head[s] == Min(m.head[s], |Content(a, Segment(s))|)
    requires Content(b, Segment(s)) == Content(a, Segment(s)) ||
             Content(b, Segment(s)) == Content(a, Segment(s))[..ScanEnd(fm, a, m, s)]
    ensures SegmentLive(fm, b, m, s) == SegmentLive(fm, a, m, s) && SegmentLive(fm, b, n, s) == SegmentLive(fm, a, m, s)
    ensures Segment(s) in b && |Content(b, Segment(s))| == ScanEnd(fm, a, m, s)
        ==> SegmentIndexed(fm, b, n, ScanEnd(fm, a, m, s), |SegmentLive(fm, a, m, s)|, s)
  {
    var f, end := Content(a, Segment(s)), ScanEnd(fm, a, m, s);
    LiveSurvivesCut(fm.framing, f, Min(m.head[s], |f|), end);
    if |Content(b, Segment(s))| == end { assert Content(b, Segment(s)) == f[..end]; }
  }

  /** A segment whose file is missing is created empty. */
  lemma AbsentSegment(fm: Format, a: Files, b: Files, m: Counters, n: Counters, s: nat)
    requires Shaped(m) && Shaped(n) && s < 2 && Segment(s) !in a && (b == a || b == a[Segment(s) := []])
    ensures SegmentLive(fm, b, m, s) == SegmentLive(fm, a, m, s) == SegmentLive(fm, b, n, s) == []
    ensures Segment(s) in b && n.head[s] == 0 ==> SegmentIndexed(fm, b, n, 0, 0, s)
    ensures TailRepaired(fm, a, m, b, s)
  {
  }

  /**
   Files of two states differ at most in one segment, its quarantine and the repair file; no file of
   the first is gone.
   */
  ghost predicate ScanFrame(a: Files, b: Files, s: nat)
  {
    && SameExcept(a, b, {Segment(s), Quarantine(s), SegmentRepair})
    && (Segment(s) in a ==> Segment(s) in b)
    && (Quarantine(s) in a ==> Quarantine(s) in b)
    && |Content(b, Segment(s))| <= |Content(a, Segment(s))|
  }

  lemma ScanFrameFacts(a: Files, b: Files, s: nat)
    requires s < 2 && ScanFrame(a, b, s)
    ensures Content(b, Path.Metadata) == Content(a, Path.Metadata)
    ensures Content(b, Segment(Other(s))) == Content(a, Segment(Other(s)))
    ensures Reconstructed(a).reserved != 0 ==> Reconstructed(b).reserved != 0
  {
  }

  lemma ScanBoot(fm: Format, a: Files, b: Files, s: nat)
    requires SoundFormat(fm) && s < 2 && ScanFrame(a, b, s)
    ensures Shaped(Boot(fm, a)) && Shaped(Boot(fm, b))
    ensures Boot(fm, b).active == Boot(fm, a).active && Boot(fm, b).head == Boot(fm, a).head &&
            Boot(fm, b).dropped == Boot(fm, a).dropped
    ensures Boot(fm, a).reserved != 0 ==> Boot(fm, b).reserved != 0
  {
    hide ScanFrame, Content;
    ScanFrameFacts(a, b, s);
    BootIsShaped(fm, a);
    BootIsShaped(fm, b);
  }

  /** A boot scan never changes what the next boot would replay, count or keep. */
  lemma ScanKeepsReplay(fm: Format, a: Files, b: Files, m: Counters, s: nat, capacity: nat)
    requires SoundFormat(fm) && Shaped(m) && s < 2 && ScanFrame(a, b, s)
    requires Boot(fm, a).head[s] == m.head[s] && SegmentLive(fm, b, m, s) == SegmentLive(fm, a, m, s)
    ensures Replay(fm, b) == Replay(fm, a)
    ensures DurablyRetained(fm, a, capacity) ==> DurablyRetained(fm, b, capacity)
  {
    hide Live, LiveEnd, Boot, Content, SoundFormat;
    ScanBoot(fm, a, b, s);
    ScanFrameFacts(a, b, s);
    ScanSegments(fm, a, b, m, Boot(fm, a), Boot(fm, b), s);
  }

  lemma ScanSegments(fm: Format, a: Files, b: Files, m: Counters, n: Counters, k: Counters, s: nat)
    requires Shaped(m) && Shaped(n) && Shaped(k) && s < 2 && n.head[s] == m.head[s] && n.head == k.head
    requires SegmentLive(fm, b, m, s) == SegmentLive(fm, a, m, s) &&
             Content(b, Segment(Other(s))) == Content(a, Segment(Other(s)))
    ensures SegmentLive(fm, a, n, 0) == SegmentLive(fm, b, k, 0) && SegmentLive(fm, a, n, 1) == SegmentLive(fm, b, k, 1)
  {
    hide Content;
    assert SegmentLive(fm, a, n, s) == SegmentLive(fm, b, k, s);
    assert SegmentLive(fm, a, n, Other(s)) == SegmentLive(fm, b, k, Other(s));
  }

  /** After both scans the queue in memory shows what the boot found on the flash, and keeps it. */
  lemma ScanDone(fm: Format, a: Files, b: Files, c: Files, m: Counters, k: Counters, n: Counters, tail: nat, count: nat)
    requires SoundFormat(fm) && Shaped(m) && Shaped(k) && Shaped(n) && Boot(fm, a) == m
    requires m.active == k.active == n.active && k.head[1] == m.head[1] && n.head[0] == k.head[0]
    requires n.head[1] <= m.head[1] && k.head[0] <= m.head[0]
    requires ScanFrame(a, b, 0) && ScanFrame(b, c, 1)
    requires SegmentIndexed(fm, b, k, tail, count, 0)
    requires SegmentLive(fm, b, k, 0) == SegmentLive(fm, a, m, 0)
    requires SegmentLive(fm, c, n, 1) == SegmentLive(fm, b, k, 1)
    ensures SegmentIndexed(fm, c, n, tail, count, 0)
    ensures View(fm, c, n) == Replay(fm, a) && RetainedAsBooted(fm, a, c, n)
  {
    hide Live, LiveEnd, Boot, SegmentLive, SegmentIndexed, Content, SoundFormat;
    ScanFrameFacts(a, b, 0);
    ScanFrameFacts(b, c, 1);
    ScanFrameFiles(b, c, 1);
    SegmentSame(fm, b, c, k, n, 0);
    SegmentSame(fm, a, b, m, k, 1);
    SegmentKept(fm, b, c, k, n, tail, count, 0);
  }

  /** What was within capacity and in order on the flash at boot is so in memory afterwards. */
  ghost predicate RetainedAsBooted(fm: Format, a: Files, c: Files, n: Counters)
    requires SoundFormat(fm) && Shaped(n)
  {
    forall capacity | DurablyRetained(fm, a, capacity) :: Retained(fm, c, n, capacity)
  }

  lemma ScanFrameFiles(a: Files, b: Files, s: nat)
    requires s < 2 && ScanFrame(a, b, s)
    ensures Segment(Other(s)) in a <==> Segment(Other(s)) in b
    ensures Segment(Other(s)) in a ==> a[Segment(Other(s))] == b[Segment(Other(s))]
  {
    assert Content(b, Segment(Other(s))) == Content(a, Segment(Other(s)));
  }

  lemma SegmentSame(fm: Format, a: Files, b: Files, m: Counters, n: Counters, s: nat)
    requires Shaped(m) && Shaped(n) && s < 2 && m.head[s] == n.head[s] &&
             Content(a, Segment(s)) == Content(b, Segment(s))
    ensures SegmentLive(fm, a, m, s) == SegmentLive(fm, b, n, s)
  {
  }

  /** The durable drop count is the queue's own. */
  ghost predicate Counted(fm: Format, files: Files, m: Counters)
  {
    Boot(fm, files).dropped == m.dropped
  }

  /**
   The counters over a step, power cut included: the drop count never falls, for the queue
   or for the next boot, and a doubt about it is never forgotten.
   */
  ghost predicate Tallied(fm: Format, a: Files, m: Counters, b: Files, n: Counters)
  {
    && n.dropped >= m.dropped && n.reserved == m.reserved
    && (Counted(fm, a, m) ==> Boot(fm, b).dropped >= m.dropped)
    && (Boot(fm, a).reserved != 0 && m.reserved != 0 ==> Boot(fm, b).reserved != 0)
  }

  lemma TallyChain(fm: Format, a: Files, m: Counters, b: Files, n: Counters, c: Files, k: Counters)
    requires Tallied(fm, a, m, b, n) && Tallied(fm, b, n, c, k) && (Counted(fm, a, m) ==> Counted(fm, b, n))
    ensures Tallied(fm, a, m, c, k)
  {
  }

  lemma TallyNothing(fm: Format, a: Files, m: Counters, n: Counters)
    requires n.dropped >= m.dropped && n.reserved == m.reserved
    ensures Tallied(fm, a, m, a, n)
  {
  }

  lemma TallySaved(fm: Format, a: Files, m: Counters, b: Files, n: Counters)
    requires SoundFormat(fm) && SameExcept(a, b, {Path.Metadata, MetadataTemporary}) && Shaped(n)
    requires Path.Metadata in a ==> Path.Metadata in b
    requires Content(b, Path.Metadata) == fm.write(n) || Content(b, Path.Metadata) == Content(a, Path.Metadata)
    requires n.dropped >= m.dropped && n.reserved == m.reserved
    ensures Tallied(fm, a, m, b, n) && Tallied(fm, a, m, b, m)
    ensures Content(b, Path.Metadata) == fm.write(n) ==> Counted(fm, b, n)
    ensures Content(b, Path.Metadata) == Content(a, Path.Metadata) ==> Boot(fm, b).dropped == Boot(fm, a).dropped
  {
    hide Live, LiveEnd, SoundFormat;
    SavedFacts(fm, a, b);
    MetadataAttempt(fm, a, b, n);
  }

  lemma SavedFacts(fm: Format, b: Files, c: Files)
    requires SameExcept(b, c, {Path.Metadata, MetadataTemporary}) && (Path.Metadata in b ==> Path.Metadata in c)
    ensures SameSegments(b, c)
    ensures Reconstructed(b).reserved != 0 ==> Reconstructed(c).reserved != 0
  {
    MetadataStep(fm, b, c, Counters(0, 0, [0, 0], 0, 0, 0), [0, 0], [0, 0]);
  }

  /** Writing to a segment leaves the counters a boot finds. */
  lemma TallyWritten(fm: Format, a: Files, m: Counters, s: nat, content: bytes)
    requires SoundFormat(fm)
    ensures Tallied(fm, a, m, a[Segment(s) := content], m)
    ensures Boot(fm, a[Segment(s) := content]).dropped == Boot(fm, a).dropped
  {
    var b := a[Segment(s) := content];
    assert Content(b, Path.Metadata) == Content(a, Path.Metadata);
  }

  lemma CountedFrom(fm: Format, a: Files, b: Files, m: Counters)
    ensures Boot(fm, b).dropped == Boot(fm, a).dropped ==> Counted(fm, b, m) == Counted(fm, a, m)
  {
  }

  lemma SameDropped(fm: Format, a: Files, b: Files, m: Counters, n: Counters)
    requires m.dropped == n.dropped
    ensures Counted(fm, b, n) == Counted(fm, b, m)
    ensures Boot(fm, b).dropped == Boot(fm, a).dropped ==> Counted(fm, b, n) == Counted(fm, a, m)
  {
  }

  lemma SameTally(fm: Format, a: Files, m: Counters, b: Files, n: Counters, k: Counters)
    requires n.dropped == k.dropped && n.reserved == k.reserved
    ensures Tallied(fm, a, m, b, n) == Tallied(fm, a, m, b, k)
  {
  }

  lemma {:induction false} EncodeAllAppend(fr: Framing, ps: seq<Payload>, p: Payload)
    ensures EncodeAll(fr, ps + [p]) == EncodeAll(fr, ps) + Encode(fr, p)
    decreases |ps|
  {
    hide Encode;
    if ps == [] {
      assert [] + [p] == [p] && [p][1..] == [];
    } else {
      assert (ps + [p])[1..] == ps[1..] + [p];
      EncodeAllAppend(fr, ps[1..], p);
    }
  }

  /** An indexed segment whose head is at 0 is nothing but the framing of its records. */
  lemma WholeSegment(fm: Format, files: Files, m: Counters, tail: nat, count: nat, s: nat)
    requires Shaped(m) && s < 2 && SegmentIndexed(fm, files, m, tail, count, s) && m.head[s] == 0
    ensures |EncodeAll(fm.framing, SegmentLive(fm, files, m, s))| == tail
  {
    hide Live, LiveEnd, EncodeAll;
    LiveIsFramed(fm.framing, Content(files, Segment(s)), 0);
  }

  lemma OlderHoldsHead(fm: Format, files: Files, m: Counters, capacity: nat)
    requires Shaped(m) && Retained(fm, files, m, capacity) && SegmentLive(fm, files, m, Other(m.active)) != []
    ensures m.head[m.active] == 0
  {
    hide Live;
  }

  /** Records are given up only when those behind them and the incoming one no longer fit in a whole segment. */
  lemma RotationMeansFull(fm: Format, files: Files, m: Counters, tail: seq<nat>, count: seq<nat>, capacity: nat,
      p: Payload)
    requires SoundFormat(fm) && Indexed(fm, files, m, tail, count) && Retained(fm, files, m, capacity) && Storable(p)
    requires SegmentLive(fm, files, m, Other(m.active)) != [] && tail[m.active] + HEADER_BYTES + |p| > capacity
    ensures |EncodeAll(fm.framing, SegmentLive(fm, files, m, m.active) + [p])| > capacity
  {
    hide Live, LiveEnd, EncodeAll, Encode, SegmentLive, SegmentIndexed, Retained, Content, Sound;
    OlderHoldsHead(fm, files, m, capacity);
    WholeSegment(fm, files, m, tail[m.active], count[m.active], m.active);
    EncodeAllAppend(fm.framing, SegmentLive(fm, files, m, m.active), p);
    EncodedLength(fm.framing, p);
  }

  /** Emptying a segment, or failing to, leaves the counters of the queue and of the next boot. */
  lemma TallyEmptied(fm: Format, a: Files, m: Counters, b: Files, n: Counters, c: Files, k: Counters, s: nat)
    requires SoundFormat(fm) && Tallied(fm, a, m, b, n) && (c == b || c == b[Segment(s) := []])
    requires k.dropped == n.dropped && k.reserved == n.reserved && (Counted(fm, a, m) ==> Counted(fm, b, n))
    ensures Tallied(fm, a, m, c, k) && Counted(fm, c, k) == Counted(fm, b, n)
  {
    hide SoundFormat, Tallied, Counted, Boot;
    TallyNothing(fm, b, n, k);
    TallyWritten(fm, b, n, s, []);
    SameTally(fm, b, n, c, n, k);
    TallyChain(fm, a, m, b, n, c, k);
    SameDropped(fm, b, c, n, k);
  }

  /**
   Everything an attempt to replace the metadata `m` by `n` does, whether or not it took effect:
   the segments and what they replay stay, counters never fall, order and capacity are kept, and
   the next boot finds the new record or the old one.
   */
  lemma CommitAttempt(fm: Format, a: Files, m: Counters, b: Files, n: Counters, tail: seq<nat>, count: seq<nat>,
      newer: seq<nat>, capacity: nat)
    requires SoundFormat(fm) && Shaped(m) && Shaped(n) && n.dropped >= m.dropped && n.reserved == m.reserved
    requires SameExcept(a, b, {Path.Metadata, MetadataTemporary}) && (Path.Metadata in a ==> Path.Metadata in b)
    requires Content(b, Path.Metadata) == fm.write(n) || Content(b, Path.Metadata) == Content(a, Path.Metadata)
    ensures Indexed(fm, a, m, tail, count) == Indexed(fm, b, m, tail, count) &&
            Indexed(fm, a, n, tail, newer) == Indexed(fm, b, n, tail, newer)
    ensures View(fm, b, m) == View(fm, a, m) && View(fm, b, n) == View(fm, a, n)
    ensures Tallied(fm, a, m, b, n) && Tallied(fm, a, m, b, m)
    ensures Retained(fm, a, m, capacity) == Retained(fm, b, m, capacity) &&
            Retained(fm, a, n, capacity) == Retained(fm, b, n, capacity)
    ensures DurablyRetained(fm, a, capacity) && Retained(fm, a, n, capacity) ==> DurablyRetained(fm, b, capacity)
    ensures Content(b, Path.Metadata) == fm.write(n) ==>
      Boot(fm, b) == n && Aligned(fm, b, n) && Replay(fm, b) == View(fm, a, n) && Counted(fm, b, n)
    ensures Content(b, Path.Metadata) == Content(a, Path.Metadata) ==>
      && Replay(fm, b) == Replay(fm, a) && Boot(fm, b).dropped == Boot(fm, a).dropped
      && Counted(fm, b, m) == Counted(fm, a, m)
      && Boot(fm, b).active == Boot(fm, a).active && Boot(fm, b).head == Boot(fm, a).head
      && Aligned(fm, b, m) == Aligned(fm, a, m)
      && Behind(fm, b, m) == Behind(fm, a, m)
    ensures SameSegments(a, b)
  {
    hide *;
    MetadataStep(fm, a, b, m, tail, count);
    MetadataStep(fm, a, b, n, tail, newer);
    ViewDependsOnSegments(fm, a, b, m, m);
    ViewDependsOnSegments(fm, a, b, n, n);
    TallySaved(fm, a, m, b, n);
    RetainedDependsOnSegments(fm, a, b, m, m, capacity);
    RetainedDependsOnSegments(fm, a, b, n, n, capacity);
    if DurablyRetained(fm, a, capacity) && Retained(fm, a, n, capacity) { RetainedAttempt(fm, a, b, n, capacity); }
    MetadataAttempt(fm, a, b, n);
    CountedFrom(fm, a, b, m);
    if Content(b, Path.Metadata) == Content(a, Path.Metadata) {
      BootAligned(fm, a, b, m);
      BehindKept(fm, a, b, m);
    }
  }

  /** Everything emptying segment `s` does, with its head reset in memory (`n`) or not yet. */
  lemma EmptyAttempt(fm: Format, a: Files, m: Counters, b: Files, n: Counters, s: nat, capacity: nat)
    requires SoundFormat(fm) && Shaped(m) && s < 2 && (b == a || b == a[Segment(s) := []])
    requires n == m || (b == a[Segment(s) := []] && n == m.(head := m.head[s := 0]))
    ensures Tallied(fm, a, m, b, n) && Counted(fm, b, n) == Counted(fm, a, m)
    ensures Retained(fm, a, m, capacity) ==> Retained(fm, b, n, capacity)
    ensures Retained(fm, a, m, capacity) && DurablyRetained(fm, a, capacity) ==> DurablyRetained(fm, b, capacity)
    ensures Boot(fm, b).active == Boot(fm, a).active && Boot(fm, b).head == Boot(fm, a).head &&
            Boot(fm, b).dropped == Boot(fm, a).dropped
    ensures Aligned(fm, b, m) == Aligned(fm, a, m)
    ensures Aligned(fm, a, m) && b == a ==> Replay(fm, b) == View(fm, a, m)
    ensures Aligned(fm, a, m) && b == a[Segment(s) := []] ==> Replay(fm, b) == SegmentLive(fm, a, m, Other(s))
  {
    hide Live, LiveEnd, View, SegmentLive, Replay, Boot, Retained, DurablyRetained, Tallied, Counted, Aligned,
      SoundFormat, Content;
    TallyNothing(fm, a, m, m);
    TallyEmptied(fm, a, m, a, m, b, n, s);
    WrittenBoot(fm, a, s, []);
    BootAligned(fm, a, b, m);
    if Aligned(fm, a, m) {
      AlignedReplays(fm, a, m);
      EmptiedReplay(fm, a, m, s);
    }
    if Retained(fm, a, m, capacity) {
      if b == a[Segment(s) := []] { RetainedEmptied(fm, a, m, n, s, capacity); }
      if b != a && DurablyRetained(fm, a, capacity) { RetainedWhenEmptied(fm, a, m, n, s, capacity); }
    }
    TallyWritten(fm, a, m, s, []);
  }
}
