/**
 Where the queue's crash safety ends. Two commits may fail after the files have
 already changed, and a failed append is not repaired before the next boot; for each,
 the exact condition under which the recovery promise still holds.
 */
module QueueLimits {
  import opened Bytes
  import opened SegmentLog
  import opened Flash
  import opened QueueDisk
  import opened QueueSteps
  import opened QueueFormat

  /**
   `pop` emptied the active segment but its second commit failed (`HeadBehind`). Once records are
   appended to it again, a boot replays what the queue shows if and only if the durable head is 0 too.
   */
  lemma DurableHeadMustAgree(fm: Format, files: Files, m: Counters, tail: seq<nat>, count: seq<nat>)
    requires SoundFormat(fm) && Indexed(fm, files, m, tail, count)
    requires HeadBehind(fm, files, m, m.active) && count[m.active] > 0
    ensures Replay(fm, files) == View(fm, files, m) <==> Boot(fm, files).head[m.active] == 0
  {
    hide Live, LiveEnd, Boot, SoundFormat;
    var a, o, b := m.active, Other(m.active), Boot(fm, files);
    BootIsShaped(fm, files);
    SegmentSame(fm, files, files, m, b, o);
    var f := Content(files, Segment(a));
    IndexCounts(fm, files, m, tail, count, a);
    StaleHeadLosesRecords(fm.framing, f, Min(b.head[a], |f|));
    SegmentFile(fm, files, m, a);
    var older, newer, booted := SegmentLive(fm, files, m, o), SegmentLive(fm, files, m, a),
      SegmentLive(fm, files, b, a);
    assert Replay(fm, files) == older + booted && View(fm, files, m) == older + newer;
    if older + booted == older + newer {
      assert booted == (older + booted)[|older|..] == (older + newer)[|older|..] == newer;
    }
  }

  /** Where the emptied segment was the older one, nothing is appended to it, and nothing is lost. */
  lemma OlderHeadMayLag(fm: Format, files: Files, m: Counters)
    requires SoundFormat(fm) && HeadBehind(fm, files, m, Other(m.active)) &&
             Content(files, Segment(Other(m.active))) == []
    ensures Replay(fm, files) == View(fm, files, m)
  {
    hide Boot, SoundFormat, Content;
    BootIsShaped(fm, files);
    SegmentSame(fm, files, files, m, Boot(fm, files), m.active);
  }

  /**
   It happens: `p` was the only record and has been popped, the segment is empty and its head
   reset, but that reset did not reach the flash; then `q` was appended. The next boot starts
   behind the header of `q`, or past its end, and does not replay it.
   */
  lemma StaleHeadHidesAppend(fm: Format, p: Payload, q: Payload)
    requires SoundFormat(fm) && Storable(p) && Storable(q)
    ensures var durable, m := Counters(0, 0, [HEADER_BYTES + |p|, 0], 0, 0, 0), Counters(0, 0, [0, 0], 0, 0, 0);
      var emptied := map[Path.Metadata := fm.write(durable), Segment(0) := [], Segment(1) := []];
      var files := emptied[Segment(0) := Encode(fm.framing, q)];
      && HeadBehind(fm, emptied, m, 0) && Replay(fm, emptied) == View(fm, emptied, m) == []
      && HeadBehind(fm, files, m, 0) && Indexed(fm, files, m, [HEADER_BYTES + |q|, 0], [1, 0])
      && View(fm, files, m) == [q] && Replay(fm, files) != [q]
  {
    hide Live, LiveEnd, Sound, Encode, Boot;
    var fr := fm.framing;
    var durable, m := Counters(0, 0, [HEADER_BYTES + |p|, 0], 0, 0, 0), Counters(0, 0, [0, 0], 0, 0, 0);
    var emptied := map[Path.Metadata := fm.write(durable), Segment(0) := [], Segment(1) := []];
    var files := emptied[Segment(0) := Encode(fr, q)];
    OneRecord(fr, q);
    EmptyRun(fr);
    CommittedIsAligned(fm, emptied, durable);
    CommittedIsAligned(fm, files, durable);
    assert SegmentLive(fm, files, m, 0) == [q] && SegmentLive(fm, files, m, 1) == [];
    assert SegmentLive(fm, emptied, durable, 0) == SegmentLive(fm, emptied, durable, 1) == [];
    DurableHeadMustAgree(fm, files, m, [HEADER_BYTES + |q|, 0], [1, 0]);
  }

  lemma OneRecord(fr: Framing, q: Payload)
    requires Sound(fr) && Storable(q)
    ensures Live(fr, Encode(fr, q), 0) == [q] && LiveEnd(fr, Encode(fr, q), 0) == |Encode(fr, q)| == HEADER_BYTES + |q|
  {
    hide Sound, Encode;
    EmptyRun(fr);
    EncodedLength(fr, q);
    AppendedRecordIsLive(fr, [], 0, q);
    assert [] + Encode(fr, q) == Encode(fr, q);
  }

  lemma EmptyRun(fr: Framing)
    ensures Live(fr, [], 0) == [] && LiveEnd(fr, [], 0) == 0
  {
  }

  /** A segment with a live record has bytes. */
  lemma SegmentFile(fm: Format, files: Files, m: Counters, s: nat)
    requires Shaped(m) && s < 2 && SegmentLive(fm, files, m, s) != []
    ensures |Content(files, Segment(s))| > 0
  {
  }

  /**
   Rotation emptied the older segment and switched to it, but its last commit failed
   (`OrderBehind`), so the flash still names the old active segment and may have an old head for
   the other one. While the records of the two differ, a boot replays what the queue shows if and
   only if nothing has been appended since, or there is nothing else and the durable head is 0 too.
   */
  lemma DurableOrderMustAgree(fm: Format, files: Files, m: Counters, tail: seq<nat>, count: seq<nat>)
    requires SoundFormat(fm) && Indexed(fm, files, m, tail, count) && OrderBehind(fm, files, m)
    requires forall p :: p in SegmentLive(fm, files, m, m.active) ==> p !in SegmentLive(fm, files, m, Other(m.active))
    ensures Replay(fm, files) == View(fm, files, m) <==>
      count[m.active] == 0 || (count[Other(m.active)] == 0 && Boot(fm, files).head[m.active] == 0)
  {
    hide Live, LiveEnd, Boot, SoundFormat, EncodeAll;
    var a, o, b := m.active, Other(m.active), Boot(fm, files);
    BootIsShaped(fm, files);
    SegmentSame(fm, files, files, m, b, o);
    IndexCounts(fm, files, m, tail, count, a);
    IndexCounts(fm, files, m, tail, count, o);
    var f := Content(files, Segment(a));
    var older, newer, booted := SegmentLive(fm, files, m, o), SegmentLive(fm, files, m, a),
      SegmentLive(fm, files, b, a);
    assert Replay(fm, files) == booted + older && View(fm, files, m) == older + newer;
    if newer == [] {
      WholeSegment(fm, files, m, tail[a], count[a], a);
      NothingToEncode(fm.framing);
      EmptyRun(fm.framing);
      assert f == [] && booted == [];
      assert [] + older == older && older + [] == older;
    } else {
      SegmentFile(fm, files, m, a);
      var h := Min(b.head[a], |f|);
      StaleHeadLosesRecords(fm.framing, f, h);
      if older == [] {
        assert booted + older == booted && older + newer == newer;
      } else if booted + older == older + newer {
        SameFraming(fm.framing, booted, older, newer);
        StaleHeadIsShorter(fm.framing, f, h);
        OrderMatters(older, newer);
      }
    }
  }

  lemma OrderMatters(older: seq<Payload>, newer: seq<Payload>)
    requires older != [] && newer != [] && forall p :: p in newer ==> p !in older
    ensures newer + older != older + newer
  {
    assert (newer + older)[0] == newer[0] && (older + newer)[0] == older[0];
    assert newer[0] in newer && older[0] in older;
  }

  lemma NothingToEncode(fr: Framing)
    ensures |EncodeAll(fr, [])| == 0
  {
  }

  lemma {:induction false} FramingAdds(fr: Framing, a: seq<Payload>, b: seq<Payload>)
    ensures |EncodeAll(fr, a + b)| == |EncodeAll(fr, a)| + |EncodeAll(fr, b)|
    decreases |a|
  {
    hide Encode;
    if a == [] {
      assert a + b == b;
    } else {
      assert (a + b)[1..] == a[1..] + b;
      FramingAdds(fr, a[1..], b);
    }
  }

  lemma SameFraming(fr: Framing, booted: seq<Payload>, older: seq<Payload>, newer: seq<Payload>)
    requires booted + older == older + newer
    ensures |EncodeAll(fr, booted)| == |EncodeAll(fr, newer)|
  {
    FramingAdds(fr, booted, older);
    FramingAdds(fr, older, newer);
  }

  /** Read from a later head, a segment's records take less room, unless that head is the start. */
  lemma StaleHeadIsShorter(fr: Framing, f: bytes, h: nat)
    requires h <= |f| == LiveEnd(fr, f, 0) && |EncodeAll(fr, Live(fr, f, h))| == |EncodeAll(fr, Live(fr, f, 0))|
    ensures h == 0
  {
    hide Live, EncodeAll;
    LiveIsFramed(fr, f, 0);
    LiveIsFramed(fr, f, h);
  }

  /**
   It happens: with `p` in the active segment, rotation emptied the other one and switched to it
   in memory only; then `q` was appended. The next boot replays `q` before `p`.
   */
  lemma StaleOrderReverses(fm: Format, p: Payload, q: Payload)
    requires SoundFormat(fm) && Storable(p) && Storable(q) && p != q
    ensures var durable, m := Counters(0, 0, [0, 0], 0, 0, 0), Counters(1, 0, [0, 0], 0, 0, 0);
      var files := map[Path.Metadata := fm.write(durable), Segment(0) := Encode(fm.framing, p),
        Segment(1) := Encode(fm.framing, q)];
      && OrderBehind(fm, files, m) && Indexed(fm, files, m, [HEADER_BYTES + |p|, HEADER_BYTES + |q|], [1, 1])
      && View(fm, files, m) == [p, q] && Replay(fm, files) == [q, p]
  {
    hide Live, LiveEnd, Sound, Encode, Boot;
    var fr := fm.framing;
    var durable, m := Counters(0, 0, [0, 0], 0, 0, 0), Counters(1, 0, [0, 0], 0, 0, 0);
    var files := map[Path.Metadata := fm.write(durable), Segment(0) := Encode(fr, p), Segment(1) := Encode(fr, q)];
    OneRecord(fr, p);
    OneRecord(fr, q);
    CommittedIsAligned(fm, files, durable);
    assert SegmentLive(fm, files, m, 0) == [p] && SegmentLive(fm, files, m, 1) == [q];
    assert SegmentLive(fm, files, durable, 0) == [p] && SegmentLive(fm, files, durable, 1) == [q];
    assert [p] + [q] == [p, q] && [q] + [p] == [q, p];
  }

  /**
   An append after a short write of `stray` bytes: the index it leaves describes the file
   if and only if nothing had been written, that is, if the file length still was `tail`.
   */
  lemma AppendNeedsCleanTail(fm: Format, files: Files, m: Counters, tail: nat, count: nat, s: nat, stray: bytes,
      p: Payload)
    requires SoundFormat(fm) && Shaped(m) && s < 2 && SegmentIndexed(fm, files, m, tail, count, s) && Storable(p)
    ensures var after := files[Segment(s) := Content(files, Segment(s)) + stray + Encode(fm.framing, p)];
      && (SegmentIndexed(fm, after, m, tail + HEADER_BYTES + |p|, count + 1, s) <==> stray == [])
      && (stray == [] ==> SegmentLive(fm, after, m, s) == SegmentLive(fm, files, m, s) + [p])
  {
    hide Live, LiveEnd, Sound, Encode;
    EncodedLength(fm.framing, p);
    if stray == [] {
      assert Content(files, Segment(s)) + stray == Content(files, Segment(s));
      AppendedSegment(fm, files, m, tail, count, s, p);
    }
  }

  /**
   The bytes behind a short write of `t` bytes of `p`'s record are taken for the rest of that
   record: its header is complete but for part of the checksum, `more` is long enough to fill its
   length, and the checksum accepts what is there.
   */
  predicate Misread(hash: Hash, p: Payload, t: nat, more: bytes)
    requires |Header(hash, p)| == HEADER_BYTES && t <= |Header(hash, p) + p|
  {
    var g := (Header(hash, p) + p)[..t] + more;
    8 <= t && HEADER_BYTES + |p| <= |g| && hash(g[HEADER_BYTES..HEADER_BYTES + |p|]) == Get32(g, 8)
  }

  /** Torn inside the payload, the record's own checksum must accept what was written of it and what came behind. */
  lemma MisreadPayload(hash: Hash, p: Payload, t: nat, more: bytes)
    requires |p| < WORD && |Header(hash, p)| == HEADER_BYTES <= t <= HEADER_BYTES + |p|
    ensures var behind := p[..t - HEADER_BYTES] + more;
      Misread(hash, p, t, more) <==> |p| <= |behind| && hash(behind[..|p|]) == hash(p)
  {
    hide Header, Get32;
    HeaderWords(hash, p);
    var g := (Header(hash, p) + p)[..t] + more;
    var behind := p[..t - HEADER_BYTES] + more;
    assert g == Header(hash, p) + behind;
    assert g[0..HEADER_BYTES] == Header(hash, p);
    Get32Slice(g, 0, HEADER_BYTES, 8);
    if HEADER_BYTES + |p| <= |g| {
      assert g[HEADER_BYTES..HEADER_BYTES + |p|] == behind[..|p|];
    }
  }

  /**
   What a short write costs, wherever it stopped: nothing appended behind it in the same boot -
   `q`, and whatever else - can be replayed until `begin` has repaired the segment, if and only
   if the checksum does not take it for the rest of the torn record.
   */
  lemma StrayBytesHideAppends(hash: Hash, f: bytes, at: nat, p: Payload, q: Payload, t: nat, others: bytes)
    requires at <= |f| == LiveEnd(QueueFraming(hash), f, at) && Storable(p) && Storable(q) &&
             1 <= t < HEADER_BYTES + |p|
    ensures |Header(hash, p)| == HEADER_BYTES
    ensures var fr := QueueFraming(hash); var more := Encode(fr, q) + others;
      Live(fr, f + Encode(fr, p)[..t] + more, at) == Live(fr, f, at) <==> !Misread(hash, p, t, more)
  {
    hide Live, LiveEnd, RecordAt, PassesTests, Header, HeaderLength, Misread;
    var fr := QueueFraming(hash);
    HeaderWords(hash, p);
    var more := Encode(fr, q) + others;
    var stray := Encode(fr, p)[..t] + more;
    var g := f + Encode(fr, p)[..t] + more;
    assert f <= g && g[|f|..] == stray;
    LiveOfExtension(fr, f, at, g);
    StrayIsRecord(hash, p, q, t, others);
    TestsMeanFraming(hash, g, |f|);
    TestsMeanFraming(hash, stray, 0);
    TestsShift(hash, g, |f|);
    if RecordAt(fr, g, |f|) {
      LiveStep(fr, g, |f|);
    } else {
      LiveStops(fr, g, |f|);
    }
  }

  /** Whether a record passes the tests depends on the bytes from there on. */
  lemma TestsShift(hash: Hash, g: bytes, at: nat)
    requires at <= |g|
    ensures PassesTests(hash, g, at) <==> PassesTests(hash, g[at..], 0)
  {
    hide Get32;
    var b := g[at..];
    if at + HEADER_BYTES <= |g| {
      Get32Slice(g, at, |g|, 0);
      Get32Slice(g, at, |g|, 4);
      Get32Slice(g, at, |g|, 8);
      assert g[at..|g|] == b && Get32(b, 0) == Get32(g, at);
      assert Get32(b, 4) == Get32(g, at + 4) && Get32(b, 8) == Get32(g, at + 8);
      assert b[0 + HEADER_BYTES..] == g[at + HEADER_BYTES..];
      var n := Get32(b, 4);
      if HEADER_BYTES + n <= |b| {
        assert b[HEADER_BYTES..HEADER_BYTES + n] == g[at + HEADER_BYTES..at + HEADER_BYTES + n];
      }
    }
  }

  /** The torn record passes the tests exactly if it is misread. */
  lemma StrayIsRecord(hash: Hash, p: Payload, q: Payload, t: nat, others: bytes)
    requires Storable(p) && Storable(q) && 1 <= t < HEADER_BYTES + |p| && |Header(hash, p)| == HEADER_BYTES
    ensures var more := Encode(QueueFraming(hash), q) + others;
      PassesTests(hash, Encode(QueueFraming(hash), p)[..t] + more, 0) <==> Misread(hash, p, t, more)
  {
    hide Header, HeaderLength, Get32;
    HeaderWords(hash, p);
    HeaderWords(hash, q);
    var more := Encode(QueueFraming(hash), q) + others;
    var g := Encode(QueueFraming(hash), p)[..t] + more;
    assert Encode(QueueFraming(hash), p) == Header(hash, p) + p;
    if t < 8 {
      var start := g[0..t + 8];
      assert start == Header(hash, p)[..t] + Header(hash, q)[..8];
      StrayStart(hash, p, q, t, start);
      Get32Slice(g, 0, t + 8, 0);
      Get32Slice(g, 0, t + 8, 4);
    } else {
      assert g[0..8] == Header(hash, p)[0..8];
      Get32Slice(g, 0, 8, 0);
      Get32Slice(g, 0, 8, 4);
      Get32Slice(Header(hash, p), 0, 8, 0);
      Get32Slice(Header(hash, p), 0, 8, 4);
    }
  }

  lemma LiveStops(fr: Framing, g: bytes, at: nat)
    requires !RecordAt(fr, g, at)
    ensures Live(fr, g, at) == []
  {
  }

  /** A header behind one to seven bytes of another is misread: wrong magic, or an impossible length. */
  lemma StrayStart(hash: Hash, p: Payload, q: Payload, t: nat, start: bytes)
    requires Storable(p) && Storable(q) && 1 <= t <= 7
    requires |Header(hash, p)| == |Header(hash, q)| == HEADER_BYTES &&
             start == Header(hash, p)[..t] + Header(hash, q)[..8]
    ensures Get32(start, 0) != RECORD_MAGIC || Get32(start, 4) > MAXIMUM_PAYLOAD_BYTES
  {
    var magic := [0x31, 0x51, 0x46, 0x53];
    MagicBytes(hash, q);
    assert start[t..t + 4] == magic;
    if t >= 4 {
      assert start[t] == 0x31;
      assert t == 4 ==> start[5] == 0x51;
      var b4: int, b5: int, b6: int, b7: int := start[4], start[5], start[6], start[7];
      assert Get32(start, 4) == b4 + 0x100 * b5 + 0x1_0000 * b6 + 0x100_0000 * b7;
    } else {
      MagicBytes(hash, p);
      assert start[t] == 0x31;
      var b0: int, b1: int, b2: int, b3: int := start[0], start[1], start[2], start[3];
      assert Get32(start, 0) == b0 + 0x100 * b1 + 0x1_0000 * b2 + 0x100_0000 * b3;
      assert t == 1 ==> b1 == 0x31;
      assert t == 2 ==> b2 == 0x31;
      assert t == 3 ==> b3 == 0x31;
    }
  }

  lemma MagicBytes(hash: Hash, p: Payload)
    requires |p| < WORD
    ensures |Header(hash, p)| == HEADER_BYTES && Header(hash, p)[..4] == [0x31, 0x51, 0x46, 0x53]
  {
    assert Le32(RECORD_MAGIC) == [0x31, 0x51, 0x46, 0x53];
    assert Header(hash, p)[..4] == Le32(RECORD_MAGIC);
  }
}
