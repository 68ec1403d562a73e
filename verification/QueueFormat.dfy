/**
 The encodings the firmware writes: record headers and the metadata record, both
 guarded by a checksum, and the version 1 metadata it still reads. They are shown to
 be a sound `Format`, whatever the checksum function; the firmware's is FNV-1a.
 */
module QueueFormat {
  import opened Bytes
  import opened SegmentLog
  import opened QueueDisk

  const RECORD_MAGIC: uint32 := 0x53465131
  const METADATA_MAGIC: uint32 := 0x5346514D
  const METADATA_BYTES := 32
  const LEGACY_BYTES := 24

  type Hash = bytes -> uint32

  function Header(hash: Hash, p: Payload): bytes
  {
    if |p| < WORD then Le32(RECORD_MAGIC) + Le32(|p|) + Le32(hash(p)) else []
  }

  function HeaderLength(b: bytes): nat
  {
    if |b| == HEADER_BYTES then Get32(b, 4) else 0
  }

  function QueueFraming(hash: Hash): Framing
  {
    Framing(p => Header(hash, p), b => HeaderLength(b))
  }

  /** The tests the firmware applies to a header and its payload: magic, length, room and checksum. */
  predicate PassesTests(hash: Hash, f: bytes, at: nat)
  {
    && at + HEADER_BYTES <= |f|
    && Get32(f, at) == RECORD_MAGIC
    && Get32(f, at + 4) != 0 && Get32(f, at + 4) <= MAXIMUM_PAYLOAD_BYTES
    && at + HEADER_BYTES + Get32(f, at + 4) <= |f|
    && hash(f[at + HEADER_BYTES..at + HEADER_BYTES + Get32(f, at + 4)]) == Get32(f, at + 8)
  }

  lemma HeaderWords(hash: Hash, p: Payload)
    requires |p| < WORD
    ensures |Header(hash, p)| == HEADER_BYTES
    ensures Get32(Header(hash, p), 0) == RECORD_MAGIC
    ensures Get32(Header(hash, p), 4) == |p|
    ensures Get32(Header(hash, p), 8) == hash(p)
  {
    hide Le32, Get32;
    var magic, length, sum := Le32(RECORD_MAGIC), Le32(|p|), Le32(hash(p));
    Get32Le32([], RECORD_MAGIC, length + sum);
    assert [] + magic + (length + sum) == Header(hash, p);
    Get32Le32(magic, |p|, sum);
    Get32Le32(magic + length, hash(p), []);
    assert magic + length + sum + [] == Header(hash, p);
  }

  lemma Get32Slice(f: bytes, at: nat, end: nat, offset: nat)
    requires at + offset + 4 <= end <= |f|
    ensures Get32(f[at..end], offset) == Get32(f, at + offset)
  {
  }

  /** The scan accepts a record exactly where a header equals the one its payload would be given. */
  lemma TestsMeanFraming(hash: Hash, f: bytes, at: nat)
    ensures PassesTests(hash, f, at) <==> RecordAt(QueueFraming(hash), f, at)
  {
    hide Le32, Get32;
    if at + HEADER_BYTES <= |f| {
      var header := f[at..at + HEADER_BYTES];
      Get32Slice(f, at, at + HEADER_BYTES, 0);
      Get32Slice(f, at, at + HEADER_BYTES, 4);
      Get32Slice(f, at, at + HEADER_BYTES, 8);
      var length := Get32(f, at + 4);
      if at + HEADER_BYTES + length <= |f| {
        var p := f[at + HEADER_BYTES..at + HEADER_BYTES + length];
        HeaderWords(hash, p);
        SameWords(header, Header(hash, p));
      }
    }
  }

  /** Twelve bytes are determined by the three words they hold. */
  lemma SameWords(a: bytes, b: bytes)
    requires |a| == |b| == HEADER_BYTES
    ensures a == b <==> Get32(a, 0) == Get32(b, 0) && Get32(a, 4) == Get32(b, 4) && Get32(a, 8) == Get32(b, 8)
  {
    hide Le32, Get32;
    if Get32(a, 0) == Get32(b, 0) && Get32(a, 4) == Get32(b, 4) && Get32(a, 8) == Get32(b, 8) {
      Le32Get32(a, 0);
      Le32Get32(b, 0);
      Le32Get32(a, 4);
      Le32Get32(b, 4);
      Le32Get32(a, 8);
      Le32Get32(b, 8);
      assert a == a[0..4] + a[4..8] + a[8..12];
      assert b == b[0..4] + b[4..8] + b[8..12];
    }
  }

  /** Everything in a metadata record that its checksum covers. */
  function MetadataBody(m: Counters): (b: bytes)
    requires Shaped(m)
    ensures |b| == METADATA_BYTES - 4
  {
    Le32(METADATA_MAGIC) + [2, 0, m.active, m.reserved] + Le32(m.head[0]) + Le32(m.head[1])
    + Le32(m.dropped) + Le32(m.corruptionEvents) + Le32(m.quarantinedBytes)
  }

  function WriteMetadata(hash: Hash, m: Counters): bytes
  {
    if Shaped(m) then MetadataBody(m) + Le32(hash(MetadataBody(m))) else []
  }

  /** Either version of the record; version 1 has no corruption counters. */
  function ReadMetadata(hash: Hash, b: bytes): (m: Option<Counters>)
    ensures m.Some? ==> Shaped(m.value)
  {
    if |b| == METADATA_BYTES then
      if Get32(b, 0) == METADATA_MAGIC && Get16(b, 4) == 2 && b[6] < 2 && Get32(b, 28) == hash(b[..28]) then
        Some(Counters(b[6], b[7], [Get32(b, 8), Get32(b, 12)], Get32(b, 16), Get32(b, 20), Get32(b, 24)))
      else None
    else if |b| == LEGACY_BYTES && Get32(b, 0) == METADATA_MAGIC && Get16(b, 4) == 1 && b[6] < 2
            && Get32(b, 20) == hash(b[..20]) then
      Some(Counters(b[6], 0, [Get32(b, 8), Get32(b, 12)], Get32(b, 16), 0, 0))
    else None
  }

  lemma MetadataWords(m: Counters, more: bytes)
    requires Shaped(m)
    ensures var b := MetadataBody(m) + more;
      && Get32(b, 0) == METADATA_MAGIC && b[4..8] == [2, 0, m.active, m.reserved]
      && Get32(b, 8) == m.head[0] && Get32(b, 12) == m.head[1] && Get32(b, 16) == m.dropped
      && Get32(b, 20) == m.corruptionEvents && Get32(b, 24) == m.quarantinedBytes
  {
    hide Le32, Get32;
    var b := MetadataBody(m) + more;
    var w0, w1, w2, w3, w4, w5, w6 :=
      Le32(METADATA_MAGIC), [2, 0, m.active, m.reserved], Le32(m.head[0]), Le32(m.head[1]),
      Le32(m.dropped), Le32(m.corruptionEvents), Le32(m.quarantinedBytes);
    var b1 := w0 + w1;
    var b2 := b1 + w2;
    var b3 := b2 + w3;
    var b4 := b3 + w4;
    var b5 := b4 + w5;
    var r6 := w6 + more;
    var r5 := w5 + r6;
    var r4 := w4 + r5;
    var r3 := w3 + r4;
    var r2 := w2 + r3;
    assert b == b5 + w6 + more;
    assert b == b4 + w5 + r6;
    assert b == b3 + w4 + r5;
    assert b == b2 + w3 + r4;
    assert b == b1 + w2 + r3;
    assert b == w0 + w1 + r2;
    assert b == [] + w0 + (w1 + r2);
    WordAt(b, [], METADATA_MAGIC, w1 + r2);
    WordAt(b, b1, m.head[0], r3);
    WordAt(b, b2, m.head[1], r4);
    WordAt(b, b3, m.dropped, r5);
    WordAt(b, b4, m.corruptionEvents, r6);
    WordAt(b, b5, m.quarantinedBytes, more);
  }

  /** What is committed is what the next boot loads. */
  lemma MetadataRoundTrip(hash: Hash, m: Counters)
    requires Shaped(m)
    ensures ReadMetadata(hash, WriteMetadata(hash, m)) == Some(m)
  {
    hide Le32, Get32;
    var body := MetadataBody(m);
    var b := WriteMetadata(hash, m);
    MetadataWords(m, Le32(hash(body)));
    WordAt(b, body, hash(body), []);
    assert b == body + Le32(hash(body)) + [];
    assert b[..28] == body;
    assert b[4..8][0] == b[4] && b[4..8][1] == b[5] && b[4..8][2] == b[6] && b[4..8][3] == b[7];
    assert m.head == [m.head[0], m.head[1]];
  }

  /** A version-1 record as earlier firmware wrote it, up to its checksum. */
  function LegacyBody(active: nat, reserved: byte, first: uint32, second: uint32, dropped: uint32): (b: bytes)
    requires active < 2
    ensures |b| == LEGACY_BYTES - 4
  {
    Le32(METADATA_MAGIC) + [1, 0, active, reserved] + Le32(first) + Le32(second) + Le32(dropped)
  }

  lemma LegacyWords(active: nat, reserved: byte, first: uint32, second: uint32, dropped: uint32, more: bytes)
    requires active < 2
    ensures var b := LegacyBody(active, reserved, first, second, dropped) + more;
      && Get32(b, 0) == METADATA_MAGIC && b[4..8] == [1, 0, active, reserved]
      && Get32(b, 8) == first && Get32(b, 12) == second && Get32(b, 16) == dropped
  {
    hide Le32, Get32;
    var b := LegacyBody(active, reserved, first, second, dropped) + more;
    var w0, w1, w2, w3, w4 :=
      Le32(METADATA_MAGIC), [1, 0, active, reserved], Le32(first), Le32(second), Le32(dropped);
    var b1 := w0 + w1;
    var b2 := b1 + w2;
    var b3 := b2 + w3;
    var r4 := w4 + more;
    var r3 := w3 + r4;
    var r2 := w2 + r3;
    assert b == b3 + w4 + more;
    assert b == b2 + w3 + r4;
    assert b == b1 + w2 + r3;
    assert b == w0 + w1 + r2;
    assert b == [] + w0 + (w1 + r2);
    WordAt(b, [], METADATA_MAGIC, w1 + r2);
    WordAt(b, b1, first, r3);
    WordAt(b, b2, second, r4);
    WordAt(b, b3, dropped, more);
  }

  /** What earlier firmware committed is taken over: heads, order and drop count, with nothing quarantined. */
  lemma LegacyIsTakenOver(hash: Hash, active: nat, reserved: byte, first: uint32, second: uint32, dropped: uint32)
    requires active < 2
    ensures var body := LegacyBody(active, reserved, first, second, dropped);
      ReadMetadata(hash, body + Le32(hash(body))) == Some(Counters(active, 0, [first, second], dropped, 0, 0))
  {
    hide Le32, Get32;
    var body := LegacyBody(active, reserved, first, second, dropped);
    var b := body + Le32(hash(body));
    LegacyWords(active, reserved, first, second, dropped, Le32(hash(body)));
    assert b == body + Le32(hash(body)) + [];
    WordAt(b, body, hash(body), []);
    assert b[..20] == body;
    assert b[4..8][0] == b[4] && b[4..8][1] == b[5] && b[4..8][2] == b[6];
  }

  function Encodings(hash: Hash): Format
  {
    Format(QueueFraming(hash), m => WriteMetadata(hash, m), b => ReadMetadata(hash, b))
  }

  /** All that the recovery proofs ask of the encodings holds of the firmware's. */
  lemma EncodingsAreSound(hash: Hash)
    ensures SoundFormat(Encodings(hash))
  {
    hide Header, HeaderLength, WriteMetadata, ReadMetadata;
    forall p | Storable(p)
      ensures |Encodings(hash).framing.header(p)| == HEADER_BYTES
      ensures Encodings(hash).framing.length(Encodings(hash).framing.header(p)) == |p|
    {
      FramingSound(hash, p);
    }
    forall m | Shaped(m)
      ensures Encodings(hash).write(m) != [] && Encodings(hash).read(Encodings(hash).write(m)) == Some(m)
    {
      WrittenIsNonempty(hash, m);
      MetadataRoundTrip(hash, m);
    }
  }

  lemma FramingSound(hash: Hash, p: Payload)
    requires Storable(p)
    ensures |Header(hash, p)| == HEADER_BYTES && HeaderLength(Header(hash, p)) == |p|
  {
    HeaderWords(hash, p);
  }

  lemma WrittenIsNonempty(hash: Hash, m: Counters)
    requires Shaped(m)
    ensures WriteMetadata(hash, m) != []
  {
    hide Le32;
  }
}
