/**
 System events on the link between dash and logger: a fixed 60-byte layout cut into
 four notifications, the receiver that puts them together again, and the bounded
 queue both ends keep.
 */
module SystemEvents {
  import opened Bytes

  const LAYOUT_BYTES := 60
  const PART_BYTES := 17
  const FRAME_BYTES := 20
  const FRAME_MARK: byte := 0xe1

  type Code = c: seq<byte> | |c| == 32 witness seq(32, i => 0)
  type uint16 = v: int | 0 <= v < 0x1_0000

  datatype Event = Event(
    boot: uint32, seqno: uint32, ms: uint32, value: uint32, severity: byte, code: Code,
    durationMs: uint32, httpStatus: uint16, method_: byte, version: byte)

  function Layout(e: Event): (b: bytes)
    ensures |b| == LAYOUT_BYTES
  {
    [e.version, e.severity, e.method_, 0] + Le32(e.boot) + Le32(e.seqno) + Le32(e.ms) + Le32(e.value)
      + Le32(e.durationMs)
    + Le16(e.httpStatus) + e.code + [0, 0]
  }

  function Parse(b: bytes): Event
    requires |b| == LAYOUT_BYTES
  {
    Event(Get32(b, 4), Get32(b, 8), Get32(b, 12), Get32(b, 16), b[1], b[26..58], Get32(b, 20), Get16(b, 24), b[2], b[0])
  }

  /** What is laid out is what is parsed: every field survives. */
  lemma ParseLayout(e: Event)
    ensures Parse(Layout(e)) == e
  {
    hide Le32, Get32;
    var b := Layout(e);
    var head, w1, w2, w3, w4, w5 :=
      [e.version, e.severity, e.method_, 0], Le32(e.boot), Le32(e.seqno), Le32(e.ms), Le32(e.value), Le32(e.durationMs);
    var rest := Le16(e.httpStatus) + e.code + [0, 0];
    var r4 := w5 + rest;
    var r3 := w4 + r4;
    var r2 := w3 + r3;
    var r1 := w2 + r2;
    assert b == head + w1 + r1;
    assert b == (head + w1) + w2 + r2;
    assert b == (head + w1 + w2) + w3 + r3;
    assert b == (head + w1 + w2 + w3) + w4 + r4;
    assert b == (head + w1 + w2 + w3 + w4) + w5 + rest;
    WordAt(b, head, e.boot, r1);
    WordAt(b, head + w1, e.seqno, r2);
    WordAt(b, head + w1 + w2, e.ms, r3);
    WordAt(b, head + w1 + w2 + w3, e.value, r4);
    WordAt(b, head + w1 + w2 + w3 + w4, e.durationMs, rest);
    assert b[24..] == rest && b[24] == rest[0] && b[25] == rest[1];
    assert b[26..58] == e.code;
  }

  function PartEnd(part: nat): (end: nat)
    requires part < 4
    ensures part * PART_BYTES < end <= LAYOUT_BYTES
  {
    if part == 3 then LAYOUT_BYTES else part * PART_BYTES + PART_BYTES
  }

  function Part(e: Event, part: nat): bytes
    requires part < 4
  {
    Layout(e)[part * PART_BYTES..PartEnd(part)]
  }

  /** One notification: mark, part number, the event number's low byte, payload, padding. */
  function Frame(e: Event, part: nat): (f: bytes)
    requires part < 4
    ensures |f| == FRAME_BYTES
  {
    [FRAME_MARK, part, e.seqno % 256] + Part(e, part) + seq(PART_BYTES - |Part(e, part)|, i => 0)
  }

  /** The payload the receiver takes from a frame. */
  function Payload(frame: bytes): bytes
    requires |frame| == FRAME_BYTES && frame[1] < 4
  {
    frame[3..3 + PartEnd(frame[1]) - frame[1] * PART_BYTES]
  }

  predicate IsFrame(data: bytes)
  {
    |data| == FRAME_BYTES && data[0] == FRAME_MARK && data[1] < 4
  }

  lemma FramePayload(e: Event, part: nat)
    requires part < 4
    ensures IsFrame(Frame(e, part)) && Frame(e, part)[1] == part && Frame(e, part)[2] == e.seqno % 256
    ensures Payload(Frame(e, part)) == Part(e, part)
  {
  }

  /** The four payloads of one event are its layout, so an event assembled from them is that event. */
  lemma PartsRebuild(e: Event)
    ensures Part(e, 0) + Part(e, 1) + Part(e, 2) + Part(e, 3) == Layout(e)
    ensures Parse(Part(e, 0) + Part(e, 1) + Part(e, 2) + Part(e, 3)) == e
  {
    hide Layout;
    ParseLayout(e);
  }

  /** An event's identity is in its first notification, whatever the other three carry. */
  lemma IdentityInFirstPart(e: Event, b: bytes)
    requires |b| == LAYOUT_BYTES && b[..PART_BYTES] == Part(e, 0)
    ensures Parse(b).boot == e.boot && Parse(b).seqno == e.seqno && Parse(b).version == e.version
  {
    hide Layout, Le32, Get32;
    ParseLayout(e);
    var l := Layout(e);
    assert b[..PART_BYTES] == l[..PART_BYTES];
    assert l[0] == l[..PART_BYTES][0] == b[..PART_BYTES][0] == b[0];
    Get32Prefix(b, l, PART_BYTES, 4);
    Get32Prefix(b, l, PART_BYTES, 8);
  }

  lemma Get32Prefix(a: bytes, b: bytes, n: nat, at: nat)
    requires at + 4 <= n <= |a| && n <= |b| && a[..n] == b[..n]
    ensures Get32(a, at) == Get32(b, at)
  {
    assert a[at] == a[..n][at] == b[at] && a[at + 1] == a[..n][at + 1] == b[at + 1];
    assert a[at + 2] == a[..n][at + 2] == b[at + 2] && a[at + 3] == a[..n][at + 3] == b[at + 3];
  }

  class Receiver {
    var buffer: bytes
    var next: nat
    var sequence: byte
    /** The payloads accepted so far for the event being assembled. */
    ghost var parts: seq<bytes>

    ghost predicate Valid()
      reads this
    {
      && |buffer| == LAYOUT_BYTES && next == |parts| < 4
      && (forall i: nat | i < next :: buffer[i * PART_BYTES..PartEnd(i)] == parts[i])
    }

    constructor ()
      ensures Valid() && parts == []
    {
      buffer, next, sequence, parts := seq(LAYOUT_BYTES, i => 0), 0, 0, [];
    }

    method Reset()
      modifies this
      ensures Valid() && parts == []
    {
      buffer, next, sequence, parts := seq(LAYOUT_BYTES, i => 0), 0, 0, [];
    }

    /**
     Take in a notification. A first part always starts over; any other part counts only if
     it is the one expected, with the same sequence byte; everything else discards what was held.
     */
    method Accept(data: bytes) returns (complete: bool, event: Event)
      requires Valid()
      modifies this
      ensures Valid()
      ensures !(IsFrame(data) && (data[1] == 0 || (data[1] == old(next) && data[2] == old(sequence)))) ==>
        parts == [] && !complete
      ensures |data| != 20 || data[0] != 0xe1 || data[1] > 3 ==> parts == [] && !complete
      ensures IsFrame(data) && data[1] == 0 ==> parts == [Payload(data)] && sequence == data[2] && !complete
      ensures IsFrame(data) && 0 < data[1] == old(next) < 3 && data[2] == old(sequence) ==>
        parts == old(parts) + [Payload(data)] && sequence == old(sequence) && !complete
      ensures IsFrame(data) && data[1] == old(next) == 3 && data[2] == old(sequence) ==>
        && parts == [] && |old(parts[0]) + old(parts[1]) + old(parts[2]) + Payload(data)| == LAYOUT_BYTES
        && event == Parse(old(parts[0]) + old(parts[1]) + old(parts[2]) + Payload(data))
        && (complete <==> event.version == 1 && event.seqno % 256 == old(sequence))
    {
      complete, event := false, Parse(buffer);
      if !IsFrame(data) {
        next, parts := 0, [];
        return;
      }
      if data[1] == 0 {
        next, sequence, parts := 0, data[2], [];
      }
      if data[1] != next || data[2] != sequence {
        next, parts := 0, [];
        return;
      }
      Store(Payload(data));
      if next != 4 {
        return;
      }
      next := 0;
      assert buffer == buffer[0..17] + buffer[17..34] + buffer[34..51] + buffer[51..60];
      event := Parse(buffer);
      parts := [];
      complete := event.version == 1 && event.seqno % 256 == sequence;
    }

    method Store(payload: bytes)
      requires Valid() && |payload| == PartEnd(next) - next * PART_BYTES
      modifies this`buffer, this`next, this`parts
      ensures |buffer| == LAYOUT_BYTES && next == old(next) + 1 && parts == old(parts) + [payload]
      ensures forall i: nat | i < next :: buffer[i * PART_BYTES..PartEnd(i)] == parts[i]
    {
      var offset := next * PART_BYTES;
      ghost var before := buffer;
      buffer := buffer[..offset] + payload + buffer[offset + |payload|..];
      next, parts := next + 1, parts + [payload];
      forall i: nat | i < next ensures buffer[i * PART_BYTES..PartEnd(i)] == parts[i] {
        if i < next - 1 { assert buffer[i * PART_BYTES..PartEnd(i)] == before[i * PART_BYTES..PartEnd(i)]; }
      }
    }
  }

  /** A ring of at most `capacity` elements that refuses what does not fit. */
  class RingQueue<T(0)> {
    const entries: array<T>
    var head: nat
    var count: nat
    var dropped: uint32

    ghost predicate Valid()
      reads this
    {
      entries.Length > 0 && head < entries.Length && count <= entries.Length
    }

    function Slot(i: nat): (slot: nat)
      requires entries.Length > 0
      reads this
      ensures slot < entries.Length
    {
      (head + i) % entries.Length
    }

    ghost function Contents(): (s: seq<T>)
      requires Valid()
      reads this, entries
      ensures |s| == count
    {
      seq(count, i requires 0 <= i < count reads this, entries => entries[Slot(i)])
    }

    constructor (capacity: nat)
      requires capacity > 0
      ensures Valid() && fresh(entries) && entries.Length == capacity && Contents() == []
    {
      entries := new T[capacity];
      head, count, dropped := 0, 0, 0;
    }

    method Push(x: T) returns (ok: bool)
      requires Valid()
      modifies this, entries
      ensures Valid() && ok == (old(count) < entries.Length)
      ensures Contents() == if ok then old(Contents()) + [x] else old(Contents())
      ensures dropped == if ok then old(dropped) else (old(dropped) + 1) % WORD
    {
      if count == entries.Length {
        dropped := (dropped + 1) % WORD;
        return false;
      }
      ghost var before := Contents();
      forall i: nat | i < count ensures Slot(i) != Slot(count) {
        SlotsDiffer(entries.Length, head, i, count);
      }
      entries[Slot(count)] := x;
      count := count + 1;
      ok := true;
      assert Contents()[..count - 1] == before;
    }

    method Front() returns (found: bool, x: T)
      requires Valid()
      ensures found == (Contents() != []) && (found ==> x == Contents()[0])
    {
      Wrap(entries.Length, head);
      x := entries[head];
      found := count > 0;
      assert found ==> Contents()[0] == entries[Slot(0)];
    }

    method Pop()
      requires Valid()
      modifies this`head, this`count
      ensures Valid()
      ensures Contents() == if old(Contents()) == [] then [] else old(Contents())[1..]
    {
      if count > 0 {
        ghost var before := Contents();
        ghost var h := head;
        Wrap(entries.Length, h + 1);
        head, count := (head + 1) % entries.Length, count - 1;
        forall i: nat | i < count ensures entries[Slot(i)] == before[1..][i] {
          SlotShifts(entries.Length, h, i);
        }
        assert Contents() == before[1..];
      }
    }
  }

  lemma SlotsDiffer(n: nat, head: nat, i: nat, j: nat)
    requires i < j < n && head < n
    ensures (head + i) % n != (head + j) % n
  {
    assert (head + i) % n == if head + i < n then head + i else head + i - n by { Wrap(n, head + i); }
    assert (head + j) % n == if head + j < n then head + j else head + j - n by { Wrap(n, head + j); }
  }

  lemma Wrap(n: nat, x: nat)
    requires 0 < n && x < 2 * n
    ensures x % n == if x < n then x else x - n
  {
  }

  lemma SlotShifts(n: nat, head: nat, i: nat)
    requires 0 < n && head < n && i < n
    ensures ((head + 1) % n + i) % n == (head + (i + 1)) % n
  {
    Wrap(n, head + 1);
    if head + 1 == n { Wrap(n, i); Wrap(n, head + i + 1); }
  }
}
