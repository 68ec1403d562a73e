/**
 One append-only queue segment: a run of framed records, read back from a head
 offset until the first bytes that are not a complete, checksummed record.

 The framing is a parameter. `QueueFormat` gives the one the firmware writes and
 shows it sound; nothing here depends on the checksum it uses.
 */
module SegmentLog {
  import opened Bytes

  const MAXIMUM_PAYLOAD_BYTES := 4096
  const HEADER_BYTES := 12

  type Payload = bytes

  predicate Storable(p: Payload)
  {
    1 <= |p| <= MAXIMUM_PAYLOAD_BYTES
  }

  ghost predicate AllStorable(ps: seq<Payload>)
  {
    forall i | 0 <= i < |ps| :: Storable(ps[i])
  }

  lemma AllStorableParts(ps: seq<Payload>)
    requires ps != [] && AllStorable(ps)
    ensures Storable(ps[0]) && AllStorable(ps[1..])
  {
  }

  /** How a payload is framed: the header written before it, and the length read back from a header. */
  datatype Framing = Framing(header: Payload -> bytes, length: bytes -> nat)

  ghost predicate Sound(fr: Framing)
  {
    forall p :: Storable(p) ==> |fr.header(p)| == HEADER_BYTES && fr.length(fr.header(p)) == |p|
  }

  /** The bytes `enqueue` appends for one payload. */
  function Encode(fr: Framing, p: Payload): bytes
  {
    fr.header(p) + p
  }

  lemma EncodedLength(fr: Framing, p: Payload)
    requires Sound(fr) && Storable(p)
    ensures |Encode(fr, p)| == HEADER_BYTES + |p|
  {
  }

  function EncodeAll(fr: Framing, ps: seq<Payload>): bytes
  {
    if ps == [] then [] else Encode(fr, ps[0]) + EncodeAll(fr, ps[1..])
  }

  ghost predicate EncodedAt(f: bytes, at: nat, e: bytes)
  {
    at + |e| <= |f| && f[at..at + |e|] == e
  }

  lemma EncodedParts(f: bytes, at: nat, a: bytes, b: bytes)
    requires EncodedAt(f, at, a + b)
    ensures EncodedAt(f, at, a) && EncodedAt(f, at + |a|, b)
  {
    assert f[at..at + |a|] == f[at..at + |a + b|][..|a|] == (a + b)[..|a|] == a;
    assert f[at + |a|..at + |a + b|] == f[at..at + |a + b|][|a|..] == (a + b)[|a|..] == b;
  }

  function LengthAt(fr: Framing, f: bytes, at: nat): nat
    requires at + HEADER_BYTES <= |f|
  {
    fr.length(f[at..at + HEADER_BYTES])
  }

  /** The header at `at` is exactly the one its payload would be given, and the payload is all there. */
  predicate RecordAt(fr: Framing, f: bytes, at: nat)
  {
    && at + HEADER_BYTES <= |f|
    && 1 <= LengthAt(fr, f, at) <= MAXIMUM_PAYLOAD_BYTES
    && at + HEADER_BYTES + LengthAt(fr, f, at) <= |f|
    && fr.header(PayloadAt(fr, f, at)) == f[at..at + HEADER_BYTES]
  }

  function PayloadAt(fr: Framing, f: bytes, at: nat): Payload
    requires at + HEADER_BYTES <= |f| && at + HEADER_BYTES + LengthAt(fr, f, at) <= |f|
  {
    f[at + HEADER_BYTES..at + HEADER_BYTES + LengthAt(fr, f, at)]
  }

  lemma RecordFits(fr: Framing, f: bytes, at: nat)
    requires RecordAt(fr, f, at)
    ensures at + HEADER_BYTES <= |f| && at + HEADER_BYTES + LengthAt(fr, f, at) <= |f|
    ensures PayloadAt(fr, f, at) == f[at + HEADER_BYTES..at + HEADER_BYTES + LengthAt(fr, f, at)]
    ensures Storable(PayloadAt(fr, f, at))
  {
  }

  function NextAt(fr: Framing, f: bytes, at: nat): (next: nat)
    requires RecordAt(fr, f, at)
    ensures at + HEADER_BYTES < next <= |f|
  {
    at + HEADER_BYTES + LengthAt(fr, f, at)
  }

  /** The records replayable from `at`, oldest first. */
  ghost function Live(fr: Framing, f: bytes, at: nat): (ps: seq<Payload>)
    ensures AllStorable(ps)
    decreases |f| - at
  {
    if RecordAt(fr, f, at) then [PayloadAt(fr, f, at)] + Live(fr, f, NextAt(fr, f, at)) else []
  }

  /** Where the replayable run that starts at `at` stops. */
  ghost function LiveEnd(fr: Framing, f: bytes, at: nat): (end: nat)
    ensures at <= end
    ensures at <= |f| ==> end <= |f|
    decreases |f| - at
  {
    if RecordAt(fr, f, at) then LiveEnd(fr, f, NextAt(fr, f, at)) else at
  }

  /** A record is found at `at` exactly when the bytes there are some payload's framing. */
  lemma RecordIsFraming(fr: Framing, f: bytes, at: nat)
    requires RecordAt(fr, f, at)
    ensures f[at..NextAt(fr, f, at)] == Encode(fr, PayloadAt(fr, f, at))
  {
    assert f[at..NextAt(fr, f, at)] == f[at..at + HEADER_BYTES] + PayloadAt(fr, f, at);
  }

  lemma FramingIsRecord(fr: Framing, f: bytes, at: nat, p: Payload)
    requires Sound(fr) && Storable(p) && EncodedAt(f, at, Encode(fr, p))
    ensures RecordAt(fr, f, at) && PayloadAt(fr, f, at) == p && NextAt(fr, f, at) == at + |Encode(fr, p)|
  {
    var e := Encode(fr, p);
    assert f[at..at + HEADER_BYTES] == e[..HEADER_BYTES] == fr.header(p);
    assert f[at + HEADER_BYTES..at + |e|] == e[HEADER_BYTES..] == p;
  }

  /** A record lying inside the common prefix of two files is the same record in both. */
  lemma RecordInPrefix(fr: Framing, f: bytes, g: bytes, at: nat)
    requires f <= g && RecordAt(fr, f, at)
    ensures RecordAt(fr, g, at) && PayloadAt(fr, g, at) == PayloadAt(fr, f, at) &&
            NextAt(fr, g, at) == NextAt(fr, f, at)
  {
    assert g[at..at + HEADER_BYTES] == f[at..at + HEADER_BYTES];
    assert g[at + HEADER_BYTES..NextAt(fr, f, at)] == PayloadAt(fr, f, at);
  }

  /** Bytes cut off behind the end of the live run do not change it. */
  lemma {:induction false} LiveSurvivesCut(fr: Framing, f: bytes, at: nat, n: nat)
    requires LiveEnd(fr, f, at) <= n <= |f|
    ensures Live(fr, f[..n], at) == Live(fr, f, at) && LiveEnd(fr, f[..n], at) == LiveEnd(fr, f, at)
    decreases |f| - at
  {
    var g := f[..n];
    if RecordAt(fr, f, at) {
      var next := NextAt(fr, f, at);
      assert g[at..at + HEADER_BYTES] == f[at..at + HEADER_BYTES];
      assert g[at + HEADER_BYTES..next] == f[at + HEADER_BYTES..next];
      LiveSurvivesCut(fr, f, next, n);
    } else if RecordAt(fr, g, at) {
      RecordInPrefix(fr, g, f, at);
    }
  }

  /** When every byte of `f` is live, the run of a longer file is the old run, then what follows `f`. */
  lemma {:induction false} LiveOfExtension(fr: Framing, f: bytes, at: nat, g: bytes)
    requires at <= |f| == LiveEnd(fr, f, at) && f <= g
    ensures Live(fr, g, at) == Live(fr, f, at) + Live(fr, g, |f|)
    ensures LiveEnd(fr, g, at) == LiveEnd(fr, g, |f|)
    decreases |f| - at
  {
    hide RecordAt, PayloadAt;
    if RecordAt(fr, f, at) {
      RecordInPrefix(fr, f, g, at);
      LiveOfExtension(fr, f, NextAt(fr, f, at), g);
    }
  }

  /** Appending one framed record to a fully live segment appends that record to the replay. */
  lemma AppendedRecordIsLive(fr: Framing, f: bytes, at: nat, p: Payload)
    requires Sound(fr) && at <= |f| == LiveEnd(fr, f, at) && Storable(p)
    ensures Live(fr, f + Encode(fr, p), at) == Live(fr, f, at) + [p]
    ensures LiveEnd(fr, f + Encode(fr, p), at) == |f| + |Encode(fr, p)|
  {
    hide PayloadAt, Encode, Sound;
    var e := Encode(fr, p);
    var g := f + e;
    LiveOfExtension(fr, f, at, g);
    assert EncodedAt(g, |f|, e);
    FramingIsRecord(fr, g, |f|, p);
    assert !RecordAt(fr, g, |g|);
  }

  /** A torn append, cut anywhere before its last byte, leaves the replay as it was. */
  lemma TornRecordIsDead(fr: Framing, f: bytes, at: nat, p: Payload, torn: bytes)
    requires Sound(fr) && at <= |f| == LiveEnd(fr, f, at) && Storable(p) && torn < Encode(fr, p)
    ensures Live(fr, f + torn, at) == Live(fr, f, at) && LiveEnd(fr, f + torn, at) == |f|
  {
    var g := f + torn;
    LiveOfExtension(fr, f, at, g);
    assert !RecordAt(fr, g, |f|) by {
      hide Live, LiveEnd;
      if |torn| >= HEADER_BYTES {
        assert g[|f|..|f| + HEADER_BYTES] == Encode(fr, p)[..HEADER_BYTES] == fr.header(p);
      }
    }
  }

  /** The run found by the scan is framing, byte for byte, up to its end... */
  lemma {:induction false} LiveIsFramed(fr: Framing, f: bytes, at: nat)
    requires at <= |f|
    ensures f[at..LiveEnd(fr, f, at)] == EncodeAll(fr, Live(fr, f, at))
    decreases |f| - at
  {
    if RecordAt(fr, f, at) {
      var next := NextAt(fr, f, at);
      RecordIsFraming(fr, f, at);
      LiveIsFramed(fr, f, next);
      assert f[at..LiveEnd(fr, f, at)] == f[at..next] + f[next..LiveEnd(fr, f, at)];
      assert Live(fr, f, at)[1..] == Live(fr, f, next);
    }
  }

  lemma LiveStep(fr: Framing, f: bytes, at: nat)
    requires RecordAt(fr, f, at)
    ensures Live(fr, f, at) == [PayloadAt(fr, f, at)] + Live(fr, f, NextAt(fr, f, at))
  {
  }

  lemma EncodeAllStep(fr: Framing, ps: seq<Payload>)
    ensures EncodeAll(fr, ps) == if ps == [] then [] else Encode(fr, ps[0]) + EncodeAll(fr, ps[1..])
  {
  }

  /** ...and it is the longest one: any run of framed records at `at` is replayed first, in order. */
  lemma {:induction false} LiveIsLongest(fr: Framing, f: bytes, at: nat, ps: seq<Payload>)
    requires Sound(fr) && AllStorable(ps) && EncodedAt(f, at, EncodeAll(fr, ps))
    ensures Live(fr, f, at) == ps + Live(fr, f, at + |EncodeAll(fr, ps)|)
    decreases |ps|
  {
    EncodeAllStep(fr, ps);
    hide *;
    if ps == [] {
    } else {
      var e, rest := Encode(fr, ps[0]), EncodeAll(fr, ps[1..]);
      AllStorableParts(ps);
      EncodedParts(f, at, e, rest);
      FramingIsRecord(fr, f, at, ps[0]);
      LiveStep(fr, f, at);
      LiveIsLongest(fr, f, at + |e|, ps[1..]);
      assert ps == [ps[0]] + ps[1..];
    }
  }

  /** A head that points past the start of a fully live, non-empty segment cannot replay all of it. */
  lemma StaleHeadLosesRecords(fr: Framing, f: bytes, head: nat)
    requires LiveEnd(fr, f, 0) == |f| && Live(fr, f, 0) != [] && head <= |f|
    ensures Live(fr, f, head) == Live(fr, f, 0) <==> head == 0
  {
    if Live(fr, f, head) == Live(fr, f, 0) {
      LiveIsFramed(fr, f, 0);
      LiveIsFramed(fr, f, head);
      assert f[0..|f|] == f;
    }
  }

  /**
   Whole records followed by part of another replay as exactly those records, and the scan ends
   where the part begins.
   */
  lemma TornTailIsCutOff(fr: Framing, ps: seq<Payload>, p: Payload, torn: bytes)
    requires Sound(fr) && AllStorable(ps) && Storable(p) && torn < Encode(fr, p)
    ensures Live(fr, EncodeAll(fr, ps) + torn, 0) == ps &&
            LiveEnd(fr, EncodeAll(fr, ps) + torn, 0) == |EncodeAll(fr, ps)|
  {
    hide Sound, Encode, EncodeAll, RecordAt;
    var f := EncodeAll(fr, ps);
    assert f[0..|f|] == f;
    LiveIsLongest(fr, f, 0, ps);
    NothingBehind(fr, f);
    LiveIsFramed(fr, f, 0);
    assert ps + [] == ps;
    TornRecordIsDead(fr, f, 0, p, torn);
  }

  lemma NothingBehind(fr: Framing, f: bytes)
    ensures Live(fr, f, |f|) == []
  {
  }
}
