/**
 The request body that carries a batch: a fixed JSON frame around the queued
 snapshots, which are JSON texts already.
 */
module UploadEnvelope {
  import opened Bytes
  import opened SegmentLog
  import opened StoreForwardQueue

  const BODY_LIMIT := 6144
  const BATCH_RECORDS := 8
  const BATCH_BUDGET := BODY_LIMIT - 256
  const BATCH_ID_LENGTH := 32

  function Ascii(s: string): (b: bytes)
    ensures |b| == |s|
  {
    seq(|s|, i requires 0 <= i < |s| => s[i] as int % 256)
  }

  /** Escape one character of a JSON string the way the firmware does. */
  function EscapeOne(c: byte): bytes
  {
    if c == 92 then [92, 92]
    else if c == 34 then [92, 34]
    else if c == 10 then [92, 110]
    else if c == 13 then [92, 114]
    else if c == 9 then [92, 116]
    else [c]
  }

  function JsonEscape(s: bytes): bytes
  {
    if s == [] then [] else JsonEscape(s[..|s| - 1]) + EscapeOne(s[|s| - 1])
  }

  /** How a reader of JSON takes these escapes. */
  function Unescape(b: bytes): bytes
  {
    if b == [] then []
    else if b[0] == 92 && |b| > 1 then
      [if b[1] == 110 then 10 else if b[1] == 114 then 13 else if b[1] == 116 then 9 else b[1]] + Unescape(b[2..])
    else [b[0]] + Unescape(b[1..])
  }

  lemma UnescapeOne(c: byte, rest: bytes)
    ensures Unescape(EscapeOne(c) + rest) == [c] + Unescape(rest)
  {
    var b := EscapeOne(c) + rest;
    if |EscapeOne(c)| == 2 { assert b[2..] == rest; } else { assert b[1..] == rest; }
  }

  /** A text comes back as it was, whatever its characters. */
  lemma {:induction false} EscapedReads(s: bytes, rest: bytes)
    ensures Unescape(JsonEscape(s) + rest) == s + Unescape(rest)
  {
    hide Unescape, EscapeOne;
    if s == [] {
      assert [] + rest == rest && [] + Unescape(rest) == Unescape(rest);
    } else {
      var front, c := s[..|s| - 1], s[|s| - 1];
      assert JsonEscape(s) + rest == JsonEscape(front) + (EscapeOne(c) + rest);
      EscapedReads(front, EscapeOne(c) + rest);
      UnescapeOne(c, rest);
      assert front + ([c] + Unescape(rest)) == s + Unescape(rest);
    }
  }

  /** Lower-case letters, digits, hyphen and underscore. */
  predicate Plain(c: byte)
  {
    97 <= c <= 122 || 48 <= c <= 57 || c == 45 || c == 95
  }

  predicate DeviceId(id: bytes)
  {
    1 <= |id| <= 63 && forall i | 0 <= i < |id| :: Plain(id[i])
  }

  /** The characters of a device id. */
  lemma DeviceIdCharacters(c: char)
    requires c as int < 256
    ensures DeviceId(Ascii([c])) <==> 'a' <= c <= 'z' || '0' <= c <= '9' || c == '-' || c == '_'
    ensures Ascii([c]) == [c as int]
  {
    assert Ascii([c])[0] == c as int;
  }

  lemma PlainStays(c: byte)
    requires Plain(c)
    ensures EscapeOne(c) == [c]
  {
  }

  lemma {:induction false} PlainNeedsNoEscaping(id: bytes)
    requires forall i | 0 <= i < |id| :: Plain(id[i])
    ensures JsonEscape(id) == id
  {
    hide Plain, EscapeOne;
    if id != [] {
      var front, last := id[..|id| - 1], id[|id| - 1];
      forall i | 0 <= i < |front| ensures Plain(front[i]) { assert front[i] == id[i]; }
      PlainNeedsNoEscaping(front);
      PlainStays(last);
    }
  }

  function Joined(records: seq<Payload>): bytes
  {
    if records == [] then [] else
      var front := records[..|records| - 1];
      (if front == [] then [] else Joined(front) + Ascii(",")) + records[|records| - 1]
  }

  function Envelope(id: bytes, batchId: bytes, records: seq<Payload>): bytes
  {
    Ascii("{\"schema_version\":1,\"device_id\":\"") + JsonEscape(id) + Ascii("\",\"batch_id\":\"") + batchId
    + Ascii("\",\"snapshots\":[") + Joined(records) + Ascii("]}")
  }

  lemma {:induction false} JoinedLength(records: seq<Payload>)
    requires records != []
    ensures |Joined(records)| + 1 == BatchBytes(records)
  {
    if |records| > 1 { JoinedLength(records[..|records| - 1]); }
  }

  /** A batch within the byte budget always fits the exchange: the size test on the finished body cannot fail. */
  lemma EnvelopeFits(id: bytes, batchId: bytes, records: seq<Payload>)
    requires records != [] && DeviceId(id) && |batchId| == BATCH_ID_LENGTH
    ensures |Envelope(id, batchId, records)| == 95 + |id| + BatchBytes(records)
    ensures BatchBytes(records) <= BATCH_BUDGET ==> |Envelope(id, batchId, records)| <= BODY_LIMIT
  {
    PlainNeedsNoEscaping(id);
    JoinedLength(records);
  }

  lemma AsciiSum(a: string, b: string)
    ensures Ascii(a + b) == Ascii(a) + Ascii(b)
  {
  }

  /** `part` stands at offset `i` of `body`. */
  predicate Stands(body: bytes, i: nat, part: bytes)
  {
    i + |part| <= |body| && body[i..i + |part|] == part
  }

  lemma StandsInside(before: bytes, body: bytes, after: bytes, i: nat, part: bytes)
    requires Stands(body, i, part)
    ensures Stands(before + body + after, |before| + i, part)
  {
    assert (before + body + after)[|before| + i..|before| + i + |part|] == body[i..i + |part|];
  }

  /** Each record stands behind the ones before it and their commas. */
  lemma {:induction false} JoinedInOrder(records: seq<Payload>, i: nat)
    requires i < |records|
    ensures Stands(Joined(records), BatchBytes(records[..i]), records[i])
    ensures i + 1 < |records| ==> Stands(Joined(records), BatchBytes(records[..i]) + |records[i]|, Ascii(","))
    ensures i + 1 == |records| ==> BatchBytes(records[..i]) + |records[i]| == |Joined(records)|
  {
    var front, last := records[..|records| - 1], records[|records| - 1];
    if front != [] { JoinedLength(front); }
    if i + 1 < |records| {
      JoinedInOrder(front, i);
      assert front[..i] == records[..i];
      StandsInside([], Joined(front), Ascii(",") + last, BatchBytes(front[..i]), front[i]);
      assert [] + Joined(front) + (Ascii(",") + last) == Joined(records);
      if i + 1 < |front| {
        StandsInside([], Joined(front), Ascii(",") + last, BatchBytes(front[..i]) + |front[i]|, Ascii(","));
      }
    } else {
      assert records[..i] == front;
    }
  }

  lemma SixParts(a: bytes, b: bytes, c: bytes, d: bytes, e: bytes, f: bytes)
    ensures var body := a + b + c + d + e + f;
      && Stands(body, |a|, b) && Stands(body, |a| + |b|, c) && Stands(body, |a| + |b| + |c|, d)
      && Stands(body, |body| - |f|, f)
  {
    var body := a + b + c + d + e + f;
    assert body[|a|..|a| + |b|] == b;
    assert body[|a| + |b|..|a| + |b| + |c|] == c;
    assert body[|a| + |b| + |c|..|a| + |b| + |c| + |d|] == d;
    assert body[|body| - |f|..] == f;
  }

  lemma EnvelopeParts(id: bytes, batchId: bytes, records: seq<Payload>)
    requires DeviceId(id)
    ensures Envelope(id, batchId, records) ==
      Ascii("{\"schema_version\":1,") + (Ascii("\"device_id\":\"") + id + Ascii("\","))
      + (Ascii("\"batch_id\":\"") + batchId + Ascii("\",")) + Ascii("\"snapshots\":[") + Joined(records) + Ascii("]}")
    ensures |Ascii("{\"schema_version\":1,")| == 20 && |Ascii("\"device_id\":\"")| == 13 && |Ascii("\",")| == 2
    ensures |Ascii("\"batch_id\":\"")| == 12 && |Ascii("\"snapshots\":[")| == 13 && |Ascii("]}")| == 2
  {
    hide Ascii, Joined, JsonEscape, DeviceId;
    assert forall i | 0 <= i < |id| :: Plain(id[i]) by {
      DeviceIdIsPlain(id);
    }
    PlainNeedsNoEscaping(id);
    AsciiSum("{\"schema_version\":1,", "\"device_id\":\"");
    AsciiSum("\",", "\"batch_id\":\"");
    AsciiSum("\",", "\"snapshots\":[");
    assert "{\"schema_version\":1," + "\"device_id\":\"" == "{\"schema_version\":1,\"device_id\":\"";
    assert "\"," + "\"batch_id\":\"" == "\",\"batch_id\":\"";
    assert "\"," + "\"snapshots\":[" == "\",\"snapshots\":[";
  }

  lemma DeviceIdIsPlain(id: bytes)
    requires DeviceId(id)
    ensures forall i | 0 <= i < |id| :: Plain(id[i])
  {
  }

  /** The body names this device and this batch, and holds the records in order, up to its last two characters. */
  lemma EnvelopeReads(id: bytes, batchId: bytes, records: seq<Payload>)
    requires records != [] && DeviceId(id) && |batchId| == BATCH_ID_LENGTH
    ensures var body, at := Envelope(id, batchId, records), 94 + |id|;
      && Stands(body, 20, Ascii("\"device_id\":\"") + id + Ascii("\","))
      && Stands(body, 35 + |id|, Ascii("\"batch_id\":\"") + batchId + Ascii("\","))
      && Stands(body, 81 + |id|, Ascii("\"snapshots\":["))
      && (forall i: nat | i < |records| :: Stands(body, at + BatchBytes(records[..i]), records[i]))
      && (forall i: nat | i + 1 < |records| ::
           Stands(body, at + BatchBytes(records[..i]) + |records[i]|, Ascii(",")))
      && at + BatchBytes(records) - 1 == |body| - 2 && Stands(body, |body| - 2, Ascii("]}"))
  {
    hide Joined, Stands, BatchBytes, Ascii, Envelope, DeviceId;
    JoinedLength(records);
    EnvelopeParts(id, batchId, records);
    var a, b, c := Ascii("{\"schema_version\":1,"), Ascii("\"device_id\":\"") + id + Ascii("\","),
      Ascii("\"batch_id\":\"") + batchId + Ascii("\",");
    var d, joined, e := Ascii("\"snapshots\":["), Joined(records), Ascii("]}");
    SixParts(a, b, c, d, joined, e);
    forall i: nat | i < |records|
      ensures Stands(Envelope(id, batchId, records), 94 + |id| + BatchBytes(records[..i]), records[i])
      ensures i + 1 < |records| ==>
        Stands(Envelope(id, batchId, records), 94 + |id| + BatchBytes(records[..i]) + |records[i]|, Ascii(","))
    {
      JoinedInOrder(records, i);
      StandsInside(a + b + c + d, joined, e, BatchBytes(records[..i]), records[i]);
      if i + 1 < |records| {
        StandsInside(a + b + c + d, joined, e, BatchBytes(records[..i]) + |records[i]|, Ascii(","));
      }
    }
  }

  method BuildEnvelope(id: bytes, batchId: bytes, records: seq<Payload>) returns (body: bytes)
    ensures body == Envelope(id, batchId, records)
  {
    body := [];
    for i := 0 to |records|
      invariant body == Joined(records[..i])
    {
      assert records[..i + 1][..i] == records[..i];
      if i != 0 {
        body := body + Ascii(",");
      }
      body := body + records[i];
    }
    assert records[..|records|] == records;
    body := Ascii("{\"schema_version\":1,\"device_id\":\"") + JsonEscape(id) + Ascii("\",\"batch_id\":\"") + batchId
      + Ascii("\",\"snapshots\":[") + body + Ascii("]}");
  }
}
