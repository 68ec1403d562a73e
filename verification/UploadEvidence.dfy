/**
 Upload evidence: what the logger knows of its last snapshot attempt, the frame it
 sends to the dash, and what the dash may show for it. Clocks are 32-bit millisecond
 counters that wrap; times here are true times, of which a counter shows the rest.
 */
module UploadEvidence {
  import opened Bytes
  import opened QueueDisk

  const NEVER: uint32 := 0xFFFF_FFFF
  const STALE_MS := 5000

  datatype Evidence = Unknown | Disabled | Failed | ServerAccepted | TransportSent
  datatype Transport = NoTransport | Https | Mqtt

  datatype Status = Status(state: Evidence, transport: Transport, ageMs: uint32, intervalMs: uint32)

  /** A clock's reading at a true time, and the time it measures between two readings. */
  function Clock(time: nat): uint32
  {
    time % WORD
  }

  function Elapsed(now: uint32, since: uint32): uint32
  {
    (now - since) % WORD
  }

  /** A measured time is the true one, less whole turns of the counter. */
  lemma ElapsedIsTrue(since: nat, now: nat)
    requires since <= now
    ensures Elapsed(Clock(now), Clock(since)) == (now - since) % WORD
    ensures now - since < WORD ==> Elapsed(Clock(now), Clock(since)) == now - since
  {
    var q, p := now / WORD, since / WORD;
    assert now == WORD * q + Clock(now) && since == WORD * p + Clock(since);
    var d := Clock(now) - Clock(since);
    assert now - since == WORD * (q - p) + d;
    if d >= 0 {
      Quotient(now - since, WORD, q - p, d);
      Quotient(d, WORD, 0, d);
    } else {
      Quotient(now - since, WORD, q - p - 1, d + WORD);
      Quotient(d, WORD, -1, d + WORD);
    }
  }

  datatype Attempt = Attempt(success: bool, at: nat)

  /** The time of the last success among the attempts. */
  ghost function LastSuccess(attempts: seq<Attempt>): Option<nat>
  {
    if attempts == [] then None
    else if attempts[|attempts| - 1].success then Some(attempts[|attempts| - 1].at)
    else LastSuccess(attempts[..|attempts| - 1])
  }

  class Tracker {
    var attempted: bool
    var failed: bool
    var succeeded: bool
    var successMs: uint32
    /** Every snapshot attempt so far, at its true time. */
    ghost var attempts: seq<Attempt>

    ghost predicate Valid()
      reads this
    {
      && attempted == (attempts != [])
      && failed == (attempts != [] && !attempts[|attempts| - 1].success)
      && succeeded == LastSuccess(attempts).Some?
      && (succeeded ==> successMs == Clock(LastSuccess(attempts).value))
    }

    constructor ()
      ensures Valid() && attempts == []
    {
      attempted, failed, succeeded, successMs, attempts := false, false, false, 0, [];
    }

    method Record(success: bool, at: nat)
      requires Valid()
      modifies this
      ensures Valid() && attempts == old(attempts) + [Attempt(success, at)]
    {
      attempted, failed := true, !success;
      if success {
        succeeded, successMs := true, Clock(at);
      }
      attempts := attempts + [Attempt(success, at)];
      assert attempts[..|attempts| - 1] == old(attempts);
    }

    /** What is reported: an acceptance only if the last attempt succeeded, with the age of that success. */
    method Report(enabled: bool, available: bool, https: bool, now: nat, interval: uint32) returns (s: Status)
      requires Valid()
      ensures s.transport == (if https then Https else Mqtt) && s.intervalMs == interval
      ensures s.state.ServerAccepted? || s.state.TransportSent? <==>
        enabled && available && attempts != [] && attempts[|attempts| - 1].success
      ensures s.state.ServerAccepted? ==> https
      ensures s.state.TransportSent? ==> !https
      ensures s.state.Disabled? <==> !enabled
      ensures s.state.Unknown? <==> enabled && available && attempts == []
      ensures s.ageMs == if LastSuccess(attempts).Some? then Elapsed(Clock(now), Clock(LastSuccess(attempts).value))
        else NEVER
      ensures Reported(s)
      ensures interval != 0 ==> (Decode(Encode(s)) != Some(s) <==>
        && enabled && available && attempts != [] && attempts[|attempts| - 1].success
        && Elapsed(Clock(now), Clock(attempts[|attempts| - 1].at)) == NEVER)
    {
      s := Status(
        if !enabled then Disabled else if !available || failed then Failed else if !attempted then Unknown
        else if https then ServerAccepted else TransportSent,
        if https then Https else Mqtt, if succeeded then Elapsed(Clock(now), successMs) else NEVER, interval);
      if interval != 0 { ReportsDecode(s); }
      hide Encode, Decode, Clock, Elapsed;
    }
  }

  /** Transport and state of a report fit together. */
  predicate Reported(s: Status)
  {
    && !s.transport.NoTransport? && (s.state.ServerAccepted? ==> s.transport.Https?)
    && (s.state.TransportSent? ==> s.transport.Mqtt?)
  }

  function StateByte(e: Evidence): byte
  {
    match e case Unknown => 0 case Disabled => 1 case Failed => 2 case ServerAccepted => 3 case TransportSent => 4
  }

  function ByteState(b: byte): Evidence
  {
    if b == 0 then Unknown else if b == 1 then Disabled else if b == 2 then Failed else if b == 3 then ServerAccepted
      else TransportSent
  }

  function TransportByte(t: Transport): byte
  {
    match t case NoTransport => 0 case Https => 1 case Mqtt => 2
  }

  function ByteTransport(b: byte): Transport
  {
    if b == 0 then NoTransport else if b == 1 then Https else Mqtt
  }

  function Encode(s: Status): (f: bytes)
    ensures |f| == 20
  {
    [1, StateByte(s.state), TransportByte(s.transport), 0] + Le32(s.ageMs) + Le32(s.intervalMs)
      + [0, 0, 0, 0, 0, 0, 0, 0]
  }

  function Decode(f: bytes): (s: Option<Status>)
    requires |f| == 20
  {
    if f[0] != 1 || f[1] > 4 || f[2] > 2 || f[3] != 0 || (exists i :: 12 <= i < 20 && f[i] != 0) then None
    else
      var s := Status(ByteState(f[1]), ByteTransport(f[2]), Get32(f, 4), Get32(f, 8));
      if s.intervalMs == 0 then None
      else if s.state.ServerAccepted? && !s.transport.Https? then None
      else if s.state.TransportSent? && !s.transport.Mqtt? then None
      else if (s.state.ServerAccepted? || s.state.TransportSent?) && s.ageMs == NEVER then None
      else Some(s)
  }

  /** The frame carries both words and says nothing else. */
  lemma FrameWords(s: Status)
    ensures var f := Encode(s);
      && Get32(f, 4) == s.ageMs && Get32(f, 8) == s.intervalMs
      && f[0] == 1 && f[1] == StateByte(s.state) && f[2] == TransportByte(s.transport) && f[3] == 0
      && (forall i | 12 <= i < 20 :: f[i] == 0)
  {
    hide Le32, Get32;
    var f := Encode(s);
    var head, w1, w2, tail := [1, StateByte(s.state), TransportByte(s.transport), 0], Le32(s.ageMs), Le32(s.intervalMs),
      [0, 0, 0, 0, 0, 0, 0, 0];
    assert f == head + w1 + (w2 + tail);
    assert f == (head + w1) + w2 + tail;
    WordAt(f, head, s.ageMs, w2 + tail);
    WordAt(f, head + w1, s.intervalMs, tail);
    assert f[12..] == tail;
    assert forall i | 12 <= i < 20 :: f[i] == tail[i - 12];
  }

  /**
   A report arrives as it was sent, with one exception: an acceptance whose age happens to
   read as "never" is refused. That takes a success 2^32 - 1 milliseconds, near fifty days, old.
   */
  lemma ReportsDecode(s: Status)
    requires Reported(s) && s.intervalMs != 0
    ensures Decode(Encode(s)) == Some(s) <==> !((s.state.ServerAccepted? || s.state.TransportSent?) && s.ageMs == NEVER)
    ensures Decode(Encode(s)).None? || Decode(Encode(s)) == Some(s)
  {
    FrameWords(s);
    hide Encode, Get32;
  }

  /** Nothing decodes but a frame that encodes the result: no byte of it is ignored. */
  lemma DecodedIsCanonical(f: bytes)
    requires |f| == 20 && Decode(f).Some?
    ensures f == Encode(Decode(f).value)
  {
    hide Le32, Get32;
    Le32Get32(f, 4);
    Le32Get32(f, 8);
    assert f[..4] == [1, f[1], f[2], 0] && f[12..] == [0, 0, 0, 0, 0, 0, 0, 0];
    assert f == f[..4] + f[4..8] + f[8..12] + f[12..];
  }

  /** The exception does occur: a success at time 0, reported when it is 2^32 - 1 milliseconds old. */
  method NeverAgeIsRefused(interval: uint32) returns (tracker: Tracker, s: Status)
    requires interval != 0
    ensures fresh(tracker) && tracker.Valid() && tracker.attempts == [Attempt(true, 0)]
    ensures s == Status(ServerAccepted, Https, Elapsed(Clock(NEVER), Clock(0)), interval) && Decode(Encode(s)).None?
  {
    tracker := new Tracker();
    tracker.Record(true, 0);
    assert tracker.attempts[|tracker.attempts| - 1] == Attempt(true, 0);
    s := tracker.Report(true, true, true, NEVER, interval);
    ElapsedIsTrue(0, NEVER);
    ReportsDecode(s);
    hide Encode, Decode;
  }

  /** How old a success may be before it counts as stale: three intervals, at least five seconds. */
  function Window(interval: uint32): (w: uint32)
    ensures w == if interval * 3 < 5000 then 5000 else if interval * 3 >= NEVER then NEVER - 1 else interval * 3
  {
    var v := interval * 3;
    if v < 5000 then 5000 else if v >= NEVER then NEVER - 1 else v
  }

  datatype View = ShowUnknown | ShowDisabled | ShowFailed | ShowAccepted | ShowUnconfirmed | ShowStale

  class Model {
    var status: Status
    var receivedMs: uint32
    var received: bool
    /** The last frame taken in and the true time of its receipt. */
    ghost var frame: bytes
    ghost var receivedAt: nat

    ghost predicate Valid()
      reads this
    {
      received ==> |frame| == 20 && Decode(frame) == Some(status) && receivedMs == Clock(receivedAt)
    }

    constructor ()
      ensures Valid() && !received
    {
      status, receivedMs, received := Status(Unknown, NoTransport, NEVER, 1000), 0, false;
      frame, receivedAt := [], 0;
    }

    /** A frame that does not decode changes nothing. */
    method Accept(f: bytes, now: nat) returns (ok: bool)
      requires Valid() && |f| == 20
      modifies this
      ensures Valid() && ok == Decode(f).Some?
      ensures if ok then received && frame == f && receivedAt == now
        else received == old(received) && frame == old(frame) && receivedAt == old(receivedAt) && status == old(status)
    {
      var next := Decode(f);
      ok := next.Some?;
      if ok {
        status, receivedMs, received := next.value, Clock(now), true;
        frame, receivedAt := f, now;
      }
    }

    function Age(now: uint32): uint32
      reads this
    {
      if !received || status.ageMs == NEVER then NEVER
      else
        var v := status.ageMs + Elapsed(now, receivedMs);
        if v >= NEVER then NEVER - 1 else v
    }

    /** The last report came a moment ago. */
    ghost predicate Timely(now: nat)
      reads this
    {
      received && Elapsed(Clock(now), Clock(receivedAt)) < STALE_MS
    }

    /** The success it speaks of is still within the window, as the two clocks read. */
    ghost predicate Within(now: nat)
      reads this
    {
      status.ageMs + Elapsed(Clock(now), Clock(receivedAt)) < Window(status.intervalMs)
    }

    /** An acceptance received a moment ago whose success is still within the window. */
    ghost predicate Current(now: nat)
      reads this
    {
      Timely(now) && status.state.ServerAccepted? && Within(now)
    }

    method Show(connected: bool, now: nat) returns (v: View)
      requires Valid()
      ensures v == ShowAccepted <==> connected && Current(now)
      ensures v == ShowUnconfirmed <==> connected && Timely(now) && status.state.TransportSent? && Within(now)
      ensures v == ShowDisabled <==> connected && Timely(now) && status.state.Disabled?
      ensures v == ShowFailed <==> connected && Timely(now) && status.state.Failed?
      ensures v == ShowUnknown <==> !connected || !received || (Timely(now) && status.state.Unknown?)
    {
      if !connected || !received {
        return ShowUnknown;
      }
      if Elapsed(Clock(now), receivedMs) >= STALE_MS {
        return ShowStale;
      }
      if status.state.Disabled? {
        return ShowDisabled;
      }
      if status.state.Failed? {
        return ShowFailed;
      }
      if status.state.Unknown? {
        return ShowUnknown;
      }
      if Age(Clock(now)) >= Window(status.intervalMs) {
        return ShowStale;
      }
      v := if status.state.ServerAccepted? then ShowAccepted else ShowUnconfirmed;
    }
  }

  /** A report sent: how it was made, when, and from which attempts. */
  datatype Sent = Sent(status: Status, enabled: bool, available: bool, https: bool, interval: uint32, at: nat,
      attempts: seq<Attempt>)

  /** The last attempt before the report was a success, reported over HTTPS as an acceptance. */
  predicate Vouched(s: Sent)
  {
    s.enabled && s.available && s.https && s.attempts != [] && s.attempts[|s.attempts| - 1].success
  }

  /** When the last attempt before the report ended. */
  function SuccessAt(s: Sent): nat
    requires Vouched(s)
  {
    s.attempts[|s.attempts| - 1].at
  }

  /** In readings of the two clocks: received less than five seconds ago, and the success younger than the window. */
  predicate YoungEnough(s: Sent, receivedAt: nat, now: nat)
    requires Vouched(s) && receivedAt <= now
  {
    && (now - receivedAt) % WORD < STALE_MS
    && (s.at - SuccessAt(s)) % WORD + (now - receivedAt) % WORD < Window(s.interval)
  }

  /** The report says what the attempts before it were. */
  ghost predicate Made(s: Sent)
  {
    && Reported(s.status) && s.status.intervalMs == s.interval
    && (s.status.state.ServerAccepted? <==> Vouched(s))
    && (Vouched(s) ==> SuccessAt(s) <= s.at && s.status.ageMs == Elapsed(Clock(s.at), Clock(SuccessAt(s))))
  }

  /** The logger and the dash, and reports under way between them, lost, late or repeated. */
  class Display {
    const tracker: Tracker
    const model: Model
    /** Every report made, and the one the dash took in last. */
    ghost var sent: seq<Sent>
    ghost var taken: Option<Sent>

    ghost predicate Valid()
      reads this, tracker, model
    {
      && tracker.Valid() && model.Valid()
      && (forall s | s in sent :: Made(s) && s.attempts <= tracker.attempts)
      && (model.received <==> taken.Some?)
      && (taken.Some? ==> taken.value in sent && model.status == taken.value.status)
    }

    constructor ()
      ensures Valid() && sent == [] && taken == None && fresh(tracker) && fresh(model)
    {
      tracker := new Tracker();
      model := new Model();
      sent, taken := [], None;
    }

    /** The logger's snapshot attempt ended. */
    method Attempted(success: bool, at: nat)
      requires Valid()
      modifies tracker
      ensures Valid() && tracker.attempts == old(tracker.attempts) + [Attempt(success, at)]
    {
      tracker.Record(success, at);
    }

    /** The logger makes a report of what it knows now. */
    method Send(enabled: bool, available: bool, https: bool, at: nat, interval: uint32)
      requires Valid() && forall i | 0 <= i < |tracker.attempts| :: tracker.attempts[i].at <= at
      modifies this`sent
      ensures Valid() && |sent| == |old(sent)| + 1 && sent[..|old(sent)|] == old(sent)
      ensures var s := sent[|old(sent)|];
        s == Sent(s.status, enabled, available, https, interval, at, tracker.attempts)
    {
      var status := tracker.Report(enabled, available, https, at, interval);
      sent := sent + [Sent(status, enabled, available, https, interval, at, tracker.attempts)];
    }

    /** The frame of any report made so far reaches the dash, which may refuse it. */
    method Receive(f: bytes, ghost i: nat, now: nat) returns (ok: bool)
      requires Valid() && i < |sent| && f == Encode(sent[i].status)
      modifies model, this`taken
      ensures Valid() && sent == old(sent)
      ensures if ok then taken == Some(sent[i]) && model.receivedAt == now
        else taken == old(taken) && model.receivedAt == old(model.receivedAt)
      ensures ok <==>
        sent[i].interval != 0 && !((sent[i].status.state.ServerAccepted? || sent[i].status.state.TransportSent?)
                                                 && sent[i].status.ageMs == NEVER)
    {
      hide Elapsed, Clock, Encode, Window, LastSuccess;
      ghost var s := sent[i].status;
      assert Made(sent[i]);
      FrameWords(s);
      if s.intervalMs != 0 { ReportsDecode(s); }
      ok := model.Accept(f, now);
      if ok { taken := Some(sent[i]); }
    }

    /**
     At any time, after any attempts, reports, losses and refusals: the dash shows Accepted
     exactly if the report it took in last followed a successful attempt, reached it less than
     five seconds ago, and that success is younger than the window - in readings of the two
     clocks, and in true time while neither has gone once around.
     */
    method Show(connected: bool, now: nat) returns (accepted: bool)
      requires Valid() && (model.received ==> model.receivedAt <= now)
      ensures accepted <==>
        (connected && taken.Some? && Vouched(taken.value) && YoungEnough(taken.value, model.receivedAt, now))
      ensures accepted ==> taken.value in sent && taken.value.attempts <= tracker.attempts
      ensures accepted && now - model.receivedAt < WORD && taken.value.at - SuccessAt(taken.value) < WORD ==>
        && now - model.receivedAt < STALE_MS
        && taken.value.at - SuccessAt(taken.value) + (now - model.receivedAt) < Window(taken.value.interval)
    {
      if taken.Some? {
        ghost var s := taken.value;
        assert Made(s);
        if Vouched(s) { ElapsedIsTrue(SuccessAt(s), s.at); }
        ElapsedIsTrue(model.receivedAt, now);
      }
      hide Elapsed, Clock, Encode, Window, LastSuccess;
      var v := model.Show(connected, now);
      accepted := v == ShowAccepted;
    }
  }
}
