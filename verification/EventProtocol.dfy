/**
 The forwarding protocol as a state machine over values: the dash's queue, the
 notifications and acknowledgements under way, what the receiver holds, what waits for
 the card, and what is on it.
 */
module EventProtocol {
  import opened Bytes
  import opened SystemEvents
  import opened SystemLog

  /** Nothing sent for an event is newer than the queue's front, and an event still unlogged is the front. */
  ghost predicate Traceable(sources: seq<Event>, top: uint32, pending: seq<Event>, boot: uint32)
  {
    && (forall i, j | 0 <= i < j < |sources| :: sources[i].seqno <= sources[j].seqno)
    && (forall e | e in sources :: e.boot == boot && e.version == 1 &&
         (e.seqno <= top || (pending != [] && e == pending[0])))
  }

  /** What the receiver holds are the first parts of these events. */
  ghost predicate HeldParts(parts: seq<bytes>, sources: seq<Event>, sequence: byte)
  {
    && |sources| == |parts|
    && (forall i: nat | i < |parts| && i < 4 :: parts[i] == Part(sources[i], i))
    && (parts != [] ==> sources[0].seqno % 256 == sequence)
  }

  /**
   An event put together from traceable parts is either numbered no higher than the log
   already is, or it is the dash's oldest event, byte for byte.
   */
  lemma SpliceIsLogged(sources: seq<Event>, top: uint32, pending: seq<Event>, boot: uint32, e: Event)
    requires |sources| == 4 && Traceable(sources, top, pending, boot)
    requires |Part(sources[0], 0) + Part(sources[1], 1) + Part(sources[2], 2) + Part(sources[3], 3)| == LAYOUT_BYTES
    requires e == Parse(Part(sources[0], 0) + Part(sources[1], 1) + Part(sources[2], 2) + Part(sources[3], 3))
    ensures e.boot == boot && e.version == 1 && e.seqno == sources[0].seqno
    ensures e.seqno <= top || (pending != [] && e == pending[0])
  {
    hide Parse, Layout, Part;
    var b := Part(sources[0], 0) + Part(sources[1], 1) + Part(sources[2], 2) + Part(sources[3], 3);
    FirstPartLength(sources[0]);
    assert b[..PART_BYTES] == Part(sources[0], 0);
    IdentityInFirstPart(sources[0], b);
    if sources[0].seqno > top {
      assert sources[1] == sources[2] == sources[3] == sources[0] == pending[0];
      PartsRebuild(sources[0]);
    }
  }

  lemma FirstPartLength(e: Event)
    ensures |Part(e, 0)| == PART_BYTES
  {
  }

  lemma TraceableSend(sources: seq<Event>, top: uint32, pending: seq<Event>, boot: uint32)
    requires Traceable(sources, top, pending, boot) && pending != [] && pending[0].seqno >= top
    requires pending[0].boot == boot && pending[0].version == 1
    ensures Traceable(sources + [pending[0]], top, pending, boot)
  {
  }

  /**
   What is known of the sources survives dropping some, logging the front, popping it once logged,
   and new events behind it.
   */
  lemma TraceableLater(sources: seq<Event>, top: uint32, pending: seq<Event>, boot: uint32, n: seq<Event>,
      newTop: uint32, newPending: seq<Event>)
    requires Traceable(sources, top, pending, boot) && top <= newTop
    requires forall i, j | 0 <= i < j < |n| :: n[i].seqno <= n[j].seqno
    requires forall e | e in n :: e in sources
    requires pending != [] && pending[0].seqno > newTop ==> newPending != [] && newPending[0] == pending[0]
    ensures Traceable(n, newTop, newPending, boot)
  {
  }

  lemma TraceableNow(sources: seq<Event>, top: uint32, pending: seq<Event>, boot: uint32, newPending: seq<Event>)
    requires Traceable(sources, top, pending, boot) &&
             (pending != [] ==> newPending != [] && newPending[0] == pending[0])
    ensures Traceable(sources, top, newPending, boot)
  {
  }

  /** Where the log stands: never ahead of the dash's oldest event, and level with it only once that event is logged. */
  ghost predicate Ahead(pending: seq<Event>, logged: seq<Event>, lastSeq: uint32)
  {
    && LastSeq(logged) <= lastSeq
    && (pending != [] ==> pending[0].seqno >= LastSeq(logged))
    && (pending != [] && pending[0].seqno == LastSeq(logged) ==> logged != [] && pending[0] == logged[|logged| - 1])
  }

  ghost predicate Sent(channel: seq<bytes>, origins: seq<Event>)
  {
    && |origins| == |channel|
    && (forall i: nat | i < |channel| :: FrameOf(channel[i], origins[i]))
  }

  ghost predicate FrameOf(frame: bytes, e: Event)
  {
    exists p: nat :: p < 4 && frame == Frame(e, p)
  }

  /**
   `queued` and `delivered` record every event the dash ever queued and those it dropped as
   acknowledged; `origins` and `sources` the events behind the notifications under way and
   behind the parts the receiver holds.
   */
  datatype State = State(
    boot: uint32, lastSeq: uint32, pending: seq<Event>, queued: set<Event>, delivered: set<Event>,
    channel: seq<bytes>, origins: seq<Event>, parts: seq<bytes>, sequence: byte, sources: seq<Event>,
    ready: bool, received: Event, held: seq<Event>, logged: seq<Event>, acks: seq<(uint32, uint32)>)

  /**
   The promise: every dash line on the card is an event the dash queued, each at most once and
   in order; an event once queued stays in the queue until it is dropped, and nothing is dropped
   before it is on the card.
   */
  ghost predicate Faithful(v: State)
  {
    && Increasing(v.logged)
    && (forall e | e in v.logged :: e in v.queued)
    && (forall e | e in v.pending :: e in v.queued)
    && (forall e | e in v.queued :: e in v.pending || e in v.delivered)
    && (forall e | e in v.delivered :: e in v.logged)
  }

  /** An assembled event repeats a number already logged, or is the dash's oldest event itself. */
  ghost predicate Genuine(v: State, e: Event)
  {
    e.boot == v.boot && e.version == 1 && (e.seqno <= LastSeq(v.logged) || (v.pending != [] && e == v.pending[0]))
  }

  ghost predicate Numbered(v: State)
  {
    && Increasing(v.pending)
    && (forall e | e in v.pending :: e.boot == v.boot && e.version == 1 && e.code[31] == 0 && 0 < e.seqno <= v.lastSeq)
  }

  ghost predicate Acknowledging(v: State)
  {
    forall a | a in v.acks :: a.0 == v.boot && 0 < a.1 <= LastSeq(v.logged)
  }

  /** Everything that holds between any two steps of either end and of the link. */
  ghost predicate Good(v: State)
  {
    && Numbered(v) && Faithful(v) && Acknowledging(v)
    && Ahead(v.pending, v.logged, v.lastSeq)
    && Sent(v.channel, v.origins)
    && Traceable(v.sources + v.origins, LastSeq(v.logged), v.pending, v.boot)
    && HeldParts(v.parts, v.sources, v.sequence)
    && (v.ready ==> Genuine(v, v.received))
    && (v.held != [] ==> v.pending != [] && v.held == [v.pending[0]] && v.pending[0].seqno > LastSeq(v.logged))
  }

  lemma StartIsGood(boot: uint32, sequence: byte, e: Event)
    ensures Good(State(boot, 0, [], {}, {}, [], [], [], sequence, [], false, e, [], [], []))
  {
  }

  /** The dash records an event: a new number in any case, and an event in the queue if there is room. */
  lemma RecordedIsGood(v: State, e: Event, room: bool)
    requires Good(v) && v.lastSeq < WORD - 1 && e.boot == v.boot && e.version == 1 && e.code[31] == 0 &&
             e.seqno == v.lastSeq + 1
    ensures Good(if room then v.(lastSeq := v.lastSeq + 1, pending := v.pending + [e], queued := v.queued + {e})
      else v.(lastSeq := v.lastSeq + 1))
  {
    hide Sent, HeldParts, Traceable, Increasing, Faithful;
    if room {
      TraceableNow(v.sources + v.origins, LastSeq(v.logged), v.pending, v.boot, v.pending + [e]);
      OneMorePending(v, e);
    }
    MoreNumbers(v);
  }

  lemma OneMorePending(v: State, e: Event)
    requires Faithful(v) && Numbered(v) && v.lastSeq < WORD - 1 && e.boot == v.boot && e.version == 1 &&
             e.code[31] == 0 && e.seqno == v.lastSeq + 1
    ensures var n := v.(lastSeq := v.lastSeq + 1, pending := v.pending + [e], queued := v.queued + {e});
      Faithful(n) && Numbered(n)
  {
  }

  lemma MoreNumbers(v: State)
    requires Faithful(v) && Numbered(v) && v.lastSeq < WORD - 1
    ensures Faithful(v.(lastSeq := v.lastSeq + 1)) && Numbered(v.(lastSeq := v.lastSeq + 1))
  {
  }

  lemma NotifiedIsGood(v: State, frame: bytes)
    requires Good(v) && v.pending != [] && FrameOf(frame, v.pending[0])
    ensures Good(v.(channel := v.channel + [frame], origins := v.origins + [v.pending[0]]))
  {
    hide HeldParts, FrameOf, Traceable, Increasing;
    TraceableSend(v.sources + v.origins, LastSeq(v.logged), v.pending, v.boot);
    assert v.sources + v.origins + [v.pending[0]] == v.sources + (v.origins + [v.pending[0]]);
  }

  lemma WithoutMiddle(a: seq<Event>, x: Event, b: seq<Event>, top: uint32, pending: seq<Event>, boot: uint32)
    requires Traceable(a + [x] + b, top, pending, boot)
    ensures Traceable(a + b, top, pending, boot)
  {
    var all, n := a + [x] + b, a + b;
    forall i, j | 0 <= i < j < |n| ensures n[i].seqno <= n[j].seqno {
      assert n[i] == all[if i < |a| then i else i + 1] && n[j] == all[if j < |a| then j else j + 1];
    }
  }

  lemma WithoutPrefix(a: seq<Event>, b: seq<Event>, top: uint32, pending: seq<Event>, boot: uint32)
    requires Traceable(a + b, top, pending, boot)
    ensures Traceable(b, top, pending, boot)
  {
    var all := a + b;
    forall i, j | 0 <= i < j < |b| ensures b[i].seqno <= b[j].seqno {
      assert b[i] == all[|a| + i] && b[j] == all[|a| + j];
    }
  }

  lemma LostIsGood(v: State)
    requires Good(v) && v.channel != []
    ensures Good(v.(channel := v.channel[1..], origins := v.origins[1..]))
  {
    hide HeldParts, FrameOf, Traceable, Increasing;
    assert v.sources + [v.origins[0]] + v.origins[1..] == v.sources + v.origins;
    WithoutMiddle(v.sources, v.origins[0], v.origins[1..], LastSeq(v.logged), v.pending, v.boot);
  }

  /** The receiver's possible states after the notification at the head of the channel: emptied, or extended by it. */
  lemma ArrivedIsGood(v: State, parts: seq<bytes>, sequence: byte, sources: seq<Event>)
    requires Good(v) && v.channel != [] && HeldParts(parts, sources, sequence)
    requires sources == [] || sources == [v.origins[0]] || sources == v.sources + [v.origins[0]]
    ensures Good(v.(channel := v.channel[1..], origins := v.origins[1..], parts := parts, sequence := sequence,
      sources := sources))
  {
    hide HeldParts, FrameOf, Traceable, Increasing, Ahead, Acknowledging, Faithful;
    ArrivedSources(v.sources, v.origins, sources, LastSeq(v.logged), v.pending, v.boot);
    var n := v.(channel := v.channel[1..], origins := v.origins[1..], parts := parts, sequence := sequence,
      sources := sources);
    SameAccount(v, n);
  }

  lemma SameAccount(v: State, n: State)
    requires v.boot == n.boot && v.pending == n.pending && v.logged == n.logged && v.lastSeq == n.lastSeq
    requires v.queued == n.queued && v.delivered == n.delivered
    ensures Faithful(n) == Faithful(v) && Numbered(n) == Numbered(v)
    ensures v.acks == n.acks ==> Acknowledging(n) == Acknowledging(v)
  {
  }

  lemma ArrivedSources(sources: seq<Event>, origins: seq<Event>, now: seq<Event>, top: uint32, pending: seq<Event>,
      boot: uint32)
    requires Traceable(sources + origins, top, pending, boot) && origins != []
    requires now == [] || now == [origins[0]] || now == sources + [origins[0]]
    ensures Traceable(now + origins[1..], top, pending, boot)
  {
    hide Traceable;
    var first, rest := [origins[0]], origins[1..];
    assert sources + origins == sources + (first + rest) == sources + first + rest;
    if now == sources + first {
    } else if now == first {
      WithoutPrefix(sources, first + rest, top, pending, boot);
    } else {
      WithoutPrefix(sources + first, rest, top, pending, boot);
      assert [] + rest == rest;
    }
  }

  /** An event put together from the parts held and the one arriving is genuine. */
  lemma AssembledIsGenuine(v: State, data: bytes, e: Event)
    requires Good(v) && v.channel != [] && data == v.channel[0] && |v.parts| == 3 && IsFrame(data) && data[1] == 3
    requires |v.parts[0] + v.parts[1] + v.parts[2] + Payload(data)| == LAYOUT_BYTES
    requires e == Parse(v.parts[0] + v.parts[1] + v.parts[2] + Payload(data))
    ensures Genuine(v, e)
  {
    hide Traceable, Increasing, Parse, Layout, Part, Payload, Frame;
    ArrivingPart(v, data);
    var four := v.sources + [v.origins[0]];
    assert v.sources + v.origins == four + v.origins[1..];
    WithoutSuffix(four, v.origins[1..], LastSeq(v.logged), v.pending, v.boot);
    SpliceIsLogged(four, LastSeq(v.logged), v.pending, v.boot, e);
  }

  /** The notification at the head of the channel carries the part it names. */
  lemma ArrivingPart(v: State, data: bytes)
    requires Good(v) && v.channel != [] && data == v.channel[0]
    ensures IsFrame(data) && Payload(data) == Part(v.origins[0], data[1]) && data[2] == v.origins[0].seqno % 256
  {
    hide Traceable, Increasing, HeldParts, Part, Payload, Frame, Numbered, Faithful, Acknowledging, Ahead;
    assert FrameOf(v.channel[0], v.origins[0]);
    var p: nat :| p < 4 && data == Frame(v.origins[0], p);
    FramePayload(v.origins[0], p);
  }

  lemma WithoutSuffix(a: seq<Event>, b: seq<Event>, top: uint32, pending: seq<Event>, boot: uint32)
    requires Traceable(a + b, top, pending, boot)
    ensures Traceable(a, top, pending, boot)
  {
    var all := a + b;
    forall i, j | 0 <= i < j < |a| ensures a[i].seqno <= a[j].seqno {
      assert a[i] == all[i] && a[j] == all[j];
    }
  }

  lemma ReceivedIsGood(v: State, e: Event)
    requires Good(v) && Genuine(v, e)
    ensures Good(v.(ready := true, received := e))
  {
    hide HeldParts, FrameOf, Traceable, Increasing;
  }

  /** Taking the received event to the log: perhaps held, and acknowledged only if its number is logged. */
  lemma PolledIsGood(v: State, e: Event, held: seq<Event>, acknowledge: bool)
    requires Good(v) && v.ready && e == v.received.(code := v.received.code[..31] + [0])
    requires held == v.held || (v.held == [] && held == [e] && e.seqno > LastSeq(v.logged))
    requires acknowledge ==> 0 < e.seqno <= LastSeq(v.logged)
    ensures Good(v.(ready := false, held := held, acks := if acknowledge then v.acks + [(e.boot, e.seqno)] else v.acks))
  {
    hide HeldParts, FrameOf, Traceable, Increasing;
    if held != v.held {
      assert v.received == v.pending[0];
      var c := v.received.code;
      assert c == c[..31] + [c[31]];
    }
  }

  /** The held event is flushed. */
  lemma FlushedIsGood(v: State)
    requires Good(v) && v.held != []
    ensures Good(v.(held := [], logged := v.logged + v.held))
  {
    hide HeldParts, FrameOf;
    var e, top, n := v.pending[0], LastSeq(v.logged), v.logged + v.held;
    assert LastSeq(n) == e.seqno;
    forall i, j | 0 <= i < j < |n| ensures n[i].seqno < n[j].seqno {
      if j == |v.logged| { LastIsGreatest(v.logged, n[i]); }
    }
    TraceableLater(v.sources + v.origins, top, v.pending, v.boot, v.sources + v.origins, e.seqno, v.pending);
  }

  /** An acknowledgement arrives: the dash drops its oldest event only if that is the one, and then it is logged. */
  lemma AcknowledgedIsGood(v: State, i: nat, acks: seq<(uint32, uint32)>)
    requires Good(v) && i < |v.acks| && (forall a | a in acks :: a in v.acks)
    ensures var a := v.acks[i];
      if v.pending != [] && v.pending[0].boot == a.0 && v.pending[0].seqno == a.1
      then v.pending[0] in v.logged &&
      Good(v.(acks := acks, pending := v.pending[1..], delivered := v.delivered + {v.pending[0]}))
      else Good(v.(acks := acks))
  {
    hide HeldParts, FrameOf, Traceable, Sent, Faithful, Numbered;
    var a, top := v.acks[i], LastSeq(v.logged);
    if v.pending != [] && v.pending[0].boot == a.0 && v.pending[0].seqno == a.1 {
      StillOrdered(v.sources + v.origins, top, v.pending, v.boot);
      TraceableLater(v.sources + v.origins, top, v.pending, v.boot, v.sources + v.origins, top, v.pending[1..]);
      FrontDropped(v);
      var n := v.(pending := v.pending[1..], delivered := v.delivered + {v.pending[0]});
      SameAccount(n, n.(acks := acks));
    }
    SameAccount(v, v.(acks := acks));
  }

  lemma StillOrdered(sources: seq<Event>, top: uint32, pending: seq<Event>, boot: uint32)
    requires Traceable(sources, top, pending, boot)
    ensures forall i, j | 0 <= i < j < |sources| :: sources[i].seqno <= sources[j].seqno
  {
  }

  /** Dropping the oldest event once it is logged. */
  lemma FrontDropped(v: State)
    requires Faithful(v) && Numbered(v) && Ahead(v.pending, v.logged, v.lastSeq)
    requires v.pending != [] && v.pending[0].seqno <= LastSeq(v.logged)
    ensures var n := v.(pending := v.pending[1..], delivered := v.delivered + {v.pending[0]});
      v.pending[0] in v.logged && Faithful(n) && Numbered(n) && Ahead(n.pending, n.logged, n.lastSeq)
  {
    assert forall e | e in v.pending[1..] :: e in v.pending;
  }

  /** The link is set up again. */
  lemma ReconnectedIsGood(v: State, sequence: byte)
    requires Good(v)
    ensures Good(v.(channel := [], origins := [], parts := [], sequence := sequence, sources := [], ready := false,
      acks := []))
  {
  }

  /** A restarted logger has lost the event it held. */
  lemma HeldLost(v: State)
    requires Good(v)
    ensures Good(v.(held := []))
  {
    hide HeldParts, FrameOf, Traceable, Sent, Increasing;
  }

  /** Arrival and, if the event is complete, its hand-over, in one step. */
  lemma DeliveredIsGood(v: State, parts: seq<bytes>, sequence: byte, sources: seq<Event>, complete: bool, e: Event)
    requires Good(v) && v.channel != [] && v.origins != [] && HeldParts(parts, sources, sequence)
    requires sources == [] || sources == [v.origins[0]] || sources == v.sources + [v.origins[0]]
    requires complete ==> Genuine(v, e)
    ensures Good(v.(channel := v.channel[1..], origins := v.origins[1..], parts := parts, sequence := sequence,
      sources := sources, ready := v.ready || complete, received := if complete then e else v.received))
  {
    hide Good, HeldParts;
    ArrivedIsGood(v, parts, sequence, sources);
    var n := v.(channel := v.channel[1..], origins := v.origins[1..], parts := parts, sequence := sequence,
      sources := sources);
    if complete {
      assert Genuine(n, e);
      ReceivedIsGood(n, e);
    }
  }
}
