/**
 Stop-and-wait forwarding of dash events to the logger: the dash resends its oldest
 event, one notification at a time, until the logger acknowledges that number; the
 link loses notifications and acknowledgements, and the logger may restart.
 */
module EventForwarding {
  import opened Bytes
  import opened SystemEvents
  import opened SystemLog
  import opened EventProtocol

  class Dash {
    const queue: RingQueue<Event>
    const boot: uint32
    var lastSeq: uint32
    var part: nat
    var previousSeq: uint32

    ghost predicate Valid()
      reads this, queue, queue.entries
    {
      queue.Valid() && queue.entries.Length == 64 && part < 4
    }

    constructor (boot: uint32)
      ensures Valid() && this.boot == boot && lastSeq == 0 && queue.Contents() == [] && fresh(queue) &&
              fresh(queue.entries)
    {
      queue := new RingQueue<Event>(64);
      this.boot := boot;
      lastSeq, part, previousSeq := 0, 0, 0;
    }

    /** Something happened: a new number, even if the queue then has no room for the event. */
    method DashEvent(e: Event)
      requires Valid() && lastSeq < WORD - 1 && e.boot == boot && e.version == 1 && e.code[31] == 0
      modifies this`lastSeq, queue, queue.entries
      ensures Valid() && lastSeq == old(lastSeq) + 1
      ensures queue.Contents() == if |old(queue.Contents())| < 64 then old(queue.Contents()) + [e.(seqno := lastSeq)]
        else old(queue.Contents())
    {
      lastSeq := lastSeq + 1;
      var pushed := queue.Push(e.(seqno := lastSeq));
    }

    /** An acknowledgement was written to the characteristic. */
    method OnWrite(ackBoot: uint32, ackSeq: uint32)
      requires Valid()
      modifies queue`head, queue`count
      ensures Valid()
      ensures queue.Contents() == if old(queue.Contents() != [] && queue.Contents()[0].boot == ackBoot &&
        queue.Contents()[0].seqno == ackSeq)
        then old(queue.Contents())[1..] else old(queue.Contents())
    {
      var found, e := queue.Front();
      if found && e.boot == ackBoot && e.seqno == ackSeq {
        queue.Pop();
      }
    }

    /** One notification of the oldest event; a change of event starts over with its first part. */
    method Service() returns (sent: bool, frame: bytes, ghost of: Event)
      requires Valid()
      modifies this`part, this`previousSeq
      ensures Valid() && sent == (queue.Contents() != [])
      ensures sent ==> of == queue.Contents()[0] && exists p: nat :: p < 4 && frame == Frame(of, p)
      ensures sent ==> previousSeq == of.seqno
      ensures sent && old(previousSeq) != of.seqno ==> frame == Frame(of, 0) && part == 1
      ensures sent && old(previousSeq) == of.seqno ==> frame == Frame(of, old(part)) && part == (old(part) + 1) % 4
    {
      var found, e := queue.Front();
      sent, frame, of := found, [], e;
      if found {
        if previousSeq != e.seqno {
          part, previousSeq := 0, e.seqno;
        }
        frame := Frame(e, part);
        part := (part + 1) % 4;
      }
    }
  }

  class Link {
    const dash: Dash
    const receiver: Receiver
    const log: SystemLog
    var eventReady: bool
    var receivedEvent: Event
    /** Notifications and acknowledgements under way. */
    var channel: seq<bytes>
    var acks: seq<(uint32, uint32)>
    /** Every event the queue ever took in, those it dropped as acknowledged, and the notifications sent so far. */
    ghost var queued: set<Event>
    ghost var delivered: set<Event>
    ghost var origins: seq<Event>
    ghost var sources: seq<Event>
    ghost var sends: nat

    ghost predicate Shape()
      reads this, dash, dash.queue, dash.queue.entries, receiver, log, log.ring, log.ring.Repr()
    {
      && dash.Valid() && receiver.Valid() && log.Valid() && log.boot == dash.boot
      && {dash.queue, dash.queue.entries} !! {log.ring} + log.ring.Repr()
    }

    ghost function Abstract(): State
      requires dash.queue.Valid()
      reads this, dash, dash.queue, dash.queue.entries, receiver, log, log.ring
    {
      State(dash.boot, dash.lastSeq, dash.queue.Contents(), queued, delivered, channel, origins, receiver.parts,
        receiver.sequence, sources, eventReady, receivedEvent, log.Held(), log.logged, acks)
    }

    ghost predicate Valid()
      reads this, dash, dash.queue, dash.queue.entries, receiver, log, log.ring, log.ring.Repr()
    {
      Shape() && Good(Abstract())
    }

    constructor (files: seq<seq<Event>>, boot: uint32)
      requires forall i | 0 <= i < |files| :: !EndsWith(files[i], boot)
      ensures Valid() && dash.boot == boot
    {
      hide Good, DashPart, Recorded, Increasing, RingQueue.Contents, LineRing.Valid, Receiver.Valid, SystemLog.Valid;
      NothingHeld();
      dash := new Dash(boot);
      receiver := new Receiver();
      log := new SystemLog(files, boot);
      eventReady, channel, acks := false, [], [];
      receivedEvent := Event(0, 0, 0, 0, 1, seq(32, i => 0), 0, 0, 0, 1);
      queued, delivered, origins, sources, sends := {}, {}, [], [], 0;
      new;
      StartIsGood(boot, receiver.sequence, receivedEvent);
    }

    /** The dash records an event. */
    method Record(e: Event)
      requires Valid() && dash.lastSeq < WORD - 1 && e.boot == dash.boot && e.version == 1 && e.code[31] == 0
      modifies this`queued, dash`lastSeq, dash.queue, dash.queue.entries
      ensures Valid() && dash.lastSeq == old(dash.lastSeq) + 1
      ensures |old(dash.queue.Contents())| < 64 ==>
        dash.queue.Contents() == old(dash.queue.Contents()) + [e.(seqno := dash.lastSeq)] &&
        queued == old(queued) + {e.(seqno := dash.lastSeq)}
      ensures |old(dash.queue.Contents())| >= 64 ==>
        dash.queue.Contents() == old(dash.queue.Contents()) && queued == old(queued)
    {
      hide Good, SystemLog.Valid, Receiver.Valid, DashPart;
      ghost var v := Abstract();
      dash.DashEvent(e);
      ghost var room := |v.pending| < 64;
      if room { queued := queued + {e.(seqno := dash.lastSeq)}; }
      RecordedIsGood(v, e.(seqno := dash.lastSeq), room);
    }

    /** The part the dash sends next of its oldest event. */
    ghost function NextPart(): (p: nat)
      requires dash.Valid()
      reads dash, dash.queue, dash.queue.entries
      ensures p < 4
    {
      if dash.queue.Contents() != [] && dash.previousSeq != dash.queue.Contents()[0].seqno then 0 else dash.part
    }

    /** The dash sends its next notification. */
    method Notify()
      requires Valid()
      modifies this`channel, this`origins, this`sends, dash`part, dash`previousSeq
      ensures Valid() && sends == old(sends) + if dash.queue.Contents() == [] then 0 else 1
      ensures if dash.queue.Contents() == [] then channel == old(channel)
        else dash.queue.Contents() != [] && channel == old(channel) + [Frame(dash.queue.Contents()[0], old(NextPart()))]
      ensures dash.queue.Contents() != [] ==>
        dash.part == (old(NextPart()) + 1) % 4 && dash.previousSeq == dash.queue.Contents()[0].seqno
    {
      hide Good, SystemLog.Valid, Receiver.Valid, DashPart, Frame, RingQueue.Contents, LineRing.Valid, LastSeq,
        Increasing;
      ghost var v := Abstract();
      var sent, frame, of := dash.Service();
      if sent {
        channel, origins, sends := channel + [frame], origins + [of], sends + 1;
        assert FrameOf(frame, of);
        NotifiedIsGood(v, frame);
      }
    }

    /** The link loses the notification that is next to arrive. */
    method Lose()
      requires Valid() && channel != []
      modifies this`channel, this`origins
      ensures Valid() && channel == old(channel)[1..]
    {
      hide Good, SystemLog.Valid, Receiver.Valid, DashPart;
      ghost var v := Abstract();
      SameLength(v);
      channel, origins := channel[1..], origins[1..];
      LostIsGood(v);
    }

    /** The next notification to arrive is this part of `f`. */
    ghost predicate Arriving(f: Event, p: nat)
      requires p < 4
      reads this`channel
    {
      channel != [] && channel[0] == Frame(f, p)
    }

    /** The receiver holds just the first `n` parts of `f`. */
    ghost predicate Receiving(f: Event, n: nat)
      requires n < 4
      reads receiver
    {
      && |receiver.parts| == n && (forall i: nat | i < n :: receiver.parts[i] == Part(f, i))
      && (n > 0 ==> receiver.sequence == f.seqno % 256)
    }

    /** The receiver takes in the notification at the head of the channel. */
    method Take(ghost f: Event) returns (complete: bool, e: Event, ghost kept: seq<Event>)
      requires Valid() && channel != []
      modifies receiver
      ensures receiver.Valid() && |origins| > 0
      ensures HeldParts(receiver.parts, kept, receiver.sequence)
      ensures kept == [] || kept == [origins[0]] || kept == sources + [origins[0]]
      ensures complete ==> Genuine(old(Abstract()), e)
      ensures old(Arriving(f, 0)) ==> Receiving(f, 1)
      ensures old(Arriving(f, 1) && Receiving(f, 1)) ==> Receiving(f, 2)
      ensures old(Arriving(f, 2) && Receiving(f, 2)) ==> Receiving(f, 3)
      ensures old(Arriving(f, 3) && Receiving(f, 3)) && f.version == 1 ==> complete && e == f
    {
      hide Good, HeldParts, Parse, Payload, SystemLog.Valid, DashPart, Genuine;
      ghost var v := Abstract();
      SameLength(v);
      var data := channel[0];
      ArrivingPart(v, data);
      EventParts(f);
      if data[1] == 3 && |v.parts| == 3 && |v.parts[0] + v.parts[1] + v.parts[2] + Payload(data)| == LAYOUT_BYTES {
        AssembledIsGenuine(v, data, Parse(v.parts[0] + v.parts[1] + v.parts[2] + Payload(data)));
      }
      complete, e := receiver.Accept(data);
      kept := if receiver.parts == [] then [] else if data[1] == 0 then [origins[0]] else sources + [origins[0]];
      HeldNow(v, data, receiver.parts, receiver.sequence, kept);
    }

    /** A notification arrives, and may complete an event. */
    method Deliver(ghost f: Event)
      requires Valid() && channel != []
      modifies this`channel, this`origins, this`sources, this`eventReady, this`receivedEvent, receiver
      ensures Valid() && channel == old(channel)[1..]
      ensures old(Arriving(f, 0)) ==> Receiving(f, 1)
      ensures old(Arriving(f, 1) && Receiving(f, 1)) ==> Receiving(f, 2)
      ensures old(Arriving(f, 2) && Receiving(f, 2)) ==> Receiving(f, 3)
      ensures old(Arriving(f, 3) && Receiving(f, 3)) && f.version == 1 ==> eventReady && receivedEvent == f
    {
      hide Good, HeldParts, SystemLog.Valid, Receiver.Valid, DashPart, Genuine, Arriving, Receiving, Frame, Part,
        Payload, RingQueue.Contents, RingQueue.Valid, LineRing.Valid, LastSeq, Increasing, SystemLog.Held;
      ghost var v := Abstract();
      var complete, e, kept := Take(f);
      channel, origins, sources := channel[1..], origins[1..], kept;
      if complete {
        receivedEvent, eventReady := e, true;
      }
      DeliveredIsGood(v, receiver.parts, receiver.sequence, kept, complete, e);
    }

    lemma LogRecorded()
      requires log.Valid()
      ensures Recorded(log.files, log.boot, log.logged)
    {
    }

    /** An event the log will look at: well-formed, with the card ready. */
    ghost predicate Accountable(e: Event)
      reads log
    {
      log.ready && e.version == 1 && e.code[31] == 0 && SafeCode(e.code) && e.seqno > 0
    }

    /** The logger looks at the last event received, once a second. */
    method Poll()
      requires Valid()
      modifies this`eventReady, this`acks, log`dashBoot, log`dashSeq, log`dashPendingBoot, log`dashPendingSeq,
        log`dashKnown, log.ring.Repr()
      ensures Valid() && !eventReady
      ensures log.ring == old(log.ring)
      ensures old(eventReady && Accountable(receivedEvent)) && receivedEvent.seqno <= LastSeq(log.logged) ==>
        acks == old(acks) + [(receivedEvent.boot, receivedEvent.seqno)] && log.ring.waiting == old(log.ring.waiting)
      ensures old(eventReady && Accountable(receivedEvent)) && receivedEvent.seqno > LastSeq(log.logged) &&
              old(log.ring.waiting) == [] ==>
        acks == old(acks) && log.ring.waiting == [Line(true, receivedEvent)]
      ensures acks == old(acks)
           || (old(eventReady) && acks == old(acks) + [(receivedEvent.boot, receivedEvent.seqno)] &&
                receivedEvent.seqno <= LastSeq(log.logged))
    {
      hide Good, DashPart, SafeCode, SystemLog.Valid, Receiver.Valid, RingQueue.Contents;
      ghost var v := Abstract();
      if eventReady {
        ReceivedBoot(v);
        NothingHeld();
        eventReady := false;
        assert receivedEvent.code[31] == 0 ==> receivedEvent.code[..31] + [0] == receivedEvent.code;
        var event := receivedEvent.(code := receivedEvent.code[..31] + [0]);
        var acknowledge := log.AcceptDash(event);
        if acknowledge {
          acks := acks + [(event.boot, event.seqno)];
        }
        PolledIsGood(v, event, log.Held(), acknowledge);
      }
    }

    /** The logger's own events share its queue. */
    method OwnEvent(e: Event)
      requires Valid()
      modifies log.ring.Repr()
      ensures Valid()
      ensures log.ring.waiting == old(log.ring.waiting) +
        if SafeCode(e.code) && |old(log.ring.waiting)| < RING then [Line(false, e)] else []
    {
      hide Good, DashPart;
      log.Add(e);
    }

    /** The logger drains one line to the card. */
    method Drain(sdReady: bool, writes: bool, target: nat, pruned: nat)
      requires Valid() && target < |log.files| && pruned < |log.files|
      modifies log, log.ring.Repr()
      ensures Valid()
      ensures log.ring.waiting == if sdReady && writes && old(log.ring.waiting) != [] then old(log.ring.waiting)[1..]
        else old(log.ring.waiting)
      ensures log.logged == old(log.logged) ||
              (old(log.Held()) != [] && log.logged == old(log.logged) + [old(log.Held())[0]])
      ensures log.ring == old(log.ring) && log.ready == sdReady && |log.files| == |old(log.files)|
      ensures sdReady && writes && old(log.ring.waiting) != [] && old(log.ring.waiting)[0].fromDash ==>
        log.logged == old(log.logged) + [old(log.ring.waiting)[0].event]
    {
      hide Good, DashPart;
      ghost var v := Abstract();
      log.Loop(sdReady, writes, target, pruned);
      HeldIsOne(v);
      if log.logged != v.logged {
        assert v.held == [v.held[0]];
        FlushedIsGood(v);
      }
    }

    /** The acknowledgement names the dash's oldest event. */
    ghost predicate Names(a: (uint32, uint32))
      requires dash.queue.Valid()
      reads dash.queue, dash.queue.entries
    {
      dash.queue.Contents() != [] && dash.queue.Contents()[0].boot == a.0 && dash.queue.Contents()[0].seqno == a.1
    }

    /** An acknowledgement arrives. What the dash then drops is on the card. */
    method DeliverAck(i: nat)
      requires Valid() && i < |acks|
      modifies this`acks, this`delivered, dash.queue`head, dash.queue`count
      ensures Valid() && acks == old(acks)[..i] + old(acks)[i + 1..]
      ensures dash.queue.Contents() == if old(Names(acks[i])) then old(dash.queue.Contents())[1..]
        else old(dash.queue.Contents())
      ensures old(Names(acks[i])) ==> old(dash.queue.Contents())[0] in log.logged
    {
      hide Good, DashPart, SystemLog.Valid, Receiver.Valid, LineRing.Valid, LastSeq, Increasing;
      ghost var v := Abstract();
      var a := acks[i];
      dash.OnWrite(a.0, a.1);
      acks := acks[..i] + acks[i + 1..];
      if v.pending != [] && v.pending[0].boot == a.0 && v.pending[0].seqno == a.1 {
        delivered := delivered + {v.pending[0]};
      }
      AcknowledgedIsGood(v, i, acks);
    }

    /** An acknowledgement is lost. */
    method LoseAck(i: nat)
      requires Valid() && i < |acks|
      modifies this`acks
      ensures Valid() && acks == old(acks)[..i] + old(acks)[i + 1..]
    {
      hide Good, DashPart;
      ghost var v := Abstract();
      acks := acks[..i] + acks[i + 1..];
      FewerAcks(v, acks);
    }

    /** The connection is set up anew. */
    method Reconnect()
      requires Valid()
      modifies this`channel, this`origins, this`sources, this`acks, this`eventReady, receiver
      ensures Valid() && channel == [] && acks == [] && !eventReady && receiver.parts == []
    {
      hide Good, DashPart, SystemLog.Valid, Receiver.Valid, RingQueue.Contents, RingQueue.Valid, LineRing.Valid;
      ghost var v := Abstract();
      receiver.Reset();
      channel, origins, sources, acks, eventReady := [], [], [], [], false;
      ReconnectedIsGood(v, receiver.sequence);
    }

    /** The logger restarts at any moment: what waited in memory is lost and will be sent again. */
    method RestartLogger()
      requires Valid()
      modifies this`channel, this`origins, this`sources, this`acks, this`eventReady, receiver,
        log`ring, log`dashBoot, log`dashSeq, log`dashPendingBoot, log`dashPendingSeq, log`dashKnown, log`ready
      ensures channel == [] && acks == [] && !eventReady && log.ring.waiting == [] && !log.dashKnown && !log.ready
      ensures Valid() && log.Held() == [] && dash.queue.Contents() == old(dash.queue.Contents())
    {
      hide Good, SystemLog.Valid, Receiver.Valid, DashPart, Recorded, Increasing, RingQueue.Contents;
      Reconnect();
      NothingHeld();
      LogRecorded();
      ghost var v := Abstract();
      log.Restart();
      HeldLost(v);
    }

    /** One notification sent and delivered. */
    method Exchange(ghost f: Event)
      requires Valid() && channel == [] && dash.queue.Contents() != [] && f == dash.queue.Contents()[0]
      modifies this`channel, this`origins, this`sources, this`eventReady, this`receivedEvent, this`sends, receiver,
        dash`part, dash`previousSeq
      ensures Valid() && channel == [] && sends == old(sends) + 1
      ensures dash.part == (old(NextPart()) + 1) % 4 && dash.previousSeq == dash.queue.Contents()[0].seqno
      ensures old(NextPart()) == 0 ==> Receiving(f, 1)
      ensures old(NextPart() == 1 && Receiving(f, 1)) ==> Receiving(f, 2)
      ensures old(NextPart() == 2 && Receiving(f, 2)) ==> Receiving(f, 3)
      ensures old(NextPart() == 3 && Receiving(f, 3)) ==> eventReady && receivedEvent == f
    {
      hide Good, HeldParts, SystemLog.Valid, Receiver.Valid, DashPart, Receiving, Frame, RingQueue.Contents;
      FrontVersion(Abstract());
      Notify();
      Deliver(f);
    }

    /** Send on until the next part is the first of the oldest event: at most three notifications. */
    method Align()
      requires Valid() && channel == [] && dash.queue.Contents() != []
      modifies this`channel, this`origins, this`sources, this`eventReady, this`receivedEvent, this`sends, receiver,
        dash`part, dash`previousSeq
      ensures Valid() && channel == [] && NextPart() == 0 && sends <= old(sends) + 3
    {
      hide Good, HeldParts, SystemLog.Valid, Receiver.Valid, DashPart, Receiving, RingQueue.Contents;
      var found, oldest := dash.queue.Front();
      while dash.part != 0 && dash.previousSeq == oldest.seqno
        invariant Valid() && channel == [] && dash.queue.Contents() != [] && old(sends) <= sends
        invariant sends == old(sends) || sends - old(sends) + (if dash.part == 0 then 0 else 4 - dash.part) <= 3
        decreases if dash.part == 0 then 0 else 4 - dash.part
      {
        Exchange(dash.queue.Contents()[0]);
      }
    }

    /** On a quiet link, at most seven notifications bring the oldest event across. */
    method Transfer()
      requires Valid() && channel == [] && dash.queue.Contents() != []
      modifies this`channel, this`origins, this`sources, this`eventReady, this`receivedEvent, this`sends, receiver,
        dash`part, dash`previousSeq
      ensures Valid() && channel == [] && eventReady && receivedEvent == dash.queue.Contents()[0] &&
              sends <= old(sends) + 7
    {
      hide Good, HeldParts, SystemLog.Valid, Receiver.Valid, DashPart, Receiving, RingQueue.Contents;
      Align();
      ghost var f := dash.queue.Contents()[0];
      Exchange(f);
      Exchange(f);
      Exchange(f);
      Exchange(f);
    }

    /**
     On a quiet link the oldest event is brought across and looked at: acknowledged if it is on the
     card, held if not.
     */
    method Offer()
      requires Valid() && channel == [] && acks == [] && dash.queue.Contents() != [] &&
               Accountable(dash.queue.Contents()[0])
      modifies this`channel, this`origins, this`sources, this`eventReady, this`receivedEvent, this`sends, this`acks,
        receiver, dash`part, dash`previousSeq, log`dashBoot, log`dashSeq, log`dashPendingBoot, log`dashPendingSeq,
        log`dashKnown, log.ring.Repr()
      ensures Valid() && channel == [] && sends <= old(sends) + 7 && log.ring == old(log.ring)
      ensures dash.queue.Contents() == old(dash.queue.Contents())
      ensures dash.queue.Contents()[0].seqno <= LastSeq(log.logged) ==>
        acks == [(dash.queue.Contents()[0].boot, dash.queue.Contents()[0].seqno)]
      ensures dash.queue.Contents()[0].seqno > LastSeq(log.logged) && old(log.ring.waiting) == [] ==>
        acks == [] && log.ring.waiting == [Line(true, dash.queue.Contents()[0])]
    {
      hide Good, HeldParts, SystemLog.Valid, Receiver.Valid, DashPart, Receiving, RingQueue.Contents, SafeCode, LastSeq;
      Transfer();
      Poll();
    }

    /**
     Progress: with the link quiet, the card writing and nothing else waiting, the oldest event
     is on the card and dropped by the dash after one round.
     */
    method Round(target: nat, pruned: nat)
      requires Valid() && channel == [] && acks == [] && dash.queue.Contents() != []
      requires Accountable(dash.queue.Contents()[0]) && log.ring.waiting == []
      requires target < |log.files| && pruned < |log.files|
      modifies this`channel, this`origins, this`sources, this`eventReady, this`receivedEvent, this`sends, this`acks,
        this`delivered, receiver, dash`part, dash`previousSeq, dash.queue`head, dash.queue`count, log, log.ring.Repr()
      ensures Valid() && channel == [] && acks == [] && sends <= old(sends) + 14
      ensures dash.queue.Contents() == old(dash.queue.Contents())[1..]
      ensures old(dash.queue.Contents())[0] in log.logged
    {
      hide Good, HeldParts, SystemLog.Valid, Receiver.Valid, DashPart, Receiving, RingQueue.Contents, SafeCode, LastSeq,
        RingQueue.Valid, LineRing.Valid, SystemLog.Held, NextPart;
      Offer();
      if acks == [] {
        ghost var logged, e := log.logged, dash.queue.Contents()[0];
        Drain(true, true, target, pruned);
        LastAppended(logged, e);
        Settle();
      } else {
        DeliverAck(0);
      }
    }

    /** An event already on the card is acknowledged and dropped. */
    method Settle()
      requires Valid() && channel == [] && acks == [] && dash.queue.Contents() != []
      requires Accountable(dash.queue.Contents()[0]) && dash.queue.Contents()[0].seqno <= LastSeq(log.logged)
      modifies this`channel, this`origins, this`sources, this`eventReady, this`receivedEvent, this`sends, this`acks,
        this`delivered, receiver, dash`part, dash`previousSeq, dash.queue`head, dash.queue`count, log`dashBoot,
        log`dashSeq, log`dashPendingBoot, log`dashPendingSeq, log`dashKnown, log.ring.Repr()
      ensures Valid() && channel == [] && acks == [] && sends <= old(sends) + 7
      ensures dash.queue.Contents() == old(dash.queue.Contents())[1..]
      ensures old(dash.queue.Contents())[0] in log.logged
    {
      hide Good, HeldParts, SystemLog.Valid, Receiver.Valid, DashPart, Receiving, RingQueue.Contents, SafeCode, LastSeq;
      Offer();
      DeliverAck(0);
    }

    /** What the invariant means for the card and the dash's queue, at any time. */
    lemma Promise()
      requires Valid()
      ensures forall i, j | 0 <= i < j < |log.logged| :: log.logged[i].seqno < log.logged[j].seqno
      ensures forall e | e in log.logged :: e in queued
      ensures forall e | e in delivered :: e in log.logged
      ensures forall e | e in queued :: e in dash.queue.Contents() || e in log.logged
    {
      hide Recorded, Sent, HeldParts, Traceable;
    }
  }

  /** An event as frames and as an assembled whole. */
  lemma EventParts(f: Event)
    ensures forall p: nat | p < 4 :: IsFrame(Frame(f, p)) && Frame(f, p)[1] == p && Frame(f, p)[2] == f.seqno % 256
    ensures forall p: nat | p < 4 :: Payload(Frame(f, p)) == Part(f, p)
    ensures Part(f, 0) + Part(f, 1) + Part(f, 2) + Part(f, 3) == Layout(f)
    ensures Parse(Part(f, 0) + Part(f, 1) + Part(f, 2) + Part(f, 3)) == f
  {
    PartsRebuild(f);
    hide Part, Payload, Layout, Parse, Frame;
    forall p: nat | p < 4
      ensures IsFrame(Frame(f, p)) && Frame(f, p)[1] == p && Frame(f, p)[2] == f.seqno % 256 &&
              Payload(Frame(f, p)) == Part(f, p)
    {
      FramePayload(f, p);
    }
  }

  lemma LastAppended(logged: seq<Event>, e: Event)
    ensures LastSeq(logged + [e]) == e.seqno
  {
  }

  lemma NothingHeld()
    ensures DashPart([]) == []
  {
  }

  lemma FrontVersion(v: State)
    requires Good(v) && v.pending != []
    ensures v.pending[0].version == 1
  {
    hide Traceable, Sent, HeldParts, Faithful;
  }

  lemma SameLength(v: State)
    requires Good(v)
    ensures |v.channel| == |v.origins| && |v.parts| == |v.sources|
  {
  }

  lemma ReceivedBoot(v: State)
    requires Good(v) && v.ready
    ensures v.received.boot == v.boot
  {
  }

  lemma HeldIsOne(v: State)
    requires Good(v)
    ensures |v.held| <= 1
  {
  }

  lemma FewerAcks(v: State, acks: seq<(uint32, uint32)>)
    requires Good(v) && forall a | a in acks :: a in v.acks
    ensures Good(v.(acks := acks))
  {
    hide Sent, HeldParts, Traceable, Increasing;
  }

  lemma HeldNow(v: State, data: bytes, parts: seq<bytes>, sequence: byte, sources: seq<Event>)
    requires Good(v) && v.channel != [] && data == v.channel[0] && IsFrame(data)
    requires parts == [] || (data[1] == 0 && parts == [Payload(data)] && sequence == data[2])
          || (0 < data[1] == |v.parts| && parts == v.parts + [Payload(data)] && sequence == v.sequence)
    requires |v.origins| > 0
    requires sources == if parts == [] then [] else if data[1] == 0 then [v.origins[0]] else v.sources + [v.origins[0]]
    ensures HeldParts(parts, sources, sequence)
  {
    hide Traceable, Increasing, Part, Payload, Parse;
    ArrivingPart(v, data);
  }
}
