/**
 The account a whole run keeps of every record captured durably: still pending, or
 gone from the queue for exactly one stated reason.
 */
module DeliveryLedger {
  import opened Bytes
  import opened SegmentLog
  import opened Flash
  import opened QueueDisk
  import opened QueueSteps
  import opened RejectedUploads
  import opened StoreForwardQueue

  /** Why a record left the queue. */
  datatype Fate = Acknowledged | Preserved | Lost

  /**
   `accepted`: all records ever captured durably, in order. `fates`: what became of the
   first of them. `confirmed`: the records the server has strictly acknowledged.
   */
  datatype Ledger = Ledger(accepted: seq<Payload>, fates: seq<Fate>, confirmed: set<Payload>)

  ghost predicate Distinct(ps: seq<Payload>)
  {
    forall i, j | 0 <= i < j < |ps| :: ps[i] != ps[j]
  }

  ghost function Tally(fates: seq<Fate>, fate: Fate): (n: nat)
    ensures n <= |fates|
  {
    if fates == [] then 0 else Tally(fates[..|fates| - 1], fate) + if fates[|fates| - 1] == fate then 1 else 0
  }

  /**
   A record that left the queue was confirmed by the server or has a readable archive copy, or is
   one of the counted losses.
   */
  ghost predicate Justified(af: ArchiveFormat, files: Files, l: Ledger, i: nat)
    requires i < |l.fates| <= |l.accepted|
  {
    match l.fates[i]
    case Acknowledged => l.accepted[i] in l.confirmed
    case Preserved => Archived(af, files, l.accepted[i])
    case Lost => true
  }

  /** `pending` and `dropped` are explained by the ledger: nothing missing, nothing out of order, no loss uncounted. */
  ghost predicate Explained(af: ArchiveFormat, files: Files, l: Ledger, pending: seq<Payload>, dropped: uint32)
  {
    && |l.fates| <= |l.accepted| && Distinct(l.accepted)
    && pending == l.accepted[|l.fates|..]
    && (forall i: nat | i < |l.fates| :: Justified(af, files, l, i))
    && Min(Tally(l.fates, Lost), WORD - 1) <= dropped
  }

  /** Every record accepted is pending, acknowledged, archived or lost, and in one way only. */
  lemma {:induction false} Conservation(af: ArchiveFormat, files: Files, l: Ledger, pending: seq<Payload>,
      dropped: uint32)
    requires Explained(af, files, l, pending, dropped)
    ensures |l.accepted| == |pending| + Tally(l.fates, Acknowledged) + Tally(l.fates, Preserved) + Tally(l.fates, Lost)
  {
    TallyIsTotal(l.fates);
  }

  lemma {:induction false} TallyIsTotal(fates: seq<Fate>)
    ensures |fates| == Tally(fates, Acknowledged) + Tally(fates, Preserved) + Tally(fates, Lost)
  {
    if fates != [] {
      TallyIsTotal(fates[..|fates| - 1]);
    }
  }

  function Losses(n: nat): (fates: seq<Fate>)
    ensures |fates| == n && forall i | 0 <= i < n :: fates[i] == Lost
  {
    seq(n, i => Lost)
  }

  lemma {:induction false} TallyLosses(fates: seq<Fate>, n: nat, fate: Fate)
    ensures Tally(fates + Losses(n), fate) == Tally(fates, fate) + if fate == Lost then n else 0
  {
    if n == 0 {
      assert fates + Losses(0) == fates;
    } else {
      var all := fates + Losses(n);
      assert all[..|all| - 1] == fates + Losses(n - 1);
      TallyLosses(fates, n - 1, fate);
    }
  }

  function Captured(l: Ledger, p: Payload): Ledger
  {
    l.(accepted := l.accepted + [p])
  }

  function Reclaimed(l: Ledger, n: nat): Ledger
  {
    l.(fates := l.fates + Losses(n))
  }

  function Resolved(l: Ledger, fate: Fate): Ledger
  {
    l.(fates := l.fates + [fate])
  }

  function Confirmed(l: Ledger, ps: seq<Payload>): Ledger
  {
    l.(confirmed := l.confirmed + set p | p in ps)
  }

  lemma CaptureExplained(af: ArchiveFormat, files: Files, l: Ledger, pending: seq<Payload>, dropped: uint32, p: Payload)
    requires Explained(af, files, l, pending, dropped) && p !in l.accepted
    ensures Explained(af, files, Captured(l, p), pending + [p], dropped)
  {
    var n := Captured(l, p);
    assert n.accepted[|l.fates|..] == pending + [p];
    forall i: nat | i < |l.fates| ensures Justified(af, files, n, i) {
      assert Justified(af, files, l, i);
    }
  }

  /** Rotation takes the oldest records, and no more than the drop count grew by. */
  lemma ReclaimExplained(af: ArchiveFormat, files: Files, l: Ledger, older: seq<Payload>, newer: seq<Payload>,
      before: uint32, after: uint32)
    requires Explained(af, files, l, older + newer, before) && after >= SaturatingAdd(before, |older|)
    ensures Explained(af, files, Reclaimed(l, |older|), newer, after)
  {
    var n := Reclaimed(l, |older|);
    assert n.accepted[|n.fates|..] == l.accepted[|l.fates|..][|older|..] == newer;
    TallyLosses(l.fates, |older|, Lost);
    forall i: nat | i < |n.fates| ensures Justified(af, files, n, i) {
      if i < |l.fates| { assert Justified(af, files, l, i); }
    }
  }

  /** The oldest record leaves for a reason that holds of it. */
  lemma ResolveExplained(af: ArchiveFormat, files: Files, l: Ledger, pending: seq<Payload>, dropped: uint32, fate: Fate)
    requires Explained(af, files, l, pending, dropped) && pending != [] && fate != Lost
    requires fate == Acknowledged ==> pending[0] in l.confirmed
    requires fate == Preserved ==> Archived(af, files, pending[0])
    ensures Explained(af, files, Resolved(l, fate), pending[1..], dropped)
  {
    var n := Resolved(l, fate);
    assert pending[0] == l.accepted[|l.fates|];
    assert n.accepted[|n.fates|..] == l.accepted[|l.fates|..][1..];
    assert n.fates[..|n.fates| - 1] == l.fates;
    forall i: nat | i < |n.fates| ensures Justified(af, files, n, i) {
      if i < |l.fates| { assert Justified(af, files, l, i); }
    }
  }

  lemma ConfirmExplained(af: ArchiveFormat, files: Files, l: Ledger, pending: seq<Payload>, dropped: uint32,
      ps: seq<Payload>)
    requires Explained(af, files, l, pending, dropped)
    ensures Explained(af, files, Confirmed(l, ps), pending, dropped)
    ensures forall p | p in ps :: p in Confirmed(l, ps).confirmed
  {
    forall i: nat | i < |l.fates| ensures Justified(af, files, Confirmed(l, ps), i) {
      assert Justified(af, files, l, i);
    }
  }

  /** Files that keep the archive, and a drop count that does not fall, keep the account. */
  lemma KeptExplained(af: ArchiveFormat, a: Files, b: Files, l: Ledger, pending: seq<Payload>, before: uint32,
      after: uint32)
    requires Explained(af, a, l, pending, before) && SlotsKept(a, b) && before <= after
    ensures Explained(af, b, l, pending, after)
  {
    forall i: nat | i < |l.fates| ensures Justified(af, b, l, i) {
      assert Justified(af, a, l, i);
      if l.fates[i] == Preserved { ArchivedKept(af, a, b, l.accepted[i]); }
    }
  }

  lemma ArchivedKept(af: ArchiveFormat, a: Files, b: Files, p: Payload)
    requires Archived(af, a, p) && SlotsKept(a, b)
    ensures Archived(af, b, p)
  {
    var slot: nat :| Holds(af, a, slot, p);
    assert Holds(af, b, slot, p);
  }

  lemma SameSlotsKept(a: Files, b: Files)
    requires SameSlots(a, b)
    ensures SlotsKept(a, b)
  {
  }

  /** The account after an attempt to settle the oldest record, given what is pending then. */
  ghost function AfterSettle(l: Ledger, before: seq<Payload>, now: seq<Payload>, fate: Fate): Ledger
  {
    if now == before then l else Resolved(l, fate)
  }

  lemma SettleExplained(af: ArchiveFormat, a: Files, b: Files, l: Ledger, before: seq<Payload>, now: seq<Payload>,
      d: uint32, e: uint32, fate: Fate)
    requires Explained(af, a, l, before, d) && SameSlots(a, b) && d <= e && before != [] && fate != Lost
    requires fate == Acknowledged ==> before[0] in l.confirmed
    requires fate == Preserved ==> Archived(af, a, before[0])
    requires now == before || now == before[1..]
    ensures Explained(af, b, AfterSettle(l, before, now, fate), now, e)
  {
    hide Explained, SlotsKept, SameSlots;
    SameSlotsKept(a, b);
    if now != before { ResolveExplained(af, a, l, before, d, fate); }
    KeptExplained(af, a, b, AfterSettle(l, before, now, fate), now, d, e);
  }

  /** How many of the oldest records rotation took, told from what is pending after a capture of `p`. */
  ghost function Taken(older: seq<Payload>, newer: seq<Payload>, now: seq<Payload>, p: Payload): (n: nat)
    ensures n == 0 || n == |older|
  {
    if now == older + newer || now == older + newer + [p] then 0 else |older|
  }

  /** The account after an attempt to capture `p`. */
  ghost function AfterCapture(l: Ledger, older: seq<Payload>, newer: seq<Payload>, now: seq<Payload>,
      p: Payload): Ledger
  {
    var kept := if Taken(older, newer, now, p) == 0 then l else Reclaimed(l, |older|);
    if p in now then Captured(kept, p) else kept
  }

  /**
   What an attempted capture can leave pending: everything or, after a counted rotation, the newer
   segment; with `p` or without.
   */
  ghost predicate CaptureOutcome(older: seq<Payload>, newer: seq<Payload>, d: uint32, now: seq<Payload>, e: uint32,
      p: Payload, rotates: bool)
  {
    && d <= e
    && (|| now == older + newer || now == older + newer + [p]
        || (rotates && (now == newer || now == newer + [p]) && (older != [] ==> e >= SaturatingAdd(d, |older|))))
  }

  ghost predicate OnlyLosses(before: seq<Fate>, after: seq<Fate>)
  {
    before <= after && forall i | |before| <= i < |after| :: after[i] == Lost
  }

  lemma CaptureFacts(l: Ledger, older: seq<Payload>, newer: seq<Payload>, d: uint32, now: seq<Payload>, e: uint32,
      p: Payload, rotates: bool)
    requires CaptureOutcome(older, newer, d, now, e, p, rotates)
    ensures var n, t := AfterCapture(l, older, newer, now, p), Taken(older, newer, now, p);
      && Grown(l, n) && n.confirmed == l.confirmed && OnlyLosses(l.fates, n.fates)
      && |n.fates| == |l.fates| + t && (n.fates != l.fates ==> t == |older|)
      && n.accepted == (if p in now then l.accepted + [p] else l.accepted)
      && (n.fates != l.fates ==> rotates && older != [])
  {
    if Taken(older, newer, now, p) == 0 {
      assert l.fates + Losses(0) == l.fates;
    }
  }

  lemma CaptureOutcomeExplained(af: ArchiveFormat, a: Files, b: Files, l: Ledger, older: seq<Payload>,
      newer: seq<Payload>, d: uint32, now: seq<Payload>, e: uint32, p: Payload, rotates: bool)
    requires Explained(af, a, l, older + newer, d) && SameSlots(a, b) && p !in l.accepted
    requires CaptureOutcome(older, newer, d, now, e, p, rotates)
    ensures Explained(af, b, AfterCapture(l, older, newer, now, p), now, e)
  {
    PendingAccepted(af, a, l, older + newer, d);
    assert p !in older + newer && (forall q | q in newer :: q in older + newer);
    hide Explained, SlotsKept, SameSlots;
    SameSlotsKept(a, b);
    var base := if p in now then now[..|now| - 1] else now;
    assert p in now ==> now == base + [p];
    KeptExplained(af, a, b, l, older + newer, d, d);
    if Taken(older, newer, now, p) == 0 {
      KeptExplained(af, a, b, l, older + newer, d, e);
      assert base == older + newer;
      if p in now { CaptureExplained(af, b, l, base, e, p); }
    } else {
      ReclaimExplained(af, b, l, older, newer, d, e);
      assert base == newer;
      if p in now { CaptureExplained(af, b, Reclaimed(l, |older|), base, e, p); }
    }
  }

  /** Both together: the account holds, and has only grown. */
  lemma CaptureAccounted(af: ArchiveFormat, a: Files, b: Files, l: Ledger, older: seq<Payload>, newer: seq<Payload>,
      d: uint32, now: seq<Payload>, e: uint32, p: Payload, rotates: bool)
    requires Explained(af, a, l, older + newer, d) && SameSlots(a, b) && p !in l.accepted
    requires CaptureOutcome(older, newer, d, now, e, p, rotates)
    ensures var n := AfterCapture(l, older, newer, now, p);
      && Explained(af, b, n, now, e) && Grown(l, n) && n.confirmed == l.confirmed && OnlyLosses(l.fates, n.fates)
      && (|n.fates| == |l.fates| || |n.fates| == |l.fates| + |older|)
      && n.accepted == (if p in now then l.accepted + [p] else l.accepted)
      && (n.fates != l.fates ==> rotates && older != [])
  {
    hide Explained, SameSlots, CaptureOutcome, AfterCapture, Taken, Grown, OnlyLosses;
    CaptureOutcomeExplained(af, a, b, l, older, newer, d, now, e, p, rotates);
    CaptureFacts(l, older, newer, d, now, e, p, rotates);
  }

  lemma PendingAccepted(af: ArchiveFormat, files: Files, l: Ledger, pending: seq<Payload>, dropped: uint32)
    requires Explained(af, files, l, pending, dropped)
    ensures forall q | q in pending :: q in l.accepted
  {
  }

  /** `ps` are the accepted records from `at` on, and `at` was at or before the head of the queue. */
  ghost predicate Placed(l: Ledger, ps: seq<Payload>, at: nat)
  {
    at <= |l.fates| && at + |ps| <= |l.accepted| && l.accepted[at..at + |ps|] == ps
  }

  /** The account only ever grows. */
  ghost predicate Grown(l: Ledger, n: Ledger)
  {
    l.accepted <= n.accepted && l.fates <= n.fates && l.confirmed <= n.confirmed
  }

  lemma PlacedGrows(l: Ledger, n: Ledger, ps: seq<Payload>, at: nat)
    requires Placed(l, ps, at) && Grown(l, n)
    ensures Placed(n, ps, at)
  {
    assert n.accepted[at..at + |ps|] == l.accepted[at..at + |ps|];
  }

  /** A placed record is the head of the queue or no longer in it, according to how many have left. */
  lemma PlacedHead(af: ArchiveFormat, files: Files, l: Ledger, pending: seq<Payload>, dropped: uint32, ps: seq<Payload>,
      at: nat, i: nat)
    requires Explained(af, files, l, pending, dropped) && Placed(l, ps, at) && i < |ps| && at + i <= |l.fates|
    ensures ps[i] in pending <==> |l.fates| == at + i
    ensures ps[i] in pending <==> pending != [] && pending[0] == ps[i]
  {
    assert l.accepted[at..at + |ps|][i] == l.accepted[at + i];
    if |l.fates| == at + i { assert pending[0] == l.accepted[at + i]; }
    if ps[i] in pending {
      var k :| 0 <= k < |pending| && pending[k] == ps[i];
      assert pending[k] == l.accepted[|l.fates| + k];
    }
  }

  /** All of `ps` are confirmed by the server. */
  ghost predicate AllConfirmed(l: Ledger, ps: seq<Payload>)
  {
    forall p | p in ps :: p in l.confirmed
  }

  lemma PendingUnique(af: ArchiveFormat, files: Files, l: Ledger, p: seq<Payload>, d: uint32, q: seq<Payload>,
      e: uint32)
    requires Explained(af, files, l, p, d) && Explained(af, files, l, q, e)
    ensures p == q
  {
  }

  lemma {:induction false} SlotsOccupied(a: Files, b: Files, n: nat)
    requires SameSlots(a, b)
    ensures OccupiedBelow(a, n) == OccupiedBelow(b, n)
  {
    if n > 0 {
      SlotsOccupied(a, b, n - 1);
      assert Rejected(n - 1) in a <==> Rejected(n - 1) in b;
    }
  }

  /** What the queue offers first is placed where the account's pending part begins. */
  lemma PlacedPrefix(af: ArchiveFormat, files: Files, l: Ledger, pending: seq<Payload>, dropped: uint32,
      ps: seq<Payload>)
    requires Explained(af, files, l, pending, dropped) && ps <= pending
    ensures Placed(l, ps, |l.fates|)
  {
    assert l.accepted[|l.fates|..|l.fates| + |ps|] == pending[..|ps|];
  }

  /** The queue, its files and the account at one moment. */
  datatype Moment = Moment(
    format: Format, archive: ArchiveFormat, files: Files, metadata: Counters, capacity: nat, ready: bool, powered: bool,
    ledger: Ledger)

  /** The next boot would replay exactly what the ledger says is pending, and knows of every loss. */
  ghost predicate RecoverableAt(v: Moment)
  {
    && SoundFormat(v.format)
    && Explained(v.archive, v.files, v.ledger, Replay(v.format, v.files), Boot(v.format, v.files).dropped)
  }

  /** Heads and order are durable: no failed commit has left memory ahead of flash. */
  ghost predicate CommittedAt(v: Moment)
  {
    Aligned(v.format, v.files, v.metadata)
  }

  /** A final commit has failed, and nothing has been appended since. */
  ghost predicate BehindAt(v: Moment)
  {
    Behind(v.format, v.files, v.metadata)
  }

  /** The drop count is known not to cover every loss: metadata was lost with data present, at some time before. */
  ghost predicate DropsUnknown(v: Moment)
  {
    Boot(v.format, v.files).reserved != 0 && (v.ready ==> v.metadata.reserved != 0)
  }

  /** Before a boot: the doubt arises exactly if no metadata can be read and some file of the queue is there. */
  lemma LostMetadataIsDoubted(v: Moment)
    requires !v.ready && MetadataLost(v.format, v.files)
    requires SoundFormat(v.format)
    ensures DropsUnknown(v) <==> AnyQueueFile(v.files)
  {
    hide Boot, SoundFormat, AnyQueueFile, Replay;
    WithoutMetadata(v.format, v.files);
  }

  /** Both segments are within capacity and the active head is 0 while the older segment holds records. */
  ghost predicate OrderlyAt(v: Moment)
  {
    Shaped(v.metadata) && Retained(v.format, v.files, v.metadata, v.capacity)
  }

  /** The same now and at any boot. */
  ghost predicate KeptAt(v: Moment)
  {
    OrderlyAt(v) && SoundFormat(v.format) && DurablyRetained(v.format, v.files, v.capacity)
  }

  /**
   What every upload step keeps, cut or not: recovery, order and capacity, and a doubt about the
   drop count. A step after which a record has left the queue makes the queue on flash the account
   again, whatever it was before; and memory gets ahead of the flash only by such a step.
   */
  ghost predicate Turned(reliable: bool, a: Moment, b: Moment)
  {
    && b.format == a.format && b.archive == a.archive && b.capacity == a.capacity && b.ready == a.ready
    && (b.powered ==> a.powered)
    && (reliable && a.powered ==> b.powered)
    && a.ledger.fates <= b.ledger.fates && (b.ledger.fates != a.ledger.fates ==> a.ready)
    && (RecoverableAt(a) ==> RecoverableAt(b)) && (OrderlyAt(a) ==> OrderlyAt(b)) && (KeptAt(a) ==> KeptAt(b))
    && (DropsUnknown(a) ==> DropsUnknown(b))
    && (b.powered && b.ledger.fates == a.ledger.fates ==>
         (CommittedAt(a) ==> CommittedAt(b)) && (BehindAt(a) ==> BehindAt(b)))
    && (b.powered && b.ledger.fates != a.ledger.fates ==>
         RecoverableAt(b) && (CommittedAt(b) || (BehindAt(b) && !reliable)))
    && (!a.ready ==> SameRetention(a, b))
  }

  /** The next boot finds the segments within any capacity as before. */
  ghost predicate SameRetention(a: Moment, b: Moment)
  {
    SoundFormat(a.format) && SoundFormat(b.format) ==>
      forall capacity :: DurablyRetained(a.format, a.files, capacity) ==> DurablyRetained(b.format, b.files, capacity)
  }

  lemma RetainedSizes(v: Moment, capacity: nat)
    requires SoundFormat(v.format) && DurablyRetained(v.format, v.files, capacity)
    ensures |Content(v.files, Segment(0))| <= capacity && |Content(v.files, Segment(1))| <= capacity
  {
  }

  lemma NothingTurned(reliable: bool, a: Moment)
    ensures Turned(reliable, a, a)
  {
  }

  lemma TurnedChain(reliable: bool, a: Moment, b: Moment, c: Moment)
    requires Turned(reliable, a, b) && Turned(reliable, b, c)
    ensures Turned(reliable, a, c)
  {
    hide RecoverableAt, CommittedAt, BehindAt, OrderlyAt, KeptAt, DropsUnknown;
  }

  /**
   With durable heads and order, or one uncommitted reset and nothing appended since, what the
   queue shows is what the next boot replays, in order and within capacity.
   */
  lemma LevelIsSafe(v: Moment)
    requires SoundFormat(v.format) && Shaped(v.metadata) && (CommittedAt(v) || BehindAt(v)) &&
             Counted(v.format, v.files, v.metadata)
    requires Explained(v.archive, v.files, v.ledger, View(v.format, v.files, v.metadata), v.metadata.dropped)
    ensures RecoverableAt(v) && (OrderlyAt(v) ==> KeptAt(v))
  {
    hide View, Replay, Boot, Explained, SoundFormat, Retained, DurablyRetained, Aligned, Behind;
    LevelReplays(v.format, v.files, v.metadata);
    if OrderlyAt(v) { LevelRetained(v.format, v.files, v.metadata, v.capacity); }
    SameCount(v);
  }

  lemma SameCount(v: Moment)
    requires Counted(v.format, v.files, v.metadata)
    ensures Boot(v.format, v.files).dropped == v.metadata.dropped
  {
  }

  /** What is pending after a step: what the queue shows or, once power is gone, what the next boot would replay. */
  ghost function PendingAt(v: Moment): seq<Payload>
    requires SoundFormat(v.format) && Shaped(v.metadata)
  {
    if v.powered then View(v.format, v.files, v.metadata) else Replay(v.format, v.files)
  }

  ghost function DroppedAt(v: Moment): uint32
  {
    if v.powered then v.metadata.dropped else Boot(v.format, v.files).dropped
  }

  ghost function OlderAt(v: Moment): seq<Payload>
    requires Shaped(v.metadata)
  {
    SegmentLive(v.format, v.files, v.metadata, Other(v.metadata.active))
  }

  ghost function NewerAt(v: Moment): seq<Payload>
    requires Shaped(v.metadata)
  {
    SegmentLive(v.format, v.files, v.metadata, v.metadata.active)
  }

  /** How `enqueue` of `p` can take the queue from one moment to another. */
  ghost predicate Enqueued(a: Moment, b: Moment, p: Payload, ok: bool, accepts: bool, rotates: bool, covered: bool)
    requires SoundFormat(a.format) && Shaped(a.metadata) && Shaped(b.metadata)
  {
    && b.format == a.format && b.archive == a.archive && b.capacity == a.capacity && b.ready == a.ready
    && SameSlots(a.files, b.files)
    && Tallied(a.format, a.files, a.metadata, b.files, b.metadata)
    && (!accepts ==> !ok && b.files == a.files && b.metadata == a.metadata)
    && (b.powered && accepts ==>
        CaptureOutcome(OlderAt(a), NewerAt(a), a.metadata.dropped, PendingAt(b), b.metadata.dropped, p, rotates))
    && (!b.powered && accepts && covered ==> EnqueueOutcome(a.format, a.files, a.metadata, p, rotates, b.files))
    && (b.powered ==> Counted(b.format, b.files, b.metadata) && (covered ==> Replay(b.format, b.files) == PendingAt(b)))
  }

  /**
   How an attempted append leaves memory and flash. An append that got through leaves them as they
   were, or level if it rotated first; a rotation that failed leaves memory ahead if it had switched
   segments; and a refused payload changes nothing.
   */
  ghost predicate Leaves(a: Moment, b: Moment, ok: bool, accepts: bool, rotates: bool, covered: bool, fault: Fault)
  {
    && (!accepts ==> !ok && b.files == a.files && b.metadata == a.metadata)
    && (b.powered && accepts && rotates && (ok || fault == AppendFailed) ==> CommittedAt(b))
    && (ok && CommittedAt(a) ==> CommittedAt(b)) && (!rotates ==> b.metadata.dropped == a.metadata.dropped)
    && (b.powered && !ok && fault != AppendFailed && (CommittedAt(a) || b.metadata.dropped != a.metadata.dropped) ==>
        if b.metadata.active == a.metadata.active then CommittedAt(b) else BehindAt(b))
    && (b.powered && !ok && fault != AppendFailed && covered && !CommittedAt(a) ==> BehindAt(b))
  }

  /** The account after an attempted capture, for as long as it can be kept. */
  ghost function LedgerAfter(a: Moment, b: Moment, p: Payload, covered: bool): Ledger
    requires SoundFormat(b.format) && Shaped(a.metadata) && Shaped(b.metadata)
  {
    if b.powered || (RecoverableAt(a) && covered) then AfterCapture(a.ledger, OlderAt(a), NewerAt(a), PendingAt(b), p)
      else a.ledger
  }

  /**
   What an attempted capture of `p` does to the account: it adds `p` or not, and marks some records
   as lost or none.
   */
  ghost predicate Captures(l: Ledger, n: Ledger, p: Payload, older: nat)
  {
    && Grown(l, n) && n.confirmed == l.confirmed && OnlyLosses(l.fates, n.fates)
    && (n.accepted == l.accepted || n.accepted == l.accepted + [p])
    && (|n.fates| == |l.fates| || |n.fates| == |l.fates| + older)
  }

  lemma CaptureStep(a: Moment, b: Moment, p: Payload, ok: bool, accepts: bool, rotates: bool, covered: bool)
    requires SoundFormat(a.format) && Shaped(a.metadata) && Shaped(b.metadata) && a.powered && b.ledger == a.ledger
    requires Counted(a.format, a.files, a.metadata) && p !in a.ledger.accepted
    requires Explained(a.archive, a.files, a.ledger, View(a.format, a.files, a.metadata), a.metadata.dropped)
    requires Enqueued(a, b, p, ok, accepts, rotates, covered)
    ensures var n := b.(ledger := LedgerAfter(a, b, p, covered));
      && Captures(a.ledger, n.ledger, p, |OlderAt(a)|)
      && (n.ledger.fates != a.ledger.fates ==> accepts && rotates && OlderAt(a) != [])
      && (b.powered ==> Explained(b.archive, b.files, n.ledger, PendingAt(b), b.metadata.dropped))
      && (b.powered ==> n.ledger.accepted == a.ledger.accepted + if p in PendingAt(b) then [p] else [])
      && (RecoverableAt(a) && covered ==> RecoverableAt(n)) && (DropsUnknown(a) && a.ready ==> DropsUnknown(n))
  {
    hide Live, LiveEnd, SegmentLive, Replay, Boot, Explained, SoundFormat, Aligned, CaptureOutcome, AfterCapture,
      SameSlots, EnqueueOutcome, Grown, OnlyLosses, Tallied, Counted, View;
    var l, older, newer, now, d := a.ledger, OlderAt(a), NewerAt(a), PendingAt(b), DroppedAt(b);
    var sound := RecoverableAt(a) && covered;
    OlderNewer(a);
    NothingLost(l);
    TallyGrows(a, b);
    DoubtStays(a, b);
    if sound {
      PendingUnique(a.archive, a.files, l, older + newer, a.metadata.dropped, Replay(a.format, a.files),
        Boot(a.format, a.files).dropped);
    }
    if b.powered || sound {
      PendingAccepted(a.archive, a.files, l, older + newer, a.metadata.dropped);
      OutcomeOf(a, b, p, ok, accepts, rotates, covered);
      CaptureAccounted(a.archive, a.files, b.files, l, older, newer, a.metadata.dropped, now, d, p, accepts && rotates);
    }
  }

  /** A payload that is refused leaves the account alone. */
  lemma RefusedCapture(a: Moment, b: Moment, p: Payload, ok: bool, rotates: bool, covered: bool)
    requires SoundFormat(a.format) && Shaped(a.metadata) && Shaped(b.metadata) && p !in a.ledger.accepted
    requires Explained(a.archive, a.files, a.ledger, View(a.format, a.files, a.metadata), a.metadata.dropped)
    requires Enqueued(a, b, p, ok, false, rotates, covered)
    ensures LedgerAfter(a, b, p, covered) == a.ledger
  {
    hide SegmentLive, Boot, Explained, Justified, SoundFormat, Tallied, Counted, SameSlots;
    OlderNewer(a);
    PendingAccepted(a.archive, a.files, a.ledger, OlderAt(a) + NewerAt(a), a.metadata.dropped);
    if RecoverableAt(a) && covered {
      PendingUnique(a.archive, a.files, a.ledger, OlderAt(a) + NewerAt(a), a.metadata.dropped,
        Replay(a.format, a.files), Boot(a.format, a.files).dropped);
    }
  }

  lemma OlderNewer(v: Moment)
    requires Shaped(v.metadata)
    ensures View(v.format, v.files, v.metadata) == OlderAt(v) + NewerAt(v)
  {
    hide SegmentLive;
  }

  lemma NothingLost(l: Ledger)
    ensures Grown(l, l) && OnlyLosses(l.fates, l.fates)
  {
  }

  lemma TallyGrows(a: Moment, b: Moment)
    requires Tallied(a.format, a.files, a.metadata, b.files, b.metadata) && Counted(a.format, a.files, a.metadata) &&
             b.format == a.format
    ensures DroppedAt(b) >= a.metadata.dropped && Boot(b.format, b.files).dropped >= a.metadata.dropped
    ensures Counted(b.format, b.files, b.metadata) ==> Boot(b.format, b.files).dropped == b.metadata.dropped
    ensures Boot(a.format, a.files).dropped == a.metadata.dropped
  {
  }

  lemma DoubtStays(a: Moment, b: Moment)
    requires Tallied(a.format, a.files, a.metadata, b.files, b.metadata) && b.format == a.format && b.ready == a.ready
    ensures DropsUnknown(a) && a.ready ==> DropsUnknown(b)
  {
  }

  /** However the attempt ended, it is one of a capture's outcomes. */
  lemma OutcomeOf(a: Moment, b: Moment, p: Payload, ok: bool, accepts: bool, rotates: bool, covered: bool)
    requires SoundFormat(a.format) && Shaped(a.metadata) && Shaped(b.metadata) &&
             Enqueued(a, b, p, ok, accepts, rotates, covered)
    requires b.powered || (covered && Replay(a.format, a.files) == OlderAt(a) + NewerAt(a))
    requires DroppedAt(b) >= a.metadata.dropped && View(a.format, a.files, a.metadata) == OlderAt(a) + NewerAt(a)
    ensures CaptureOutcome(OlderAt(a), NewerAt(a), a.metadata.dropped, PendingAt(b), DroppedAt(b), p, accepts &&
      rotates)
  {
    hide Replay, Boot, SegmentLive, SoundFormat, View, Tallied, Counted, SameSlots, Aligned;
  }
}
