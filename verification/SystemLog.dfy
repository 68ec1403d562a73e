/**
 The logger's system log: a bounded queue of lines drained to the SD card one at a
 time. A dash event counts as received only once its line has been flushed, and the
 last one flushed is found again in the log files after a restart.
 */
module SystemLog {
  import opened Bytes
  import opened SystemEvents

  const RING := 64

  datatype Line = Line(fromDash: bool, event: Event)

  /** Length of the C string stored in the code field. */
  function CodeLength(c: Code, i: nat): (n: nat)
    requires i <= 32
    ensures i <= n <= 32
    decreases 32 - i
  {
    if i == 32 || c[i] == 0 then i else CodeLength(c, i + 1)
  }

  predicate SafeCode(c: Code)
  {
    var n := CodeLength(c, 0);
    1 <= n <= 31 && forall i | 0 <= i < n :: 97 <= c[i] <= 122 || 48 <= c[i] <= 57 || c[i] == 95
  }

  /** A text as the code field holds it: its first 31 characters, then zeros. */
  function CodeOf(s: string): Code
  {
    seq(32, i => if 0 <= i < |s| && i < 31 then s[i] as int % 256 else 0)
  }

  predicate Lower(c: char)
  {
    'a' <= c <= 'z' || '0' <= c <= '9' || c == '_'
  }

  lemma {:induction false} LengthOfCode(s: string, i: nat)
    requires i <= |s| <= 31 && forall k | 0 <= k < |s| :: 0 < s[k] as int < 256
    ensures CodeLength(CodeOf(s), i) == |s|
    decreases |s| - i
  {
    if i < |s| {
      LengthOfCode(s, i + 1);
    }
  }

  /** Of texts that fit, exactly those of lower-case letters, digits and underscores are accepted. */
  lemma NamesAreSafe(s: string)
    requires |s| <= 31 && forall k | 0 <= k < |s| :: 0 < s[k] as int < 256
    ensures SafeCode(CodeOf(s)) <==> s != "" && forall k | 0 <= k < |s| :: Lower(s[k])
  {
    LengthOfCode(s, 0);
    hide CodeLength;
    assert forall i | 0 <= i < |s| :: CodeOf(s)[i] == s[i] as int;
  }

  /** The codes of the events a dash records: its own, those of requests and updates, and its sensors' states. */
  const OWN_CODES := ["boot", "logger_connected", "logger_disconnected", "wifi_connected", "wifi_disconnected"]
  const REQUEST_CODES := [
    "http_get_diagnostics", "http_get_dashboard", "http_status_poll_summary", "http_post_settings"]
  const UPDATE_CODES := ["ota_started", "ota_complete", "ota_failed"]
  const STATE_CODES := ["no_sample", "metadata_incomplete", "disconnected", "stale", "sensor_fault", "live"]

  ghost predicate Name(s: string)
  {
    1 <= |s| <= 31 && forall k | 0 <= k < |s| :: Lower(s[k]) && 0 < s[k] as int < 256
  }

  lemma NameIsSafe(s: string)
    requires Name(s)
    ensures SafeCode(CodeOf(s))
  {
    NamesAreSafe(s);
  }

  lemma OwnCodesAreNames()
    ensures forall s | s in OWN_CODES :: Name(s)
  {
  }

  lemma RequestCodesAreNames()
    ensures forall s | s in REQUEST_CODES :: Name(s)
  {
  }

  lemma UpdateCodesAreNames()
    ensures forall s | s in UPDATE_CODES :: Name(s)
  {
  }

  lemma StateCodesAreNames()
    ensures forall s | s in STATE_CODES :: Name(s)
  {
  }

  /** The logger takes every one of them: no event of the dash can block the queue by its code. */
  lemma DashCodesAreSafe(s: string)
    requires s in OWN_CODES + REQUEST_CODES + UPDATE_CODES + STATE_CODES
    ensures SafeCode(CodeOf(s))
  {
    hide Name, CodeOf, SafeCode;
    OwnCodesAreNames();
    RequestCodesAreNames();
    UpdateCodesAreNames();
    StateCodesAreNames();
    assert s in OWN_CODES || s in REQUEST_CODES || s in UPDATE_CODES || s in STATE_CODES;
    NameIsSafe(s);
  }

  ghost function DashPart(lines: seq<Line>): seq<Event>
  {
    if lines == [] then [] else (if lines[0].fromDash then [lines[0].event] else []) + DashPart(lines[1..])
  }

  lemma {:induction false} DashPartAppend(lines: seq<Line>, line: Line)
    ensures DashPart(lines + [line]) == DashPart(lines) + if line.fromDash then [line.event] else []
    decreases |lines|
  {
    if lines == [] {
      assert [] + [line] == [line] && [line][1..] == [];
    } else {
      var all, first := lines + [line], if lines[0].fromDash then [lines[0].event] else [];
      var last := if line.fromDash then [line.event] else [];
      assert all[1..] == lines[1..] + [line] && all[0] == lines[0];
      DashPartAppend(lines[1..], line);
      assert DashPart(all) == first + (DashPart(lines[1..]) + last) == first + DashPart(lines[1..]) + last;
    }
  }

  /** The number of the last event logged, 0 if none. */
  function LastSeq(logged: seq<Event>): uint32
  {
    if logged == [] then 0 else logged[|logged| - 1].seqno
  }

  /** Numbers strictly increase: nothing is logged twice, nothing out of order. */
  ghost predicate Increasing(events: seq<Event>)
  {
    forall i, j | 0 <= i < j < |events| :: events[i].seqno < events[j].seqno
  }

  /** The file ends with a line of this boot of the dash. */
  predicate EndsWith(file: seq<Event>, boot: uint32)
  {
    file != [] && file[|file| - 1].boot == boot
  }

  /** The files agree with the history: tails of this boot are logged events, and one of them is the last. */
  ghost predicate Recorded(files: seq<seq<Event>>, boot: uint32, logged: seq<Event>)
  {
    && Increasing(logged) && (forall e | e in logged :: e.boot == boot && e.seqno > 0)
    && (forall i | 0 <= i < |files| :: EndsWith(files[i], boot) ==> files[i][|files[i]| - 1] in logged)
    && (logged != [] ==>
         exists i :: 0 <= i < |files| && EndsWith(files[i], boot) && files[i][|files[i]| - 1] == logged[|logged| - 1])
  }

  lemma LastIsGreatest(logged: seq<Event>, e: Event)
    requires Increasing(logged) && e in logged
    ensures e.seqno <= LastSeq(logged)
  {
  }

  lemma AppendedRecord(files: seq<seq<Event>>, boot: uint32, logged: seq<Event>, target: nat, e: Event)
    requires Recorded(files, boot, logged) && target < |files| && e.boot == boot && e.seqno > LastSeq(logged)
    ensures Recorded(files[target := files[target] + [e]], boot, logged + [e])
  {
    var after, history := files[target := files[target] + [e]], logged + [e];
    forall i, j | 0 <= i < j < |history| ensures history[i].seqno < history[j].seqno {
      if j == |logged| { LastIsGreatest(logged, logged[i]); }
    }
    assert after[target][|after[target]| - 1] == e;
    assert EndsWith(after[target], boot);
  }

  /** Pruning may take any file but the one just written. */
  lemma PrunedRecord(files: seq<seq<Event>>, boot: uint32, logged: seq<Event>, target: nat, pruned: nat)
    requires Recorded(files, boot, logged) && target < |files| && pruned < |files| && pruned != target
    requires logged != [] ==>
      EndsWith(files[target], boot) && files[target][|files[target]| - 1] == logged[|logged| - 1]
    ensures Recorded(files[pruned := []], boot, logged)
  {
    var after := files[pruned := []];
    assert after[target] == files[target];
  }

  function RingSlot(popped: uint32, i: nat): (slot: nat)
    ensures slot < RING
  {
    (popped + i) % RING
  }

  /** The place a new line goes to is none of those in use. */
  lemma FreshPosition(popped: uint32, n: nat)
    requires n < RING
    ensures (popped + n) % WORD % RING == RingSlot(popped, n)
    ensures forall i: nat | i < n :: RingSlot(popped, i) != RingSlot(popped, n)
  {
    RingPosition(popped, n);
    forall i: nat | i < n ensures RingSlot(popped, i) != RingSlot(popped, n) {
      RingOffset(popped, i);
      RingOffset(popped, n);
      SlotsDiffer(RING, popped % RING, i, n);
    }
  }

  /** The lines waiting to be flushed: the event queue decides what fits, a parallel ring keeps the texts. */
  class LineRing {
    const pending: RingQueue<Event>
    const lines: array<Line>
    var pushed: uint32
    var popped: uint32
    ghost var waiting: seq<Line>

    function Position(i: nat): (slot: nat)
      reads this`popped
      ensures slot < RING
    {
      RingSlot(popped, i)
    }

    ghost predicate Valid()
      reads this, pending, pending.entries, lines
    {
      && pending.Valid() && pending.entries.Length == RING && lines.Length == RING
      && pending.count == |waiting| && pushed == (popped + |waiting|) % WORD
      && (forall i: nat | i < |waiting| :: lines[Position(i)] == waiting[i])
    }

    ghost function Repr(): set<object>
    {
      {this, pending, pending.entries, lines}
    }

    constructor ()
      ensures Valid() && waiting == [] && fresh(pending) && fresh(pending.entries) && fresh(lines)
    {
      pending := new RingQueue<Event>(RING);
      lines := new Line[RING];
      pushed, popped, waiting := 0, 0, [];
    }

    /** Take a line in, unless the queue is full. */
    method Enqueue(line: Line) returns (ok: bool)
      requires Valid()
      modifies Repr()
      ensures Valid() && ok == (|old(waiting)| < RING)
      ensures waiting == if ok then old(waiting) + [line] else old(waiting)
    {
      ghost var n := |waiting|;
      hide RingQueue.Contents, RingQueue.Slot;
      ok := pending.Push(line.event);
      if ok {
        FreshPosition(popped, n);
        lines[pushed % RING] := line;
        pushed, waiting := (pushed + 1) % WORD, waiting + [line];
        WordStep(popped, n);
      }
    }

    method Front() returns (found: bool, line: Line)
      requires Valid()
      ensures found == (waiting != []) && (found ==> line == waiting[0])
    {
      line := lines[popped % RING];
      found := pending.count > 0;
      assert found ==> lines[Position(0)] == waiting[0];
    }

    /** The front line has been flushed. */
    method Dequeue()
      requires Valid() && waiting != []
      modifies Repr()
      ensures Valid() && waiting == old(waiting)[1..]
    {
      ghost var before, p := waiting, popped;
      pending.Pop();
      popped, waiting := (popped + 1) % WORD, waiting[1..];
      forall i: nat | i < |waiting| ensures lines[Position(i)] == waiting[i] {
        RingShift(p, i);
        assert waiting[i] == before[i + 1];
      }
      WordShift(p, |waiting|);
    }
  }

  class SystemLog {
    var ring: LineRing
    var dashBoot: uint32
    var dashSeq: uint32
    var dashPendingBoot: uint32
    var dashPendingSeq: uint32
    var dashKnown: bool
    var ready: bool
    /** The dash's log files on the card, each a list of lines; a pruned file is empty. */
    var files: seq<seq<Event>>
    /** The running boot of the dash, and everything of it that was ever flushed. */
    ghost const boot: uint32
    ghost var logged: seq<Event>

    ghost predicate Valid()
      reads this, ring, ring.Repr()
    {
      ring.Valid() && Recorded(files, boot, logged) && Settled(DashPart(ring.waiting))
    }

    /** What the acknowledgement state says about the one dash event that may be waiting. */
    ghost predicate Settled(held: seq<Event>)
      reads this
    {
      && (if dashPendingSeq == 0 then held == []
          else
            && |held| == 1 && dashPendingSeq == held[0].seqno > LastSeq(logged)
            && dashPendingBoot == held[0].boot == boot)
      && (dashKnown ==> dashSeq == LastSeq(logged) && (logged != [] ==> dashBoot == boot))
      && (!dashKnown ==> dashSeq == 0 && dashPendingSeq == 0)
    }

    /** The dash event taken in but not yet flushed, if any. */
    ghost function Held(): seq<Event>
      reads this, ring
    {
      DashPart(ring.waiting)
    }

    constructor (files: seq<seq<Event>>, ghost boot: uint32)
      requires forall i | 0 <= i < |files| :: !EndsWith(files[i], boot)
      ensures Valid() && fresh(ring) && fresh(ring.Repr()) && ring.waiting == [] && logged == []
      ensures this.files == files && this.boot == boot
    {
      ring := new LineRing();
      dashBoot, dashSeq, dashPendingBoot, dashPendingSeq := 0, 0, 0, 0;
      dashKnown, ready := false, false;
      this.files, this.boot, logged := files, boot, [];
    }

    /** One of the logger's own events. */
    method Add(event: Event)
      requires Valid()
      modifies ring.Repr()
      ensures Valid() && Held() == old(Held())
      ensures ring.waiting == old(ring.waiting) +
        if SafeCode(event.code) && |old(ring.waiting)| < RING then [Line(false, event)] else []
    {
      hide Recorded, Increasing, DashPart;
      if SafeCode(event.code) {
        ghost var before := ring.waiting;
        var ok := ring.Enqueue(Line(false, event));
        DashPartAppend(before, Line(false, event));
      }
    }

    /** The greatest number among the tails of files that end with this boot. */
    method RecoverTail(boot: uint32) returns (found: bool, last: uint32)
      ensures found <==> exists i :: 0 <= i < |files| && EndsWith(files[i], boot)
      ensures !found ==> last == 0
      ensures forall i | 0 <= i < |files| && EndsWith(files[i], boot) :: files[i][|files[i]| - 1].seqno <= last
      ensures found ==>
        exists i :: 0 <= i < |files| && EndsWith(files[i], boot) && files[i][|files[i]| - 1].seqno == last
    {
      found, last := false, 0;
      for k := 0 to |files|
        invariant found <==> exists i :: 0 <= i < k && EndsWith(files[i], boot)
        invariant !found ==> last == 0
        invariant forall i | 0 <= i < k && EndsWith(files[i], boot) :: files[i][|files[i]| - 1].seqno <= last
        invariant found ==> exists i :: 0 <= i < k && EndsWith(files[i], boot) && files[i][|files[i]| - 1].seqno == last
      {
        if EndsWith(files[k], boot) {
          var tail := files[k][|files[k]| - 1].seqno;
          if !found || tail > last {
            last := tail;
            assert EndsWith(files[k], boot) && files[k][|files[k]| - 1].seqno == last;
          }
          found := true;
        }
      }
    }

    /** The tails found are the last event logged, whatever the order of the files. */
    lemma TailIsLast(found: bool, last: uint32)
      requires Recorded(files, boot, logged)
      requires found <==> exists i :: 0 <= i < |files| && EndsWith(files[i], boot)
      requires !found ==> last == 0
      requires forall i | 0 <= i < |files| && EndsWith(files[i], boot) :: files[i][|files[i]| - 1].seqno <= last
      requires found ==>
        exists i :: 0 <= i < |files| && EndsWith(files[i], boot) && files[i][|files[i]| - 1].seqno == last
      ensures last == LastSeq(logged) && (found <==> logged != [])
    {
      if found {
        var i :| 0 <= i < |files| && EndsWith(files[i], boot) && files[i][|files[i]| - 1].seqno == last;
        LastIsGreatest(logged, files[i][|files[i]| - 1]);
      }
    }

    /** The greatest number the files end with is that of the last event logged; it is looked up once. */
    method KnowDash(from: uint32)
      requires Valid() && from == boot
      modifies this`dashBoot, this`dashSeq, this`dashKnown
      ensures Valid() && dashKnown
    {
      hide Recorded, Increasing, DashPart;
      if !dashKnown {
        var found, last := RecoverTail(from);
        TailIsLast(found, last);
        if found {
          dashBoot, dashSeq := from, if last > dashSeq then last else dashSeq;
        }
        dashKnown := true;
      }
    }

    /**
     A dash event has arrived. True, and so an acknowledgement, only for a number that has
     been flushed already; a newer one is at most taken into memory, one at a time.
     */
    method AcceptDash(e: Event) returns (acknowledge: bool)
      requires Valid() && e.boot == boot
      modifies this`dashBoot, this`dashSeq, this`dashPendingBoot, this`dashPendingSeq, this`dashKnown, ring.Repr()
      ensures Valid()
      ensures acknowledge <==> ready && e.version == 1 && SafeCode(e.code) && 0 < e.seqno <= LastSeq(logged)
      ensures Held() == old(Held()) ||
              (old(Held()) == [] && Held() == [e] && e.version == 1 && e.seqno > LastSeq(logged))
      ensures ready && e.version == 1 && SafeCode(e.code) && e.seqno > LastSeq(logged) &&
              old(Held() == [] && |ring.waiting| < RING)
        ==> Held() == [e]
      ensures ring.waiting == old(ring.waiting) ||
              (Held() != old(Held()) && ring.waiting == old(ring.waiting) + [Line(true, e)])
    {
      hide Recorded, Increasing, DashPart, SafeCode, LineRing.Valid;
      if e.version != 1 || !SafeCode(e.code) || e.seqno == 0 {
        return false;
      }
      if !ready {
        return false;
      }
      KnowDash(e.boot);
      if e.boot == dashBoot && e.seqno <= dashSeq {
        return true;
      }
      if dashPendingSeq != 0 {
        return false;
      }
      ghost var before := ring.waiting;
      var ok := ring.Enqueue(Line(true, e));
      if !ok {
        return false;
      }
      DashPartAppend(before, Line(true, e));
      dashPendingBoot, dashPendingSeq := e.boot, e.seqno;
      acknowledge := false;
    }

    /**
     One turn: flush the front line to whichever file is current, and only then forget it.
     `writes` says whether the card takes the line; a write is whole or absent. After one that
     starts a file, another may be pruned.
     */
    method Loop(sdReady: bool, writes: bool, target: nat, pruned: nat)
      requires Valid() && target < |files| && pruned < |files|
      modifies this, ring.Repr()
      ensures Valid() && ready == sdReady && ring == old(ring) && |files| == |old(files)|
      ensures logged == old(logged) || (sdReady && old(Held()) != [] && logged == old(logged) + [old(Held())[0]])
      ensures Held() == if logged == old(logged) then old(Held()) else []
      ensures ring.waiting == if sdReady && writes && old(ring.waiting) != [] then old(ring.waiting)[1..]
        else old(ring.waiting)
      ensures sdReady && writes && old(ring.waiting) != [] && old(ring.waiting)[0].fromDash ==>
        logged == old(logged) + [old(ring.waiting)[0].event]
    {
      hide Recorded, Increasing, DashPart, LineRing.Valid;
      ready := sdReady;
      var found, line := ring.Front();
      if !found || !ready {
        return;
      }
      if !writes {
        return;
      }
      DashPartFront(ring.waiting);
      if line.fromDash {
        Flush(line.event, target, pruned);
      }
      ring.Dequeue();
    }

    /** The line is on the card: acknowledged from now on. */
    method Flush(e: Event, target: nat, pruned: nat)
      requires Valid() && Held() == [e] && target < |files| && pruned < |files|
      modifies this`files, this`logged, this`dashBoot, this`dashSeq, this`dashPendingSeq
      ensures Recorded(files, boot, logged) && Settled([]) && |files| == |old(files)|
      ensures logged == old(logged) + [e]
      ensures var written := old(files)[target := old(files)[target] + [e]];
        files == written || (pruned != target && files == written[pruned := []])
    {
      hide Recorded, Increasing, DashPart, LineRing.Valid;
      AppendedRecord(files, boot, logged, target, e);
      files, logged := files[target := files[target] + [e]], logged + [e];
      dashBoot, dashSeq, dashPendingSeq := dashPendingBoot, dashPendingSeq, 0;
      var prune: bool := *;
      if prune && pruned != target {
        PrunedRecord(files, boot, logged, target, pruned);
        files := files[pruned := []];
      }
    }

    /** The logger restarts: memory is lost, the card is not. */
    method Restart()
      requires Recorded(files, boot, logged)
      modifies this`ring, this`dashBoot, this`dashSeq, this`dashPendingBoot, this`dashPendingSeq, this`dashKnown,
        this`ready
      ensures Valid() && fresh(ring) && fresh(ring.Repr()) && ring.waiting == []
      ensures !ready && !dashKnown && dashSeq == 0 && dashPendingSeq == 0
    {
      hide Recorded, Increasing;
      ring := new LineRing();
      dashBoot, dashSeq, dashPendingBoot, dashPendingSeq := 0, 0, 0, 0;
      dashKnown, ready := false, false;
    }
  }

  lemma DashPartFront(lines: seq<Line>)
    requires lines != []
    ensures DashPart(lines) == (if lines[0].fromDash then [lines[0].event] else []) + DashPart(lines[1..])
  {
  }

  lemma RingPosition(p: uint32, n: nat)
    requires n <= RING
    ensures ((p + n) % WORD) % RING == (p + n) % RING
  {
    if p + n >= WORD {
      assert (p + n) % WORD == p + n - WORD;
      assert WORD == RING * 0x400_0000;
      assert (p + n - WORD) % RING == (p + n) % RING;
    }
  }

  lemma RingOffset(p: uint32, n: nat)
    ensures (p % RING + n) % RING == (p + n) % RING
  {
  }

  lemma WordStep(p: uint32, n: nat)
    ensures ((p + n) % WORD + 1) % WORD == (p + (n + 1)) % WORD
  {
  }

  lemma WordShift(p: uint32, n: nat)
    ensures ((p + 1) % WORD + n) % WORD == (p + (n + 1)) % WORD
  {
  }

  lemma RingShift(p: uint32, i: nat)
    requires i < RING
    ensures ((p + 1) % WORD + i) % RING == (p + (i + 1)) % RING
  {
    if p + 1 == WORD {
      assert WORD == RING * 0x400_0000;
      assert (WORD + i) % RING == i % RING;
    }
  }
}
