/**
 The recovery archive for uploads the server permanently rejected: sixteen slots,
 filled once, each written beside, read back and renamed into place.
 */
module RejectedUploads {
  import opened Bytes
  import opened SegmentLog
  import opened Flash
  import opened QueueDisk

  const REJECTED_SLOTS := 16

  datatype Saved = Saved(payload: Payload, status: uint32)

  /** The encoding of an archived upload; `read` includes the checksum test. */
  datatype ArchiveFormat = ArchiveFormat(write: (Payload, uint32) -> bytes, read: bytes -> Option<Saved>)

  ghost predicate SoundArchive(fm: ArchiveFormat)
  {
    forall p, status :: Storable(p) ==>
      fm.write(p, status) != [] && fm.read(fm.write(p, status)) == Some(Saved(p, status))
  }

  /** Only these statuses say that the payload itself is at fault. */
  predicate PayloadRejected(status: int)
  {
    status == 400 || status == 413 || status == 422
  }

  /**
   A rejection of the payload itself: nothing that could pass, or that says something of the
   credential or the server.
   */
  lemma OnlyContentIsRejected(status: int)
    ensures status <= 399 || status in {401, 403, 404, 405, 408, 409, 425, 429} || status >= 500 ==>
      !PayloadRejected(status)
    ensures PayloadRejected(400) && PayloadRejected(413) && PayloadRejected(422)
  {
  }

  predicate Occupied(files: Files, slot: nat)
  {
    slot < REJECTED_SLOTS && Rejected(slot) in files
  }

  function Read(fm: ArchiveFormat, files: Files, slot: nat): Option<Saved>
  {
    if Occupied(files, slot) then fm.read(Content(files, Rejected(slot))) else None
  }

  ghost predicate Room(files: Files)
  {
    exists slot: nat :: slot < REJECTED_SLOTS && !Occupied(files, slot)
  }

  /** Slot `slot` holds a readable copy of exactly these bytes. */
  predicate Holds(fm: ArchiveFormat, files: Files, slot: nat, p: Payload)
  {
    Read(fm, files, slot).Some? && Read(fm, files, slot).value.payload == p
  }

  ghost predicate Archived(fm: ArchiveFormat, files: Files, p: Payload)
  {
    exists slot: nat :: Holds(fm, files, slot, p)
  }

  function OccupiedBelow(files: Files, n: nat): (count: nat)
    ensures count <= n
  {
    if n == 0 then 0 else OccupiedBelow(files, n - 1) + if Occupied(files, n - 1) then 1 else 0
  }

  /** A readable payload is held by at most one slot. */
  ghost predicate NoDuplicates(fm: ArchiveFormat, files: Files)
  {
    forall s: nat, t: nat, p: Payload :: Holds(fm, files, s, p) && Holds(fm, files, t, p) ==> s == t
  }

  /** Slots only ever gain a file, and only one that was free: nothing archived is lost or altered. */
  ghost predicate SlotsKept(a: Files, b: Files)
  {
    forall s: nat :: Rejected(s) in a ==> Rejected(s) in b && b[Rejected(s)] == a[Rejected(s)]
  }

  ghost predicate ArchiveOnly(a: Files, b: Files, slot: nat)
  {
    SameExcept(a, b, {RejectedTemporary, Rejected(slot)})
  }

  lemma {:induction false} OccupiedDiffers(a: Files, b: Files, slot: nat, n: nat)
    requires !Occupied(a, slot) && slot < REJECTED_SLOTS && Rejected(slot) in b && ArchiveOnly(a, b, slot)
    ensures OccupiedBelow(b, n) == OccupiedBelow(a, n) + if slot < n then 1 else 0
  {
    if n > 0 {
      OccupiedDiffers(a, b, slot, n - 1);
      assert n - 1 != slot ==> (Rejected(n - 1) in a <==> Rejected(n - 1) in b);
    }
  }

  lemma {:induction false} OccupiedSame(a: Files, b: Files, slot: nat, n: nat)
    requires ArchiveOnly(a, b, slot) && (Rejected(slot) in a <==> Rejected(slot) in b)
    ensures OccupiedBelow(b, n) == OccupiedBelow(a, n)
  {
    if n > 0 {
      OccupiedSame(a, b, slot, n - 1);
      assert n - 1 != slot ==> (Rejected(n - 1) in a <==> Rejected(n - 1) in b);
    }
  }

  /** One archive operation between files `a` and `b`, power cut included. */
  ghost predicate ArchiveStep(fm: ArchiveFormat, a: Files, b: Files)
  {
    && SlotsKept(a, b)
    && (NoDuplicates(fm, a) ==> NoDuplicates(fm, b))
    && (forall p: Path | !p.Rejected? && p != RejectedTemporary :: (p in a <==> p in b) &&
         Content(a, p) == Content(b, p))
  }

  lemma StepWithoutSlot(fm: ArchiveFormat, a: Files, b: Files)
    requires SameExcept(a, b, {RejectedTemporary})
    ensures ArchiveStep(fm, a, b) && (forall slot: nat :: Read(fm, a, slot) == Read(fm, b, slot))
    ensures OccupiedBelow(b, REJECTED_SLOTS) == OccupiedBelow(a, REJECTED_SLOTS)
  {
    forall slot: nat
      ensures (Rejected(slot) in a <==> Rejected(slot) in b) && Content(a, Rejected(slot)) == Content(b, Rejected(slot))
    {
      assert Rejected(slot) !in {RejectedTemporary};
    }
    assert forall s: nat, q: Payload :: Holds(fm, b, s, q) == Holds(fm, a, s, q);
    assert ArchiveOnly(a, b, REJECTED_SLOTS);
    OccupiedSame(a, b, REJECTED_SLOTS, REJECTED_SLOTS);
  }

  lemma StepIntoSlot(fm: ArchiveFormat, a: Files, b: Files, slot: nat, p: Payload)
    requires slot < REJECTED_SLOTS && !Occupied(a, slot) && ArchiveOnly(a, b, slot) && Holds(fm, b, slot, p)
    requires forall s: nat :: !Holds(fm, a, s, p)
    ensures ArchiveStep(fm, a, b) && Archived(fm, b, p)
    ensures OccupiedBelow(b, REJECTED_SLOTS) == OccupiedBelow(a, REJECTED_SLOTS) + 1
  {
    forall s: nat | s != slot
      ensures (Rejected(s) in a <==> Rejected(s) in b) && Content(a, Rejected(s)) == Content(b, Rejected(s)) &&
              Read(fm, a, s) == Read(fm, b, s)
    {
      assert Rejected(s) !in {RejectedTemporary, Rejected(slot)};
    }
    assert forall s: nat, q: Payload | s != slot :: Holds(fm, b, s, q) == Holds(fm, a, s, q);
    assert forall q: Payload :: Holds(fm, b, slot, q) <==> q == p;
    OccupiedDiffers(a, b, slot, REJECTED_SLOTS);
  }

  class Archive {
    const device: Device
    const format: ArchiveFormat
    var ready: bool
    var rejectedRecords: nat

    ghost predicate Valid()
      reads this, device
    {
      SoundArchive(format) && (ready ==> rejectedRecords == OccupiedBelow(device.files, REJECTED_SLOTS))
    }

    constructor (device: Device, format: ArchiveFormat)
      requires SoundArchive(format)
      ensures Valid() && !ready && this.device == device && this.format == format
    {
      this.device, this.format := device, format;
      ready, rejectedRecords := false, 0;
    }

    /** The end of a boot: count what is there. */
    method Begin()
      requires SoundArchive(format)
      modifies this
      ensures Valid() && ready
    {
      ready, rejectedRecords := true, 0;
      for slot := 0 to REJECTED_SLOTS
        invariant rejectedRecords == OccupiedBelow(device.files, slot) && ready
      {
        if Occupied(device.files, slot) {
          rejectedRecords := rejectedRecords + 1;
        }
      }
    }

    /** Look for a readable copy, remembering the first free slot on the way. */
    method FindSlot(payload: Payload) returns (held: bool, free: nat)
      ensures held ==> Archived(format, device.files, payload)
      ensures !held ==> forall s: nat :: !Holds(format, device.files, s, payload)
      ensures !held ==> free <= REJECTED_SLOTS
      ensures !held && free < REJECTED_SLOTS ==>
        !Occupied(device.files, free) && forall s: nat | s < free :: Occupied(device.files, s)
      ensures !held && free == REJECTED_SLOTS ==> forall s: nat | s < REJECTED_SLOTS :: Occupied(device.files, s)
    {
      free := REJECTED_SLOTS;
      for slot := 0 to REJECTED_SLOTS
        invariant forall s: nat | s < slot :: !Holds(format, device.files, s, payload)
        invariant free <= REJECTED_SLOTS && (free < REJECTED_SLOTS ==> free < slot && !Occupied(device.files, free))
        invariant free < REJECTED_SLOTS ==> forall s: nat | s < free :: Occupied(device.files, s)
        invariant free == REJECTED_SLOTS ==> forall s: nat | s < slot :: Occupied(device.files, s)
      {
        if !Occupied(device.files, slot) {
          if free == REJECTED_SLOTS {
            free := slot;
          }
        } else if Holds(format, device.files, slot, payload) {
          return true, free;
        }
      }
      held := false;
    }

    /** Write the copy beside the slots and read it back. */
    method WriteTemporary(payload: Payload, status: uint32) returns (ok: bool)
      requires SoundArchive(format) && Storable(payload)
      modifies device
      ensures device.powered ==> old(device.powered)
      ensures SameExcept(old(device.files), device.files, {RejectedTemporary})
      ensures ok ==>
        device.powered && RejectedTemporary in device.files &&
        device.files[RejectedTemporary] == format.write(payload, status)
      ensures device.reliable && old(device.powered) ==> ok
    {
      ok := device.Truncate(RejectedTemporary);
      if ok {
        ghost var written;
        ok, written := device.Append(RejectedTemporary, format.write(payload, status));
      }
      assert [] + format.write(payload, status) == format.write(payload, status);
      ok := ok && format.read(Content(device.files, RejectedTemporary)) == Some(Saved(payload, status));
    }

    /**
     Archive a rejected payload. However it ends, no slot that was occupied changes and no
     payload gets a second readable copy; success means that a readable copy exists.
     */
    method PreserveRejected(payload: Payload, status: uint32) returns (ok: bool)
      requires Valid()
      modifies device, this`rejectedRecords
      ensures device.powered ==> old(device.powered)
      ensures ArchiveStep(format, old(device.files), device.files)
      ensures ok ==>
        ready && PayloadRejected(status) && Archived(format, device.files, payload) &&
        (old(device.powered) ==> device.powered)
      ensures device.powered ==> Valid()
      ensures old(Archived(format, device.files, payload)) ==>
        device.files == old(device.files) && rejectedRecords == old(rejectedRecords)
      ensures old(Archived(format, device.files, payload)) && ready && Storable(payload) && PayloadRejected(status) ==>
        ok
      ensures !ok && device.powered ==> rejectedRecords == old(rejectedRecords)
      ensures device.reliable && old(device.powered && Room(device.files)) ==>
        ready && Storable(payload) && PayloadRejected(status) ==> ok
      ensures device.reliable && old(device.powered) ==> device.powered
    {
      hide ArchiveStep, SameExcept, OccupiedBelow, SoundArchive;
      ghost var files0 := device.files;
      StepItself(format, files0);
      if !ready || !Storable(payload) || !PayloadRejected(status) {
        return false;
      }
      var held, free := FindSlot(payload);
      if held {
        return true;
      }
      if free == REJECTED_SLOTS {
        return false;
      }
      ok := WriteTemporary(payload, status);
      ghost var files1 := device.files;
      StepWithoutSlot(format, files0, files1);
      if !ok {
        return;
      }
      ok := device.Rename(RejectedTemporary, Rejected(free));
      if device.files != files1 {
        SlotFilled(format, files0, files1, device.files, free, payload, status);
        StepIntoSlot(format, files0, device.files, free, payload);
      }
      if ok {
        rejectedRecords := rejectedRecords + 1;
      }
    }
  }

  lemma StepItself(fm: ArchiveFormat, a: Files)
    ensures ArchiveStep(fm, a, a)
  {
  }

  lemma SlotFilled(fm: ArchiveFormat, a: Files, b: Files, c: Files, slot: nat, p: Payload, status: uint32)
    requires SoundArchive(fm) && Storable(p) && slot < REJECTED_SLOTS && SameExcept(a, b, {RejectedTemporary})
    requires RejectedTemporary in b && b[RejectedTemporary] == fm.write(p, status) &&
             c == Renamed(b, RejectedTemporary, Rejected(slot))
    ensures ArchiveOnly(a, c, slot) && Holds(fm, c, slot, p)
  {
  }
}
