/**
 The logger's flash file system as crash-safety sees it: whole files, steps that
 may fail, and a power supply that may go at any step, also between two bytes of
 an append. Once power is gone every later step of the same boot does nothing and
 fails, so whatever holds of `files` when an operation returns holds at a power
 cut anywhere inside it.
 */
module Flash {
  import opened Bytes

  datatype Path =
    | Metadata | MetadataTemporary | SegmentRepair
    | Segment(index: nat) | Quarantine(index: nat)
    | RejectedTemporary | Rejected(slot: nat)

  type Files = map<Path, bytes>

  function Content(files: Files, p: Path): bytes
  {
    if p in files then files[p] else []
  }

  /** The two file systems hold the same files apart from those listed. */
  ghost predicate SameExcept(a: Files, b: Files, listed: set<Path>)
  {
    forall p | p !in listed :: (p in a <==> p in b) && Content(a, p) == Content(b, p)
  }

  /** The archive of rejected uploads is the same in both. */
  ghost predicate SameSlots(a: Files, b: Files)
  {
    forall slot: nat ::
      (Rejected(slot) in a <==> Rejected(slot) in b) && Content(a, Rejected(slot)) == Content(b, Rejected(slot))
  }

  lemma SlotsUntouched(a: Files, b: Files, listed: set<Path>)
    requires SameExcept(a, b, listed) && forall slot: nat :: Rejected(slot) !in listed
    ensures SameSlots(a, b)
  {
  }

  lemma SlotsItself(a: Files)
    ensures SameSlots(a, a)
  {
  }

  lemma SlotsChain(a: Files, b: Files, c: Files)
    requires SameSlots(a, b) && SameSlots(b, c)
    ensures SameSlots(a, c)
  {
  }

  lemma Unchanged(a: Files, listed: set<Path>)
    ensures SameExcept(a, a, listed)
  {
  }

  lemma SameExceptChain(a: Files, b: Files, c: Files, listed: set<Path>)
    requires SameExcept(a, b, listed) && SameExcept(b, c, listed)
    ensures SameExcept(a, c, listed)
  {
  }

  class Device {
    var files: Files
    var powered: bool
    /** No step fails and power never goes: what operations then achieve is stated too. */
    const reliable: bool

    constructor (files: Files, reliable: bool)
      ensures this.files == files && powered && this.reliable == reliable
    {
      this.files, this.reliable := files, reliable;
      powered := true;
    }

    /** A new boot: power is back and the files are what the cut left. */
    method Restart()
      modifies this`powered
      ensures powered
    {
      powered := true;
    }

    /** Power may go before, during or after any step. */
    method Cut() returns (before: bool, after: bool)
      modifies this`powered
      ensures powered == (old(powered) && !before && !after)
      ensures !old(powered) ==> before
      ensures reliable && old(powered) ==> powered
    {
      before, after := *, *;
      before, after := (before && !reliable) || !powered, after && !reliable;
      powered := powered && !before && !after;
    }

    /** Open for writing, which empties the file; on failure the file is as it was. */
    method Truncate(p: Path) returns (ok: bool)
      modifies this
      ensures powered ==> old(powered)
      ensures !old(powered) ==> files == old(files)
      ensures ok ==> powered && files == old(files)[p := []]
      ensures !ok ==> files == old(files) || (!powered && files == old(files)[p := []])
      ensures reliable && old(powered) ==> ok
    {
      var before, after := Cut();
      ok := *;
      ok := ok || reliable;
      if before || !ok {
        return false;
      }
      files := files[p := []];
      ok := !after;
    }

    /** Append, flush and close. A failure or a cut leaves some prefix of the data. */
    method Append(p: Path, data: bytes) returns (ok: bool, ghost written: bytes)
      requires data != []
      modifies this
      ensures powered ==> old(powered)
      ensures !old(powered) ==> files == old(files)
      ensures written <= data
      ensures ok ==> powered && written == data
      ensures powered && written == data ==> ok
      ensures written != [] || ok ==> files == old(files)[p := Content(old(files), p) + written]
      ensures files == old(files) || files == old(files)[p := Content(old(files), p) + written]
      ensures reliable && old(powered) ==> ok
    {
      var before, after := Cut();
      var usable: bool := *;
      if before || !(usable || reliable) {
        return false, [];
      }
      var length :| 0 <= length <= |data|;
      if reliable {
        length := |data|;
      }
      files := files[p := Content(files, p) + data[..length]];
      written := data[..length];
      ok := !after && length == |data|;
    }

    /** Replace `to` by `from` in one atomic step. */
    method Rename(from: Path, to: Path) returns (ok: bool)
      modifies this
      ensures powered ==> old(powered)
      ensures !old(powered) ==> files == old(files)
      ensures ok ==> powered && from in old(files) && files == Renamed(old(files), from, to)
      ensures !ok ==> files == old(files) || (!powered && from in old(files) && files == Renamed(old(files), from, to))
      ensures reliable && old(powered) && from in old(files) ==> ok
    {
      var before, after := Cut();
      ok := *;
      ok := ok || reliable;
      if before || !ok || from !in files {
        return false;
      }
      files := Renamed(files, from, to);
      ok := !after;
    }

    /** Remove if it is there; the firmware ignores whether that worked. */
    method Remove(p: Path)
      modifies this
      ensures powered ==> old(powered)
      ensures files == old(files) || (old(powered) && files == old(files) - {p})
      ensures reliable && old(powered) ==> powered && files == old(files) - {p}
    {
      var before, after := Cut();
      var ok: bool := *;
      if !before && (ok || reliable) {
        files := files - {p};
      }
    }
  }

  function Renamed(files: Files, from: Path, to: Path): Files
    requires from in files
  {
    (files - {from})[to := files[from]]
  }
}
