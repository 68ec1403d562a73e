/**
 The file that holds one archived upload: magic, length, checksum and HTTP status,
 then the payload and nothing else. A sound archive format, whatever the checksum.
 */
module ArchiveEncoding {
  import opened Bytes
  import opened SegmentLog
  import opened QueueDisk
  import opened QueueFormat
  import opened RejectedUploads

  const REJECTED_MAGIC: uint32 := 0x52454A31
  const ARCHIVE_HEADER_BYTES := 16

  function WriteArchived(hash: Hash, p: Payload, status: uint32): bytes
  {
    if |p| < WORD then Le32(REJECTED_MAGIC) + Le32(|p|) + Le32(hash(p)) + Le32(status) + p else []
  }

  function ReadArchived(hash: Hash, b: bytes): Option<Saved>
  {
    if && |b| >= ARCHIVE_HEADER_BYTES && Get32(b, 0) == REJECTED_MAGIC
       && Get32(b, 4) != 0 && Get32(b, 4) <= MAXIMUM_PAYLOAD_BYTES && |b| == ARCHIVE_HEADER_BYTES + Get32(b, 4)
       && Get32(b, 8) == hash(b[ARCHIVE_HEADER_BYTES..])
    then Some(Saved(b[ARCHIVE_HEADER_BYTES..], Get32(b, 12)))
    else None
  }

  function Archiving(hash: Hash): ArchiveFormat
  {
    ArchiveFormat((p, status) => WriteArchived(hash, p, status), b => ReadArchived(hash, b))
  }

  lemma ArchivedRoundTrip(hash: Hash, p: Payload, status: uint32)
    requires Storable(p)
    ensures ReadArchived(hash, WriteArchived(hash, p, status)) == Some(Saved(p, status)) &&
            WriteArchived(hash, p, status) != []
  {
    hide Le32, Get32;
    var w0, w1, w2, w3 := Le32(REJECTED_MAGIC), Le32(|p|), Le32(hash(p)), Le32(status);
    var b := WriteArchived(hash, p, status);
    var r2 := w3 + p;
    var r1 := w2 + r2;
    assert b == [] + w0 + (w1 + r1);
    assert b == w0 + w1 + r1;
    assert b == (w0 + w1) + w2 + r2;
    assert b == (w0 + w1 + w2) + w3 + p;
    WordAt(b, [], REJECTED_MAGIC, w1 + r1);
    WordAt(b, w0, |p|, r1);
    WordAt(b, w0 + w1, hash(p), r2);
    WordAt(b, w0 + w1 + w2, status, p);
    assert b[ARCHIVE_HEADER_BYTES..] == p;
  }

  /** What reads back as an archived upload is exactly what archiving it would have written: one file, one meaning. */
  lemma ArchivedIsCanonical(hash: Hash, b: bytes)
    requires ReadArchived(hash, b).Some?
    ensures var saved := ReadArchived(hash, b).value;
      Storable(saved.payload) && b == WriteArchived(hash, saved.payload, saved.status)
  {
    hide Le32, Get32;
    Le32Get32(b, 0);
    Le32Get32(b, 4);
    Le32Get32(b, 8);
    Le32Get32(b, 12);
    assert b == b[0..4] + b[4..8] + b[8..12] + b[12..16] + b[16..];
  }

  lemma ArchivingIsSound(hash: Hash)
    ensures SoundArchive(Archiving(hash))
  {
    hide WriteArchived, ReadArchived;
    forall p, status | Storable(p)
      ensures Archiving(hash).write(p, status) != [] &&
              Archiving(hash).read(Archiving(hash).write(p, status)) == Some(Saved(p, status))
    {
      ArchivedRoundTrip(hash, p, status);
    }
  }
}
