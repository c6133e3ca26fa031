/** What the upload handlers and the file store of pkg/tus keep, and the decisions they take on it. */
module TusStore {
  import opened Basics

  type Id = string

  /** The .info file. The offset is not in it: GetUpload takes it from the length of the bin file. */
  datatype FileInfo = FileInfo(size: int, deferred: bool, isPartial: bool, isFinal: bool, partials: seq<Id>)

  /** The directory of the store: the .info files and the bin files. */
  datatype Store = Store(infos: map<Id, FileInfo>, files: map<Id, Bytes>)

  /** MaxSize and NotifyCompleteUploads; all extensions and a locker are in use. */
  datatype Config = Config(maxSize: int, notify: bool)

  datatype Error =
    | FileLocked | NotFound | ModifyFinal | MismatchOffset | InvalidUploadLength
    | SizeExceeded | MaxSizeExceeded | NotFinished | StoppedByServer | Failed

  predicate Complete(info: FileInfo, length: nat)
  {
    !info.deferred && length == info.size
  }

  // ----- the size of a chunk -----

  /**
   The limit that writeChunk sets on the body. length is the Content-Length, or -1 when the
   request has none. A result of 0 or less leaves the body unread.
   */
  function ChunkLimit(cfg: Config, info: FileInfo, offset: nat, length: int): Result<int, Error>
  {
    if !info.deferred && AddInt64(offset, length) > info.size then
      Err(SizeExceeded)
    else if length > 0 then
      Ok(length)
    else if !info.deferred then
      Ok(info.size - offset)
    else if cfg.maxSize > 0 then
      Ok(cfg.maxSize - offset)
    else
      Ok(MAX_INT64)
  }

  /** What a reader limited to the given number of bytes yields of a body. */
  function Limited(body: Bytes, limit: int): (r: Bytes)
    ensures r <= body && (|r| <= limit || r == [])
  {
    if limit <= 0 then [] else if |body| <= limit then body else body[..limit]
  }

  /**
   The room left in an upload of declared size bounds every chunk that is let through,
   exactly when offset and Content-Length add up without wrapping.
   */
  lemma ChunkFitsUnlessWrapped(cfg: Config, info: FileInfo, offset: nat, length: int)
    requires !info.deferred && offset <= info.size <= MAX_INT64
    requires -1 <= length <= MAX_INT64
    ensures (ChunkLimit(cfg, info, offset, length).Ok? ==> offset + ChunkLimit(cfg, info, offset, length).value <= info.size)
            <==> offset + length <= MAX_INT64
  {
    if offset + length > MAX_INT64 {
      assert AddInt64(offset, length) == offset + length - RANGE_64;
    } else {
      assert AddInt64(offset, length) == offset + length;
    }
  }

  /** A PATCH of 2^63 - 1 bytes at offset 1 of an upload of two bytes is let through. */
  lemma WrappedChunkIsLetThrough()
    ensures ChunkLimit(Config(0, true), FileInfo(2, false, false, false, []), 1, MAX_INT64) == Ok(MAX_INT64)
  {}

  // ----- the decisions of PATCH -----

  datatype Admission =
    | Refuse(error: Error)
    | AlreadyComplete
    | Admit(info: FileInfo, limit: Result<int, Error>)

  /**
   From GetInfo to writeChunk in PatchFile: the checks in their order, the declaration of the
   length, and the limit on the body. info in Admit is what the .info file now says.
   */
  function Admitted(cfg: Config, info: FileInfo, stored: nat, offset: int, declare: Option<int>, length: int): Admission
  {
    if info.isFinal then
      Refuse(ModifyFinal)
    else if offset != stored then
      Refuse(MismatchOffset)
    else if Complete(info, stored) then
      AlreadyComplete
    else if declare.None? then
      Admit(info, ChunkLimit(cfg, info, stored, length))
    else if !info.deferred || declare.value < 0 || declare.value < stored || (cfg.maxSize > 0 && declare.value > cfg.maxSize) then
      Refuse(InvalidUploadLength)
    else
      var declared := info.(size := declare.value, deferred := false);
      Admit(declared, ChunkLimit(cfg, declared, stored, length))
  }

  // ----- concatenation -----

  function Joined(parts: seq<Bytes>): Bytes
  {
    if parts == [] then [] else Joined(parts[..|parts| - 1]) + parts[|parts| - 1]
  }

  /** The parts one after the other, wherever the list is cut. */
  lemma {:induction false} JoinedOfTwo(parts: seq<Bytes>, more: seq<Bytes>)
    ensures Joined(parts + more) == Joined(parts) + Joined(more)
    ensures forall c :: Joined([c]) == c
  {
    if more == [] {
      assert parts + more == parts;
    } else {
      var n := |more| - 1;
      JoinedOfTwo(parts, more[..n]);
      assert (parts + more)[..|parts| + n] == parts + more[..n];
    }
    forall c
      ensures Joined([c]) == c
    {
      assert [c][..0] == [];
    }
  }

  function TotalLength(parts: seq<Bytes>): (n: nat)
    ensures n == |Joined(parts)|
  {
    if parts == [] then 0 else TotalLength(parts[..|parts| - 1]) + |parts[|parts| - 1]|
  }
}
