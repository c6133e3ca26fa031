/** The locker, the body reader and the file store of pkg/tus, as objects. */
module TusFileStore {
  import opened Basics
  import opened TusStore
  import opened TusProtocol

  // ----- locks -----

  class MemoryLocker {
    var locks: set<Id>

    constructor ()
      ensures locks == {}
    {
      locks := {};
    }

    method Lock(id: Id) returns (r: Result<(), Error>)
      modifies this
      ensures r == if id in old(locks) then Err(FileLocked) else Ok(())
      ensures locks == old(locks) + {id}
    {
      if id in locks {
        return Err(FileLocked);
      }
      locks := locks + {id};
      return Ok(());
    }

    /** Dropping a lock that nobody holds is no error. */
    method Unlock(id: Id)
      modifies this
      ensures locks == old(locks) - {id}
    {
      locks := locks - {id};
    }
  }

  // ----- the body of a request -----

  datatype ReadErr = NoErr | Eof | Fault

  /** What one Read of the connection yields at most: bytes, and perhaps an error with them. */
  datatype Piece = Piece(data: Bytes, err: ReadErr)

  /** The bytes that arrive before, or together with, the first error. */
  function Sent(pieces: seq<Piece>): Bytes
  {
    if pieces == [] then []
    else if pieces[0].err != NoErr then pieces[0].data
    else pieces[0].data + Sent(pieces[1..])
  }

  /** Read until the first error, through a reader that stops after limit bytes. */
  datatype Delivery = Delivery(bytes: Bytes, err: ReadErr)

  function Delivered(pieces: seq<Piece>, limit: int): (d: Delivery)
    ensures d.err != NoErr
  {
    if limit <= 0 || pieces == [] then Delivery([], Eof)
    else
      var p := pieces[0];
      if |p.data| > limit then Delivery(p.data[..limit], Eof)
      else if p.err != NoErr then Delivery(p.data, p.err)
      else
        var d := Delivered(pieces[1..], limit - |p.data|);
        Delivery(p.data + d.bytes, d.err)
  }

  /** However the body is cut into pieces, a limited reader delivers its first bytes. */
  lemma {:induction false} DeliveredIsLimited(pieces: seq<Piece>, limit: int)
    ensures Delivered(pieces, limit).bytes == Limited(Sent(pieces), limit)
  {
    if limit <= 0 || pieces == [] || |pieces[0].data| > limit || pieces[0].err != NoErr {
    } else {
      DeliveredIsLimited(pieces[1..], limit - |pieces[0].data|);
    }
  }

  /** The body is all that its pieces hold, up to and with the first that carries an error. */
  lemma {:induction false} SentUpTo(pieces: seq<Piece>, k: nat)
    requires k <= |pieces| && forall j :: 0 <= j < k ==> pieces[j].err == NoErr
    ensures Sent(pieces) == Sent(pieces[..k]) + Sent(pieces[k..])
    ensures k < |pieces| && pieces[k].err != NoErr ==> Sent(pieces[k..]) == pieces[k].data
    ensures k < |pieces| && pieces[k].err == NoErr ==> Sent(pieces[..k + 1]) == Sent(pieces[..k]) + pieces[k].data
  {
    if k == 0 {
      assert pieces[..0] == [] && pieces[0..] == pieces;
      if pieces != [] {
        assert pieces[..1] == [pieces[0]] && [pieces[0]][1..] == [];
      }
    } else {
      SentUpTo(pieces[1..], k - 1);
      assert pieces[..k][1..] == pieces[1..][..k - 1] && pieces[k..] == pieces[1..][k - 1..];
      if k < |pieces| {
        assert pieces[..k + 1][1..] == pieces[1..][..k];
      }
    }
  }

  /** Piece k breaks the connection, and the limit lets the reader get to it and through its bytes. */
  predicate BreaksAt(pieces: seq<Piece>, limit: int, k: nat)
  {
    && k < |pieces| && pieces[k].err == Fault && (forall j :: 0 <= j < k ==> pieces[j].err == NoErr)
    && |Sent(pieces[..k])| < limit && |Sent(pieces[..k])| + |pieces[k].data| <= limit
  }

  /** The reader sees that a connection broke exactly when it gets there before its limit. */
  lemma {:induction false} FaultSeen(pieces: seq<Piece>, limit: int)
    ensures Delivered(pieces, limit).err == Fault <==> exists k: nat :: BreaksAt(pieces, limit, k)
  {
    if limit <= 0 || pieces == [] {
    } else if pieces[0].err != NoErr {
      assert pieces[..0] == [] && (BreaksAt(pieces, limit, 0) <==> pieces[0].err == Fault && |pieces[0].data| <= limit);
    } else if |pieces[0].data| > limit {
      forall k: nat | 0 < k < |pieces|
        ensures |Sent(pieces[..k])| > limit
      {
        assert pieces[..k][0] == pieces[0];
      }
    } else {
      var rest := limit - |pieces[0].data|;
      FaultSeen(pieces[1..], rest);
      forall k: nat | k < |pieces| - 1
        ensures BreaksAt(pieces, limit, k + 1) <==> BreaksAt(pieces[1..], rest, k)
      {
        assert pieces[..k + 1][1..] == pieces[1..][..k] && pieces[..k + 1][0] == pieces[0];
        assert forall j :: 0 <= j < k ==> pieces[1..][j] == pieces[j + 1];
        assert (forall j :: 0 <= j < k + 1 ==> pieces[j].err == NoErr) <==> (forall j :: 0 <= j < k ==> pieces[1..][j].err == NoErr);
      }
      if k: nat :| BreaksAt(pieces[1..], rest, k) {
        assert BreaksAt(pieces, limit, k + 1);
      }
      if k: nat :| BreaksAt(pieces, limit, k) {
        assert k > 0;
        assert BreaksAt(pieces[1..], rest, k - 1);
      }
    }
  }

  function Volume(pieces: seq<Piece>): nat
  {
    if pieces == [] then 0 else 1 + |pieces[0].data| + Volume(pieces[1..])
  }

  /** A connection behind an io.LimitReader: left is the number of bytes it may still pass on. */
  class LimitedBody {
    var pieces: seq<Piece>
    var left: int

    constructor (pieces: seq<Piece>, limit: int)
      ensures this.pieces == pieces && left == limit
    {
      this.pieces := pieces;
      left := limit;
    }

    function Coming(): Delivery
      reads this
    {
      Delivered(pieces, left)
    }

    method Read(max: nat) returns (data: Bytes, err: ReadErr)
      requires max > 0
      modifies this
      ensures err == NoErr ==> old(Coming()) == Delivery(data + Coming().bytes, Coming().err)
      ensures err != NoErr ==> old(Coming()) == Delivery(data, err)
      ensures err == NoErr ==> Volume(pieces) < old(Volume(pieces))
      ensures |data| <= max
    {
      if left <= 0 || pieces == [] {
        return [], Eof;
      }
      var room := if max > left then left else max;
      var p := pieces[0];
      if |p.data| > room {
        data, err := p.data[..room], NoErr;
        pieces := [Piece(p.data[room..], p.err)] + pieces[1..];
        assert pieces[1..] == old(pieces)[1..];
        left := left - room;
      } else {
        data, err := p.data, p.err;
        pieces := pieces[1..];
        left := left - |p.data|;
      }
    }
  }

  /** Hides every error of the body behind an end of file, and keeps it for later. */
  class BodyReader {
    const reader: LimitedBody
    var err: ReadErr
    var counter: nat

    constructor (pieces: seq<Piece>, limit: int)
      ensures fresh(reader) && err == NoErr && counter == 0
      ensures Coming() == Delivered(pieces, limit)
    {
      reader := new LimitedBody(pieces, limit);
      err := NoErr;
      counter := 0;
    }

    function Coming(): Delivery
      reads this, reader
    {
      if err != NoErr then Delivery([], err) else reader.Coming()
    }

    ghost function Weight(): nat
      reads this, reader
    {
      if err != NoErr then 0 else 1 + Volume(reader.pieces)
    }

    method Read(max: nat) returns (data: Bytes, eof: bool)
      requires max > 0
      modifies this, reader
      ensures old(Coming()) == Delivery(data + Coming().bytes, Coming().err)
      ensures eof ==> err != NoErr
      ensures !eof ==> Weight() < old(Weight())
      ensures counter == old(counter) + |data|
    {
      if err != NoErr {
        return [], true;
      }
      data, err := reader.Read(max);
      counter := counter + |data|;
      eof := err == Eof;
    }

    predicate HasError()
      reads this
    {
      err == Fault
    }
  }

  // ----- the store -----

  /** Whether the operating system removes the .info file, and the bin file. */
  datatype Removal = Removal(infoOk: bool, binOk: bool)

  function Removed(st: Store, id: Id, removal: Removal): Store
  {
    if !removal.infoOk then st
    else if !removal.binOk then WithoutInfo(st, id)
    else WithoutFile(WithoutInfo(st, id), id)
  }

  const COPY_BUFFER := 32 * 1024

  /** m bytes of the next n have gone from the body to the file. */
  lemma TakeMore(file: Bytes, all: Bytes, n: nat, data: Bytes, m: nat, rest: Bytes)
    requires n <= |all| && all[n..] == data + rest && m <= |data|
    ensures n + |data| <= |all| && all[n + |data|..] == rest
    ensures file + all[..n] + data[..m] == file + all[..n + m]
  {
    assert all == all[..n] + (data + rest);
    assert all[..n + m] == all[..n] + data[..m];
  }

  class FileStore {
    var infos: map<Id, FileInfo>
    var files: map<Id, Bytes>
    var space: nat

    function Contents(): Store
      reads this
    {
      Store(infos, files)
    }

    constructor (space: nat)
      ensures Contents() == Store(map[], map[])
    {
      infos, files, this.space := map[], map[], space;
    }

    /** The bin file is opened with O_CREATE only: bytes already under this id would stay. */
    method NewUpload(id: Id, info: FileInfo)
      modifies this
      ensures space == old(space)
      ensures id !in old(files) ==> Contents() == WithNew(old(Contents()), id, info)
      ensures id in old(files) ==> Contents() == WithInfo(old(Contents()), id, info)
    {
      if id !in files {
        files := files[id := []];
      }
      infos := infos[id := info];
    }

    /** The info is read first; the offset is the length of the bin file. */
    method GetUpload(id: Id) returns (r: Result<(FileInfo, nat), Error>)
      ensures r == if Present(Contents(), id) then Ok((infos[id], |files[id]|)) else Err(NotFound)
    {
      if id !in infos {
        return Err(NotFound);
      }
      if id !in files {
        return Err(NotFound);
      }
      return Ok((infos[id], |files[id]|));
    }

    /** A write to the end of a file: as much as the disk takes. */
    method Append(id: Id, data: Bytes) returns (n: nat)
      requires id in files
      modifies this
      ensures n == Least(|data|, old(space)) && space == old(space) - n
      ensures Contents() == WithFile(old(Contents()), id, old(files)[id] + data[..n])
    {
      n := Least(|data|, space);
      files := files[id := files[id] + data[..n]];
      space := space - n;
    }

    /**
     io.Copy of the body to the end of the bin file. The number returned is what the file grew by,
     whether the copy went to the end, the connection broke, or the disk was full.
     */
    method WriteChunk(id: Id, src: BodyReader) returns (n: nat, failed: bool)
      requires id in files && src.err == NoErr
      modifies this, src, src.reader
      ensures n == Least(|old(src.Coming()).bytes|, old(space)) && failed == (n < |old(src.Coming()).bytes|)
      ensures Contents() == WithFile(old(Contents()), id, old(files)[id] + old(src.Coming()).bytes[..n])
      ensures !failed ==> src.err == old(src.Coming()).err && src.counter == old(src.counter) + n
    {
      hide Delivered, Volume;
      n, failed := 0, false;
      ghost var all := src.Coming();
      ghost var st := Contents();
      assert st.files[id] + all.bytes[..0] == st.files[id];
      assert st.files == st.files[id := st.files[id]];
      while true
        modifies this, src, src.reader
        invariant n <= |all.bytes| && n + space == old(space)
        invariant src.Coming() == Delivery(all.bytes[n..], all.err)
        invariant Contents() == WithFile(st, id, st.files[id] + all.bytes[..n])
        invariant src.counter == old(src.counter) + n
        invariant !failed
        decreases src.Weight()
      {
        var data, eof := src.Read(COPY_BUFFER);
        if data != [] {
          var m := Append(id, data);
          TakeMore(st.files[id], all.bytes, n, data, m, src.Coming().bytes);
          assert Contents() == WithFile(st, id, st.files[id] + all.bytes[..n + m]);
          n := n + m;
          if m < |data| {
            failed := true;
            break;
          }
        }
        if eof {
          break;
        }
      }
    }

    method DeclareLength(id: Id, info: FileInfo, length: int)
      modifies this
      ensures space == old(space)
      ensures Contents() == WithInfo(old(Contents()), id, info.(size := length, deferred := false))
    {
      infos := infos[id := info.(size := length, deferred := false)];
    }

    /** The .info file goes first; when it cannot be removed, the bin file is left alone. */
    method Terminate(id: Id, removal: Removal) returns (ok: bool)
      requires Present(Contents(), id)
      modifies this
      ensures ok == (removal.infoOk && removal.binOk)
      ensures Contents() == Removed(old(Contents()), id, removal)
    {
      if !removal.infoOk {
        return false;
      }
      infos := infos - {id};
      if !removal.binOk {
        return false;
      }
      space := space + |files[id]|;
      files := files - {id};
      return true;
    }

    /** One file more, or as much of it as the disk holds. */
    method CopyOne(id: Id, ids: seq<Id>, copied: nat, ghost was: map<Id, Bytes>) returns (n: nat, whole: bool)
      requires id in was && id !in ids && copied < |ids| && ids[copied] in was
      requires files == was[id := was[id] + CopiedTo(was, ids, copied, 0)]
      modifies this
      ensures infos == old(infos) && n <= |was[ids[copied]]|
      ensures files == was[id := was[id] + if whole then CopiedTo(was, ids, copied + 1, 0) else CopiedTo(was, ids, copied, n)]
      ensures
        var before, after := |CopiedTo(was, ids, copied, 0)|, |CopiedTo(was, ids, copied + 1, 0)|;
        if whole then after + space == before + old(space) else after > before + old(space)
    {
      hide Joined, Parts, CopiedTo;
      var src := files[ids[copied]];
      n := Append(id, src);
      CopiedMore(was, ids, copied, n);
      whole := n == |src|;
      assert src[..|src|] == src;
      assert was[id] + CopiedTo(was, ids, copied, 0) + src[..n] ==
             was[id] + if whole then CopiedTo(was, ids, copied + 1, 0) else CopiedTo(was, ids, copied, n);
    }

    /**
     The named files, one after the other, at the end of this upload's file. On a failure what was
     copied stays: whole files, and a part of the one that did not fit.
     */
    method ConcatUploads(id: Id, ids: seq<Id>) returns (copied: nat, part: nat, failed: bool)
      requires id in files && id !in ids
      modifies this
      ensures infos == old(infos) && copied <= |ids| && failed == (copied < |ids|)
      ensures forall k :: 0 <= k < copied ==> ids[k] in files
      ensures part > 0 ==> copied < |ids| && ids[copied] in files && part <= |files[ids[copied]]|
      ensures files == old(files)[id := old(files)[id] + CopiedTo(old(files), ids, copied, part)]
      ensures failed ==> !AllThere(old(files), ids) || TotalLength(Parts(old(files), ids)) > old(space)
      ensures !failed ==> AllThere(old(files), ids) && space == old(space) - TotalLength(Parts(old(files), ids))
    {
      copied, part, failed := 0, 0, false;
      ghost var was := files;
      assert was[id] + CopiedTo(was, ids, 0, 0) == was[id];
      hide Joined, Parts, CopiedTo;
      assert was == was[id := was[id]];
      while copied < |ids|
        invariant infos == old(infos) && copied <= |ids| && part == 0
        invariant forall k :: 0 <= k < copied ==> ids[k] in was
        invariant files == was[id := was[id] + CopiedTo(was, ids, copied, 0)]
        invariant |CopiedTo(was, ids, copied, 0)| + space == old(space)
      {
        if ids[copied] !in files {
          return copied, 0, true;
        }
        var n, whole := CopyOne(id, ids, copied, was);
        if !whole {
          NoRoom(was, ids, copied + 1);
          return copied, n, true;
        }
        copied := copied + 1;
      }
      CopiedAll(was, ids);
    }
  }

  predicate AllThere(files: map<Id, Bytes>, ids: seq<Id>)
  {
    forall k :: 0 <= k < |ids| ==> ids[k] in files
  }

  lemma CopiedAll(files: map<Id, Bytes>, ids: seq<Id>)
    ensures |CopiedTo(files, ids, |ids|, 0)| == TotalLength(Parts(files, ids))
  {
    assert ids[..|ids|] == ids;
  }

  /** What was copied so far is a beginning of the whole. */
  lemma {:induction false} CopiedPrefix(files: map<Id, Bytes>, ids: seq<Id>, copied: nat, part: nat)
    requires copied <= |ids|
    ensures CopiedTo(files, ids, copied, part) <= Joined(Parts(files, ids))
    decreases |ids| - copied
  {
    if copied == |ids| {
      assert ids[..|ids|] == ids;
      assert CopiedTo(files, ids, copied, part) == Joined(Parts(files, ids)) + [];
    } else {
      CopiedPrefix(files, ids, copied + 1, 0);
      var now, next := Parts(files, ids[..copied]), Parts(files, ids[..copied + 1]);
      assert next[..|next| - 1] == now;
      assert Joined(next) == Joined(now) + next[copied];
      assert CopiedTo(files, ids, copied, part) <= Joined(next) + [];
    }
  }

  /** What was copied so far is no longer than the whole. */
  lemma {:induction false} NoRoom(files: map<Id, Bytes>, ids: seq<Id>, copied: nat)
    requires copied <= |ids|
    ensures |CopiedTo(files, ids, copied, 0)| <= TotalLength(Parts(files, ids))
    decreases |ids| - copied
  {
    if copied == |ids| {
      CopiedAll(files, ids);
    } else {
      NoRoom(files, ids, copied + 1);
      var now, next := Parts(files, ids[..copied]), Parts(files, ids[..copied + 1]);
      assert next[..|next| - 1] == now;
    }
  }

  /** The contents of the first files, as far as they exist. */
  function Parts(files: map<Id, Bytes>, ids: seq<Id>): (parts: seq<Bytes>)
    ensures |parts| == |ids|
    ensures forall k :: 0 <= k < |ids| && ids[k] in files ==> parts[k] == files[ids[k]]
  {
    seq(|ids|, k requires 0 <= k < |ids| => if ids[k] in files then files[ids[k]] else [])
  }

  /** The first files whole, and a part of the next. */
  function CopiedTo(files: map<Id, Bytes>, ids: seq<Id>, copied: nat, part: nat): Bytes
    requires copied <= |ids|
  {
    Joined(Parts(files, ids[..copied])) +
    if copied < |ids| && ids[copied] in files && part <= |files[ids[copied]]| then files[ids[copied]][..part] else []
  }

  lemma CopiedMore(files: map<Id, Bytes>, ids: seq<Id>, copied: nat, n: nat)
    requires copied < |ids| && ids[copied] in files && n <= |files[ids[copied]]|
    ensures CopiedTo(files, ids, copied, n) == CopiedTo(files, ids, copied, 0) + files[ids[copied]][..n]
    ensures CopiedTo(files, ids, copied + 1, 0) == CopiedTo(files, ids, copied, 0) + files[ids[copied]]
  {
    var now, next := Parts(files, ids[..copied]), Parts(files, ids[..copied + 1]);
    assert next == now + [files[ids[copied]]];
    assert next[..|next| - 1] == now;
  }
}
