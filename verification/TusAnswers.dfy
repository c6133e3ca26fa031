/** What a POST and a PATCH come to, and in plain terms when each answer is given. */
module TusAnswers {
  import opened Basics
  import opened TusStore
  import opened TusProtocol
  import opened TusFileStore

  /** What the handler cannot know: a stop by the server, before or after the first look, and the hook. */
  datatype Fate = Fate(stop: bool, late: bool, hookOk: bool, removal: Removal)

  function SizeSum(st: Store, ids: seq<Id>): int
  {
    if ids == [] then 0
    else
      var last := ids[|ids| - 1];
      SizeSum(st, ids[..|ids| - 1]) + if last in st.infos then st.infos[last].size else 0
  }

  /** The sum of the sizes, wherever the list is cut. */
  lemma {:induction false} SizeSumOfTwo(st: Store, ids: seq<Id>, more: seq<Id>)
    ensures SizeSum(st, ids + more) == SizeSum(st, ids) + SizeSum(st, more)
    ensures forall id :: id in st.infos ==> SizeSum(st, [id]) == st.infos[id].size
  {
    if more == [] {
      assert ids + more == ids;
    } else {
      var n := |more| - 1;
      SizeSumOfTwo(st, ids, more[..n]);
      assert (ids + more)[..|ids| + n] == ids + more[..n];
    }
  }

  // ----- what a request comes to when nothing else happens meanwhile -----

  /** The answer, the store afterwards, and whether a CompleteUploads event was sent. */
  datatype Outcome = Outcome(reply: Reply, store: Store, sent: bool)

  /** What arrives through the limit; without room for a body it is not read. */
  function Arriving(pieces: seq<Piece>, maxSize: int): Delivery
  {
    if maxSize > 0 then Delivered(pieces, maxSize) else Delivery([], Eof)
  }

  /** The copy: how many bytes go into the file, and whether it broke off. */
  function Taken(st: Store, space: nat, id: Id, d: Delivery): (nat, bool, Store)
    requires id in st.files
  {
    var n := Least(|d.bytes|, space);
    (n, n < |d.bytes| || d.err == Fault, WithFile(st, id, st.files[id] + d.bytes[..n]))
  }

  /** The end of writeChunk: the new offset or an error, and whether an event is sent. */
  function Ended(cfg: Config, info: FileInfo, offset: nat, n: nat, broken: bool, fate: Fate): (Result<nat, Error>, bool)
  {
    var complete := !info.deferred && offset + n == info.size;
    if fate.stop || fate.late then (Err(StoppedByServer), false)
    else if broken || (complete && !fate.hookOk) then (Err(Failed), false)
    else (Ok(offset + n), complete && cfg.notify)
  }

  function Said(id: Id, r: Result<nat, Error>): Reply
  {
    if r.Ok? then WriteOk(id, r.value) else Refused(r.error)
  }

  function WriteOutcome(cfg: Config, st: Store, space: nat, id: Id, info: FileInfo, offset: nat, limit: Result<int, Error>,
                        pieces: seq<Piece>, fate: Fate): Outcome
    requires id in st.files
  {
    if limit.Err? then Outcome(Refused(limit.error), st, false)
    else
      var (n, broken, st') := Taken(st, space, id, Arriving(pieces, limit.value));
      var known := if limit.value > 0 then fate else Fate(false, false, fate.hookOk, fate.removal);
      var (r, sent) := Ended(cfg, info, offset, n, broken || known.stop, known);
      Outcome(Said(id, r), if known.stop then Removed(st', id, fate.removal) else st', sent)
  }

  function PatchOutcome(cfg: Config, st: Store, space: nat, id: Id, offset: nat, declare: Option<int>, length: int,
                        pieces: seq<Piece>, fate: Fate): Outcome
  {
    if !Present(st, id) then Outcome(Refused(NotFound), st, false)
    else
      var stored := |st.files[id]|;
      match Admitted(cfg, st.infos[id], stored, offset, declare, length)
      case Refuse(e) => Outcome(Refused(e), st, false)
      case AlreadyComplete => Outcome(WriteOk(id, stored), st, false)
      case Admit(info, limit) =>
        WriteOutcome(cfg, if declare.Some? then WithInfo(st, id, info) else st, space, id, info, stored, limit, pieces, fate)
  }

  /** PostFile after NewUpload. */
  function MadeOutcome(cfg: Config, st: Store, space: nat, locked: bool, id: Id, info: FileInfo,
                       first: Option<(int, seq<Piece>)>, fate: Fate): Outcome
    requires id in st.files
  {
    var empty := !info.deferred && info.size == 0;
    if first.None? then
      if empty && !fate.hookOk then Outcome(Refused(Failed), st, false) else Outcome(CreateOk(id), st, empty && cfg.notify)
    else if locked then Outcome(Refused(FileLocked), st, false)
    else WriteOutcome(cfg, st, space, id, info, 0, ChunkLimit(cfg, info, 0, first.value.0), first.value.1, fate)
  }

  function PostOutcome(cfg: Config, st: Store, space: nat, locked: bool, id: Id, info: FileInfo,
                       first: Option<(int, seq<Piece>)>, fate: Fate): Outcome
  {
    if cfg.maxSize > 0 && info.size > cfg.maxSize then Outcome(Refused(MaxSizeExceeded), st, false)
    else MadeOutcome(cfg, WithNew(st, id, info), space, locked, id, info, first, fate)
  }

  /** The events of a final upload: the second one for one of no bytes. */
  function FinalEvents(cfg: Config, id: Id, size: int, hookOk: bool): seq<Id>
  {
    if !cfg.notify then [] else if size == 0 && hookOk then [id, id] else [id]
  }

  /**
   A PATCH that is answered with success, on an upload that was not complete, has appended the whole
   of its body as far as the limit allows, and answers the new length of the file.
   */
  lemma PatchAppends(cfg: Config, st: Store, space: nat, id: Id, offset: nat, declare: Option<int>, length: int,
                     pieces: seq<Piece>, fate: Fate)
    requires PatchOutcome(cfg, st, space, id, offset, declare, length, pieces, fate).reply.WriteOk?
    requires Present(st, id) && !Complete(st.infos[id], |st.files[id]|)
    ensures
      var o := PatchOutcome(cfg, st, space, id, offset, declare, length, pieces, fate);
      var info := if declare.Some? then st.infos[id].(size := declare.value, deferred := false) else st.infos[id];
      var limit := ChunkLimit(cfg, info, offset, length);
      && offset == |st.files[id]| && limit.Ok?
      && o.store.files == st.files[id := st.files[id] + Limited(Sent(pieces), limit.value)]
      && o.reply == WriteOk(id, |o.store.files[id]|)
      && o.store.infos == st.infos[id := info]
  {
    var info := if declare.Some? then st.infos[id].(size := declare.value, deferred := false) else st.infos[id];
    var limit := ChunkLimit(cfg, info, offset, length);
    hide ChunkLimit, Delivered, Sent;
    assert limit.Ok?;
    DeliveredIsLimited(pieces, limit.value);
    assert st.infos == st.infos[id := st.infos[id]];
    var d := Arriving(pieces, limit.value);
    assert d.bytes == Limited(Sent(pieces), limit.value);
    assert d.bytes[..|d.bytes|] == d.bytes;
  }

  // ----- the answers in terms of the request, the disk and the server -----

  /** The most that writeChunk reads, by the headers. */
  function Room(cfg: Config, size: int, open: bool, offset: nat, length: int): int
  {
    if length > 0 then length else if !open then size - offset else if cfg.maxSize > 0 then cfg.maxSize - offset else MAX_INT64
  }

  /** How many bytes arrive. */
  function Arrived(pieces: seq<Piece>, room: int): nat
  {
    if room <= 0 then 0 else Least(|Sent(pieces)|, room)
  }

  /**
   A chunk for an upload of the given size (open if that is not known yet) is written exactly when
   it fits by its headers, nobody stops it, the disk holds all that arrives, the connection does
   not break, and the hook agrees where the chunk completes the upload.
   */
  ghost predicate WriteAnswered(cfg: Config, size: int, open: bool, offset: nat, length: int, pieces: seq<Piece>, space: nat,
                                fate: Fate, id: Id, reply: Reply, sent: bool)
  {
    var fits := open || offset + length <= size;
    var room := Room(cfg, size, open, offset, length);
    var n := Arrived(pieces, room);
    var stopped := room > 0 && (fate.stop || fate.late);
    var whole := n <= space && forall k: nat :: !BreaksAt(pieces, room, k);
    var completes := !open && offset + n == size;
    && (reply == Refused(SizeExceeded) <==> !fits)
    && (reply == Refused(StoppedByServer) <==> fits && stopped)
    && (reply == Refused(Failed) <==> fits && !stopped && !(whole && (completes ==> fate.hookOk)))
    && (reply == WriteOk(id, offset + n) <==> fits && !stopped && whole && (completes ==> fate.hookOk))
    && (sent <==> fits && !stopped && whole && completes && fate.hookOk && cfg.notify)
  }

  /** The file has got what arrived and found a place on the disk; a stop before the end takes info and file away. */
  predicate WriteLeft(cfg: Config, size: int, open: bool, offset: nat, length: int, pieces: seq<Piece>, space: nat,
                      fate: Fate, id: Id, st: Store, st': Store)
    requires id in st.files
  {
    var fits := open || offset + length <= size;
    var room := Room(cfg, size, open, offset, length);
    var kept := if fits then Least(Arrived(pieces, room), space) else 0;
    var gone := fits && room > 0 && fate.stop && fate.removal.infoOk;
    && st'.infos == (if gone then st.infos - {id} else st.infos)
    && 0 <= kept <= |Sent(pieces)|
    && st'.files == if gone && fate.removal.binOk then st.files - {id} else st.files[id := st.files[id] + Sent(pieces)[..kept]]
  }

  lemma WriteAnswers(cfg: Config, st: Store, space: nat, id: Id, info: FileInfo, offset: nat, length: int, pieces: seq<Piece>, fate: Fate)
    requires id in st.files && -1 <= length && offset + length <= MAX_INT64
    ensures
      var o := WriteOutcome(cfg, st, space, id, info, offset, ChunkLimit(cfg, info, offset, length), pieces, fate);
      && WriteAnswered(cfg, info.size, info.deferred, offset, length, pieces, space, fate, id, o.reply, o.sent)
      && WriteLeft(cfg, info.size, info.deferred, offset, length, pieces, space, fate, id, st, o.store)
      && (o.reply.WriteOk? || (o.reply.Refused? && o.reply.error in {SizeExceeded, StoppedByServer, Failed}))
  {
    hide Sent, Arriving, Arrived, ChunkLimit, BreaksAt, Room;
    LimitIsRoom(cfg, info, offset, length);
    var room := Room(cfg, info.size, info.deferred, offset, length);
    ArrivingIs(pieces, room);
    TakenTwice(Sent(pieces), Arrived(pieces, room), space);
    assert st.files[id] + Sent(pieces)[..0] == st.files[id] && st.files[id := st.files[id]] == st.files;
  }

  lemma ArrivingIs(pieces: seq<Piece>, room: int)
    ensures Arrived(pieces, room) <= |Sent(pieces)| && (room <= 0 ==> Arrived(pieces, room) == 0)
    ensures Arriving(pieces, room).bytes == Sent(pieces)[..Arrived(pieces, room)]
    ensures Arriving(pieces, room).err == Fault <==> exists k: nat :: BreaksAt(pieces, room, k)
  {
    hide Sent, Delivered;
    DeliveredIsLimited(pieces, room);
    FaultSeen(pieces, room);
    NothingBreaks(pieces, room);
  }

  lemma TakenTwice(all: Bytes, n: nat, space: nat)
    requires n <= |all|
    ensures all[..n][..Least(n, space)] == all[..Least(n, space)]
  {}

  lemma LimitIsRoom(cfg: Config, info: FileInfo, offset: nat, length: int)
    requires -1 <= length && offset + length <= MAX_INT64
    ensures
      ChunkLimit(cfg, info, offset, length) ==
      if info.deferred || offset + length <= info.size then Ok(Room(cfg, info.size, info.deferred, offset, length)) else Err(SizeExceeded)
  {
    assert AddInt64(offset, length) == offset + length;
  }

  lemma NothingBreaks(pieces: seq<Piece>, room: int)
    ensures room <= 0 ==> forall k: nat :: !BreaksAt(pieces, room, k)
  {}

  /** PATCH: which answer is given, exactly when; and what becomes of the upload. */
  ghost predicate PatchAnswered(cfg: Config, st: Store, space: nat, locked: bool, id: Id, offset: nat, declare: Option<int>, length: int,
                                pieces: seq<Piece>, fate: Fate, reply: Reply, st': Store, sent: bool)
  {
    && (reply == Refused(FileLocked) <==> locked)
    && (reply == Refused(NotFound) <==> !locked && (id !in st.infos || id !in st.files))
    && (locked || id !in st.infos || id !in st.files ==> st' == st && !sent)
    && (!locked && id in st.infos && id in st.files ==>
          var info, stored := st.infos[id], |st.files[id]|;
          var asked := !info.isFinal && offset == stored;
          var done := !info.deferred && stored == info.size;
          var allowed := declare.None? || (info.deferred && stored <= declare.value && (cfg.maxSize <= 0 || declare.value <= cfg.maxSize));
          var size := if declare.Some? then declare.value else info.size;
          var open := info.deferred && declare.None?;
          var declared := if declare.Some? then st.(infos := st.infos[id := info.(size := size, deferred := false)]) else st;
          && (reply == Refused(ModifyFinal) <==> info.isFinal)
          && (reply == Refused(MismatchOffset) <==> !info.isFinal && offset != stored)
          && (reply == Refused(InvalidUploadLength) <==> asked && !done && !allowed)
          && (asked && done ==> reply == WriteOk(id, stored))
          && (!(asked && !done && allowed) ==> st' == st && !sent)
          && (asked && !done && allowed ==>
                && WriteAnswered(cfg, size, open, offset, length, pieces, space, fate, id, reply, sent)
                && WriteLeft(cfg, size, open, offset, length, pieces, space, fate, id, declared, st')))
  }

  /** POST of an upload that is not final: which answer is given, exactly when; and what has become of the upload. */
  ghost predicate PostAnswered(cfg: Config, st: Store, space: nat, locked: bool, id: Id, info: FileInfo,
                               first: Option<(int, seq<Piece>)>, fate: Fate, reply: Reply, st': Store, sent: bool)
  {
    var tooLarge := cfg.maxSize > 0 && info.size > cfg.maxSize;
    var empty := !info.deferred && info.size == 0;
    var made := Store(st.infos[id := info], st.files[id := []]);
    && (reply == Refused(MaxSizeExceeded) <==> tooLarge)
    && (tooLarge ==> st' == st && !sent)
    && (!tooLarge && first.None? ==>
          reply == (if empty && !fate.hookOk then Refused(Failed) else CreateOk(id)) && st' == made && (sent <==> empty && fate.hookOk && cfg.notify))
    && (!tooLarge && first.Some? ==> (reply == Refused(FileLocked) <==> locked))
    && (!tooLarge && first.Some? && locked ==> st' == made && !sent)
    && (!tooLarge && first.Some? && !locked ==>
          && WriteAnswered(cfg, info.size, info.deferred, 0, first.value.0, first.value.1, space, fate, id, reply, sent)
          && WriteLeft(cfg, info.size, info.deferred, 0, first.value.0, first.value.1, space, fate, id, made, st'))
  }

  lemma PostAnswers(cfg: Config, st: Store, space: nat, locked: bool, id: Id, info: FileInfo, first: Option<(int, seq<Piece>)>, fate: Fate)
    requires first.Some? ==> -1 <= first.value.0 <= MAX_INT64
    ensures
      var o := PostOutcome(cfg, st, space, locked, id, info, first, fate);
      PostAnswered(cfg, st, space, locked, id, info, first, fate, o.reply, o.store, o.sent)
  {
    hide WriteOutcome, WriteAnswered, WriteLeft, ChunkLimit;
    if first.Some? && !(cfg.maxSize > 0 && info.size > cfg.maxSize) {
      WriteAnswers(cfg, WithNew(st, id, info), space, id, info, 0, first.value.0, first.value.1, fate);
    }
  }

  lemma PatchAnswers(cfg: Config, st: Store, space: nat, locked: bool, id: Id, offset: nat, declare: Option<int>, length: int,
                     pieces: seq<Piece>, fate: Fate)
    requires -1 <= length && offset + length <= MAX_INT64
    ensures
      var o := if locked then Outcome(Refused(FileLocked), st, false) else PatchOutcome(cfg, st, space, id, offset, declare, length, pieces, fate);
      PatchAnswered(cfg, st, space, locked, id, offset, declare, length, pieces, fate, o.reply, o.store, o.sent)
  {
    hide WriteOutcome, WriteAnswered, WriteLeft, ChunkLimit;
    if !locked && Present(st, id) {
      var info := st.infos[id];
      var declared := if declare.Some? then info.(size := declare.value, deferred := false) else info;
      WriteAnswers(cfg, if declare.Some? then WithInfo(st, id, declared) else st, space, id, declared, offset, length, pieces, fate);
    }
  }
}
