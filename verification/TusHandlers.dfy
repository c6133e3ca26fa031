/**
 The handlers of pkg/tus as code over the file store and the locker. Every action of a handler is
 a step of TusProtocol, so that what TusTheorems says of runs holds of these objects.
 */
module TusHandlers {
  import opened Basics
  import opened TusStore
  import opened TusProtocol
  import opened TusFileStore
  import opened TusAnswers

  // ----- single steps, as the code takes them -----

  ghost predicate Is(s: State, pid: Pid, p: Proc)
  {
    pid in s.procs && s.procs[pid] == p
  }

  lemma BeginStep(cfg: Config, s: State, pid: Pid, req: Request)
    requires Enabled(s, Begin(pid, req)) && !req.Concat?
    ensures Next(cfg, s, Begin(pid, req)) == Put(s, pid, Started(req)).(used := s.used + Named(req))
  {}

  lemma LockStep(cfg: Config, s: State, pid: Pid, req: Request, id: Id)
    requires Is(s, pid, Started(req)) && Target(req) == Some(id)
    ensures Enabled(s, Lock(pid))
    ensures Next(cfg, s, Lock(pid)) ==
            if id in s.locks then Put(s, pid, Replying(Refused(FileLocked), None, false, false))
            else Put(s, pid, Held(id, req)).(locks := s.locks + {id})
  {}

  lemma LookStep(cfg: Config, s: State, pid: Pid, id: Id, req: Request)
    requires Is(s, pid, Held(id, req)) && !req.Head?
    ensures Enabled(s, Look(pid))
    ensures Next(cfg, s, Look(pid)) ==
            Put(s, pid, if Present(s.store, id) then Looked(id, req, s.store.infos[id], |s.store.files[id]|)
                        else Replying(Refused(NotFound), Some(id), true, false))
  {}

  lemma HeadStep(cfg: Config, s: State, pid: Pid, id: Id)
    requires Is(s, pid, Held(id, Head(id)))
    ensures Enabled(s, Look(pid))
    ensures Next(cfg, s, Look(pid)) ==
            Put(s, pid, Replying(if Present(s.store, id) then HeadOk(id, |s.store.files[id]|) else Refused(NotFound), Some(id), true, false))
  {}

  lemma DeleteInfoStep(cfg: Config, s: State, pid: Pid, id: Id, info: FileInfo, stored: nat)
    requires Is(s, pid, Looked(id, Delete(id), info, stored))
    ensures Enabled(s, RemoveInfo(pid))
    ensures Next(cfg, s, RemoveInfo(pid)) == Put(s, pid, Deleting(id)).(store := WithoutInfo(s.store, id))
  {}

  lemma DeleteBinStep(cfg: Config, s: State, pid: Pid, id: Id)
    requires Is(s, pid, Deleting(id))
    ensures Enabled(s, RemoveBin(pid))
    ensures Next(cfg, s, RemoveBin(pid)) == Put(s, pid, Replying(DeleteOk(id), Some(id), true, false)).(store := WithoutFile(s.store, id))
  {}

  lemma MakeStep(cfg: Config, s: State, pid: Pid, info: FileInfo, first: Option<Chunk>, id: Id)
    requires Is(s, pid, Started(Create(info, first))) && id !in s.used
    ensures Enabled(s, Make(pid, id))
    ensures Next(cfg, s, Make(pid, id)) ==
            if cfg.maxSize > 0 && info.size > cfg.maxSize then Put(s, pid, Replying(Refused(MaxSizeExceeded), None, false, false))
            else Put(s, pid, Made(id, info, first)).(store := WithNew(s.store, id, info), used := s.used + {id})
  {}

  lemma OpenFirstStep(cfg: Config, s: State, pid: Pid, id: Id, info: FileInfo, chunk: Chunk)
    requires Is(s, pid, Made(id, info, Some(chunk)))
    ensures Enabled(s, OpenFirst(pid))
    ensures Next(cfg, s, OpenFirst(pid)) ==
            if id in s.locks then Put(s, pid, Replying(Refused(FileLocked), Some(id), false, true))
            else
              Put(s, pid, BeginWrite(Replying(CreateOk(id), Some(id), true, true), id, info, 0, ChunkLimit(cfg, info, 0, chunk.length), chunk.body, true))
                .(locks := s.locks + {id})
  {}

  lemma FinishEmptyStep(cfg: Config, s: State, pid: Pid, id: Id, info: FileInfo, hookOk: bool)
    requires Is(s, pid, Made(id, info, None))
    ensures Enabled(s, FinishEmpty(pid, hookOk))
    ensures Next(cfg, s, FinishEmpty(pid, hookOk)) ==
            var empty := !info.deferred && info.size == 0;
            Put(s, pid, Replying(if empty && !hookOk then Refused(Failed) else CreateOk(id), Some(id), false, true))
              .(hist := if empty && hookOk then Event(cfg, s.hist, pid, id) else s.hist)
  {}

  lemma CheckStep(cfg: Config, s: State, pid: Pid, id: Id, req: Request, info: FileInfo, stored: nat)
    requires Is(s, pid, Looked(id, req, info, stored)) && req.Patch?
    ensures Enabled(s, Check(pid))
    ensures Next(cfg, s, Check(pid)) ==
            var p := Looked(id, req, info, stored);
            match Admitted(cfg, info, stored, req.offset, req.declare, req.chunk.length)
            case Refuse(e) => Put(s, pid, Replying(Refused(e), Some(id), true, false))
            case AlreadyComplete => Put(s, pid, Replying(WriteOk(id, stored), Some(id), true, false))
            case Admit(info, limit) =>
              Put(s, pid, BeginWrite(p, id, info, stored, limit, req.chunk.body, false))
                .(store := if req.declare.Some? then WithInfo(s.store, id, info) else s.store)
  {}

  lemma AppendStep(cfg: Config, s: State, pid: Pid, w: Writer, rest: Bytes, n: nat)
    requires Is(s, pid, Writing(w, rest)) && w.id in s.store.files && 0 < n <= |rest|
    ensures Enabled(s, Append(pid, n))
    ensures Next(cfg, s, Append(pid, n)) ==
            Put(s, pid, Writing(w.(written := w.written + n), rest[n..]))
              .(store := WithFile(s.store, w.id, s.store.files[w.id] + rest[..n]))
  {}

  lemma EndCopyStep(cfg: Config, s: State, pid: Pid, w: Writer, rest: Bytes, broken: bool)
    requires Is(s, pid, Writing(w, rest)) && (broken || rest == [])
    ensures Enabled(s, EndCopy(pid, broken))
    ensures Next(cfg, s, EndCopy(pid, broken)) == Put(s, pid, Wrote(w, broken))
  {}

  lemma NotStoppedStep(cfg: Config, s: State, pid: Pid, w: Writer, broken: bool)
    requires Is(s, pid, Wrote(w, broken))
    ensures Enabled(s, NotStopped(pid))
    ensures Next(cfg, s, NotStopped(pid)) == Put(s, pid, Settled(w, broken, false))
  {}

  lemma RemoveInfoStep(cfg: Config, s: State, pid: Pid, w: Writer, broken: bool)
    requires Is(s, pid, Wrote(w, broken))
    ensures Enabled(s, RemoveInfo(pid))
    ensures Next(cfg, s, RemoveInfo(pid)) == Put(s, pid, Removing(w)).(store := WithoutInfo(s.store, w.id))
  {}

  lemma RemoveBinStep(cfg: Config, s: State, pid: Pid, w: Writer)
    requires Is(s, pid, Removing(w))
    ensures Enabled(s, RemoveBin(pid))
    ensures Next(cfg, s, RemoveBin(pid)) == Put(s, pid, Settled(w, true, true)).(store := WithoutFile(s.store, w.id))
  {}

  lemma RemoveFailsStep(cfg: Config, s: State, pid: Pid, p: Proc)
    requires Is(s, pid, p) && (p.Wrote? || p.Removing?)
    ensures Enabled(s, RemoveFails(pid))
    ensures Next(cfg, s, RemoveFails(pid)) == Put(s, pid, Settled(p.w, true, true))
  {}

  lemma DeleteFailsStep(cfg: Config, s: State, pid: Pid, p: Proc, id: Id)
    requires Is(s, pid, p) && (p == Deleting(id) || (p.Looked? && p.id == id && p.req.Delete?))
    ensures Enabled(s, RemoveFails(pid))
    ensures Next(cfg, s, RemoveFails(pid)) == Put(s, pid, Replying(Refused(Failed), Some(id), true, false))
  {}

  lemma ConcludeStep(cfg: Config, s: State, pid: Pid, p: Proc, late: bool, hookOk: bool)
    requires Is(s, pid, p) && (p.Settled? || (p.Unread? && !late))
    ensures Enabled(s, Conclude(pid, late, hookOk))
    ensures
      var w := p.w;
      var stop, broken := p.Settled? && (p.stopped || late), p.Settled? && p.broken;
      var complete := !w.deferred && w.start + w.written == w.size;
      var reply :=
        if stop then Refused(StoppedByServer)
        else if broken || (complete && !hookOk) then Refused(Failed)
        else WriteOk(w.id, w.start + w.written);
      Next(cfg, s, Conclude(pid, late, hookOk)) ==
      Put(s, pid, Replying(reply, Some(w.id), true, w.post))
        .(hist := if stop then s.hist.(stopped := s.hist.stopped + {pid})
                  else if reply.WriteOk? && complete then Event(cfg, s.hist, pid, w.id)
                  else s.hist)
  {}

  lemma ReleaseStep(cfg: Config, s: State, pid: Pid, reply: Reply, own: Option<Id>, locked: bool, post: bool)
    requires Is(s, pid, Replying(reply, own, locked, post))
    ensures Enabled(s, Release(pid))
    ensures Next(cfg, s, Release(pid)) ==
            Put(s, pid, Done(reply)).(locks := s.locks - if locked then Owned(own) else {})
  {}

  lemma ReadInfoStep(cfg: Config, s: State, pid: Pid, ids: seq<Id>, size: int, parts: seq<Bytes>)
    requires Is(s, pid, Sizing(ids, size, parts, None)) && |parts| < |ids|
    ensures Enabled(s, ReadInfo(pid))
    ensures Next(cfg, s, ReadInfo(pid)) ==
            var id := ids[|parts|];
            Put(s, pid, if id in s.store.infos then Sizing(ids, size, parts, Some(s.store.infos[id]))
                        else Replying(Refused(NotFound), None, false, false))
  {}

  lemma StatStep(cfg: Config, s: State, pid: Pid, ids: seq<Id>, size: int, parts: seq<Bytes>, info: FileInfo)
    requires Is(s, pid, Sizing(ids, size, parts, Some(info))) && |parts| < |ids| && size + info.size <= MAX_INT64
    ensures Enabled(s, Stat(pid))
    ensures Next(cfg, s, Stat(pid)) ==
            var id := ids[|parts|];
            Put(s, pid,
                if id !in s.store.files then Replying(Refused(NotFound), None, false, false)
                else if !Complete(info, |s.store.files[id]|) then Replying(Refused(NotFinished), None, false, false)
                else Sizing(ids, size + info.size, parts + [s.store.files[id]], None))
  {}

  lemma CopyPartStep(cfg: Config, s: State, pid: Pid, id: Id, ids: seq<Id>, size: int, parts: seq<Bytes>, done: nat)
    requires Is(s, pid, Joining(id, ids, size, parts, done)) && done < |ids| && id in s.store.files
    ensures Enabled(s, CopyPart(pid))
    ensures Next(cfg, s, CopyPart(pid)) ==
            if ids[done] !in s.store.files then Put(s, pid, Replying(Refused(Failed), Some(id), false, true))
            else Put(s, pid, Joining(id, ids, size, parts, done + 1))
                   .(store := WithFile(s.store, id, s.store.files[id] + s.store.files[ids[done]]))
  {}

  lemma CopyBreaksStep(cfg: Config, s: State, pid: Pid, id: Id, ids: seq<Id>, size: int, parts: seq<Bytes>, done: nat, n: nat)
    requires Is(s, pid, Joining(id, ids, size, parts, done)) && done < |ids| && id in s.store.files
    requires ids[done] in s.store.files && n <= |s.store.files[ids[done]]|
    ensures Enabled(s, CopyBreaks(pid, n))
    ensures Next(cfg, s, CopyBreaks(pid, n)) ==
            Put(s, pid, Replying(Refused(Failed), Some(id), false, true))
              .(store := WithFile(s.store, id, s.store.files[id] + s.store.files[ids[done]][..n]))
  {}

  lemma FinishJoinStep(cfg: Config, s: State, pid: Pid, id: Id, ids: seq<Id>, size: int, parts: seq<Bytes>, hookOk: bool)
    requires Is(s, pid, Joining(id, ids, size, parts, |ids|))
    ensures Enabled(s, FinishJoin(pid, hookOk))
    ensures Next(cfg, s, FinishJoin(pid, hookOk)) ==
            var once := Event(cfg, s.hist, pid, id);
            Put(s, pid, Replying(if size != 0 || hookOk then JoinOk(id, ids, parts) else Refused(Failed), Some(id), false, true))
              .(hist := if size == 0 && hookOk then Event(cfg, once, pid, id) else once)
  {}

  lemma BeginConcatStep(cfg: Config, s: State, pid: Pid, ids: seq<Id>)
    requires Enabled(s, Begin(pid, Concat(ids)))
    ensures Next(cfg, s, Begin(pid, Concat(ids))) ==
            Put(s, pid, Sizing(ids, 0, [], None)).(used := s.used + set id | id in ids)
  {}

  lemma MakeFinalStep(cfg: Config, s: State, pid: Pid, ids: seq<Id>, size: int, parts: seq<Bytes>, id: Id)
    requires Is(s, pid, Sizing(ids, size, parts, None)) && |parts| == |ids| && id !in s.used
    ensures Enabled(s, MakeFinal(pid, id))
    ensures Next(cfg, s, MakeFinal(pid, id)) ==
            if cfg.maxSize > 0 && size > cfg.maxSize then Put(s, pid, Replying(Refused(MaxSizeExceeded), None, false, false))
            else
              Put(s, pid, Joining(id, ids, size, parts, 0))
                .(store := WithNew(s.store, id, FileInfo(size, false, false, true, ids)),
                  used := s.used + {id}, hist := s.hist.(finals := s.hist.finals[id := size]))
  {}

  /** One more file at the end of the final upload. */
  lemma CopyGrows(st: Store, now: Store, id: Id, ids: seq<Id>, i: nat)
    requires id in st.files && id !in ids && i < |ids| && ids[i] in st.files
    requires now == WithFile(st, id, st.files[id] + CopiedTo(st.files, ids, i, 0))
    ensures id in now.files && ids[i] in now.files
    ensures WithFile(now, id, now.files[id] + now.files[ids[i]]) == WithFile(st, id, st.files[id] + CopiedTo(st.files, ids, i + 1, 0))
  {
    CopiedMore(st.files, ids, i, 0);
    hide CopiedTo;
    assert st.files[id] + CopiedTo(st.files, ids, i, 0) + st.files[ids[i]] == st.files[id] + CopiedTo(st.files, ids, i + 1, 0);
  }

  /** The sizes add up within an int64, wherever the sum is taken. */
  predicate SumsFit(st: Store, ids: seq<Id>)
  {
    forall k :: 0 <= k <= |ids| ==> SizeSum(st, ids[..k]) <= MAX_INT64
  }

  /** A file has got the named files behind its bytes, or a beginning of them; nothing else has changed. */
  predicate Grown(st: Store, st': Store, id: Id, ids: seq<Id>, whole: bool)
    requires id in st.files
  {
    && st'.infos == st.infos && id in st'.files && st'.files == st.files[id := st'.files[id]]
    && st'.files[id] <= st.files[id] + Joined(Parts(st.files, ids))
    && (whole ==> st'.files[id] == st.files[id] + Joined(Parts(st.files, ids)))
  }

  /** A final upload has been made of the named files, or of a beginning of them; nothing else has changed. */
  predicate MadeOf(st: Store, st': Store, id: Id, ids: seq<Id>, size: int, whole: bool)
  {
    && st'.infos == st.infos[id := FileInfo(size, false, false, true, ids)]
    && id in st'.files && st'.files == st.files[id := st'.files[id]]
    && st'.files[id] <= Joined(Parts(st.files, ids))
    && (whole ==> st'.files[id] == Joined(Parts(st.files, ids)))
  }

  lemma GrownIsMade(st: Store, st': Store, id: Id, ids: seq<Id>, size: int, whole: bool)
    requires id !in ids && Grown(WithNew(st, id, FileInfo(size, false, false, true, ids)), st', id, ids, whole)
    ensures MadeOf(st, st', id, ids, size, whole)
  {
    assert Parts(st.files[id := []], ids) == Parts(st.files, ids);
    assert [] + Joined(Parts(st.files, ids)) == Joined(Parts(st.files, ids));
    assert st.files[id := []][id := st'.files[id]] == st.files[id := st'.files[id]];
  }

  lemma CopiesGrow(st: Store, st': Store, id: Id, ids: seq<Id>, copied: nat, part: nat)
    requires id in st.files && copied <= |ids|
    requires st'.infos == st.infos && st'.files == st.files[id := st.files[id] + CopiedTo(st.files, ids, copied, part)]
    ensures Grown(st, st', id, ids, copied == |ids|)
  {
    CopiedPrefix(st.files, ids, copied, part);
    if copied == |ids| {
      assert ids[..|ids|] == ids;
      assert CopiedTo(st.files, ids, copied, part) == Joined(Parts(st.files, ids)) + [];
    }
    hide Joined, Parts, CopiedTo;
    var c, j := CopiedTo(st.files, ids, copied, part), Joined(Parts(st.files, ids));
    assert st.files[id] + c <= st.files[id] + j;
  }

  datatype Checked = No(error: Error) | Already | Go(info: FileInfo)

  class Uploader {
    const cfg: Config
    const store: FileStore
    const locker: MemoryLocker
    var events: seq<Id>
    ghost var run: seq<State>
    ghost var steps: seq<Step>
    ghost var base: seq<State>

    ghost function Now(): State
      requires run != []
      reads this`run
    {
      run[|run| - 1]
    }

    /** A run of the protocol, which goes on from where the handler found it. */
    ghost predicate OnRun()
      reads this`run, this`steps, this`base
    {
      IsRun(cfg, run, steps) && base <= run
    }

    /** The objects are what a run of the protocol has led to. */
    ghost predicate Valid()
      reads this, store, locker
    {
      && run != [] && OnRun()
      && Now().store == store.Contents()
      && Now().locks == locker.locks
      && (cfg.notify ==> Now().hist.completed == multiset(events))
    }

    constructor (cfg: Config, space: nat)
      ensures Valid() && fresh(store) && fresh(locker) && this.cfg == cfg && events == []
    {
      this.cfg := cfg;
      store := new FileStore(space);
      locker := new MemoryLocker();
      events := [];
      run, steps, base := [EMPTY], [], [];
    }

    /** One step of the run. */
    ghost method Do(step: Step)
      requires run != [] && OnRun() && Enabled(Now(), step)
      modifies this`run, this`steps
      ensures run != [] && OnRun() && Now() == Next(cfg, old(Now()), step)
    {
      hide Enabled, Next;
      run, steps := run + [Next(cfg, Now(), step)], steps + [step];
    }

    /** The answer of a handler that holds no lock. */
    ghost method SendAnswer(pid: Pid, reply: Reply, own: Option<Id>, post: bool)
      requires run != [] && OnRun() && Is(Now(), pid, Replying(reply, own, false, post))
      modifies this`run, this`steps
      ensures run != [] && OnRun() && Is(Now(), pid, Done(reply))
      ensures Now().store == old(Now().store) && Now().locks == old(Now().locks) && Now().hist == old(Now().hist)
    {
      hide OnRun, Next, Enabled;
      ReleaseStep(cfg, Now(), pid, reply, own, false, post);
      Do(Release(pid));
    }

    // ----- writeChunk -----

    method BodyLimit(info: FileInfo, offset: nat, length: int) returns (r: Result<int, Error>)
      ensures r == ChunkLimit(cfg, info, offset, length)
    {
      if !info.deferred && AddInt64(offset, length) > info.size {
        return Err(SizeExceeded);
      }
      var maxSize := info.size - offset;
      if info.deferred {
        maxSize := if cfg.maxSize > 0 then cfg.maxSize - offset else MAX_INT64;
      }
      if length > 0 {
        maxSize := length;
      }
      return Ok(maxSize);
    }

    method WriteChunk(id: Id, info: FileInfo, offset: nat, length: int, pieces: seq<Piece>, fate: Fate,
                      ghost pid: Pid, ghost holder: Proc, ghost post: bool)
      returns (r: Result<nat, Error>)
      requires Valid() && Present(store.Contents(), id)
      requires OwnOf(holder) == Some(id) && LocksOf(holder) == {id} && FromPost(holder) == post
      requires Is(Now(), pid, BeginWrite(holder, id, info, offset, ChunkLimit(cfg, info, offset, length), Sent(pieces), post))
      modifies this`run, this`steps, this`events, store
      ensures Valid()
      ensures Is(Now(), pid, Replying(Said(id, r), Some(id), true, post))
      ensures
        var o := WriteOutcome(cfg, old(store.Contents()), old(store.space), id, info, offset, ChunkLimit(cfg, info, offset, length), pieces, fate);
        Said(id, r) == o.reply && store.Contents() == o.store && events == old(events) + if o.sent then [id] else []
    {
      hide OnRun, Limited, Sent, Next, Enabled, ChunkLimit, Delivered;
      var limit := BodyLimit(info, offset, length);
      if limit.Err? {
        return Err(limit.error);
      }
      var maxSize := limit.value;
      ghost var w := Writer(id, info.size, info.deferred, offset, 0, post);
      assert Is(Now(), pid, if maxSize > 0 then Writing(w, Limited(Sent(pieces), maxSize)) else Unread(w));
      hide BeginWrite, OwnOf, LocksOf, FromPost;
      if maxSize <= 0 {
        SameFile(store.Contents(), id);
        r := Finish(id, info, offset, 0, false, Fate(false, false, fate.hookOk, fate.removal), pid, w, Unread(w));
        return;
      }
      r := WriteBody(id, info, offset, maxSize, pieces, fate, pid, w);
    }

    static lemma SameFile(st: Store, id: Id)
      requires id in st.files
      ensures WithFile(st, id, st.files[id] + []) == st
    {
      assert st.files[id] + [] == st.files[id];
      assert st.files[id := st.files[id]] == st.files;
    }

    /** writeChunk when there is room for a body. */
    method WriteBody(id: Id, info: FileInfo, offset: nat, maxSize: int, pieces: seq<Piece>, fate: Fate,
                     ghost pid: Pid, ghost w: Writer)
      returns (r: Result<nat, Error>)
      requires Valid() && Present(store.Contents(), id) && maxSize > 0
      requires w == Writer(id, info.size, info.deferred, offset, 0, w.post)
      requires Is(Now(), pid, Writing(w, Limited(Sent(pieces), maxSize)))
      modifies this`run, this`steps, this`events, store
      ensures Valid()
      ensures Is(Now(), pid, Replying(Said(id, r), Some(id), true, w.post))
      ensures
        var o := WriteOutcome(cfg, old(store.Contents()), old(store.space), id, info, offset, Ok(maxSize), pieces, fate);
        Said(id, r) == o.reply && store.Contents() == o.store && events == old(events) + if o.sent then [id] else []
    {
      hide OnRun, Limited, Sent, Next, Enabled, Delivered, Taken, Ended, WithFile, Removed;
      var n, broken := Copy(id, maxSize, pieces, pid, w);
      ghost var wrote := w.(written := n);
      Settle(id, fate.stop, fate.removal, pid, wrote, broken);
      r := Finish(id, info, offset, n, broken || fate.stop, fate, pid, wrote, Settled(wrote, broken || fate.stop, fate.stop));
    }

    /** The first look at the stop flag. */
    method Settle(id: Id, stop: bool, removal: Removal, ghost pid: Pid, ghost w: Writer, ghost broken: bool)
      requires Valid() && w.id == id && Is(Now(), pid, Wrote(w, broken)) && Present(store.Contents(), id)
      modifies this`run, this`steps, store
      ensures Valid() && Is(Now(), pid, Settled(w, broken || stop, stop))
      ensures store.Contents() == if stop then Removed(old(store.Contents()), id, removal) else old(store.Contents())
    {
      hide OnRun, Next, Enabled;
      if stop {
        StopWriting(id, removal, pid, w, broken);
      } else {
        NotStoppedStep(cfg, Now(), pid, w, broken);
        Do(NotStopped(pid));
      }
    }

    /** The call of WriteChunk on the store, and the error of the body afterwards. */
    method Copy(id: Id, maxSize: int, pieces: seq<Piece>, ghost pid: Pid, ghost w: Writer) returns (n: nat, broken: bool)
      requires Valid() && Present(store.Contents(), id) && maxSize > 0
      requires w.id == id && w.written == 0 && Is(Now(), pid, Writing(w, Limited(Sent(pieces), maxSize)))
      modifies this`run, this`steps, this`events, store
      ensures Valid() && events == old(events)
      ensures Present(store.Contents(), id)
      ensures Is(Now(), pid, Wrote(w.(written := n), broken))
      ensures (n, broken, store.Contents()) == Taken(old(store.Contents()), old(store.space), id, Delivered(pieces, maxSize))
    {
      hide OnRun, Limited, Sent, Delivered, Next, Enabled;
      DeliveredIsLimited(pieces, maxSize);
      ghost var rest := Limited(Sent(pieces), maxSize);
      var body := new BodyReader(pieces, maxSize);
      assert body.Coming().bytes == rest;
      var failed;
      n, failed := store.WriteChunk(id, body);
      broken := failed || body.HasError();
      hide BodyReader.Coming;
      if n > 0 {
        AppendStep(cfg, Now(), pid, w, rest, n);
        Do(Append(pid, n));
      } else {
        assert old(store.files)[id] + rest[..0] == old(store.files)[id];
        assert store.files == old(store.files);
        assert rest[0..] == rest;
      }
      EndCopyStep(cfg, Now(), pid, w.(written := n), rest[n..], broken);
      Do(EndCopy(pid, broken));
    }

    /** terminateUpload on behalf of the server; that a removal fails is only logged. */
    method StopWriting(id: Id, removal: Removal, ghost pid: Pid, ghost w: Writer, ghost broken: bool)
      requires Valid() && w.id == id && Is(Now(), pid, Wrote(w, broken))
      requires Present(store.Contents(), id)
      modifies this`run, this`steps, store
      ensures Valid()
      ensures Is(Now(), pid, Settled(w, true, true))
      ensures store.Contents() == Removed(old(store.Contents()), id, removal)
    {
      hide OnRun, Next, Enabled, Put;
      var _ := store.Terminate(id, removal);
      StopSteps(removal, pid, w, broken);
    }

    /** The steps of a termination by the server. */
    ghost method StopSteps(removal: Removal, pid: Pid, w: Writer, broken: bool)
      requires run != [] && OnRun() && Is(Now(), pid, Wrote(w, broken))
      modifies this`run, this`steps
      ensures run != [] && OnRun() && Is(Now(), pid, Settled(w, true, true))
      ensures Now().locks == old(Now().locks) && Now().hist == old(Now().hist)
      ensures Now().store == Removed(old(Now().store), w.id, removal)
    {
      hide OnRun, Next, Enabled;
      if !removal.infoOk {
        RemoveFailsStep(cfg, Now(), pid, Wrote(w, broken));
        Do(RemoveFails(pid));
        return;
      }
      RemoveInfoStep(cfg, Now(), pid, w, broken);
      Do(RemoveInfo(pid));
      if !removal.binOk {
        RemoveFailsStep(cfg, Now(), pid, Removing(w));
        Do(RemoveFails(pid));
      } else {
        RemoveBinStep(cfg, Now(), pid, w);
        Do(RemoveBin(pid));
      }
    }

    /** The rest of writeChunk: errors, the new offset, finishUploadIfComplete. */
    method Finish(id: Id, info: FileInfo, offset: nat, n: nat, broken: bool, fate: Fate, ghost pid: Pid, ghost w: Writer, ghost p: Proc)
      returns (r: Result<nat, Error>)
      requires Valid() && Is(Now(), pid, p)
      requires w == Writer(id, info.size, info.deferred, offset, n, w.post)
      requires (p == Unread(w) && !fate.late && !broken && !fate.stop) || p == Settled(w, broken, fate.stop)
      modifies this`run, this`steps, this`events
      ensures Valid()
      ensures Is(Now(), pid, Replying(Said(id, r), Some(id), true, w.post))
      ensures
        var (said, sent) := Ended(cfg, info, offset, n, broken, fate);
        r == said && events == old(events) + if sent then [id] else []
    {
      hide OnRun, Next, Enabled;
      ConcludeStep(cfg, Now(), pid, p, fate.late, fate.hookOk);
      Do(Conclude(pid, fate.late, fate.hookOk));
      if fate.stop || fate.late {
        return Err(StoppedByServer);
      }
      if broken {
        return Err(Failed);
      }
      if !info.deferred && offset + n == info.size {
        if !fate.hookOk {
          return Err(Failed);
        }
        if cfg.notify {
          assert multiset(events + [id]) == multiset(events) + multiset{id};
          events := events + [id];
        }
      }
      return Ok(offset + n);
    }

    // ----- PATCH -----

    /** PatchFile under the lock. */
    method PatchLocked(id: Id, offset: nat, declare: Option<int>, length: int, pieces: seq<Piece>, fate: Fate, ghost pid: Pid)
      returns (reply: Reply)
      requires Valid()
      requires Is(Now(), pid, Held(id, Patch(id, offset, declare, Chunk(length, Sent(pieces)))))
      modifies this`run, this`steps, this`events, store
      ensures Valid()
      ensures Is(Now(), pid, Replying(reply, Some(id), true, false))
      ensures
        var o := PatchOutcome(cfg, old(store.Contents()), old(store.space), id, offset, declare, length, pieces, fate);
        reply == o.reply && store.Contents() == o.store && events == old(events) + if o.sent then [id] else []
    {
      hide OnRun, ChunkLimit, Sent, Next, Enabled, BeginWrite, WriteOutcome, Admitted;
      ghost var req := Patch(id, offset, declare, Chunk(length, Sent(pieces)));
      var got := LookUp(id, pid, req);
      if got.Err? {
        return Refused(got.error);
      }
      var info, stored := got.value.0, got.value.1;
      CheckStep(cfg, Now(), pid, id, req, info, stored);
      ghost var looked := Looked(id, req, info, stored);
      Do(Check(pid));
      var checked := PatchChecks(info, stored, offset, declare, length);
      hide Put, WithInfo;
      if checked.No? {
        return Refused(checked.error);
      }
      if checked.Already? {
        return WriteOk(id, stored);
      }
      if declare.Some? {
        store.DeclareLength(id, info, declare.value);
      }
      var r := WriteChunk(id, checked.info, offset, length, pieces, fate, pid, looked, false);
      return Said(id, r);
    }

    /** GetUpload and GetInfo, under the lock. */
    method LookUp(id: Id, ghost pid: Pid, ghost req: Request) returns (got: Result<(FileInfo, nat), Error>)
      requires Valid() && Is(Now(), pid, Held(id, req)) && !req.Head?
      modifies this`run, this`steps
      ensures Valid()
      ensures got == if Present(store.Contents(), id) then Ok((store.infos[id], |store.files[id]|)) else Err(NotFound)
      ensures Is(Now(), pid, if got.Ok? then Looked(id, req, got.value.0, got.value.1) else Replying(Refused(NotFound), Some(id), true, false))
    {
      hide OnRun, Next, Enabled;
      got := store.GetUpload(id);
      LookStep(cfg, Now(), pid, id, req);
      Do(Look(pid));
    }

    /** The checks of PatchFile in their order; Go carries the info with the length that was declared. */
    method PatchChecks(info: FileInfo, stored: nat, offset: nat, declare: Option<int>, ghost length: int) returns (c: Checked)
      ensures Admitted(cfg, info, stored, offset, declare, length) ==
              match c { case No(e) => Refuse(e) case Already => AlreadyComplete case Go(i) => Admit(i, ChunkLimit(cfg, i, stored, length)) }
      ensures c.Go? ==> offset == stored
      ensures c.Go? ==> c.info == if declare.Some? then info.(size := declare.value, deferred := false) else info
    {
      hide ChunkLimit;
      if info.isFinal {
        return No(ModifyFinal);
      }
      if offset != stored {
        return No(MismatchOffset);
      }
      if !info.deferred && stored == info.size {
        return Already;
      }
      if declare.None? {
        return Go(info);
      }
      if !info.deferred || declare.value < 0 || declare.value < stored || (cfg.maxSize > 0 && declare.value > cfg.maxSize) {
        return No(InvalidUploadLength);
      }
      return Go(info.(size := declare.value, deferred := false));
    }

    /**
     PatchFile: from any state that handlers can reach, the code does what the protocol does, up to
     the answer and with the lock dropped again.
     */
    method PatchFile(id: Id, offset: nat, declare: Option<int>, length: int, pieces: seq<Piece>, fate: Fate, ghost pid: Pid)
      returns (reply: Reply)
      requires Valid() && Enabled(Now(), Begin(pid, Patch(id, offset, declare, Chunk(length, Sent(pieces)))))
      modifies this, store, locker
      ensures Valid() && old(run) <= run && Is(Now(), pid, Done(reply))
      ensures
        var o :=
          if id in old(locker.locks) then Outcome(Refused(FileLocked), old(store.Contents()), false)
          else PatchOutcome(cfg, old(store.Contents()), old(store.space), id, offset, declare, length, pieces, fate);
        reply == o.reply && store.Contents() == o.store && events == old(events) + if o.sent then [id] else []
      ensures PatchAnswered(cfg, old(store.Contents()), old(store.space), id in old(locker.locks), id, offset, declare, length, pieces, fate,
                            reply, store.Contents(), events == old(events) + [id])
      ensures locker.locks == old(locker.locks)
    {
      hide Sent, Next, Enabled, IsRun, PatchOutcome, PatchAnswered;
      PatchFits(Now(), pid, id, offset, declare, length, Sent(pieces));
      PatchAnswers(cfg, store.Contents(), store.space, id in locker.locks, id, offset, declare, length, pieces, fate);
      ghost var req := Patch(id, offset, declare, Chunk(length, Sent(pieces)));
      base := run;
      assert OnRun();
      hide OnRun;
      var locked := TakeLock(id, pid, req);
      if locked.Err? {
        return Refused(FileLocked);
      }
      reply := PatchLocked(id, offset, declare, length, pieces, fate, pid);
      locker.Unlock(id);
      SameLocks(old(locker.locks), id);
      ReleaseStep(cfg, Now(), pid, reply, Some(id), true, false);
      Do(Release(pid));
    }

    static lemma PatchFits(s: State, pid: Pid, id: Id, offset: nat, declare: Option<int>, length: int, body: Bytes)
      requires Enabled(s, Begin(pid, Patch(id, offset, declare, Chunk(length, body))))
      ensures -1 <= length && offset + length <= MAX_INT64
    {}

    /** lockUpload; without the lock the request is refused at once. */
    method TakeLock(id: Id, ghost pid: Pid, ghost req: Request) returns (r: Result<(), Error>)
      requires Valid() && Enabled(Now(), Begin(pid, req)) && Target(req) == Some(id)
      modifies this`run, this`steps, locker
      ensures Valid() && locker.locks == old(locker.locks) + {id}
      ensures r == if id in old(locker.locks) then Err(FileLocked) else Ok(())
      ensures Is(Now(), pid, if r.Ok? then Held(id, req) else Done(Refused(FileLocked)))
    {
      hide OnRun, Next, Enabled;
      BeginStep(cfg, Now(), pid, req);
      Do(Begin(pid, req));
      LockStep(cfg, Now(), pid, req, id);
      Do(TusProtocol.Lock(pid));
      r := locker.Lock(id);
      if r.Err? {
        ReleaseStep(cfg, Now(), pid, Refused(FileLocked), None, false, false);
        Do(Release(pid));
      }
    }

    // ----- HEAD and DELETE -----

    method HeadFile(id: Id, ghost pid: Pid) returns (reply: Reply)
      requires Valid() && Enabled(Now(), Begin(pid, Head(id)))
      modifies this, locker
      ensures Valid() && old(run) <= run && Is(Now(), pid, Done(reply))
      ensures reply == if id in old(locker.locks) then Refused(FileLocked)
                       else if Present(store.Contents(), id) then HeadOk(id, |store.files[id]|) else Refused(NotFound)
      ensures locker.locks == old(locker.locks)
    {
      hide Next, Enabled, IsRun, WithoutFile, WithoutInfo, Present, Put;
      base := run;
      assert OnRun();
      hide OnRun;
      var locked := TakeLock(id, pid, Head(id));
      if locked.Err? {
        return Refused(FileLocked);
      }
      reply := HeadLocked(id, pid);
      GiveBack(id, pid, reply, false);
      SameLocks(old(locker.locks), id);
    }

    method HeadLocked(id: Id, ghost pid: Pid) returns (reply: Reply)
      requires Valid() && Is(Now(), pid, Held(id, Head(id)))
      modifies this`run, this`steps
      ensures Valid() && Is(Now(), pid, Replying(reply, Some(id), true, false))
      ensures reply == if Present(store.Contents(), id) then HeadOk(id, |store.files[id]|) else Refused(NotFound)
    {
      hide OnRun, Next, Enabled;
      HeadStep(cfg, Now(), pid, id);
      var got := store.GetUpload(id);
      Do(Look(pid));
      return if got.Err? then Refused(got.error) else HeadOk(id, got.value.1);
    }

    static lemma SameLocks(locks: set<Id>, id: Id)
      ensures id !in locks ==> locks + {id} - {id} == locks
    {}

    /** The answer, with the lock dropped. */
    method GiveBack(id: Id, ghost pid: Pid, ghost reply: Reply, ghost post: bool)
      requires Valid() && Is(Now(), pid, Replying(reply, Some(id), true, post))
      modifies this`run, this`steps, locker
      ensures Valid() && Is(Now(), pid, Done(reply)) && locker.locks == old(locker.locks) - {id}
    {
      hide OnRun, Next, Enabled;
      locker.Unlock(id);
      ReleaseStep(cfg, Now(), pid, reply, Some(id), true, post);
      Do(Release(pid));
    }

    method DelFile(id: Id, removal: Removal, ghost pid: Pid) returns (reply: Reply)
      requires Valid() && Enabled(Now(), Begin(pid, Delete(id)))
      modifies this, store, locker
      ensures Valid() && old(run) <= run && Is(Now(), pid, Done(reply))
      ensures reply == if id in old(locker.locks) then Refused(FileLocked) else DeleteReply(old(store.Contents()), id, removal)
      ensures
        var may := id !in old(locker.locks) && id in old(store.infos) && id in old(store.files);
        && (reply == DeleteOk(id) <==> may && removal.infoOk && removal.binOk)
        && (reply == Refused(Failed) <==> may && !(removal.infoOk && removal.binOk))
        && (reply == Refused(NotFound) <==> id !in old(locker.locks) && !may)
        && store.infos == (if may && removal.infoOk then old(store.infos) - {id} else old(store.infos))
        && store.files == if may && removal.infoOk && removal.binOk then old(store.files) - {id} else old(store.files)
      ensures store.Contents() ==
              if id !in old(locker.locks) && Present(old(store.Contents()), id) then Removed(old(store.Contents()), id, removal)
              else old(store.Contents())
      ensures locker.locks == old(locker.locks)
    {
      RemovedIs(store.Contents(), id, removal);
      hide Next, Enabled, IsRun, Removed, Present, Put, DeleteReply;
      base := run;
      assert OnRun();
      hide OnRun;
      var locked := TakeLock(id, pid, Delete(id));
      if locked.Err? {
        return Refused(FileLocked);
      }
      reply := DelLocked(id, removal, pid);
      GiveBack(id, pid, reply, false);
      SameLocks(old(locker.locks), id);
    }

    static lemma RemovedIs(st: Store, id: Id, removal: Removal)
      ensures Present(st, id) <==> id in st.infos && id in st.files
      ensures DeleteReply(st, id, removal) ==
              if !(id in st.infos && id in st.files) then Refused(NotFound)
              else if removal.infoOk && removal.binOk then DeleteOk(id) else Refused(Failed)
      ensures Removed(st, id, removal).infos == if removal.infoOk then st.infos - {id} else st.infos
      ensures Removed(st, id, removal).files == if removal.infoOk && removal.binOk then st.files - {id} else st.files
    {}

    static function DeleteReply(st: Store, id: Id, removal: Removal): Reply
    {
      if !Present(st, id) then Refused(NotFound)
      else if removal.infoOk && removal.binOk then DeleteOk(id) else Refused(Failed)
    }

    method DelLocked(id: Id, removal: Removal, ghost pid: Pid) returns (reply: Reply)
      requires Valid() && Is(Now(), pid, Held(id, Delete(id)))
      modifies this`run, this`steps, store
      ensures Valid() && Is(Now(), pid, Replying(reply, Some(id), true, false))
      ensures reply == DeleteReply(old(store.Contents()), id, removal)
      ensures store.Contents() ==
              if Present(old(store.Contents()), id) then Removed(old(store.Contents()), id, removal) else old(store.Contents())
    {
      hide OnRun, Next, Enabled, Put, Removed;
      var got := LookUp(id, pid, Delete(id));
      if got.Err? {
        return Refused(NotFound);
      }
      var ok := store.Terminate(id, removal);
      DeleteSteps(id, removal, pid, got.value.0, got.value.1);
      return if ok then DeleteOk(id) else Refused(Failed);
    }

    /** The steps of a termination by DELETE. */
    ghost method DeleteSteps(id: Id, removal: Removal, pid: Pid, info: FileInfo, stored: nat)
      requires run != [] && OnRun() && Is(Now(), pid, Looked(id, Delete(id), info, stored))
      modifies this`run, this`steps
      ensures run != [] && OnRun()
      ensures Is(Now(), pid, Replying(if removal.infoOk && removal.binOk then DeleteOk(id) else Refused(Failed), Some(id), true, false))
      ensures Now().locks == old(Now().locks) && Now().hist == old(Now().hist)
      ensures Now().store == Removed(old(Now().store), id, removal)
    {
      hide OnRun, Next, Enabled;
      if !removal.infoOk {
        DeleteFailsStep(cfg, Now(), pid, Looked(id, Delete(id), info, stored), id);
        Do(RemoveFails(pid));
        return;
      }
      DeleteInfoStep(cfg, Now(), pid, id, info, stored);
      Do(RemoveInfo(pid));
      if !removal.binOk {
        DeleteFailsStep(cfg, Now(), pid, Deleting(id), id);
        Do(RemoveFails(pid));
      } else {
        DeleteBinStep(cfg, Now(), pid, id);
        Do(RemoveBin(pid));
      }
    }

    // ----- POST of an upload that is not final -----

    /** PostFile for an upload that is not final; first is the chunk that may come with it. */
    method PostFile(info: FileInfo, first: Option<(int, seq<Piece>)>, id: Id, fate: Fate, ghost pid: Pid) returns (reply: Reply)
      requires Valid() && Enabled(Now(), Begin(pid, Create(info, FirstChunk(first))))
      requires id !in Now().used && id !in store.files
      modifies this, store, locker
      ensures Valid() && old(run) <= run && Is(Now(), pid, Done(reply))
      ensures
        var o := PostOutcome(cfg, old(store.Contents()), old(store.space), id in old(locker.locks), id, info, first, fate);
        reply == o.reply && store.Contents() == o.store && events == old(events) + if o.sent then [id] else []
      ensures PostAnswered(cfg, old(store.Contents()), old(store.space), id in old(locker.locks), id, info, first, fate,
                           reply, store.Contents(), events == old(events) + [id])
      ensures id !in old(locker.locks) ==> locker.locks == old(locker.locks)
    {
      FirstFits(Now(), pid, info, first);
      PostAnswers(cfg, store.Contents(), store.space, id in locker.locks, id, info, first, fate);
      hide Next, Enabled, PostOutcome, PostAnswered, FirstChunk;
      reply := PostNew(info, first, id, fate, pid);
    }

    method PostNew(info: FileInfo, first: Option<(int, seq<Piece>)>, id: Id, fate: Fate, ghost pid: Pid) returns (reply: Reply)
      requires Valid() && Enabled(Now(), Begin(pid, Create(info, FirstChunk(first))))
      requires id !in Now().used && id !in store.files
      modifies this, store, locker
      ensures Valid() && old(run) <= run && Is(Now(), pid, Done(reply))
      ensures
        var o := PostOutcome(cfg, old(store.Contents()), old(store.space), id in old(locker.locks), id, info, first, fate);
        reply == o.reply && store.Contents() == o.store && events == old(events) + if o.sent then [id] else []
      ensures id !in old(locker.locks) ==> locker.locks == old(locker.locks)
    {
      hide Next, Enabled, IsRun, MadeOutcome, FirstChunk, Put, Sent;
      base := run;
      assert OnRun();
      hide OnRun;
      var made := NewFile(info, first, id, pid);
      if !made {
        SendAnswer(pid, Refused(MaxSizeExceeded), None, false);
        return Refused(MaxSizeExceeded);
      }
      reply := PostMade(info, first, id, fate, pid);
    }

    static lemma FirstFits(s: State, pid: Pid, info: FileInfo, first: Option<(int, seq<Piece>)>)
      requires Enabled(s, Begin(pid, Create(info, FirstChunk(first))))
      ensures first.Some? ==> -1 <= first.value.0 <= MAX_INT64
    {}

    method PostMade(info: FileInfo, first: Option<(int, seq<Piece>)>, id: Id, fate: Fate, ghost pid: Pid) returns (reply: Reply)
      requires Valid() && Present(store.Contents(), id) && Is(Now(), pid, Made(id, info, FirstChunk(first)))
      modifies this`run, this`steps, this`events, store, locker
      ensures Valid() && Is(Now(), pid, Done(reply))
      ensures
        var o := MadeOutcome(cfg, old(store.Contents()), old(store.space), id in old(locker.locks), id, info, first, fate);
        reply == o.reply && store.Contents() == o.store && events == old(events) + if o.sent then [id] else []
      ensures id !in old(locker.locks) ==> locker.locks == old(locker.locks)
    {
      hide OnRun, Next, Enabled, WriteOutcome, ChunkLimit, Sent;
      if first.None? {
        reply := FinishEmptyFile(info, id, fate.hookOk, pid);
        SendAnswer(pid, reply, Some(id), true);
      } else {
        reply := WriteFirst(info, first.value.0, first.value.1, id, fate, pid);
      }
    }

    method WriteFirst(info: FileInfo, length: int, pieces: seq<Piece>, id: Id, fate: Fate, ghost pid: Pid) returns (reply: Reply)
      requires Valid() && Present(store.Contents(), id) && Is(Now(), pid, Made(id, info, Some(Chunk(length, Sent(pieces)))))
      modifies this`run, this`steps, this`events, store, locker
      ensures Valid() && Is(Now(), pid, Done(reply))
      ensures
        var o :=
          if id in old(locker.locks) then Outcome(Refused(FileLocked), old(store.Contents()), false)
          else WriteOutcome(cfg, old(store.Contents()), old(store.space), id, info, 0, ChunkLimit(cfg, info, 0, length), pieces, fate);
        reply == o.reply && store.Contents() == o.store && events == old(events) + if o.sent then [id] else []
      ensures id !in old(locker.locks) ==> locker.locks == old(locker.locks)
    {
      hide OnRun, Next, Enabled, Sent, ChunkLimit, BeginWrite, WriteOutcome;
      var locked := OpenFirstChunk(info, length, pieces, id, pid);
      if locked.Err? {
        SendAnswer(pid, Refused(FileLocked), Some(id), true);
        return Refused(FileLocked);
      }
      var r := WriteChunk(id, info, 0, length, pieces, fate, pid, Replying(CreateOk(id), Some(id), true, true), true);
      reply := Said(id, r);
      GiveBack(id, pid, reply, true);
      SameLocks(old(locker.locks), id);
    }

    static function FirstChunk(first: Option<(int, seq<Piece>)>): Option<Chunk>
    {
      if first.None? then None else Some(Chunk(first.value.0, Sent(first.value.1)))
    }

    method NewFile(info: FileInfo, ghost first: Option<(int, seq<Piece>)>, id: Id, ghost pid: Pid) returns (made: bool)
      requires Valid() && Enabled(Now(), Begin(pid, Create(info, FirstChunk(first))))
      requires id !in Now().used && id !in store.files
      modifies this`run, this`steps, store
      ensures Valid() && made == !(cfg.maxSize > 0 && info.size > cfg.maxSize)
      ensures Is(Now(), pid, if made then Made(id, info, FirstChunk(first)) else Replying(Refused(MaxSizeExceeded), None, false, false))
      ensures store.Contents() == if made then WithNew(old(store.Contents()), id, info) else old(store.Contents())
      ensures store.space == old(store.space)
    {
      hide OnRun, Next, Enabled, FirstChunk;
      BeginStep(cfg, Now(), pid, Create(info, FirstChunk(first)));
      Do(Begin(pid, Create(info, FirstChunk(first))));
      MakeStep(cfg, Now(), pid, info, FirstChunk(first), id);
      Do(Make(pid, id));
      if cfg.maxSize > 0 && info.size > cfg.maxSize {
        return false;
      }
      store.NewUpload(id, info);
      return true;
    }

    method FinishEmptyFile(info: FileInfo, id: Id, hookOk: bool, ghost pid: Pid) returns (reply: Reply)
      requires Valid() && Is(Now(), pid, Made(id, info, None))
      modifies this`run, this`steps, this`events
      ensures Valid() && Is(Now(), pid, Replying(reply, Some(id), false, true))
      ensures
        var empty := !info.deferred && info.size == 0;
        && reply == (if empty && !hookOk then Refused(Failed) else CreateOk(id))
        && events == old(events) + if empty && hookOk && cfg.notify then [id] else []
    {
      hide OnRun, Next, Enabled;
      FinishEmptyStep(cfg, Now(), pid, id, info, hookOk);
      Do(FinishEmpty(pid, hookOk));
      if !info.deferred && info.size == 0 {
        if !hookOk {
          return Refused(Failed);
        }
        if cfg.notify {
          assert multiset(events + [id]) == multiset(events) + multiset{id};
          events := events + [id];
        }
      }
      return CreateOk(id);
    }

    method OpenFirstChunk(info: FileInfo, length: int, pieces: seq<Piece>, id: Id, ghost pid: Pid) returns (r: Result<(), Error>)
      requires Valid() && Is(Now(), pid, Made(id, info, Some(Chunk(length, Sent(pieces)))))
      modifies this`run, this`steps, locker
      ensures Valid() && locker.locks == old(locker.locks) + {id}
      ensures r == if id in old(locker.locks) then Err(FileLocked) else Ok(())
      ensures
        var holder := Replying(CreateOk(id), Some(id), true, true);
        Is(Now(), pid,
           if r.Ok? then BeginWrite(holder, id, info, 0, ChunkLimit(cfg, info, 0, length), Sent(pieces), true)
           else Replying(Refused(FileLocked), Some(id), false, true))
    {
      hide OnRun, Next, Enabled, Sent, ChunkLimit, BeginWrite;
      OpenFirstStep(cfg, Now(), pid, id, info, Chunk(length, Sent(pieces)));
      Do(OpenFirst(pid));
      r := locker.Lock(id);
    }

    // ----- POST of a final upload -----

    /** One round of sizeOfUploads. */
    method SizeOfOne(ids: seq<Id>, i: nat, size: int, ghost parts: seq<Bytes>, ghost pid: Pid) returns (r: Result<int, Error>)
      requires Valid() && i < |ids| && |parts| == i && Is(Now(), pid, Sizing(ids, size, parts, None))
      requires ids[i] in store.infos ==> size + store.infos[ids[i]].size <= MAX_INT64
      modifies this`run, this`steps
      ensures Valid() && events == old(events) && Now().used == old(Now().used)
      ensures r.Ok? <==> Finished(store.Contents(), ids[i])
      ensures r.Err? ==> r.error == if Present(store.Contents(), ids[i]) then NotFinished else NotFound
      ensures r.Ok? ==> r.value == size + store.infos[ids[i]].size
      ensures Is(Now(), pid, if r.Ok? then Sizing(ids, r.value, parts + [store.files[ids[i]]], None)
                             else Replying(Refused(r.error), None, false, false))
    {
      hide OnRun, Next, Enabled;
      var got := store.GetUpload(ids[i]);
      ReadInfoStep(cfg, Now(), pid, ids, size, parts);
      Do(ReadInfo(pid));
      if ids[i] !in store.infos {
        return Err(NotFound);
      }
      StatStep(cfg, Now(), pid, ids, size, parts, store.infos[ids[i]]);
      Do(Stat(pid));
      if got.Err? {
        return Err(NotFound);
      }
      var info, stored := got.value.0, got.value.1;
      if info.deferred || stored != info.size {
        return Err(NotFinished);
      }
      return Ok(size + info.size);
    }

    /** sizeOfUploads: every partial upload must be there and complete; no lock is held. */
    method SizeOfUploads(ids: seq<Id>, ghost pid: Pid) returns (r: Result<int, Error>, ghost parts: seq<Bytes>)
      requires Valid() && Is(Now(), pid, Sizing(ids, 0, [], None))
      requires SumsFit(store.Contents(), ids)
      modifies this`run, this`steps
      ensures Valid() && events == old(events) && Now().used == old(Now().used)
      ensures r.Err? ==> Is(Now(), pid, Replying(Refused(r.error), None, false, false))
      ensures r.Ok? ==> Is(Now(), pid, Sizing(ids, r.value, parts, None))
      ensures r.Ok? ==> r.value == SizeSum(store.Contents(), ids) && parts == Parts(store.files, ids)
      ensures r.Ok? <==> AllFinished(store.Contents(), ids)
      ensures r.Err? ==> exists i: nat :: FirstUnfinished(store.Contents(), ids, i, r.error)
    {
      ghost var st := store.Contents();
      NothingSized(st, ids);
      hide OnRun, Next, Enabled, Sized, SizeSum, Parts, Finished, AllFinished, FirstUnfinished, SumsFit;
      var size := 0;
      var i := 0;
      parts := [];
      while i < |ids|
        invariant i <= |ids| && Valid() && store.Contents() == st && Sized(st, ids, i, size, parts)
        invariant events == old(events) && Now().used == old(Now().used)
        invariant |parts| == i && Is(Now(), pid, Sizing(ids, size, parts, None))
        modifies this`run, this`steps
      {
        OneMoreSized(st, ids, i, size, parts);
        var one := SizeOfOne(ids, i, size, parts, pid);
        if one.Err? {
          return one, parts;
        }
        size := one.value;
        parts := parts + [store.files[ids[i]]];
        i := i + 1;
      }
      AllSized(st, ids, size, parts);
      r := Ok(size);
    }

    /** Of the first i uploads: all complete, with this sum of sizes and these contents. */
    static ghost predicate Sized(st: Store, ids: seq<Id>, i: nat, size: int, parts: seq<Bytes>)
      requires i <= |ids|
    {
      size == SizeSum(st, ids[..i]) && parts == Parts(st.files, ids[..i]) && AllFinished(st, ids[..i])
    }

    static lemma NothingSized(st: Store, ids: seq<Id>)
      ensures Sized(st, ids, 0, 0, [])
    {}

    static lemma OneMoreSized(st: Store, ids: seq<Id>, i: nat, size: int, parts: seq<Bytes>)
      requires i < |ids| && SumsFit(st, ids) && Sized(st, ids, i, size, parts)
      ensures ids[i] in st.infos ==> size + st.infos[ids[i]].size <= MAX_INT64
      ensures Finished(st, ids[i]) ==>
                && ids[i] in st.infos && ids[i] in st.files
                && Sized(st, ids, i + 1, size + st.infos[ids[i]].size, parts + [st.files[ids[i]]])
      ensures !Finished(st, ids[i]) ==>
                !AllFinished(st, ids) && FirstUnfinished(st, ids, i, if Present(st, ids[i]) then NotFinished else NotFound)
    {
      OneMoreFile(st, ids, i);
    }

    static lemma AllSized(st: Store, ids: seq<Id>, size: int, parts: seq<Bytes>)
      requires Sized(st, ids, |ids|, size, parts)
      ensures size == SizeSum(st, ids) && parts == Parts(st.files, ids) && AllFinished(st, ids)
    {
      assert ids[..|ids|] == ids;
    }

    static lemma OneMoreFile(st: Store, ids: seq<Id>, i: nat)
      requires i < |ids|
      ensures SizeSum(st, ids[..i + 1]) == SizeSum(st, ids[..i]) + if ids[i] in st.infos then st.infos[ids[i]].size else 0
      ensures ids[i] in st.files ==> Parts(st.files, ids[..i + 1]) == Parts(st.files, ids[..i]) + [st.files[ids[i]]]
      ensures Finished(st, ids[i]) ==> ids[i] in st.infos && ids[i] in st.files
      ensures SumsFit(st, ids) ==> SizeSum(st, ids[..i + 1]) <= MAX_INT64
      ensures AllFinished(st, ids[..i]) && Finished(st, ids[i]) ==> AllFinished(st, ids[..i + 1])
      ensures AllFinished(st, ids) ==> Finished(st, ids[i])
    {
      assert ids[..i + 1][..i] == ids[..i];
    }

    static predicate AllFinished(st: Store, ids: seq<Id>)
    {
      forall k :: 0 <= k < |ids| ==> Finished(st, ids[k])
    }

    /** The first upload that is not complete decides the error. */
    static predicate FirstUnfinished(st: Store, ids: seq<Id>, i: nat, error: Error)
    {
      i < |ids| && AllFinished(st, ids[..i]) && !Finished(st, ids[i]) && error == if Present(st, ids[i]) then NotFinished else NotFound
    }

    static predicate Finished(st: Store, id: Id)
    {
      Present(st, id) && Complete(st.infos[id], |st.files[id]|)
    }

    /** The copies, one step each. */
    ghost method DoCopies(id: Id, ids: seq<Id>, size: int, parts: seq<Bytes>, copied: nat, pid: Pid)
      requires run != [] && OnRun() && copied <= |ids| && id !in ids && id in Now().store.files
      requires Is(Now(), pid, Joining(id, ids, size, parts, 0))
      requires forall k :: 0 <= k < copied ==> ids[k] in Now().store.files
      modifies this`run, this`steps
      ensures run != [] && OnRun()
      ensures Is(Now(), pid, Joining(id, ids, size, parts, copied))
      ensures Now().locks == old(Now().locks) && Now().hist == old(Now().hist)
      ensures
        var st := old(Now().store);
        Now().store == WithFile(st, id, st.files[id] + CopiedTo(st.files, ids, copied, 0))
    {
      var st := Now().store;
      assert st.files[id] + CopiedTo(st.files, ids, 0, 0) == st.files[id];
      assert st.files == st.files[id := st.files[id]];
      hide OnRun, Next, Enabled, CopiedTo, Parts, Joined, WithFile;
      var i := 0;
      while i < copied
        invariant i <= copied && run != [] && OnRun()
        invariant Is(Now(), pid, Joining(id, ids, size, parts, i))
        invariant Now().locks == old(Now().locks) && Now().hist == old(Now().hist)
        invariant Now().store == WithFile(st, id, st.files[id] + CopiedTo(st.files, ids, i, 0))
      {
        CopyGrows(st, Now().store, id, ids, i);
        CopyPartStep(cfg, Now(), pid, id, ids, size, parts, i);
        Do(CopyPart(pid));
        i := i + 1;
      }
    }

    /** ConcatUploads and the events after it. */
    method Concatenate(id: Id, ids: seq<Id>, size: int, hookOk: bool, ghost parts: seq<Bytes>, ghost pid: Pid)
      returns (r: Result<Id, Error>)
      requires Valid() && id in store.files && id !in ids
      requires Is(Now(), pid, Joining(id, ids, size, parts, 0))
      modifies this`run, this`steps, this`events, store
      ensures Valid() && (r.Err? ==> r.error == Failed)
      ensures Is(Now(), pid, Replying(if r.Ok? then JoinOk(id, ids, parts) else Refused(Failed), Some(id), false, true))
      ensures r.Ok? ==> r.value == id
      ensures
        var fits := AllThere(old(store.files), ids) && TotalLength(Parts(old(store.files), ids)) <= old(store.space);
        && (r.Ok? <==> fits && (size != 0 || hookOk))
        && events == old(events) + if fits then FinalEvents(cfg, id, size, hookOk) else []
      ensures
        var fits := AllThere(old(store.files), ids) && TotalLength(Parts(old(store.files), ids)) <= old(store.space);
        Grown(old(store.Contents()), store.Contents(), id, ids, fits)
    {
      hide OnRun, Next, Enabled, Parts, Joined, Grown, AllThere, TotalLength, FinalEvents;
      var failed := CopyFiles(id, ids, size, parts, pid);
      if failed {
        return Err(Failed);
      }
      r := FinishJoined(id, ids, size, hookOk, parts, pid);
    }

    /** The copies of ConcatUploads, as steps of the protocol. */
    method CopyFiles(id: Id, ids: seq<Id>, size: int, ghost parts: seq<Bytes>, ghost pid: Pid) returns (failed: bool)
      requires Valid() && id in store.files && id !in ids
      requires Is(Now(), pid, Joining(id, ids, size, parts, 0))
      modifies this`run, this`steps, store
      ensures Valid()
      ensures Is(Now(), pid, if failed then Replying(Refused(Failed), Some(id), false, true) else Joining(id, ids, size, parts, |ids|))
      ensures failed == !(AllThere(old(store.files), ids) && TotalLength(Parts(old(store.files), ids)) <= old(store.space))
      ensures Grown(old(store.Contents()), store.Contents(), id, ids, !failed)
    {
      ghost var st := store.Contents();
      hide OnRun, Next, Enabled, CopiedTo, Parts, Joined, Grown, AllThere, TotalLength, WithFile;
      var copied, part;
      copied, part, failed := CopyAll(id, ids);
      DoCopies(id, ids, size, parts, copied, pid);
      if failed {
        BreakOff(id, ids, size, parts, copied, part, st, pid);
      } else {
        NothingMore(st, ids, part);
      }
    }

    static lemma NothingMore(st: Store, ids: seq<Id>, part: nat)
      ensures CopiedTo(st.files, ids, |ids|, part) == CopiedTo(st.files, ids, |ids|, 0)
    {}

    /** ConcatUploads of the store. */
    method CopyAll(id: Id, ids: seq<Id>) returns (copied: nat, part: nat, failed: bool)
      requires id in store.files && id !in ids
      modifies store
      ensures copied <= |ids| && failed == (copied < |ids|) && (forall k :: 0 <= k < copied ==> ids[k] in old(store.files))
      ensures part > 0 ==> failed && ids[copied] in old(store.files) && part <= |old(store.files)[ids[copied]]|
      ensures failed == !(AllThere(old(store.files), ids) && TotalLength(Parts(old(store.files), ids)) <= old(store.space))
      ensures store.Contents() == WithFile(old(store.Contents()), id, old(store.files)[id] + CopiedTo(old(store.files), ids, copied, part))
      ensures Grown(old(store.Contents()), store.Contents(), id, ids, !failed)
    {
      hide CopiedTo, Parts, Joined, TotalLength, Grown;
      ghost var st := store.Contents();
      copied, part, failed := store.ConcatUploads(id, ids);
      CopiesGrow(st, store.Contents(), id, ids, copied, part);
    }

    /** The events of PostFile after ConcatUploads: the second one comes from finishUploadIfComplete. */
    method FinishJoined(id: Id, ids: seq<Id>, size: int, hookOk: bool, ghost parts: seq<Bytes>, ghost pid: Pid)
      returns (r: Result<Id, Error>)
      requires Valid() && Is(Now(), pid, Joining(id, ids, size, parts, |ids|))
      modifies this`run, this`steps, this`events
      ensures Valid() && (r.Err? ==> r.error == Failed)
      ensures Is(Now(), pid, Replying(if r.Ok? then JoinOk(id, ids, parts) else Refused(Failed), Some(id), false, true))
      ensures r.Ok? ==> r.value == id
      ensures r.Ok? <==> size != 0 || hookOk
      ensures events == old(events) + FinalEvents(cfg, id, size, hookOk)
    {
      hide OnRun, Next, Enabled;
      FinishJoinStep(cfg, Now(), pid, id, ids, size, parts, hookOk);
      Do(FinishJoin(pid, hookOk));
      if cfg.notify {
        events := events + [id];
      }
      if size == 0 {
        if !hookOk {
          return Err(Failed);
        }
        if cfg.notify {
          events := events + [id];
        }
      }
      return Ok(id);
    }

    ghost method BreakOff(id: Id, ids: seq<Id>, size: int, parts: seq<Bytes>, copied: nat, part: nat, st: Store, pid: Pid)
      requires run != [] && OnRun() && id !in ids && id in st.files && copied < |ids|
      requires Is(Now(), pid, Joining(id, ids, size, parts, copied))
      requires Now().store == WithFile(st, id, st.files[id] + CopiedTo(st.files, ids, copied, 0))
      requires ids[copied] in st.files ==> part <= |st.files[ids[copied]]|
      requires ids[copied] !in st.files ==> part == 0
      modifies this`run, this`steps
      ensures run != [] && OnRun()
      ensures Is(Now(), pid, Replying(Refused(Failed), Some(id), false, true))
      ensures Now().locks == old(Now().locks) && Now().hist == old(Now().hist)
      ensures Now().store == WithFile(st, id, st.files[id] + CopiedTo(st.files, ids, copied, part))
    {
      hide OnRun, Next, Enabled, CopiedTo, Parts, Joined;
      if ids[copied] !in st.files {
        CopyPartStep(cfg, Now(), pid, id, ids, size, parts, copied);
        Do(CopyPart(pid));
      } else {
        CopiedMore(st.files, ids, copied, part);
        assert st.files[id] + CopiedTo(st.files, ids, copied, part) == st.files[id] + CopiedTo(st.files, ids, copied, 0) + st.files[ids[copied]][..part];
        CopyBreaksStep(cfg, Now(), pid, id, ids, size, parts, copied, part);
        Do(CopyBreaks(pid, part));
      }
    }

    /**
     PostFile for a final upload. What the answer promises does not lean on anybody's lock: the sizes
     were summed first, the files are copied afterwards.
     */
    method PostFinal(ids: seq<Id>, id: Id, hookOk: bool, ghost pid: Pid) returns (r: Result<Id, Error>)
      requires Valid() && Enabled(Now(), Begin(pid, Concat(ids)))
      requires id !in Now().used && id !in ids && id !in store.files
      requires SumsFit(store.Contents(), ids)
      modifies this, store
      ensures Valid() && old(run) <= run
      ensures Is(Now(), pid, Done(if r.Ok? then JoinOk(id, ids, Parts(old(store.files), ids)) else Refused(r.error)))
      ensures r.Ok? ==> r.value == id
      ensures
        var st := old(store.Contents());
        r.Err? ==>
          if AllFinished(st, ids) then r.error == if cfg.maxSize > 0 && SizeSum(st, ids) > cfg.maxSize then MaxSizeExceeded else Failed
          else exists i: nat :: FirstUnfinished(st, ids, i, r.error)
      ensures
        var size := SizeSum(old(store.Contents()), ids);
        var allowed := AllFinished(old(store.Contents()), ids) && !(cfg.maxSize > 0 && size > cfg.maxSize);
        var fits := TotalLength(Parts(old(store.files), ids)) <= old(store.space);
        && (r.Ok? <==> allowed && fits && (size != 0 || hookOk))
        && events == old(events) + (if allowed && fits then FinalEvents(cfg, id, size, hookOk) else [])
        && (allowed ==> MadeOf(old(store.Contents()), store.Contents(), id, ids, size, fits))
        && (!allowed ==> store.Contents() == old(store.Contents()))
    {
      hide Next, Enabled, IsRun, SizeSum, Joined, Parts, Finished, MadeOf, AllThere, TotalLength, AllFinished, FirstUnfinished, FinalEvents;
      base := run;
      assert OnRun();
      hide OnRun;
      BeginConcatStep(cfg, Now(), pid, ids);
      Do(Begin(pid, Concat(ids)));
      var sum, parts := SizeOfUploads(ids, pid);
      if sum.Err? {
        SendAnswer(pid, Refused(sum.error), None, false);
        return Err(sum.error);
      }
      FinishedThere(store.Contents(), ids);
      r := CreateFinal(ids, id, sum.value, hookOk, parts, pid);
    }

    /** PostFile once the size of the final upload is known. */
    method CreateFinal(ids: seq<Id>, id: Id, size: int, hookOk: bool, ghost parts: seq<Bytes>, ghost pid: Pid) returns (r: Result<Id, Error>)
      requires Valid() && Is(Now(), pid, Sizing(ids, size, parts, None)) && |parts| == |ids|
      requires id !in Now().used && id !in ids && id !in store.files
      modifies this`run, this`steps, this`events, store
      ensures Valid() && Is(Now(), pid, Done(if r.Ok? then JoinOk(id, ids, parts) else Refused(r.error)))
      ensures r.Ok? ==> r.value == id
      ensures r.Err? ==> r.error == if cfg.maxSize > 0 && size > cfg.maxSize then MaxSizeExceeded else Failed
      ensures
        var allowed := !(cfg.maxSize > 0 && size > cfg.maxSize);
        var fits := AllThere(old(store.files), ids) && TotalLength(Parts(old(store.files), ids)) <= old(store.space);
        && (r.Ok? <==> allowed && fits && (size != 0 || hookOk))
        && events == old(events) + (if allowed && fits then FinalEvents(cfg, id, size, hookOk) else [])
        && (allowed ==> MadeOf(old(store.Contents()), store.Contents(), id, ids, size, fits))
        && (!allowed ==> store.Contents() == old(store.Contents()))
    {
      ghost var st := store.Contents();
      hide OnRun, Next, Enabled, Joined, Parts, AllThere, TotalLength, MadeOf, FinalEvents, WithNew;
      var made := NewFinal(ids, id, size, parts, pid);
      if !made {
        SendAnswer(pid, Refused(MaxSizeExceeded), None, false);
        return Err(MaxSizeExceeded);
      }
      r := JoinFinal(ids, id, size, hookOk, parts, pid, st);
    }

    /** The copies, the events and the answer. */
    method JoinFinal(ids: seq<Id>, id: Id, size: int, hookOk: bool, ghost parts: seq<Bytes>, ghost pid: Pid, ghost st: Store)
      returns (r: Result<Id, Error>)
      requires Valid() && Is(Now(), pid, Joining(id, ids, size, parts, 0)) && id !in ids && id !in st.files
      requires store.Contents() == WithNew(st, id, FileInfo(size, false, false, true, ids))
      modifies this`run, this`steps, this`events, store
      ensures Valid() && Is(Now(), pid, Done(if r.Ok? then JoinOk(id, ids, parts) else Refused(r.error)))
      ensures if r.Ok? then r.value == id else r.error == Failed
      ensures
        var fits := AllThere(st.files, ids) && TotalLength(Parts(st.files, ids)) <= old(store.space);
        && (r.Ok? <==> fits && (size != 0 || hookOk))
        && events == old(events) + (if fits then FinalEvents(cfg, id, size, hookOk) else [])
        && MadeOf(st, store.Contents(), id, ids, size, fits)
    {
      FinalBytes(st.files, ids, id);
      hide OnRun, Next, Enabled, Joined, Parts, Grown, AllThere, TotalLength, MadeOf, FinalEvents;
      r := Concatenate(id, ids, size, hookOk, parts, pid);
      GrownIsMade(st, store.Contents(), id, ids, size, AllThere(st.files, ids) && TotalLength(Parts(st.files, ids)) <= old(store.space));
      SendAnswer(pid, if r.Ok? then JoinOk(id, ids, parts) else Refused(Failed), Some(id), true);
    }

    /** The test against MaxSize and NewUpload. */
    method NewFinal(ids: seq<Id>, id: Id, size: int, ghost parts: seq<Bytes>, ghost pid: Pid) returns (made: bool)
      requires Valid() && Is(Now(), pid, Sizing(ids, size, parts, None)) && |parts| == |ids|
      requires id !in Now().used && id !in store.files
      modifies this`run, this`steps, store
      ensures Valid() && made == !(cfg.maxSize > 0 && size > cfg.maxSize)
      ensures Is(Now(), pid, if made then Joining(id, ids, size, parts, 0) else Replying(Refused(MaxSizeExceeded), None, false, false))
      ensures made ==> store.Contents() == WithNew(old(store.Contents()), id, FileInfo(size, false, false, true, ids))
      ensures store.space == old(store.space)
      ensures !made ==> store.Contents() == old(store.Contents())
    {
      hide OnRun, Next, Enabled;
      MakeFinalStep(cfg, Now(), pid, ids, size, parts, id);
      Do(MakeFinal(pid, id));
      if cfg.maxSize > 0 && size > cfg.maxSize {
        return false;
      }
      store.NewUpload(id, FileInfo(size, false, false, true, ids));
      return true;
    }

    static lemma FinishedThere(st: Store, ids: seq<Id>)
      requires AllFinished(st, ids)
      ensures AllThere(st.files, ids)
    {}

    static lemma FinalBytes(files: map<Id, Bytes>, ids: seq<Id>, id: Id)
      requires id !in ids
      ensures [] + Joined(Parts(files[id := []], ids)) == Joined(Parts(files, ids))
      ensures Parts(files[id := []], ids) == Parts(files, ids)
      ensures AllThere(files[id := []], ids) == AllThere(files, ids)
    {
      assert Parts(files[id := []], ids) == Parts(files, ids);
    }
  }
}
