/** Every step of every handler keeps the invariant and moves the store as Evolves allows. */
module TusSteps {
  import opened Basics
  import opened TusStore
  import opened TusProtocol
  import opened TusInvariant

  /** What a step must do: keep the invariant, and move the store as Evolves allows. */
  ghost predicate Good(cfg: Config, s: State, s': State)
  {
    Inv(cfg, s') && Evolves(s.store, s'.store, s.used) && s.used <= s'.used
  }

  ghost predicate At(cfg: Config, s: State, pid: Pid, p: Proc)
  {
    Inv(cfg, s) && pid in s.procs && p == s.procs[pid]
  }

  /** What the invariant says of one handler and of the upload it owns. */
  lemma Known(cfg: Config, s: State, pid: Pid, p: Proc)
    requires At(cfg, s, pid, p)
    ensures ProcOk(s, p) && LocksOf(p) <= s.locks && Mentions(p) <= s.used
    ensures OwnOf(p).Some? ==> UploadOk(cfg, s, OwnOf(p).value) && OwnOf(p).value in Mentions(p)
  {
    OwnMentioned(p);
  }

  /** A move after which the handler owns, mentions and hides no more than before. */
  lemma Shrinks(cfg: Config, s: State, s': State, pid: Pid, p: Proc, p': Proc)
    requires At(cfg, s, pid, p)
    requires Moves(cfg, s, s', pid, p, p')
    requires Own(p') <= Own(p) && Mentions(p') <= Mentions(p) && Hidden(p') <= Hidden(p)
    requires EventsOk(s')
    ensures Good(cfg, s, s')
  {
    forall q | q in s.procs && q != pid
      ensures Apart(p', s.procs[q])
    {
      assert Apart(p, s.procs[q]);
    }
    MovesKeep(cfg, s, s', pid, p, p');
    MovesEvolve(cfg, s, s', pid, p, p');
  }

  /** A move that leaves everything shared as it was. */
  lemma Quiet(cfg: Config, s: State, pid: Pid, p: Proc, p': Proc)
    requires At(cfg, s, pid, p)
    requires Own(p') <= Own(p) && Mentions(p') <= Mentions(p) && Hidden(p') <= Hidden(p)
    requires LocksOf(p') <= LocksOf(p) && ProcOk(s, p')
    requires Answered(s, pid) ==> p'.Replying? || p'.Done?
    ensures Good(cfg, s, Put(s, pid, p'))
  {
    hide ProcOk, UploadOk, Mentions, ProcsApart, Frozen, PendingOk;
    var s' := Put(s, pid, p');
    SameUploads(cfg, s, s');
    Known(cfg, s, pid, p);
    ProcOkLocal(s, s', p');
    assert Moves(cfg, s, s', pid, p, p');
    EventsStay(s, s', pid);
    Shrinks(cfg, s, s', pid, p, p');
  }

  lemma ProcOkLocal(s: State, s': State, p: Proc)
    requires s'.store == s.store && s'.hist.completed == s.hist.completed && ProcOk(s, p)
    ensures ProcOk(s', p)
  {}

  lemma RefusalOk(s: State, p: Proc, e: Error)
    requires ProcOk(s, p)
    ensures
      var p' := Refusal(p, e);
      ProcOk(s, p') && p'.Replying? && Own(p') == Own(p) && Mentions(p') <= Mentions(p) && Hidden(p') == Hidden(p) && LocksOf(p') == LocksOf(p)
  {}

  lemma RefusalQuiet(cfg: Config, s: State, pid: Pid, p: Proc, e: Error)
    requires At(cfg, s, pid, p) && !p.Done?
    ensures Good(cfg, s, Put(s, pid, Refusal(p, e)))
  {
    OwnMentioned(p);
    Known(cfg, s, pid, p);
    RefusalOk(s, p, e);
    hide Inv, Evolves, UploadOk, ProcOk, Mentions, Hidden, LocksOf, Own, OwnOf, Refusal;
    Quiet(cfg, s, pid, p, Refusal(p, e));
  }

  lemma OwnMentioned(p: Proc)
    ensures Own(p) <= Mentions(p) || p.Started? || p.Done?
    ensures p.Done? || p.Started? ==> Own(p) == {}
  {}

  lemma KeepsLock(cfg: Config, s: State, pid: Pid, p: Proc)
    requires At(cfg, s, pid, p) && p.Started? && Target(p.req).Some?
    ensures Good(cfg, s, NextLock(s, pid, p))
  {
    hide Evolves, UploadOk, EventsOk, UsedOk;
    Known(cfg, s, pid, p);
    var id := Target(p.req).value;
    if id in s.locks {
      RefusalQuiet(cfg, s, pid, p, FileLocked);
    } else {
      var s' := NextLock(s, pid, p);
      var p' := Held(id, p.req);
      SameUploads(cfg, s, s');
      LockMoves(cfg, s, pid, p, id);
      forall q | q in s.procs && q != pid
        ensures Apart(p', s.procs[q])
      {
        assert Apart(p, s.procs[q]);
        Known(cfg, s, q, s.procs[q]);
      }
      assert EventsOk(s') by { EventsStay(s, s', pid); }
      MovesKeep(cfg, s, s', pid, p, p');
      MovesEvolve(cfg, s, s', pid, p, p');
    }
  }

  lemma LockMoves(cfg: Config, s: State, pid: Pid, p: Proc, id: Id)
    requires At(cfg, s, pid, p) && p.Started? && Target(p.req) == Some(id) && id !in s.locks
    ensures Moves(cfg, s, NextLock(s, pid, p), pid, p, Held(id, p.req))
  {
    Known(cfg, s, pid, p);
    SameUploads(cfg, s, NextLock(s, pid, p));
  }

  /** Same files and events, so the same facts about every upload. */
  lemma SameUploads(cfg: Config, s: State, s': State)
    requires Inv(cfg, s) && s'.store == s.store && s'.hist.completed == s.hist.completed && s'.hist.finals == s.hist.finals
    ensures forall x :: UploadOk(cfg, s', x) && SameAt(s, s', x)
  {
    forall x
      ensures UploadOk(cfg, s', x) && SameAt(s, s', x)
    {
      assert UploadOk(cfg, s, x);
    }
  }

  lemma EventsStay(s: State, s': State, pid: Pid)
    requires EventsOk(s) && SameEvents(s, s')
    requires forall q :: q in s.procs && q != pid ==> q in s'.procs && s'.procs[q] == s.procs[q]
    requires Answered(s, pid) ==> Answered(s', pid)
    ensures EventsOk(s')
  {}

  lemma BeginMoves(cfg: Config, s: State, pid: Pid, req: Request)
    requires Inv(cfg, s) && Enabled(s, Begin(pid, req))
    ensures
      var s' := Next(cfg, s, Begin(pid, req));
      Moves(cfg, s, s', pid, Done(Refused(Failed)), s'.procs[pid])
  {
    var s' := Next(cfg, s, Begin(pid, req));
    SameUploads(cfg, s, s');
    hide NextAt, EnabledAt, UploadOk, ProcsApart, EventsOk, EvolvesAt, Apart;
  }

  lemma KeepsBegin(cfg: Config, s: State, pid: Pid, req: Request)
    requires Inv(cfg, s) && Enabled(s, Begin(pid, req))
    ensures Good(cfg, s, Next(cfg, s, Begin(pid, req)))
  {
    hide NextAt, EnabledAt, UploadOk, ProcsApart, EvolvesAt;
    var s' := Next(cfg, s, Begin(pid, req));
    var p' := s'.procs[pid];
    var p := Done(Refused(Failed));
    SameUploads(cfg, s, s');
    BeginMoves(cfg, s, pid, req);
    EventsStay(s, s', pid);
    MovesKeep(cfg, s, s', pid, p, p');
    MovesEvolve(cfg, s, s', pid, p, p');
  }

  lemma KeepsLook(cfg: Config, s: State, pid: Pid, p: Proc)
    requires At(cfg, s, pid, p) && p.Held?
    ensures Good(cfg, s, NextLook(s, pid, p))
  {
    hide Inv, UploadOk, Evolves;
    Known(cfg, s, pid, p);
    assert !Answered(s, pid);
    Quiet(cfg, s, pid, p, NextLook(s, pid, p).procs[pid]);
  }

  lemma KeepsCopyEnd(cfg: Config, s: State, pid: Pid, p: Proc, p': Proc)
    requires At(cfg, s, pid, p)
    requires
      || (p.Writing? && p'.Wrote? && p'.w == p.w)
      || (p.Wrote? && p'.Settled? && p'.w == p.w)
      || (p.Removing? && p'.Settled? && p'.w == p.w && p'.stopped)
    ensures Good(cfg, s, Put(s, pid, p'))
  {
    hide Inv, UploadOk, Evolves;
    Known(cfg, s, pid, p);
    Quiet(cfg, s, pid, p, p');
  }

  lemma ReleaseMoves(cfg: Config, s: State, pid: Pid, p: Proc, s': State, p': Proc)
    requires At(cfg, s, pid, p) && p.Replying? && p' == Done(p.reply)
    requires s' == Put(s, pid, p').(locks := s.locks - LocksOf(p))
    ensures Moves(cfg, s, s', pid, p, p')
  {
    SameUploads(cfg, s, s');
    Known(cfg, s, pid, p);
    hide UploadOk, ProcsApart, Apart, EventsOk, ProcOk, Hidden, LocksOf;
    assert ProcOk(s', p') && LocksOf(p') == {} by { DoneOk(s', p.reply); }
  }

  lemma DoneOk(s: State, reply: Reply)
    ensures ProcOk(s, Done(reply)) && LocksOf(Done(reply)) == {}
  {}

  lemma KeepsRelease(cfg: Config, s: State, pid: Pid, p: Proc)
    requires At(cfg, s, pid, p) && p.Replying?
    ensures Good(cfg, s, Put(s, pid, Done(p.reply)).(locks := s.locks - LocksOf(p)))
  {
    var p' := Done(p.reply);
    var s' := Put(s, pid, p').(locks := s.locks - LocksOf(p));
    ReleaseMoves(cfg, s, pid, p, s', p');
    InvEvents(cfg, s);
    hide Inv, Evolves, UploadOk, ProcOk, Moves;
    EventsStay(s, s', pid);
    Shrinks(cfg, s, s', pid, p, p');
  }

  lemma KeepsReadInfo(cfg: Config, s: State, pid: Pid, p: Proc)
    requires At(cfg, s, pid, p) && p.Sizing? && |p.parts| < |p.ids|
    ensures Good(cfg, s, NextReadInfo(s, pid, p))
  {
    hide Inv, UploadOk, Evolves;
    Known(cfg, s, pid, p);
    Quiet(cfg, s, pid, p, NextReadInfo(s, pid, p).procs[pid]);
  }

  lemma OneMoreFrozen(cfg: Config, s: State, ids: seq<Id>, parts: seq<Bytes>, info: FileInfo)
    requires |parts| < |ids| && AllFrozen(s.store, ids, parts)
    requires PendingOk(s.store, ids[|parts|], info) && UploadOk(cfg, s, ids[|parts|])
    requires ids[|parts|] in s.store.files && Complete(info, |s.store.files[ids[|parts|]]|)
    ensures AllFrozen(s.store, ids, parts + [s.store.files[ids[|parts|]]])
    ensures TotalLength(parts + [s.store.files[ids[|parts|]]]) == TotalLength(parts) + info.size
  {
    var more := parts + [s.store.files[ids[|parts|]]];
    assert more[..|more| - 1] == parts;
    forall i | 0 <= i < |more|
      ensures Frozen(s.store, ids[i], more[i])
    {
      if i < |parts| {
        assert Frozen(s.store, ids[i], parts[i]);
      }
    }
  }

  lemma StatOk(cfg: Config, s: State, pid: Pid, p: Proc)
    requires p.Sizing? && |p.parts| < |p.ids| && p.pending.Some? && ProcOk(s, p)
    requires UploadOk(cfg, s, p.ids[|p.parts|])
    ensures ProcOk(s, NextStat(s, pid, p).procs[pid])
  {
    hide UploadOk, AllFrozen, TotalLength, Frozen, PendingOk;
    var id, info := p.ids[|p.parts|], p.pending.value;
    if id in s.store.files && Complete(info, |s.store.files[id]|) {
      OneMoreFrozen(cfg, s, p.ids, p.parts, info);
    }
  }

  lemma KeepsStat(cfg: Config, s: State, pid: Pid, p: Proc)
    requires At(cfg, s, pid, p) && p.Sizing? && |p.parts| < |p.ids| && p.pending.Some?
    ensures Good(cfg, s, NextStat(s, pid, p))
  {
    assert UploadOk(cfg, s, p.ids[|p.parts|]);
    Known(cfg, s, pid, p);
    StatOk(cfg, s, pid, p);
    hide Inv, UploadOk, Evolves, ProcOk;
    Quiet(cfg, s, pid, p, NextStat(s, pid, p).procs[pid]);
  }

  // ----- steps that change one upload -----

  /** The handler changes only the files of the upload it owns, and reports nothing. */
  lemma KeepsFiles(cfg: Config, s: State, s': State, pid: Pid, p: Proc, p': Proc, id: Id)
    requires At(cfg, s, pid, p) && OwnOf(p) == Some(id)
    requires s'.procs == s.procs[pid := p'] && s'.locks == s.locks && s'.used == s.used && s'.hist == s.hist
    requires forall x :: x != id ==> SameAt(s, s', x)
    requires UploadOk(cfg, s', id) && EvolvesAt(s.store, s'.store, id)
    requires Own(p') <= {id} && Mentions(p') <= Mentions(p) && Hidden(p') <= Hidden(p) && LocksOf(p') <= LocksOf(p)
    requires ProcOk(s', p') && !Answered(s, pid)
    ensures Good(cfg, s, s')
  {
    hide ProcOk, UploadOk, Evolves, EvolvesAt, Hidden;
    Known(cfg, s, pid, p);
    forall x | x in s'.store.infos || x in s'.store.files
      ensures x in s'.used
    {
      if x != id {
        assert SameAt(s, s', x);
      }
    }
    assert Moves(cfg, s, s', pid, p, p');
    EventsStay(s, s', pid);
    Shrinks(cfg, s, s', pid, p, p');
  }

  lemma KeepsAppend(cfg: Config, s: State, pid: Pid, p: Proc, n: nat)
    requires At(cfg, s, pid, p) && p.Writing? && n <= |p.rest|
    ensures Good(cfg, s, NextAppend(s, pid, p, n))
  {
    hide Inv, Evolves;
    Known(cfg, s, pid, p);
    var s' := NextAppend(s, pid, p, n);
    assert s.store.files[p.w.id] <= s'.store.files[p.w.id];
    KeepsFiles(cfg, s, s', pid, p, s'.procs[pid], p.w.id);
  }

  lemma KeepsRemoveInfo(cfg: Config, s: State, pid: Pid, p: Proc)
    requires At(cfg, s, pid, p) && (p.Wrote? || p.Looked?)
    ensures Good(cfg, s, NextRemoveInfo(s, pid, p))
  {
    hide Inv, Evolves;
    Known(cfg, s, pid, p);
    var s' := NextRemoveInfo(s, pid, p);
    KeepsFiles(cfg, s, s', pid, p, s'.procs[pid], OwnOf(p).value);
  }

  lemma KeepsRemoveBin(cfg: Config, s: State, pid: Pid, p: Proc)
    requires At(cfg, s, pid, p) && (p.Removing? || p.Deleting?)
    ensures Good(cfg, s, NextRemoveBin(s, pid, p))
  {
    hide Inv, Evolves;
    Known(cfg, s, pid, p);
    var s' := NextRemoveBin(s, pid, p);
    KeepsFiles(cfg, s, s', pid, p, s'.procs[pid], OwnOf(p).value);
  }

  /** An admitted PATCH: the declared length fits, and so does all that may still be read. */
  lemma AdmittedFits(cfg: Config, info: FileInfo, stored: nat, offset: int, declare: Option<int>, chunk: Chunk)
    requires InfoOk(cfg, info, stored) && !info.isFinal && ChunkOk(chunk, offset)
    requires Admitted(cfg, info, stored, offset, declare, chunk.length).Admit?
    ensures
      var a := Admitted(cfg, info, stored, offset, declare, chunk.length);
      && offset == stored && !Complete(info, stored)
      && SameOrDeclared(info, a.info) && !a.info.isFinal && InfoOk(cfg, a.info, stored)
      && (declare.None? ==> a.info == info)
      && (a.limit.Ok? && a.limit.value > 0 && !a.info.deferred ==>
            stored + |Limited(chunk.body, a.limit.value)| <= a.info.size)
  {
    var a := Admitted(cfg, info, stored, offset, declare, chunk.length);
    if !a.info.deferred {
      ChunkSum(stored, chunk.length);
    }
  }

  lemma ChunkSum(offset: nat, length: int)
    requires -1 <= length && offset + length <= MAX_INT64
    ensures AddInt64(offset, length) == offset + length
  {}

  lemma KeepsCheck(cfg: Config, s: State, pid: Pid, p: Proc)
    requires At(cfg, s, pid, p) && p.Looked? && p.req.Patch?
    ensures Good(cfg, s, NextCheck(cfg, s, pid, p))
  {
    hide Inv, Evolves, ChunkLimit;
    Known(cfg, s, pid, p);
    var s' := NextCheck(cfg, s, pid, p);
    match Admitted(cfg, p.info, p.stored, p.req.offset, p.req.declare, p.req.chunk.length)
    case Refuse(e) => RefusalQuiet(cfg, s, pid, p, e);
    case AlreadyComplete => Quiet(cfg, s, pid, p, s'.procs[pid]);
    case Admit(info, limit) =>
      AdmittedFits(cfg, p.info, p.stored, p.req.offset, p.req.declare, p.req.chunk);
      KeepsFiles(cfg, s, s', pid, p, s'.procs[pid], p.id);
  }

  /** NewUpload under a fresh id. */
  lemma KeepsNew(cfg: Config, s: State, s': State, pid: Pid, p: Proc, p': Proc, id: Id)
    requires At(cfg, s, pid, p) && Own(p) == {} && LocksOf(p) == {}
    requires id !in s.used
    requires s'.procs == s.procs[pid := p'] && s'.locks == s.locks && s'.used == s.used + {id}
    requires forall x :: x != id ==> SameAt(s, s', x)
    requires SameEvents(s, s') && UploadOk(cfg, s', id) && s'.hist.completed == s.hist.completed
    requires OwnOf(p') == Some(id) && Mentions(p') <= Mentions(p) + {id} && LocksOf(p') == {}
    requires ProcOk(s', p') && !Answered(s, pid)
    ensures Good(cfg, s, s')
  {
    hide ProcOk, UploadOk, Evolves, EvolvesAt;
    Known(cfg, s, pid, p);
    NewMoves(cfg, s, s', pid, p, p', id);
    forall q | q in s.procs && q != pid
      ensures Apart(p', s.procs[q])
    {
      assert Apart(p, s.procs[q]);
      Known(cfg, s, q, s.procs[q]);
    }
    EventsStay(s, s', pid);
    MovesKeep(cfg, s, s', pid, p, p');
    MovesEvolve(cfg, s, s', pid, p, p');
  }

  lemma NewMoves(cfg: Config, s: State, s': State, pid: Pid, p: Proc, p': Proc, id: Id)
    requires At(cfg, s, pid, p) && Own(p) == {} && LocksOf(p) == {}
    requires id !in s.used
    requires s'.procs == s.procs[pid := p'] && s'.locks == s.locks && s'.used == s.used + {id}
    requires forall x :: x != id ==> SameAt(s, s', x)
    requires SameEvents(s, s') && UploadOk(cfg, s', id) && s'.hist.completed == s.hist.completed
    requires OwnOf(p') == Some(id) && Mentions(p') <= Mentions(p) + {id} && LocksOf(p') == {}
    requires ProcOk(s', p')
    ensures Moves(cfg, s, s', pid, p, p')
  {
    hide ProcOk, UploadOk, Evolves, EvolvesAt, Hidden, ProcsApart, EventsOk;
    Known(cfg, s, pid, p);
    forall x | x in s'.store.infos || x in s'.store.files || x in s'.hist.finals
      ensures x in s'.used
    {
      if x != id {
        assert SameAt(s, s', x);
      }
    }
  }

  lemma KeepsMake(cfg: Config, s: State, pid: Pid, p: Proc, id: Id)
    requires At(cfg, s, pid, p) && p.Started? && p.req.Create? && id !in s.used
    ensures Good(cfg, s, NextMake(cfg, s, pid, p, id))
  {
    Fresh(cfg, s, id);
    hide Inv, Evolves;
    Known(cfg, s, pid, p);
    if cfg.maxSize > 0 && p.req.info.size > cfg.maxSize {
      RefusalQuiet(cfg, s, pid, p, MaxSizeExceeded);
    } else {
      var s' := NextMake(cfg, s, pid, p, id);
      KeepsNew(cfg, s, s', pid, p, s'.procs[pid], id);
    }
  }

  lemma Fresh(cfg: Config, s: State, id: Id)
    requires Inv(cfg, s) && id !in s.used
    ensures id !in s.store.infos && id !in s.store.files && id !in s.hist.finals && id !in s.hist.completed
  {}

  lemma FrozenUnderNew(s: State, s': State, ids: seq<Id>, parts: seq<Bytes>, id: Id)
    requires |parts| <= |ids| && AllFrozen(s.store, ids, parts)
    requires id !in ids && forall x :: x != id ==> SameAt(s, s', x)
    ensures AllFrozen(s'.store, ids, parts)
  {
    forall i | 0 <= i < |parts|
      ensures Frozen(s'.store, ids[i], parts[i])
    {
      assert Frozen(s.store, ids[i], parts[i]);
      assert SameAt(s, s', ids[i]);
    }
  }

  /** The final upload as NewUpload leaves it. */
  lemma FinalStart(cfg: Config, s: State, pid: Pid, p: Proc, id: Id)
    requires p.Sizing? && |p.parts| == |p.ids| && p.size == TotalLength(p.parts) && AllFrozen(s.store, p.ids, p.parts)
    requires id !in p.ids && id !in s.store.infos && id !in s.store.files && id !in s.hist.finals && id !in s.hist.completed
    requires !(cfg.maxSize > 0 && p.size > cfg.maxSize)
    ensures
      var s' := NextMakeFinal(cfg, s, pid, p, id);
      && (forall x :: x != id ==> SameAt(s, s', x))
      && UploadOk(cfg, s', id) && ProcOk(s', s'.procs[pid])
  {
    hide TotalLength, AllFrozen;
    var s' := NextMakeFinal(cfg, s, pid, p, id);
    FrozenUnderNew(s, s', p.ids, p.parts, id);
    assert p.parts[..0] == [];
  }

  lemma KeepsMakeFinal(cfg: Config, s: State, pid: Pid, p: Proc, id: Id)
    requires At(cfg, s, pid, p) && p.Sizing? && |p.parts| == |p.ids| && id !in s.used
    ensures Good(cfg, s, NextMakeFinal(cfg, s, pid, p, id))
  {
    Fresh(cfg, s, id);
    Known(cfg, s, pid, p);
    if cfg.maxSize > 0 && p.size > cfg.maxSize {
      hide Inv, Evolves, ProcOk;
      RefusalQuiet(cfg, s, pid, p, MaxSizeExceeded);
    } else {
      assert (set i | i in p.ids) <= s.used;
      FinalStart(cfg, s, pid, p, id);
      hide Inv, Evolves, ProcOk, UploadOk, SameAt;
      var s' := NextMakeFinal(cfg, s, pid, p, id);
      KeepsNew(cfg, s, s', pid, p, s'.procs[pid], id);
    }
  }

  lemma KeepsOpenFirst(cfg: Config, s: State, pid: Pid, p: Proc)
    requires At(cfg, s, pid, p) && p.Made? && p.first.Some?
    ensures Good(cfg, s, NextOpenFirst(cfg, s, pid, p))
  {
    if p.id in s.locks {
      hide Inv, ProcOk, Evolves;
      RefusalQuiet(cfg, s, pid, p, FileLocked);
    } else {
      var s' := NextOpenFirst(cfg, s, pid, p);
      OpenFirstMoves(cfg, s, pid, p, s', s'.procs[pid]);
      OpenFirstProc(cfg, s, pid, p);
      InvEvents(cfg, s);
      hide Inv, Evolves, UploadOk, ProcOk, ChunkLimit, Limited, Moves, BeginWrite;
      EventsStay(s, s', pid);
      Shrinks(cfg, s, s', pid, p, s'.procs[pid]);
    }
  }

  lemma InvEvents(cfg: Config, s: State)
    requires Inv(cfg, s)
    ensures EventsOk(s)
  {}

  /** The first chunk of an upload that is still empty. */
  lemma FirstFits(cfg: Config, s: State, id: Id, info: FileInfo, chunk: Chunk)
    requires UploadOk(cfg, s, id) && ProcOk(s, Made(id, info, Some(chunk)))
    ensures
      var held := Replying(CreateOk(id), Some(id), true, true);
      ProcOk(s, BeginWrite(held, id, info, 0, ChunkLimit(cfg, info, 0, chunk.length), chunk.body, true))
  {
    if !info.deferred {
      ChunkSum(0, chunk.length);
    }
  }

  lemma OpenFirstMoves(cfg: Config, s: State, pid: Pid, p: Proc, s': State, p': Proc)
    requires At(cfg, s, pid, p) && p.Made? && p.first.Some? && p.id !in s.locks
    requires s' == NextOpenFirst(cfg, s, pid, p) && p' == s'.procs[pid]
    ensures Moves(cfg, s, s', pid, p, p')
  {
    SameUploads(cfg, s, s');
    Known(cfg, s, pid, p);
    FirstFits(cfg, s, p.id, p.info, p.first.value);
    ProcOkLocal(s, s', p');
    OpenFirstProc(cfg, s, pid, p);
    hide UploadOk, ProcsApart, EventsOk, ProcOk, ChunkLimit, Limited, Hidden, BeginWrite, Apart;
  }

  lemma OpenFirstProc(cfg: Config, s: State, pid: Pid, p: Proc)
    requires p.Made? && p.first.Some? && p.id !in s.locks
    ensures
      var p' := NextOpenFirst(cfg, s, pid, p).procs[pid];
      && OwnOf(p') == Some(p.id) && LocksOf(p') == {p.id} && Mentions(p') == {p.id} && FromPost(p')
  {
    hide ChunkLimit, Limited;
  }

  /** The handler reports on its own upload and answers. */
  lemma KeepsEvent(cfg: Config, s: State, s': State, pid: Pid, p: Proc, p': Proc, id: Id)
    requires At(cfg, s, pid, p) && OwnOf(p) == Some(id)
    requires s'.procs == s.procs[pid := p'] && s'.locks == s.locks && s'.used == s.used && s'.store == s.store
    requires s'.hist.finals == s.hist.finals
    requires
      || (s'.hist.stopped == s.hist.stopped && s'.hist.completers == s.hist.completers)
      || (s'.hist.stopped == s.hist.stopped && s'.hist.completers == s.hist.completers + {pid})
      || (s'.hist.stopped == s.hist.stopped + {pid} && s'.hist.completers == s.hist.completers)
    requires forall x :: x != id ==> s'.hist.completed[x] == s.hist.completed[x]
    requires UploadOk(cfg, s', id)
    requires OwnOf(p') == Some(id) && Mentions(p') <= Mentions(p) && Hidden(p') <= Hidden(p) && LocksOf(p') <= LocksOf(p)
    requires p'.Replying? && ProcOk(s', p') && !Answered(s, pid)
    ensures Good(cfg, s, s')
  {
    EventMoves(cfg, s, s', pid, p, p', id);
    hide UploadOk, ProcOk, Moves, ProcsApart, UsedOk, LocksOk, Mentions, Hidden, Own, LocksOf;
    assert EventsOk(s') by {
      InvEvents(cfg, s);
      assert pid !in s.hist.stopped && pid !in s.hist.completers;
      forall q | q in s'.hist.completers || q in s'.hist.stopped
        ensures Answered(s', q)
      {
        if q != pid {
          assert Answered(s, q);
        }
      }
    }
    ShrinksOwner(cfg, s, s', pid, p, p', id);
  }

  lemma ShrinksOwner(cfg: Config, s: State, s': State, pid: Pid, p: Proc, p': Proc, id: Id)
    requires At(cfg, s, pid, p) && OwnOf(p) == Some(id) && OwnOf(p') == Some(id)
    requires Moves(cfg, s, s', pid, p, p')
    requires Mentions(p') <= Mentions(p) && Hidden(p') <= Hidden(p)
    requires EventsOk(s')
    ensures Good(cfg, s, s')
  {
    hide Inv, Evolves, UploadOk, ProcOk, Moves, Mentions, Hidden, EventsOk;
    Shrinks(cfg, s, s', pid, p, p');
  }

  lemma EventMoves(cfg: Config, s: State, s': State, pid: Pid, p: Proc, p': Proc, id: Id)
    requires At(cfg, s, pid, p) && OwnOf(p) == Some(id)
    requires s'.procs == s.procs[pid := p'] && s'.locks == s.locks && s'.used == s.used && s'.store == s.store
    requires s'.hist.finals == s.hist.finals
    requires forall x :: x != id ==> s'.hist.completed[x] == s.hist.completed[x]
    requires UploadOk(cfg, s', id)
    requires OwnOf(p') == Some(id) && Mentions(p') <= Mentions(p) && LocksOf(p') <= LocksOf(p)
    requires ProcOk(s', p')
    ensures Moves(cfg, s, s', pid, p, p')
  {
    hide UploadOk, ProcOk, ProcsApart, EventsOk, Mentions, Apart;
    Known(cfg, s, pid, p);
    forall x | x in s'.hist.completed
      ensures x in s'.used
    {
      if x != id {
        assert s'.hist.completed[x] == s.hist.completed[x];
      }
    }
  }

  lemma KeepsFinishEmpty(cfg: Config, s: State, pid: Pid, p: Proc, hookOk: bool)
    requires At(cfg, s, pid, p) && p.Made?
    ensures Good(cfg, s, NextFinishEmpty(cfg, s, pid, p, hookOk))
  {
    hide Inv, Evolves;
    Known(cfg, s, pid, p);
    var s' := NextFinishEmpty(cfg, s, pid, p, hookOk);
    KeepsEvent(cfg, s, s', pid, p, s'.procs[pid], p.id);
  }

  /** Completion is reported only for an upload that is complete, and that was never reported. */
  lemma ReportOk(cfg: Config, s: State, pid: Pid, p: Proc, late: bool, hookOk: bool)
    requires (p.Settled? || p.Unread?) && ProcOk(s, p) && UploadOk(cfg, s, p.w.id) && Reports(p, late, hookOk)
    ensures UploadOk(cfg, NextConclude(cfg, s, pid, p, late, hookOk), p.w.id)
  {
    hide Outcome;
  }

  lemma OutcomeOk(s: State, s': State, p: Proc, late: bool, hookOk: bool)
    requires (p.Settled? || p.Unread?) && ProcOk(s, p) && s'.store == s.store
    ensures ProcOk(s', Outcome(p, late, hookOk))
    ensures
      var p' := Outcome(p, late, hookOk);
      p'.Replying? && OwnOf(p') == Some(p.w.id) && Mentions(p') <= Mentions(p) && Hidden(p') <= Hidden(p) && LocksOf(p') <= LocksOf(p)
  {}

  lemma KeepsConclude(cfg: Config, s: State, pid: Pid, p: Proc, late: bool, hookOk: bool)
    requires At(cfg, s, pid, p) && (p.Settled? || p.Unread?)
    ensures Good(cfg, s, NextConclude(cfg, s, pid, p, late, hookOk))
  {
    var s' := NextConclude(cfg, s, pid, p, late, hookOk);
    Known(cfg, s, pid, p);
    OutcomeOk(s, s', p, late, hookOk);
    if Reports(p, late, hookOk) {
      ReportOk(cfg, s, pid, p, late, hookOk);
    } else {
      SameUploads(cfg, s, s');
    }
    assert !Answered(s, pid);
    hide Inv, Evolves, ProcOk, UploadOk, Outcome, Mentions, Hidden, LocksOf, OwnOf, Reports;
    KeepsEvent(cfg, s, s', pid, p, s'.procs[pid], p.w.id);
  }

  lemma JoinedStep(parts: seq<Bytes>, k: nat)
    requires k < |parts|
    ensures Joined(parts[..k + 1]) == Joined(parts[..k]) + parts[k]
    ensures |Joined(parts[..k])| + |parts[k]| <= TotalLength(parts)
  {
    assert parts[..k + 1][..k] == parts[..k];
    JoinedGrows(parts, k + 1);
  }

  lemma {:induction false} JoinedGrows(parts: seq<Bytes>, k: nat)
    requires k <= |parts|
    ensures |Joined(parts[..k])| <= TotalLength(parts)
  {
    if k == |parts| {
      assert parts[..k] == parts;
    } else {
      var front := parts[..|parts| - 1];
      assert front[..k] == parts[..k];
      JoinedGrows(front, k);
    }
  }

  lemma KeepsCopyPart(cfg: Config, s: State, pid: Pid, p: Proc)
    requires At(cfg, s, pid, p) && p.Joining? && p.done < |p.ids|
    ensures Good(cfg, s, NextCopyPart(s, pid, p))
  {
    hide Inv, Evolves, UploadOk, Joined, TotalLength;
    Known(cfg, s, pid, p);
    var s' := NextCopyPart(s, pid, p);
    if p.ids[p.done] in s.store.files {
      assert Frozen(s.store, p.ids[p.done], p.parts[p.done]);
      JoinedStep(p.parts, p.done);
      JoinTarget(cfg, s, pid, p, s', s'.procs[pid]);
    } else {
      RefusalQuiet(cfg, s, pid, p, Failed);
    }
  }

  lemma KeepsCopyBreaks(cfg: Config, s: State, pid: Pid, p: Proc, n: nat)
    requires At(cfg, s, pid, p) && p.Joining? && p.done < |p.ids|
    requires p.ids[p.done] in s.store.files && n <= |FileOf(s.store, p.ids[p.done])|
    ensures Good(cfg, s, NextCopyBreaks(s, pid, p, n))
  {
    hide Inv, Evolves, UploadOk, Joined, TotalLength;
    Known(cfg, s, pid, p);
    var s' := NextCopyBreaks(s, pid, p, n);
    assert Frozen(s.store, p.ids[p.done], p.parts[p.done]);
    JoinedStep(p.parts, p.done);
    JoinTarget(cfg, s, pid, p, s', s'.procs[pid]);
  }

  /** Copying into the final upload: what was checked stays frozen. */
  lemma JoinTarget(cfg: Config, s: State, pid: Pid, p: Proc, s': State, p': Proc)
    requires At(cfg, s, pid, p) && p.Joining? && p.done < |p.ids| && p.id in s.store.files
    requires s' == Put(s, pid, p').(store := s'.store) && p.id in s'.store.files
    requires s'.store == WithFile(s.store, p.id, s'.store.files[p.id])
    requires s.store.files[p.id] <= s'.store.files[p.id] && |s'.store.files[p.id]| <= p.size
    requires p' == Refusal(p, Failed) || (p' == p.(done := p.done + 1) && s'.store.files[p.id] == Joined(p.parts[..p.done + 1]))
    ensures Good(cfg, s, s')
  {
    hide Inv, Evolves, Joined, TotalLength;
    Known(cfg, s, pid, p);
    forall i | 0 <= i < |p.parts|
      ensures Frozen(s'.store, p.ids[i], p.parts[i])
    {
      assert Frozen(s.store, p.ids[i], p.parts[i]);
    }
    KeepsFiles(cfg, s, s', pid, p, p', p.id);
  }

  lemma KeepsFinishJoin(cfg: Config, s: State, pid: Pid, p: Proc, hookOk: bool)
    requires At(cfg, s, pid, p) && p.Joining? && p.done == |p.ids|
    ensures Good(cfg, s, NextFinishJoin(cfg, s, pid, p, hookOk))
  {
    hide Inv, Evolves, Joined;
    Known(cfg, s, pid, p);
    var s' := NextFinishJoin(cfg, s, pid, p, hookOk);
    assert p.parts[..|p.ids|] == p.parts;
    KeepsEvent(cfg, s, s', pid, p, s'.procs[pid], p.id);
  }

  /** One step keeps the invariant; the store evolves. */
  lemma StepKeeps(cfg: Config, s: State, step: Step)
    requires Inv(cfg, s) && Enabled(s, step)
    ensures Good(cfg, s, Next(cfg, s, step))
  {
    hide Good, Inv, Put, Refusal, NextLock, NextLook, NextCheck, NextAppend, NextRemoveInfo, NextRemoveBin, NextConclude,
      NextMake, NextOpenFirst, NextFinishEmpty, NextReadInfo, NextStat, NextMakeFinal, NextCopyPart, NextCopyBreaks,
      NextFinishJoin, FileOf, LocksOf, Target;
    if step.Begin? {
      KeepsBegin(cfg, s, step.pid, step.req);
      return;
    }
    var p := s.procs[step.pid];
    match step {
      case Lock(pid) => KeepsLock(cfg, s, pid, p);
      case Look(pid) => KeepsLook(cfg, s, pid, p);
      case Check(pid) => KeepsCheck(cfg, s, pid, p);
      case Append(pid, n) => KeepsAppend(cfg, s, pid, p, n);
      case EndCopy(pid, broken) => KeepsCopyEnd(cfg, s, pid, p, Wrote(p.w, broken));
      case NotStopped(pid) => KeepsCopyEnd(cfg, s, pid, p, Settled(p.w, p.broken, false));
      case RemoveInfo(pid) => KeepsRemoveInfo(cfg, s, pid, p);
      case RemoveBin(pid) => KeepsRemoveBin(cfg, s, pid, p);
      case RemoveFails(pid) =>
        if p.Wrote? || p.Removing? {
          KeepsCopyEnd(cfg, s, pid, p, Settled(p.w, true, true));
        } else {
          RefusalQuiet(cfg, s, pid, p, Failed);
        }
      case Conclude(pid, late, hookOk) => KeepsConclude(cfg, s, pid, p, late, hookOk);
      case Make(pid, id) => KeepsMake(cfg, s, pid, p, id);
      case OpenFirst(pid) => KeepsOpenFirst(cfg, s, pid, p);
      case FinishEmpty(pid, hookOk) => KeepsFinishEmpty(cfg, s, pid, p, hookOk);
      case ReadInfo(pid) => KeepsReadInfo(cfg, s, pid, p);
      case Stat(pid) => KeepsStat(cfg, s, pid, p);
      case MakeFinal(pid, id) => KeepsMakeFinal(cfg, s, pid, p, id);
      case CopyPart(pid) => KeepsCopyPart(cfg, s, pid, p);
      case CopyBreaks(pid, n) => KeepsCopyBreaks(cfg, s, pid, p, n);
      case FinishJoin(pid, hookOk) => KeepsFinishJoin(cfg, s, pid, p, hookOk);
      case GiveUp(pid) => RefusalQuiet(cfg, s, pid, p, Failed);
      case Release(pid) => KeepsRelease(cfg, s, pid, p);
    }
  }
}
