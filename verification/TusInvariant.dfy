/** What holds in every state that the handlers reach, and how one step may change the store. */
module TusInvariant {
  import opened Basics
  import opened TusStore
  import opened TusProtocol

  // ----- how the store moves -----

  /** No more bytes can come: the upload is complete, or its .info file is gone. */
  predicate Sealed(st: Store, id: Id)
  {
    id in st.files && (id in st.infos ==> Complete(st.infos[id], |st.files[id]|))
  }

  predicate SameOrDeclared(info: FileInfo, info': FileInfo)
  {
    info' == info || (info.deferred && info' == info.(size := info'.size, deferred := false))
  }

  /** Bytes are only appended, a declared size stays, a sealed upload keeps its bytes, a removed file stays away. */
  predicate EvolvesAt(st: Store, st': Store, id: Id)
  {
    && (id in st'.files ==> id in st.files && st.files[id] <= st'.files[id])
    && (id in st'.infos ==> id in st.infos && SameOrDeclared(st.infos[id], st'.infos[id]))
    && (id in st'.files && Sealed(st, id) ==> st'.files[id] == st.files[id])
  }

  ghost predicate Evolves(st: Store, st': Store, ids: set<Id>)
  {
    forall id :: id in ids ==> EvolvesAt(st, st', id)
  }

  lemma EvolvesTransitive(st: Store, st': Store, st'': Store, ids: set<Id>, ids': set<Id>)
    requires Evolves(st, st', ids) && Evolves(st', st'', ids') && ids <= ids'
    ensures Evolves(st, st'', ids)
  {
    forall id | id in ids
      ensures EvolvesAt(st, st'', id)
    {
      assert EvolvesAt(st, st', id) && EvolvesAt(st', st'', id);
    }
  }

  // ----- the invariant -----

  predicate InfoOk(cfg: Config, info: FileInfo, length: nat)
  {
    !info.deferred ==> length <= info.size && (cfg.maxSize > 0 ==> info.size <= cfg.maxSize)
  }

  predicate UploadOk(cfg: Config, s: State, id: Id)
  {
    && (id in s.store.infos ==>
          && id in s.store.files
          && InfoOk(cfg, s.store.infos[id], |s.store.files[id]|)
          && (s.store.infos[id].isFinal <==> id in s.hist.finals)
          && (id in s.hist.finals ==> !s.store.infos[id].deferred && s.store.infos[id].size == s.hist.finals[id])
          && (id in s.hist.completed ==> Complete(s.store.infos[id], |s.store.files[id]|)))
    && s.hist.completed[id] <= (if id in s.hist.finals && s.hist.finals[id] == 0 then 2 else 1)
  }

  /** The bytes of a checked partial upload: they stay c until the file is removed. */
  predicate Frozen(st: Store, id: Id, c: Bytes)
  {
    && (id in st.files ==> st.files[id] == c)
    && (id in st.infos ==> id in st.files && Complete(st.infos[id], |c|))
  }

  ghost predicate AllFrozen(st: Store, ids: seq<Id>, parts: seq<Bytes>)
    requires |parts| <= |ids|
  {
    forall i :: 0 <= i < |parts| ==> Frozen(st, ids[i], parts[i])
  }

  /** A writer knows the upload as it is: its size and, through Position, its length. */
  predicate WriterOk(s: State, w: Writer)
  {
    && Present(s.store, w.id)
    && s.store.infos[w.id].size == w.size && s.store.infos[w.id].deferred == w.deferred
    && !s.store.infos[w.id].isFinal
    && |s.store.files[w.id]| == Position(w)
    && (!w.deferred ==> Position(w) <= w.size)
    && w.id !in s.hist.completed
  }

  predicate PendingOk(st: Store, id: Id, info: FileInfo)
  {
    !info.deferred && id in st.infos ==> !st.infos[id].deferred && st.infos[id].size == info.size
  }

  predicate ReplyOk(s: State, reply: Reply, own: Option<Id>)
  {
    match reply
    case WriteOk(id, offset) => own == Some(id) && Present(s.store, id) && |s.store.files[id]| == offset
    case HeadOk(id, offset) => own == Some(id) && Present(s.store, id) && |s.store.files[id]| == offset
    case JoinOk(id, ids, parts) =>
      && own == Some(id) && Present(s.store, id) && |parts| == |ids|
      && s.store.files[id] == Joined(parts)
      && s.store.infos[id].isFinal && Complete(s.store.infos[id], |s.store.files[id]|)
    case DeleteOk(id) => own == Some(id) && id !in s.store.infos && id !in s.store.files
    case _ => true
  }

  ghost predicate ProcOk(s: State, p: Proc)
  {
    match p
    case Started(req) => RequestOk(req) && !req.Concat?
    case Held(id, req) => RequestOk(req) && Target(req) == Some(id)
    case Looked(id, req, info, stored) =>
      && RequestOk(req) && Target(req) == Some(id)
      && Present(s.store, id) && s.store.infos[id] == info && |s.store.files[id]| == stored
    case Made(id, info, first) =>
      && RequestOk(Create(info, first))
      && Present(s.store, id) && s.store.infos[id] == info && s.store.files[id] == []
      && id !in s.hist.completed
    case Writing(w, rest) => WriterOk(s, w) && (!w.deferred ==> Position(w) + |rest| <= w.size)
    case Wrote(w, _) => WriterOk(s, w)
    case Removing(w) => w.id !in s.store.infos
    case Settled(w, _, stopped) => !stopped ==> WriterOk(s, w)
    case Unread(w) => WriterOk(s, w)
    case Deleting(id) => id !in s.store.infos
    case Sizing(ids, size, parts, pending) =>
      && |parts| <= |ids| && size == TotalLength(parts)
      && AllFrozen(s.store, ids, parts)
      && (pending.Some? ==> |parts| < |ids| && PendingOk(s.store, ids[|parts|], pending.value))
    case Joining(id, ids, size, parts, done) =>
      && |parts| == |ids| && done <= |ids| && size == TotalLength(parts)
      && AllFrozen(s.store, ids, parts)
      && Present(s.store, id) && id !in s.hist.completed
      && s.store.infos[id].isFinal && !s.store.infos[id].deferred && s.store.infos[id].size == size
      && s.store.files[id] == Joined(parts[..done])
    case Replying(reply, own, locked, post) => (own.Some? ==> locked || post) && ReplyOk(s, reply, own)
    case Done(_) => true
  }

  predicate Apart(p: Proc, q: Proc)
  {
    Own(p) !! Own(q) && Hidden(p) !! Mentions(q) && Hidden(q) !! Mentions(p)
  }

  ghost predicate UsedOk(s: State)
  {
    && s.store.infos.Keys <= s.used && s.store.files.Keys <= s.used && s.hist.finals.Keys <= s.used
    && (forall id :: id in s.hist.completed ==> id in s.used)
    && (forall q :: q in s.procs ==> Mentions(s.procs[q]) <= s.used)
  }

  ghost predicate ProcsApart(s: State)
  {
    forall p, q :: p in s.procs && q in s.procs && p != q ==> Apart(s.procs[p], s.procs[q])
  }

  ghost predicate LocksOk(s: State)
  {
    forall q :: q in s.procs ==> LocksOf(s.procs[q]) <= s.locks
  }

  predicate Answered(s: State, q: Pid)
  {
    q in s.procs && (s.procs[q].Replying? || s.procs[q].Done?)
  }

  ghost predicate EventsOk(s: State)
  {
    && s.hist.completers !! s.hist.stopped
    && (forall q :: q in s.hist.completers || q in s.hist.stopped ==> Answered(s, q))
  }

  ghost predicate Inv(cfg: Config, s: State)
  {
    && (forall id :: UploadOk(cfg, s, id))
    && UsedOk(s) && ProcsApart(s) && LocksOk(s) && EventsOk(s)
    && (forall q :: q in s.procs ==> ProcOk(s, s.procs[q]))
  }

  // ----- a step of one handler leaves the others alone -----

  predicate SameAt(s: State, s': State, id: Id)
  {
    && (id in s.store.infos <==> id in s'.store.infos) && (id in s.store.infos ==> s'.store.infos[id] == s.store.infos[id])
    && (id in s.store.files <==> id in s'.store.files) && (id in s.store.files ==> s'.store.files[id] == s.store.files[id])
    && s'.hist.completed[id] == s.hist.completed[id]
    && (id in s.hist.finals <==> id in s'.hist.finals) && (id in s.hist.finals ==> s'.hist.finals[id] == s.hist.finals[id])
  }

  /** From s to s' handler pid went from p to p', touching only what it owns. */
  ghost predicate Moves(cfg: Config, s: State, s': State, pid: Pid, p: Proc, p': Proc)
  {
    && s'.procs == s.procs[pid := p']
    && s.used <= s'.used
    && (forall id :: id !in Own(p) && id !in Own(p') ==> SameAt(s, s', id))
    && (forall id :: id in Own(p) || id in Own(p') ==> UploadOk(cfg, s', id) && (id in s.used ==> EvolvesAt(s.store, s'.store, id)))
    && s'.store.infos.Keys <= s'.used && s'.store.files.Keys <= s'.used && s'.hist.finals.Keys <= s'.used
    && (forall id :: id in s'.hist.completed ==> id in s'.used)
    && (forall id :: id in s.locks && id !in LocksOf(p) ==> id in s'.locks)
    && LocksOf(p') <= s'.locks
    && Mentions(p') <= s'.used
    && ProcOk(s', p')
  }

  predicate SameEvents(s: State, s': State)
  {
    s'.hist.completers == s.hist.completers && s'.hist.stopped == s.hist.stopped
  }

  lemma MovesEvolve(cfg: Config, s: State, s': State, pid: Pid, p: Proc, p': Proc)
    requires Moves(cfg, s, s', pid, p, p')
    ensures Evolves(s.store, s'.store, s.used)
  {
    forall id | id in s.used
      ensures EvolvesAt(s.store, s'.store, id)
    {
      if id !in Own(p) && id !in Own(p') {
        assert SameAt(s, s', id);
      }
    }
  }

  lemma FrozenStays(s: State, s': State, ids: seq<Id>, parts: seq<Bytes>)
    requires |parts| <= |ids| && AllFrozen(s.store, ids, parts)
    requires (set id | id in ids) <= s.used && Evolves(s.store, s'.store, s.used)
    requires forall id :: id in s'.store.infos ==> id in s'.store.files
    ensures AllFrozen(s'.store, ids, parts)
  {
    forall i | 0 <= i < |parts|
      ensures Frozen(s'.store, ids[i], parts[i])
    {
      assert ids[i] in (set id | id in ids);
      assert EvolvesAt(s.store, s'.store, ids[i]);
      assert Frozen(s.store, ids[i], parts[i]);
    }
  }

  /** What another handler knows stays true. */
  lemma OthersKeep(cfg: Config, s: State, s': State, pid: Pid, p: Proc, p': Proc, q: Proc)
    requires Moves(cfg, s, s', pid, p, p')
    requires forall id :: id in s'.store.infos ==> id in s'.store.files
    requires Own(q) !! Own(p) && Own(q) !! Own(p') && Mentions(q) <= s.used && ProcOk(s, q)
    ensures ProcOk(s', q)
  {
    MovesEvolve(cfg, s, s', pid, p, p');
    if OwnOf(q).Some? {
      var id := OwnOf(q).value;
      assert id in Own(q);
      assert SameAt(s, s', id);
    }
    if q.Sizing? {
      FrozenStays(s, s', q.ids, q.parts);
      if q.pending.Some? {
        assert q.ids[|q.parts|] in Mentions(q);
        assert EvolvesAt(s.store, s'.store, q.ids[|q.parts|]);
      }
    } else if q.Joining? {
      assert (set i | i in q.ids) <= Mentions(q);
      FrozenStays(s, s', q.ids, q.parts);
    }
  }

  /** The invariant survives a move that keeps handlers apart and events in order. */
  lemma MovesKeep(cfg: Config, s: State, s': State, pid: Pid, p: Proc, p': Proc)
    requires Inv(cfg, s) && Moves(cfg, s, s', pid, p, p')
    requires pid in s.procs ==> p == s.procs[pid]
    requires pid !in s.procs ==> Own(p) == {} && LocksOf(p) == {}
    requires forall q :: q in s.procs && q != pid ==> Apart(p', s.procs[q])
    requires EventsOk(s')
    ensures Inv(cfg, s')
  {
    forall id
      ensures UploadOk(cfg, s', id)
    {
      assert UploadOk(cfg, s, id);
      if id !in Own(p) && id !in Own(p') {
        assert SameAt(s, s', id);
      }
    }
    forall id | id in s'.store.infos
      ensures id in s'.store.files
    {
      assert UploadOk(cfg, s', id);
    }
    forall q | q in s'.procs
      ensures ProcOk(s', s'.procs[q])
      ensures Mentions(s'.procs[q]) <= s'.used
      ensures LocksOf(s'.procs[q]) <= s'.locks
    {
      if q != pid {
        assert Apart(p', s.procs[q]);
        if pid in s.procs {
          assert Apart(p, s.procs[q]);
        }
        OthersKeep(cfg, s, s', pid, p, p', s.procs[q]);
      }
    }
    forall a, b | a in s'.procs && b in s'.procs && a != b
      ensures Apart(s'.procs[a], s'.procs[b])
    {
      if a == pid {
        assert Apart(p', s.procs[b]);
      } else if b == pid {
        assert Apart(p', s.procs[a]);
      } else {
        assert Apart(s.procs[a], s.procs[b]);
      }
    }
  }
}
