/**
 The tus handlers as processes that interleave over one store and one locker.

 Each step is one atomic action of one handler. Atomic are: one system call on a file, taking or
 dropping a lock, and pieces that touch nothing shared. A body arrives in pieces of any size,
 connections break, hooks fail, and the server may stop an upload at any moment.
 */
module TusProtocol {
  import opened Basics
  import opened TusStore

  type Pid = nat

  datatype Chunk = Chunk(length: int, body: Bytes)

  datatype Request =
    | Patch(id: Id, offset: int, declare: Option<int>, chunk: Chunk)
    | Head(id: Id)
    | Delete(id: Id)
    | Create(info: FileInfo, first: Option<Chunk>)
    | Concat(ids: seq<Id>)

  datatype Reply =
    | Refused(error: Error)
    | WriteOk(id: Id, offset: nat)
    | CreateOk(id: Id)
    | HeadOk(id: Id, offset: nat)
    | DeleteOk(id: Id)
    | JoinOk(id: Id, ids: seq<Id>, parts: seq<Bytes>)

  /** An upload being written: its info as the handler holds it, where it began, what it wrote. */
  datatype Writer = Writer(id: Id, size: int, deferred: bool, start: nat, written: nat, post: bool)

  datatype Proc =
    | Started(req: Request)
    | Held(id: Id, req: Request)                                // lock taken
    | Looked(id: Id, req: Request, info: FileInfo, stored: nat) // GetUpload has returned
    | Made(id: Id, info: FileInfo, first: Option<Chunk>)        // NewUpload has returned
    | Writing(w: Writer, rest: Bytes)                           // inside WriteChunk
    | Wrote(w: Writer, broken: bool)                            // WriteChunk has returned
    | Removing(w: Writer)                                       // stopped: .info removed, bin not yet
    | Settled(w: Writer, broken: bool, stopped: bool)           // past the first look at the stop flag
    | Unread(w: Writer)                                         // no room for a body
    | Deleting(id: Id)                                          // DELETE: .info removed, bin not yet
    | Sizing(ids: seq<Id>, size: int, parts: seq<Bytes>, pending: Option<FileInfo>) // in sizeOfUploads
    | Joining(id: Id, ids: seq<Id>, size: int, parts: seq<Bytes>, done: nat)        // in ConcatUploads
    | Replying(reply: Reply, own: Option<Id>, locked: bool, post: bool)
    | Done(reply: Reply)

  /**
   What observers saw: CompleteUploads events by upload and by handler, handlers that answered
   that they were stopped, and the final uploads ever made with their sizes.
   */
  datatype History = History(completed: multiset<Id>, completers: set<Pid>, stopped: set<Pid>, finals: map<Id, int>)

  /** used: every id that was ever named in a request or given to an upload. */
  datatype State = State(store: Store, locks: set<Id>, procs: map<Pid, Proc>, used: set<Id>, hist: History)

  const EMPTY := State(Store(map[], map[]), {}, map[], {}, History(multiset{}, {}, {}, map[]))

  datatype Step =
    | Begin(pid: Pid, req: Request)
    | Lock(pid: Pid)
    | Look(pid: Pid)
    | Check(pid: Pid)
    | Append(pid: Pid, n: nat)
    | EndCopy(pid: Pid, broken: bool)
    | NotStopped(pid: Pid)
    | RemoveInfo(pid: Pid)
    | RemoveBin(pid: Pid)
    | RemoveFails(pid: Pid)
    | Conclude(pid: Pid, late: bool, hookOk: bool)
    | Make(pid: Pid, id: Id)
    | OpenFirst(pid: Pid)
    | FinishEmpty(pid: Pid, hookOk: bool)
    | ReadInfo(pid: Pid)
    | Stat(pid: Pid)
    | MakeFinal(pid: Pid, id: Id)
    | CopyPart(pid: Pid)
    | CopyBreaks(pid: Pid, n: nat)
    | FinishJoin(pid: Pid, hookOk: bool)
    | GiveUp(pid: Pid)
    | Release(pid: Pid)

  // ----- who may touch what -----

  function Named(req: Request): set<Id>
  {
    match req
    case Patch(id, _, _, _) => {id}
    case Head(id) => {id}
    case Delete(id) => {id}
    case Create(_, _) => {}
    case Concat(ids) => set id | id in ids
  }

  function Owned(own: Option<Id>): set<Id>
  {
    if own.Some? then {own.value} else {}
  }

  /** The upload whose files a handler may change: it holds its lock, or made it and has not answered. */
  function OwnOf(p: Proc): Option<Id>
  {
    match p
    case Started(_) => None
    case Held(id, _) => Some(id)
    case Looked(id, _, _, _) => Some(id)
    case Made(id, _, _) => Some(id)
    case Writing(w, _) => Some(w.id)
    case Wrote(w, _) => Some(w.id)
    case Removing(w) => Some(w.id)
    case Settled(w, _, _) => Some(w.id)
    case Unread(w) => Some(w.id)
    case Deleting(id) => Some(id)
    case Sizing(_, _, _, _) => None
    case Joining(id, _, _, _, _) => Some(id)
    case Replying(_, own, _, _) => own
    case Done(_) => None
  }

  function Own(p: Proc): set<Id>
  {
    Owned(OwnOf(p))
  }

  predicate Locked(p: Proc)
  {
    !p.Made? && !p.Joining? && (p.Replying? ==> p.locked)
  }

  /** The locks a handler holds. */
  function LocksOf(p: Proc): set<Id>
  {
    if Locked(p) then Own(p) else {}
  }

  predicate FromPost(p: Proc)
  {
    match p
    case Made(_, _, _) => true
    case Writing(w, _) => w.post
    case Wrote(w, _) => w.post
    case Removing(w) => w.post
    case Settled(w, _, _) => w.post
    case Unread(w) => w.post
    case Joining(_, _, _, _, _) => true
    case Replying(_, _, _, post) => post
    case _ => false
  }

  /** The upload a POST has made: no client knows its id before the POST is answered. */
  function Hidden(p: Proc): set<Id>
  {
    if FromPost(p) then Own(p) else {}
  }

  /** Every id a handler still works with. */
  function Mentions(p: Proc): set<Id>
  {
    match p
    case Started(req) => Named(req)
    case Sizing(ids, _, _, _) => set id | id in ids
    case Joining(id, ids, _, _, _) => {id} + set i | i in ids
    case _ => Own(p)
  }

  // ----- what the handlers are given -----

  predicate ChunkOk(chunk: Chunk, offset: int)
  {
    -1 <= chunk.length && offset + chunk.length <= MAX_INT64
  }

  /** Header values as they were parsed; Content-Length added to the offset fits in an int64. */
  predicate RequestOk(req: Request)
  {
    match req
    case Patch(_, offset, _, chunk) => 0 <= offset && ChunkOk(chunk, offset)
    case Create(info, first) =>
      && !info.isFinal
      && 0 <= info.size && (info.deferred ==> info.size == 0)
      && (first.Some? ==> ChunkOk(first.value, 0))
    case _ => true
  }

  // ----- steps -----

  function Put(s: State, pid: Pid, p: Proc): State
  {
    s.(procs := s.procs[pid := p])
  }

  /** An error answer; the upload, if any, stays with the handler until it is sent. */
  function Refusal(p: Proc, error: Error): Proc
  {
    Replying(Refused(error), OwnOf(p), LocksOf(p) != {}, FromPost(p))
  }

  function Answer(p: Proc, reply: Reply): Proc
  {
    Replying(reply, OwnOf(p), LocksOf(p) != {}, FromPost(p))
  }

  function Target(req: Request): Option<Id>
  {
    match req
    case Patch(id, _, _, _) => Some(id)
    case Head(id) => Some(id)
    case Delete(id) => Some(id)
    case _ => None
  }

  function WithFile(st: Store, id: Id, bytes: Bytes): Store
  {
    st.(files := st.files[id := bytes])
  }

  function WithInfo(st: Store, id: Id, info: FileInfo): Store
  {
    st.(infos := st.infos[id := info])
  }

  function WithoutInfo(st: Store, id: Id): Store
  {
    st.(infos := st.infos - {id})
  }

  function WithoutFile(st: Store, id: Id): Store
  {
    st.(files := st.files - {id})
  }

  /** NewUpload: an empty bin file and its .info file. */
  function WithNew(st: Store, id: Id, info: FileInfo): Store
  {
    Store(st.infos[id := info], st.files[id := []])
  }

  predicate Present(st: Store, id: Id)
  {
    id in st.infos && id in st.files
  }

  /** writeChunk up to the call of WriteChunk. */
  function BeginWrite(p: Proc, id: Id, info: FileInfo, stored: nat, limit: Result<int, Error>, body: Bytes, post: bool): Proc
  {
    var w := Writer(id, info.size, info.deferred, stored, 0, post);
    match limit
    case Err(e) => Refusal(p, e)
    case Ok(n) => if n > 0 then Writing(w, Limited(body, n)) else Unread(w)
  }

  function Event(cfg: Config, h: History, pid: Pid, id: Id): History
  {
    if cfg.notify then h.(completed := h.completed + multiset{id}, completers := h.completers + {pid}) else h
  }

  function Position(w: Writer): nat
  {
    w.start + w.written
  }

  predicate Finished(w: Writer)
  {
    !w.deferred && Position(w) == w.size
  }

  predicate Enabled(s: State, step: Step)
  {
    match step
    case Begin(pid, req) =>
      && pid !in s.procs && RequestOk(req)
      && (forall q :: q in s.procs ==> Hidden(s.procs[q]) !! Named(req))
    case _ =>
      step.pid in s.procs && EnabledAt(s, step, s.procs[step.pid])
  }

  predicate EnabledAt(s: State, step: Step, p: Proc)
  {
    match step
    case Begin(_, _) => false
    case Lock(_) => p.Started? && Target(p.req).Some?
    case Look(_) => p.Held?
    case Check(_) => p.Looked? && p.req.Patch?
    case Append(_, n) => p.Writing? && 0 < n <= |p.rest|
    case EndCopy(_, broken) => p.Writing? && (broken || p.rest == [])
    case NotStopped(_) => p.Wrote?
    case RemoveInfo(_) => p.Wrote? || (p.Looked? && p.req.Delete?)
    case RemoveBin(_) => p.Removing? || p.Deleting?
    case RemoveFails(_) => p.Wrote? || p.Removing? || p.Deleting? || (p.Looked? && p.req.Delete?)
    case Conclude(_, late, _) => p.Settled? || (p.Unread? && !late)
    case Make(_, id) => p.Started? && p.req.Create? && id !in s.used
    case OpenFirst(_) => p.Made? && p.first.Some?
    case FinishEmpty(_, _) => p.Made? && p.first.None?
    case ReadInfo(_) => p.Sizing? && |p.parts| < |p.ids| && p.pending.None?
    case Stat(_) => p.Sizing? && |p.parts| < |p.ids| && p.pending.Some? && p.size + p.pending.value.size <= MAX_INT64
    case MakeFinal(_, id) => p.Sizing? && |p.parts| == |p.ids| && id !in s.used
    case CopyPart(_) => p.Joining? && p.done < |p.ids|
    case CopyBreaks(_, n) => p.Joining? && p.done < |p.ids| && p.ids[p.done] in s.store.files && n <= |FileOf(s.store, p.ids[p.done])|
    case FinishJoin(_, _) => p.Joining? && p.done == |p.ids|
    case GiveUp(_) => p.Started? || p.Held? || p.Looked? || p.Made? || p.Sizing?
    case Release(_) => p.Replying?
  }

  function Next(cfg: Config, s: State, step: Step): State
    requires Enabled(s, step)
  {
    if step.Begin? then
      var p := if step.req.Concat? then Sizing(step.req.ids, 0, [], None) else Started(step.req);
      Put(s, step.pid, p).(used := s.used + Named(step.req))
    else
      NextAt(cfg, s, step, s.procs[step.pid])
  }

  function NextAt(cfg: Config, s: State, step: Step, p: Proc): State
    requires EnabledAt(s, step, p)
  {
    match step
    case Lock(pid) => NextLock(s, pid, p)
    case Look(pid) => NextLook(s, pid, p)
    case Check(pid) => NextCheck(cfg, s, pid, p)
    case Append(pid, n) => NextAppend(s, pid, p, n)
    case EndCopy(pid, broken) => Put(s, pid, Wrote(p.w, broken))
    case NotStopped(pid) => Put(s, pid, Settled(p.w, p.broken, false))
    case RemoveInfo(pid) => NextRemoveInfo(s, pid, p)
    case RemoveBin(pid) => NextRemoveBin(s, pid, p)
    case RemoveFails(pid) =>
      Put(s, pid, if p.Wrote? || p.Removing? then Settled(p.w, true, true) else Refusal(p, Failed))
    case Conclude(pid, late, hookOk) => NextConclude(cfg, s, pid, p, late, hookOk)
    case Make(pid, id) => NextMake(cfg, s, pid, p, id)
    case OpenFirst(pid) => NextOpenFirst(cfg, s, pid, p)
    case FinishEmpty(pid, hookOk) => NextFinishEmpty(cfg, s, pid, p, hookOk)
    case ReadInfo(pid) => NextReadInfo(s, pid, p)
    case Stat(pid) => NextStat(s, pid, p)
    case MakeFinal(pid, id) => NextMakeFinal(cfg, s, pid, p, id)
    case CopyPart(pid) => NextCopyPart(s, pid, p)
    case CopyBreaks(pid, n) => NextCopyBreaks(s, pid, p, n)
    case FinishJoin(pid, hookOk) => NextFinishJoin(cfg, s, pid, p, hookOk)
    case GiveUp(pid) => Put(s, pid, Refusal(p, Failed))
    case Release(pid) => Put(s, pid, Done(p.reply)).(locks := s.locks - LocksOf(p))
  }

  /** lockUpload. */
  function NextLock(s: State, pid: Pid, p: Proc): State
    requires p.Started? && Target(p.req).Some?
  {
    var id := Target(p.req).value;
    if id in s.locks then Put(s, pid, Refusal(p, FileLocked))
    else Put(s, pid, Held(id, p.req)).(locks := s.locks + {id})
  }

  /** GetUpload and GetInfo, under the lock; HEAD answers at once. */
  function NextLook(s: State, pid: Pid, p: Proc): State
    requires p.Held?
  {
    if !Present(s.store, p.id) then Put(s, pid, Refusal(p, NotFound))
    else if p.req.Head? then Put(s, pid, Answer(p, HeadOk(p.id, |s.store.files[p.id]|)))
    else Put(s, pid, Looked(p.id, p.req, s.store.infos[p.id], |s.store.files[p.id]|))
  }

  /** The bytes a file is appended to; the files that handlers write exist. */
  function FileOf(st: Store, id: Id): Bytes
  {
    if id in st.files then st.files[id] else []
  }

  /** io.Copy inside WriteChunk appends the next n bytes of the body. */
  function NextAppend(s: State, pid: Pid, p: Proc, n: nat): State
    requires p.Writing? && n <= |p.rest|
  {
    var w := p.w.(written := p.w.written + n);
    Put(s, pid, Writing(w, p.rest[n..])).(store := WithFile(s.store, w.id, FileOf(s.store, w.id) + p.rest[..n]))
  }

  /** Terminate, first half. */
  function NextRemoveInfo(s: State, pid: Pid, p: Proc): State
    requires p.Wrote? || p.Looked?
  {
    if p.Wrote? then Put(s, pid, Removing(p.w)).(store := WithoutInfo(s.store, p.w.id))
    else Put(s, pid, Deleting(p.id)).(store := WithoutInfo(s.store, p.id))
  }

  /** Terminate, second half. */
  function NextRemoveBin(s: State, pid: Pid, p: Proc): State
    requires p.Removing? || p.Deleting?
  {
    if p.Removing? then Put(s, pid, Settled(p.w, true, true)).(store := WithoutFile(s.store, p.w.id))
    else Put(s, pid, Answer(p, DeleteOk(p.id))).(store := WithoutFile(s.store, p.id))
  }

  /** PostFile up to NewUpload, for an upload that is not final. */
  function NextMake(cfg: Config, s: State, pid: Pid, p: Proc, id: Id): State
    requires p.Started? && p.req.Create?
  {
    if cfg.maxSize > 0 && p.req.info.size > cfg.maxSize then Put(s, pid, Refusal(p, MaxSizeExceeded))
    else
      Put(s, pid, Made(id, p.req.info, p.req.first))
        .(store := WithNew(s.store, id, p.req.info), used := s.used + {id})
  }

  /** The chunk of a POST: take the lock, then writeChunk at offset 0. */
  function NextOpenFirst(cfg: Config, s: State, pid: Pid, p: Proc): State
    requires p.Made? && p.first.Some?
  {
    if p.id in s.locks then Put(s, pid, Refusal(p, FileLocked))
    else
      var held := Replying(CreateOk(p.id), Some(p.id), true, true);
      var chunk := p.first.value;
      Put(s, pid, BeginWrite(held, p.id, p.info, 0, ChunkLimit(cfg, p.info, 0, chunk.length), chunk.body, true))
        .(locks := s.locks + {p.id})
  }

  /** A POST without a chunk: an empty upload is complete at once. */
  function NextFinishEmpty(cfg: Config, s: State, pid: Pid, p: Proc, hookOk: bool): State
    requires p.Made?
  {
    if p.info.deferred || p.info.size != 0 then Put(s, pid, Answer(p, CreateOk(p.id)))
    else if !hookOk then Put(s, pid, Refusal(p, Failed))
    else Put(s, pid, Answer(p, CreateOk(p.id))).(hist := Event(cfg, s.hist, pid, p.id))
  }

  /** sizeOfUploads calls GetUpload without a lock: first the .info file is read, */
  function NextReadInfo(s: State, pid: Pid, p: Proc): State
    requires p.Sizing? && |p.parts| < |p.ids|
  {
    var id := p.ids[|p.parts|];
    if id !in s.store.infos then Put(s, pid, Refusal(p, NotFound))
    else Put(s, pid, p.(pending := Some(s.store.infos[id])))
  }

  /** and then, perhaps much later, the length of the bin file. */
  function NextStat(s: State, pid: Pid, p: Proc): State
    requires p.Sizing? && |p.parts| < |p.ids| && p.pending.Some?
  {
    var id, info := p.ids[|p.parts|], p.pending.value;
    if id !in s.store.files then Put(s, pid, Refusal(p, NotFound))
    else if !Complete(info, |s.store.files[id]|) then Put(s, pid, Refusal(p, NotFinished))
    else Put(s, pid, Sizing(p.ids, p.size + info.size, p.parts + [s.store.files[id]], None))
  }

  /** NewUpload for a final upload. */
  function NextMakeFinal(cfg: Config, s: State, pid: Pid, p: Proc, id: Id): State
    requires p.Sizing?
  {
    if cfg.maxSize > 0 && p.size > cfg.maxSize then Put(s, pid, Refusal(p, MaxSizeExceeded))
    else
      Put(s, pid, Joining(id, p.ids, p.size, p.parts, 0))
        .(store := WithNew(s.store, id, FileInfo(p.size, false, false, true, p.ids)),
          used := s.used + {id}, hist := s.hist.(finals := s.hist.finals[id := p.size]))
  }

  /** One partial upload opened and copied whole; nothing is checked again. */
  function NextCopyPart(s: State, pid: Pid, p: Proc): State
    requires p.Joining? && p.done < |p.ids|
  {
    var part := p.ids[p.done];
    if part !in s.store.files then Put(s, pid, Refusal(p, Failed))
    else
      Put(s, pid, p.(done := p.done + 1))
        .(store := WithFile(s.store, p.id, FileOf(s.store, p.id) + s.store.files[part]))
  }

  /** The copy of one partial upload breaks off. */
  function NextCopyBreaks(s: State, pid: Pid, p: Proc, n: nat): State
    requires p.Joining? && p.done < |p.ids| && n <= |FileOf(s.store, p.ids[p.done])|
  {
    Put(s, pid, Refusal(p, Failed))
      .(store := WithFile(s.store, p.id, FileOf(s.store, p.id) + FileOf(s.store, p.ids[p.done])[..n]))
  }

  /** After ConcatUploads: one event, and through finishUploadIfComplete a second one when the size is 0. */
  function NextFinishJoin(cfg: Config, s: State, pid: Pid, p: Proc, hookOk: bool): State
    requires p.Joining?
  {
    var once := Event(cfg, s.hist, pid, p.id);
    if p.size != 0 then Put(s, pid, Answer(p, JoinOk(p.id, p.ids, p.parts))).(hist := once)
    else if !hookOk then Put(s, pid, Refusal(p, Failed)).(hist := once)
    else Put(s, pid, Answer(p, JoinOk(p.id, p.ids, p.parts))).(hist := Event(cfg, once, pid, p.id))
  }

  /** PatchFile from the checks to the start of the copy. */
  function NextCheck(cfg: Config, s: State, pid: Pid, p: Proc): State
    requires p.Looked? && p.req.Patch?
  {
    match Admitted(cfg, p.info, p.stored, p.req.offset, p.req.declare, p.req.chunk.length)
    case Refuse(e) => Put(s, pid, Refusal(p, e))
    case AlreadyComplete => Put(s, pid, Answer(p, WriteOk(p.id, p.stored)))
    case Admit(info, limit) =>
      Put(s, pid, BeginWrite(p, p.id, info, p.stored, limit, p.req.chunk.body, false))
        .(store := if p.req.declare.Some? then WithInfo(s.store, p.id, info) else s.store)
  }

  predicate Stopped(p: Proc, late: bool)
    requires p.Settled? || p.Unread?
  {
    p.Settled? && (p.stopped || late)
  }

  predicate Reports(p: Proc, late: bool, hookOk: bool)
    requires p.Settled? || p.Unread?
  {
    !Stopped(p, late) && !(p.Settled? && p.broken) && Finished(p.w) && hookOk
  }

  /** The end of writeChunk: the stop flag a second time, errors, the new offset, completion. */
  function Outcome(p: Proc, late: bool, hookOk: bool): Proc
    requires p.Settled? || p.Unread?
  {
    if Stopped(p, late) then Refusal(p, StoppedByServer)
    else if p.Settled? && p.broken then Refusal(p, Failed)
    else if Finished(p.w) && !hookOk then Refusal(p, Failed)
    else Answer(p, WriteOk(p.w.id, Position(p.w)))
  }

  function NextConclude(cfg: Config, s: State, pid: Pid, p: Proc, late: bool, hookOk: bool): State
    requires p.Settled? || p.Unread?
  {
    Put(s, pid, Outcome(p, late, hookOk))
      .(hist :=
          if Stopped(p, late) then s.hist.(stopped := s.hist.stopped + {pid})
          else if Reports(p, late, hookOk) then Event(cfg, s.hist, pid, p.w.id)
          else s.hist)
  }

  /** A run from the empty store; run[i+1] follows run[i] by the i-th step. */
  ghost predicate IsRun(cfg: Config, run: seq<State>, steps: seq<Step>)
  {
    && |run| == |steps| + 1
    && run[0] == EMPTY
    && forall i :: 0 <= i < |steps| ==> Enabled(run[i], steps[i]) && run[i + 1] == Next(cfg, run[i], steps[i])
  }
}
