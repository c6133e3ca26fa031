/** What the handlers promise over whole runs. */
module TusTheorems {
  import opened Basics
  import opened TusStore
  import opened TusProtocol
  import opened TusInvariant
  import opened TusSteps

  lemma EmptyInv(cfg: Config)
    ensures Inv(cfg, EMPTY)
  {}

  lemma {:induction false} RunInv(cfg: Config, run: seq<State>, steps: seq<Step>, i: nat)
    requires IsRun(cfg, run, steps) && i < |run|
    ensures Inv(cfg, run[i])
  {
    hide Inv, Enabled, Next;
    if i == 0 {
      EmptyInv(cfg);
    } else {
      RunInv(cfg, run, steps, i - 1);
      assert Enabled(run[i - 1], steps[i - 1]) && run[i - 1 + 1] == Next(cfg, run[i - 1], steps[i - 1]);
      StepKeeps(cfg, run[i - 1], steps[i - 1]);
    }
  }

  /** Over any stretch of a run, the store only evolves. */
  lemma {:induction false} RunEvolves(cfg: Config, run: seq<State>, steps: seq<Step>, i: nat, j: nat)
    requires IsRun(cfg, run, steps) && i <= j < |run|
    ensures Evolves(run[i].store, run[j].store, run[i].used) && run[i].used <= run[j].used
    decreases j
  {
    hide Inv, Enabled, Next, EvolvesAt;
    if i == j {
      forall id | id in run[i].used
        ensures EvolvesAt(run[i].store, run[i].store, id)
      {
        EvolvesReflexive(run[i].store, id);
      }
    } else {
      RunEvolves(cfg, run, steps, i, j - 1);
      RunInv(cfg, run, steps, j - 1);
      assert Enabled(run[j - 1], steps[j - 1]) && run[j - 1 + 1] == Next(cfg, run[j - 1], steps[j - 1]);
      StepKeeps(cfg, run[j - 1], steps[j - 1]);
      EvolvesTransitive(run[i].store, run[j - 1].store, run[j].store, run[i].used, run[j - 1].used);
    }
  }

  lemma EvolvesReflexive(st: Store, id: Id)
    ensures EvolvesAt(st, st, id)
  {}

  // ----- sizes -----

  /** A declared size bounds the stored bytes and respects MaxSize, in every state. */
  lemma SizesHold(cfg: Config, run: seq<State>, steps: seq<Step>, i: nat, id: Id)
    requires IsRun(cfg, run, steps) && i < |run|
    requires id in run[i].store.infos && !run[i].store.infos[id].deferred
    ensures id in run[i].store.files
    ensures 0 <= |run[i].store.files[id]| <= run[i].store.infos[id].size
    ensures cfg.maxSize > 0 ==> run[i].store.infos[id].size <= cfg.maxSize
  {
    RunInv(cfg, run, steps, i);
    assert UploadOk(cfg, run[i], id);
  }

  /**
   Once declared, a size never changes; bytes once stored stay where they are, and a complete
   upload gets no more of them, for as long as the upload is not terminated.
   */
  lemma StoredBytesStay(cfg: Config, run: seq<State>, steps: seq<Step>, i: nat, j: nat, id: Id)
    requires IsRun(cfg, run, steps) && i <= j < |run|
    requires id in run[i].store.infos && id in run[j].store.infos
    ensures id in run[i].store.files && id in run[j].store.files
    ensures run[i].store.files[id] <= run[j].store.files[id]
    ensures !run[i].store.infos[id].deferred ==> run[j].store.infos[id] == run[i].store.infos[id]
    ensures Complete(run[i].store.infos[id], |run[i].store.files[id]|) ==> run[j].store.files[id] == run[i].store.files[id]
  {
    RunInv(cfg, run, steps, i);
    RunInv(cfg, run, steps, j);
    RunEvolves(cfg, run, steps, i, j);
    assert UploadOk(cfg, run[i], id) && UploadOk(cfg, run[j], id);
    assert EvolvesAt(run[i].store, run[j].store, id);
  }

  /** No two handlers own one upload at the same time. */
  lemma OneOwner(cfg: Config, run: seq<State>, steps: seq<Step>, i: nat, a: Pid, b: Pid)
    requires IsRun(cfg, run, steps) && i < |run|
    requires a in run[i].procs && b in run[i].procs && a != b
    ensures Own(run[i].procs[a]) !! Own(run[i].procs[b])
  {
    RunInv(cfg, run, steps, i);
    assert Apart(run[i].procs[a], run[i].procs[b]);
  }

  // ----- offsets -----

  /**
   An offset that a successful PATCH, POST or HEAD answers with is the length of the file at
   that moment, and the bytes below it are still there, unchanged, while the file is.
   */
  lemma OffsetsAreDurable(cfg: Config, run: seq<State>, steps: seq<Step>, i: nat, j: nat, pid: Pid, id: Id, offset: nat)
    requires IsRun(cfg, run, steps) && i <= j < |run|
    requires pid in run[i].procs && run[i].procs[pid].Replying?
    requires run[i].procs[pid].reply == WriteOk(id, offset) || run[i].procs[pid].reply == HeadOk(id, offset)
    ensures id in run[i].store.files && |run[i].store.files[id]| == offset
    ensures id in run[j].store.files ==> offset <= |run[j].store.files[id]| && run[j].store.files[id][..offset] == run[i].store.files[id]
  {
    RunInv(cfg, run, steps, i);
    RunEvolves(cfg, run, steps, i, j);
    var p := run[i].procs[pid];
    assert ProcOk(run[i], p);
    assert id in run[i].used;
    assert EvolvesAt(run[i].store, run[j].store, id);
  }

  // ----- resumption -----

  /** What is left of the data from an offset on. */
  function Tail(data: Bytes, offset: int): Bytes
  {
    if 0 <= offset <= |data| then data[offset..] else []
  }

  predicate RequestFollows(data: Id -> Bytes, req: Request)
  {
    req.Patch? ==> req.chunk.body <= Tail(data(req.id), req.offset)
  }

  /** The client sends, at every offset, a piece of its data from that offset on. */
  predicate Follows(data: Id -> Bytes, s: State, step: Step)
    requires Enabled(s, step)
  {
    match step
    case Begin(_, req) => RequestFollows(data, req)
    case Make(pid, id) =>
      var first := s.procs[pid].req.first;
      first.Some? ==> first.value.body <= data(id)
    case _ => true
  }

  predicate ProcFollows(data: Id -> Bytes, p: Proc)
  {
    match p
    case Started(req) => RequestFollows(data, req)
    case Held(_, req) => RequestFollows(data, req)
    case Looked(_, req, _, _) => RequestFollows(data, req)
    case Made(id, _, first) => first.Some? ==> first.value.body <= data(id)
    case Writing(w, rest) => rest <= Tail(data(w.id), Position(w))
    case _ => true
  }

  predicate FileFollows(data: Id -> Bytes, st: Store, id: Id)
  {
    Present(st, id) && !st.infos[id].isFinal ==> st.files[id] <= data(id)
  }

  ghost predicate DataInv(data: Id -> Bytes, s: State)
  {
    && (forall id :: FileFollows(data, s.store, id))
    && (forall pid :: pid in s.procs ==> ProcFollows(data, s.procs[pid]))
  }

  /** The step of handler pid to p' changes no file, or only one, which follows the data. */
  lemma DataMoves(data: Id -> Bytes, s: State, s': State, pid: Pid, p': Proc)
    requires DataInv(data, s) && s'.procs == s.procs[pid := p'] && ProcFollows(data, p')
    requires forall id :: FileFollows(data, s.store, id) ==> FileFollows(data, s'.store, id)
    ensures DataInv(data, s')
  {}

  lemma LimitedFollows(body: Bytes, limit: int, tail: Bytes)
    requires body <= tail
    ensures Limited(body, limit) <= tail
  {}

  lemma AppendFollows(data: Bytes, stored: Bytes, rest: Bytes, n: nat)
    requires stored <= data && rest <= Tail(data, |stored|) && n <= |rest|
    ensures stored + rest[..n] <= data && rest[n..] <= Tail(data, |stored| + n)
  {
    assert data[|stored|..][n..] == data[|stored| + n..];
    assert data[..|stored| + n] == stored + data[|stored|..][..n];
  }

  lemma DataAppend(cfg: Config, data: Id -> Bytes, s: State, pid: Pid, p: Proc, n: nat)
    requires At(cfg, s, pid, p) && DataInv(data, s) && p.Writing? && n <= |p.rest|
    ensures DataInv(data, NextAppend(s, pid, p, n))
  {
    Known(cfg, s, pid, p);
    var s' := NextAppend(s, pid, p, n);
    var id := p.w.id;
    assert ProcFollows(data, p) && FileFollows(data, s.store, id);
    AppendFollows(data(id), s.store.files[id], p.rest, n);
    forall x | FileFollows(data, s.store, x)
      ensures FileFollows(data, s'.store, x)
    {}
    hide Inv;
    DataMoves(data, s, s', pid, s'.procs[pid]);
  }

  lemma DataCheck(cfg: Config, data: Id -> Bytes, s: State, pid: Pid, p: Proc)
    requires At(cfg, s, pid, p) && DataInv(data, s) && p.Looked? && p.req.Patch?
    ensures DataInv(data, NextCheck(cfg, s, pid, p))
  {
    Known(cfg, s, pid, p);
    hide Inv, ChunkLimit, Limited;
    var s' := NextCheck(cfg, s, pid, p);
    var chunk := p.req.chunk;
    assert ProcFollows(data, p);
    match Admitted(cfg, p.info, p.stored, p.req.offset, p.req.declare, chunk.length)
    case Refuse(_) =>
    case AlreadyComplete =>
    case Admit(info, limit) =>
      if limit.Ok? {
        LimitedFollows(chunk.body, limit.value, Tail(data(p.id), p.req.offset));
      }
    DataMoves(data, s, s', pid, s'.procs[pid]);
  }

  lemma DataOpenFirst(cfg: Config, data: Id -> Bytes, s: State, pid: Pid, p: Proc)
    requires At(cfg, s, pid, p) && DataInv(data, s) && p.Made? && p.first.Some?
    ensures DataInv(data, NextOpenFirst(cfg, s, pid, p))
  {
    hide Inv, ChunkLimit, Limited;
    var s' := NextOpenFirst(cfg, s, pid, p);
    assert ProcFollows(data, p);
    var limit := ChunkLimit(cfg, p.info, 0, p.first.value.length);
    if limit.Ok? {
      LimitedFollows(p.first.value.body, limit.value, Tail(data(p.id), 0));
    }
    DataMoves(data, s, s', pid, s'.procs[pid]);
  }

  /** Steps of a handler that leave the store as it is, and admit no body. */
  lemma DataPlain(cfg: Config, data: Id -> Bytes, s: State, step: Step)
    requires DataInv(data, s) && Enabled(s, step)
    requires step.Lock? || step.Look? || step.EndCopy? || step.NotStopped? || step.RemoveFails? || step.Conclude?
      || step.FinishEmpty? || step.ReadInfo? || step.Stat? || step.FinishJoin? || step.GiveUp? || step.Release?
    ensures DataInv(data, Next(cfg, s, step))
  {
    PlainStore(cfg, s, step);
    PlainProc(cfg, data, s, step);
    StepOfOne(cfg, s, step);
    hide Next, Enabled, FileFollows, ProcFollows;
    DataMoves(data, s, Next(cfg, s, step), step.pid, Next(cfg, s, step).procs[step.pid]);
  }

  lemma PlainProc(cfg: Config, data: Id -> Bytes, s: State, step: Step)
    requires Enabled(s, step) && !step.Begin? && ProcFollows(data, s.procs[step.pid])
    requires step.Lock? || step.Look? || step.EndCopy? || step.NotStopped? || step.RemoveFails? || step.Conclude?
      || step.FinishEmpty? || step.ReadInfo? || step.Stat? || step.FinishJoin? || step.GiveUp? || step.Release?
    ensures step.pid in Next(cfg, s, step).procs
    ensures ProcFollows(data, Next(cfg, s, step).procs[step.pid])
  {
    hide Event, Target, Reports, LocksOf, OwnOf, FromPost, Complete, Present;
  }

  lemma PlainStore(cfg: Config, s: State, step: Step)
    requires Enabled(s, step)
    requires step.Lock? || step.Look? || step.EndCopy? || step.NotStopped? || step.RemoveFails? || step.Conclude?
      || step.FinishEmpty? || step.ReadInfo? || step.Stat? || step.FinishJoin? || step.GiveUp? || step.Release?
    ensures Next(cfg, s, step).store == s.store
  {
    hide Refusal, Answer, Event, Outcome, Target, Reports, Present, Complete, LocksOf;
  }

  lemma DataRemove(cfg: Config, data: Id -> Bytes, s: State, step: Step)
    requires DataInv(data, s) && Enabled(s, step) && (step.RemoveInfo? || step.RemoveBin?)
    ensures DataInv(data, Next(cfg, s, step))
  {
    var s' := Next(cfg, s, step);
    assert forall x :: FileFollows(data, s.store, x) ==> FileFollows(data, s'.store, x);
    DataMoves(data, s, s', step.pid, s'.procs[step.pid]);
  }

  lemma DataMake(cfg: Config, data: Id -> Bytes, s: State, step: Step)
    requires Inv(cfg, s) && DataInv(data, s) && Enabled(s, step) && Follows(data, s, step)
    requires step.Begin? || step.Make? || step.MakeFinal?
    ensures DataInv(data, Next(cfg, s, step))
  {
    var s' := Next(cfg, s, step);
    if step.pid in s.procs {
      assert ProcFollows(data, s.procs[step.pid]);
    }
    hide Inv, DataInv, LocksOf, Event;
    assert forall x :: FileFollows(data, s.store, x) ==> FileFollows(data, s'.store, x);
    DataMoves(data, s, s', step.pid, s'.procs[step.pid]);
  }

  lemma DataCopy(cfg: Config, data: Id -> Bytes, s: State, pid: Pid, p: Proc, s': State)
    requires At(cfg, s, pid, p) && DataInv(data, s) && p.Joining?
    requires
      || (p.done < |p.ids| && s' == NextCopyPart(s, pid, p))
      || (exists n: nat :: CanBreak(s, p, n) && s' == NextCopyBreaks(s, pid, p, n))
    ensures DataInv(data, s')
  {
    Known(cfg, s, pid, p);
    hide Inv, FileOf, LocksOf;
    assert forall x :: x != p.id ==> (FileFollows(data, s.store, x) ==> FileFollows(data, s'.store, x));
    assert FileFollows(data, s'.store, p.id);
    DataMoves(data, s, s', pid, s'.procs[pid]);
  }

  predicate CanBreak(s: State, p: Proc, n: nat)
  {
    p.Joining? && p.done < |p.ids| && n <= |FileOf(s.store, p.ids[p.done])|
  }

  lemma DataKeeps(cfg: Config, data: Id -> Bytes, s: State, step: Step)
    requires Inv(cfg, s) && DataInv(data, s) && Enabled(s, step) && Follows(data, s, step)
    ensures DataInv(data, Next(cfg, s, step))
  {
    hide Inv, DataInv, NextLock, NextLook, NextCheck, NextAppend, NextRemoveInfo, NextRemoveBin, NextMake, NextOpenFirst,
      NextFinishEmpty, NextReadInfo, NextStat, NextMakeFinal, NextCopyPart, NextCopyBreaks, NextFinishJoin, NextConclude;
    match step
    case Append(pid, n) => DataAppend(cfg, data, s, pid, s.procs[pid], n);
    case Check(pid) => DataCheck(cfg, data, s, pid, s.procs[pid]);
    case OpenFirst(pid) => DataOpenFirst(cfg, data, s, pid, s.procs[pid]);
    case Begin(_, _) => DataMake(cfg, data, s, step);
    case Make(_, _) => DataMake(cfg, data, s, step);
    case MakeFinal(_, _) => DataMake(cfg, data, s, step);
    case CopyPart(pid) => DataCopy(cfg, data, s, pid, s.procs[pid], Next(cfg, s, step));
    case CopyBreaks(pid, n) =>
      assert CanBreak(s, s.procs[pid], n);
      DataCopy(cfg, data, s, pid, s.procs[pid], Next(cfg, s, step));
    case RemoveInfo(_) => DataRemove(cfg, data, s, step);
    case RemoveBin(_) => DataRemove(cfg, data, s, step);
    case _ => DataPlain(cfg, data, s, step);
  }

  lemma {:induction false} RunFollows(cfg: Config, data: Id -> Bytes, run: seq<State>, steps: seq<Step>, i: nat)
    requires IsRun(cfg, run, steps) && i < |run|
    requires forall k :: 0 <= k < |steps| ==> Follows(data, run[k], steps[k])
    ensures DataInv(data, run[i])
  {
    hide Inv, Enabled, Next, Follows;
    if i == 0 {
    } else {
      RunFollows(cfg, data, run, steps, i - 1);
      RunInv(cfg, run, steps, i - 1);
      assert Enabled(run[i - 1], steps[i - 1]) && run[i - 1 + 1] == Next(cfg, run[i - 1], steps[i - 1]);
      DataKeeps(cfg, data, run[i - 1], steps[i - 1]);
    }
  }

  /**
   Resumption. If every body sent for an upload at some offset is a piece of the client's data
   from that offset on, then whatever was interleaved, refused, broken off or repeated, an upload
   that is not final holds a prefix of the data, and when complete exactly its first Size bytes.
   */
  lemma Resumption(cfg: Config, data: Id -> Bytes, run: seq<State>, steps: seq<Step>, i: nat, id: Id)
    requires IsRun(cfg, run, steps) && i < |run|
    requires forall k :: 0 <= k < |steps| ==> Follows(data, run[k], steps[k])
    requires id in run[i].store.infos && !run[i].store.infos[id].isFinal
    ensures id in run[i].store.files && run[i].store.files[id] <= data(id)
    ensures
      var info, bytes := run[i].store.infos[id], run[i].store.files[id];
      Complete(info, |bytes|) ==> 0 <= info.size <= |data(id)| && bytes == data(id)[..info.size]
  {
    RunInv(cfg, run, steps, i);
    RunFollows(cfg, data, run, steps, i);
    assert UploadOk(cfg, run[i], id);
    assert FileFollows(data, run[i].store, id);
  }

  // ----- completion -----

  /** A handler that answered that it was stopped has sent no event, then or ever. */
  lemma StoppedNeverCompletes(cfg: Config, run: seq<State>, steps: seq<Step>, i: nat, j: nat, pid: Pid)
    requires IsRun(cfg, run, steps) && i < |run| && j < |run|
    requires pid in run[i].hist.stopped
    ensures pid !in run[j].hist.completers
  {
    if i <= j {
      EventsGrow(cfg, run, steps, i, j);
      RunInv(cfg, run, steps, j);
    } else {
      EventsGrow(cfg, run, steps, j, i);
      RunInv(cfg, run, steps, i);
    }
  }

  lemma StepEventsGrow(cfg: Config, s: State, step: Step)
    requires Enabled(s, step)
    ensures s.hist.stopped <= Next(cfg, s, step).hist.stopped
    ensures s.hist.completers <= Next(cfg, s, step).hist.completers
  {
    hide Refusal, Answer, Outcome, Target, Reports, Present, Complete, LocksOf, BeginWrite, FileOf, Admitted, ChunkLimit;
  }

  lemma {:induction false} EventsGrow(cfg: Config, run: seq<State>, steps: seq<Step>, i: nat, j: nat)
    requires IsRun(cfg, run, steps) && i <= j < |run|
    ensures run[i].hist.stopped <= run[j].hist.stopped && run[i].hist.completers <= run[j].hist.completers
    decreases j
  {
    hide Enabled, Next;
    if i == j {
    } else {
      EventsGrow(cfg, run, steps, i, j - 1);
      assert Enabled(run[j - 1], steps[j - 1]) && run[j - 1 + 1] == Next(cfg, run[j - 1], steps[j - 1]);
      StepEventsGrow(cfg, run[j - 1], steps[j - 1]);
    }
  }

  // ----- concatenation -----

  /** The upload was there and complete, with these bytes. */
  predicate CompleteAt(st: Store, id: Id, c: Bytes)
  {
    Present(st, id) && Complete(st.infos[id], |st.files[id]|) && st.files[id] == c
  }

  /** It was so in some state after step b, up to state i. */
  ghost predicate CompleteSince(run: seq<State>, b: nat, i: nat, id: Id, c: Bytes)
    requires i < |run|
  {
    exists m: nat | b < m <= i :: CompleteAt(run[m].store, id, c)
  }

  ghost predicate PartsComplete(run: seq<State>, b: nat, i: nat, ids: seq<Id>, parts: seq<Bytes>)
    requires i < |run|
  {
    |parts| <= |ids| && forall k :: 0 <= k < |parts| ==> CompleteSince(run, b, i, ids[k], parts[k])
  }

  /** An info that was read is still there, or the file it would pass was complete before it went. */
  ghost predicate PendingComplete(run: seq<State>, b: nat, i: nat, id: Id, info: FileInfo)
    requires i < |run|
  {
    var st := run[i].store;
    id in st.infos || (id in st.files && Complete(info, |st.files[id]|) ==> CompleteSince(run, b, i, id, st.files[id]))
  }

  /** What a handler that step b began with req has found complete since. */
  ghost predicate ProcChecked(run: seq<State>, b: nat, i: nat, req: Request, p: Proc)
    requires i < |run|
  {
    match p
    case Sizing(ids, _, parts, pending) =>
      && req == Concat(ids) && PartsComplete(run, b, i, ids, parts)
      && (pending.Some? ==> |parts| < |ids| && PendingComplete(run, b, i, ids[|parts|], pending.value))
    case Joining(_, ids, _, parts, _) => req == Concat(ids) && PartsComplete(run, b, i, ids, parts)
    case Replying(JoinOk(_, ids, parts), _, _, _) => req == Concat(ids) && PartsComplete(run, b, i, ids, parts)
    case _ => true
  }

  lemma PartsLater(run: seq<State>, b: nat, i: nat, ids: seq<Id>, parts: seq<Bytes>)
    requires i + 1 < |run| && PartsComplete(run, b, i, ids, parts)
    ensures PartsComplete(run, b, i + 1, ids, parts)
  {
    hide CompleteAt;
    forall k | 0 <= k < |parts|
      ensures CompleteSince(run, b, i + 1, ids[k], parts[k])
    {
      assert CompleteSince(run, b, i, ids[k], parts[k]);
      var m: nat :| b < m <= i && CompleteAt(run[m].store, ids[k], parts[k]);
      assert CompleteAt(run[m].store, ids[k], parts[k]);
    }
  }

  /** A step that takes an info away changes no file. */
  lemma InfoGoesAlone(cfg: Config, s: State, step: Step, id: Id)
    requires Enabled(s, step) && id in s.store.infos && id !in Next(cfg, s, step).store.infos
    ensures Next(cfg, s, step).store.files == s.store.files
  {
    if !step.RemoveInfo? {
      InfosStay(cfg, s, step);
      hide Next, Enabled;
    }
  }

  lemma InfosStay(cfg: Config, s: State, step: Step)
    requires Enabled(s, step) && !step.RemoveInfo?
    ensures s.store.infos.Keys <= Next(cfg, s, step).store.infos.Keys
  {
    hide Refusal, Answer, Outcome, Target, Reports, Present, Complete, LocksOf, BeginWrite, FileOf, Admitted, ChunkLimit, Event, Hidden, Limited;
  }

  lemma PendingLater(cfg: Config, run: seq<State>, b: nat, i: nat, step: Step, id: Id, info: FileInfo)
    requires b < i && i + 1 < |run| && Inv(cfg, run[i]) && Enabled(run[i], step) && run[i + 1] == Next(cfg, run[i], step)
    requires id in run[i].used && PendingOk(run[i].store, id, info) && PendingComplete(run, b, i, id, info)
    ensures PendingComplete(run, b, i + 1, id, info)
  {
    hide Enabled, Next, UsedOk, ProcsApart, LocksOk, EventsOk, ProcOk;
    assert UploadOk(cfg, run[i], id);
    StepKeeps(cfg, run[i], step);
    hide Inv;
    var st, st' := run[i].store, run[i + 1].store;
    assert EvolvesAt(st, st', id);
    if id !in st'.infos && id in st'.files && Complete(info, |st'.files[id]|) {
      if id in st.infos {
        InfoGoesAlone(cfg, run[i], step, id);
        assert CompleteAt(run[i].store, id, st'.files[id]);
      } else {
        assert st'.files[id] == st.files[id];
        var m: nat :| b < m <= i && CompleteAt(run[m].store, id, st.files[id]);
        assert CompleteAt(run[m].store, id, st'.files[id]);
      }
    }
  }

  /** A step of another handler. */
  lemma OtherChecked(cfg: Config, run: seq<State>, b: nat, i: nat, step: Step, pid: Pid, req: Request)
    requires b < i && i + 1 < |run| && Inv(cfg, run[i]) && Enabled(run[i], step) && run[i + 1] == Next(cfg, run[i], step)
    requires pid in run[i].procs && ProcChecked(run, b, i, req, run[i].procs[pid])
    ensures ProcChecked(run, b, i + 1, req, run[i].procs[pid])
  {
    var p := run[i].procs[pid];
    Known(cfg, run[i], pid, p);
    hide Inv, Enabled, Next, PartsComplete, PendingComplete;
    if p.Sizing? {
      PartsLater(run, b, i, p.ids, p.parts);
      if p.pending.Some? {
        assert p.ids[|p.parts|] in Mentions(p);
        PendingLater(cfg, run, b, i, step, p.ids[|p.parts|], p.pending.value);
      }
    } else if p.Joining? {
      PartsLater(run, b, i, p.ids, p.parts);
    } else if p.Replying? && p.reply.JoinOk? {
      PartsLater(run, b, i, p.reply.ids, p.reply.parts);
    }
  }

  lemma StepOfOne(cfg: Config, s: State, step: Step)
    requires Enabled(s, step)
    ensures step.pid in Next(cfg, s, step).procs
    ensures Next(cfg, s, step).procs == s.procs[step.pid := Next(cfg, s, step).procs[step.pid]]
  {
    hide Refusal, Answer, Outcome, Target, Reports, Present, Complete, LocksOf, BeginWrite, FileOf, Admitted, ChunkLimit, Event;
  }

  /** A step of the handler itself. */
  lemma ActorChecked(cfg: Config, run: seq<State>, b: nat, i: nat, step: Step, p: Proc, p': Proc, req: Request)
    requires b < i && i + 1 < |run| && At(cfg, run[i], step.pid, p)
    requires Actor(cfg, run[i], step, p') && !step.Begin? && run[i + 1] == Next(cfg, run[i], step)
    requires ProcChecked(run, b, i, req, p)
    ensures ProcChecked(run, b, i + 1, req, p')
  {
    hide Inv, Next;
    if step.ReadInfo? {
      ReadInfoChecked(cfg, run, b, i, p, p', req, step);
    } else if step.Stat? {
      StatChecked(cfg, run, b, i, step, p, p', req);
    } else if step.MakeFinal? || step.CopyPart? || step.CopyBreaks? || step.FinishJoin? {
      JoinStepsKeepParts(cfg, run[i], step, p');
      hide PartsComplete, PendingComplete;
      PartsLater(run, b, i, p.ids, p.parts);
    } else {
      NothingToCheck(cfg, run[i], step, p');
    }
  }

  /** The step takes its handler to p'. */
  ghost predicate Actor(cfg: Config, s: State, step: Step, p': Proc)
  {
    Enabled(s, step) && step.pid in Next(cfg, s, step).procs && p' == Next(cfg, s, step).procs[step.pid]
  }

  lemma ReadInfoChecked(cfg: Config, run: seq<State>, b: nat, i: nat, p: Proc, p': Proc, req: Request, step: Step)
    requires b < i && i + 1 < |run| && At(cfg, run[i], step.pid, p)
    requires Actor(cfg, run[i], step, p') && step.ReadInfo? && run[i + 1] == Next(cfg, run[i], step)
    requires ProcChecked(run, b, i, req, p)
    ensures ProcChecked(run, b, i + 1, req, p')
  {
    hide Inv, PartsComplete, CompleteSince;
    assert run[i + 1] == NextReadInfo(run[i], step.pid, p);
    PartsLater(run, b, i, p.ids, p.parts);
  }

  lemma StatActor(cfg: Config, s: State, step: Step, p': Proc)
    requires Actor(cfg, s, step, p') && step.Stat?
    ensures step.pid in s.procs
    ensures
      var p := s.procs[step.pid];
      && p.Sizing? && |p.parts| < |p.ids| && p.pending.Some?
      && var id := p.ids[|p.parts|];
      && ((p'.Replying? && p'.reply.Refused?)
          || (id in s.store.files && Complete(p.pending.value, |s.store.files[id]|)
              && p' == Sizing(p.ids, p.size + p.pending.value.size, p.parts + [s.store.files[id]], None)))
  {
    hide Complete, LocksOf, Own;
  }

  lemma JoinStepsKeepParts(cfg: Config, s: State, step: Step, p': Proc)
    requires Actor(cfg, s, step, p')
    requires step.MakeFinal? || step.CopyPart? || step.CopyBreaks? || step.FinishJoin?
    ensures step.pid in s.procs
    ensures
      var p := s.procs[step.pid];
      && (p.Sizing? || p.Joining?)
      && ((p'.Replying? && p'.reply.Refused?)
          || (p'.Joining? && p'.ids == p.ids && p'.parts == p.parts)
          || (p'.Replying? && p'.reply.JoinOk? && p'.reply.ids == p.ids && p'.reply.parts == p.parts))
  {
    hide Event, FileOf, WithNew, WithFile, LocksOf;
  }

  lemma NothingToCheck(cfg: Config, s: State, step: Step, p': Proc)
    requires Actor(cfg, s, step, p') && !step.Begin?
    requires !step.Stat? && !step.ReadInfo? && !step.MakeFinal? && !step.CopyPart? && !step.CopyBreaks? && !step.FinishJoin?
    ensures !p'.Joining? && !p'.Sizing? && (p'.Replying? ==> !p'.reply.JoinOk?)
  {
    hide Target, Present, Complete, LocksOf, FileOf, ChunkLimit, Event, Limited;
  }

  /** The file passes the check of an info read before: then it was complete, now or before its info went. */
  lemma PassedIsComplete(run: seq<State>, b: nat, i: nat, id: Id, info: FileInfo)
    requires b < i < |run| && PendingOk(run[i].store, id, info) && PendingComplete(run, b, i, id, info)
    requires id in run[i].store.files && Complete(info, |run[i].store.files[id]|)
    ensures CompleteSince(run, b, i, id, run[i].store.files[id])
  {
    if id in run[i].store.infos {
      assert CompleteAt(run[i].store, id, run[i].store.files[id]);
    }
  }

  lemma StatChecked(cfg: Config, run: seq<State>, b: nat, i: nat, step: Step, p: Proc, p': Proc, req: Request)
    requires b < i && i + 1 < |run| && At(cfg, run[i], step.pid, p)
    requires Actor(cfg, run[i], step, p') && step.Stat?
    requires ProcChecked(run, b, i, req, p)
    ensures ProcChecked(run, b, i + 1, req, p')
  {
    Known(cfg, run[i], step.pid, p);
    StatActor(cfg, run[i], step, p');
    hide Inv, Actor, Complete, PendingOk, PendingComplete, PartsComplete;
    if p'.Sizing? {
      var st, id := run[i].store, p.ids[|p.parts|];
      PassedIsComplete(run, b, i, id, p.pending.value);
      PartsMore(run, b, i, p.ids, p.parts, st.files[id]);
      PartsLater(run, b, i, p.ids, p'.parts);
    }
  }

  lemma PartsMore(run: seq<State>, b: nat, i: nat, ids: seq<Id>, parts: seq<Bytes>, c: Bytes)
    requires i < |run| && PartsComplete(run, b, i, ids, parts)
    requires |parts| < |ids| && CompleteSince(run, b, i, ids[|parts|], c)
    ensures PartsComplete(run, b, i, ids, parts + [c])
  {
    hide CompleteSince;
  }

  /** Every handler was begun by a step of the run, and knows what it has checked since. */
  lemma {:induction false} RunChecked(cfg: Config, run: seq<State>, steps: seq<Step>, i: nat, pid: Pid) returns (b: nat)
    requires IsRun(cfg, run, steps) && i < |run| && pid in run[i].procs
    ensures b < i && steps[b].Begin? && steps[b].pid == pid
    ensures ProcChecked(run, b, i, steps[b].req, run[i].procs[pid])
    decreases i
  {
    hide Inv, Enabled, Next, ProcChecked;
    if i == 0 {
      assert false;
    } else {
      var s, step := run[i - 1], steps[i - 1];
      assert Enabled(s, step) && run[i - 1 + 1] == Next(cfg, s, step);
      RunInv(cfg, run, steps, i - 1);
      StepOfOne(cfg, s, step);
      if pid !in s.procs {
        b := i - 1;
        BegunChecked(cfg, run, b, step);
      } else {
        b := RunChecked(cfg, run, steps, i - 1, pid);
        if pid != step.pid {
          OtherChecked(cfg, run, b, i - 1, step, pid, steps[b].req);
        } else {
          BeginsOnce(s, step);
          ActorChecked(cfg, run, b, i - 1, step, s.procs[pid], run[i].procs[pid], steps[b].req);
        }
      }
    }
  }

  lemma BegunChecked(cfg: Config, run: seq<State>, b: nat, step: Step)
    requires b + 1 < |run| && Enabled(run[b], step) && run[b + 1] == Next(cfg, run[b], step) && step.pid !in run[b].procs
    ensures step.Begin? && step.pid in run[b + 1].procs && ProcChecked(run, b, b + 1, step.req, run[b + 1].procs[step.pid])
  {}

  lemma BeginsOnce(s: State, step: Step)
    requires Enabled(s, step) && step.pid in s.procs
    ensures !step.Begin?
  {}

  /**
   Concatenation. When a POST of a final upload succeeds, the upload holds the named partial
   uploads one after the other, each with the bytes of a state since the POST began in which that
   upload was there and complete, and its length is the size it was made with, although nothing
   was locked between check and copy.
   */
  lemma Concatenation(cfg: Config, run: seq<State>, steps: seq<Step>, i: nat, pid: Pid, id: Id, ids: seq<Id>, parts: seq<Bytes>)
    requires IsRun(cfg, run, steps) && i < |run|
    requires pid in run[i].procs && run[i].procs[pid].Replying? && run[i].procs[pid].reply == JoinOk(id, ids, parts)
    ensures Present(run[i].store, id) && run[i].store.infos[id].isFinal
    ensures run[i].store.files[id] == Joined(parts) && |Joined(parts)| == run[i].store.infos[id].size
    ensures |parts| == |ids|
    ensures exists b: nat ::
              && b < i && steps[b] == Begin(pid, Concat(ids))
              && forall k :: 0 <= k < |ids| ==> CompleteSince(run, b, i, ids[k], parts[k])
  {
    RunInv(cfg, run, steps, i);
    assert ProcOk(run[i], run[i].procs[pid]);
    hide Inv, Enabled, Next, CompleteSince;
    var b := RunChecked(cfg, run, steps, i, pid);
    assert steps[b] == Begin(pid, Concat(ids));
  }
}
