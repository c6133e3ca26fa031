/** When a complete upload is never reported: exactly when the request that completed it was refused at its end. */
module TusMissed {
  import opened Basics
  import opened TusStore
  import opened TusProtocol
  import opened TusInvariant
  import opened TusSteps
  import opened TusTheorems

  /** The upload is there and complete. */
  predicate Whole(st: Store, id: Id)
  {
    Present(st, id) && Complete(st.infos[id], |st.files[id]|)
  }

  /** The handler is between the start of a write (or the making) of its upload and the end of it. */
  predicate Writes(p: Proc)
  {
    p.Made? || p.Writing? || p.Wrote? || p.Removing? || p.Settled? || p.Unread?
  }

  predicate OwnsIt(p: Proc, id: Id)
  {
    OwnOf(p) == Some(id)
  }

  /** The step refuses a request that leaves upload id complete: the branches by which this can come about. */
  predicate Misses(cfg: Config, s: State, step: Step, id: Id)
  {
    && Enabled(s, step) && !step.Begin? && OwnsIt(s.procs[step.pid], id) && Whole(Next(cfg, s, step).store, id)
    && var p, p' := s.procs[step.pid], AfterStep(cfg, s, step);
    match step
    case FinishEmpty(_, hookOk) => !hookOk                            // no bytes, and the hook refuses
    case OpenFirst(_) => p'.Replying?                                 // no bytes, and its first chunk is locked out or too long
    case GiveUp(_) => p.Made?                                         // no bytes, and the POST fails
    case Check(_) => !Complete(p.info, p.stored) && p'.Replying?      // the declared length is the stored one, the body too long
    case Conclude(_, late, hookOk) => Stopped(p, late) || (p.Settled? && p.broken) || !hookOk
    case _ => false
  }

  /** The handler after its step. */
  function AfterStep(cfg: Config, s: State, step: Step): Proc
    requires Enabled(s, step)
  {
    var s' := Next(cfg, s, step);
    if step.pid in s'.procs then s'.procs[step.pid] else Done(Refused(Failed))
  }

  ghost predicate Missed(cfg: Config, run: seq<State>, steps: seq<Step>, i: nat, id: Id)
    requires i <= |steps| < |run|
  {
    exists j: nat :: j < i && Misses(cfg, run[j], steps[j], id)
  }

  // ----- one handler -----

  /** What holds of upload id, whether it was missed or not, if no handler but p owns it. */
  predicate KeptBy(s: State, missed: bool, id: Id, p: Proc)
  {
    && (missed ==> id in s.used && s.hist.completed[id] == 0 && (id in s.store.infos ==> Whole(s.store, id)))
    && (OwnsIt(p, id) && Writes(p) ==> !missed && s.hist.completed[id] == 0)
    && (Whole(s.store, id) && s.hist.completed[id] == 0 && !missed ==> OwnsIt(p, id) && Writes(p))
  }

  predicate RefusedAtEnd(p: Proc, late: bool, hookOk: bool)
    requires p.Settled? || p.Unread?
  {
    Stopped(p, late) || (p.Settled? && p.broken) || !hookOk
  }

  lemma ConcludeMisses(cfg: Config, s: State, pid: Pid, p: Proc, late: bool, hookOk: bool, id: Id)
    requires pid in s.procs && p == s.procs[pid] && (p.Settled? || (p.Unread? && !late)) && OwnsIt(p, id)
    ensures Misses(cfg, s, Conclude(pid, late, hookOk), id) <==> Whole(s.store, id) && RefusedAtEnd(p, late, hookOk)
  {
    hide Whole, Outcome, Reports, Stopped, Event;
  }

  /** A writer that was not stopped knows whether its upload is complete. */
  lemma WholeIsFinished(s: State, w: Writer)
    requires WriterOk(s, w)
    ensures Whole(s.store, w.id) <==> Finished(w)
  {}

  lemma ConcludeDoes(cfg: Config, s: State, pid: Pid, p: Proc, late: bool, hookOk: bool, id: Id)
    requires cfg.notify && pid in s.procs && p == s.procs[pid] && (p.Settled? || (p.Unread? && !late)) && OwnsIt(p, id)
    ensures
      var s' := NextConclude(cfg, s, pid, p, late, hookOk);
      && s'.store == s.store && s'.used == s.used && pid in s'.procs && s'.procs[pid].Replying?
      && s'.hist.completed[id] == s.hist.completed[id] + if Finished(p.w) && !RefusedAtEnd(p, late, hookOk) then 1 else 0
  {}

  lemma ConcludeKeeps(cfg: Config, s: State, pid: Pid, p: Proc, late: bool, hookOk: bool, missed: bool, id: Id)
    requires cfg.notify && At(cfg, s, pid, p) && (p.Settled? || (p.Unread? && !late)) && OwnsIt(p, id)
    requires KeptBy(s, missed, id, p)
    ensures
      var s' := NextConclude(cfg, s, pid, p, late, hookOk);
      KeptBy(s', missed || Misses(cfg, s, Conclude(pid, late, hookOk), id), id, s'.procs[pid])
  {
    Known(cfg, s, pid, p);
    ConcludeMisses(cfg, s, pid, p, late, hookOk, id);
    ConcludeDoes(cfg, s, pid, p, late, hookOk, id);
    if !Stopped(p, late) {
      WholeIsFinished(s, p.w);
    }
    hide Inv, NextConclude, Misses, Whole, Finished, WriterOk;
  }

  lemma CheckMisses(cfg: Config, s: State, pid: Pid, p: Proc, id: Id)
    requires pid in s.procs && p == s.procs[pid] && p.Looked? && p.req.Patch? && OwnsIt(p, id)
    ensures
      var s' := NextCheck(cfg, s, pid, p);
      Misses(cfg, s, Check(pid), id) <==> Whole(s'.store, id) && !Complete(p.info, p.stored) && s'.procs[pid].Replying?
  {
    hide Whole, Complete, Admitted, BeginWrite, Refusal, Answer;
  }

  /** A check writes nothing but a declared length, and lets an upload be written only if it is not complete. */
  lemma CheckDoes(cfg: Config, s: State, pid: Pid, p: Proc, id: Id)
    requires pid in s.procs && p == s.procs[pid] && p.Looked? && p.req.Patch? && OwnsIt(p, id)
    ensures
      var s' := NextCheck(cfg, s, pid, p);
      && pid in s'.procs && s'.hist == s.hist && s'.used == s.used && s'.store.files == s.store.files
      && (id in s.store.infos ==> id in s'.store.infos)
      && OwnsIt(s'.procs[pid], id) && (s'.procs[pid].Replying? || Writes(s'.procs[pid]))
      && (Complete(p.info, p.stored) ==> s'.store == s.store && s'.procs[pid].Replying?)
  {
    hide ChunkLimit, Limited, LocksOf, FromPost;
  }

  lemma CheckKeeps(cfg: Config, s: State, pid: Pid, p: Proc, missed: bool, id: Id)
    requires At(cfg, s, pid, p) && p.Looked? && p.req.Patch? && OwnsIt(p, id)
    requires KeptBy(s, missed, id, p)
    ensures
      var s' := NextCheck(cfg, s, pid, p);
      KeptBy(s', missed || Misses(cfg, s, Check(pid), id), id, s'.procs[pid])
  {
    Known(cfg, s, pid, p);
    CheckMisses(cfg, s, pid, p, id);
    CheckDoes(cfg, s, pid, p, id);
    hide Inv, Misses, NextCheck, InfoOk, Complete;
  }

  lemma MadeMisses(cfg: Config, s: State, step: Step, p: Proc, id: Id)
    requires step.pid in s.procs && p == s.procs[step.pid] && p.Made? && OwnsIt(p, id) && EnabledAt(s, step, p)
    requires step.FinishEmpty? || step.OpenFirst? || step.GiveUp?
    ensures
      var s' := Next(cfg, s, step);
      && s'.store == s.store && s'.used == s.used && step.pid in s'.procs && AfterStep(cfg, s, step) == s'.procs[step.pid]
      && (step.FinishEmpty? ==> s'.procs[step.pid].Replying?)
      && (s'.procs[step.pid].Replying? || (OwnsIt(s'.procs[step.pid], id) && Writes(s'.procs[step.pid])))
      && (Misses(cfg, s, step, id) <==> Whole(s.store, id) && s'.procs[step.pid].Replying? && (step.FinishEmpty? ==> !step.hookOk))
      && s'.hist.completed == s.hist.completed + if cfg.notify && step.FinishEmpty? && Finishes(p) && step.hookOk then multiset{id} else multiset{}
  {
    hide ChunkLimit, Limited, Whole, LocksOf, FromPost;
  }

  /** An upload without a chunk is complete at once. */
  predicate Finishes(p: Proc)
    requires p.Made?
  {
    !p.info.deferred && p.info.size == 0
  }

  lemma MadeKeeps(cfg: Config, s: State, step: Step, p: Proc, missed: bool, id: Id)
    requires cfg.notify && At(cfg, s, step.pid, p) && p.Made? && OwnsIt(p, id) && EnabledAt(s, step, p)
    requires step.FinishEmpty? || step.OpenFirst? || step.GiveUp?
    requires KeptBy(s, missed, id, p)
    ensures KeptBy(Next(cfg, s, step), missed || Misses(cfg, s, step, id), id, AfterStep(cfg, s, step))
  {
    Known(cfg, s, step.pid, p);
    MadeMisses(cfg, s, step, p, id);
    assert Whole(s.store, id) <==> Finishes(p);
    hide Inv, Misses, Next, AfterStep, Whole, Finishes;
  }

  /** The steps that neither end a write nor begin one at an upload that is there. */
  predicate Plain(step: Step)
  {
    !step.Begin? && !step.Check? && !step.Conclude? && !step.FinishEmpty? && !step.OpenFirst?
  }

  lemma PlainIsNoMiss(cfg: Config, s: State, step: Step, id: Id)
    requires Enabled(s, step) && Plain(step) && (step.GiveUp? ==> !s.procs[step.pid].Made?)
    ensures !Misses(cfg, s, step, id)
  {}

  predicate AtUpload(step: Step)
  {
    step.Append? || step.EndCopy? || step.NotStopped? || step.RemoveInfo? || step.RemoveBin? || step.RemoveFails?
  }

  /** They change an upload that is written within the write, and others only by removing or making them. */
  predicate Plainly(s: State, s': State, p: Proc, p': Proc, id: Id, made: bool)
  {
    && s.used <= s'.used && s'.hist.completed == s.hist.completed
    && (made || OwnsIt(p, id) || (s'.store == s.store && !Writes(p')))
    && (made ==> id !in s.used && id in s'.used && !OwnsIt(p, id) && OwnsIt(p', id) && Writes(p'))
    && (OwnsIt(p, id) && Writes(p) ==> OwnsIt(p', id) && Writes(p'))
    && (OwnsIt(p, id) && !Writes(p) ==> !Writes(p') && (s'.store == s.store || id !in s'.store.infos))
  }

  lemma PlainDoes(cfg: Config, s: State, step: Step, id: Id)
    requires Enabled(s, step) && Plain(step) && (step.GiveUp? ==> !s.procs[step.pid].Made?)
    requires OwnsIt(s.procs[step.pid], id) || OwnsIt(AfterStep(cfg, s, step), id)
    requires !step.MakeFinal? && !s.procs[step.pid].Joining?
    requires s.procs[step.pid].Deleting? && OwnsIt(s.procs[step.pid], id) ==> id !in s.store.infos
    ensures step.pid in Next(cfg, s, step).procs
    ensures Plainly(s, Next(cfg, s, step), s.procs[step.pid], AfterStep(cfg, s, step), id, step.Make?)
  {
    if AtUpload(step) {
      UploadDoes(cfg, s, step, id);
    } else {
      OtherDoes(cfg, s, step, id);
    }
  }

  lemma UploadDoes(cfg: Config, s: State, step: Step, id: Id)
    requires Enabled(s, step) && AtUpload(step) && OwnsIt(s.procs[step.pid], id)
    requires s.procs[step.pid].Deleting? ==> id !in s.store.infos
    ensures step.pid in Next(cfg, s, step).procs
    ensures Plainly(s, Next(cfg, s, step), s.procs[step.pid], AfterStep(cfg, s, step), id, false)
  {
    hide Limited, LocksOf, FromPost, FileOf;
  }

  lemma OtherDoes(cfg: Config, s: State, step: Step, id: Id)
    requires Enabled(s, step) && Plain(step) && !AtUpload(step) && (step.GiveUp? ==> !s.procs[step.pid].Made?)
    requires OwnsIt(s.procs[step.pid], id) || OwnsIt(AfterStep(cfg, s, step), id)
    requires !step.MakeFinal? && !s.procs[step.pid].Joining?
    ensures step.pid in Next(cfg, s, step).procs
    ensures Plainly(s, Next(cfg, s, step), s.procs[step.pid], AfterStep(cfg, s, step), id, step.Make?)
  {
    hide Limited, LocksOf, FromPost, FileOf, Complete, ChunkLimit;
  }

  lemma InvSays(cfg: Config, s: State, pid: Pid, id: Id)
    requires Inv(cfg, s) && pid in s.procs
    ensures id !in s.used ==> s.hist.completed[id] == 0
    ensures s.procs[pid].Deleting? && OwnsIt(s.procs[pid], id) ==> id !in s.store.infos
  {
    Known(cfg, s, pid, s.procs[pid]);
  }

  lemma PlainKeeps(cfg: Config, s: State, step: Step, missed: bool, id: Id)
    requires Inv(cfg, s) && Enabled(s, step) && Plain(step) && (step.GiveUp? ==> !s.procs[step.pid].Made?)
    requires OwnsIt(s.procs[step.pid], id) || OwnsIt(AfterStep(cfg, s, step), id)
    requires !step.MakeFinal? && !s.procs[step.pid].Joining?
    requires KeptBy(s, missed, id, s.procs[step.pid])
    ensures KeptBy(Next(cfg, s, step), missed, id, AfterStep(cfg, s, step))
  {
    hide Inv, Next, AfterStep;
    InvSays(cfg, s, step.pid, id);
    PlainDoes(cfg, s, step, id);
    hide Enabled;
  }

  // ----- all handlers -----

  ghost predicate Kept(s: State, missed: bool, id: Id)
  {
    && (missed ==> id in s.used && s.hist.completed[id] == 0 && (id in s.store.infos ==> Whole(s.store, id)))
    && (forall q :: q in s.procs && OwnsIt(s.procs[q], id) && Writes(s.procs[q]) ==> !missed && s.hist.completed[id] == 0)
    && (Whole(s.store, id) && s.hist.completed[id] == 0 && !missed ==>
          exists q :: q in s.procs && OwnsIt(s.procs[q], id) && Writes(s.procs[q]))
  }

  /** No handler but pid owns the upload. */
  ghost predicate NoOther(s: State, pid: Pid, id: Id)
  {
    forall q :: q in s.procs && q != pid ==> !OwnsIt(s.procs[q], id)
  }

  lemma OnlyOne(s: State, pid: Pid, missed: bool, id: Id)
    requires pid in s.procs && NoOther(s, pid, id)
    ensures Kept(s, missed, id) <==> KeptBy(s, missed, id, s.procs[pid])
  {
    hide Whole, Writes, OwnsIt;
  }

  /** A step of a handler that does not own the upload, before or after, leaves it as it was. */
  lemma Untouched(cfg: Config, s: State, step: Step, id: Id)
    requires Enabled(s, step)
    requires step.pid in s.procs ==> !OwnsIt(s.procs[step.pid], id)
    requires !OwnsIt(AfterStep(cfg, s, step), id)
    ensures SameAt(s, Next(cfg, s, step), id) && s.used <= Next(cfg, s, step).used && !Misses(cfg, s, step, id)
  {
    NotMissed(cfg, s, step, id);
    hide Misses;
    if AtUpload(step) {
      UploadUntouched(cfg, s, step, id);
    } else if step.Conclude? || step.FinishEmpty? || step.FinishJoin? {
      EventUntouched(cfg, s, step, id);
    } else if step.CopyPart? || step.CopyBreaks? || step.MakeFinal? {
      JoinUntouched(cfg, s, step, id);
    } else {
      OtherUntouched(cfg, s, step, id);
    }
  }

  lemma NotMissed(cfg: Config, s: State, step: Step, id: Id)
    requires Enabled(s, step) && (step.pid in s.procs ==> !OwnsIt(s.procs[step.pid], id))
    ensures !Misses(cfg, s, step, id)
  {
    hide OwnsIt, Whole, Next;
  }

  lemma UploadUntouched(cfg: Config, s: State, step: Step, id: Id)
    requires Enabled(s, step) && AtUpload(step) && !OwnsIt(s.procs[step.pid], id)
    ensures SameAt(s, Next(cfg, s, step), id) && s.used <= Next(cfg, s, step).used
  {
    hide Limited, LocksOf, FromPost, FileOf;
  }

  lemma EventUntouched(cfg: Config, s: State, step: Step, id: Id)
    requires Enabled(s, step) && (step.Conclude? || step.FinishEmpty? || step.FinishJoin?) && !OwnsIt(s.procs[step.pid], id)
    ensures SameAt(s, Next(cfg, s, step), id) && s.used <= Next(cfg, s, step).used
  {
    EventElsewhere(cfg, s, step, id);
    hide Next, Enabled;
  }

  lemma EventElsewhere(cfg: Config, s: State, step: Step, id: Id)
    requires Enabled(s, step) && (step.Conclude? || step.FinishEmpty? || step.FinishJoin?) && !OwnsIt(s.procs[step.pid], id)
    ensures
      var s' := Next(cfg, s, step);
      s'.store == s.store && s'.used == s.used && s'.hist.finals == s.hist.finals && s'.hist.completed[id] == s.hist.completed[id]
  {
    hide LocksOf, FromPost, Reports, Outcome, Refusal, Answer;
  }

  lemma JoinUntouched(cfg: Config, s: State, step: Step, id: Id)
    requires Enabled(s, step) && (step.CopyPart? || step.CopyBreaks? || step.MakeFinal?)
    requires !OwnsIt(s.procs[step.pid], id) && !OwnsIt(AfterStep(cfg, s, step), id)
    ensures SameAt(s, Next(cfg, s, step), id) && s.used <= Next(cfg, s, step).used
  {
    hide LocksOf, FromPost, FileOf;
  }

  lemma OtherUntouched(cfg: Config, s: State, step: Step, id: Id)
    requires Enabled(s, step) && (step.pid in s.procs ==> !OwnsIt(s.procs[step.pid], id)) && !OwnsIt(AfterStep(cfg, s, step), id)
    requires !AtUpload(step) && !step.Conclude? && !step.FinishEmpty? && !step.FinishJoin?
    requires !step.CopyPart? && !step.CopyBreaks? && !step.MakeFinal?
    ensures SameAt(s, Next(cfg, s, step), id) && s.used <= Next(cfg, s, step).used
  {
    hide Limited, LocksOf, FromPost, FileOf, ChunkLimit, Complete, Present, BeginWrite, Hidden;
  }

  /** The steps of the owner, or of who makes the upload. */
  lemma OwnerKeeps(cfg: Config, s: State, step: Step, missed: bool, id: Id)
    requires cfg.notify && Inv(cfg, s) && Enabled(s, step) && !step.Begin?
    requires OwnsIt(s.procs[step.pid], id) || OwnsIt(AfterStep(cfg, s, step), id)
    requires !step.MakeFinal? && !s.procs[step.pid].Joining?
    requires KeptBy(s, missed, id, s.procs[step.pid])
    ensures step.pid in Next(cfg, s, step).procs
    ensures KeptBy(Next(cfg, s, step), missed || Misses(cfg, s, step, id), id, Next(cfg, s, step).procs[step.pid])
  {
    var p := s.procs[step.pid];
    StepOfOne(cfg, s, step);
    if Plain(step) && (step.GiveUp? ==> !p.Made?) {
      PlainKeeps(cfg, s, step, missed, id);
      PlainIsNoMiss(cfg, s, step, id);
      hide Next, Enabled, Misses;
    } else {
      EnderOwns(cfg, s, step, id);
      hide Inv, Misses, KeptBy;
      match step
      case Conclude(pid, late, hookOk) => ConcludeKeeps(cfg, s, pid, p, late, hookOk, missed, id);
      case Check(pid) => CheckKeeps(cfg, s, pid, p, missed, id);
      case _ => MadeKeeps(cfg, s, step, p, missed, id);
    }
  }

  lemma EnderOwns(cfg: Config, s: State, step: Step, id: Id)
    requires Enabled(s, step) && !step.Begin? && !(Plain(step) && (step.GiveUp? ==> !s.procs[step.pid].Made?))
    requires OwnsIt(s.procs[step.pid], id) || OwnsIt(AfterStep(cfg, s, step), id)
    ensures OwnsIt(s.procs[step.pid], id)
  {
    hide ChunkLimit, Complete, LocksOf, FromPost, Limited;
  }

  /** In a reachable state at most one handler owns the upload. */
  lemma Alone(cfg: Config, s: State, pid: Pid, id: Id)
    requires Inv(cfg, s) && pid in s.procs && OwnsIt(s.procs[pid], id)
    ensures NoOther(s, pid, id)
  {
    forall q | q in s.procs && q != pid
      ensures !OwnsIt(s.procs[q], id)
    {
      assert Apart(s.procs[pid], s.procs[q]);
      assert id in Own(s.procs[pid]);
    }
  }

  lemma KeptUntouched(s: State, s': State, pid: Pid, missed: bool, id: Id)
    requires Kept(s, missed, id) && SameAt(s, s', id) && s.used <= s'.used
    requires pid in s'.procs && s'.procs == s.procs[pid := s'.procs[pid]] && !OwnsIt(s'.procs[pid], id)
    requires pid in s.procs ==> !OwnsIt(s.procs[pid], id)
    ensures Kept(s', missed, id)
  {
    hide OwnsIt, Writes, Complete;
    if q :| q in s.procs && OwnsIt(s.procs[q], id) && Writes(s.procs[q]) {
      assert s'.procs[q] == s.procs[q];
    }
  }

  lemma StepKept(cfg: Config, s: State, step: Step, missed: bool, id: Id)
    requires cfg.notify && Inv(cfg, s) && Enabled(s, step) && Kept(s, missed, id)
    requires id !in Next(cfg, s, step).hist.finals
    ensures Kept(Next(cfg, s, step), missed || Misses(cfg, s, step, id), id)
  {
    var s', pid := Next(cfg, s, step), step.pid;
    hide Next, Enabled, Misses, KeptBy, Kept, OwnsIt;
    StepOfOne(cfg, s, step);
    StepKeeps(cfg, s, step);
    if (pid in s.procs && OwnsIt(s.procs[pid], id)) || OwnsIt(s'.procs[pid], id) {
      NotFinal(cfg, s, step, id);
      OthersAlone(cfg, s, s', pid, id);
      hide Inv;
      OnlyOne(s, pid, missed, id);
      OwnerKeeps(cfg, s, step, missed, id);
      OnlyOne(s', pid, missed || Misses(cfg, s, step, id), id);
    } else {
      Untouched(cfg, s, step, id);
      KeptUntouched(s, s', pid, missed, id);
    }
  }

  lemma OthersAlone(cfg: Config, s: State, s': State, pid: Pid, id: Id)
    requires Inv(cfg, s) && Inv(cfg, s') && pid in s.procs && pid in s'.procs && s'.procs == s.procs[pid := s'.procs[pid]]
    requires OwnsIt(s.procs[pid], id) || OwnsIt(s'.procs[pid], id)
    ensures NoOther(s, pid, id) && NoOther(s', pid, id)
  {
    hide Inv, OwnsIt;
    if OwnsIt(s.procs[pid], id) {
      Alone(cfg, s, pid, id);
      assert forall q :: q in s'.procs && q != pid ==> q in s.procs && s'.procs[q] == s.procs[q];
    } else {
      Alone(cfg, s', pid, id);
      assert forall q :: q in s.procs && q != pid ==> q in s'.procs && s'.procs[q] == s.procs[q];
    }
  }

  /** A handler that joins or begins to join works on a final upload; one that has just begun owns nothing. */
  lemma NotFinal(cfg: Config, s: State, step: Step, id: Id)
    requires Inv(cfg, s) && Enabled(s, step) && id !in Next(cfg, s, step).hist.finals
    requires (step.pid in s.procs && OwnsIt(s.procs[step.pid], id)) || OwnsIt(AfterStep(cfg, s, step), id)
    ensures !step.Begin? && step.pid in s.procs && !step.MakeFinal? && !s.procs[step.pid].Joining?
  {
    hide Inv, Next, AfterStep, OwnsIt;
    FinalsGrow(cfg, s, step);
    if step.Begin? || step.MakeFinal? {
      NotYet(s, step, id);
      BeginnerOwns(cfg, s, step, id);
    } else {
      hide EnabledAt;
      if s.procs[step.pid].Joining? {
        if !OwnsIt(s.procs[step.pid], id) {
          JoinerOwns(cfg, s, step, id);
        }
        JoinerIsFinal(cfg, s, step.pid, id);
      }
    }
  }

  lemma NotYet(s: State, step: Step, id: Id)
    requires Enabled(s, step) && (step.Begin? || step.MakeFinal?)
    ensures step.pid in s.procs ==> !OwnsIt(s.procs[step.pid], id)
  {
    hide Hidden;
  }

  lemma JoinerIsFinal(cfg: Config, s: State, pid: Pid, id: Id)
    requires Inv(cfg, s) && pid in s.procs && s.procs[pid].Joining? && OwnsIt(s.procs[pid], id)
    ensures id in s.hist.finals
  {
    Known(cfg, s, pid, s.procs[pid]);
  }

  lemma FinalsGrow(cfg: Config, s: State, step: Step)
    requires Enabled(s, step)
    ensures s.hist.finals.Keys <= Next(cfg, s, step).hist.finals.Keys
  {
    hide ChunkLimit, Complete, LocksOf, FromPost, Limited, Reports, FileOf, Present, BeginWrite, Refusal, Answer, Outcome;
  }

  lemma BeginnerOwns(cfg: Config, s: State, step: Step, id: Id)
    requires Enabled(s, step) && (step.Begin? || step.MakeFinal?) && OwnsIt(AfterStep(cfg, s, step), id)
    ensures id in Next(cfg, s, step).hist.finals
  {
    hide Hidden;
  }

  lemma JoinerOwns(cfg: Config, s: State, step: Step, id: Id)
    requires Enabled(s, step) && !step.Begin? && s.procs[step.pid].Joining? && OwnsIt(AfterStep(cfg, s, step), id)
    ensures OwnsIt(s.procs[step.pid], id)
  {
    hide LocksOf, FromPost, FileOf;
  }

  // ----- over runs -----

  lemma {:induction false} RunKept(cfg: Config, run: seq<State>, steps: seq<Step>, i: nat, id: Id)
    requires IsRun(cfg, run, steps) && cfg.notify && i < |run| && id !in run[i].hist.finals
    ensures Kept(run[i], Missed(cfg, run, steps, i, id), id)
  {
    hide Inv, Enabled, Next, Misses, Kept;
    if i == 0 {
      KeptAtStart(id);
    } else {
      var s, step := run[i - 1], steps[i - 1];
      assert Enabled(s, step) && run[i - 1 + 1] == Next(cfg, s, step);
      FinalsGrow(cfg, s, step);
      RunKept(cfg, run, steps, i - 1, id);
      RunInv(cfg, run, steps, i - 1);
      StepKept(cfg, s, step, Missed(cfg, run, steps, i - 1, id), id);
      MissedMore(cfg, run, steps, i - 1, id);
    }
  }

  lemma KeptAtStart(id: Id)
    ensures Kept(EMPTY, false, id)
  {}

  lemma MissedMore(cfg: Config, run: seq<State>, steps: seq<Step>, i: nat, id: Id)
    requires i < |steps| < |run|
    ensures Missed(cfg, run, steps, i + 1, id) <==> Missed(cfg, run, steps, i, id) || Misses(cfg, run[i], steps[i], id)
  {
    hide Misses;
    if Misses(cfg, run[i], steps[i], id) {
      assert i < i + 1;
    }
    if Missed(cfg, run, steps, i, id) {
      var j: nat :| j < i && Misses(cfg, run[j], steps[j], id);
      assert j < i + 1;
    }
  }

  /**
   With notifications on, an upload that is complete, is not final and is not being written has been
   reported exactly once, or not at all; not at all exactly when the request that completed it was
   refused at its end: by the hook, by a broken copy, by a stop, or for a body too long.
   */
  lemma UnreportedExactlyWhenMissed(cfg: Config, run: seq<State>, steps: seq<Step>, i: nat, id: Id)
    requires IsRun(cfg, run, steps) && cfg.notify && i < |run| && id !in run[i].hist.finals
    requires Whole(run[i].store, id) && forall q :: q in run[i].procs && OwnsIt(run[i].procs[q], id) ==> !Writes(run[i].procs[q])
    ensures run[i].hist.completed[id] <= 1
    ensures run[i].hist.completed[id] == 0 <==> Missed(cfg, run, steps, i, id)
  {
    RunKept(cfg, run, steps, i, id);
    RunInv(cfg, run, steps, i);
    assert UploadOk(cfg, run[i], id);
    hide Inv, Enabled, Next, Misses, Whole;
  }
}
