/** Which steps send CompleteUploads events, which handlers hold locks, and what a deletion leaves. */
module TusEvents {
  import opened TusStore
  import opened TusProtocol
  import opened TusInvariant
  import opened TusSteps
  import opened TusTheorems

  // ----- events, step by step -----

  /** The step is the end of a concatenation that makes upload id. */
  predicate EndsJoin(s: State, step: Step, id: Id)
  {
    step.FinishJoin? && step.pid in s.procs && s.procs[step.pid].Joining? && s.procs[step.pid].id == id
  }

  /** It is one of no bytes, and the hook agrees. */
  predicate EndsEmptyJoin(s: State, step: Step, id: Id)
  {
    EndsJoin(s, step, id) && s.procs[step.pid].size == 0 && step.hookOk
  }

  /** The step sends no event for id, or the first one, or the first two at once; id is complete then. */
  ghost predicate EventsIn(cfg: Config, s: State, step: Step, s': State, id: Id)
  {
    var before, after := s.hist.completed[id], s'.hist.completed[id];
    && (after != before ==>
          && before == 0 && after == (if EndsEmptyJoin(s, step, id) then 2 else 1)
          && Present(s'.store, id) && Complete(s'.store.infos[id], |s'.store.files[id]|))
    && (cfg.notify && EndsJoin(s, step, id) ==> after != before)
  }

  lemma ConcludeEvents(cfg: Config, s: State, pid: Pid, p: Proc, late: bool, hookOk: bool, id: Id)
    requires At(cfg, s, pid, p) && (p.Settled? || (p.Unread? && !late))
    ensures EventsIn(cfg, s, Conclude(pid, late, hookOk), NextConclude(cfg, s, pid, p, late, hookOk), id)
  {
    Known(cfg, s, pid, p);
    hide Inv;
  }

  lemma EmptyEvents(cfg: Config, s: State, pid: Pid, p: Proc, hookOk: bool, id: Id)
    requires At(cfg, s, pid, p) && p.Made?
    ensures EventsIn(cfg, s, FinishEmpty(pid, hookOk), NextFinishEmpty(cfg, s, pid, p, hookOk), id)
  {
    Known(cfg, s, pid, p);
    hide Inv;
  }

  lemma JoinEvents(cfg: Config, s: State, pid: Pid, p: Proc, hookOk: bool, id: Id)
    requires At(cfg, s, pid, p) && p.Joining? && p.done == |p.ids|
    ensures EventsIn(cfg, s, FinishJoin(pid, hookOk), NextFinishJoin(cfg, s, pid, p, hookOk), id)
  {
    Known(cfg, s, pid, p);
    assert p.parts[..|p.ids|] == p.parts;
    hide Inv;
  }

  lemma NoEvents(cfg: Config, s: State, step: Step)
    requires Enabled(s, step) && !step.Conclude? && !step.FinishEmpty? && !step.FinishJoin?
    ensures Next(cfg, s, step).hist.completed == s.hist.completed
  {
    hide Refusal, Answer, Target, Present, Complete, LocksOf, BeginWrite, FileOf, Admitted, ChunkLimit, WithFile, WithInfo, WithNew, WithoutInfo, WithoutFile;
  }

  lemma StepEvents(cfg: Config, s: State, step: Step, id: Id)
    requires Inv(cfg, s) && Enabled(s, step)
    ensures EventsIn(cfg, s, step, Next(cfg, s, step), id)
  {
    hide Inv, NextConclude, NextFinishEmpty, NextFinishJoin;
    match step
    case Conclude(pid, late, hookOk) =>
      ConcludeEvents(cfg, s, pid, s.procs[pid], late, hookOk, id);
    case FinishEmpty(pid, hookOk) => EmptyEvents(cfg, s, pid, s.procs[pid], hookOk, id);
    case FinishJoin(pid, hookOk) => JoinEvents(cfg, s, pid, s.procs[pid], hookOk, id);
    case _ =>
      NoEvents(cfg, s, step);
      hide Next, Enabled;
  }

  lemma RunStep(cfg: Config, run: seq<State>, steps: seq<Step>, i: nat, id: Id)
    requires IsRun(cfg, run, steps) && i < |steps|
    ensures Inv(cfg, run[i]) && Enabled(run[i], steps[i]) && run[i + 1] == Next(cfg, run[i], steps[i])
    ensures EventsIn(cfg, run[i], steps[i], run[i + 1], id)
  {
    hide Inv, Enabled, Next, EventsIn;
    RunInv(cfg, run, steps, i);
    assert Enabled(run[i], steps[i]) && run[i + 1] == Next(cfg, run[i], steps[i]);
    StepEvents(cfg, run[i], steps[i], id);
  }

  // ----- events over runs -----

  /** An event is sent only for an upload that is there, and whose stored length is its declared size. */
  lemma CompletionIsSound(cfg: Config, run: seq<State>, steps: seq<Step>, i: nat, id: Id)
    requires IsRun(cfg, run, steps) && i < |steps|
    requires run[i + 1].hist.completed[id] > run[i].hist.completed[id]
    ensures Present(run[i + 1].store, id)
    ensures Complete(run[i + 1].store.infos[id], |run[i + 1].store.files[id]|)
    ensures run[i].hist.completed[id] == 0
  {
    hide Inv, Enabled, Next;
    RunStep(cfg, run, steps, i, id);
  }

  /** A concatenation is reported once, and twice exactly for no bytes and a hook that agrees. */
  lemma FinalEventsSent(cfg: Config, run: seq<State>, steps: seq<Step>, i: nat, id: Id)
    requires IsRun(cfg, run, steps) && i < |steps| && cfg.notify && EndsJoin(run[i], steps[i], id)
    ensures run[i].hist.completed[id] == 0
    ensures run[i + 1].hist.completed[id] == if EndsEmptyJoin(run[i], steps[i], id) then 2 else 1
  {
    hide Inv, Enabled, Next;
    RunStep(cfg, run, steps, i, id);
  }

  /** Some step before state n ended a concatenation of no bytes for id, with events switched on. */
  ghost predicate ReportedTwice(cfg: Config, run: seq<State>, steps: seq<Step>, n: nat, id: Id)
    requires n <= |steps| < |run|
  {
    cfg.notify && exists k: nat :: k < n && EndsEmptyJoin(run[k], steps[k], id)
  }

  /** At most one event for every upload, in every state, except two exactly for such a concatenation. */
  lemma CompletionAtMostOnce(cfg: Config, run: seq<State>, steps: seq<Step>, n: nat, id: Id)
    requires IsRun(cfg, run, steps) && n < |run|
    ensures run[n].hist.completed[id] <= 2
    ensures run[n].hist.completed[id] == 2 <==> ReportedTwice(cfg, run, steps, n, id)
    ensures id !in run[n].hist.finals || run[n].hist.finals[id] != 0 ==> run[n].hist.completed[id] <= 1
  {
    TwiceExactlyWhen(cfg, run, steps, n, id);
    RunInv(cfg, run, steps, n);
    hide Enabled, Next;
    assert UploadOk(cfg, run[n], id);
  }

  /** Whatever was reported complete is so as long as its info is there. */
  lemma ReportedIsComplete(cfg: Config, run: seq<State>, steps: seq<Step>, i: nat, id: Id)
    requires IsRun(cfg, run, steps) && i < |run|
    requires id in run[i].hist.completed && id in run[i].store.infos
    ensures id in run[i].store.files && Complete(run[i].store.infos[id], |run[i].store.files[id]|)
  {
    RunInv(cfg, run, steps, i);
    hide Enabled, Next;
    assert UploadOk(cfg, run[i], id);
  }

  lemma {:induction false} TwiceExactlyWhen(cfg: Config, run: seq<State>, steps: seq<Step>, n: nat, id: Id)
    requires IsRun(cfg, run, steps) && n < |run|
    ensures run[n].hist.completed[id] <= 2
    ensures run[n].hist.completed[id] == 2 <==> ReportedTwice(cfg, run, steps, n, id)
  {
    hide Inv, Enabled, Next, EndsEmptyJoin, EndsJoin;
    if n == 0 {
      assert run[0].hist.completed[id] == 0;
    } else {
      TwiceExactlyWhen(cfg, run, steps, n - 1, id);
      RunStep(cfg, run, steps, n - 1, id);
      Unnotified(cfg, run, steps, n - 1, id);
      EmptyJoinEnds(run[n - 1], steps[n - 1], id);
      if ReportedTwice(cfg, run, steps, n - 1, id) {
        var k: nat :| k < n - 1 && EndsEmptyJoin(run[k], steps[k], id);
        assert k < n;
      }
      if cfg.notify && EndsEmptyJoin(run[n - 1], steps[n - 1], id) {
        assert ReportedTwice(cfg, run, steps, n, id);
      }
      if ReportedTwice(cfg, run, steps, n, id) {
        var k: nat :| k < n && EndsEmptyJoin(run[k], steps[k], id);
        assert k < n - 1 ==> ReportedTwice(cfg, run, steps, n - 1, id);
      }
    }
  }

  lemma EmptyJoinEnds(s: State, step: Step, id: Id)
    ensures EndsEmptyJoin(s, step, id) ==> EndsJoin(s, step, id)
  {}

  /** Without NotifyCompleteUploads there are no events at all. */
  lemma Unnotified(cfg: Config, run: seq<State>, steps: seq<Step>, i: nat, id: Id)
    requires IsRun(cfg, run, steps) && i < |steps|
    ensures !cfg.notify ==> run[i + 1].hist.completed == run[i].hist.completed
  {
    hide Refusal, Answer, Target, Present, Complete, LocksOf, BeginWrite, FileOf, Admitted, ChunkLimit, WithFile, WithInfo, WithNew, WithoutInfo, WithoutFile, Outcome;
    assert Enabled(run[i], steps[i]) && run[i + 1] == Next(cfg, run[i], steps[i]);
  }

  // ----- locks -----

  /** Every lock that is held belongs to a handler under way. */
  ghost predicate LocksOwned(s: State)
  {
    forall id :: id in s.locks ==> exists pid :: pid in s.procs && id in LocksOf(s.procs[pid])
  }

  /** A step of one handler leaves locks only with their holders: with the others, or with itself. */
  lemma StepLocks(cfg: Config, s: State, step: Step)
    requires Enabled(s, step)
    ensures
      var s' := Next(cfg, s, step);
      && step.pid in s'.procs
      && forall id :: id in s'.locks ==>
                        id in LocksOf(s'.procs[step.pid]) || (id in s.locks && (step.pid in s.procs ==> id !in LocksOf(s.procs[step.pid])))
  {
    hide Event, Complete, Present, Admitted, ChunkLimit, FileOf, WithFile, WithInfo, WithNew, WithoutInfo, WithoutFile, Limited, Hidden, Mentions;
    if !step.Begin? && !step.Lock? && !step.Release? && !step.OpenFirst? {
      OtherLocks(cfg, s, step);
      hide Next, Enabled, LocksOf;
    }
  }

  lemma OtherLocks(cfg: Config, s: State, step: Step)
    requires Enabled(s, step) && !step.Begin? && !step.Lock? && !step.Release? && !step.OpenFirst?
    ensures
      var s' := Next(cfg, s, step);
      && s'.locks == s.locks && step.pid in s.procs && step.pid in s'.procs
      && LocksOf(s.procs[step.pid]) <= LocksOf(s'.procs[step.pid])
  {
    hide Event, Complete, Present, Admitted, ChunkLimit, FileOf, WithFile, WithInfo, WithNew, WithoutInfo, WithoutFile, Limited, Hidden, Mentions;
  }

  lemma StepKeepsLocks(cfg: Config, s: State, step: Step)
    requires LocksOwned(s) && Enabled(s, step)
    ensures LocksOwned(Next(cfg, s, step))
  {
    var s' := Next(cfg, s, step);
    StepLocks(cfg, s, step);
    StepOfOne(cfg, s, step);
    hide Next, Enabled, LocksOf;
    forall id | id in s'.locks
      ensures exists pid :: pid in s'.procs && id in LocksOf(s'.procs[pid])
    {
      if id in LocksOf(s'.procs[step.pid]) {
      } else {
        var pid :| pid in s.procs && id in LocksOf(s.procs[pid]);
        assert s'.procs[pid] == s.procs[pid];
      }
    }
  }

  lemma {:induction false} RunLocks(cfg: Config, run: seq<State>, steps: seq<Step>, i: nat)
    requires IsRun(cfg, run, steps) && i < |run|
    ensures LocksOwned(run[i])
  {
    hide Enabled, Next, LocksOf;
    if i == 0 {
      assert run[0].locks == {};
    } else {
      RunLocks(cfg, run, steps, i - 1);
      assert Enabled(run[i - 1], steps[i - 1]) && run[i - 1 + 1] == Next(cfg, run[i - 1], steps[i - 1]);
      StepKeepsLocks(cfg, run[i - 1], steps[i - 1]);
    }
  }

  /** Every way through a handler gives its lock back: when all are done, nothing is locked. */
  lemma LocksAreReturned(cfg: Config, run: seq<State>, steps: seq<Step>, i: nat)
    requires IsRun(cfg, run, steps) && i < |run|
    requires forall pid :: pid in run[i].procs ==> run[i].procs[pid].Done?
    ensures run[i].locks == {}
  {
    RunLocks(cfg, run, steps, i);
    hide Enabled, Next;
    assert forall pid :: pid in run[i].procs ==> LocksOf(run[i].procs[pid]) == {};
  }

  // ----- deletions -----

  /** A DELETE that succeeds leaves neither info nor file, then and for the rest of the run. */
  lemma DeletedForGood(cfg: Config, run: seq<State>, steps: seq<Step>, i: nat, j: nat, pid: Pid, id: Id)
    requires IsRun(cfg, run, steps) && i <= j < |run|
    requires pid in run[i].procs && run[i].procs[pid].Replying? && run[i].procs[pid].reply == DeleteOk(id)
    ensures id !in run[j].store.infos && id !in run[j].store.files
  {
    RunInv(cfg, run, steps, i);
    RunEvolves(cfg, run, steps, i, j);
    assert ProcOk(run[i], run[i].procs[pid]);
    assert id in run[i].used;
    assert EvolvesAt(run[i].store, run[j].store, id);
  }
}
