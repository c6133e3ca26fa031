/**
 The whole way of a broadcast in pkg/ws: the merger's worker hands each batch to PushAll of the
 connection manager, whose workers send it to every bucket. Both step systems run side by side and
 meet in commitBatch, where the room in the dispatch channel decides.
 */
module Broadcast {
  import opened Basics
  import M = Merger
  import F = FanOut
  import O = FanOutOrder

  /** pack: the bytes of a batch as json.Marshal makes them. */
  datatype Config = Config(merger: M.Config, fan: F.Config, pack: seq<M.Msg> -> F.Msg)

  /** jobs: for each commit of the merger the job that PushAll made of it; None when it refused. */
  datatype State = State(m: M.State, f: F.State, jobs: seq<Option<F.JobId>>)

  datatype Step = Merge(merge: M.Step) | Fan(fan: F.Step)

  function Start(n: nat, k: nat, w: nat): State
  {
    State(M.EMPTY, F.Start(n, k, w), [])
  }

  predicate HasRoom(cfg: Config, s: State)
  {
    |s.f.dispatch| < cfg.fan.dispatchSize
  }

  predicate Enabled(cfg: Config, s: State, step: Step)
  {
    match step
    case Merge(merge) => M.Enabled(cfg.merger, s.m, merge) && (merge.CommitBatch? ==> merge.room == HasRoom(cfg, s))
    case Fan(fan) => F.Enabled(cfg.fan, s.f, fan)
  }

  /** The merger's worker is about to hand over its batch. */
  predicate HandsOver(cfg: Config, s: State, step: Step)
  {
    step.Merge? && step.merge.CommitBatch? && s.m.open.Some? && M.Marshals(cfg.merger, s.m.open.value.items)
  }

  function Next(cfg: Config, s: State, step: Step): State
    requires Enabled(cfg, s, step)
  {
    match step
    case Merge(merge) =>
      var m' := M.Next(cfg.merger, s.m, merge);
      if HandsOver(cfg, s, step) then
        State(m', F.NextPush(cfg.fan, s.f, true, cfg.pack(s.m.open.value.items)),
              s.jobs + [if HasRoom(cfg, s) then Some(|s.f.accepted|) else None])
      else s.(m := m')
    case Fan(fan) => s.(f := F.Next(cfg.fan, s.f, fan))
  }

  ghost predicate IsRun(n: nat, k: nat, w: nat, cfg: Config, run: seq<State>, steps: seq<Step>)
  {
    && |run| == |steps| + 1
    && run[0] == Start(n, k, w)
    && forall i :: 0 <= i < |steps| ==> Enabled(cfg, run[i], steps[i]) && run[i + 1] == Next(cfg, run[i], steps[i])
  }

  // ----- what is kept -----

  /** The job of a batch. */
  function JobOf(cfg: Config, id: F.JobId, batch: M.Batch): F.Job
  {
    F.Job(id, true, cfg.pack(batch.items))
  }

  /** Commit k was accepted by PushAll as the job that it is, or refused. */
  predicate LinkedAt(cfg: Config, s: State, k: nat)
    requires k < |s.jobs| == |s.m.committed|
  {
    var c, job := s.m.committed[k], s.jobs[k];
    && (c.pushed <==> job.Some?)
    && (job.Some? ==> job.value < |s.f.accepted| && s.f.accepted[job.value] == JobOf(cfg, job.value, c.batch))
  }

  ghost predicate Linked(cfg: Config, s: State)
  {
    && |s.jobs| == |s.m.committed|
    && (forall k :: 0 <= k < |s.jobs| ==> LinkedAt(cfg, s, k))
    && (forall k, l :: 0 <= k < l < |s.jobs| && s.jobs[k].Some? && s.jobs[l].Some? ==> s.jobs[k].value < s.jobs[l].value)
  }

  ghost predicate Inv(cfg: Config, s: State)
  {
    M.Inv(cfg.merger, s.m) && F.Inv(cfg.fan, s.f) && Linked(cfg, s)
  }

  /** Steps of the fan-out only add to what was accepted; the merger is where it was. */
  lemma LinkedLater(cfg: Config, s: State, s': State)
    requires Linked(cfg, s) && s'.jobs == s.jobs && s'.m.committed == s.m.committed && s.f.accepted <= s'.f.accepted
    ensures Linked(cfg, s')
  {
    hide JobOf;
    forall k | 0 <= k < |s'.jobs|
      ensures LinkedAt(cfg, s', k)
    {
      assert LinkedAt(cfg, s, k);
    }
  }

  lemma LinkedMore(cfg: Config, s: State, step: Step)
    requires Linked(cfg, s) && Enabled(cfg, s, step) && HandsOver(cfg, s, step)
    ensures Linked(cfg, Next(cfg, s, step))
  {
    var s' := Next(cfg, s, step);
    hide JobOf;
    forall k | 0 <= k < |s.jobs|
      ensures LinkedAt(cfg, s', k)
    {
      assert LinkedAt(cfg, s, k);
    }
    forall k | 0 <= k < |s.jobs| && s.jobs[k].Some?
      ensures s.jobs[k].value < |s.f.accepted|
    {
      assert LinkedAt(cfg, s, k);
    }
    assert LinkedAt(cfg, s', |s.jobs|) by { NewLink(cfg, s, step); }
  }

  lemma NewLink(cfg: Config, s: State, step: Step)
    requires Linked(cfg, s) && Enabled(cfg, s, step) && HandsOver(cfg, s, step)
    ensures
      var s' := Next(cfg, s, step);
      |s'.jobs| == |s'.m.committed| == |s.jobs| + 1 && LinkedAt(cfg, s', |s.jobs|)
  {}

  lemma CommittedStays(cfg: Config, s: State, step: Step)
    requires Enabled(cfg, s, step) && !HandsOver(cfg, s, step)
    ensures Next(cfg, s, step).m.committed == s.m.committed && Next(cfg, s, step).jobs == s.jobs
    ensures s.f.accepted <= Next(cfg, s, step).f.accepted
  {
    hide M.Marshals;
    if step.Fan? {
      AcceptedGrows(cfg.fan, s.f, step.fan);
    }
  }

  lemma AcceptedGrows(cfg: F.Config, s: F.State, step: F.Step)
    requires F.Enabled(cfg, s, step)
    ensures s.accepted <= F.Next(cfg, s, step).accepted
  {}

  lemma StepKeeps(cfg: Config, s: State, step: Step)
    requires Inv(cfg, s) && Enabled(cfg, s, step)
    ensures Inv(cfg, Next(cfg, s, step)) && |Next(cfg, s, step).f.queues| == |s.f.queues|
  {
    var s' := Next(cfg, s, step);
    hide M.Inv, F.Inv, M.Next, F.Next, M.Enabled, F.Enabled, M.Marshals;
    assert Linked(cfg, s') by {
      if HandsOver(cfg, s, step) {
        LinkedMore(cfg, s, step);
      } else {
        CommittedStays(cfg, s, step);
        LinkedLater(cfg, s, s');
      }
    }
    hide Linked;
    if step.Merge? {
      M.StepKeeps(cfg.merger, s.m, step.merge);
      if HandsOver(cfg, s, step) {
        PushIsAStep(cfg, s);
        F.StepKeeps(cfg.fan, s.f, F.Push(true, cfg.pack(s.m.open.value.items)));
      }
    } else {
      F.StepKeeps(cfg.fan, s.f, step.fan);
    }
  }

  lemma PushIsAStep(cfg: Config, s: State)
    requires F.Inv(cfg.fan, s.f)
    ensures forall msg ::
              && F.Enabled(cfg.fan, s.f, F.Push(true, msg))
              && F.Next(cfg.fan, s.f, F.Push(true, msg)) == F.NextPush(cfg.fan, s.f, true, msg)
  {
    hide F.Placed, F.Sent, F.Fifo, F.CountsOk;
  }

  lemma {:induction false} RunInv(n: nat, k: nat, w: nat, cfg: Config, run: seq<State>, steps: seq<Step>, i: nat)
    requires IsRun(n, k, w, cfg, run, steps) && i < |run|
    ensures Inv(cfg, run[i]) && |run[i].f.queues| == n
  {
    hide Inv, Next, Enabled;
    if i == 0 {
      StartInv(n, k, w, cfg);
    } else {
      RunInv(n, k, w, cfg, run, steps, i - 1);
      assert Enabled(cfg, run[i - 1], steps[i - 1]) && run[i - 1 + 1] == Next(cfg, run[i - 1], steps[i - 1]);
      StepKeeps(cfg, run[i - 1], steps[i - 1]);
    }
  }

  lemma StartInv(n: nat, k: nat, w: nat, cfg: Config)
    ensures Inv(cfg, Start(n, k, w))
  {
    F.StartInv(n, k, w, cfg.fan);
    hide F.Inv;
  }

  // ----- what a run promises -----

  /** Commit k was made by step j, which found room in the dispatch channel or not. */
  predicate MadeBy(cfg: Config, s: State, step: Step, k: nat, c: M.Commit)
  {
    HandsOver(cfg, s, step) && |s.m.committed| == k && c == M.Commit(s.m.open.value, HasRoom(cfg, s))
  }

  /** A batch is refused exactly when the dispatch channel was full at its commit. */
  lemma {:induction false} RefusedWhenFull(n: nat, k: nat, w: nat, cfg: Config, run: seq<State>, steps: seq<Step>, i: nat, c: nat)
    returns (j: nat)
    requires IsRun(n, k, w, cfg, run, steps) && i < |run| && c < |run[i].m.committed|
    ensures j < i && MadeBy(cfg, run[j], steps[j], c, run[i].m.committed[c])
  {
    hide Inv, Enabled, Next, HandsOver, M.Next, M.Enabled;
    if i == 0 {
      assert false;
    } else {
      var s, step := run[i - 1], steps[i - 1];
      assert Enabled(cfg, s, step) && run[i - 1 + 1] == Next(cfg, s, step);
      CommitsAtMostOne(cfg, s, step);
      if c < |s.m.committed| {
        j := RefusedWhenFull(n, k, w, cfg, run, steps, i - 1, c);
      } else {
        j := i - 1;
      }
    }
  }

  lemma CommitsAtMostOne(cfg: Config, s: State, step: Step)
    requires Enabled(cfg, s, step)
    ensures
      var s' := Next(cfg, s, step);
      if HandsOver(cfg, s, step) then s'.m.committed == s.m.committed + [M.Commit(s.m.open.value, HasRoom(cfg, s))]
      else s'.m.committed == s.m.committed
  {
    if HandsOver(cfg, s, step) {
    } else {
      CommittedStays(cfg, s, step);
    }
  }

  /** What has become of commit c for bucket b: its job is in the bucket once, or it was refused. */
  predicate Arrived(cfg: Config, s: State, c: nat, b: nat)
    requires c < |s.jobs| == |s.m.committed| && F.Shape(s.f) && b < |s.f.queues|
  {
    var commit := s.m.committed[c];
    if commit.pushed then
      s.jobs[c].Some? && F.Count(s.f.taken[b] + s.f.queues[b], JobOf(cfg, s.jobs[c].value, commit.batch)) == 1
    else s.jobs[c].None?
  }

  /**
   When merger and fan-out have come to rest and all messages marshal, every message that the
   merger accepted is in one committed batch, in order, and each batch is, as one job, exactly once
   with every bucket, or was refused at its commit.
   */
  lemma EveryMessageArrives(n: nat, k: nat, w: nat, cfg: Config, run: seq<State>, steps: seq<Step>, i: nat, b: nat)
    requires IsRun(n, k, w, cfg, run, steps) && i < |run| && b < n
    requires M.AtRest(run[i].m) && F.Dispatched(run[i].f) && M.Marshals(cfg.merger, run[i].m.accepted)
    requires forall c :: c in run[i].m.committed ==> cfg.pack(c.batch.items) !in cfg.fan.invalid
    ensures run[i].m.accepted == M.Flat(run[i].m.committed)
    ensures |run[i].jobs| == |run[i].m.committed| && F.Shape(run[i].f) && |run[i].f.queues| == n
    ensures forall c :: 0 <= c < |run[i].jobs| ==> Arrived(cfg, run[i], c, b)
  {
    var s := run[i];
    RunInv(n, k, w, cfg, run, steps, i);
    hide IsRun, M.Inv, M.AtRest, F.Inv, F.Dispatched, M.Marshals, F.Count;
    M.RestMeans(cfg.merger, s.m);
    ShapeOf(cfg.fan, s.f);
    forall c | 0 <= c < |s.jobs|
      ensures Arrived(cfg, s, c, b)
    {
      assert LinkedAt(cfg, s, c) && s.m.committed[c] in s.m.committed;
      if s.jobs[c].Some? {
        var job := JobOf(cfg, s.jobs[c].value, s.m.committed[c].batch);
        assert job == s.f.accepted[s.jobs[c].value];
        F.DispatchedMeans(cfg.fan, s.f, b, job);
      }
    }
  }

  lemma ShapeOf(cfg: F.Config, s: F.State)
    requires F.Inv(cfg, s)
    ensures F.Shape(s) && F.DispatchersOk(s)
  {
    hide F.Placed, F.Sent, F.Fifo, F.CountsOk, F.DispatchersOk;
  }

  // ----- order -----

  lemma {:induction false} RunInOrder(n: nat, w: nat, cfg: Config, run: seq<State>, steps: seq<Step>, i: nat, b: nat)
    requires IsRun(n, 1, w, cfg, run, steps) && i < |run| && b < n
    ensures F.Shape(run[i].f) && |run[i].f.queues| == n && O.InOrder(cfg.fan, run[i].f, b)
  {
    hide Inv, Next, Enabled, O.InOrder, F.DispatchersOk;
    if i == 0 {
      O.OrderAtStart(n, w, cfg.fan, b);
    } else {
      RunInOrder(n, w, cfg, run, steps, i - 1, b);
      RunInv(n, 1, w, cfg, run, steps, i - 1);
      assert Enabled(cfg, run[i - 1], steps[i - 1]) && run[i - 1 + 1] == Next(cfg, run[i - 1], steps[i - 1]);
      OrderKeeps(cfg, run[i - 1], steps[i - 1], b);
    }
  }

  lemma OrderKeeps(cfg: Config, s: State, step: Step, b: nat)
    requires Inv(cfg, s) && Enabled(cfg, s, step) && F.Shape(s.f) && b < |s.f.queues| && O.InOrder(cfg.fan, s.f, b)
    ensures
      var s' := Next(cfg, s, step);
      F.Shape(s'.f) && |s'.f.queues| == |s.f.queues| && O.InOrder(cfg.fan, s'.f, b)
  {
    hide M.Inv, F.Inv, M.Next, F.Next, M.Enabled, F.Enabled, O.InOrder, Linked;
    ShapeOf(cfg.fan, s.f);
    if step.Fan? {
      O.OrderKeeps(cfg.fan, s.f, step.fan, b);
    } else if HandsOver(cfg, s, step) {
      PushIsAStep(cfg, s);
      O.OrderKeeps(cfg.fan, s.f, F.Push(true, cfg.pack(s.m.open.value.items)), b);
    }
  }

  /** With one dispatch worker the batches reach every bucket in the order in which they were committed. */
  lemma BatchesInOrder(n: nat, w: nat, cfg: Config, run: seq<State>, steps: seq<Step>, i: nat, b: nat, c: nat, d: nat)
    returns (p: nat, q: nat)
    requires IsRun(n, 1, w, cfg, run, steps) && i < |run| && b < n && F.Dispatched(run[i].f)
    requires c < d < |run[i].m.committed| && run[i].m.committed[c].pushed && run[i].m.committed[d].pushed
    requires forall c :: c in run[i].m.committed ==> cfg.pack(c.batch.items) !in cfg.fan.invalid
    ensures |run[i].jobs| == |run[i].m.committed| && run[i].jobs[c].Some? && run[i].jobs[d].Some?
    ensures b < |run[i].f.entered| && p < q < |run[i].f.entered[b]|
    ensures run[i].f.entered[b][p] == JobOf(cfg, run[i].jobs[c].value, run[i].m.committed[c].batch)
    ensures run[i].f.entered[b][q] == JobOf(cfg, run[i].jobs[d].value, run[i].m.committed[d].batch)
  {
    var s := run[i];
    RunInv(n, 1, w, cfg, run, steps, i);
    RunInOrder(n, w, cfg, run, steps, i, b);
    hide IsRun, M.Inv, F.Inv;
    O.OrderMeans(cfg.fan, s.f, b);
    hide F.Dispatched, O.InOrder, O.Sendable;
    assert LinkedAt(cfg, s, c) && LinkedAt(cfg, s, d);
    assert s.m.committed[c] in s.m.committed && s.m.committed[d] in s.m.committed;
    p, q := O.SendableOrder(cfg.fan, s.f.accepted, s.jobs[c].value, s.jobs[d].value);
  }
}
