/** That the fan-out comes to rest: the workers are never stuck, and the work that is left only shrinks. */
module FanOutProgress {
  import opened Basics
  import opened FanOut

  // ----- the work that is left -----

  /** Steps that a dispatcher still takes, and those that its job still causes, with n buckets. */
  function DispatcherWork(p: Dispatcher, n: nat): nat
  {
    match p
    case Waiting => 0
    case Got(_) => 4 * n + 2
    case Fanning(_, next, counted) => if next > n then 0 else if next == n then 1 else 1 + 4 * (n - next) - One(counted)
  }

  function DispatchersWork(ds: seq<Dispatcher>, n: nat): nat
  {
    if ds == [] then 0 else DispatchersWork(ds[..|ds| - 1], n) + DispatcherWork(ds[|ds| - 1], n)
  }

  /** A job in a channel is still to be taken and delivered. */
  function BucketsWork(queues: seq<seq<Job>>, workers: seq<seq<Worker>>): nat
    requires |queues| == |workers|
  {
    if queues == [] then 0
    else
      var b := |queues| - 1;
      BucketsWork(queues[..b], workers[..b]) + 2 * |queues[b]| + Busy(workers[b])
  }

  /** The number of steps that the workers have still to take for the jobs accepted so far. */
  function Work(s: State): nat
    requires Shape(s)
  {
    (4 * |s.queues| + 3) * |s.dispatch| + DispatchersWork(s.dispatchers, |s.queues|) + BucketsWork(s.queues, s.workers)
  }

  lemma {:induction false} DispatchersWorkUpdate(ds: seq<Dispatcher>, d: nat, p: Dispatcher, n: nat)
    requires d < |ds|
    ensures DispatchersWork(ds[d := p], n) == DispatchersWork(ds, n) - DispatcherWork(ds[d], n) + DispatcherWork(p, n)
  {
    var last := |ds| - 1;
    if d == last {
      assert ds[d := p][..last] == ds[..last];
    } else {
      assert ds[d := p][..last] == ds[..last][d := p];
      DispatchersWorkUpdate(ds[..last], d, p, n);
    }
  }

  lemma {:induction false} BucketsWorkUpdate(queues: seq<seq<Job>>, workers: seq<seq<Worker>>, b: nat, q: seq<Job>, ws: seq<Worker>)
    requires |queues| == |workers| && b < |queues|
    ensures BucketsWork(queues[b := q], workers[b := ws]) == BucketsWork(queues, workers) - 2 * |queues[b]| - Busy(workers[b]) + 2 * |q| + Busy(ws)
  {
    var last := |queues| - 1;
    if b == last {
      assert queues[b := q][..last] == queues[..last] && workers[b := ws][..last] == workers[..last];
    } else {
      assert queues[b := q][..last] == queues[..last][b := q] && workers[b := ws][..last] == workers[..last][b := ws];
      BucketsWorkUpdate(queues[..last], workers[..last], b, q, ws);
    }
  }

  predicate ByWorker(step: Step)
  {
    !step.Push? && !step.CountPush?
  }

  /** Every step of a worker does one unit of the work, but for a job that does not encode, which has no more. */
  lemma WorkShrinks(cfg: Config, s: State, step: Step)
    requires Inv(cfg, s) && Enabled(cfg, s, step) && ByWorker(step)
    ensures
      var s' := Next(cfg, s, step);
      && Shape(s') && |s'.queues| == |s.queues|
      && Work(s') == Work(s) - if step.Encode? && s.dispatchers[step.d].job.msg in cfg.invalid then 4 * |s.queues| + 2 else 1
  {
    hide Placed, Sent, Fifo, Numbered, FailedOk, CountsOk, DispatchersWork, BucketsWork, Busy;
    if ByDispatcher(step) {
      DispatcherShrinks(cfg, s, step);
    } else {
      WorkerShrinks(cfg, s, step);
    }
  }

  lemma WorkerShrinks(cfg: Config, s: State, step: Step)
    requires Enabled(cfg, s, step) && (step.Take? || step.Deliver?)
    ensures Shape(Next(cfg, s, step)) && |Next(cfg, s, step).queues| == |s.queues| && Work(Next(cfg, s, step)) == Work(s) - 1
  {
    hide DispatchersWork, BucketsWork, Busy;
    var s' := Next(cfg, s, step);
    var b, w := step.b, step.w;
    BusyUpdate(s.workers[b], w, s'.workers[b][w]);
    BucketsWorkUpdate(s.queues, s.workers, b, s'.queues[b], s'.workers[b]);
    if step.Deliver? {
      assert s.queues[b := s.queues[b]] == s.queues;
    }
  }

  lemma DispatcherShrinks(cfg: Config, s: State, step: Step)
    requires Enabled(cfg, s, step) && ByDispatcher(step) && DispatchersOk(s)
    ensures
      var s' := Next(cfg, s, step);
      && Shape(s') && |s'.queues| == |s.queues|
      && Work(s') == Work(s) - if step.Encode? && s.dispatchers[step.d].job.msg in cfg.invalid then 4 * |s.queues| + 2 else 1
  {
    hide DispatchersWork, BucketsWork, Busy;
    var s' := Next(cfg, s, step);
    var n := |s.queues|;
    DispatchersWorkUpdate(s.dispatchers, step.d, s'.dispatchers[step.d], n);
    if step.Send? {
      var b := s.dispatchers[step.d].next;
      BucketsWorkUpdate(s.queues, s.workers, b, s'.queues[b], s.workers[b]);
      assert s.workers[b := s.workers[b]] == s.workers;
    } else if step.Receive? {
      assert |s'.dispatch| == |s.dispatch| - 1;
      Less(4 * n + 3, |s.dispatch|);
    }
  }

  lemma Less(w: nat, k: nat)
    requires k > 0
    ensures w * (k - 1) == w * k - w
  {}

  /** The steps of workers among steps i to j. */
  function WorkerSteps(steps: seq<Step>, i: nat, j: nat): nat
    requires i <= j <= |steps|
  {
    if i == j then 0 else WorkerSteps(steps, i, j - 1) + One(ByWorker(steps[j - 1]))
  }

  /** While nothing is pushed the workers take no more steps than there is work. */
  lemma {:induction false} WorkIsDone(n: nat, k: nat, m: nat, cfg: Config, run: seq<State>, steps: seq<Step>, i: nat, j: nat)
    requires IsRun(n, k, m, cfg, run, steps) && i <= j < |run|
    requires forall l :: i <= l < j ==> !steps[l].Push?
    ensures Shape(run[i]) && Shape(run[j]) && Work(run[j]) + WorkerSteps(steps, i, j) <= Work(run[i])
    decreases j
  {
    hide Inv, Next, Enabled, Work;
    RunInv(n, k, m, cfg, run, steps, j);
    ShapeOf(cfg, run[j]);
    if i == j {
    } else {
      WorkIsDone(n, k, m, cfg, run, steps, i, j - 1);
      RunInv(n, k, m, cfg, run, steps, j - 1);
      assert Enabled(cfg, run[j - 1], steps[j - 1]) && run[j - 1 + 1] == Next(cfg, run[j - 1], steps[j - 1]);
      if steps[j - 1].CountPush? {
        CountingIsNoWork(cfg, run[j - 1]);
      } else {
        WorkShrinks(cfg, run[j - 1], steps[j - 1]);
      }
    }
  }

  lemma ShapeOf(cfg: Config, s: State)
    requires Inv(cfg, s)
    ensures Shape(s)
  {
    hide Placed, Sent, Fifo, CountsOk;
  }

  lemma CountingIsNoWork(cfg: Config, s: State)
    requires Enabled(cfg, s, CountPush)
    ensures Shape(Next(cfg, s, CountPush)) && Work(Next(cfg, s, CountPush)) == Work(s)
  {}

  // ----- no worker is stuck -----

  predicate Crew(s: State, k: nat, m: nat)
  {
    |s.dispatchers| == k && forall b :: 0 <= b < |s.workers| ==> |s.workers[b]| == m
  }

  lemma CrewStays(cfg: Config, s: State, step: Step, k: nat, m: nat)
    requires Crew(s, k, m) && Enabled(cfg, s, step)
    ensures Crew(Next(cfg, s, step), k, m)
  {}

  lemma {:induction false} RunCrew(n: nat, k: nat, m: nat, cfg: Config, run: seq<State>, steps: seq<Step>, i: nat)
    requires IsRun(n, k, m, cfg, run, steps) && i < |run|
    ensures Crew(run[i], k, m)
  {
    hide Next, Enabled, Crew;
    if i == 0 {
      CrewAtStart(n, k, m);
    } else {
      RunCrew(n, k, m, cfg, run, steps, i - 1);
      assert Enabled(cfg, run[i - 1], steps[i - 1]) && run[i - 1 + 1] == Next(cfg, run[i - 1], steps[i - 1]);
      CrewStays(cfg, run[i - 1], steps[i - 1], k, m);
    }
  }

  lemma CrewAtStart(n: nat, k: nat, m: nat)
    ensures Crew(Start(n, k, m), k, m)
  {}

  /** No job is waiting, in hand or in a channel. */
  predicate AtRest(s: State)
  {
    && Dispatched(s)
    && (forall b :: 0 <= b < |s.queues| ==> s.queues[b] == [])
    && (forall b, w :: 0 <= b < |s.workers| && 0 <= w < |s.workers[b]| ==> s.workers[b][w].Free?)
  }

  /** The next step of a dispatcher that has a job, when there is room for it. */
  function DispatcherStep(s: State, d: nat): Step
    requires d < |s.dispatchers| && !s.dispatchers[d].Waiting?
  {
    match s.dispatchers[d]
    case Got(_) => Encode(d)
    case Fanning(_, next, counted) => if next == |s.queues| then Finish(d) else if counted then Send(d) else CountJob(d)
  }

  /** With a worker of each kind and a place in each bucket's channel, some worker can go on as long as there is a job. */
  lemma SomeWorkerCanGoOn(n: nat, k: nat, m: nat, cfg: Config, run: seq<State>, steps: seq<Step>, i: nat) returns (step: Step)
    requires IsRun(n, k, m, cfg, run, steps) && i < |run|
    requires k > 0 && m > 0 && cfg.jobSize > 0 && !AtRest(run[i])
    ensures ByWorker(step) && Enabled(cfg, run[i], step)
  {
    RunInv(n, k, m, cfg, run, steps, i);
    RunCrew(n, k, m, cfg, run, steps, i);
    var s := run[i];
    hide IsRun, Placed, Sent, Fifo, CountsOk, Numbered, FailedOk;
    if b, w :| 0 <= b < |s.workers| && 0 <= w < |s.workers[b]| && !s.workers[b][w].Free? {
      step := Deliver(b, w);
    } else if b :| 0 <= b < |s.queues| && s.queues[b] != [] {
      assert s.workers[b][0].Free?;
      step := Take(b, 0);
    } else if d :| 0 <= d < |s.dispatchers| && !s.dispatchers[d].Waiting? {
      step := DispatcherStep(s, d);
    } else {
      assert s.dispatchers[0].Waiting?;
      step := Receive(0);
    }
  }

  /** No work is left exactly at rest. */
  lemma NoWorkAtRest(s: State)
    requires Shape(s) && DispatchersOk(s)
    ensures Work(s) == 0 <==> AtRest(s)
  {
    DispatchersRest(s.dispatchers, |s.queues|);
    BucketsRest(s.queues, s.workers);
    hide DispatchersWork, BucketsWork;
    if s.dispatch != [] {
      assert (4 * |s.queues| + 3) * |s.dispatch| > 0;
    }
  }

  lemma {:induction false} DispatchersRest(ds: seq<Dispatcher>, n: nat)
    requires forall d :: 0 <= d < |ds| && ds[d].Fanning? ==> ds[d].next <= n
    ensures DispatchersWork(ds, n) == 0 <==> forall d :: 0 <= d < |ds| ==> ds[d].Waiting?
  {
    if ds == [] {
    } else {
      var last := |ds| - 1;
      DispatchersRest(ds[..last], n);
      assert forall d :: 0 <= d < last ==> ds[..last][d] == ds[d];
    }
  }

  lemma {:induction false} WorkersRest(ws: seq<Worker>)
    ensures Busy(ws) == 0 <==> forall w :: 0 <= w < |ws| ==> ws[w].Free?
  {
    if ws == [] {
    } else {
      var last := |ws| - 1;
      WorkersRest(ws[..last]);
      assert forall w :: 0 <= w < last ==> ws[..last][w] == ws[w];
    }
  }

  predicate BucketsAtRest(queues: seq<seq<Job>>, workers: seq<seq<Worker>>)
  {
    && (forall b :: 0 <= b < |queues| ==> queues[b] == [])
    && (forall b, w :: 0 <= b < |workers| && 0 <= w < |workers[b]| ==> workers[b][w].Free?)
  }

  lemma {:induction false} BucketsRest(queues: seq<seq<Job>>, workers: seq<seq<Worker>>)
    requires |queues| == |workers|
    ensures BucketsWork(queues, workers) == 0 <==> BucketsAtRest(queues, workers)
  {
    if queues == [] {
    } else {
      var last := |queues| - 1;
      BucketsRest(queues[..last], workers[..last]);
      WorkersRest(workers[last]);
      assert BucketsAtRest(queues, workers) <==> BucketsAtRest(queues[..last], workers[..last]) && queues[last] == [] && forall w :: 0 <= w < |workers[last]| ==> workers[last][w].Free?;
    }
  }

  /** Nobody but the workers moves from run to run'. */
  ghost predicate Extends(run: seq<State>, steps: seq<Step>, run': seq<State>, steps': seq<Step>)
  {
    run <= run' && steps <= steps' && forall l :: |steps| <= l < |steps'| ==> ByWorker(steps'[l])
  }

  /** From every state the workers can come to rest, in no more steps than there is work; nothing accepted is forgotten. */
  lemma {:induction false} CanDrain(n: nat, k: nat, m: nat, cfg: Config, run: seq<State>, steps: seq<Step>)
    returns (run': seq<State>, steps': seq<Step>)
    requires IsRun(n, k, m, cfg, run, steps) && k > 0 && m > 0 && cfg.jobSize > 0
    ensures IsRun(n, k, m, cfg, run', steps') && Extends(run, steps, run', steps')
    ensures AtRest(run'[|run'| - 1]) && run'[|run'| - 1].accepted == run[|run| - 1].accepted
    ensures Shape(run[|run| - 1]) && |steps'| - |steps| <= Work(run[|run| - 1])
    decreases if Shape(run[|run| - 1]) then Work(run[|run| - 1]) else 0
  {
    hide Inv, Next, Enabled, Work, AtRest;
    var s := run[|run| - 1];
    RunInv(n, k, m, cfg, run, steps, |run| - 1);
    ShapeOf(cfg, s);
    if AtRest(s) {
      run', steps' := run, steps;
    } else {
      var step := SomeWorkerCanGoOn(n, k, m, cfg, run, steps, |run| - 1);
      WorkShrinks(cfg, s, step);
      SameAccepted(cfg, s, step);
      run', steps' := CanDrain(n, k, m, cfg, run + [Next(cfg, s, step)], steps + [step]);
      assert run <= run + [Next(cfg, s, step)] && steps <= steps + [step];
    }
  }

  lemma SameAccepted(cfg: Config, s: State, step: Step)
    requires Enabled(cfg, s, step) && ByWorker(step)
    ensures Next(cfg, s, step).accepted == s.accepted
  {}
}
