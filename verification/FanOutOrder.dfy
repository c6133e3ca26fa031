/** In which order the buckets get the jobs: that of PushAll and PushRoom for one dispatch worker, and any for more. */
module FanOutOrder {
  import opened FanOut

  /** The jobs that encode, in order. */
  function Sendable(cfg: Config, jobs: seq<Job>): seq<Job>
  {
    if jobs == [] then []
    else
      var job := jobs[|jobs| - 1];
      Sendable(cfg, jobs[..|jobs| - 1]) + if job.msg in cfg.invalid then [] else [job]
  }

  function SendableOne(cfg: Config, job: Job): seq<Job>
  {
    if job.msg in cfg.invalid then [] else [job]
  }

  lemma SendableMore(cfg: Config, jobs: seq<Job>, job: Job)
    ensures Sendable(cfg, jobs + [job]) == Sendable(cfg, jobs) + SendableOne(cfg, job)
  {
    assert (jobs + [job])[..|jobs|] == jobs;
  }

  lemma {:induction false} SendableTail(cfg: Config, jobs: seq<Job>)
    requires jobs != []
    ensures Sendable(cfg, jobs) == SendableOne(cfg, jobs[0]) + Sendable(cfg, jobs[1..])
  {
    var last := |jobs| - 1;
    if last == 0 {
      assert jobs[..0] == [] && jobs[1..] == [];
    } else {
      SendableTail(cfg, jobs[..last]);
      assert jobs[..last][1..] == jobs[1..][..last - 1];
      assert jobs[1..][|jobs[1..]| - 1] == jobs[last];
    }
  }

  /** What the dispatcher has in hand that bucket b has not got yet. */
  function Ahead(cfg: Config, p: Dispatcher, b: nat): seq<Job>
  {
    match p
    case Waiting => []
    case Got(job) => SendableOne(cfg, job)
    case Fanning(job, next, _) => if next <= b then [job] else []
  }

  predicate InOrder(cfg: Config, s: State, b: nat)
    requires Shape(s) && b < |s.queues|
  {
    |s.dispatchers| == 1 &&
    s.entered[b] + Ahead(cfg, s.dispatchers[0], b) + Sendable(cfg, s.dispatch) == Sendable(cfg, s.accepted)
  }

  lemma Regroup(a: seq<Job>, b: seq<Job>, c: seq<Job>, d: seq<Job>)
    ensures a + b + c + d == a + b + (c + d)
    ensures a + [] + (b + c) == a + b + c
    ensures a + b + c == (a + b) + [] + c
  {}

  lemma OrderKeeps(cfg: Config, s: State, step: Step, b: nat)
    requires Enabled(cfg, s, step) && b < |s.queues| && InOrder(cfg, s, b) && DispatchersOk(s)
    ensures
      var s' := Next(cfg, s, step);
      Shape(s') && |s'.queues| == |s.queues| && InOrder(cfg, s', b)
  {
    hide Sendable;
    var entered, ahead, rest := s.entered[b], Ahead(cfg, s.dispatchers[0], b), Sendable(cfg, s.dispatch);
    match step
    case Push(toAll, msg) =>
      var job := Job(|s.accepted|, toAll, msg);
      SendableMore(cfg, s.dispatch, job);
      SendableMore(cfg, s.accepted, job);
      Regroup(entered, ahead, rest, SendableOne(cfg, job));
    case Receive(_) =>
      SendableTail(cfg, s.dispatch);
      Regroup(entered, SendableOne(cfg, s.dispatch[0]), Sendable(cfg, s.dispatch[1..]), []);
    case Send(_) => Regroup(entered, ahead, rest, []);
    case _ =>
  }

  lemma {:induction false} RunInOrder(n: nat, m: nat, cfg: Config, run: seq<State>, steps: seq<Step>, i: nat, b: nat)
    requires IsRun(n, 1, m, cfg, run, steps) && i < |run| && b < n
    ensures Shape(run[i]) && |run[i].queues| == n && InOrder(cfg, run[i], b)
  {
    hide Inv, Next, Enabled, InOrder, DispatchersOk;
    if i == 0 {
      OrderAtStart(n, m, cfg, b);
    } else {
      RunInOrder(n, m, cfg, run, steps, i - 1, b);
      RunInv(n, 1, m, cfg, run, steps, i - 1);
      DispatchersOf(cfg, run[i - 1]);
      assert Enabled(cfg, run[i - 1], steps[i - 1]) && run[i - 1 + 1] == Next(cfg, run[i - 1], steps[i - 1]);
      OrderKeeps(cfg, run[i - 1], steps[i - 1], b);
    }
  }

  lemma OrderAtStart(n: nat, m: nat, cfg: Config, b: nat)
    requires b < n
    ensures InOrder(cfg, Start(n, 1, m), b)
  {}

  lemma DispatchersOf(cfg: Config, s: State)
    requires Inv(cfg, s)
    ensures DispatchersOk(s)
  {
    hide Placed, Sent, Fifo, CountsOk, DispatchersOk;
  }

  lemma OrderMeans(cfg: Config, s: State, b: nat)
    requires Shape(s) && b < |s.queues| && InOrder(cfg, s, b)
    ensures s.entered[b] <= Sendable(cfg, s.accepted)
    ensures Dispatched(s) ==> s.entered[b] == Sendable(cfg, s.accepted)
  {
    if Dispatched(s) {
      assert Sendable(cfg, s.dispatch) == [];
    }
    hide Sendable;
    Regroup(s.entered[b], Ahead(cfg, s.dispatchers[0], b), Sendable(cfg, s.dispatch), []);
  }

  /** Two jobs that encode stand among those in the order in which they were accepted. */
  lemma {:induction false} SendableOrder(cfg: Config, jobs: seq<Job>, i: nat, j: nat) returns (p: nat, q: nat)
    requires i < j < |jobs| && jobs[i].msg !in cfg.invalid && jobs[j].msg !in cfg.invalid
    ensures p < q < |Sendable(cfg, jobs)| && Sendable(cfg, jobs)[p] == jobs[i] && Sendable(cfg, jobs)[q] == jobs[j]
  {
    var last := |jobs| - 1;
    if j < last {
      p, q := SendableOrder(cfg, jobs[..last], i, j);
    } else {
      p := SendablePlace(cfg, jobs[..last], i);
      q := |Sendable(cfg, jobs[..last])|;
    }
  }

  lemma {:induction false} SendablePlace(cfg: Config, jobs: seq<Job>, i: nat) returns (p: nat)
    requires i < |jobs| && jobs[i].msg !in cfg.invalid
    ensures p < |Sendable(cfg, jobs)| && Sendable(cfg, jobs)[p] == jobs[i]
  {
    var last := |jobs| - 1;
    if i == last {
      p := |Sendable(cfg, jobs[..last])|;
    } else {
      p := SendablePlace(cfg, jobs[..last], i);
    }
  }

  /**
   With one dispatch worker, what was sent to a bucket is at every moment an initial part of the
   accepted jobs that encode, and all of them when no dispatch is under way.
   */
  lemma OneWorkerKeepsOrder(n: nat, m: nat, cfg: Config, run: seq<State>, steps: seq<Step>, i: nat, b: nat)
    requires IsRun(n, 1, m, cfg, run, steps) && i < |run| && b < n
    ensures Shape(run[i]) && |run[i].queues| == n && |run[i].dispatchers| == 1
    ensures run[i].entered[b] <= Sendable(cfg, run[i].accepted)
    ensures Dispatched(run[i]) ==> run[i].entered[b] == Sendable(cfg, run[i].accepted)
  {
    RunInOrder(n, m, cfg, run, steps, i, b);
    hide IsRun;
    OrderMeans(cfg, run[i], b);
  }

  lemma RunMore(n: nat, k: nat, m: nat, cfg: Config, run: seq<State>, steps: seq<Step>, step: Step)
    requires IsRun(n, k, m, cfg, run, steps) && Enabled(cfg, run[|run| - 1], step)
    ensures IsRun(n, k, m, cfg, run + [Next(cfg, run[|run| - 1], step)], steps + [step])
  {
    hide Enabled, Next;
  }

  ghost predicate Reached(n: nat, k: nat, m: nat, cfg: Config, s: State)
  {
    exists run: seq<State>, steps: seq<Step> :: IsRun(n, k, m, cfg, run, steps) && run[|run| - 1] == s
  }

  lemma ReachedNext(n: nat, k: nat, m: nat, cfg: Config, s: State, step: Step)
    requires Reached(n, k, m, cfg, s) && Enabled(cfg, s, step)
    ensures Reached(n, k, m, cfg, Next(cfg, s, step))
  {
    var run, steps :| IsRun(n, k, m, cfg, run, steps) && run[|run| - 1] == s;
    hide IsRun, Enabled, Next;
    RunMore(n, k, m, cfg, run, steps, step);
    var run' := run + [Next(cfg, s, step)];
    assert run'[|run'| - 1] == Next(cfg, s, step);
  }

  /** Two jobs were accepted, nothing was sent, and the second dispatcher is at p. */
  predicate TwoAccepted(s: State, n: nat, first: Msg, second: Msg)
  {
    && Shape(s) && |s.queues| == n > 0 && |s.dispatchers| >= 2
    && s.accepted == [Job(0, true, first), Job(1, true, second)]
    && s.queues[0] == [] && s.entered[0] == []
  }

  lemma BothReceived(n: nat, k: nat, m: nat, cfg: Config, first: Msg, second: Msg) returns (s: State)
    requires n > 0 && k >= 2 && cfg.dispatchSize >= 2
    ensures Reached(n, k, m, cfg, s) && TwoAccepted(s, n, first, second) && s.dispatchers[1] == Got(Job(1, true, second))
  {
    s := Start(n, k, m);
    assert Reached(n, k, m, cfg, s) by { assert IsRun(n, k, m, cfg, [s], []); }
    hide Reached;
    ReachedNext(n, k, m, cfg, s, Push(true, first));
    s := Next(cfg, s, Push(true, first));
    ReachedNext(n, k, m, cfg, s, Push(true, second));
    s := Next(cfg, s, Push(true, second));
    assert s.dispatch == [Job(0, true, first), Job(1, true, second)];
    ReachedNext(n, k, m, cfg, s, Receive(0));
    s := Next(cfg, s, Receive(0));
    ReachedNext(n, k, m, cfg, s, Receive(1));
    s := Next(cfg, s, Receive(1));
  }

  /** With two or more, the second job can be in a bucket's channel before the first. */
  lemma TwoWorkersOvertake(n: nat, k: nat, m: nat, cfg: Config, first: Msg, second: Msg)
    requires n > 0 && k >= 2 && cfg.dispatchSize >= 2 && cfg.jobSize >= 1 && second !in cfg.invalid
    ensures exists s ::
              && Reached(n, k, m, cfg, s) && Shape(s) && |s.queues| == n
              && s.accepted == [Job(0, true, first), Job(1, true, second)] && s.entered[0] == [Job(1, true, second)]
              && (first !in cfg.invalid ==> !(s.entered[0] <= Sendable(cfg, s.accepted)))
  {
    var s := BothReceived(n, k, m, cfg, first, second);
    hide Reached;
    ReachedNext(n, k, m, cfg, s, Encode(1));
    s := Next(cfg, s, Encode(1));
    ReachedNext(n, k, m, cfg, s, CountJob(1));
    s := Next(cfg, s, CountJob(1));
    ReachedNext(n, k, m, cfg, s, Send(1));
    s := Next(cfg, s, Send(1));
    TwoSendable(cfg, Job(0, true, first), Job(1, true, second));
  }

  lemma TwoSendable(cfg: Config, first: Job, second: Job)
    ensures first.msg !in cfg.invalid ==> Sendable(cfg, [first, second]) != [] && Sendable(cfg, [first, second])[0] == first
  {
    SendableMore(cfg, [], first);
    SendableMore(cfg, [first], second);
    assert [] + [first] == [first] && [first] + [second] == [first, second];
  }
}
