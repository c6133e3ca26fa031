/**
 The fan-out of pkg/ws/connMgr.go: PushAll and PushRoom, any number of dispatch workers, and any
 number of job workers for each bucket, as single sends, receives and counter updates.
 */
module FanOut {
  import opened Basics

  type JobId = nat
  type Msg = string

  /** toAll is the type PushTypeAll; jobs are told apart by the order in which they were accepted. */
  datatype Job = Job(id: JobId, toAll: bool, msg: Msg)

  /** invalid: the messages that EncodeWsMessage rejects. */
  datatype Config = Config(dispatchSize: nat, jobSize: nat, invalid: set<Msg>)

  datatype Dispatcher =
    | Waiting
    | Got(job: Job)                              // received, DispatchPending not yet down
    | Fanning(job: Job, next: nat, counted: bool) // buckets below next have it; counted: PushJobPending is up for next

  datatype Worker = Free | Took(job: Job) // received, PushJobPending not yet down

  /**
   queues, entered and taken are indexed by bucket: what is in the channel, what was ever sent to
   it, and what was ever received from it. uncounted: PushAll jobs sent and not yet counted.
   */
  datatype State = State(
    dispatch: seq<Job>, dispatchers: seq<Dispatcher>, queues: seq<seq<Job>>, workers: seq<seq<Worker>>,
    dispatchPending: int, pushJobPending: int, uncounted: nat,
    accepted: seq<Job>, finished: seq<Job>, failed: seq<Job>, entered: seq<seq<Job>>, taken: seq<seq<Job>>)

  datatype Step =
    | Push(toAll: bool, msg: Msg)
    | CountPush
    | Receive(d: nat)
    | Encode(d: nat)
    | CountJob(d: nat)
    | Send(d: nat)
    | Finish(d: nat)
    | Take(b: nat, w: nat)
    | Deliver(b: nat, w: nat)

  /** n buckets, k dispatch workers, m job workers for each bucket. */
  function Start(n: nat, k: nat, m: nat): State
  {
    State([], seq(k, _ => Waiting), seq(n, _ => []), seq(n, _ => seq(m, _ => Free)),
          0, 0, 0, [], [], [], seq(n, _ => []), seq(n, _ => []))
  }

  predicate Shape(s: State)
  {
    |s.workers| == |s.queues| && |s.entered| == |s.queues| && |s.taken| == |s.queues|
  }

  predicate DispatcherEnabled(cfg: Config, s: State, step: Step, p: Dispatcher)
    requires Shape(s)
  {
    match step
    case Receive(_) => p.Waiting? && s.dispatch != []
    case Encode(_) => p.Got?
    case CountJob(_) => p.Fanning? && p.next < |s.queues| && !p.counted
    case Send(_) => p.Fanning? && p.next < |s.queues| && p.counted && |s.queues[p.next]| < cfg.jobSize
    case Finish(_) => p.Fanning? && p.next == |s.queues|
    case _ => false
  }

  predicate Enabled(cfg: Config, s: State, step: Step)
  {
    Shape(s) &&
    match step
    case Push(_, _) => true
    case CountPush => s.uncounted > 0
    case Take(b, w) => b < |s.queues| && w < |s.workers[b]| && s.workers[b][w].Free? && s.queues[b] != []
    case Deliver(b, w) => b < |s.queues| && w < |s.workers[b]| && s.workers[b][w].Took?
    case _ => step.d < |s.dispatchers| && DispatcherEnabled(cfg, s, step, s.dispatchers[step.d])
  }

  /** PushAll and PushRoom: a full channel refuses; only PushAll is going to be counted. */
  function NextPush(cfg: Config, s: State, toAll: bool, msg: Msg): State
  {
    if |s.dispatch| < cfg.dispatchSize then
      var job := Job(|s.accepted|, toAll, msg);
      s.(dispatch := s.dispatch + [job], accepted := s.accepted + [job], uncounted := s.uncounted + (if toAll then 1 else 0))
    else s
  }

  function SetDispatcher(s: State, d: nat, p: Dispatcher): State
    requires d < |s.dispatchers|
  {
    s.(dispatchers := s.dispatchers[d := p])
  }

  function NextDispatcher(cfg: Config, s: State, step: Step, d: nat): State
    requires Shape(s) && d < |s.dispatchers| && DispatcherEnabled(cfg, s, step, s.dispatchers[d])
  {
    var p := s.dispatchers[d];
    match step
    case Receive(_) => SetDispatcher(s, d, Got(s.dispatch[0])).(dispatch := s.dispatch[1..])
    case Encode(_) =>
      var s' := s.(dispatchPending := s.dispatchPending - 1);
      if p.job.msg in cfg.invalid then SetDispatcher(s', d, Waiting).(failed := s.failed + [p.job])
      else SetDispatcher(s', d, Fanning(p.job, 0, false))
    case CountJob(_) => SetDispatcher(s, d, p.(counted := true)).(pushJobPending := s.pushJobPending + 1)
    case Send(_) =>
      SetDispatcher(s, d, Fanning(p.job, p.next + 1, false))
        .(queues := s.queues[p.next := s.queues[p.next] + [p.job]],
          entered := s.entered[p.next := s.entered[p.next] + [p.job]])
    case Finish(_) => SetDispatcher(s, d, Waiting).(finished := s.finished + [p.job])
  }

  function SetWorker(s: State, b: nat, w: nat, p: Worker): State
    requires b < |s.workers| && w < |s.workers[b]|
  {
    s.(workers := s.workers[b := s.workers[b][w := p]])
  }

  function NextTake(s: State, b: nat, w: nat): State
    requires Shape(s) && b < |s.queues| && w < |s.workers[b]| && s.queues[b] != []
  {
    var job := s.queues[b][0];
    SetWorker(s, b, w, Took(job)).(queues := s.queues[b := s.queues[b][1..]], taken := s.taken[b := s.taken[b] + [job]])
  }

  function Next(cfg: Config, s: State, step: Step): State
    requires Enabled(cfg, s, step)
  {
    match step
    case Push(toAll, msg) => NextPush(cfg, s, toAll, msg)
    case CountPush => s.(dispatchPending := s.dispatchPending + 1, uncounted := s.uncounted - 1)
    case Take(b, w) => NextTake(s, b, w)
    case Deliver(b, w) => SetWorker(s, b, w, Free).(pushJobPending := s.pushJobPending - 1)
    case _ => NextDispatcher(cfg, s, step, step.d)
  }

  ghost predicate IsRun(n: nat, k: nat, m: nat, cfg: Config, run: seq<State>, steps: seq<Step>)
  {
    && |run| == |steps| + 1
    && run[0] == Start(n, k, m)
    && forall i :: 0 <= i < |steps| ==> Enabled(cfg, run[i], steps[i]) && run[i + 1] == Next(cfg, run[i], steps[i])
  }

  // ----- sums over workers and queues -----

  function Count(jobs: seq<Job>, job: Job): nat
  {
    multiset(jobs)[job]
  }

  lemma CountMore(jobs: seq<Job>, more: Job, job: Job)
    ensures Count(jobs + [more], job) == Count(jobs, job) + One(more == job)
  {}

  lemma CountTail(jobs: seq<Job>, job: Job)
    requires jobs != []
    ensures Count(jobs, job) == One(jobs[0] == job) + Count(jobs[1..], job)
  {
    assert jobs == [jobs[0]] + jobs[1..];
  }

  /** How many dispatchers have this job in hand and have given it to the buckets up to b; b is -1 for any. */
  function Holding(ds: seq<Dispatcher>, b: int, job: Job): nat
  {
    if ds == [] then 0 else Holding(ds[..|ds| - 1], b, job) + Held(ds[|ds| - 1], b, job)
  }

  function Held(p: Dispatcher, b: int, job: Job): nat
  {
    match p
    case Waiting => 0
    case Got(j) => One(j == job && b < 0)
    case Fanning(j, next, _) => One(j == job && b < next)
  }

  lemma {:induction false} HoldingUpdate(ds: seq<Dispatcher>, d: nat, p: Dispatcher, b: int, job: Job)
    requires d < |ds|
    ensures Holding(ds[d := p], b, job) == Holding(ds, b, job) - Held(ds[d], b, job) + Held(p, b, job)
    ensures Held(ds[d], b, job) <= Holding(ds, b, job)
  {
    var n := |ds| - 1;
    if d == n {
      assert ds[d := p][..n] == ds[..n];
    } else {
      assert ds[d := p][..n] == ds[..n][d := p];
      HoldingUpdate(ds[..n], d, p, b, job);
    }
  }

  /** Dispatchers that have counted a job up for a bucket they have not sent it to; those that have not counted one down. */
  function Counting(ds: seq<Dispatcher>): nat
  {
    if ds == [] then 0 else Counting(ds[..|ds| - 1]) + One(ds[|ds| - 1].Fanning? && ds[|ds| - 1].counted)
  }

  function Receiving(ds: seq<Dispatcher>): nat
  {
    if ds == [] then 0 else Receiving(ds[..|ds| - 1]) + One(ds[|ds| - 1].Got?)
  }

  lemma {:induction false} DispatcherUpdate(ds: seq<Dispatcher>, d: nat, p: Dispatcher)
    requires d < |ds|
    ensures Counting(ds[d := p]) == Counting(ds) - One(ds[d].Fanning? && ds[d].counted) + One(p.Fanning? && p.counted)
    ensures Receiving(ds[d := p]) == Receiving(ds) - One(ds[d].Got?) + One(p.Got?)
  {
    var n := |ds| - 1;
    if d == n {
      assert ds[d := p][..n] == ds[..n];
    } else {
      assert ds[d := p][..n] == ds[..n][d := p];
      DispatcherUpdate(ds[..n], d, p);
    }
  }

  function Busy(ws: seq<Worker>): nat
  {
    if ws == [] then 0 else Busy(ws[..|ws| - 1]) + One(ws[|ws| - 1].Took?)
  }

  lemma {:induction false} BusyUpdate(ws: seq<Worker>, w: nat, p: Worker)
    requires w < |ws|
    ensures Busy(ws[w := p]) == Busy(ws) - One(ws[w].Took?) + One(p.Took?)
  {
    var n := |ws| - 1;
    if w == n {
      assert ws[w := p][..n] == ws[..n];
    } else {
      assert ws[w := p][..n] == ws[..n][w := p];
      BusyUpdate(ws[..n], w, p);
    }
  }

  /** Jobs in the channels, and jobs with a worker that has not counted them down. */
  function Waiters(queues: seq<seq<Job>>, workers: seq<seq<Worker>>): nat
    requires |queues| == |workers|
  {
    if queues == [] then 0
    else
      var n := |queues| - 1;
      Waiters(queues[..n], workers[..n]) + |queues[n]| + Busy(workers[n])
  }

  lemma {:induction false} WaitersUpdate(queues: seq<seq<Job>>, workers: seq<seq<Worker>>, b: nat, q: seq<Job>, ws: seq<Worker>)
    requires |queues| == |workers| && b < |queues|
    ensures Waiters(queues[b := q], workers[b := ws]) == Waiters(queues, workers) - |queues[b]| - Busy(workers[b]) + |q| + Busy(ws)
  {
    var n := |queues| - 1;
    if b == n {
      assert queues[b := q][..n] == queues[..n] && workers[b := ws][..n] == workers[..n];
    } else {
      assert queues[b := q][..n] == queues[..n][b := q] && workers[b := ws][..n] == workers[..n][b := ws];
      WaitersUpdate(queues[..n], workers[..n], b, q, ws);
    }
  }

  // ----- what is kept -----

  /** Every accepted job is in one place: waiting, with a dispatcher, finished or failed. */
  predicate Placed(s: State, job: Job)
  {
    Count(s.accepted, job) == Count(s.dispatch, job) + Holding(s.dispatchers, -1, job) + Count(s.finished, job) + Count(s.failed, job)
  }

  /** A bucket was sent the finished jobs, and those whose dispatcher is past it. */
  predicate Sent(s: State, b: nat, job: Job)
    requires Shape(s) && b < |s.queues|
  {
    Count(s.entered[b], job) == Count(s.finished, job) + Holding(s.dispatchers, b, job)
  }

  /** A channel hands on what it was sent, in order. */
  predicate Fifo(s: State, b: nat)
    requires Shape(s) && b < |s.queues|
  {
    s.entered[b] == s.taken[b] + s.queues[b]
  }

  predicate Numbered(s: State)
  {
    forall i :: 0 <= i < |s.accepted| ==> s.accepted[i].id == i
  }

  predicate DispatchersOk(s: State)
  {
    forall d :: 0 <= d < |s.dispatchers| ==>
                  s.dispatchers[d].Fanning? ==>
                    s.dispatchers[d].next <= |s.queues| && (s.dispatchers[d].counted ==> s.dispatchers[d].next < |s.queues|)
  }

  /** The jobs of PushRoom: received like others, but never counted up. */
  function RoomJobs(jobs: seq<Job>): nat
  {
    if jobs == [] then 0 else RoomJobs(jobs[..|jobs| - 1]) + One(!jobs[|jobs| - 1].toAll)
  }

  predicate CountsOk(s: State)
    requires Shape(s)
  {
    && s.pushJobPending == Waiters(s.queues, s.workers) + Counting(s.dispatchers)
    && s.dispatchPending == |s.dispatch| + Receiving(s.dispatchers) - s.uncounted - RoomJobs(s.accepted)
  }

  predicate FailedOk(cfg: Config, s: State)
  {
    && (forall job :: job in s.failed ==> job.msg in cfg.invalid)
    && (forall job :: job in s.finished ==> job.msg !in cfg.invalid)
    && (forall d :: 0 <= d < |s.dispatchers| && s.dispatchers[d].Fanning? ==> s.dispatchers[d].job.msg !in cfg.invalid)
  }

  ghost predicate Inv(cfg: Config, s: State)
  {
    && Shape(s) && Numbered(s) && DispatchersOk(s) && FailedOk(cfg, s) && CountsOk(s)
    && (forall job :: Placed(s, job))
    && (forall b :: 0 <= b < |s.queues| ==> Fifo(s, b))
    && (forall b, job :: 0 <= b < |s.queues| ==> Sent(s, b, job))
  }

  predicate ByDispatcher(step: Step)
  {
    step.Receive? || step.Encode? || step.CountJob? || step.Send? || step.Finish?
  }

  lemma PlacedKeeps(cfg: Config, s: State, step: Step, job: Job)
    requires Placed(s, job) && Enabled(cfg, s, step)
    ensures Placed(Next(cfg, s, step), job)
  {
    hide Count, Holding;
    if ByDispatcher(step) {
      var s' := Next(cfg, s, step);
      var p := s.dispatchers[step.d];
      HoldingUpdate(s.dispatchers, step.d, s'.dispatchers[step.d], -1, job);
      match step
      case Receive(_) => CountTail(s.dispatch, job);
      case Encode(_) => CountMore(s.failed, p.job, job);
      case Finish(_) => CountMore(s.finished, p.job, job);
      case _ =>
    } else if step.Push? {
      var more := Job(|s.accepted|, step.toAll, step.msg);
      CountMore(s.accepted, more, job);
      CountMore(s.dispatch, more, job);
    }
  }

  lemma SentKeeps(cfg: Config, s: State, step: Step, b: nat, job: Job)
    requires Enabled(cfg, s, step) && b < |s.queues| && Sent(s, b, job)
    ensures Shape(Next(cfg, s, step)) && |Next(cfg, s, step).queues| == |s.queues| && Sent(Next(cfg, s, step), b, job)
  {
    hide Count, Holding;
    if ByDispatcher(step) {
      var s' := Next(cfg, s, step);
      var p := s.dispatchers[step.d];
      HoldingUpdate(s.dispatchers, step.d, s'.dispatchers[step.d], b, job);
      if step.Send? {
        CountMore(s.entered[p.next], p.job, job);
      } else if step.Finish? {
        CountMore(s.finished, p.job, job);
      }
    }
  }

  lemma FifoKeeps(cfg: Config, s: State, step: Step, b: nat)
    requires Enabled(cfg, s, step) && b < |s.queues| && Fifo(s, b)
    ensures Shape(Next(cfg, s, step)) && |Next(cfg, s, step).queues| == |s.queues| && Fifo(Next(cfg, s, step), b)
  {
    if step.Send? {
      Append(s.taken[b], s.queues[b], s.dispatchers[step.d].job);
    } else if step.Take? && step.b == b {
      TakeFirst(s.taken[b], s.queues[b]);
    }
  }

  lemma Append(taken: seq<Job>, queue: seq<Job>, job: Job)
    ensures taken + queue + [job] == taken + (queue + [job])
  {}

  lemma TakeFirst(taken: seq<Job>, queue: seq<Job>)
    requires queue != []
    ensures taken + [queue[0]] + queue[1..] == taken + queue
  {}

  lemma RoomJobsMore(jobs: seq<Job>, job: Job)
    ensures RoomJobs(jobs + [job]) == RoomJobs(jobs) + One(!job.toAll)
  {
    assert (jobs + [job])[..|jobs|] == jobs;
  }

  lemma CountsKeep(cfg: Config, s: State, step: Step)
    requires Enabled(cfg, s, step) && CountsOk(s) && DispatchersOk(s)
    ensures Shape(Next(cfg, s, step)) && CountsOk(Next(cfg, s, step))
  {
    hide Waiters, Counting, Receiving, RoomJobs, Busy;
    match step
    case Push(toAll, msg) => RoomJobsMore(s.accepted, Job(|s.accepted|, toAll, msg));
    case CountPush =>
    case Take(b, w) => WorkerCounts(cfg, s, step);
    case Deliver(b, w) => WorkerCounts(cfg, s, step);
    case _ => DispatcherCounts(cfg, s, step);
  }

  lemma WorkerCounts(cfg: Config, s: State, step: Step)
    requires Enabled(cfg, s, step) && CountsOk(s) && (step.Take? || step.Deliver?)
    ensures Shape(Next(cfg, s, step)) && CountsOk(Next(cfg, s, step))
  {
    hide Waiters, Counting, Receiving, RoomJobs, Busy;
    var s' := Next(cfg, s, step);
    var b, w := step.b, step.w;
    BusyUpdate(s.workers[b], w, s'.workers[b][w]);
    WaitersUpdate(s.queues, s.workers, b, s'.queues[b], s'.workers[b]);
    if step.Deliver? {
      assert s.queues[b := s.queues[b]] == s.queues;
    }
  }

  lemma DispatcherCounts(cfg: Config, s: State, step: Step)
    requires Enabled(cfg, s, step) && CountsOk(s) && DispatchersOk(s) && ByDispatcher(step)
    ensures Shape(Next(cfg, s, step)) && CountsOk(Next(cfg, s, step))
  {
    hide Waiters, Counting, Receiving, RoomJobs, Busy;
    var s' := Next(cfg, s, step);
    DispatcherUpdate(s.dispatchers, step.d, s'.dispatchers[step.d]);
    if step.Send? {
      var b := s.dispatchers[step.d].next;
      WaitersUpdate(s.queues, s.workers, b, s'.queues[b], s.workers[b]);
      assert s.workers[b := s.workers[b]] == s.workers;
    }
  }

  lemma RestKeeps(cfg: Config, s: State, step: Step)
    requires Enabled(cfg, s, step) && Numbered(s) && DispatchersOk(s) && FailedOk(cfg, s)
    ensures Shape(Next(cfg, s, step)) && Numbered(Next(cfg, s, step)) && DispatchersOk(Next(cfg, s, step)) && FailedOk(cfg, Next(cfg, s, step))
  {}

  lemma StepKeeps(cfg: Config, s: State, step: Step)
    requires Inv(cfg, s) && Enabled(cfg, s, step)
    ensures Inv(cfg, Next(cfg, s, step)) && |Next(cfg, s, step).queues| == |s.queues|
  {
    hide Placed, Numbered, DispatchersOk, FailedOk, CountsOk, Sent, Fifo, Next, Enabled;
    RestKeeps(cfg, s, step);
    CountsKeep(cfg, s, step);
    SameWidth(cfg, s, step);
    forall job
      ensures Placed(Next(cfg, s, step), job)
    {
      PlacedKeeps(cfg, s, step, job);
    }
    forall b | 0 <= b < |s.queues|
      ensures Fifo(Next(cfg, s, step), b)
    {
      FifoKeeps(cfg, s, step, b);
    }
    forall b, job | 0 <= b < |s.queues|
      ensures Sent(Next(cfg, s, step), b, job)
    {
      SentKeeps(cfg, s, step, b, job);
    }
  }

  lemma SameWidth(cfg: Config, s: State, step: Step)
    requires Enabled(cfg, s, step)
    ensures |Next(cfg, s, step).queues| == |s.queues|
  {}

  lemma {:induction false} StartSums(n: nat, k: nat, m: nat, b: int, job: Job)
    ensures Holding(seq(k, _ => Waiting), b, job) == 0
    ensures Counting(seq(k, _ => Waiting)) == 0 && Receiving(seq(k, _ => Waiting)) == 0
    ensures Waiters(seq(n, _ => []), seq(n, _ => seq(m, _ => Free))) == 0
    ensures Busy(seq(m, _ => Free)) == 0
    decreases k + n + m
  {
    if k + n + m == 0 {
    } else if k > 0 {
      var ds: seq<Dispatcher> := seq(k, _ => Waiting);
      assert ds[..k - 1] == seq(k - 1, _ => Waiting);
      StartSums(n, k - 1, m, b, job);
    } else if m > 0 && n == 0 {
      var ws: seq<Worker> := seq(m, _ => Free);
      assert ws[..m - 1] == seq(m - 1, _ => Free);
      StartSums(n, k, m - 1, b, job);
    } else if n > 0 {
      var qs: seq<seq<Job>> := seq(n, _ => []);
      var ws: seq<seq<Worker>> := seq(n, _ => seq(m, _ => Free));
      assert qs[..n - 1] == seq(n - 1, _ => []);
      assert ws[..n - 1] == seq(n - 1, _ => seq(m, _ => Free));
      StartSums(n - 1, k, m, b, job);
    }
  }

  lemma StartInv(n: nat, k: nat, m: nat, cfg: Config)
    ensures Inv(cfg, Start(n, k, m))
  {
    var s := Start(n, k, m);
    StartSums(n, k, m, -1, Job(0, true, ""));
    forall job
      ensures Placed(s, job)
    {
      StartSums(n, k, m, -1, job);
    }
    forall b, job | 0 <= b < n
      ensures Sent(s, b, job)
    {
      StartSums(n, k, m, b, job);
    }
  }

  lemma {:induction false} RunInv(n: nat, k: nat, m: nat, cfg: Config, run: seq<State>, steps: seq<Step>, i: nat)
    requires IsRun(n, k, m, cfg, run, steps) && i < |run|
    ensures Inv(cfg, run[i]) && |run[i].queues| == n
  {
    hide Inv, Next, Enabled;
    if i == 0 {
      StartInv(n, k, m, cfg);
    } else {
      RunInv(n, k, m, cfg, run, steps, i - 1);
      assert Enabled(cfg, run[i - 1], steps[i - 1]) && run[i - 1 + 1] == Next(cfg, run[i - 1], steps[i - 1]);
      StepKeeps(cfg, run[i - 1], steps[i - 1]);
    }
  }

  // ----- what a run promises -----

  /** A job number was given out once. */
  lemma AcceptedOnce(jobs: seq<Job>, job: Job)
    requires forall i :: 0 <= i < |jobs| ==> jobs[i].id == i
    ensures Count(jobs, job) <= 1
  {
    if job in jobs {
      var i :| 0 <= i < |jobs| && jobs[i] == job;
      assert jobs == jobs[..i] + [job] + jobs[i + 1..];
      assert job !in jobs[..i] && job !in jobs[i + 1..];
    }
  }

  /**
   When its dispatch is finished a job has been sent to every bucket exactly once; a job that does
   not encode is sent to none; and no job is ever sent to a bucket twice.
   */
  lemma SentExactlyOnce(n: nat, k: nat, m: nat, cfg: Config, run: seq<State>, steps: seq<Step>, i: nat, b: nat, job: Job)
    requires IsRun(n, k, m, cfg, run, steps) && i < |run| && b < n
    ensures |run[i].entered| == n
    ensures Count(run[i].entered[b], job) <= 1
    ensures job in run[i].finished ==> Count(run[i].entered[b], job) == 1
    ensures job in run[i].failed ==> job !in run[i].entered[b] && job.msg in cfg.invalid
    ensures job in run[i].dispatch ==> job !in run[i].entered[b]
  {
    RunInv(n, k, m, cfg, run, steps, i);
    var s := run[i];
    AcceptedOnce(s.accepted, job);
    HoldingLess(s.dispatchers, b, job);
    assert Sent(s, b, job) && Placed(s, job);
  }

  lemma {:induction false} HoldingLess(ds: seq<Dispatcher>, b: nat, job: Job)
    ensures Holding(ds, b, job) <= Holding(ds, -1, job)
  {
    if ds == [] {
    } else {
      HoldingLess(ds[..|ds| - 1], b, job);
    }
  }

  /** PushJobPending is the number of jobs in the channels, but for jobs between a counter and its channel. */
  lemma PendingIsQueued(n: nat, k: nat, m: nat, cfg: Config, run: seq<State>, steps: seq<Step>, i: nat)
    requires IsRun(n, k, m, cfg, run, steps) && i < |run|
    ensures |run[i].queues| == |run[i].workers|
    ensures run[i].pushJobPending == Waiters(run[i].queues, run[i].workers) + Counting(run[i].dispatchers)
  {
    RunInv(n, k, m, cfg, run, steps, i);
  }

  /** DispatchPending runs behind by one for every PushRoom job ever accepted; without them it is exact. */
  lemma DispatchPendingDrifts(n: nat, k: nat, m: nat, cfg: Config, run: seq<State>, steps: seq<Step>, i: nat)
    requires IsRun(n, k, m, cfg, run, steps) && i < |run|
    ensures run[i].dispatchPending == |run[i].dispatch| + Receiving(run[i].dispatchers) - run[i].uncounted - RoomJobs(run[i].accepted)
  {
    RunInv(n, k, m, cfg, run, steps, i);
  }

  /** No dispatch is under way. */
  predicate Dispatched(s: State)
  {
    s.dispatch == [] && forall d :: 0 <= d < |s.dispatchers| ==> s.dispatchers[d].Waiting?
  }

  lemma DispatchedMeans(cfg: Config, s: State, b: nat, job: Job)
    requires Inv(cfg, s) && Dispatched(s) && b < |s.queues|
    ensures job in s.accepted ==> Count(s.taken[b] + s.queues[b], job) == One(job.msg !in cfg.invalid)
    ensures s.entered[b] == s.taken[b] + s.queues[b]
  {
    AcceptedOnce(s.accepted, job);
    NoneHeld(s.dispatchers, b, job);
    NoneHeld(s.dispatchers, -1, job);
    assert Sent(s, b, job) && Placed(s, job) && Fifo(s, b);
  }

  /**
   When no dispatch is under way, every accepted job that encodes has been sent to every bucket
   once, and the others failed; each bucket's workers have taken what is not in its channel, in order.
   */
  lemma AllSent(n: nat, k: nat, m: nat, cfg: Config, run: seq<State>, steps: seq<Step>, i: nat, b: nat, job: Job)
    requires IsRun(n, k, m, cfg, run, steps) && i < |run| && b < n && Dispatched(run[i])
    ensures Shape(run[i]) && |run[i].queues| == n
    ensures job in run[i].accepted ==> Count(run[i].taken[b] + run[i].queues[b], job) == One(job.msg !in cfg.invalid)
    ensures run[i].entered[b] == run[i].taken[b] + run[i].queues[b]
  {
    RunInv(n, k, m, cfg, run, steps, i);
    DispatchedMeans(cfg, run[i], b, job);
  }

  lemma {:induction false} NoneHeld(ds: seq<Dispatcher>, b: int, job: Job)
    requires forall d :: 0 <= d < |ds| ==> ds[d].Waiting?
    ensures Holding(ds, b, job) == 0
  {
    if ds == [] {
    } else {
      NoneHeld(ds[..|ds| - 1], b, job);
    }
  }
}
