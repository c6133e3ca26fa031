/** The loops of the dispatch and job workers as code over the channels; every action is a step of FanOut. */
module FanOutWorkers {
  import opened FanOut

  class Channels {
    const cfg: Config
    var dispatchChan: seq<Job>
    var jobChan: seq<seq<Job>>
    var jobs: nat
    var dispatchPending: int
    var pushJobPending: int
    ghost const n: nat
    ghost const k: nat
    ghost const m: nat
    ghost var run: seq<State>
    ghost var steps: seq<Step>
    ghost var base: seq<State>

    ghost function Now(): State
      requires run != []
      reads this`run
    {
      run[|run| - 1]
    }

    ghost predicate OnRun()
      reads this`run, this`steps, this`base
    {
      IsRun(n, k, m, cfg, run, steps) && base <= run
    }

    /** The channels and counters are what a run has led to. */
    ghost predicate Valid()
      reads this
    {
      && run != [] && OnRun() && Shape(Now())
      && Now().dispatch == dispatchChan && Now().queues == jobChan && |Now().accepted| == jobs
      && Now().dispatchPending == dispatchPending && Now().pushJobPending == pushJobPending
    }

    ghost predicate Stands(d: nat, p: Dispatcher)
      requires run != []
      reads this`run
    {
      d < |Now().dispatchers| && Now().dispatchers[d] == p
    }

    constructor (cfg: Config, n: nat, ghost k: nat, ghost m: nat)
      ensures Valid() && this.cfg == cfg && dispatchChan == [] && |jobChan| == n
      ensures Now() == Start(n, k, m)
    {
      this.cfg, this.n, this.k, this.m := cfg, n, k, m;
      dispatchChan, jobChan, jobs, dispatchPending, pushJobPending := [], seq(n, _ => []), 0, 0, 0;
      run, steps, base := [Start(n, k, m)], [], [];
    }

    ghost method Do(step: Step)
      requires run != [] && OnRun() && Enabled(cfg, Now(), step)
      modifies this`run, this`steps
      ensures run != [] && OnRun() && Now() == Next(cfg, old(Now()), step)
    {
      hide Enabled, Next;
      run, steps := run + [Next(cfg, Now(), step)], steps + [step];
    }

    /** PushAll, or PushRoom when toAll is false; false for ErrDispatchChannelFull. */
    method Push(toAll: bool, msg: Msg) returns (ok: bool)
      requires Valid()
      modifies this
      ensures Valid() && old(run) <= run
      ensures ok == (|old(dispatchChan)| < cfg.dispatchSize)
      ensures dispatchChan == old(dispatchChan) + if ok then [Job(old(jobs), toAll, msg)] else []
      ensures dispatchPending == old(dispatchPending) + if ok && toAll then 1 else 0
      ensures jobChan == old(jobChan) && pushJobPending == old(pushJobPending)
    {
      base := run;
      assert OnRun();
      hide OnRun;
      ok := |dispatchChan| < cfg.dispatchSize;
      Do(FanOut.Push(toAll, msg));
      if ok {
        dispatchChan := dispatchChan + [Job(jobs, toAll, msg)];
        jobs := jobs + 1;
        if toAll {
          dispatchPending := dispatchPending + 1;
          Do(CountPush);
        }
      }
    }

    /** Receive and encode; failed when the message does not encode. */
    method ReceiveOne(ghost d: nat) returns (job: Job, failed: bool)
      requires Valid() && dispatchChan != [] && Stands(d, Waiting)
      modifies this`dispatchChan, this`dispatchPending, this`run, this`steps
      ensures Valid() && job == old(dispatchChan)[0] && dispatchChan == old(dispatchChan)[1..]
      ensures dispatchPending == old(dispatchPending) - 1
      ensures failed == (job.msg in cfg.invalid)
      ensures Stands(d, if failed then Waiting else Fanning(job, 0, false))
      ensures Now().taken == old(Now()).taken
    {
      hide OnRun;
      job := dispatchChan[0];
      dispatchChan := dispatchChan[1..];
      Do(Receive(d));
      dispatchPending := dispatchPending - 1;
      Do(Encode(d));
      failed := job.msg in cfg.invalid;
    }

    /** Count one job up and send it to one bucket. */
    method SendOne(job: Job, b: nat, ghost d: nat)
      requires Valid() && b < |jobChan| && Stands(d, Fanning(job, b, false)) && |jobChan[b]| < cfg.jobSize
      modifies this`jobChan, this`pushJobPending, this`run, this`steps
      ensures Valid() && Stands(d, Fanning(job, b + 1, false))
      ensures jobChan == old(jobChan)[b := old(jobChan)[b] + [job]] && pushJobPending == old(pushJobPending) + 1
    {
      hide OnRun;
      pushJobPending := pushJobPending + 1;
      Do(CountJob(d));
      jobChan := jobChan[b := jobChan[b] + [job]];
      Do(Send(d));
    }

    /**
     One turn of dispatchWorkerMain in which no send has to wait. A message that does not encode is
     dropped; any other goes to the end of every bucket's channel.
     */
    method DispatchTurn(ghost d: nat)
      requires Valid() && dispatchChan != [] && Stands(d, Waiting)
      requires forall b :: 0 <= b < |jobChan| ==> |jobChan[b]| < cfg.jobSize
      modifies this
      ensures Valid() && old(run) <= run && Stands(d, Waiting)
      ensures dispatchChan == old(dispatchChan)[1..] && |jobChan| == |old(jobChan)|
      ensures
        var job := old(dispatchChan)[0];
        forall b :: 0 <= b < |jobChan| ==> jobChan[b] == old(jobChan)[b] + if job.msg in cfg.invalid then [] else [job]
      ensures pushJobPending == old(pushJobPending) + if old(dispatchChan)[0].msg in cfg.invalid then 0 else |jobChan|
      ensures dispatchPending == old(dispatchPending) - 1
    {
      base := run;
      assert OnRun();
      hide OnRun;
      var job, failed := ReceiveOne(d);
      if failed {
        return;
      }
      var b := 0;
      while b < |jobChan|
        invariant 0 <= b <= |jobChan| == |old(jobChan)| && Valid() && Stands(d, Fanning(job, b, false))
        invariant forall i :: 0 <= i < |jobChan| ==> jobChan[i] == old(jobChan)[i] + if i < b then [job] else []
        invariant pushJobPending == old(pushJobPending) + b
        modifies this`jobChan, this`pushJobPending, this`run, this`steps
      {
        SendOne(job, b, d);
        b := b + 1;
      }
      Do(Finish(d));
    }

    /** One turn of jobWorkerMain; deliver tells whether the bucket pushes the job to its connections. */
    method JobTurn(b: nat, ghost w: nat) returns (job: Job, deliver: bool)
      requires Valid() && b < |jobChan| && jobChan[b] != []
      requires w < |Now().workers[b]| && Now().workers[b][w].Free?
      modifies this
      ensures Valid() && old(run) <= run
      ensures job == old(jobChan)[b][0] && deliver == job.toAll
      ensures jobChan == old(jobChan)[b := old(jobChan)[b][1..]]
      ensures pushJobPending == old(pushJobPending) - 1
      ensures dispatchChan == old(dispatchChan) && dispatchPending == old(dispatchPending)
    {
      base := run;
      assert OnRun();
      hide OnRun;
      job := jobChan[b][0];
      jobChan := jobChan[b := jobChan[b][1..]];
      Do(Take(b, w));
      pushJobPending := pushJobPending - 1;
      Do(Deliver(b, w));
      deliver := job.toAll;
    }
  }
}
