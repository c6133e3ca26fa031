/** The loop of the merge worker as code over its channels and timers; every action is a step of Merger. */
module MergeWorkers {
  import opened Basics
  import opened Merger

  class MergeWorker {
    const cfg: Config
    var contextChan: seq<Msg>
    var timeoutChan: seq<nat>
    var timers: set<nat>
    var fired: set<nat>
    var allBatch: Option<Batch>
    var made: nat
    var pushed: seq<Commit>
    var mergerPending: int
    var mergerAllTotal: int
    var mergerAllFail: int
    ghost var run: seq<State>
    ghost var steps: seq<Step>
    ghost var base: seq<State>

    ghost function Now(): State
      requires run != []
      reads this`run
    {
      run[|run| - 1]
    }

    ghost predicate OnRun()
      reads this`run, this`steps, this`base
    {
      IsRun(cfg, run, steps) && base <= run
    }

    /** The fields are what a run has led to, and the loop stands at pc. */
    ghost predicate At(pc: Pc)
      reads this
    {
      && run != [] && OnRun()
      && Now() == Now().(queue := contextChan, timeouts := timeoutChan, armed := timers, firing := fired, open := allBatch, next := made,
                         pc := pc, committed := pushed, pending := mergerPending, total := mergerAllTotal, failed := mergerAllFail)
    }

    ghost predicate Valid()
      reads this
    {
      At(Idle)
    }

    constructor (cfg: Config)
      ensures Valid() && this.cfg == cfg && contextChan == [] && timeoutChan == [] && pushed == []
    {
      this.cfg := cfg;
      contextChan, timeoutChan, timers, fired, allBatch, made, pushed := [], [], {}, {}, None, 0, [];
      mergerPending, mergerAllTotal, mergerAllFail := 0, 0, 0;
      run, steps, base := [EMPTY], [], [];
    }

    ghost method Do(step: Step)
      requires run != [] && OnRun() && Enabled(cfg, Now(), step)
      modifies this`run, this`steps
      ensures run != [] && OnRun() && Now() == Next(cfg, old(Now()), step)
    {
      hide Enabled, Next;
      run, steps := run + [Next(cfg, Now(), step)], steps + [step];
    }

    /** pushAll: the message is sent if there is room, and then counted. */
    method PushAll(msg: Msg) returns (ok: bool)
      requires Valid()
      modifies this
      ensures Valid() && old(run) <= run
      ensures ok == (|old(contextChan)| < cfg.channelSize)
      ensures contextChan == old(contextChan) + if ok then [msg] else []
      ensures mergerPending == old(mergerPending) + if ok then 1 else 0
      ensures Now().accepted == old(Now().accepted) + if ok then [msg] else []
    {
      base := run;
      hide IsRun;
      assert OnRun();
      hide OnRun;
      ok := |contextChan| < cfg.channelSize;
      Do(Enqueue(msg));
      if ok {
        contextChan := contextChan + [msg];
        mergerPending := mergerPending + 1;
        Do(CountEnqueued);
      }
    }

    /** The timer of a batch runs out: its autoCommit begins, in a goroutine of its own. */
    method FireTimer(id: nat)
      requires Valid() && id in timers
      modifies this
      ensures Valid() && old(run) <= run
      ensures timers == old(timers) - {id} && fired == old(fired) + {id}
      ensures contextChan == old(contextChan) && timeoutChan == old(timeoutChan) && allBatch == old(allBatch) && pushed == old(pushed)
    {
      base := run;
      hide IsRun;
      assert OnRun();
      hide OnRun;
      timers, fired := timers - {id}, fired + {id};
      Do(Fire(id));
    }

    /** autoCommit: the batch goes to the timeout channel as soon as there is room; until then it waits. */
    method AutoCommit(id: nat) returns (sent: bool)
      requires Valid() && id in fired
      modifies this
      ensures Valid() && old(run) <= run
      ensures sent == (|old(timeoutChan)| < cfg.channelSize)
      ensures timeoutChan == old(timeoutChan) + if sent then [id] else []
      ensures fired == old(fired) - if sent then {id} else {}
      ensures contextChan == old(contextChan) && timers == old(timers) && allBatch == old(allBatch) && pushed == old(pushed)
    {
      base := run;
      hide IsRun;
      assert OnRun();
      hide OnRun;
      sent := |timeoutChan| < cfg.channelSize;
      if sent {
        Do(Deliver(id));
        timeoutChan := timeoutChan + [id];
        fired := fired - {id};
      }
    }

    /** commitBatch: the open batch is given to PushAll; room tells whether it took it. */
    method CommitOpen(room: bool, ghost cause: Option<nat>) returns (failed: bool)
      requires At(Due(cause)) && allBatch.Some?
      modifies this`allBatch, this`pushed, this`run, this`steps
      ensures At(Reporting(|old(allBatch).value.items|, failed))
      ensures Marshals(cfg, old(allBatch).value.items) ==>
                allBatch == None && pushed == old(pushed) + [Commit(old(allBatch).value, room)] && failed == !room
      ensures !Marshals(cfg, old(allBatch).value.items) ==> failed && allBatch == old(allBatch) && pushed == old(pushed)
    {
      hide OnRun;
      Do(CommitBatch(room));
      var batch := allBatch.value;
      if !Marshals(cfg, batch.items) {
        return true;
      }
      allBatch := None;
      pushed := pushed + [Commit(batch, room)];
      return !room;
    }

    /** The end of a turn: commit, then the counters. */
    method CommitAndCount(room: bool, ghost cause: Option<nat>)
      requires At(Due(cause)) && allBatch.Some?
      modifies this`allBatch, this`pushed, this`run, this`steps, this`mergerAllTotal, this`mergerAllFail
      ensures Valid()
      ensures
        var items := old(allBatch).value.items;
        && mergerAllTotal == old(mergerAllTotal) + |items|
        && mergerAllFail == old(mergerAllFail) + if room && Marshals(cfg, items) then 0 else |items|
      ensures Marshals(cfg, old(allBatch).value.items) ==> allBatch == None && pushed == old(pushed) + [Commit(old(allBatch).value, room)]
      ensures !Marshals(cfg, old(allBatch).value.items) ==> allBatch == old(allBatch) && pushed == old(pushed)
    {
      var size := |allBatch.value.items|;
      var failed := CommitOpen(room, cause);
      hide OnRun, Marshals;
      Do(Report);
      mergerAllTotal := mergerAllTotal + size;
      if failed {
        mergerAllFail := mergerAllFail + size;
      }
    }

    /** One turn of mergeWorkerMain that begins with a message. */
    method OnContext(room: bool)
      requires Valid() && contextChan != []
      modifies this
      ensures Valid() && old(run) <= run
      ensures contextChan == old(contextChan)[1..] && timeoutChan == old(timeoutChan)
      ensures
        var items := (if old(allBatch).Some? then old(allBatch).value.items else []) + [old(contextChan)[0]];
        && (|items| < cfg.maxBatch || !Marshals(cfg, items) ==> pushed == old(pushed) && allBatch.Some? && allBatch.value.items == items)
        && (|items| >= cfg.maxBatch && Marshals(cfg, items) ==>
              allBatch == None && pushed == old(pushed) + [Commit(Batch(old(OpenId()), items), room)])
        && (allBatch.Some? ==> allBatch.value.id == old(OpenId()))
        && timers == (if |items| >= cfg.maxBatch then old(timers) - {old(OpenId())}
                      else if old(allBatch).None? then old(timers) + {old(OpenId())} else old(timers))
        && mergerAllTotal == old(mergerAllTotal) + (if |items| >= cfg.maxBatch then |items| else 0)
        && mergerAllFail == old(mergerAllFail) + (if |items| >= cfg.maxBatch && !(room && Marshals(cfg, items)) then |items| else 0)
      ensures mergerPending == old(mergerPending) - 1 && fired == old(fired)
    {
      base := run;
      hide IsRun, Marshals;
      assert OnRun();
      hide OnRun;
      var full := TakeOne();
      if full {
        CommitFull(room);
      }
    }

    /** A full batch: its timer is stopped, and it is committed at once. */
    method CommitFull(room: bool)
      requires At(Full) && allBatch.Some?
      modifies this`timers, this`allBatch, this`pushed, this`run, this`steps, this`mergerAllTotal, this`mergerAllFail
      ensures Valid()
      ensures timers == old(timers) - {old(allBatch).value.id}
      ensures
        var batch := old(allBatch).value;
        && mergerAllTotal == old(mergerAllTotal) + |batch.items|
        && mergerAllFail == old(mergerAllFail) + (if room && Marshals(cfg, batch.items) then 0 else |batch.items|)
        && (Marshals(cfg, batch.items) ==> allBatch == None && pushed == old(pushed) + [Commit(batch, room)])
        && (!Marshals(cfg, batch.items) ==> allBatch == old(allBatch) && pushed == old(pushed))
    {
      hide OnRun, Marshals;
      timers := timers - {allBatch.value.id};
      Do(StopTimer);
      CommitAndCount(room, None);
    }

    /** The batch that the next message goes to: the open one, or one to be made. */
    function OpenId(): nat
      reads this
    {
      if allBatch.Some? then allBatch.value.id else made
    }

    /** The turn up to the test of the batch's size. */
    method TakeOne() returns (full: bool)
      requires Valid() && contextChan != []
      modifies this`contextChan, this`mergerPending, this`allBatch, this`made, this`timers, this`run, this`steps
      ensures contextChan == old(contextChan)[1..]
      ensures
        var items := (if old(allBatch).Some? then old(allBatch).value.items else []) + [old(contextChan)[0]];
        allBatch == Some(Batch(old(OpenId()), items)) && full == (|items| >= cfg.maxBatch)
      ensures timers == old(timers) + if old(allBatch).None? then {old(OpenId())} else {}
      ensures mergerPending == old(mergerPending) - 1
      ensures At(if full then Full else Idle)
    {
      hide OnRun;
      var msg := TakeMessage();
      var isCreated := AddItem(msg);
      SetTimer(isCreated);
      Do(Size);
      full := |allBatch.value.items| >= cfg.maxBatch;
    }

    method TakeMessage() returns (msg: Msg)
      requires Valid() && contextChan != []
      modifies this`contextChan, this`mergerPending, this`run, this`steps
      ensures msg == old(contextChan)[0] && contextChan == old(contextChan)[1..]
      ensures At(Counted(msg)) && mergerPending == old(mergerPending) - 1
    {
      hide OnRun;
      msg := contextChan[0];
      contextChan := contextChan[1..];
      Do(Receive);
      mergerPending := mergerPending - 1;
      Do(CountReceived);
    }

    /** The message goes to the end of the open batch, or of a new one. */
    method AddItem(msg: Msg) returns (isCreated: bool)
      requires At(Counted(msg))
      modifies this`allBatch, this`made, this`run, this`steps
      ensures isCreated == old(allBatch).None? && At(Grown(isCreated)) && allBatch.Some?
      ensures allBatch.value.items == (if isCreated then [] else old(allBatch).value.items) + [msg]
      ensures allBatch.value.id == old(OpenId())
    {
      hide OnRun;
      assert [] + [msg] == [msg];
      isCreated := false;
      if allBatch.None? {
        allBatch := Some(Batch(made, []));
        made := made + 1;
        isCreated := true;
      }
      var batch := allBatch.value;
      allBatch := Some(batch.(items := batch.items + [msg]));
      Do(Add);
    }

    /** A new batch gets its timer. */
    method SetTimer(isCreated: bool)
      requires At(Grown(isCreated)) && allBatch.Some?
      modifies this`timers, this`run, this`steps
      ensures At(Sized)
      ensures timers == old(timers) + if isCreated then {allBatch.value.id} else {}
    {
      hide OnRun;
      if isCreated {
        timers := timers + {allBatch.value.id};
      }
      Do(Arm);
    }

    /** One turn of mergeWorkerMain that begins with a timeout: a stale one changes nothing else. */
    method OnTimeout(room: bool)
      requires Valid() && timeoutChan != []
      modifies this
      ensures Valid() && old(run) <= run
      ensures contextChan == old(contextChan) && timeoutChan == old(timeoutChan)[1..]
      ensures
        var stale := old(allBatch).None? || old(allBatch).value.id != old(timeoutChan)[0];
        && (stale || !Marshals(cfg, old(allBatch).value.items) ==> allBatch == old(allBatch) && pushed == old(pushed))
        && (!stale && Marshals(cfg, old(allBatch).value.items) ==>
              allBatch == None && pushed == old(pushed) + [Commit(old(allBatch).value, room)])
        && mergerAllTotal == old(mergerAllTotal) + (if stale then 0 else |old(allBatch).value.items|)
        && mergerAllFail == old(mergerAllFail) +
             (if stale || (room && Marshals(cfg, old(allBatch).value.items)) then 0 else |old(allBatch).value.items|)
      ensures timers == old(timers) && fired == old(fired) && made == old(made) && mergerPending == old(mergerPending)
    {
      base := run;
      hide IsRun, Marshals;
      assert OnRun();
      hide OnRun;
      var timeoutBatch, stale := TakeTimeout();
      if !stale {
        CommitAndCount(room, Some(timeoutBatch));
      }
    }

    /** A timeout is received; it is stale when its batch is not the open one. */
    method TakeTimeout() returns (timeoutBatch: nat, stale: bool)
      requires Valid() && timeoutChan != []
      modifies this`timeoutChan, this`run, this`steps
      ensures timeoutBatch == old(timeoutChan)[0] && timeoutChan == old(timeoutChan)[1..]
      ensures stale == (allBatch.None? || allBatch.value.id != timeoutBatch)
      ensures At(if stale then Idle else Due(Some(timeoutBatch)))
    {
      hide OnRun;
      timeoutBatch := timeoutChan[0];
      timeoutChan := timeoutChan[1..];
      Do(Timeout);
      stale := allBatch.None? || allBatch.value.id != timeoutBatch;
    }
  }
}
