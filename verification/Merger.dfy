/**
 The batching worker of pkg/ws/merger.go: producers, the worker's own loop and its timers, each
 action one step. Batches are told apart by the order in which they were made, where the code compares addresses.
 */
module Merger {
  import opened Basics

  type Msg = string

  datatype Batch = Batch(id: nat, items: seq<Msg>)

  /** A batch handed to PushAll; pushed is false when the dispatch channel was full. */
  datatype Commit = Commit(batch: Batch, pushed: bool)

  /** invalid: the raw messages that json.Marshal rejects. */
  datatype Config = Config(maxBatch: int, channelSize: nat, invalid: set<Msg>)

  /** Where the loop of the worker stands. */
  datatype Pc =
    | Idle
    | Taken(msg: Msg)                    // received, not yet counted
    | Counted(msg: Msg)                  // MergerPending is down by one
    | Grown(created: bool)               // the item is in the batch
    | Sized                              // a new batch has its timer
    | Full                               // before commitTimer.Stop
    | Due(cause: Option<nat>)            // before commitBatch; cause is the timeout that led here
    | Reporting(size: nat, failed: bool) // before the counters

  datatype State = State(
    queue: seq<Msg>, timeouts: seq<nat>, armed: set<nat>, firing: set<nat>,
    open: Option<Batch>, next: nat, pc: Pc,
    accepted: seq<Msg>, committed: seq<Commit>,
    pending: int, uncounted: nat, total: int, failed: int)

  const EMPTY := State([], [], {}, {}, None, 0, Idle, [], [], 0, 0, 0, 0)

  datatype Step =
    | Enqueue(msg: Msg)
    | CountEnqueued
    | Receive
    | CountReceived
    | Add
    | Arm
    | Size
    | StopTimer
    | CommitBatch(room: bool)
    | Report
    | Fire(id: nat)
    | Deliver(id: nat)
    | Timeout

  predicate Marshals(cfg: Config, items: seq<Msg>)
  {
    forall m :: m in items ==> m !in cfg.invalid
  }

  predicate Enabled(cfg: Config, s: State, step: Step)
  {
    match step
    case Enqueue(_) => true
    case CountEnqueued => s.uncounted > 0
    case Receive => s.pc.Idle? && s.queue != []
    case CountReceived => s.pc.Taken?
    case Add => s.pc.Counted?
    case Arm => s.pc.Grown?
    case Size => s.pc.Sized?
    case StopTimer => s.pc.Full?
    case CommitBatch(_) => s.pc.Due?
    case Report => s.pc.Reporting?
    case Fire(id) => id in s.armed
    case Deliver(id) => id in s.firing && |s.timeouts| < cfg.channelSize
    case Timeout => s.pc.Idle? && s.timeouts != []
  }

  /** pushAll: a full channel refuses the message. */
  function NextEnqueue(cfg: Config, s: State, msg: Msg): State
  {
    if |s.queue| < cfg.channelSize then
      s.(queue := s.queue + [msg], accepted := s.accepted + [msg], uncounted := s.uncounted + 1)
    else s
  }

  function NextAdd(s: State): State
    requires s.pc.Counted?
  {
    if s.open.None? then s.(open := Some(Batch(s.next, [s.pc.msg])), next := s.next + 1, pc := Grown(true))
    else s.(open := Some(s.open.value.(items := s.open.value.items + [s.pc.msg])), pc := Grown(false))
  }

  function NextArm(s: State): State
    requires s.pc.Grown?
  {
    if s.pc.created && s.open.Some? then s.(armed := s.armed + {s.open.value.id}, pc := Sized)
    else s.(pc := Sized)
  }

  function NextSize(cfg: Config, s: State): State
  {
    if s.open.Some? && |s.open.value.items| < cfg.maxBatch then s.(pc := Idle) else s.(pc := Full)
  }

  /** Stop has no effect on a timer that has fired. */
  function NextStopTimer(s: State): State
  {
    s.(armed := if s.open.Some? then s.armed - {s.open.value.id} else s.armed, pc := Due(None))
  }

  /** commitBatch: when the items do not marshal, the batch stays open. */
  function NextCommit(cfg: Config, s: State, room: bool): State
  {
    if s.open.None? then s.(pc := Idle)
    else
      var b := s.open.value;
      if !Marshals(cfg, b.items) then s.(pc := Reporting(|b.items|, true))
      else s.(open := None, committed := s.committed + [Commit(b, room)], pc := Reporting(|b.items|, !room))
  }

  /** A timeout counts only for the batch that is open now. */
  function NextTimeout(s: State): State
    requires s.timeouts != []
  {
    var s' := s.(timeouts := s.timeouts[1..]);
    if s.open.Some? && s.open.value.id == s.timeouts[0] then s'.(pc := Due(Some(s.timeouts[0]))) else s'
  }

  function Next(cfg: Config, s: State, step: Step): State
    requires Enabled(cfg, s, step)
  {
    match step
    case Enqueue(msg) => NextEnqueue(cfg, s, msg)
    case CountEnqueued => s.(pending := s.pending + 1, uncounted := s.uncounted - 1)
    case Receive => s.(queue := s.queue[1..], pc := Taken(s.queue[0]))
    case CountReceived => s.(pending := s.pending - 1, pc := Counted(s.pc.msg))
    case Add => NextAdd(s)
    case Arm => NextArm(s)
    case Size => NextSize(cfg, s)
    case StopTimer => NextStopTimer(s)
    case CommitBatch(room) => NextCommit(cfg, s, room)
    case Report =>
      s.(total := s.total + s.pc.size, failed := s.failed + (if s.pc.failed then s.pc.size else 0), pc := Idle)
    case Fire(id) => s.(armed := s.armed - {id}, firing := s.firing + {id})
    case Deliver(id) => s.(firing := s.firing - {id}, timeouts := s.timeouts + [id])
    case Timeout => NextTimeout(s)
  }

  ghost predicate IsRun(cfg: Config, run: seq<State>, steps: seq<Step>)
  {
    && |run| == |steps| + 1
    && run[0] == EMPTY
    && forall i :: 0 <= i < |steps| ==> Enabled(cfg, run[i], steps[i]) && run[i + 1] == Next(cfg, run[i], steps[i])
  }

  // ----- what is kept -----

  /** The messages of all committed batches, in order. */
  function Flat(commits: seq<Commit>): seq<Msg>
  {
    if commits == [] then []
    else Flat(commits[..|commits| - 1]) + commits[|commits| - 1].batch.items
  }

  lemma FlatMore(commits: seq<Commit>, c: Commit)
    ensures Flat(commits + [c]) == Flat(commits) + c.batch.items
  {
    assert (commits + [c])[..|commits|] == commits;
  }

  function OpenItems(s: State): seq<Msg>
  {
    if s.open.Some? then s.open.value.items else []
  }

  function InHand(s: State): seq<Msg>
  {
    match s.pc
    case Taken(msg) => [msg]
    case Counted(msg) => [msg]
    case _ => []
  }

  /** Items of commits that PushAll refused. */
  function Refused(commits: seq<Commit>): nat
  {
    if commits == [] then 0
    else
      var c := commits[|commits| - 1];
      Refused(commits[..|commits| - 1]) + if c.pushed then 0 else |c.batch.items|
  }

  predicate InOrder(s: State)
  {
    s.accepted == Flat(s.committed) + OpenItems(s) + InHand(s) + s.queue
  }

  ghost predicate IdsOk(s: State)
  {
    && (forall k :: 0 <= k < |s.committed| ==> s.committed[k].batch.id < s.next)
    && (forall j, k :: 0 <= j < k < |s.committed| ==> s.committed[j].batch.id < s.committed[k].batch.id)
    && (s.open.Some? ==>
          && s.open.value.id < s.next
          && forall k :: 0 <= k < |s.committed| ==> s.committed[k].batch.id < s.open.value.id)
    && (forall id: nat :: Timed(s, id) ==> id < s.next)
  }

  /** Where the timer of a batch can be: not yet fired, fired, or in the channel. */
  predicate Timed(s: State, id: nat)
  {
    id in s.armed || id in s.firing || id in s.timeouts
  }

  /** The program counter and the open batch belong together. */
  predicate PcOk(cfg: Config, s: State)
  {
    match s.pc
    case Grown(_) => s.open.Some?
    case Sized => s.open.Some?
    case Full => s.open.Some? && |s.open.value.items| >= cfg.maxBatch
    case Due(cause) =>
      s.open.Some? && (if cause.Some? then cause.value == s.open.value.id else |s.open.value.items| >= cfg.maxBatch)
    case _ => true
  }

  /** A batch whose items marshal is about to get its timer, has it, or is about to be committed. */
  predicate TimerOk(cfg: Config, s: State)
  {
    s.open.Some? && Marshals(cfg, s.open.value.items) ==>
      && (s.pc == Grown(true) || s.pc.Due? || Timed(s, s.open.value.id))
      && !s.pc.Reporting?
  }

  function Limit(cfg: Config): nat
  {
    if cfg.maxBatch < 1 then 1 else cfg.maxBatch
  }

  predicate SizesOk(cfg: Config, s: State)
  {
    && (forall k :: 0 <= k < |s.committed| ==> 1 <= |s.committed[k].batch.items| <= Limit(cfg) && Marshals(cfg, s.committed[k].batch.items))
    && (s.open.Some? ==> s.open.value.items != [])
    && (s.open.Some? && Marshals(cfg, s.open.value.items) ==>
          |s.open.value.items| < (if s.pc.Idle? || s.pc.Taken? || s.pc.Counted? then Limit(cfg) else Limit(cfg) + 1))
  }

  /** Committed and refused items are counted once each, as long as every batch has marshalled. */
  predicate CountsOk(cfg: Config, s: State)
  {
    && s.pending == |s.queue| - s.uncounted + (if s.pc.Taken? then 1 else 0)
    && (Marshals(cfg, s.accepted) ==>
          && s.total + (if s.pc.Reporting? then s.pc.size else 0) == |Flat(s.committed)|
          && s.failed + (if s.pc.Reporting? && s.pc.failed then s.pc.size else 0) == Refused(s.committed))
  }

  ghost predicate Inv(cfg: Config, s: State)
  {
    InOrder(s) && IdsOk(s) && PcOk(cfg, s) && TimerOk(cfg, s) && SizesOk(cfg, s) && CountsOk(cfg, s)
  }

  lemma CommitOrder(cfg: Config, s: State, room: bool)
    requires InOrder(s) && s.pc.Due?
    ensures InOrder(NextCommit(cfg, s, room))
  {
    hide Marshals, Flat;
    if s.open.Some? && Marshals(cfg, s.open.value.items) {
      var b := s.open.value;
      FlatMore(s.committed, Commit(b, room));
      Join(Flat(s.committed), b.items, s.queue);
    }
  }

  lemma Join(done: seq<Msg>, items: seq<Msg>, queue: seq<Msg>)
    ensures done + items + [] + queue == (done + items) + [] + [] + queue
  {}

  lemma AddOrder(s: State)
    requires InOrder(s) && s.pc.Counted?
    ensures InOrder(NextAdd(s))
  {
    hide Flat;
    assert OpenItems(NextAdd(s)) == OpenItems(s) + InHand(s);
  }

  lemma QueueOrder(cfg: Config, s: State, step: Step)
    requires InOrder(s) && Enabled(cfg, s, step) && (step.Enqueue? || step.Receive?)
    ensures InOrder(Next(cfg, s, step))
  {
    hide Flat;
    if step.Receive? {
      assert s.queue == [s.queue[0]] + s.queue[1..];
    }
  }

  lemma OrderKeeps(cfg: Config, s: State, step: Step)
    requires InOrder(s) && PcOk(cfg, s) && Enabled(cfg, s, step)
    ensures InOrder(Next(cfg, s, step))
  {
    match step
    case CommitBatch(room) => CommitOrder(cfg, s, room);
    case Add => AddOrder(s);
    case Enqueue(_) => QueueOrder(cfg, s, step);
    case Receive => QueueOrder(cfg, s, step);
    case _ =>
      var s' := Next(cfg, s, step);
      hide Flat, PcOk, Marshals;
      assert InHand(s') == InHand(s) && OpenItems(s') == OpenItems(s);
  }

  lemma IdsKeep(cfg: Config, s: State, step: Step)
    requires IdsOk(s) && Enabled(cfg, s, step)
    ensures IdsOk(Next(cfg, s, step))
  {
    hide Marshals;
    var s' := Next(cfg, s, step);
    forall id: nat | Timed(s', id)
      ensures id < s'.next
    {
      if step.Timeout? {
        assert id in s.timeouts[1..] ==> id in s.timeouts;
      }
      assert Timed(s, id) || (step.Arm? && s.open.Some? && id == s.open.value.id);
    }
  }

  lemma PcKeeps(cfg: Config, s: State, step: Step)
    requires PcOk(cfg, s) && Enabled(cfg, s, step)
    ensures PcOk(cfg, Next(cfg, s, step))
  {
    hide Marshals;
  }

  /** An item more cannot make a batch marshal that did not. */
  lemma MarshalsMore(cfg: Config, items: seq<Msg>, more: seq<Msg>)
    requires Marshals(cfg, items + more)
    ensures Marshals(cfg, items) && Marshals(cfg, more)
  {
    assert forall m :: m in items || m in more ==> m in items + more;
  }

  lemma TimerKeeps(cfg: Config, s: State, step: Step)
    requires TimerOk(cfg, s) && PcOk(cfg, s) && Enabled(cfg, s, step)
    ensures TimerOk(cfg, Next(cfg, s, step))
  {
    var s' := Next(cfg, s, step);
    if step.Add? && s.open.Some? && Marshals(cfg, s'.open.value.items) {
      MarshalsMore(cfg, s.open.value.items, [s.pc.msg]);
    }
    hide Marshals;
  }

  lemma SizesKeep(cfg: Config, s: State, step: Step)
    requires SizesOk(cfg, s) && PcOk(cfg, s) && TimerOk(cfg, s) && Enabled(cfg, s, step)
    ensures SizesOk(cfg, Next(cfg, s, step))
  {
    var s' := Next(cfg, s, step);
    if step.Add? && s.open.Some? && Marshals(cfg, s'.open.value.items) {
      MarshalsMore(cfg, s.open.value.items, [s.pc.msg]);
    }
    hide Marshals, Timed;
  }

  lemma CommitCounts(cfg: Config, s: State, room: bool)
    requires CountsOk(cfg, s) && InOrder(s) && s.pc.Due? && s.open.Some?
    ensures CountsOk(cfg, NextCommit(cfg, s, room))
  {
    FlatMore(s.committed, Commit(s.open.value, room));
    RefusedMore(s.committed, Commit(s.open.value, room));
    if Marshals(cfg, s.accepted) {
      assert s.accepted == Flat(s.committed) + OpenItems(s) + (InHand(s) + s.queue);
      MarshalsMore(cfg, Flat(s.committed) + OpenItems(s), InHand(s) + s.queue);
      MarshalsMore(cfg, Flat(s.committed), OpenItems(s));
    }
    hide Marshals, Flat, Refused, InOrder;
  }

  lemma CountsKeep(cfg: Config, s: State, step: Step)
    requires CountsOk(cfg, s) && InOrder(s) && PcOk(cfg, s) && Enabled(cfg, s, step)
    ensures CountsOk(cfg, Next(cfg, s, step))
  {
    hide Flat, Refused, InOrder;
    if step.CommitBatch? {
      CommitCounts(cfg, s, step.room);
    } else if step.Enqueue? {
      if Marshals(cfg, s.accepted + [step.msg]) {
        MarshalsMore(cfg, s.accepted, [step.msg]);
      }
    } else {
      hide Marshals;
    }
  }

  lemma RefusedMore(commits: seq<Commit>, c: Commit)
    ensures Refused(commits + [c]) == Refused(commits) + if c.pushed then 0 else |c.batch.items|
  {
    assert (commits + [c])[..|commits|] == commits;
  }

  lemma StepKeeps(cfg: Config, s: State, step: Step)
    requires Inv(cfg, s) && Enabled(cfg, s, step)
    ensures Inv(cfg, Next(cfg, s, step))
  {
    hide InOrder, IdsOk, PcOk, TimerOk, SizesOk, CountsOk, Next, Enabled;
    OrderKeeps(cfg, s, step);
    IdsKeep(cfg, s, step);
    PcKeeps(cfg, s, step);
    TimerKeeps(cfg, s, step);
    SizesKeep(cfg, s, step);
    CountsKeep(cfg, s, step);
  }

  lemma {:induction false} RunInv(cfg: Config, run: seq<State>, steps: seq<Step>, i: nat)
    requires IsRun(cfg, run, steps) && i < |run|
    ensures Inv(cfg, run[i])
  {
    hide Inv, Next, Enabled;
    if i == 0 {
      EmptyInv(cfg);
    } else {
      RunInv(cfg, run, steps, i - 1);
      assert Enabled(cfg, run[i - 1], steps[i - 1]) && run[i - 1 + 1] == Next(cfg, run[i - 1], steps[i - 1]);
      StepKeeps(cfg, run[i - 1], steps[i - 1]);
    }
  }

  lemma EmptyInv(cfg: Config)
    ensures Inv(cfg, EMPTY)
  {}

  // ----- what a run promises -----

  /** Every accepted message is in exactly one place, and in the order in which it was accepted. */
  lemma ExactlyOnce(cfg: Config, run: seq<State>, steps: seq<Step>, i: nat)
    requires IsRun(cfg, run, steps) && i < |run|
    ensures run[i].accepted == Flat(run[i].committed) + OpenItems(run[i]) + InHand(run[i]) + run[i].queue
  {
    RunInv(cfg, run, steps, i);
  }

  /** No batch is committed twice, and none that is open has been committed. */
  lemma CommittedOnce(cfg: Config, run: seq<State>, steps: seq<Step>, i: nat, j: nat, k: nat)
    requires IsRun(cfg, run, steps) && i < |run| && j < k < |run[i].committed|
    ensures run[i].committed[j].batch.id != run[i].committed[k].batch.id
    ensures run[i].open.Some? ==> run[i].open.value.id != run[i].committed[j].batch.id
  {
    RunInv(cfg, run, steps, i);
  }

  /** A commit that a timeout caused is a commit of that timeout's own batch. */
  lemma StaleTimeoutsCommitNothing(cfg: Config, run: seq<State>, steps: seq<Step>, i: nat)
    requires IsRun(cfg, run, steps) && i < |steps| && steps[i].CommitBatch?
    ensures run[i].pc.Due?
    ensures run[i].pc.cause.Some? && run[i + 1].committed != run[i].committed ==>
              |run[i + 1].committed| == |run[i].committed| + 1
              && run[i + 1].committed[|run[i].committed|].batch.id == run[i].pc.cause.value
  {
    RunInv(cfg, run, steps, i);
    assert Enabled(cfg, run[i], steps[i]) && run[i + 1] == Next(cfg, run[i], steps[i]);
  }

  /** A batch that waits has its timer armed or its timeout on the way, unless it cannot be marshalled. */
  lemma OpenBatchIsTimed(cfg: Config, run: seq<State>, steps: seq<Step>, i: nat)
    requires IsRun(cfg, run, steps) && i < |run|
    requires run[i].pc.Idle? && run[i].open.Some? && Marshals(cfg, run[i].open.value.items)
    ensures Timed(run[i], run[i].open.value.id)
    ensures 1 <= |run[i].open.value.items| < Limit(cfg)
  {
    RunInv(cfg, run, steps, i);
  }

  /** Committed batches are never empty, and never larger than the configured size (or 1). */
  lemma BatchSizes(cfg: Config, run: seq<State>, steps: seq<Step>, i: nat, k: nat)
    requires IsRun(cfg, run, steps) && i < |run| && k < |run[i].committed|
    ensures 1 <= |run[i].committed[k].batch.items| <= Limit(cfg)
  {
    RunInv(cfg, run, steps, i);
  }

  /** Nothing is under way: no message waits, no timer is armed, no timeout is on its way. */
  predicate AtRest(s: State)
  {
    s.pc.Idle? && s.queue == [] && s.uncounted == 0 && s.armed == {} && s.firing == {} && s.timeouts == []
  }

  lemma {:induction false} FlatMarshals(cfg: Config, commits: seq<Commit>)
    requires forall k :: 0 <= k < |commits| ==> Marshals(cfg, commits[k].batch.items)
    ensures Marshals(cfg, Flat(commits))
  {
    if commits == [] {
      assert Flat(commits) == [];
    } else {
      var n := |commits| - 1;
      FlatMarshals(cfg, commits[..n]);
      assert forall m :: m in Flat(commits) ==> m in Flat(commits[..n]) || m in commits[n].batch.items;
    }
  }

  lemma RestMeans(cfg: Config, s: State)
    requires Inv(cfg, s) && AtRest(s)
    ensures s.accepted == Flat(s.committed) <==> Marshals(cfg, s.accepted)
    ensures s.pending == 0
    ensures Marshals(cfg, s.accepted) ==> s.total == |s.accepted| && s.failed == Refused(s.committed)
  {
    FlatMarshals(cfg, s.committed);
    assert s.accepted == Flat(s.committed) + OpenItems(s);
    if Marshals(cfg, s.accepted) {
      MarshalsMore(cfg, Flat(s.committed), OpenItems(s));
    }
  }

  /**
   When everything has come to rest, every accepted message has been committed exactly when all of
   them marshal; one that does not keeps others back for good. If all marshal, the counters agree.
   */
  lemma NothingLeftBehind(cfg: Config, run: seq<State>, steps: seq<Step>, i: nat)
    requires IsRun(cfg, run, steps) && i < |run| && AtRest(run[i])
    ensures run[i].accepted == Flat(run[i].committed) <==> Marshals(cfg, run[i].accepted)
    ensures run[i].pending == 0
    ensures Marshals(cfg, run[i].accepted) ==>
              run[i].total == |run[i].accepted| && run[i].failed == Refused(run[i].committed)
  {
    RunInv(cfg, run, steps, i);
    RestMeans(cfg, run[i]);
  }

  /** A batch with an item that does not marshal. */
  predicate Poisoned(cfg: Config, s: State)
  {
    s.open.Some? && !Marshals(cfg, s.open.value.items)
  }

  lemma PoisonStays(cfg: Config, s: State, step: Step)
    requires Enabled(cfg, s, step) && Poisoned(cfg, s)
    ensures Poisoned(cfg, Next(cfg, s, step)) && Next(cfg, s, step).committed == s.committed
    ensures s.open.value.items <= Next(cfg, s, step).open.value.items
  {
    if step.Add? {
      var m :| m in s.open.value.items && m in cfg.invalid;
      assert m in Next(cfg, s, step).open.value.items;
    }
  }

  /** Such a batch is never committed and never dropped: nothing is committed any more, all later messages join it. */
  lemma {:induction false} PoisonedForever(cfg: Config, run: seq<State>, steps: seq<Step>, i: nat, j: nat)
    requires IsRun(cfg, run, steps) && i <= j < |run| && Poisoned(cfg, run[i])
    ensures Poisoned(cfg, run[j]) && run[j].committed == run[i].committed
    ensures run[i].open.value.items <= run[j].open.value.items
    decreases j
  {
    if i == j {
    } else {
      PoisonedForever(cfg, run, steps, i, j - 1);
      assert Enabled(cfg, run[j - 1], steps[j - 1]) && run[j - 1 + 1] == Next(cfg, run[j - 1], steps[j - 1]);
      PoisonStays(cfg, run[j - 1], steps[j - 1]);
    }
  }

  /** Any message that does not marshal brings this about, in a channel with room for one. */
  lemma PoisonIsReached(cfg: Config, msg: Msg)
    requires msg in cfg.invalid && cfg.channelSize >= 1
    ensures exists run: seq<State>, steps: seq<Step> :: IsRun(cfg, run, steps) && Poisoned(cfg, run[|run| - 1])
  {
    var steps := [Enqueue(msg), Receive, CountReceived, Add];
    var s1 := Next(cfg, EMPTY, Enqueue(msg));
    assert s1.queue == [msg];
    var s2 := Next(cfg, s1, Receive);
    var s3 := Next(cfg, s2, CountReceived);
    var s4 := Next(cfg, s3, Add);
    var run := [EMPTY, s1, s2, s3, s4];
    assert s4.open == Some(Batch(0, [msg])) && msg in s4.open.value.items;
    forall i | 0 <= i < |steps|
      ensures Enabled(cfg, run[i], steps[i]) && run[i + 1] == Next(cfg, run[i], steps[i])
    {
      if i == 0 {} else if i == 1 {} else if i == 2 {} else {}
    }
    assert IsRun(cfg, run, steps) && Poisoned(cfg, run[|run| - 1]);
  }
}
