/** That every upload handler comes to its answer: none waits for another, and each takes a bounded number of steps. */
module TusProgress {
  import opened Basics
  import opened TusStore
  import opened TusProtocol
  import opened TusInvariant
  import opened TusSteps
  import opened TusTheorems

  // ----- the steps that a handler has left -----

  function BodyOf(req: Request): nat
  {
    match req
    case Patch(_, _, _, chunk) => |chunk.body|
    case Create(_, first) => if first.Some? then |first.value.body| else 0
    case _ => 0
  }

  function FirstBody(first: Option<Chunk>): nat
  {
    if first.Some? then |first.value.body| else 0
  }

  /** At most this many steps of its own lie between a handler and its end. */
  function Left(p: Proc): nat
  {
    match p
    case Started(req) => 9 + BodyOf(req)
    case Held(_, req) => 8 + BodyOf(req)
    case Looked(_, req, _, _) => 7 + BodyOf(req)
    case Made(_, _, first) => 7 + FirstBody(first)
    case Writing(_, rest) => 6 + |rest|
    case Wrote(_, _) => 5
    case Removing(_) => 4
    case Settled(_, _, _) => 3
    case Unread(_) => 3
    case Deleting(_) => 3
    case Sizing(ids, _, parts, pending) =>
      if |parts| > |ids| then 2 else 4 + |ids| + 2 * (|ids| - |parts|) - One(pending.Some? && |parts| < |ids|)
    case Joining(_, ids, _, _, done) => if done > |ids| then 2 else 3 + |ids| - done
    case Replying(_, _, _, _) => 1
    case Done(_) => 0
  }

  lemma BeginWriteLeft(p: Proc, id: Id, info: FileInfo, stored: nat, limit: Result<int, Error>, body: Bytes, post: bool)
    ensures Left(BeginWrite(p, id, info, stored, limit, body, post)) <= 6 + |body|
  {}

  /** Every step of a handler after its first leaves it fewer. */
  lemma LeftShrinks(cfg: Config, s: State, step: Step)
    requires Enabled(s, step) && !step.Begin?
    ensures step.pid in s.procs && step.pid in Next(cfg, s, step).procs
    ensures Left(Next(cfg, s, step).procs[step.pid]) < Left(s.procs[step.pid])
  {
    var p := s.procs[step.pid];
    match step
    case Check(pid) => CheckLeft(cfg, s, pid, p);
    case OpenFirst(pid) => OpenLeft(cfg, s, pid, p);
    case ReadInfo(_) => JoinLeft(cfg, s, step);
    case Stat(_) => JoinLeft(cfg, s, step);
    case MakeFinal(_, _) => JoinLeft(cfg, s, step);
    case CopyPart(_) => JoinLeft(cfg, s, step);
    case CopyBreaks(_, _) => JoinLeft(cfg, s, step);
    case FinishJoin(_, _) => JoinLeft(cfg, s, step);
    case _ => PlainLeft(cfg, s, step);
  }

  predicate Joins(step: Step)
  {
    step.ReadInfo? || step.Stat? || step.MakeFinal? || step.CopyPart? || step.CopyBreaks? || step.FinishJoin?
  }

  lemma JoinLeft(cfg: Config, s: State, step: Step)
    requires Enabled(s, step) && Joins(step)
    ensures step.pid in s.procs && step.pid in Next(cfg, s, step).procs
    ensures Left(Next(cfg, s, step).procs[step.pid]) < Left(s.procs[step.pid])
  {
    hide Complete, LocksOf, FromPost, OwnOf, Event, FileOf, WithFile, WithNew, BodyOf, FirstBody;
  }

  lemma PlainLeft(cfg: Config, s: State, step: Step)
    requires Enabled(s, step) && !step.Begin? && !Joins(step) && !step.Check? && !step.OpenFirst?
    ensures step.pid in s.procs && step.pid in Next(cfg, s, step).procs
    ensures Left(Next(cfg, s, step).procs[step.pid]) < Left(s.procs[step.pid])
  {
    hide Present, LocksOf, FromPost, OwnOf, Event, FileOf, WithFile, WithInfo, WithNew, WithoutInfo, WithoutFile, Reports;
  }

  lemma CheckLeft(cfg: Config, s: State, pid: Pid, p: Proc)
    requires p.Looked? && p.req.Patch?
    ensures pid in NextCheck(cfg, s, pid, p).procs && Left(NextCheck(cfg, s, pid, p).procs[pid]) < Left(p)
  {
    hide Complete, ChunkLimit, LocksOf, FromPost, OwnOf;
    match Admitted(cfg, p.info, p.stored, p.req.offset, p.req.declare, p.req.chunk.length)
    case Admit(info, limit) => BeginWriteLeft(p, p.id, info, p.stored, limit, p.req.chunk.body, false);
    case _ =>
  }

  lemma OpenLeft(cfg: Config, s: State, pid: Pid, p: Proc)
    requires p.Made? && p.first.Some?
    ensures pid in NextOpenFirst(cfg, s, pid, p).procs && Left(NextOpenFirst(cfg, s, pid, p).procs[pid]) < Left(p)
  {
    hide Complete, LocksOf, FromPost, OwnOf;
    var held := Replying(CreateOk(p.id), Some(p.id), true, true);
    var chunk := p.first.value;
    BeginWriteLeft(held, p.id, p.info, 0, ChunkLimit(cfg, p.info, 0, chunk.length), chunk.body, true);
    hide ChunkLimit;
  }

  /** The steps of one handler among steps i to j. */
  function StepsOf(steps: seq<Step>, pid: Pid, i: nat, j: nat): nat
    requires i <= j <= |steps|
  {
    if i == j then 0 else StepsOf(steps, pid, i, j - 1) + One(steps[j - 1].pid == pid)
  }

  /** However the handlers interleave, one that has begun takes no more steps than it has left. */
  lemma {:induction false} StepsAreBounded(cfg: Config, run: seq<State>, steps: seq<Step>, i: nat, j: nat, pid: Pid)
    requires IsRun(cfg, run, steps) && i <= j < |run| && pid in run[i].procs
    ensures pid in run[j].procs && StepsOf(steps, pid, i, j) + Left(run[j].procs[pid]) <= Left(run[i].procs[pid])
    decreases j
  {
    hide Inv, Enabled, Next, Left;
    if i == j {
    } else {
      StepsAreBounded(cfg, run, steps, i, j - 1, pid);
      var s, step := run[j - 1], steps[j - 1];
      assert Enabled(s, step) && run[j - 1 + 1] == Next(cfg, s, step);
      StepOfOne(cfg, s, step);
      if step.pid == pid {
        BeginsOnce(s, step);
        LeftShrinks(cfg, s, step);
      }
    }
  }

  /** The bound for a whole request. */
  function Bound(req: Request): nat
  {
    match req
    case Concat(ids) => 4 + 3 * |ids|
    case _ => 9 + BodyOf(req)
  }

  /** A handler takes a number of steps that its request bounds: for a body one for every byte, for a final upload three for every part. */
  lemma HandlerIsBounded(cfg: Config, run: seq<State>, steps: seq<Step>, b: nat, j: nat, pid: Pid, req: Request)
    requires IsRun(cfg, run, steps) && b < j < |run| && steps[b] == Begin(pid, req)
    ensures StepsOf(steps, pid, b + 1, j) <= Bound(req)
  {
    assert Enabled(run[b], steps[b]) && run[b + 1] == Next(cfg, run[b], steps[b]);
    StepsAreBounded(cfg, run, steps, b + 1, j, pid);
    BegunLeft(cfg, run[b], pid, req);
    hide IsRun, Left, Next, Enabled;
  }

  lemma BegunLeft(cfg: Config, s: State, pid: Pid, req: Request)
    requires Enabled(s, Begin(pid, req))
    ensures pid in Next(cfg, s, Begin(pid, req)).procs && Left(Next(cfg, s, Begin(pid, req)).procs[pid]) <= Bound(req)
  {
    hide Hidden;
  }

  // ----- no handler is stuck -----

  /** HEAD answers as soon as it has looked. */
  predicate LooksOnward(s: State)
  {
    forall q :: q in s.procs ==> (s.procs[q].Looked? ==> !s.procs[q].req.Head?)
  }

  lemma LookedNotHead(cfg: Config, s: State, step: Step)
    requires Enabled(s, step)
    ensures step.pid in Next(cfg, s, step).procs
    ensures Next(cfg, s, step).procs[step.pid].Looked? ==> !Next(cfg, s, step).procs[step.pid].req.Head?
  {
    if !step.Look? {
      NotByLooking(cfg, s, step);
      hide Next, Enabled;
    }
  }

  lemma NotByLooking(cfg: Config, s: State, step: Step)
    requires Enabled(s, step) && !step.Look?
    ensures step.pid in Next(cfg, s, step).procs && !Next(cfg, s, step).procs[step.pid].Looked?
  {
    hide Present, Complete, LocksOf, FromPost, OwnOf, Event, FileOf, WithFile, WithInfo, WithNew, WithoutInfo, WithoutFile, Limited, ChunkLimit, Reports;
  }

  lemma {:induction false} RunLooksOnward(cfg: Config, run: seq<State>, steps: seq<Step>, i: nat)
    requires IsRun(cfg, run, steps) && i < |run|
    ensures LooksOnward(run[i])
  {
    hide Enabled, Next;
    if i == 0 {
    } else {
      RunLooksOnward(cfg, run, steps, i - 1);
      assert Enabled(run[i - 1], steps[i - 1]) && run[i - 1 + 1] == Next(cfg, run[i - 1], steps[i - 1]);
      StepOfOne(cfg, run[i - 1], steps[i - 1]);
      LookedNotHead(cfg, run[i - 1], steps[i - 1]);
    }
  }

  /** There is always an id that was not given out yet. */
  lemma {:induction false} LongerThanAll(used: set<Id>) returns (n: nat)
    ensures forall id :: id in used ==> |id| < n
    decreases |used|
  {
    if used == {} {
      n := 0;
    } else {
      var id :| id in used;
      var k := LongerThanAll(used - {id});
      n := if k > |id| then k else |id| + 1;
      assert forall x :: x in used ==> x == id || x in used - {id};
    }
  }

  lemma FreshId(used: set<Id>) returns (id: Id)
    ensures id !in used
  {
    var n := LongerThanAll(used);
    id := seq(n, _ => 'a');
  }

  /** A step in which nothing fails; a sum of sizes beyond an int64 is the one reason to give up. */
  predicate Smooth(s: State, step: Step)
    requires Enabled(s, step)
  {
    match step
    case Begin(_, _) => false
    case EndCopy(_, broken) => !broken
    case RemoveInfo(pid) => s.procs[pid].Looked?
    case RemoveFails(_) => false
    case CopyBreaks(_, _) => false
    case Conclude(_, late, hookOk) => !late && hookOk
    case FinishEmpty(_, hookOk) => hookOk
    case FinishJoin(_, hookOk) => hookOk
    case GiveUp(pid) =>
      var p := s.procs[pid];
      p.Sizing? && p.pending.Some? && p.size + p.pending.value.size > MAX_INT64
    case _ => true
  }

  /** The next step of a handler in which nothing fails. */
  function SmoothStep(pid: Pid, p: Proc, unused: Id): Step
  {
    match p
    case Started(req) => if req.Create? then Make(pid, unused) else Lock(pid)
    case Held(_, _) => Look(pid)
    case Looked(_, req, _, _) => if req.Patch? then Check(pid) else RemoveInfo(pid)
    case Made(_, _, first) => if first.Some? then OpenFirst(pid) else FinishEmpty(pid, true)
    case Writing(_, rest) => if rest == [] then EndCopy(pid, false) else Append(pid, |rest|)
    case Wrote(_, _) => NotStopped(pid)
    case Removing(_) => RemoveBin(pid)
    case Settled(_, _, _) => Conclude(pid, false, true)
    case Unread(_) => Conclude(pid, false, true)
    case Deleting(_) => RemoveBin(pid)
    case Sizing(ids, size, parts, pending) =>
      if |parts| == |ids| then MakeFinal(pid, unused)
      else if pending.None? then ReadInfo(pid)
      else if size + pending.value.size <= MAX_INT64 then Stat(pid) else GiveUp(pid)
    case Joining(_, ids, _, _, done) => if done < |ids| then CopyPart(pid) else FinishJoin(pid, true)
    case Replying(_, _, _, _) => Release(pid)
    case Done(_) => Release(pid)
  }

  /** What is needed of a handler's state for that step. */
  predicate Ready(p: Proc)
  {
    match p
    case Started(req) => !req.Concat?
    case Looked(_, req, _, _) => req.Patch? || req.Delete?
    case Sizing(ids, _, parts, _) => |parts| <= |ids|
    case Joining(_, ids, _, _, done) => done <= |ids|
    case Done(_) => false
    case _ => true
  }

  lemma ReadyWhenOk(cfg: Config, s: State, pid: Pid, p: Proc)
    requires At(cfg, s, pid, p) && !p.Done? && (p.Looked? ==> !p.req.Head?)
    ensures Ready(p)
  {
    Known(cfg, s, pid, p);
    hide Inv, Present, Complete, WriterOk, AllFrozen, PendingOk, ReplyOk;
  }

  lemma SmoothStepEnabled(s: State, pid: Pid, unused: Id)
    requires pid in s.procs && Ready(s.procs[pid]) && unused !in s.used
    ensures
      var step := SmoothStep(pid, s.procs[pid], unused);
      step.pid == pid && Enabled(s, step) && Smooth(s, step)
  {
    hide FileOf;
  }

  /** Whatever the others hold or do, a handler that has not ended can go on, and nothing has to fail for that. */
  lemma CanGoOn(cfg: Config, run: seq<State>, steps: seq<Step>, i: nat, pid: Pid) returns (step: Step)
    requires IsRun(cfg, run, steps) && i < |run| && pid in run[i].procs && !run[i].procs[pid].Done?
    ensures step.pid == pid && Enabled(run[i], step) && Smooth(run[i], step)
  {
    hide Inv, Enabled, Next, Smooth, SmoothStep, Ready;
    RunInv(cfg, run, steps, i);
    RunLooksOnward(cfg, run, steps, i);
    ReadyWhenOk(cfg, run[i], pid, run[i].procs[pid]);
    var unused := FreshId(run[i].used);
    SmoothStepEnabled(run[i], pid, unused);
    step := SmoothStep(pid, run[i].procs[pid], unused);
  }

  /** The handler alone has gone on from run to run'. */
  ghost predicate GoesOn(run: seq<State>, steps: seq<Step>, run': seq<State>, steps': seq<Step>, pid: Pid)
  {
    && run <= run' && steps <= steps' && |steps'| < |run'|
    && forall l :: |steps| <= l < |steps'| ==> steps'[l].pid == pid && Enabled(run'[l], steps'[l]) && Smooth(run'[l], steps'[l])
  }

  /** From every reachable state every handler can come to its end by itself, in no more steps than it has left. */
  lemma {:induction false} CanFinishAlone(cfg: Config, run: seq<State>, steps: seq<Step>, pid: Pid)
    returns (run': seq<State>, steps': seq<Step>)
    requires IsRun(cfg, run, steps) && pid in run[|run| - 1].procs
    ensures IsRun(cfg, run', steps') && GoesOn(run, steps, run', steps', pid)
    ensures pid in run'[|run'| - 1].procs && run'[|run'| - 1].procs[pid].Done?
    ensures |steps'| - |steps| <= Left(run[|run| - 1].procs[pid])
    decreases Left(run[|run| - 1].procs[pid])
  {
    hide Inv, Enabled, Next, Left, Smooth;
    var s := run[|run| - 1];
    if s.procs[pid].Done? {
      run', steps' := run, steps;
    } else {
      var step := CanGoOn(cfg, run, steps, |run| - 1, pid);
      SmoothIsNoBegin(s, step);
      LeftShrinks(cfg, s, step);
      var run1, steps1 := run + [Next(cfg, s, step)], steps + [step];
      assert IsRun(cfg, run1, steps1);
      run', steps' := CanFinishAlone(cfg, run1, steps1, pid);
      assert run <= run1 && steps <= steps1;
      assert run'[|steps|] == run1[|steps|] == s && steps'[|steps|] == steps1[|steps|] == step;
    }
  }

  lemma SmoothIsNoBegin(s: State, step: Step)
    requires Enabled(s, step) && Smooth(s, step)
    ensures !step.Begin?
  {}
}
