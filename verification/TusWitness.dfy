/** A run in which one final upload is reported complete twice, and one in which a complete upload never is. */
module TusWitness {
  import opened Basics
  import opened TusStore
  import opened TusProtocol
  import opened TusHandlers

  ghost predicate Reached(cfg: Config, s: State)
  {
    exists run: seq<State>, steps: seq<Step> :: IsRun(cfg, run, steps) && run[|run| - 1] == s
  }

  lemma ReachedNext(cfg: Config, s: State, step: Step)
    requires Reached(cfg, s) && Enabled(s, step)
    ensures Reached(cfg, Next(cfg, s, step))
  {
    var run, steps :| IsRun(cfg, run, steps) && run[|run| - 1] == s;
    var run', steps' := run + [Next(cfg, s, step)], steps + [step];
    hide Enabled, Next;
    assert IsRun(cfg, run', steps');
  }

  const CFG := Config(0, true)
  const PART := FileInfo(0, false, true, false, [])

  lemma PartBegun() returns (s: State)
    ensures Reached(CFG, s) && s.procs.Keys == {0} && Is(s, 0, Made("a", PART, None))
    ensures s.store == Store(map["a" := PART], map["a" := []]) && s.used == {"a"} && s.locks == {} && s.hist.completed == multiset{}
  {
    Empty(CFG);
    var req := Create(PART, None);
    s := EMPTY;
    assert Enabled(s, Begin(0, req));
    BeginStep(CFG, s, 0, req);
    hide Reached, Next, Enabled;
    ReachedNext(CFG, s, Begin(0, req));
    s := Next(CFG, s, Begin(0, req));
    MakeStep(CFG, s, 0, PART, None, "a");
    ReachedNext(CFG, s, Make(0, "a"));
    s := Next(CFG, s, Make(0, "a"));
  }

  /** An empty partial upload, complete as soon as it is made; reported if the hook agrees. */
  lemma PartMade(hookOk: bool) returns (s: State)
    ensures PartDone(s, hookOk) && s.procs.Keys == {0} && Hidden(s.procs[0]) == {} && s.locks == {}
  {
    s := PartBegun();
    hide Reached, Next, Enabled;
    FinishEmptyStep(CFG, s, 0, "a", PART, hookOk);
    ReachedNext(CFG, s, FinishEmpty(0, hookOk));
    s := Next(CFG, s, FinishEmpty(0, hookOk));
    var reply := if hookOk then CreateOk("a") else Refused(Failed);
    ReleaseStep(CFG, s, 0, reply, Some("a"), false, true);
    ReachedNext(CFG, s, Release(0));
    s := Next(CFG, s, Release(0));
  }

  lemma Empty(cfg: Config)
    ensures Reached(cfg, EMPTY)
  {
    assert IsRun(cfg, [EMPTY], []);
  }

  ghost predicate PartDone(s: State, reported: bool)
  {
    && Reached(CFG, s) && s.store == Store(map["a" := PART], map["a" := []]) && s.used == {"a"}
    && s.hist.completed == if reported then multiset{"a"} else multiset{}
  }

  lemma JoinBegun(s0: State) returns (s: State)
    requires PartDone(s0, true) && s0.procs.Keys == {0} && Hidden(s0.procs[0]) == {}
    ensures PartDone(s, true) && Is(s, 1, Sizing(["a"], 0, [], None))
  {
    assert Enabled(s0, Begin(1, Concat(["a"])));
    BeginConcatStep(CFG, s0, 1, ["a"]);
    hide Reached, Hidden, Next, Enabled;
    ReachedNext(CFG, s0, Begin(1, Concat(["a"])));
    s := Next(CFG, s0, Begin(1, Concat(["a"])));
  }

  lemma SizeKnown(s0: State) returns (s: State)
    requires PartDone(s0, true) && Is(s0, 1, Sizing(["a"], 0, [], None))
    ensures PartDone(s, true) && Is(s, 1, Sizing(["a"], 0, [[]], None))
  {
    hide Reached, Hidden, Next, Enabled;
    ReadInfoStep(CFG, s0, 1, ["a"], 0, []);
    ReachedNext(CFG, s0, ReadInfo(1));
    s := Next(CFG, s0, ReadInfo(1));
    StatStep(CFG, s, 1, ["a"], 0, [], PART);
    ReachedNext(CFG, s, Stat(1));
    s := Next(CFG, s, Stat(1));
  }

  lemma FinalMade(s0: State) returns (s: State)
    requires PartDone(s0, true) && Is(s0, 1, Sizing(["a"], 0, [[]], None))
    ensures Reached(CFG, s) && Is(s, 1, Joining("b", ["a"], 0, [[]], 0))
    ensures s.store.files == map["a" := [], "b" := []] && s.hist.completed == multiset{"a"}
  {
    hide Reached, Hidden, Next, Enabled;
    MakeFinalStep(CFG, s0, 1, ["a"], 0, [[]], "b");
    ReachedNext(CFG, s0, MakeFinal(1, "b"));
    s := Next(CFG, s0, MakeFinal(1, "b"));
  }

  /** The bound of two events in CompletionAtMostOnce is met: a final upload of empty parts is reported twice. */
  lemma EmptyFinalCompletesTwice()
    ensures exists s :: Reached(CFG, s) && s.hist.completed["b"] == 2
  {
    hide Reached, Hidden, Next, Enabled;
    var s := PartMade(true);
    s := JoinBegun(s);
    s := SizeKnown(s);
    s := FinalMade(s);
    CopyPartStep(CFG, s, 1, "b", ["a"], 0, [[]], 0);
    ReachedNext(CFG, s, CopyPart(1));
    s := Next(CFG, s, CopyPart(1));
    FinishJoinStep(CFG, s, 1, "b", ["a"], 0, [[]], true);
    ReachedNext(CFG, s, FinishJoin(1, true));
    s := Next(CFG, s, FinishJoin(1, true));
    assert s.hist.completed["b"] == 2;
  }

  const AGAIN := Patch("a", 0, None, Chunk(0, []))

  lemma AskedAgain(s0: State) returns (s: State)
    requires PartDone(s0, false) && s0.procs.Keys == {0} && Hidden(s0.procs[0]) == {} && s0.locks == {}
    ensures PartDone(s, false) && Is(s, 1, Looked("a", AGAIN, PART, 0))
  {
    assert Enabled(s0, Begin(1, AGAIN));
    BeginStep(CFG, s0, 1, AGAIN);
    hide Reached, Hidden, Next, Enabled;
    ReachedNext(CFG, s0, Begin(1, AGAIN));
    s := Next(CFG, s0, Begin(1, AGAIN));
    LockStep(CFG, s, 1, AGAIN, "a");
    ReachedNext(CFG, s, Lock(1));
    s := Next(CFG, s, Lock(1));
    LookStep(CFG, s, 1, "a", AGAIN);
    ReachedNext(CFG, s, Look(1));
    s := Next(CFG, s, Look(1));
  }

  /** A hook refuses an empty upload; the client is told next time that it is complete, and nobody else ever is. */
  lemma CompleteAndNeverReported()
    ensures exists s ::
              && Reached(CFG, s) && Is(s, 1, Done(WriteOk("a", 0)))
              && Present(s.store, "a") && Complete(s.store.infos["a"], |s.store.files["a"]|) && s.hist.completed["a"] == 0
  {
    hide Reached, Hidden, Next, Enabled;
    var s := PartMade(false);
    s := AskedAgain(s);
    CheckStep(CFG, s, 1, "a", AGAIN, PART, 0);
    ReachedNext(CFG, s, Check(1));
    s := Next(CFG, s, Check(1));
    ReleaseStep(CFG, s, 1, WriteOk("a", 0), Some("a"), true, false);
    ReachedNext(CFG, s, Release(1));
    s := Next(CFG, s, Release(1));
  }
}
