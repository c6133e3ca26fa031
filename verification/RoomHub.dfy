/**
 The hub as one object: a manager and its connections, each call a stretch of a run of Rooms. So what
 Rooms says of runs holds after any sequence of joins, leaves and closings.
 */
module RoomHub {
  import opened Rooms
  import opened RoomObjects

  /** A whole handleJoin of a connection at rest, none of whose calls fails. */
  function AfterJoin(max: int, s: State, c: ConnId, r: RoomId): State
    requires s.buckets != [] && c in s.conns
  {
    var rooms := s.conns[c].rooms;
    if !MayJoin(s.conns[c], r, max) then s
    else
      State(s.buckets[BucketOf(s, c) := Joined(RoomsFor(s, c), r, c)], s.conns[c := Conn(rooms + {r}, Resting)],
            s.roomCount + (if r in RoomsFor(s, c) then 0 else 1), s.failures)
  }

  function AfterLeave(s: State, c: ConnId, r: RoomId): State
    requires s.buckets != [] && c in s.conns
  {
    var rooms := RoomsFor(s, c);
    if r !in s.conns[c].rooms then s
    else
      State(s.buckets[BucketOf(s, c) := Left(rooms, r, c)], s.conns[c := Conn(s.conns[c].rooms - {r}, Resting)],
            s.roomCount - (if r in rooms && rooms[r] - {c} == {} then 1 else 0), s.failures)
  }

  lemma JoinIsTwoSteps(max: int, s: State, c: ConnId, r: RoomId)
    requires s.buckets != [] && Enabled(s, Join(c, r))
    requires MayJoin(s.conns[c], r, max) ==> !InRoom(RoomsFor(s, c), r, c)
    ensures
      var s' := Next(max, s, Join(c, r));
      if !MayJoin(s.conns[c], r, max) then s' == AfterJoin(max, s, c, r)
      else s'.buckets != [] && Enabled(s', RecordJoin(c)) && Next(max, s', RecordJoin(c)) == AfterJoin(max, s, c, r)
  {}

  lemma NotThereYet(max: int, s: State, c: ConnId, r: RoomId)
    requires Inv(max, s) && Enabled(s, Join(c, r)) && MayJoin(s.conns[c], r, max)
    ensures !InRoom(RoomsFor(s, c), r, c)
  {
    assert InRoom(RoomsFor(s, c), r, c) <==> Expected(s, BucketOf(s, c), r, c);
  }

  lemma JoinParts(max: int, s: State, c: ConnId, r: RoomId)
    requires s.buckets != [] && c in s.conns && s.conns[c].doing.Resting?
    ensures
      var s', rooms := AfterJoin(max, s, c, r), s.conns[c].rooms;
      var joins := MayJoin(s.conns[c], r, max);
      && s'.conns == s.conns[c := Conn(rooms + (if joins then {r} else {}), Resting)]
      && s'.buckets == (if joins then s.buckets[BucketOf(s, c) := Joined(RoomsFor(s, c), r, c)] else s.buckets)
      && s'.roomCount == s.roomCount + (if joins && r !in RoomsFor(s, c) then 1 else 0)
  {
    hide Joined;
    assert s.conns[c].rooms + {} == s.conns[c].rooms;
  }

  lemma LeaveIsTwoSteps(max: int, s: State, c: ConnId, r: RoomId)
    requires Inv(max, s) && Enabled(s, Leave(c, r))
    ensures
      var s' := Next(max, s, Leave(c, r));
      if r !in s.conns[c].rooms then s' == AfterLeave(s, c, r)
      else
        && r != "" && InRoom(RoomsFor(s, c), r, c) && s'.buckets != [] && Enabled(s', RecordLeave(c))
        && Next(max, s', RecordLeave(c)) == AfterLeave(s, c, r)
  {
    assert InRoom(RoomsFor(s, c), r, c) <==> Expected(s, BucketOf(s, c), r, c);
    assert ConnOk(max, s.conns[c]);
  }

  lemma LeaveParts(s: State, c: ConnId, r: RoomId)
    requires s.buckets != [] && c in s.conns && s.conns[c].doing.Resting? && "" !in s.conns[c].rooms
    ensures
      var s', rooms := AfterLeave(s, c, r), s.conns[c].rooms;
      var leaves := r != "" && r in rooms;
      && s'.conns == s.conns[c := Conn(rooms - (if leaves then {r} else {}), Resting)]
      && s'.buckets == (if leaves then s.buckets[BucketOf(s, c) := Left(RoomsFor(s, c), r, c)] else s.buckets)
      && s'.roomCount == s.roomCount -
         (if leaves && r in RoomsFor(s, c) && RoomsFor(s, c)[r] - {c} == {} then 1 else 0)
  {
    hide Left;
    assert s.conns[c].rooms - {} == s.conns[c].rooms;
  }

  /** One room of leaveAll. */
  function AfterDrop(s: State, c: ConnId, r: RoomId): State
    requires s.buckets != [] && c in s.conns
  {
    var rooms := Left(RoomsFor(s, c), r, c);
    State(s.buckets[BucketOf(s, c) := rooms], s.conns[c := Conn(s.conns[c].rooms - {r}, Closing)],
          s.roomCount - |RoomsFor(s, c)| + |rooms|, s.failures)
  }

  lemma DropIsTwoSteps(max: int, s: State, c: ConnId, r: RoomId)
    requires Inv(max, s) && Enabled(s, LeaveNext(c, r))
    ensures
      var s' := Next(max, s, LeaveNext(c, r));
      && s'.buckets != [] && Enabled(s', RecordNext(c))
      && Next(max, s', RecordNext(c)) == AfterDrop(s, c, r)
  {
    LeaveKeeps(max, s, c, r, Dropping(r));
    hide Inv;
    CountMoves(RoomsFor(s, c), r, c);
    hide Left, InRoom;
  }

  /** What leaveAll has done to a state and what it has still to do, in whatever order. */
  ghost predicate Leaving(s: State, s': State, c: ConnId)
    requires s.buckets != [] && c in s.conns
  {
    var k := BucketOf(s, c);
    && c in s'.conns && s'.conns[c].doing.Closing? && |s'.buckets| == |s.buckets|
    && s'.conns == s.conns[c := s'.conns[c]]
    && s'.buckets == s.buckets[k := s'.buckets[k]]
    && LeftAll(s'.buckets[k], c, s'.conns[c].rooms) == LeftAll(s.buckets[k], c, s.conns[c].rooms)
    && s'.roomCount - |s'.buckets[k]| == s.roomCount - |s.buckets[k]|
  }

  lemma LeavingMore(s: State, s': State, c: ConnId, r: RoomId)
    requires s.buckets != [] && c in s.conns && Leaving(s, s', c) && r in s'.conns[c].rooms
    requires NoneEmpty(RoomsFor(s', c))
    ensures Leaving(s, AfterDrop(s', c, r), c) && AfterDrop(s', c, r).conns[c].rooms == s'.conns[c].rooms - {r}
  {
    LeftAllOne(RoomsFor(s', c), c, s'.conns[c].rooms, r);
    hide Left, LeftAll;
    UpdateTwice(s.buckets, BucketOf(s, c), RoomsFor(s', c), Left(RoomsFor(s', c), r, c));
  }

  class Hub {
    const connMgr: ConnManager
    const maxJoinRoom: int
    ghost var conns: map<ConnId, Connection>
    ghost var gone: set<ConnId>
    ghost var run: seq<State>
    ghost var steps: seq<Step>

    ghost predicate OnRun()
      reads this`run, this`steps
    {
      IsRun(|connMgr.buckets|, maxJoinRoom, run, steps)
    }

    ghost function Now(): State
      requires run != []
      reads this`run
    {
      run[|run| - 1]
    }

    /** What the run has for a connection between two calls. */
    ghost function Rest(c: ConnId): Conn
      requires c in conns
      reads this`conns, this`gone, conns.Values
    {
      Conn(conns[c].rooms, if c in gone then Gone else Resting)
    }

    ghost predicate ConnsAgree()
      requires run != []
      reads this`conns, this`gone, this`run, conns.Values
    {
      && Now().conns.Keys == conns.Keys
      && forall c :: c in conns ==> conns[c].connId == c && Now().conns[c] == Rest(c)
    }

    ghost predicate BucketsAgree()
      requires run != []
      reads this`run, connMgr, connMgr.Objects(), connMgr.stats
    {
      Now().buckets == connMgr.View() && Now().roomCount == connMgr.stats.roomCount
    }

    ghost predicate Apart()
      reads this`conns, connMgr, connMgr.buckets
    {
      forall c :: c in conns ==> conns[c] !in connMgr.Objects()
    }

    ghost predicate Valid()
      reads this, conns.Values, connMgr, connMgr.buckets, connMgr.Objects(), connMgr.stats
    {
      && connMgr.Valid() && Apart() && this !in connMgr.Objects()
      && run != [] && OnRun() && ConnsAgree() && BucketsAgree()
    }

    constructor (n: nat, maxJoinRoom: int)
      requires n > 0
      ensures Valid() && conns == map[] && |connMgr.buckets| == n && this.maxJoinRoom == maxJoinRoom
    {
      connMgr := new ConnManager(n);
      this.maxJoinRoom := maxJoinRoom;
      conns, gone := map[], {};
      run, steps := [Start(n)], [];
    }

    /** What a change of the run alone leaves as it was. */
    twostate predicate ObjectsStay()
      reads connMgr, connMgr.buckets, connMgr.Objects(), connMgr.stats
    {
      && connMgr.Objects() == old(connMgr.Objects()) && connMgr.View() == old(connMgr.View())
      && connMgr.Valid() == old(connMgr.Valid()) && connMgr.stats.roomCount == old(connMgr.stats.roomCount)
    }

    ghost method Do(step: Step)
      requires this !in connMgr.Objects()
      requires run != [] && OnRun() && Now().buckets != [] && Enabled(Now(), step)
      modifies this`run, this`steps
      ensures run != [] && OnRun() && Now() == Next(maxJoinRoom, old(Now()), step) && old(run) <= run
      ensures ObjectsStay()
    {
      hide Enabled, Next;
      run, steps := run + [Next(maxJoinRoom, Now(), step)], steps + [step];
    }

    lemma InvNow()
      requires run != [] && OnRun()
      ensures Inv(maxJoinRoom, Now()) && |Now().buckets| == |connMgr.buckets| && connMgr.buckets != []
    {
      hide Inv, Next, Enabled;
      RunInv(|connMgr.buckets|, maxJoinRoom, run, steps, |run| - 1);
    }

    lemma SameIndex(c: ConnId)
      requires run != [] && BucketsAgree() && connMgr.buckets != []
      ensures Now().buckets != [] && BucketOf(Now(), c) == connMgr.Index(c)
    {}

    /** After any calls: a bucket has exactly the members that the connections of its ids say, and RoomCount counts its rooms. */
    lemma Agreement(c: ConnId, r: RoomId, b: nat)
      requires Valid() && b < |connMgr.buckets|
      ensures InRoom(connMgr.View()[b], r, c) <==> c in conns && b == connMgr.Index(c) && r in conns[c].rooms
      ensures r in connMgr.View()[b] ==> connMgr.View()[b][r] != {}
      ensures connMgr.stats.roomCount == SumRooms(connMgr.View())
      ensures c in conns && conns[c].rooms != {} ==> |conns[c].rooms| <= maxJoinRoom
    {
      hide OnRun, ConnManager.Valid, ConnManager.Objects;
      InvNow();
      SameIndex(c);
      assert InRoom(Now().buckets[b], r, c) <==> Expected(Now(), b, r, c);
      assert c in conns ==> ConnOk(maxJoinRoom, Now().conns[c]);
    }

    // ----- the stretches of a run that the calls are -----

    ghost method JoinSteps(c: ConnId, room: RoomId)
      requires this !in connMgr.Objects()
      requires run != [] && OnRun() && c in Now().conns && Now().conns[c].doing.Resting?
      modifies this`run, this`steps
      ensures run != [] && OnRun() && old(run) <= run && old(Now()).buckets != [] && Now() == AfterJoin(maxJoinRoom, old(Now()), c, room)
      ensures ObjectsStay()
      ensures MayJoin(old(Now()).conns[c], room, maxJoinRoom) ==> !InRoom(RoomsFor(old(Now()), c), room, c)
    {
      InvNow();
      if MayJoin(Now().conns[c], room, maxJoinRoom) {
        NotThereYet(maxJoinRoom, Now(), c, room);
      }
      JoinIsTwoSteps(maxJoinRoom, Now(), c, room);
      hide OnRun, Inv, Next, AfterJoin, MayJoin, ConnManager.Objects, ConnManager.View, ConnManager.Valid;
      ghost var joins := MayJoin(Now().conns[c], room, maxJoinRoom);
      Do(Join(c, room));
      if joins {
        Do(RecordJoin(c));
      }
    }

    ghost method LeaveSteps(c: ConnId, room: RoomId)
      requires this !in connMgr.Objects()
      requires run != [] && OnRun() && c in Now().conns && Now().conns[c].doing.Resting?
      modifies this`run, this`steps
      ensures run != [] && OnRun() && old(run) <= run && old(Now()).buckets != [] && Now() == AfterLeave(old(Now()), c, room)
      ensures ObjectsStay()
      ensures room in old(Now()).conns[c].rooms ==> room != "" && InRoom(RoomsFor(old(Now()), c), room, c)
    {
      InvNow();
      LeaveIsTwoSteps(maxJoinRoom, Now(), c, room);
      hide OnRun, Inv, Next, AfterLeave, ConnManager.Objects, ConnManager.View, ConnManager.Valid;
      ghost var leaves := room in Now().conns[c].rooms;
      Do(Rooms.Leave(c, room));
      if leaves {
        Do(RecordLeave(c));
      }
    }

    ghost method CloseSteps(c: ConnId)
      requires this !in connMgr.Objects()
      requires run != [] && OnRun() && c in Now().conns && Now().conns[c].doing.Resting?
      modifies this`run, this`steps
      ensures run != [] && OnRun() && old(run) <= run && old(Now()).buckets != [] && |Now().buckets| == |old(Now()).buckets|
      ensures ObjectsStay()
      ensures
        var s, s', k := old(Now()), Now(), BucketOf(old(Now()), c);
        && s'.conns == s.conns[c := Conn({}, Gone)]
        && s'.buckets == s.buckets[k := LeftAll(s.buckets[k], c, s.conns[c].rooms)]
        && s'.roomCount - |s'.buckets[k]| == s.roomCount - |s.buckets[k]|
    {
      hide OnRun, LeftAll, Left, NoneEmpty, ConnManager.Objects, ConnManager.View, ConnManager.Valid;
      InvNow();
      hide Inv;
      ghost var s := Now();
      Do(StartClose(c));
      hide Next;
      while Now().conns[c].rooms != {}
        invariant run != [] && OnRun() && old(run) <= run && ObjectsStay() && Leaving(s, Now(), c)
        decreases |Now().conns[c].rooms|
      {
        hide Leaving;
        ghost var room :| room in Now().conns[c].rooms;
        DropOne(c, room, s);
      }
      LeftAllNone(RoomsFor(Now(), c), c);
      Do(EndClose(c));
    }

    ghost method DropOne(c: ConnId, room: RoomId, s: State)
      requires this !in connMgr.Objects()
      requires run != [] && OnRun() && s.buckets != [] && c in s.conns && Leaving(s, Now(), c) && room in Now().conns[c].rooms
      modifies this`run, this`steps
      ensures run != [] && OnRun() && old(run) <= run && ObjectsStay() && Leaving(s, Now(), c)
      ensures Now().conns[c].rooms == old(Now().conns[c].rooms) - {room}
    {
      InvNow();
      assert NoneEmpty(RoomsFor(Now(), c));
      DropIsTwoSteps(maxJoinRoom, Now(), c, room);
      LeavingMore(s, Now(), c, room);
      hide OnRun, Inv, Next, AfterDrop, ConnManager.Objects, ConnManager.View, ConnManager.Valid;
      Do(LeaveNext(c, room));
      Do(RecordNext(c));
    }

    // ----- the calls -----

    ghost method Connect(conn: Connection)
      requires Valid() && conn.connId !in conns && conn.rooms == {} && conn !in connMgr.Objects()
      modifies this`conns, this`gone, this`run, this`steps
      ensures Valid() && old(run) <= run && conns == old(conns)[conn.connId := conn] && gone == old(gone) - {conn.connId}
    {
      hide OnRun, Inv, ConnManager.Valid, ConnManager.View, ConnManager.Objects;
      InvNow();
      assert Now().buckets != [];
      ghost var c, s, objects, view := conn.connId, Now(), connMgr.Objects(), connMgr.View();
      Do(Rooms.Connect(c));
      assert Now() == Put(s, c, Conn({}, Resting));
      hide Next, Enabled;
      assert connMgr.Objects() == objects && connMgr.View() == view && connMgr.Valid();
      conns, gone := conns[c := conn], gone - {c};
      assert connMgr.Objects() == objects && connMgr.View() == view && connMgr.Valid();
      assert BucketsAgree();
      assert Apart();
      assert ConnsAgree();
    }

    twostate lemma OthersKeep(conn: Connection)
      requires old(run != [] && ConnsAgree()) && run != [] && conns == old(conns)
      requires conn.connId in conns && conns[conn.connId] == conn
      requires Now().conns == old(Now()).conns[conn.connId := Rest(conn.connId)]
      requires forall c :: c in conns && c != conn.connId ==> conns[c].rooms == old(conns[c].rooms) && (c in gone <==> c in old(gone))
      ensures ConnsAgree()
    {}

    method HandleJoin(conn: Connection, room: RoomId) returns (ok: bool)
      requires Valid() && conn.connId in conns && conns[conn.connId] == conn && conn.connId !in gone
      modifies this`run, this`steps, conn`rooms, connMgr.Objects(), connMgr.stats`roomCount
      ensures Valid() && old(run) <= run && ok == (room != "")
      ensures conn.rooms == old(conn.rooms) + if MayJoin(Conn(old(conn.rooms), Resting), room, maxJoinRoom) then {room} else {}
      ensures forall x :: x in conn.rooms <==> x in old(conn.rooms) || (x == room && room != "" && |old(conn.rooms)| < maxJoinRoom)
    {
      hide OnRun, Joined, InRoom, ConnManager.Valid, ConnManager.View, ConnManager.Objects;
      ghost var c, s := conn.connId, Now();
      InvNow();
      SameIndex(c);
      hide BucketOf, Inv, ConnManager.Index;
      JoinSteps(c, room);
      JoinParts(maxJoinRoom, s, c, room);
      hide AfterJoin, MayJoin;
      ok := conn.HandleJoin(connMgr, maxJoinRoom, room);
      assert BucketsAgree();
      assert Apart();
      OthersKeep(conn);
    }

    method HandleLeave(conn: Connection, room: RoomId) returns (ok: bool)
      requires Valid() && conn.connId in conns && conns[conn.connId] == conn && conn.connId !in gone
      modifies this`run, this`steps, conn`rooms, connMgr.Objects(), connMgr.stats`roomCount
      ensures Valid() && old(run) <= run && ok == (room != "")
      ensures conn.rooms == old(conn.rooms) - {room}
    {
      hide OnRun, Left, InRoom, ConnManager.Valid, ConnManager.View, ConnManager.Objects;
      ghost var c, s := conn.connId, Now();
      InvNow();
      assert ConnOk(maxJoinRoom, s.conns[c]);
      SameIndex(c);
      hide BucketOf, Inv, ConnManager.Index;
      LeaveSteps(c, room);
      LeaveParts(s, c, room);
      hide AfterLeave;
      ok := conn.HandleLeave(connMgr, room);
      assert BucketsAgree();
      assert Apart();
      OthersKeep(conn);
    }

    method LeaveAll(conn: Connection)
      requires Valid() && conn.connId in conns && conns[conn.connId] == conn && conn.connId !in gone
      modifies this`run, this`steps, this`gone, conn`rooms, connMgr.Objects(), connMgr.stats`roomCount
      ensures Valid() && old(run) <= run && conn.rooms == {} && gone == old(gone) + {conn.connId}
    {
      hide OnRun, LeftAll, NoneEmpty, ConnManager.Valid, ConnManager.View, ConnManager.Objects;
      ghost var c, s := conn.connId, Now();
      InvNow();
      SameIndex(c);
      assert NoneEmpty(s.buckets[BucketOf(s, c)]);
      hide BucketOf, Inv, ConnManager.Index;
      CloseSteps(c);
      conn.LeaveAll(connMgr);
      gone := gone + {c};
      assert BucketsAgree();
      assert Apart();
      OthersKeep(conn);
    }
  }

  // ----- the last room that is allowed -----

  function Name(k: nat): RoomId
  {
    seq(k, _ => 'a')
  }

  lemma RunMore(n: nat, max: int, run: seq<State>, steps: seq<Step>, step: Step)
    requires IsRun(n, max, run, steps)
    requires run[|run| - 1].buckets != [] && Enabled(run[|run| - 1], step)
    ensures IsRun(n, max, run + [Next(max, run[|run| - 1], step)], steps + [step])
  {
    hide Enabled, Next;
  }

  /** A connection can fill up to the limit: for every k up to maxJoinRoom a run leads it into exactly k rooms. */
  lemma {:induction false} RoomsCanFill(n: nat, max: int, k: nat) returns (run: seq<State>, steps: seq<Step>)
    requires n > 0 && k <= max
    ensures IsRun(n, max, run, steps) && 0 in run[|run| - 1].conns && run[|run| - 1].conns[0].doing.Resting?
    ensures |run[|run| - 1].conns[0].rooms| == k && forall r :: r in run[|run| - 1].conns[0].rooms ==> |r| <= k
  {
    if k == 0 {
      var s := Start(n);
      run, steps := [s], [];
      RunMore(n, max, run, steps, Connect(0));
      run, steps := run + [Next(max, s, Connect(0))], steps + [Connect(0)];
    } else {
      run, steps := RoomsCanFill(n, max, k - 1);
      hide IsRun;
      var s := run[|run| - 1];
      assert IsRun(n, max, run, steps);
      RunInv(n, max, run, steps, |run| - 1);
      OneRoomMore(n, max, s, k);
      RunMore(n, max, run, steps, Join(0, Name(k)));
      var s1 := Next(max, s, Join(0, Name(k)));
      run, steps := run + [s1], steps + [Join(0, Name(k))];
      RunMore(n, max, run, steps, RecordJoin(0));
      run, steps := run + [Next(max, s1, RecordJoin(0))], steps + [RecordJoin(0)];
    }
  }

  lemma OneRoomMore(n: nat, max: int, s: State, k: nat)
    requires Inv(max, s) && |s.buckets| == n > 0 && 0 < k <= max
    requires 0 in s.conns && s.conns[0].doing.Resting? && |s.conns[0].rooms| == k - 1 && forall r :: r in s.conns[0].rooms ==> |r| <= k - 1
    ensures Enabled(s, Join(0, Name(k)))
    ensures
      var s1 := Next(max, s, Join(0, Name(k)));
      && s1.buckets != [] && Enabled(s1, RecordJoin(0))
      && var s2 := Next(max, s1, RecordJoin(0));
      && 0 in s2.conns && s2.conns[0] == Conn(s.conns[0].rooms + {Name(k)}, Resting)
      && |s2.conns[0].rooms| == k && forall r :: r in s2.conns[0].rooms ==> |r| <= k
  {
    assert |Name(k)| == k && Name(k) !in s.conns[0].rooms;
    NotThereYet(max, s, 0, Name(k));
    hide Inv;
    JoinIsTwoSteps(max, s, 0, Name(k));
    hide Next;
  }
}
