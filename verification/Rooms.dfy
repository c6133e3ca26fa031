/**
 Rooms of pkg/ws, indexed both ways: each bucket knows who is in its rooms, each connection knows
 which rooms it is in. The two sides are changed one after the other, by the connection's own
 goroutine, while other connections do the same.
 */
module Rooms {

  type RoomId = string
  type ConnId = nat
  type RoomMap = map<RoomId, set<ConnId>>

  // ----- what one call changes in a bucket -----

  predicate InRoom(rooms: RoomMap, r: RoomId, c: ConnId)
  {
    r in rooms && c in rooms[r]
  }

  /** Bucket.JoinRoom: a new room is made when it is needed. */
  function Joined(rooms: RoomMap, r: RoomId, c: ConnId): RoomMap
  {
    rooms[r := (if r in rooms then rooms[r] else {}) + {c}]
  }

  /** Bucket.LeaveRoom: a room that nobody is left in is removed. */
  function Left(rooms: RoomMap, r: RoomId, c: ConnId): RoomMap
  {
    if r !in rooms then rooms
    else if rooms[r] - {c} == {} then rooms - {r}
    else rooms[r := rooms[r] - {c}]
  }

  predicate NoneEmpty(rooms: RoomMap)
  {
    forall r :: r in rooms ==> rooms[r] != {}
  }

  /** Joining adds one member to one room, and leaving takes it out again. */
  lemma LeaveUndoesJoin(rooms: RoomMap, r: RoomId, c: ConnId)
    requires NoneEmpty(rooms) && !InRoom(rooms, r, c)
    ensures Left(Joined(rooms, r, c), r, c) == rooms
    ensures NoneEmpty(Joined(rooms, r, c))
    ensures forall x, d :: InRoom(Joined(rooms, r, c), x, d) <==> InRoom(rooms, x, d) || (x == r && d == c)
  {
    if r in rooms {
      assert rooms[r] + {c} - {c} == rooms[r];
    } else {
      assert {} + {c} - {c} == {};
      assert rooms[r := {c}] - {r} == rooms;
    }
  }

  lemma LeaveTakesOne(rooms: RoomMap, r: RoomId, c: ConnId)
    requires NoneEmpty(rooms)
    ensures NoneEmpty(Left(rooms, r, c))
    ensures forall x, d :: InRoom(Left(rooms, r, c), x, d) <==> InRoom(rooms, x, d) && !(x == r && d == c)
  {
    if r in rooms {
      var rest := rooms[r] - {c};
      assert forall d :: d in rooms[r] && d != c ==> d in rest;
    }
  }

  /** How RoomCount moves: up when the room is new, down when it is removed. */
  lemma CountMoves(rooms: RoomMap, r: RoomId, c: ConnId)
    ensures |Joined(rooms, r, c)| == |rooms| + if r in rooms then 0 else 1
    ensures |Left(rooms, r, c)| == |rooms| - if r in rooms && rooms[r] - {c} == {} then 1 else 0
  {
    var joined := Joined(rooms, r, c);
    assert joined.Keys == rooms.Keys + {r};
    var left := Left(rooms, r, c);
    if r in rooms && rooms[r] - {c} == {} {
      assert left.Keys == rooms.Keys - {r};
    } else {
      assert left.Keys == rooms.Keys;
    }
    assert |joined| == |joined.Keys| && |rooms| == |rooms.Keys| && |left| == |left.Keys|;
  }

  // ----- the hub -----

  /** What the goroutine of a connection has half done. */
  datatype Doing =
    | Resting
    | Entering(room: RoomId)       // in the bucket's room, not yet in conn.rooms
    | Exiting(room: RoomId)        // out of the bucket's room, still in conn.rooms
    | Closing                      // in leaveAll
    | Dropping(room: RoomId)       // in leaveAll, out of the bucket's room
    | Gone

  datatype Conn = Conn(rooms: set<RoomId>, doing: Doing)

  /** roomCount is the counter RoomCount; failures counts calls of JoinRoom and LeaveRoom that returned an error. */
  datatype State = State(buckets: seq<RoomMap>, conns: map<ConnId, Conn>, roomCount: int, failures: nat)

  datatype Step =
    | Connect(c: ConnId)
    | Join(c: ConnId, room: RoomId)
    | RecordJoin(c: ConnId)
    | Leave(c: ConnId, room: RoomId)
    | RecordLeave(c: ConnId)
    | StartClose(c: ConnId)
    | LeaveNext(c: ConnId, room: RoomId)
    | RecordNext(c: ConnId)
    | EndClose(c: ConnId)

  function Start(n: nat): State
  {
    State(seq(n, _ => map[]), map[], 0, 0)
  }

  predicate Enabled(s: State, step: Step)
  {
    match step
    case Connect(c) => c !in s.conns
    case _ =>
      step.c in s.conns &&
      var conn := s.conns[step.c];
      match step
      case Connect(_) => false
      case Join(_, _) => conn.doing.Resting?
      case RecordJoin(_) => conn.doing.Entering?
      case Leave(_, _) => conn.doing.Resting?
      case RecordLeave(_) => conn.doing.Exiting?
      case StartClose(_) => conn.doing.Resting?
      case LeaveNext(_, room) => conn.doing.Closing? && room in conn.rooms
      case RecordNext(_) => conn.doing.Dropping?
      case EndClose(_) => conn.doing.Closing? && conn.rooms == {}
  }

  /** GetBucket. */
  function BucketOf(s: State, c: ConnId): nat
    requires s.buckets != []
  {
    c % |s.buckets|
  }

  function RoomsFor(s: State, c: ConnId): RoomMap
    requires s.buckets != []
  {
    s.buckets[BucketOf(s, c)]
  }

  function Put(s: State, c: ConnId, conn: Conn): State
  {
    s.(conns := s.conns[c := conn])
  }

  /** connMgr.JoinRoom by connection c. */
  function EnterRoom(s: State, c: ConnId, r: RoomId): State
    requires s.buckets != []
  {
    var rooms := RoomsFor(s, c);
    s.(buckets := s.buckets[BucketOf(s, c) := Joined(rooms, r, c)],
       roomCount := s.roomCount + (if r in rooms then 0 else 1),
       failures := s.failures + (if InRoom(rooms, r, c) then 1 else 0))
  }

  /** connMgr.LeaveRoom by connection c. */
  function ExitRoom(s: State, c: ConnId, r: RoomId): State
    requires s.buckets != []
  {
    var rooms := RoomsFor(s, c);
    s.(buckets := s.buckets[BucketOf(s, c) := Left(rooms, r, c)],
       roomCount := s.roomCount - (if r in rooms && rooms[r] - {c} == {} then 1 else 0),
       failures := s.failures + (if InRoom(rooms, r, c) then 0 else 1))
  }

  /** handleJoin goes on to JoinRoom only for a named room, below the limit, and not joined yet. */
  predicate MayJoin(conn: Conn, r: RoomId, maxJoinRoom: int)
  {
    r != "" && |conn.rooms| < maxJoinRoom && r !in conn.rooms
  }

  /** What the connection itself keeps of the end of an action. */
  function Recorded(conn: Conn, step: Step): Conn
    requires step.RecordJoin? ==> conn.doing.Entering?
    requires step.RecordLeave? ==> conn.doing.Exiting?
    requires step.RecordNext? ==> conn.doing.Dropping?
  {
    match step
    case RecordJoin(_) => Conn(conn.rooms + {conn.doing.room}, Resting)
    case RecordLeave(_) => Conn(conn.rooms - {conn.doing.room}, Resting)
    case RecordNext(_) => Conn(conn.rooms - {conn.doing.room}, Closing)
    case StartClose(_) => conn.(doing := Closing)
    case _ => conn.(doing := Gone)
  }

  function Next(max: int, s: State, step: Step): State
    requires s.buckets != [] && Enabled(s, step)
  {
    match step
    case Connect(c) => Put(s, c, Conn({}, Resting))
    case Join(c, r) =>
      var conn := s.conns[c];
      if !MayJoin(conn, r, max) then s
      else if InRoom(RoomsFor(s, c), r, c) then EnterRoom(s, c, r)
      else Put(EnterRoom(s, c, r), c, conn.(doing := Entering(r)))
    case Leave(c, r) =>
      var conn := s.conns[c];
      if r == "" || r !in conn.rooms then s
      else if !InRoom(RoomsFor(s, c), r, c) then ExitRoom(s, c, r)
      else Put(ExitRoom(s, c, r), c, conn.(doing := Exiting(r)))
    case LeaveNext(c, r) => Put(ExitRoom(s, c, r), c, s.conns[c].(doing := Dropping(r)))
    case _ => Put(s, step.c, Recorded(s.conns[step.c], step))
  }

  ghost predicate IsRun(n: nat, max: int, run: seq<State>, steps: seq<Step>)
  {
    && n > 0 && |run| == |steps| + 1
    && run[0] == Start(n)
    && forall i :: 0 <= i < |steps| ==>
                     && run[i].buckets != [] && Enabled(run[i], steps[i])
                     && run[i + 1] == Next(max, run[i], steps[i])
  }

  // ----- agreement -----

  function SumRooms(buckets: seq<RoomMap>): nat
  {
    if buckets == [] then 0 else SumRooms(buckets[..|buckets| - 1]) + |buckets[|buckets| - 1]|
  }

  lemma {:induction false} SumUpdate(buckets: seq<RoomMap>, i: nat, rooms: RoomMap)
    requires i < |buckets|
    ensures SumRooms(buckets[i := rooms]) == SumRooms(buckets) - |buckets[i]| + |rooms|
  {
    var n := |buckets| - 1;
    if i == n {
      assert buckets[i := rooms][..n] == buckets[..n];
    } else {
      assert buckets[i := rooms][..n] == buckets[..n][i := rooms];
      SumUpdate(buckets[..n], i, rooms);
    }
  }

  /** The rooms whose members a connection is one of. */
  function Actual(conn: Conn): set<RoomId>
  {
    match conn.doing
    case Entering(r) => conn.rooms + {r}
    case Exiting(r) => conn.rooms - {r}
    case Dropping(r) => conn.rooms - {r}
    case _ => conn.rooms
  }

  predicate ConnOk(max: int, conn: Conn)
  {
    && (conn.rooms != {} ==> |conn.rooms| <= max)
    && (conn.doing.Entering? ==> conn.doing.room !in conn.rooms && |conn.rooms| < max)
    && (conn.doing.Exiting? || conn.doing.Dropping? ==> conn.doing.room in conn.rooms)
    && (conn.doing.Gone? ==> conn.rooms == {})
    && "" !in conn.rooms && (conn.doing.Entering? ==> conn.doing.room != "")
  }

  /** Who is in room r of bucket b, as the connections see it. */
  predicate Expected(s: State, b: nat, r: RoomId, c: ConnId)
    requires s.buckets != []
  {
    c in s.conns && BucketOf(s, c) == b && r in Actual(s.conns[c])
  }

  ghost predicate Agree(s: State)
  {
    s.buckets != [] && forall b, r, c :: 0 <= b < |s.buckets| ==> (InRoom(s.buckets[b], r, c) <==> Expected(s, b, r, c))
  }

  ghost predicate Inv(max: int, s: State)
  {
    && Agree(s)
    && (forall b :: 0 <= b < |s.buckets| ==> NoneEmpty(s.buckets[b]))
    && (forall c :: c in s.conns ==> ConnOk(max, s.conns[c]))
    && s.roomCount == SumRooms(s.buckets)
    && s.failures == 0
  }

  lemma {:induction false} SumOfEmpty(n: nat)
    ensures SumRooms(seq(n, _ => map[])) == 0
  {
    if n == 0 {
    } else {
      var all: seq<RoomMap> := seq(n, _ => map[]);
      var less: seq<RoomMap> := seq(n - 1, _ => map[]);
      assert all[..n - 1] == less;
      SumOfEmpty(n - 1);
    }
  }

  /** A call that changes one bucket, with what it changes in it and in the connection. */
  lemma BucketStep(max: int, s: State, c: ConnId, rooms: RoomMap, conn: Conn, r: RoomId, count: int, enter: bool)
    requires Inv(max, s) && c in s.conns && ConnOk(max, conn)
    requires rooms == if enter then Joined(RoomsFor(s, c), r, c) else Left(RoomsFor(s, c), r, c)
    requires count == SumRooms(s.buckets) + |rooms| - |RoomsFor(s, c)|
    requires InRoom(RoomsFor(s, c), r, c) == !enter
    requires Actual(conn) == if enter then Actual(s.conns[c]) + {r} else Actual(s.conns[c]) - {r}
    ensures Inv(max, s.(buckets := s.buckets[BucketOf(s, c) := rooms], conns := s.conns[c := conn], roomCount := count))
  {
    SumUpdate(s.buckets, BucketOf(s, c), rooms);
    if enter {
      LeaveUndoesJoin(RoomsFor(s, c), r, c);
    } else {
      LeaveTakesOne(RoomsFor(s, c), r, c);
    }
    hide Joined, Left, SumRooms, ConnOk, NoneEmpty, Actual;
    BucketAgrees(s, c, rooms, conn, r, count, enter);
  }

  lemma BucketAgrees(s: State, c: ConnId, rooms: RoomMap, conn: Conn, r: RoomId, count: int, enter: bool)
    requires Agree(s) && c in s.conns
    requires forall x, d :: InRoom(rooms, x, d) <==> if x == r && d == c then enter else InRoom(RoomsFor(s, c), x, d)
    requires Actual(conn) == if enter then Actual(s.conns[c]) + {r} else Actual(s.conns[c]) - {r}
    ensures Agree(s.(buckets := s.buckets[BucketOf(s, c) := rooms], conns := s.conns[c := conn], roomCount := count))
  {
    var s' := s.(buckets := s.buckets[BucketOf(s, c) := rooms], conns := s.conns[c := conn], roomCount := count);
    hide Actual;
    forall b, x, d | 0 <= b < |s.buckets|
      ensures InRoom(s'.buckets[b], x, d) <==> Expected(s', b, x, d)
    {
      hide InRoom, BucketOf;
      assert InRoom(s.buckets[b], x, d) <==> Expected(s, b, x, d);
      assert BucketOf(s', d) == BucketOf(s, d) by { SameBucket(s, s', d); }
    }
  }

  lemma SameBucket(s: State, s': State, c: ConnId)
    requires s.buckets != [] && |s'.buckets| == |s.buckets|
    ensures BucketOf(s', c) == BucketOf(s, c)
  {}

  /** A step that leaves the buckets alone and a connection in the same rooms. */
  lemma LocalStep(max: int, s: State, c: ConnId, conn: Conn)
    requires Inv(max, s) && ConnOk(max, conn)
    requires Actual(conn) == if c in s.conns then Actual(s.conns[c]) else {}
    ensures Inv(max, Put(s, c, conn))
  {
    var s' := Put(s, c, conn);
    forall b, x, d | 0 <= b < |s.buckets|
      ensures InRoom(s'.buckets[b], x, d) <==> Expected(s', b, x, d)
    {
      assert InRoom(s.buckets[b], x, d) <==> Expected(s, b, x, d);
    }
  }

  lemma JoinKeeps(max: int, s: State, c: ConnId, r: RoomId)
    requires Inv(max, s) && Enabled(s, Join(c, r))
    ensures Inv(max, Next(max, s, Join(c, r)))
  {
    var conn := s.conns[c];
    if MayJoin(conn, r, max) {
      assert InRoom(RoomsFor(s, c), r, c) <==> Expected(s, BucketOf(s, c), r, c);
      CountMoves(RoomsFor(s, c), r, c);
      BucketStep(max, s, c, Joined(RoomsFor(s, c), r, c), conn.(doing := Entering(r)), r, EnterRoom(s, c, r).roomCount, true);
    }
  }

  lemma LeaveKeeps(max: int, s: State, c: ConnId, r: RoomId, doing: Doing)
    requires Inv(max, s) && c in s.conns && r in s.conns[c].rooms && (s.conns[c].doing.Resting? || s.conns[c].doing.Closing?)
    requires doing == Exiting(r) || doing == Dropping(r)
    ensures Inv(max, Put(ExitRoom(s, c, r), c, s.conns[c].(doing := doing))) && InRoom(RoomsFor(s, c), r, c)
  {
    assert InRoom(RoomsFor(s, c), r, c) <==> Expected(s, BucketOf(s, c), r, c);
    CountMoves(RoomsFor(s, c), r, c);
    BucketStep(max, s, c, Left(RoomsFor(s, c), r, c), s.conns[c].(doing := doing), r, ExitRoom(s, c, r).roomCount, false);
  }

  lemma SmallerSet(rooms: set<RoomId>, r: RoomId)
    ensures |rooms - {r}| <= |rooms| && |rooms + {r}| <= |rooms| + 1
  {
    if r in rooms {
      assert rooms + {r} == rooms;
    }
  }

  lemma StepKeeps(max: int, s: State, step: Step)
    requires Inv(max, s) && Enabled(s, step)
    ensures Inv(max, Next(max, s, step))
  {
    hide Inv;
    match step
    case Connect(c) => LocalStep(max, s, c, Conn({}, Resting));
    case Join(c, r) => JoinKeeps(max, s, c, r);
    case Leave(c, r) =>
      if r != "" && r in s.conns[c].rooms {
        LeaveKeeps(max, s, c, r, Exiting(r));
      }
    case LeaveNext(c, r) => LeaveKeeps(max, s, c, r, Dropping(r));
    case _ => RecordKeeps(max, s, step);
  }

  lemma RecordKeeps(max: int, s: State, step: Step)
    requires Inv(max, s) && Enabled(s, step)
    requires step.RecordJoin? || step.RecordLeave? || step.RecordNext? || step.StartClose? || step.EndClose?
    ensures Inv(max, Next(max, s, step))
  {
    var c := step.c;
    var conn := s.conns[c];
    var conn' := Recorded(conn, step);
    RecordedOk(max, conn, step);
    hide Inv, ConnOk, Actual;
    LocalStep(max, s, c, conn');
  }

  lemma RecordedOk(max: int, conn: Conn, step: Step)
    requires ConnOk(max, conn)
    requires match step
             case RecordJoin(_) => conn.doing.Entering?
             case RecordLeave(_) => conn.doing.Exiting?
             case RecordNext(_) => conn.doing.Dropping?
             case StartClose(_) => conn.doing.Resting?
             case EndClose(_) => conn.doing.Closing? && conn.rooms == {}
             case _ => false
    ensures ConnOk(max, Recorded(conn, step)) && Actual(Recorded(conn, step)) == Actual(conn)
  {
    if conn.doing.Entering? || conn.doing.Exiting? || conn.doing.Dropping? {
      SmallerSet(conn.rooms, conn.doing.room);
    }
  }

  lemma {:induction false} RunInv(n: nat, max: int, run: seq<State>, steps: seq<Step>, i: nat)
    requires IsRun(n, max, run, steps) && i < |run|
    ensures Inv(max, run[i]) && |run[i].buckets| == n
  {
    if i == 0 {
      SumOfEmpty(n);
    } else {
      RunInv(n, max, run, steps, i - 1);
      hide Inv;
      assert Enabled(run[i - 1], steps[i - 1]) && run[i - 1 + 1] == Next(max, run[i - 1], steps[i - 1]);
      StepKeeps(max, run[i - 1], steps[i - 1]);
    }
  }

  // ----- what a run promises -----

  /**
   A connection at rest is in exactly the rooms it knows of, all of them in the bucket of its id;
   no bucket holds anybody else, and no call of JoinRoom or LeaveRoom ever fails.
   */
  lemma RoomsAgree(n: nat, max: int, run: seq<State>, steps: seq<Step>, i: nat, c: ConnId, b: nat, r: RoomId)
    requires IsRun(n, max, run, steps) && i < |run| && b < n
    ensures |run[i].buckets| == n && run[i].failures == 0
    ensures c !in run[i].conns || b != c % n ==> !InRoom(run[i].buckets[b], r, c)
    ensures c in run[i].conns && run[i].conns[c].doing.Resting? && b == c % n ==>
              (r in run[i].conns[c].rooms <==> InRoom(run[i].buckets[b], r, c))
    ensures c in run[i].conns && run[i].conns[c].doing.Gone? ==> !InRoom(run[i].buckets[b], r, c)
  {
    RunInv(n, max, run, steps, i);
    assert InRoom(run[i].buckets[b], r, c) <==> Expected(run[i], b, r, c);
    assert c in run[i].conns ==> ConnOk(max, run[i].conns[c]);
  }

  /** No room is empty, RoomCount counts the rooms, and no connection is in more rooms than allowed. */
  lemma RoomsCounted(n: nat, max: int, run: seq<State>, steps: seq<Step>, i: nat, b: nat, r: RoomId, c: ConnId)
    requires IsRun(n, max, run, steps) && i < |run| && b < |run[i].buckets|
    ensures r in run[i].buckets[b] ==> run[i].buckets[b][r] != {}
    ensures run[i].roomCount == SumRooms(run[i].buckets)
    ensures c in run[i].conns && run[i].conns[c].rooms != {} ==> |run[i].conns[c].rooms| <= max
  {
    RunInv(n, max, run, steps, i);
    assert NoneEmpty(run[i].buckets[b]);
  }

  /** What one connection does, leaveAll included, changes no other connection's membership of any room. */
  lemma OthersStay(max: int, s: State, step: Step, b: nat, r: RoomId, c: ConnId)
    requires Inv(max, s) && Enabled(s, step) && b < |s.buckets| && c != step.c
    ensures |Next(max, s, step).buckets| == |s.buckets|
    ensures InRoom(Next(max, s, step).buckets[b], r, c) <==> InRoom(s.buckets[b], r, c)
    ensures c in s.conns <==> c in Next(max, s, step).conns
    ensures c in s.conns ==> Next(max, s, step).conns[c] == s.conns[c]
  {
    var s' := Next(max, s, step);
    StepKeeps(max, s, step);
    assert |s'.buckets| == |s.buckets|;
    assert InRoom(s.buckets[b], r, c) <==> Expected(s, b, r, c);
    assert InRoom(s'.buckets[b], r, c) <==> Expected(s', b, r, c);
  }
}
