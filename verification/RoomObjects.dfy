/** Room, Bucket, Connection and ConnManager of pkg/ws as objects, against the functions of Rooms. */
module RoomObjects {
  import opened Rooms

  class Statistics {
    var roomCount: int
    var onlineConnections: int

    constructor ()
      ensures roomCount == 0 && onlineConnections == 0
    {
      roomCount, onlineConnections := 0, 0;
    }
  }

  class Room {
    var members: set<ConnId>

    constructor ()
      ensures members == {}
    {
      members := {};
    }

    /** False for ErrJoinRoomTwice. */
    method Join(c: ConnId) returns (ok: bool)
      modifies this
      ensures ok == (c !in old(members)) && members == old(members) + {c}
    {
      if c in members {
        return false;
      }
      members := members + {c};
      return true;
    }

    /** False for ErrNotInRoom. */
    method Leave(c: ConnId) returns (ok: bool)
      modifies this
      ensures ok == (c in old(members)) && members == old(members) - {c}
    {
      if c !in members {
        return false;
      }
      members := members - {c};
      return true;
    }

    function Count(): nat
      reads this
    {
      |members|
    }
  }

  class Bucket {
    var rooms: map<RoomId, Room>
    var id2Conn: map<ConnId, Connection>
    const stats: Statistics

    constructor (stats: Statistics)
      ensures Valid() && View() == map[] && rooms == map[] && id2Conn == map[] && this.stats == stats
    {
      rooms, id2Conn := map[], map[];
      this.stats := stats;
    }

    ghost predicate Valid()
      reads this
    {
      forall q, r :: q in rooms && r in rooms && q != r ==> rooms[q] != rooms[r]
    }

    ghost function View(): RoomMap
      reads this, rooms.Values
    {
      map r | r in rooms :: rooms[r].members
    }

    method JoinRoom(r: RoomId, c: ConnId) returns (ok: bool)
      requires Valid()
      modifies this`rooms, rooms.Values, stats`roomCount
      ensures Valid() && fresh(rooms.Values - old(rooms.Values))
      ensures View() == Joined(old(View()), r, c)
      ensures ok == !InRoom(old(View()), r, c)
      ensures stats.roomCount == old(stats.roomCount) + if r in old(View()) then 0 else 1
    {
      if r !in rooms {
        var room := new Room();
        rooms := rooms[r := room];
        stats.roomCount := stats.roomCount + 1;
      }
      ok := rooms[r].Join(c);
    }

    method LeaveRoom(r: RoomId, c: ConnId) returns (ok: bool)
      requires Valid()
      modifies this`rooms, rooms.Values, stats`roomCount
      ensures Valid() && rooms.Values <= old(rooms.Values)
      ensures View() == Left(old(View()), r, c)
      ensures ok == InRoom(old(View()), r, c)
      ensures stats.roomCount == old(stats.roomCount) - if r in old(View()) && old(View())[r] - {c} == {} then 1 else 0
    {
      if r !in rooms {
        return false;
      }
      ghost var was := View();
      ok := rooms[r].Leave(c);
      assert View() == was[r := was[r] - {c}];
      DropIfEmpty(r);
      assert was[r := was[r] - {c}] - {r} == was - {r};
    }

    method DropIfEmpty(r: RoomId)
      requires Valid() && r in rooms
      modifies this`rooms, stats`roomCount
      ensures Valid() && rooms.Values <= old(rooms.Values)
      ensures View() == if old(View())[r] == {} then old(View()) - {r} else old(View())
      ensures stats.roomCount == old(stats.roomCount) - if old(View())[r] == {} then 1 else 0
    {
      if rooms[r].Count() == 0 {
        rooms := rooms - {r};
        stats.roomCount := stats.roomCount - 1;
      }
    }

    method AddConn(conn: Connection)
      modifies this`id2Conn
      ensures id2Conn == old(id2Conn)[conn.connId := conn]
    {
      id2Conn := id2Conn[conn.connId := conn];
    }

    method DelConn(conn: Connection)
      modifies this`id2Conn
      ensures id2Conn == old(id2Conn) - {conn.connId}
    {
      id2Conn := id2Conn - {conn.connId};
    }

    /** Closes the connection, if there is one, and forgets it; its rooms are left to its own goroutine. */
    method DelConnByCID(connId: ConnId)
      requires forall c :: c in id2Conn ==> id2Conn[c].connId == c
      modifies this`id2Conn, set c | c in id2Conn :: id2Conn[c]
      ensures id2Conn == old(id2Conn) - {connId}
      ensures connId in old(id2Conn) ==> old(id2Conn)[connId].isClosed
      ensures forall c :: c in old(id2Conn) ==> old(id2Conn)[c].rooms == old(id2Conn[c].rooms)
      ensures forall c :: c in old(id2Conn) && c != connId ==> old(id2Conn)[c].isClosed == old(id2Conn[c].isClosed)
    {
      if connId in id2Conn {
        id2Conn[connId].Close();
        id2Conn := id2Conn - {id2Conn[connId].connId};
      } else {
        assert id2Conn - {connId} == id2Conn;
      }
    }
  }

  class ConnManager {
    const buckets: seq<Bucket>
    const stats: Statistics

    constructor (n: nat)
      requires n > 0
      ensures Valid() && |buckets| == n && View() == Start(n).buckets && stats.roomCount == 0
      ensures fresh(stats) && fresh(Objects())
    {
      var st := new Statistics();
      stats := st;
      var made: seq<Bucket> := [];
      while |made| < n
        invariant |made| <= n && fresh(st)
        invariant forall b :: b in made ==> fresh(b) && b.rooms == map[] && b.stats == st
        invariant forall i, j :: 0 <= i < j < |made| ==> made[i] != made[j]
        invariant st.roomCount == 0
        modifies {}
      {
        var b := new Bucket(st);
        made := made + [b];
      }
      buckets := made;
      new;
    }

    ghost predicate Valid()
      reads this, buckets
    {
      && buckets != []
      && (forall b :: b in buckets ==> b.Valid() && b.stats == stats)
      && (forall i, j :: 0 <= i < j < |buckets| ==> buckets[i] != buckets[j] && buckets[i].rooms.Values !! buckets[j].rooms.Values)
    }

    ghost function Objects(): set<object>
      reads this, buckets
    {
      (set b | b in buckets) + (set b, room | b in buckets && room in b.rooms.Values :: room)
    }

    ghost function View(): seq<RoomMap>
      reads this, Objects()
    {
      seq(|buckets|, i requires 0 <= i < |buckets| reads this, Objects() => buckets[i].View())
    }

    function Index(c: ConnId): nat
      requires buckets != []
    {
      c % |buckets|
    }

    function GetBucket(c: ConnId): Bucket
      requires buckets != []
    {
      buckets[Index(c)]
    }

    method JoinRoom(r: RoomId, c: ConnId) returns (ok: bool)
      requires Valid()
      modifies Objects(), stats`roomCount
      ensures Valid() && fresh(Objects() - old(Objects()))
      ensures View() == old(View())[Index(c) := Joined(old(View())[Index(c)], r, c)]
      ensures ok == !InRoom(old(View())[Index(c)], r, c)
      ensures stats.roomCount == old(stats.roomCount) + if r in old(View())[Index(c)] then 0 else 1
    {
      var bucket := GetBucket(c);
      hide Joined, InRoom;
      ghost var k := Index(c);
      ok := bucket.JoinRoom(r, c);
      hide Bucket.View, ConnManager.View, ConnManager.Objects;
      OthersUntouched(k);
      OneBucketGrew(k);
    }

    /** The buckets other than the k-th still have the rooms that they had. */
    twostate predicate SameBut(k: nat)
      requires k < |buckets|
      reads this, Objects()
    {
      && old(Valid()) && buckets[k].Valid() && fresh(buckets[k].rooms.Values - old(buckets[k].rooms.Values))
      && forall i :: 0 <= i < |buckets| && i != k ==>
                       buckets[i].rooms == old(buckets[i].rooms) && buckets[i].View() == old(buckets[i].View())
    }

    twostate lemma OthersUntouched(k: nat)
      requires old(Valid()) && k < |buckets| && buckets[k].Valid()
      requires fresh(buckets[k].rooms.Values - old(buckets[k].rooms.Values))
      requires forall i :: 0 <= i < |buckets| && i != k ==> unchanged(buckets[i])
      requires forall i, room :: 0 <= i < |buckets| && i != k && room in buckets[i].rooms.Values ==> unchanged(room)
      ensures SameBut(k)
    {}

    twostate lemma OneBucketGrew(k: nat)
      requires k < |buckets| && SameBut(k)
      ensures Valid() && fresh(Objects() - old(Objects()))
      ensures View() == old(View())[k := buckets[k].View()]
    {
      hide Bucket.View;
    }

    method LeaveRoom(r: RoomId, c: ConnId) returns (ok: bool)
      requires Valid()
      modifies Objects(), stats`roomCount
      ensures Valid() && Objects() <= old(Objects())
      ensures View() == old(View())[Index(c) := Left(old(View())[Index(c)], r, c)]
      ensures ok == InRoom(old(View())[Index(c)], r, c)
      ensures stats.roomCount == old(stats.roomCount) -
              if r in old(View())[Index(c)] && old(View())[Index(c)][r] - {c} == {} then 1 else 0
    {
      var bucket := GetBucket(c);
      hide Left, InRoom;
      ghost var k := Index(c);
      ok := bucket.LeaveRoom(r, c);
      hide Bucket.View, ConnManager.View, ConnManager.Objects;
      OthersUntouched(k);
      OneBucketGrew(k);
      OneBucketShrank(k);
    }

    twostate lemma OneBucketShrank(k: nat)
      requires k < |buckets| && SameBut(k) && buckets[k].rooms.Values <= old(buckets[k].rooms.Values)
      ensures Objects() <= old(Objects())
    {
      hide Bucket.View;
    }

    method AddConn(conn: Connection)
      requires buckets != []
      modifies GetBucket(conn.connId)`id2Conn, stats`onlineConnections
      ensures GetBucket(conn.connId).id2Conn == old(GetBucket(conn.connId).id2Conn)[conn.connId := conn]
      ensures stats.onlineConnections == old(stats.onlineConnections) + 1
    {
      var bucket := GetBucket(conn.connId);
      bucket.AddConn(conn);
      stats.onlineConnections := stats.onlineConnections + 1;
    }

    method DelConn(conn: Connection)
      requires buckets != []
      modifies GetBucket(conn.connId)`id2Conn, stats`onlineConnections
      ensures GetBucket(conn.connId).id2Conn == old(GetBucket(conn.connId).id2Conn) - {conn.connId}
      ensures stats.onlineConnections == old(stats.onlineConnections) - 1
    {
      var bucket := GetBucket(conn.connId);
      bucket.DelConn(conn);
      stats.onlineConnections := stats.onlineConnections - 1;
    }
  }

  /** A connection leaves a number of rooms of its bucket. */
  function LeftAll(rooms: RoomMap, c: ConnId, gone: set<RoomId>): RoomMap
  {
    map r | r in rooms && !(r in gone && rooms[r] - {c} == {}) :: if r in gone then rooms[r] - {c} else rooms[r]
  }

  lemma LeftAllOne(rooms: RoomMap, c: ConnId, gone: set<RoomId>, r: RoomId)
    requires r in gone && NoneEmpty(rooms)
    ensures LeftAll(Left(rooms, r, c), c, gone - {r}) == LeftAll(rooms, c, gone)
    ensures NoneEmpty(Left(rooms, r, c))
  {
    LeaveTakesOne(rooms, r, c);
  }

  lemma LeftAllNone(rooms: RoomMap, c: ConnId)
    ensures LeftAll(rooms, c, {}) == rooms
  {}

  /** After leaveAll the connection is in none of these rooms, and everybody else is where they were. */
  lemma LeftAllMeans(rooms: RoomMap, c: ConnId, gone: set<RoomId>)
    requires NoneEmpty(rooms)
    ensures NoneEmpty(LeftAll(rooms, c, gone))
    ensures forall r, d :: InRoom(LeftAll(rooms, c, gone), r, d) <==> InRoom(rooms, r, d) && !(d == c && r in gone)
  {
    forall r, d | InRoom(rooms, r, d) && !(d == c && r in gone)
      ensures InRoom(LeftAll(rooms, c, gone), r, d)
    {
      if r in gone {
        assert d in rooms[r] - {c};
      }
    }
  }

  lemma UpdateTwice(view: seq<RoomMap>, k: nat, rooms: RoomMap, rooms': RoomMap)
    requires k < |view|
    ensures view[k := rooms][k := rooms'] == view[k := rooms']
  {}

  class Connection {
    const connId: ConnId
    var rooms: set<RoomId>
    var isClosed: bool

    constructor (connId: ConnId)
      ensures this.connId == connId && rooms == {} && !isClosed
    {
      this.connId, rooms, isClosed := connId, {}, false;
    }

    method Close()
      modifies this`isClosed
      ensures isClosed
    {
      if !isClosed {
        isClosed := true;
      }
    }

    method TryJoin(connMgr: ConnManager, maxJoinRoom: int, room: RoomId) returns (ok: bool)
      requires connMgr.Valid() && this !in connMgr.Objects()
      modifies this`rooms, connMgr.Objects(), connMgr.stats`roomCount
      ensures connMgr.Valid() && fresh(connMgr.Objects() - old(connMgr.Objects()))
      ensures
        var k := connMgr.Index(connId);
        var joins := MayJoin(Conn(old(rooms), Resting), room, maxJoinRoom);
        var twice := InRoom(old(connMgr.View())[k], room, connId);
        && ok == (room != "" && !(joins && twice))
        && rooms == old(rooms) + (if joins && !twice then {room} else {})
        && connMgr.View() == (if joins then old(connMgr.View())[k := Joined(old(connMgr.View())[k], room, connId)] else old(connMgr.View()))
        && connMgr.stats.roomCount == old(connMgr.stats.roomCount) + (if joins && room !in old(connMgr.View())[k] then 1 else 0)
    {
      hide Joined, InRoom;
      if |room| == 0 {
        return false;
      }
      if |rooms| >= maxJoinRoom {
        return true;
      }
      if room in rooms {
        return true;
      }
      ok := connMgr.JoinRoom(room, connId);
      if !ok {
        return false;
      }
      rooms := rooms + {room};
    }

    /** handleJoin; false for an empty room name or a failed JoinRoom. A full or repeated join is ignored. */
    method HandleJoin(connMgr: ConnManager, maxJoinRoom: int, room: RoomId) returns (ok: bool)
      requires connMgr.Valid() && this !in connMgr.Objects()
      modifies this`rooms, connMgr.Objects(), connMgr.stats`roomCount
      ensures connMgr.Valid() && fresh(connMgr.Objects() - old(connMgr.Objects()))
      ensures
        var k := connMgr.Index(connId);
        var joins := MayJoin(Conn(old(rooms), Resting), room, maxJoinRoom);
        var twice := InRoom(old(connMgr.View())[k], room, connId);
        && ok == (room != "" && !(joins && twice))
        && rooms == old(rooms) + (if joins && !twice then {room} else {})
        && connMgr.View() == (if joins then old(connMgr.View())[k := Joined(old(connMgr.View())[k], room, connId)] else old(connMgr.View()))
        && connMgr.stats.roomCount == old(connMgr.stats.roomCount) + (if joins && room !in old(connMgr.View())[k] then 1 else 0)
      ensures
        var k := connMgr.Index(connId);
        var member := room in old(connMgr.View())[k] && connId in old(connMgr.View())[k][room];
        && (forall x :: x in rooms <==> x in old(rooms) || (x == room && room != "" && |old(rooms)| < maxJoinRoom && !member))
        && (ok <==> room != "" && (|old(rooms)| < maxJoinRoom && room !in old(rooms) ==> !member))
    {
      ghost var view := connMgr.View();
      ghost var k := connMgr.Index(connId);
      assert k < |view|;
      JoinMeans(rooms, room, maxJoinRoom, view[k], connId);
      hide Joined, InRoom, MayJoin, ConnManager.Valid, ConnManager.View, ConnManager.Objects;
      ok := TryJoin(connMgr, maxJoinRoom, room);
    }

    /** What MayJoin and InRoom come to. */
    static lemma JoinMeans(rooms: set<RoomId>, room: RoomId, max: int, bucket: RoomMap, c: ConnId)
      ensures InRoom(bucket, room, c) <==> room in bucket && c in bucket[room]
      ensures MayJoin(Conn(rooms, Resting), room, max) <==> room != "" && |rooms| < max && room !in rooms
    {}

    method HandleLeave(connMgr: ConnManager, room: RoomId) returns (ok: bool)
      requires connMgr.Valid() && this !in connMgr.Objects()
      modifies this`rooms, connMgr.Objects(), connMgr.stats`roomCount
      ensures connMgr.Valid() && connMgr.Objects() <= old(connMgr.Objects())
      ensures
        var k := connMgr.Index(connId);
        var leaves := room != "" && room in old(rooms);
        var member := InRoom(old(connMgr.View())[k], room, connId);
        && ok == (room != "" && (leaves ==> member))
        && rooms == old(rooms) - (if leaves && member then {room} else {})
        && connMgr.View() == (if leaves then old(connMgr.View())[k := Left(old(connMgr.View())[k], room, connId)] else old(connMgr.View()))
      ensures
        var rooms := old(connMgr.View())[connMgr.Index(connId)];
        connMgr.stats.roomCount == old(connMgr.stats.roomCount) -
          if room != "" && room in old(this.rooms) && room in rooms && rooms[room] - {connId} == {} then 1 else 0
    {
      hide Left, InRoom;
      if |room| == 0 {
        return false;
      }
      if room !in rooms {
        return true;
      }
      ok := connMgr.LeaveRoom(room, connId);
      if !ok {
        return false;
      }
      rooms := rooms - {room};
    }

    /** One room of leaveAll; the error of LeaveRoom is only logged. */
    method LeaveOne(connMgr: ConnManager, room: RoomId)
      requires connMgr.Valid() && this !in connMgr.Objects()
      modifies this`rooms, connMgr.Objects(), connMgr.stats`roomCount
      ensures connMgr.Valid() && connMgr.Objects() <= old(connMgr.Objects())
      ensures rooms == old(rooms) - {room}
      ensures
        var k := connMgr.Index(connId);
        var view := old(connMgr.View());
        && connMgr.View() == view[k := Left(view[k], room, connId)]
        && connMgr.stats.roomCount - |Left(view[k], room, connId)| == old(connMgr.stats.roomCount) - |view[k]|
    {
      ghost var view, k := connMgr.View(), connMgr.Index(connId);
      assert k < |view|;
      hide Left, ConnManager.Valid, InRoom, ConnManager.View, ConnManager.Objects, ConnManager.Index;
      CountMoves(view[k], room, connId);
      var _ := connMgr.LeaveRoom(room, connId);
      rooms := rooms - {room};
    }

    /** leaveAll: whatever the order, and whether or not a call of LeaveRoom fails. */
    method LeaveAll(connMgr: ConnManager)
      requires connMgr.Valid() && this !in connMgr.Objects()
      requires NoneEmpty(connMgr.View()[connMgr.Index(connId)])
      modifies this`rooms, connMgr.Objects(), connMgr.stats`roomCount
      ensures connMgr.Valid() && connMgr.Objects() <= old(connMgr.Objects())
      ensures rooms == {}
      ensures
        var k := connMgr.Index(connId);
        && connMgr.View() == old(connMgr.View())[k := LeftAll(old(connMgr.View())[k], connId, old(rooms))]
        && connMgr.stats.roomCount - |connMgr.View()[k]| == old(connMgr.stats.roomCount) - |old(connMgr.View())[k]|
    {
      var k := connMgr.Index(connId);
      ghost var before, gone := connMgr.View(), rooms;
      hide Left, LeftAll, NoneEmpty, ConnManager.Valid, ConnManager.Objects, ConnManager.View, InRoom;
      while rooms != {}
        invariant connMgr.Valid() && connMgr.Objects() <= old(connMgr.Objects())
        invariant |connMgr.View()| == |before| && NoneEmpty(connMgr.View()[k])
        invariant LeftAll(connMgr.View()[k], connId, rooms) == LeftAll(before[k], connId, gone)
        invariant connMgr.View() == before[k := connMgr.View()[k]]
        invariant connMgr.stats.roomCount - |connMgr.View()[k]| == old(connMgr.stats.roomCount) - |before[k]|
        decreases |rooms|
      {
        var room :| room in rooms;
        ghost var view := connMgr.View();
        LeftAllOne(view[k], connId, rooms, room);
        UpdateTwice(before, k, view[k], Left(view[k], room, connId));
        LeaveOne(connMgr, room);
      }
      LeftAllNone(connMgr.View()[k], connId);
    }
  }
}
