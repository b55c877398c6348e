/** The room event relay of the socket server (prod-server/server.ts).

    Each connection may join rooms; every client event names a room and is reshaped into
    one server event that is emitted to the whole room, sender included, with socket.io's
    room semantics: `socket.join(r)` adds the connection to `r`, `io.to(r).emit(e)`
    delivers `e` once to every current member of `r`, a new connection sits in a room
    named after its own id, and a closed connection leaves every room.

    What a connection observes is its inbox: the events delivered to it, in order. The
    delivery log interleaves the inboxes; the order in which one broadcast reaches the
    members of a room is left open. */
module RoomRelay {
  import opened Js

  type ConnId = string
  type RoomId = string

  /** Events the server emits to a room. */
  datatype ServerEvent =
    | UserJoined(socketId: ConnId)
    | TimerStarted(duration: Value, timerType: Value, startedAt: int)
    | TimerPaused
    | TimerUpdated(remaining: Value)
    | EmojiReceive(emoji: Value, username: Value, time: int)

  datatype Delivery = Delivery(recipient: ConnId, event: ServerEvent)

  /** Room membership: each room id to the connection ids in it. */
  type Rooms = map<RoomId, set<ConnId>>

  function Members(rooms: Rooms, r: RoomId): set<ConnId>
  {
    if r in rooms then rooms[r] else {}
  }

  /** The events delivered to connection `c`, in delivery order. */
  function Inbox(log: seq<Delivery>, c: ConnId): seq<ServerEvent>
  {
    if log == [] then []
    else
      var last := log[|log| - 1];
      Inbox(log[..|log| - 1], c) + (if last.recipient == c then [last.event] else [])
  }

  /** Inboxes distribute over appending deliveries. */
  lemma {:induction false} InboxAppend(a: seq<Delivery>, b: seq<Delivery>, c: ConnId)
    ensures Inbox(a + b, c) == Inbox(a, c) + Inbox(b, c)
    decreases |b|
  {
    if b == [] {
      assert a + b == a;
    } else {
      var b' := b[..|b| - 1];
      assert (a + b)[..|a + b| - 1] == a + b';
      InboxAppend(a, b', c);
    }
  }

  /** `socket.join(roomId)`: the connection is added to `roomId` and every other room keeps
      its members; nobody is removed anywhere. */
  function Joined(rooms: Rooms, socket: ConnId, roomId: RoomId): (r: Rooms)
    ensures socket in Members(r, roomId)
    ensures forall x :: Members(rooms, x) <= Members(r, x)
    ensures forall x :: x != roomId ==> Members(r, x) == Members(rooms, x)
    ensures Members(r, roomId) - {socket} == Members(rooms, roomId) - {socket}
  {
    rooms[roomId := Members(rooms, roomId) + {socket}]
  }

  /** A closed connection leaves every room it was in; nothing else changes. */
  function LeftAll(rooms: Rooms, socket: ConnId): (r: Rooms)
    ensures forall x :: socket !in Members(r, x)
    ensures forall x :: Members(r, x) == Members(rooms, x) - {socket}
  {
    map x | x in rooms && rooms[x] - {socket} != {} :: rooms[x] - {socket}
  }

  /** Joining a room and then disconnecting leaves no trace of the connection: every room
      is back to its members before the join, less the departed connection. A connection
      that was not yet in the joined room leaves that room's size as it found it. */
  lemma JoinThenDisconnect(rooms: Rooms, socket: ConnId, roomId: RoomId)
    ensures forall x :: Members(LeftAll(Joined(rooms, socket, roomId), socket), x) == Members(rooms, x) - {socket}
    ensures socket !in Members(rooms, roomId) ==>
      |Members(LeftAll(Joined(rooms, socket, roomId), socket), roomId)| == |Members(rooms, roomId)|
  {
  }

  /** One broadcast: one delivery of `ev` to each of `members`, in some order. */
  method FanOut(members: set<ConnId>, ev: ServerEvent) returns (d: seq<Delivery>)
    ensures |d| == |members|
    ensures forall c :: Inbox(d, c) == if c in members then [ev] else []
  {
    d := [];
    var pending := members;
    while pending != {}
      invariant pending <= members
      invariant |d| + |pending| == |members|
      invariant forall c :: Inbox(d, c) == if c in members - pending then [ev] else []
      decreases |pending|
    {
      var next :| next in pending;
      FanOutStep(d, members, pending, next, ev);
      d := d + [Delivery(next, ev)];
      pending := pending - {next};
    }
  }

  /** Delivering to one more pending member moves it to the served side. */
  lemma FanOutStep(d: seq<Delivery>, members: set<ConnId>, pending: set<ConnId>, next: ConnId, ev: ServerEvent)
    requires next in pending && pending <= members
    requires forall c :: Inbox(d, c) == if c in members - pending then [ev] else []
    ensures forall c :: Inbox(d + [Delivery(next, ev)], c) == if c in members - (pending - {next}) then [ev] else []
  {
    var one := [Delivery(next, ev)];
    forall c
      ensures Inbox(d + one, c) == if c in members - (pending - {next}) then [ev] else []
    {
      InboxAppend(d, one, c);
      assert one[..0] == [];
    }
  }

  /** The relay server: room membership and the delivery log. */
  class Relay {
    var rooms: Rooms
    var log: seq<Delivery>

    constructor ()
      ensures rooms == map[] && log == []
    {
      rooms := map[];
      log := [];
    }

    /** `io.to(roomId).emit(ev)`: every current member of `roomId` receives `ev` once more;
        connections outside the room receive nothing. */
    method Emit(roomId: RoomId, ev: ServerEvent)
      modifies this`log
      ensures |log| == old(|log|) + |Members(rooms, roomId)|
      ensures log[..old(|log|)] == old(log)
      ensures forall c :: Inbox(log, c) == old(Inbox(log, c)) + (if c in Members(rooms, roomId) then [ev] else [])
    {
      var d := FanOut(Members(rooms, roomId), ev);
      forall c
        ensures Inbox(log + d, c) == Inbox(log, c) + (if c in Members(rooms, roomId) then [ev] else [])
      {
        InboxAppend(log, d, c);
      }
      log := log + d;
    }

    /** The `connection` event: socket.io places the socket in the room named by its id. */
    method Connect(socket: ConnId)
      modifies this`rooms
      ensures forall x :: Members(rooms, x) == if x == socket then Members(old(rooms), x) + {socket} else Members(old(rooms), x)
    {
      rooms := Joined(rooms, socket, socket);
    }

    /** `JOIN_ROOM roomId`: join, then announce the joiner's id to the whole room,
        the joiner included. */
    method OnJoinRoom(socket: ConnId, roomId: RoomId)
      modifies this
      ensures rooms == Joined(old(rooms), socket, roomId)
      ensures socket in Members(rooms, roomId)
      ensures forall c :: Inbox(log, c) == old(Inbox(log, c)) + (if c in Members(rooms, roomId) then [UserJoined(socket)] else [])
    {
      rooms := Joined(rooms, socket, roomId);
      Emit(roomId, UserJoined(socket));
    }

    /** `TIMER_START {roomId, duration, type}`: relay the requested duration and type with
        the server clock `now` as `startedAt`. No membership check, no deduplication. */
    method OnTimerStart(roomId: RoomId, duration: Value, timerType: Value, now: int)
      modifies this`log
      ensures forall c :: Inbox(log, c) == old(Inbox(log, c)) + (if c in Members(rooms, roomId) then [TimerStarted(duration, timerType, now)] else [])
    {
      Emit(roomId, TimerStarted(duration, timerType, now));
    }

    /** `TIMER_PAUSE roomId`: an event without payload; membership is untouched. */
    method OnTimerPause(roomId: RoomId)
      modifies this`log
      ensures forall c :: Inbox(log, c) == old(Inbox(log, c)) + (if c in Members(rooms, roomId) then [TimerPaused] else [])
    {
      Emit(roomId, TimerPaused);
    }

    /** `TIMER_TICK {roomId, remaining}`: `remaining` is relayed verbatim, unchecked. */
    method OnTimerTick(roomId: RoomId, remaining: Value)
      modifies this`log
      ensures forall c :: Inbox(log, c) == old(Inbox(log, c)) + (if c in Members(rooms, roomId) then [TimerUpdated(remaining)] else [])
    {
      Emit(roomId, TimerUpdated(remaining));
    }

    /** `EMOJI_SEND {roomId, emoji, username}`: relayed unchanged with the server time. */
    method OnEmojiSend(roomId: RoomId, emoji: Value, username: Value, now: int)
      modifies this`log
      ensures forall c :: Inbox(log, c) == old(Inbox(log, c)) + (if c in Members(rooms, roomId) then [EmojiReceive(emoji, username, now)] else [])
    {
      Emit(roomId, EmojiReceive(emoji, username, now));
    }

    /** `disconnect`: the handler emits nothing; socket.io removes the socket from its rooms. */
    method OnDisconnect(socket: ConnId)
      modifies this`rooms
      ensures rooms == LeftAll(old(rooms), socket)
    {
      rooms := LeftAll(rooms, socket);
    }
  }

  /** A fresh server with connections A, B and C, where A has joined "R1". */
  method OneInR1() returns (relay: Relay)
    ensures fresh(relay)
    ensures Members(relay.rooms, "R1") == {"A"} && Members(relay.rooms, "R2") == {}
    ensures Inbox(relay.log, "A") == [UserJoined("A")]
    ensures Inbox(relay.log, "B") == [] && Inbox(relay.log, "C") == []
  {
    assert "A" != "B" && "A" != "C" && "B" != "C" && "R1" != "R2";
    assert "A" != "R1" && "B" != "R1" && "C" != "R1" && "A" != "R2" && "B" != "R2" && "C" != "R2";
    relay := new Relay();
    relay.Connect("A");
    relay.Connect("B");
    relay.Connect("C");
    assert Members(relay.rooms, "R1") == {} && Members(relay.rooms, "R2") == {};
    relay.OnJoinRoom("A", "R1");
  }

  /** Then B joins "R1" as well. */
  method PairInR1() returns (relay: Relay)
    ensures fresh(relay)
    ensures Members(relay.rooms, "R1") == {"A", "B"} && Members(relay.rooms, "R2") == {}
    ensures Inbox(relay.log, "A") == [UserJoined("A"), UserJoined("B")]
    ensures Inbox(relay.log, "B") == [UserJoined("B")]
    ensures Inbox(relay.log, "C") == []
  {
    assert "A" != "B" && "B" != "C" && "R1" != "R2";
    relay := OneInR1();
    relay.OnJoinRoom("B", "R1");
  }

  /** A fresh server where A and B have joined "R1" and then C has joined "R2". */
  method ThreeConnections() returns (relay: Relay)
    ensures fresh(relay)
    ensures Members(relay.rooms, "R1") == {"A", "B"} && Members(relay.rooms, "R2") == {"C"}
    ensures Inbox(relay.log, "A") == [UserJoined("A"), UserJoined("B")]
    ensures Inbox(relay.log, "B") == [UserJoined("B")]
    ensures Inbox(relay.log, "C") == [UserJoined("C")]
  {
    assert "A" != "C" && "B" != "C" && "R1" != "R2";
    relay := PairInR1();
    relay.OnJoinRoom("C", "R2");
  }

  /** A and B are in "R1", C only in "R2". A starts a 1500-second focus timer and B
      pauses it (server.ts lines 32-38); both observe the start, with the server time
      `now`, and the pause; C observes neither. */
  method StartPauseScenario(now: int)
    returns (inboxA: seq<ServerEvent>, inboxB: seq<ServerEvent>, inboxC: seq<ServerEvent>)
    ensures inboxA == [UserJoined("A"), UserJoined("B"), TimerStarted(Num(1500.0), Str("focus"), now), TimerPaused]
    ensures inboxB == [UserJoined("B"), TimerStarted(Num(1500.0), Str("focus"), now), TimerPaused]
    ensures inboxC == [UserJoined("C")]
  {
    var relay := ThreeConnections();
    relay.OnTimerStart("R1", Num(1500.0), Str("focus"), now);
    relay.OnTimerPause("R1");
    inboxA, inboxB, inboxC := Inbox(relay.log, "A"), Inbox(relay.log, "B"), Inbox(relay.log, "C");
  }

  /** C, who is not in "R1", sends two ticks out of order to "R1", then the same start twice,
      then A sends an emoji: every one is relayed to A and B verbatim and in order, nothing
      is merged or dropped, and C itself receives none of them. */
  method RelayScenario(now: int, later: int)
    returns (inboxA: seq<ServerEvent>, inboxB: seq<ServerEvent>, inboxC: seq<ServerEvent>)
    ensures inboxA == [UserJoined("A"), UserJoined("B"), TimerUpdated(Num(5.0)), TimerUpdated(Num(10.0)),
                       TimerStarted(Num(300.0), Str("break"), now), TimerStarted(Num(300.0), Str("break"), now),
                       EmojiReceive(Str("*"), Str("ann"), later)]
    ensures inboxB == inboxA[1..]
    ensures inboxC == [UserJoined("C")]
  {
    var relay := ThreeConnections();
    relay.OnTimerTick("R1", Num(5.0));
    relay.OnTimerTick("R1", Num(10.0));
    relay.OnTimerStart("R1", Num(300.0), Str("break"), now);
    relay.OnTimerStart("R1", Num(300.0), Str("break"), now);
    relay.OnEmojiSend("R1", Str("*"), Str("ann"), later);
    inboxA, inboxB, inboxC := Inbox(relay.log, "A"), Inbox(relay.log, "B"), Inbox(relay.log, "C");
  }
}
