/**
 * The in-memory room registry: a map from room id to the set of connections in that room,
 * updated by room creation and deletion and by each socket's open and close events, and
 * read by the broadcast that relays a socket's messages to the other members.
 */
module Rooms {

  type RoomId = string

  /** A WebSocket connection, by identity. */
  type Conn = nat

  /** What deleting a room answers; an unknown id is reported as a server error. */
  datatype DeleteOutcome = Deleted | DeleteFailed(status: int)

  /** The events a room socket reacts to. */
  datatype SocketEvent = Open | Message(data: string) | Close

  /** The members of room r; an absent room has none. */
  function Members(rooms: map<RoomId, set<Conn>>, r: RoomId): set<Conn> {
    if r in rooms then rooms[r] else {}
  }

  /** The registry after `ws` joins room r, creating the room when it is absent. */
  function Joined(rooms: map<RoomId, set<Conn>>, r: RoomId, ws: Conn): (m: map<RoomId, set<Conn>>)
    ensures m.Keys == rooms.Keys + {r}
    ensures m[r] == Members(rooms, r) + {ws}
    ensures forall q :: q in rooms && q != r ==> m[q] == rooms[q]
  {
    rooms[r := Members(rooms, r) + {ws}]
  }

  /** The registry after `ws` leaves room r; a room left empty is removed, an absent one is untouched. */
  function Left(rooms: map<RoomId, set<Conn>>, r: RoomId, ws: Conn): (m: map<RoomId, set<Conn>>)
    ensures r in m ==> r in rooms && m[r] == rooms[r] - {ws} && m[r] != {}
    ensures r !in m <==> r !in rooms || rooms[r] <= {ws}
    ensures forall q :: q != r ==> (q in m <==> q in rooms)
    ensures forall q :: q in rooms && q != r ==> m[q] == rooms[q]
  {
    if r !in rooms then rooms
    else
      var clients := rooms[r] - {ws};
      if |clients| == 0 then rooms - {r} else rooms[r := clients]
  }

  /** No room in the registry is empty. */
  ghost predicate NoEmptyRoom(rooms: map<RoomId, set<Conn>>) {
    forall r :: r in rooms ==> rooms[r] != {}
  }

  /** Joining and leaving keep the registry free of empty rooms; only creation adds one. */
  lemma JoinLeaveKeepNoEmptyRoom(rooms: map<RoomId, set<Conn>>, r: RoomId, ws: Conn)
    requires NoEmptyRoom(rooms)
    ensures NoEmptyRoom(Joined(rooms, r, ws))
    ensures NoEmptyRoom(Left(rooms, r, ws))
  {
  }

  /** A connection that joins and then leaves restores the registry, except that an empty room it joined is gone. */
  lemma JoinThenLeave(rooms: map<RoomId, set<Conn>>, r: RoomId, ws: Conn)
    requires ws !in Members(rooms, r)
    ensures Left(Joined(rooms, r, ws), r, ws) == if r in rooms && rooms[r] == {} then rooms - {r} else rooms
  {
    var m := Left(Joined(rooms, r, ws), r, ws);
    if r in rooms && rooms[r] != {} {
      assert rooms[r] + {ws} - {ws} == rooms[r];
      assert m == rooms;
    } else {
      assert Members(rooms, r) + {ws} - {ws} == {};
      assert m == rooms - {r};
    }
  }

  /** Joining twice is joining once. */
  lemma JoinIdempotent(rooms: map<RoomId, set<Conn>>, r: RoomId, ws: Conn)
    ensures Joined(Joined(rooms, r, ws), r, ws) == Joined(rooms, r, ws)
  {
    assert Members(Joined(rooms, r, ws), r) + {ws} == Members(rooms, r) + {ws};
  }

  /** A string longer than every key. */
  lemma {:induction false} LongerThanAll(keys: set<RoomId>) returns (n: nat)
    ensures forall k :: k in keys ==> |k| < n
    decreases keys
  {
    if keys == {} {
      n := 0;
    } else {
      var k :| k in keys;
      var m := LongerThanAll(keys - {k});
      n := if |k| + 1 > m then |k| + 1 else m;
    }
  }

  /** Some id is always free, so a fresh id can be chosen. */
  lemma FreshIdExists(keys: set<RoomId>) returns (id: RoomId)
    ensures id !in keys
  {
    var n := LongerThanAll(keys);
    id := seq(n, _ => 'r');
  }

  class RoomRegistry {
    var rooms: map<RoomId, set<Conn>>

    constructor ()
      ensures rooms == map[]
    {
      rooms := map[];
    }

    /** Creates a room under a fresh id, with no members. */
    method CreateRoom() returns (id: RoomId)
      modifies this
      ensures id !in old(rooms)
      ensures rooms == old(rooms)[id := {}]
    {
      ghost var free := FreshIdExists(rooms.Keys);
      id :| id !in rooms;
      rooms := rooms[id := {}];
    }

    /** Deletes room id; an absent id fails (the 404 is re-raised as a 500) and changes nothing. */
    method DeleteRoom(id: RoomId) returns (out: DeleteOutcome)
      modifies this
      ensures id in old(rooms) ==> out == Deleted && rooms == old(rooms) - {id}
      ensures id !in old(rooms) ==> out == DeleteFailed(500) && rooms == old(rooms)
    {
      if id !in rooms {
        // the 404 raised here is caught by the handler's own catch and reported as 500
        return DeleteFailed(500);
      }
      rooms := rooms - {id};
      out := Deleted;
    }

    /** Adds `ws` to room r, creating the room when it is absent. */
    method AddClient(r: RoomId, ws: Conn)
      modifies this
      ensures rooms == Joined(old(rooms), r, ws)
      ensures ws in rooms[r]
    {
      if r !in rooms {
        rooms := rooms[r := {}];
      }
      rooms := rooms[r := rooms[r] + {ws}];
    }

    /**
     * The connections a message from `sender` in room r is sent to: every member other than
     * the sender whose connection is open. Membership is not changed.
     */
    method Broadcast(r: RoomId, message: string, sender: Conn, open: set<Conn>) returns (recipients: set<Conn>)
      ensures forall c :: c in recipients <==> r in rooms && c in rooms[r] && c != sender && c in open
    {
      if r !in rooms {
        return {};
      }
      var clients := rooms[r];
      var pending := clients;
      recipients := {};
      while pending != {}
        invariant pending <= clients
        invariant forall c :: c in recipients <==> c in clients - pending && c != sender && c in open
        decreases pending
      {
        var client :| client in pending;
        if client != sender && client in open {
          recipients := recipients + {client};
        }
        pending := pending - {client};
      }
    }

    /** Removes `ws` from room r and removes the room once it is empty; an absent room is left alone. */
    method RemoveClient(r: RoomId, ws: Conn)
      modifies this
      ensures rooms == Left(old(rooms), r, ws)
      ensures r !in rooms || rooms[r] != {}
    {
      if r !in rooms {
        return;
      }
      var clients := rooms[r] - {ws};
      if |clients| == 0 {
        rooms := rooms - {r};
      } else {
        rooms := rooms[r := clients];
      }
    }

    /**
     * The handlers of one socket of room r: open joins, a message is relayed to the other
     * open members, close leaves. Only a message has recipients.
     */
    method RoomSocket(r: RoomId, event: SocketEvent, ws: Conn, open: set<Conn>) returns (recipients: set<Conn>)
      modifies this
      ensures event == Open ==> rooms == Joined(old(rooms), r, ws) && recipients == {}
      ensures event == Close ==> rooms == Left(old(rooms), r, ws) && recipients == {}
      ensures event.Message? ==> rooms == old(rooms)
      ensures event.Message? ==>
        forall c :: c in recipients <==> c in Members(old(rooms), r) && c != ws && c in open
    {
      recipients := {};
      match event
      case Open =>
        AddClient(r, ws);
      case Message(data) =>
        recipients := Broadcast(r, data, ws, open);
      case Close =>
        RemoveClient(r, ws);
    }
  }
}
