/** The server's roster of live document sockets (`ConnectionManager` in
    backend/utils/connection_manager.py) and the sockets' send records.

    A WebSocket is identified by a `SocketId`; socket identity is what the source
    compares (`conn["ws"] != websocket`). Everything any socket is sent is kept in
    one ordered log of deliveries (`Transport`), so a socket's outbox is the
    projection `Outbox(log, ws)`, which is what the test's `DummyWebSocket.sent` records. */
module ConnectionManager {
  import opened Common

  type SocketId = nat

  /** A JSON object whose values are strings: the shape of the shared document. */
  type Fields = map<string, string>

  /** One roster entry: `{"ws": ..., "user": ..., "cursor": ...}`. */
  datatype Connection = Connection(ws: SocketId, user: string, cursor: Option<int>)

  /** One item of the presence list: who is connected and where their cursor is. */
  datatype PresenceItem = PresenceItem(user: string, cursor: Option<int>)

  /** The JSON messages the server sends on a socket. */
  datatype Message =
    | Init(document: Fields, users: seq<PresenceItem>)   // {"type": "init", "data": {...}}
    | PresenceUpdate(users: seq<PresenceItem>)            // {"type": "presence", "data": [...]}
    | DocumentUpdate(document: Fields)                    // {"type": "update", "data": {...}}
    | Raw(fields: Fields)                                 // any other JSON object, e.g. {"type": "ping"}

  datatype Delivery = Delivery(to: SocketId, msg: Message)

  // ---------------------------------------------------------------------------
  // Counting and projecting

  /** Number of roster entries holding socket `w`. */
  function Occurrences(conns: seq<Connection>, w: SocketId): nat
  {
    if conns == [] then 0
    else Occurrences(conns[..|conns| - 1], w) + (if conns[|conns| - 1].ws == w then 1 else 0)
  }

  predicate UniqueSockets(conns: seq<Connection>)
  {
    forall i, j :: 0 <= i < j < |conns| ==> conns[i].ws != conns[j].ws
  }

  lemma {:induction false} OccurrencesInUniqueRoster(conns: seq<Connection>, w: SocketId)
    requires UniqueSockets(conns)
    ensures Occurrences(conns, w) == if exists i :: 0 <= i < |conns| && conns[i].ws == w then 1 else 0
  {
    if conns != [] {
      var front := conns[..|conns| - 1];
      OccurrencesInUniqueRoster(front, w);
      if conns[|conns| - 1].ws == w {
        forall i | 0 <= i < |front| ensures front[i].ws != w {
          assert front[i] == conns[i];
        }
      } else {
        if exists i :: 0 <= i < |conns| && conns[i].ws == w {
          var i :| 0 <= i < |conns| && conns[i].ws == w;
          assert front[i] == conns[i];
        }
        forall i | 0 <= i < |front| && front[i].ws == w ensures conns[i].ws == w {
          assert front[i] == conns[i];
        }
      }
    }
  }

  /** A socket has no entry exactly when it occurs nowhere in the roster. */
  lemma {:induction false} NoOccurrences(conns: seq<Connection>, w: SocketId)
    ensures Occurrences(conns, w) == 0 <==> forall i :: 0 <= i < |conns| ==> conns[i].ws != w
  {
    if conns != [] {
      var front := conns[..|conns| - 1];
      NoOccurrences(front, w);
      assert forall i :: 0 <= i < |front| ==> front[i] == conns[i];
    }
  }

  /** An entry appended to the roster adds one occurrence of its own socket. */
  lemma OccurrencesSnoc(conns: seq<Connection>, c: Connection, w: SocketId)
    ensures Occurrences(conns + [c], w) == Occurrences(conns, w) + (if c.ws == w then 1 else 0)
  {
    assert (conns + [c])[..|conns|] == conns;
  }

  /** Appending an entry for a socket that has none keeps sockets unique. */
  lemma JoinKeepsSocketsUnique(conns: seq<Connection>, c: Connection)
    requires UniqueSockets(conns) && Occurrences(conns, c.ws) == 0
    ensures UniqueSockets(conns + [c])
  {
    NoOccurrences(conns, c.ws);
  }

  /** The messages delivered to socket `w`, in the order they were sent. */
  function Outbox(log: seq<Delivery>, w: SocketId): seq<Message>
  {
    if log == [] then []
    else Outbox(log[..|log| - 1], w) + (if log[|log| - 1].to == w then [log[|log| - 1].msg] else [])
  }

  lemma {:induction false} OutboxAppend(a: seq<Delivery>, b: seq<Delivery>, w: SocketId)
    ensures Outbox(a + b, w) == Outbox(a, w) + Outbox(b, w)
    decreases |b|
  {
    if b == [] {
      assert a + b == a;
    } else {
      var front := b[..|b| - 1];
      assert (a + b)[..|a + b| - 1] == a + front;
      OutboxAppend(a, front, w);
    }
  }

  function Repeat(msg: Message, n: nat): (r: seq<Message>)
    ensures |r| == n && forall i :: 0 <= i < n ==> r[i] == msg
  {
    seq(n, _ => msg)
  }

  // ---------------------------------------------------------------------------
  // Specifications of the manager's operations

  /** The roster without the entries of socket `ws` (the comprehension in `disconnect`). */
  function Without(conns: seq<Connection>, ws: SocketId): (r: seq<Connection>)
    ensures forall c :: c in r ==> c in conns && c.ws != ws
    ensures forall c :: c in conns && c.ws != ws ==> c in r
    ensures |r| == |conns| - Occurrences(conns, ws)
    ensures Occurrences(conns, ws) == 0 ==> r == conns
  {
    if conns == [] then []
    else
      var last := conns[|conns| - 1];
      var front := conns[..|conns| - 1];
      assert conns == front + [last];
      Without(front, ws) + (if last.ws != ws then [last] else [])
  }

  /** Disconnecting works piecewise, so it keeps the relative order of what remains. */
  lemma {:induction false} WithoutAppend(a: seq<Connection>, b: seq<Connection>, ws: SocketId)
    ensures Without(a + b, ws) == Without(a, ws) + Without(b, ws)
    decreases |b|
  {
    if b == [] {
      assert a + b == a;
    } else {
      var front := b[..|b| - 1];
      assert (a + b)[..|a + b| - 1] == a + front;
      WithoutAppend(a, front, ws);
    }
  }

  /** Disconnecting leaves no entry of the socket behind. */
  lemma WithoutLeavesNoEntry(conns: seq<Connection>, ws: SocketId)
    ensures Occurrences(Without(conns, ws), ws) == 0
  {
    var r := Without(conns, ws);
    assert forall i :: 0 <= i < |r| ==> r[i] in r;
    NoOccurrences(r, ws);
  }

  /** Keeping an entry after the survivors of a roster keeps sockets unique when
      its socket was not repeated. */
  lemma KeptLastStaysUnique(front: seq<Connection>, last: Connection, ws: SocketId)
    requires UniqueSockets(Without(front, ws))
    requires forall i :: 0 <= i < |front| ==> front[i].ws != last.ws
    ensures UniqueSockets(Without(front, ws) + [last])
  {
    var kept := Without(front, ws);
    forall i | 0 <= i < |kept| ensures kept[i].ws != last.ws {
      assert kept[i] in kept;
    }
  }

  /** Disconnecting keeps sockets unique. */
  lemma {:induction false} LeaveKeepsSocketsUnique(conns: seq<Connection>, ws: SocketId)
    requires UniqueSockets(conns)
    ensures UniqueSockets(Without(conns, ws))
  {
    if conns != [] {
      var front := conns[..|conns| - 1];
      var last := conns[|conns| - 1];
      assert forall i :: 0 <= i < |front| ==> front[i] == conns[i];
      LeaveKeepsSocketsUnique(front, ws);
      if last.ws != ws {
        KeptLastStaysUnique(front, last, ws);
      }
    }
  }

  predicate OnSocket(ws: SocketId, c: Connection) { c.ws == ws }

  function HoldsSocket(ws: SocketId): Connection -> bool
  {
    c => OnSocket(ws, c)
  }

  /** The roster after `update_cursor(ws, position)`: the first entry of `ws`, if
      there is one, gets the new cursor and nothing else changes. */
  function WithCursor(conns: seq<Connection>, ws: SocketId, position: Option<int>): (r: seq<Connection>)
    ensures |r| == |conns|
    ensures forall i :: 0 <= i < |r| ==> r[i].ws == conns[i].ws && r[i].user == conns[i].user
    ensures forall i :: 0 <= i < |r| && r[i] != conns[i] ==> conns[i].ws == ws
    ensures FindFirst(conns, HoldsSocket(ws)).None? ==> r == conns
    ensures FindFirst(conns, HoldsSocket(ws)).Some? ==>
      var i := FindFirst(conns, HoldsSocket(ws)).value;
      r[i].cursor == position && forall j :: 0 <= j < |r| && j != i ==> r[j] == conns[j]
  {
    match FindFirst(conns, HoldsSocket(ws))
    case None => conns
    case Some(i) => conns[i := conns[i].(cursor := position)]
  }

  /** The presence list: one item per roster entry, in roster order, read from the
      entry's `user` and `cursor`. */
  function Presence(conns: seq<Connection>): (r: seq<PresenceItem>)
    ensures |r| == |conns|
    ensures forall i :: 0 <= i < |r| ==> r[i].user == conns[i].user && r[i].cursor == conns[i].cursor
  {
    seq(|conns|, i requires 0 <= i < |conns| => PresenceItem(conns[i].user, conns[i].cursor))
  }

  /** `get_presence` as written reads the key `"username"`, but roster entries are
      stored under `"user"`, so the lookup raises `KeyError` as soon as the roster
      holds one entry. */
  function PresenceAsWritten(conns: seq<Connection>): Result<seq<PresenceItem>, string>
  {
    if conns == [] then Ok([]) else Err("KeyError: 'username'")
  }

  /** Moving a cursor changes the presence list at exactly one place. */
  lemma PresenceAfterCursorMove(conns: seq<Connection>, ws: SocketId, position: Option<int>, i: nat)
    requires FindFirst(conns, HoldsSocket(ws)) == Some(i)
    ensures Presence(WithCursor(conns, ws, position))
         == Presence(conns)[i := PresenceItem(conns[i].user, position)]
  {
  }

  /** The deliveries of `broadcast(msg, sender)`: one per roster entry whose socket
      is not the sender, in roster order. */
  function Deliveries(conns: seq<Connection>, msg: Message, sender: Option<SocketId>): seq<Delivery>
  {
    if conns == [] then []
    else
      var last := conns[|conns| - 1];
      Deliveries(conns[..|conns| - 1], msg, sender)
        + (if Some(last.ws) != sender then [Delivery(last.ws, msg)] else [])
  }

  /** What a broadcast adds to each socket's outbox: nothing for the sender, the
      message once per roster entry for everybody else. */
  lemma {:induction false} OutboxOfDeliveries(conns: seq<Connection>, msg: Message, sender: Option<SocketId>, w: SocketId)
    ensures Outbox(Deliveries(conns, msg, sender), w)
         == if sender == Some(w) then [] else Repeat(msg, Occurrences(conns, w))
  {
    if conns != [] {
      var last := conns[|conns| - 1];
      var front := conns[..|conns| - 1];
      var step := if Some(last.ws) != sender then [Delivery(last.ws, msg)] else [];
      OutboxOfDeliveries(front, msg, sender, w);
      OutboxAppend(Deliveries(front, msg, sender), step, w);
      if step != [] {
        assert step[..0] == [];
      }
    }
  }

  /** With the roster kept free of repeated sockets, a broadcast reaches every
      connected socket but the sender exactly once. */
  lemma BroadcastReachesEachOtherOnce(conns: seq<Connection>, msg: Message, sender: Option<SocketId>, w: SocketId)
    requires UniqueSockets(conns)
    requires exists i :: 0 <= i < |conns| && conns[i].ws == w
    ensures Outbox(Deliveries(conns, msg, sender), w) == if sender == Some(w) then [] else [msg]
  {
    OutboxOfDeliveries(conns, msg, sender, w);
    OccurrencesInUniqueRoster(conns, w);
  }

  // ---------------------------------------------------------------------------
  // The imperative objects

  /** The sockets' send side; `sent` records every JSON message sent, in order. */
  class Transport {
    var sent: seq<Delivery>

    constructor()
      ensures sent == []
    {
      sent := [];
    }

    method SendJson(ws: SocketId, msg: Message)
      modifies this
      ensures sent == old(sent) + [Delivery(ws, msg)]
    {
      sent := sent + [Delivery(ws, msg)];
    }
  }

  class Manager {
    var activeConnections: seq<Connection>

    constructor()
      ensures activeConnections == []
    {
      activeConnections := [];
    }

    method Disconnect(ws: SocketId)
      modifies this
      ensures activeConnections == Without(old(activeConnections), ws)
    {
      activeConnections := Without(activeConnections, ws);
    }

    method Broadcast(msg: Message, sender: Option<SocketId>, transport: Transport)
      modifies transport
      ensures transport.sent == old(transport.sent) + Deliveries(activeConnections, msg, sender)
    {
      var i := 0;
      while i < |activeConnections|
        invariant 0 <= i <= |activeConnections|
        invariant transport.sent == old(transport.sent) + Deliveries(activeConnections[..i], msg, sender)
      {
        var connection := activeConnections[i];
        if Some(connection.ws) != sender {
          transport.SendJson(connection.ws, msg);
        }
        assert activeConnections[..i + 1][..i] == activeConnections[..i];
        i := i + 1;
      }
      assert activeConnections[..i] == activeConnections;
    }

    method UpdateCursor(ws: SocketId, position: Option<int>)
      modifies this
      ensures activeConnections == WithCursor(old(activeConnections), ws, position)
    {
      var i := 0;
      while i < |activeConnections|
        invariant 0 <= i <= |activeConnections|
        invariant activeConnections == old(activeConnections)
        invariant forall j :: 0 <= j < i ==> !HoldsSocket(ws)(activeConnections[j])
      {
        if activeConnections[i].ws == ws {
          activeConnections := activeConnections[i := activeConnections[i].(cursor := position)];
          break;
        }
        i := i + 1;
      }
    }

    function GetPresence(): seq<PresenceItem>
      reads this
    {
      Presence(activeConnections)
    }
  }

  /** The scenario of the manager's unit test: two sockets, a cursor move on the
      first, a ping from the first, then the first disconnects. */
  method ConnectAndDisconnectScenario(ws1: SocketId, ws2: SocketId) returns (cursor: Option<int>, toFirst: seq<Message>, toSecond: seq<Message>, remaining: nat)
    requires ws1 != ws2
    ensures cursor == Some(5)
    ensures toFirst == [] && toSecond == [Raw(map["type" := "ping"])]
    ensures remaining == 1
  {
    var manager := new Manager();
    var transport := new Transport();
    manager.activeConnections := [Connection(ws1, "admin123", None), Connection(ws2, "editor123", None)];
    manager.UpdateCursor(ws1, Some(5));
    cursor := manager.activeConnections[0].cursor;
    var msg := Raw(map["type" := "ping"]);
    manager.Broadcast(msg, Some(ws1), transport);
    assert transport.sent == Deliveries(manager.activeConnections, msg, Some(ws1));
    BroadcastReachesEachOtherOnce(manager.activeConnections, msg, Some(ws1), ws2);
    OutboxOfDeliveries(manager.activeConnections, msg, Some(ws1), ws1);
    toFirst := Outbox(transport.sent, ws1);
    toSecond := Outbox(transport.sent, ws2);
    manager.Disconnect(ws1);
    remaining := |manager.activeConnections|;
  }
}
