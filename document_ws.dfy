/** The document channel handler (`document_websocket` in
    backend/routes/ws/document_ws.py): one coroutine per connected socket that
    registers the socket, sends it a snapshot, announces presence, then handles
    `update` and `cursor` messages until the socket disconnects.

    The shared state it touches is the stored document (the `"document"` entry of
    document.json), the manager's roster and everything sent on sockets. It is
    specified as a pure state machine (`ServerState` and the step functions below)
    and implemented by `DocumentEndpoint`, whose methods are proved to follow it. */
module DocumentWs {
  import opened Common
  import opened ConnectionManager

  const Unknown := "unknown"
  const LastEditedByKey := "lastEditedBy"
  const LastUpdatedKey := "lastUpdated"

  /** The type of a message the handler ignores: anything but "update" and "cursor". */
  type OtherKind = k: string | k != "update" && k != "cursor" witness ""

  /** A message received from the client: `{"type": ..., "data": ...}`. */
  datatype ClientMessage =
    | Update(data: Fields)            // "update": data is the whole new document
    | Cursor(position: Option<int>)   // "cursor": data.get("position")
    | Other(kind: OtherKind)          // any other type: ignored

  /** A received message together with the formatted time it was handled at. */
  datatype Received = Received(msg: ClientMessage, at: string)

  datatype ServerState = ServerState(document: Option<Fields>, conns: seq<Connection>, sent: seq<Delivery>)

  /** The `user` query parameter, `"unknown"` when absent. */
  function UserName(userParam: Option<string>): string
  {
    if userParam.Some? then userParam.value else Unknown
  }

  /** The stored document, or an empty object when none is stored yet. */
  function Snapshot(document: Option<Fields>): Fields
  {
    if document.Some? then document.value else map[]
  }

  /** The document stored for an `update`: the client's data with the editor and the
      time overwritten, whatever the client sent under those keys. */
  function Stamped(data: Fields, username: string, now: string): (doc: Fields)
    ensures doc.Keys == data.Keys + {LastEditedByKey, LastUpdatedKey}
    ensures doc[LastEditedByKey] == username && doc[LastUpdatedKey] == now
    ensures forall k :: k in data && k != LastEditedByKey && k != LastUpdatedKey ==> doc[k] == data[k]
  {
    data[LastEditedByKey := username][LastUpdatedKey := now]
  }

  // ---------------------------------------------------------------------------
  // The handler as a state machine

  /** Joining: append the roster entry, send `init` to the newcomer, then send
      `presence` to everybody else. */
  function Joined(s: ServerState, ws: SocketId, username: string): ServerState
  {
    var conns := s.conns + [Connection(ws, username, None)];
    var greeting := Delivery(ws, Init(Snapshot(s.document), Presence(conns)));
    ServerState(s.document, conns, s.sent + [greeting] + Deliveries(conns, PresenceUpdate(Presence(conns)), Some(ws)))
  }

  /** One received message from socket `ws` of user `username`. */
  function Handled(s: ServerState, ws: SocketId, username: string, r: Received): ServerState
  {
    match r.msg
    case Update(data) =>
      var doc := Stamped(data, username, r.at);
      ServerState(Some(doc), s.conns, s.sent + Deliveries(s.conns, DocumentUpdate(doc), Some(ws)))
    case Cursor(position) =>
      var conns := WithCursor(s.conns, ws, position);
      ServerState(s.document, conns, s.sent + Deliveries(conns, PresenceUpdate(Presence(conns)), Some(ws)))
    case Other(_) => s
  }

  /** `WebSocketDisconnect`: the socket's entries leave the roster. */
  function Left(s: ServerState, ws: SocketId): ServerState
  {
    s.(conns := Without(s.conns, ws))
  }

  /** The receive loop run over the messages `inbox`, in order. */
  function Session(s: ServerState, ws: SocketId, username: string, inbox: seq<Received>): ServerState
  {
    if inbox == [] then s
    else Handled(Session(s, ws, username, inbox[..|inbox| - 1]), ws, username, inbox[|inbox| - 1])
  }

  // ---------------------------------------------------------------------------
  // The join as written

  /** How far a handler step got: still running, or stopped by an exception that
      escaped the coroutine, with the state it left behind. */
  datatype Run = Running(state: ServerState) | Crashed(state: ServerState, error: string)

  /** The join steps with `get_presence` as written: the entry is appended, then
      the presence list for `init` is built, then the one for the announcement. */
  function JoinedAsWritten(s: ServerState, ws: SocketId, username: string): Run
  {
    var conns := s.conns + [Connection(ws, username, None)];
    match PresenceAsWritten(conns)
    case Err(e) => Crashed(s.(conns := conns), e)
    case Ok(users) =>
      var greeted := s.sent + [Delivery(ws, Init(Snapshot(s.document), users))];
      match PresenceAsWritten(conns)
      case Err(e) => Crashed(ServerState(s.document, conns, greeted), e)
      case Ok(others) => Running(ServerState(s.document, conns, greeted + Deliveries(conns, PresenceUpdate(others), Some(ws))))
  }

  /** As written, every join stops while building `init`. The KeyError is raised
      before the `try`, so the disconnect clean-up never runs: the socket's entry
      stays in the roster for good, nothing is sent to anyone and no message is
      read. With the corrected presence list the same socket is greeted, and after
      any session and its disconnect has no entry left. */
  lemma JoinAsWrittenLeavesGhostEntry(s: ServerState, ws: SocketId, username: string, inbox: seq<Received>)
    ensures JoinedAsWritten(s, ws, username).Crashed?
    ensures var t := JoinedAsWritten(s, ws, username).state;
      && t.document == s.document && t.sent == s.sent
      && t.conns == s.conns + [Connection(ws, username, None)]
      && Occurrences(t.conns, ws) == Occurrences(s.conns, ws) + 1
    ensures Outbox(Joined(s, ws, username).sent, ws) != Outbox(s.sent, ws)
    ensures Occurrences(Left(Session(Joined(s, ws, username), ws, username, inbox), ws).conns, ws) == 0
  {
    OccurrencesSnoc(s.conns, Connection(ws, username, None), ws);
    JoinRegistersAndGreets(s, ws, username);
    WithoutLeavesNoEntry(Session(Joined(s, ws, username), ws, username, inbox).conns, ws);
  }

  // ---------------------------------------------------------------------------
  // One step at a time

  lemma JoinRegistersAndGreets(s: ServerState, ws: SocketId, username: string)
    ensures var t := Joined(s, ws, username);
      && t.document == s.document
      && t.conns == s.conns + [Connection(ws, username, None)]
      && Outbox(t.sent, ws) == Outbox(s.sent, ws) + [Init(Snapshot(s.document), Presence(t.conns))]
      && Presence(t.conns)[|s.conns|] == PresenceItem(username, None)
  {
    var t := Joined(s, ws, username);
    var greeting := Delivery(ws, Init(Snapshot(s.document), Presence(t.conns)));
    var fanout := Deliveries(t.conns, PresenceUpdate(Presence(t.conns)), Some(ws));
    OutboxAppend(s.sent + [greeting], fanout, ws);
    OutboxAppend(s.sent, [greeting], ws);
    OutboxOfDeliveries(t.conns, PresenceUpdate(Presence(t.conns)), Some(ws), ws);
    assert [greeting][..0] == [];
  }

  lemma JoinAnnouncesToOthers(s: ServerState, ws: SocketId, username: string, w: SocketId)
    requires w != ws
    ensures var t := Joined(s, ws, username);
      Outbox(t.sent, w) == Outbox(s.sent, w) + Repeat(PresenceUpdate(Presence(t.conns)), Occurrences(s.conns, w))
  {
    var t := Joined(s, ws, username);
    var greeting := Delivery(ws, Init(Snapshot(s.document), Presence(t.conns)));
    var fanout := Deliveries(t.conns, PresenceUpdate(Presence(t.conns)), Some(ws));
    OutboxAppend(s.sent + [greeting], fanout, w);
    OutboxAppend(s.sent, [greeting], w);
    OutboxOfDeliveries(t.conns, PresenceUpdate(Presence(t.conns)), Some(ws), w);
    assert [greeting][..0] == [];
    assert t.conns[..|t.conns| - 1] == s.conns;
  }

  lemma UpdateReplacesAndRebroadcasts(s: ServerState, ws: SocketId, username: string, data: Fields, at: string, w: SocketId)
    ensures var t := Handled(s, ws, username, Received(Update(data), at));
      && t.document.Some?
      && t.document.value[LastEditedByKey] == username
      && t.document.value[LastUpdatedKey] == at
      && (forall k :: k in data && k != LastEditedByKey && k != LastUpdatedKey ==> t.document.value[k] == data[k])
      && t.conns == s.conns
      && Outbox(t.sent, w) == Outbox(s.sent, w)
           + (if w == ws then [] else Repeat(DocumentUpdate(t.document.value), Occurrences(s.conns, w)))
  {
    var doc := Stamped(data, username, at);
    OutboxAppend(s.sent, Deliveries(s.conns, DocumentUpdate(doc), Some(ws)), w);
    OutboxOfDeliveries(s.conns, DocumentUpdate(doc), Some(ws), w);
  }

  lemma CursorMovesOnlyOwnEntry(s: ServerState, ws: SocketId, username: string, position: Option<int>, at: string, w: SocketId)
    ensures var t := Handled(s, ws, username, Received(Cursor(position), at));
      && t.document == s.document
      && t.conns == WithCursor(s.conns, ws, position)
      && Outbox(t.sent, w) == Outbox(s.sent, w)
           + (if w == ws then [] else Repeat(PresenceUpdate(Presence(t.conns)), Occurrences(s.conns, w)))
  {
    var conns := WithCursor(s.conns, ws, position);
    OutboxAppend(s.sent, Deliveries(conns, PresenceUpdate(Presence(conns)), Some(ws)), w);
    OutboxOfDeliveries(conns, PresenceUpdate(Presence(conns)), Some(ws), w);
    SameSocketsSameOccurrences(conns, s.conns, w);
  }

  lemma OtherMessageIgnored(s: ServerState, ws: SocketId, username: string, kind: OtherKind, at: string)
    ensures Handled(s, ws, username, Received(Other(kind), at)) == s
  {
  }

  lemma LeaveRemovesEveryEntry(s: ServerState, ws: SocketId)
    ensures var t := Left(s, ws);
      && t.document == s.document && t.sent == s.sent
      && (forall c :: c in t.conns ==> c.ws != ws)
      && (forall c :: c in s.conns && c.ws != ws ==> c in t.conns)
  {
  }

  // ---------------------------------------------------------------------------
  // A whole session

  /** Two rosters that hold the same sockets in the same places and differ at most
      in entries of socket `ws`. */
  predicate SameOffSocket(a: seq<Connection>, b: seq<Connection>, ws: SocketId)
  {
    && |a| == |b|
    && forall i :: 0 <= i < |a| ==> a[i].ws == b[i].ws && (a[i].ws != ws ==> a[i] == b[i])
  }

  lemma {:induction false} SameSocketsSameOccurrences(a: seq<Connection>, b: seq<Connection>, w: SocketId)
    requires |a| == |b| && forall i :: 0 <= i < |a| ==> a[i].ws == b[i].ws
    ensures Occurrences(a, w) == Occurrences(b, w)
  {
    if a != [] {
      SameSocketsSameOccurrences(a[..|a| - 1], b[..|b| - 1], w);
    }
  }

  lemma {:induction false} WithoutForgetsSocketEntries(a: seq<Connection>, b: seq<Connection>, ws: SocketId)
    requires SameOffSocket(a, b, ws)
    ensures Without(a, ws) == Without(b, ws)
  {
    if a != [] {
      WithoutForgetsSocketEntries(a[..|a| - 1], b[..|b| - 1], ws);
    }
  }

  /** Messages in a session change the roster only in entries of the session's own socket. */
  lemma {:induction false} SessionTouchesOnlyOwnEntries(s: ServerState, ws: SocketId, username: string, inbox: seq<Received>)
    ensures SameOffSocket(Session(s, ws, username, inbox).conns, s.conns, ws)
  {
    if inbox != [] {
      SessionTouchesOnlyOwnEntries(s, ws, username, inbox[..|inbox| - 1]);
    }
  }

  /** Nothing the handler broadcasts comes back to the socket it handles. */
  lemma {:induction false} SessionSendsNothingToSender(s: ServerState, ws: SocketId, username: string, inbox: seq<Received>)
    ensures Outbox(Session(s, ws, username, inbox).sent, ws) == Outbox(s.sent, ws)
  {
    if inbox != [] {
      var before := Session(s, ws, username, inbox[..|inbox| - 1]);
      SessionSendsNothingToSender(s, ws, username, inbox[..|inbox| - 1]);
      match inbox[|inbox| - 1].msg
      case Update(data) =>
        UpdateReplacesAndRebroadcasts(before, ws, username, data, inbox[|inbox| - 1].at, ws);
      case Cursor(position) =>
        CursorMovesOnlyOwnEntry(before, ws, username, position, inbox[|inbox| - 1].at, ws);
      case Other(_) =>
    }
  }

  /** Last writer wins: the stored document is the last update of the session,
      stamped with the session's user, whatever came before it. */
  lemma {:induction false} SessionLastWriterWins(s: ServerState, ws: SocketId, username: string, inbox: seq<Received>, k: nat)
    requires k < |inbox| && inbox[k].msg.Update?
    requires forall j :: k < j < |inbox| ==> !inbox[j].msg.Update?
    ensures Session(s, ws, username, inbox).document == Some(Stamped(inbox[k].msg.data, username, inbox[k].at))
  {
    if k < |inbox| - 1 {
      SessionLastWriterWins(s, ws, username, inbox[..|inbox| - 1], k);
    }
  }

  /** A session without updates leaves the stored document as it was. */
  lemma {:induction false} SessionWithoutUpdateKeepsDocument(s: ServerState, ws: SocketId, username: string, inbox: seq<Received>)
    requires forall j :: 0 <= j < |inbox| ==> !inbox[j].msg.Update?
    ensures Session(s, ws, username, inbox).document == s.document
  {
    if inbox != [] {
      SessionWithoutUpdateKeepsDocument(s, ws, username, inbox[..|inbox| - 1]);
    }
  }

  /** After a full connection (join, any messages, disconnect) the roster is what it
      was without the socket's entries; for a fresh socket, exactly what it was. */
  lemma ConnectionLeavesNoTrace(s: ServerState, ws: SocketId, username: string, inbox: seq<Received>)
    ensures Left(Session(Joined(s, ws, username), ws, username, inbox), ws).conns == Without(s.conns, ws)
    ensures Occurrences(s.conns, ws) == 0 ==>
      Left(Session(Joined(s, ws, username), ws, username, inbox), ws).conns == s.conns
  {
    var j := Joined(s, ws, username);
    SessionTouchesOnlyOwnEntries(j, ws, username, inbox);
    WithoutForgetsSocketEntries(Session(j, ws, username, inbox).conns, j.conns, ws);
    WithoutAppend(s.conns, [Connection(ws, username, None)], ws);
    assert [Connection(ws, username, None)][..0] == [];
  }

  /** A socket that joins without an entry keeps the roster free of repeated
      sockets through its join, its whole session and its disconnect. */
  lemma ConnectionKeepsSocketsUnique(s: ServerState, ws: SocketId, username: string, inbox: seq<Received>)
    requires UniqueSockets(s.conns) && Occurrences(s.conns, ws) == 0
    ensures UniqueSockets(Joined(s, ws, username).conns)
    ensures UniqueSockets(Session(Joined(s, ws, username), ws, username, inbox).conns)
    ensures UniqueSockets(Left(Session(Joined(s, ws, username), ws, username, inbox), ws).conns)
  {
    var j := Joined(s, ws, username);
    JoinKeepsSocketsUnique(s.conns, Connection(ws, username, None));
    SessionTouchesOnlyOwnEntries(j, ws, username, inbox);
    LeaveKeepsSocketsUnique(Session(j, ws, username, inbox).conns, ws);
  }

  /** In a roster free of repeated sockets, a join announces the newcomer exactly
      once to every socket already connected. */
  lemma JoinAnnouncesOnceToEachOther(s: ServerState, ws: SocketId, username: string, w: SocketId)
    requires UniqueSockets(s.conns)
    requires w != ws && exists i :: 0 <= i < |s.conns| && s.conns[i].ws == w
    ensures var t := Joined(s, ws, username);
      Outbox(t.sent, w) == Outbox(s.sent, w) + [PresenceUpdate(Presence(t.conns))]
  {
    JoinAnnouncesToOthers(s, ws, username, w);
    OccurrencesInUniqueRoster(s.conns, w);
    var t := Joined(s, ws, username);
    assert Repeat(PresenceUpdate(Presence(t.conns)), 1) == [PresenceUpdate(Presence(t.conns))];
  }

  /** Over a full connection, the socket's own handler sends it exactly one message:
      its `init`. Messages from other connections' handlers running at the same
      time are not counted, because the state machine runs one coroutine at a time. */
  lemma ConnectionHearsOnlyInit(s: ServerState, ws: SocketId, username: string, inbox: seq<Received>)
    ensures Outbox(Left(Session(Joined(s, ws, username), ws, username, inbox), ws).sent, ws)
         == Outbox(s.sent, ws) + [Init(Snapshot(s.document), Presence(s.conns + [Connection(ws, username, None)]))]
  {
    JoinRegistersAndGreets(s, ws, username);
    SessionSendsNothingToSender(Joined(s, ws, username), ws, username, inbox);
  }

  // ---------------------------------------------------------------------------
  // The handler

  class DocumentEndpoint {
    const manager: Manager
    const transport: Transport
    var document: Option<Fields>

    constructor(manager: Manager, transport: Transport, document: Option<Fields>)
      ensures this.manager == manager && this.transport == transport && this.document == document
    {
      this.manager := manager;
      this.transport := transport;
      this.document := document;
    }

    function State(): ServerState
      reads this, manager, transport
    {
      ServerState(document, manager.activeConnections, transport.sent)
    }

    method Join(ws: SocketId, userParam: Option<string>) returns (username: string)
      modifies manager, transport
      ensures username == UserName(userParam)
      ensures State() == Joined(old(State()), ws, username)
    {
      username := if userParam.Some? then userParam.value else Unknown;
      manager.activeConnections := manager.activeConnections + [Connection(ws, username, None)];
      var users := manager.GetPresence();
      transport.SendJson(ws, Init(Snapshot(document), users));
      manager.Broadcast(PresenceUpdate(manager.GetPresence()), Some(ws), transport);
    }

    method Handle(ws: SocketId, username: string, r: Received)
      modifies this, manager, transport
      ensures State() == Handled(old(State()), ws, username, r)
    {
      match r.msg
      case Update(data) =>
        var newDoc := data;
        newDoc := newDoc[LastEditedByKey := username];
        newDoc := newDoc[LastUpdatedKey := r.at];
        document := Some(newDoc);
        manager.Broadcast(DocumentUpdate(newDoc), Some(ws), transport);
      case Cursor(position) =>
        manager.UpdateCursor(ws, position);
        manager.Broadcast(PresenceUpdate(manager.GetPresence()), Some(ws), transport);
      case Other(_) =>
    }

    method Leave(ws: SocketId)
      modifies manager
      ensures State() == Left(old(State()), ws)
    {
      manager.Disconnect(ws);
    }

    /** The whole coroutine for one socket: join, the receive loop over `inbox`,
        then the disconnect. */
    method Serve(ws: SocketId, userParam: Option<string>, inbox: seq<Received>) returns (username: string)
      modifies this, manager, transport
      ensures username == UserName(userParam)
      ensures State() == Left(Session(Joined(old(State()), ws, username), ws, username, inbox), ws)
    {
      username := Join(ws, userParam);
      ghost var joined := State();
      var i := 0;
      while i < |inbox|
        invariant 0 <= i <= |inbox|
        invariant State() == Session(joined, ws, username, inbox[..i])
      {
        Handle(ws, username, inbox[i]);
        assert inbox[..i + 1][..i] == inbox[..i];
        i := i + 1;
      }
      assert inbox[..i] == inbox;
      Leave(ws);
    }
  }
}
