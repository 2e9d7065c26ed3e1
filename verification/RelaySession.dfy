/**
 The relay session of workers/relay/src/index.ts: four mutually indexed tables and the presence view
 that every connected client rebuilds from what it is sent.

 Signature verification is a boolean carried by the auth message. A socket's `sent` log holds what
 the relay handed to it, in order; a send that fails goes to a socket that will read nothing more.
 */
module RelaySession {
  import opened Basics

  type Id = string
  type Room = string
  type Socket = nat
  type Data = string

  datatype Entry = Entry(ws: Socket, device: string, rooms: set<Room>)

  datatype Claim = Claim(identity: Id, device: string)

  datatype Sent =
    | Challenge
    | ErrorText(text: string)
    | Authenticated(identity: Id)
    | Snapshot(all: set<Id>)
    | Presence(who: Id, online: bool)
    | Forwarded(from: Id, data: Data)
    | RoomEvent(room: Room, data: Data)

  datatype Received =
    | Auth(verified: bool)
    | Invalid
    | Direct(to: Id, data: Data)
    | Subscribe(room: Room)
    | Unsubscribe(room: Room)
    | Publish(room: Room, data: Data)
    | Unknown

  type Logs = map<Socket, seq<Sent>>

  datatype Tables = Tables(
    connections: map<Id, Entry>,
    rooms: map<Room, set<Id>>,
    pending: map<Socket, Claim>,
    identities: map<Socket, Id>,
    sent: Logs)

  function LogOf(sent: Logs, ws: Socket): seq<Sent> {
    if ws in sent then sent[ws] else []
  }

  function Send(sent: Logs, ws: Socket, m: Sent): Logs {
    sent[ws := LogOf(sent, ws) + [m]]
  }

  /** Every socket of `to` is sent `m` once. */
  function SendAll(sent: Logs, to: set<Socket>, m: Sent): Logs {
    map ws | ws in sent.Keys + to :: if ws in to then LogOf(sent, ws) + [m] else LogOf(sent, ws)
  }

  function Sockets(connections: map<Id, Entry>): set<Socket> {
    set i | i in connections :: connections[i].ws
  }

  /** `who` leaves the rooms in `left`; a room nobody is left in disappears. */
  function Leave(rooms: map<Room, set<Id>>, who: Id, left: set<Room>): map<Room, set<Id>> {
    map r | r in rooms && (r in left ==> rooms[r] - {who} != {}) :: if r in left then rooms[r] - {who} else rooms[r]
  }

  /** Removal tells everyone who remains. */
  function Remove(t: Tables, who: Id): Tables {
    if who !in t.connections then t
    else
      var rest := t.connections - {who};
      t.(rooms := Leave(t.rooms, who, t.connections[who].rooms),
         connections := rest,
         sent := SendAll(t.sent, Sockets(rest), Presence(who, false)))
  }

  function Reject(t: Tables, ws: Socket, text: string): Tables {
    t.(pending := t.pending - {ws}, sent := Send(t.sent, ws, ErrorText(text)))
  }

  function Replaced(t: Tables, who: Id): Tables {
    if who !in t.connections then t
    else
      var ws := t.connections[who].ws;
      var t1 := Remove(t.(sent := Send(t.sent, ws, ErrorText("Replaced by new connection"))), who);
      t1.(identities := t1.identities - {ws})
  }

  function Join(t: Tables, ws: Socket, claim: Claim): Tables {
    var connections := t.connections[claim.identity := Entry(ws, claim.device, {})];
    var greeted := Send(Send(t.sent, ws, Authenticated(claim.identity)), ws, Snapshot(connections.Keys));
    t.(connections := connections,
       identities := t.identities[ws := claim.identity],
       sent := SendAll(greeted, Sockets(connections), Presence(claim.identity, true)))
  }

  function Accept(t: Tables, ws: Socket, claim: Claim): Tables {
    Join(Replaced(t.(pending := t.pending - {ws}), claim.identity), ws, claim)
  }

  function Drop(t: Tables, ws: Socket): Tables {
    var t1 := t.(pending := t.pending - {ws}, identities := t.identities - {ws});
    if ws in t.identities && t.identities[ws] in t.connections && t.connections[t.identities[ws]].ws == ws then
      Remove(t1, t.identities[ws])
    else t1
  }

  function SubscribeTo(t: Tables, who: Id, room: Room): Tables {
    if who !in t.connections then t
    else
      var entry := t.connections[who];
      t.(connections := t.connections[who := entry.(rooms := entry.rooms + {room})],
         rooms := t.rooms[room := (if room in t.rooms then t.rooms[room] else {}) + {who}])
  }

  function UnsubscribeFrom(t: Tables, who: Id, room: Room): Tables {
    var connections :=
      if who in t.connections then t.connections[who := t.connections[who].(rooms := t.connections[who].rooms - {room})]
      else t.connections;
    t.(connections := connections, rooms := Leave(t.rooms, who, {room}))
  }

  /** The sockets a room event from `who` is sent to. */
  function Audience(t: Tables, who: Id, room: Room): set<Socket> {
    if room !in t.rooms then {}
    else set i | i in t.rooms[room] && i != who && i in t.connections :: t.connections[i].ws
  }

  function Serve(t: Tables, ws: Socket, who: Id, m: Received): Tables {
    match m
    case Invalid => t.(sent := Send(t.sent, ws, ErrorText("invalid JSON")))
    case Direct(to, data) =>
      if to in t.connections then t.(sent := Send(t.sent, t.connections[to].ws, Forwarded(who, data))) else t
    case Subscribe(room) => SubscribeTo(t, who, room)
    case Unsubscribe(room) => UnsubscribeFrom(t, who, room)
    case Publish(room, data) =>
      if room in t.rooms then t.(sent := SendAll(t.sent, Audience(t, who, room), RoomEvent(room, data))) else t
    case Auth(_) => t
    case Unknown => t
  }

  function Message(t: Tables, ws: Socket, m: Received): Tables {
    if ws in t.pending then
      if m.Auth? && m.verified then Accept(t, ws, t.pending[ws]) else Reject(t, ws, "authentication failed")
    else if ws !in t.identities || t.identities[ws] !in t.connections || t.connections[t.identities[ws]].ws != ws then
      Reject(t, ws, "not authenticated")
    else Serve(t, ws, t.identities[ws], m)
  }

  function Upgrade(t: Tables, ws: Socket, claim: Claim): Tables {
    t.(pending := t.pending[ws := claim], sent := Send(t.sent, ws, Challenge))
  }

  // ---- The session object ----

  lemma SendAllMore(sent: Logs, to: set<Socket>, ws: Socket, m: Sent)
    requires ws !in to
    ensures Send(SendAll(sent, to, m), ws, m) == SendAll(sent, to + {ws}, m)
  {
  }

  lemma LeaveMore(rooms: map<Room, set<Id>>, who: Id, left: set<Room>, room: Room)
    requires forall r :: r in rooms ==> rooms[r] != {}
    ensures Leave(Leave(rooms, who, left), who, {room}) == Leave(rooms, who, left + {room})
  {
    var once := Leave(rooms, who, left);
    assert forall r :: r in once && r in left ==> once[r] - {who} == once[r];
    assert Leave(once, who, {room}).Keys == Leave(rooms, who, left + {room}).Keys;
  }

  class Session {
    var connections: map<Id, Entry>
    var roomSubscriptions: map<Room, set<Id>>
    var pending: map<Socket, Claim>
    var socketIdentity: map<Socket, Id>
    var sent: Logs

    ghost function View(): Tables
      reads this
    {
      Tables(connections, roomSubscriptions, pending, socketIdentity, sent)
    }

    constructor ()
      ensures View() == Tables(map[], map[], map[], map[], map[])
    {
      connections, roomSubscriptions, pending, socketIdentity, sent := map[], map[], map[], map[], map[];
    }

    method SendTo(ws: Socket, m: Sent)
      modifies this`sent
      ensures sent == Send(old(sent), ws, m)
    {
      sent := sent[ws := (if ws in sent then sent[ws] else []) + [m]];
    }

    method NotifyPresence(who: Id, online: bool)
      requires forall i, j :: i in connections && j in connections && i != j ==> connections[i].ws != connections[j].ws
      modifies this`sent
      ensures sent == SendAll(old(sent), Sockets(connections), Presence(who, online))
    {
      var todo := connections.Keys;
      ghost var reached: set<Socket> := {};
      assert sent == SendAll(sent, {}, Presence(who, online));
      while todo != {}
        invariant todo <= connections.Keys
        invariant reached == set i | i in connections && i !in todo :: connections[i].ws
        invariant sent == SendAll(old(sent), reached, Presence(who, online))
        decreases todo
      {
        var i :| i in todo;
        SendAllMore(old(sent), reached, connections[i].ws, Presence(who, online));
        SendTo(connections[i].ws, Presence(who, online));
        reached := reached + {connections[i].ws};
        todo := todo - {i};
      }
      assert reached == Sockets(connections);
    }

    method LeaveRoom(who: Id, room: Room)
      modifies this`roomSubscriptions
      ensures roomSubscriptions == Leave(old(roomSubscriptions), who, {room})
    {
      if room in roomSubscriptions {
        var subs := roomSubscriptions[room] - {who};
        roomSubscriptions := if subs == {} then roomSubscriptions - {room} else roomSubscriptions[room := subs];
      }
    }

    method RemoveConnection(who: Id)
      requires forall i, j :: i in connections && j in connections && i != j ==> connections[i].ws != connections[j].ws
      requires forall r :: r in roomSubscriptions ==> roomSubscriptions[r] != {}
      modifies this`connections, this`roomSubscriptions, this`sent
      ensures View() == Remove(old(View()), who)
    {
      if who !in connections {
        return;
      }
      var todo := connections[who].rooms;
      ghost var left: set<Room> := {};
      assert roomSubscriptions == Leave(roomSubscriptions, who, {});
      while todo != {}
        invariant connections == old(connections) && sent == old(sent)
        invariant left + todo == connections[who].rooms
        invariant roomSubscriptions == Leave(old(roomSubscriptions), who, left)
        decreases todo
      {
        var room :| room in todo;
        LeaveMore(old(roomSubscriptions), who, left, room);
        LeaveRoom(who, room);
        left := left + {room};
        todo := todo - {room};
      }
      assert left == connections[who].rooms;
      connections := connections - {who};
      NotifyPresence(who, false);
    }

    method RejectAuth(ws: Socket, text: string)
      modifies this`pending, this`sent
      ensures View() == Reject(old(View()), ws, text)
    {
      pending := pending - {ws};
      SendTo(ws, ErrorText(text));
    }

    method HandleAuth(ws: Socket, claim: Claim, m: Received)
      requires Exact(View()) && ws in pending && pending[ws] == claim
      modifies this
      ensures View() == Message(old(View()), ws, m)
    {
      if !m.Auth? || !m.verified {
        RejectAuth(ws, "authentication failed");
        return;
      }
      ExactDistinct(View());
      pending := pending - {ws};
      if claim.identity in connections {
        var existing := connections[claim.identity].ws;
        SendTo(existing, ErrorText("Replaced by new connection"));
        RemoveConnection(claim.identity);
        socketIdentity := socketIdentity - {existing};
      }
      assert View() == Replaced(old(View()).(pending := old(View()).pending - {ws}), claim.identity);
      assert forall i :: i in connections ==> connections[i].ws != ws by {
        AllOk(old(View()), ws);
      }
      connections := connections[claim.identity := Entry(ws, claim.device, {})];
      socketIdentity := socketIdentity[ws := claim.identity];
      SendTo(ws, Authenticated(claim.identity));
      SendTo(ws, Snapshot(connections.Keys));
      NotifyPresence(claim.identity, true);
    }

    method DropSocket(ws: Socket)
      requires Exact(View())
      modifies this
      ensures View() == Drop(old(View()), ws)
      ensures Exact(View())
    {
      DropKeeps(View(), ws);
      ExactDistinct(View());
      var known := ws in socketIdentity;
      var who := if known then socketIdentity[ws] else "";
      pending := pending - {ws};
      socketIdentity := socketIdentity - {ws};
      if known && who in connections && connections[who].ws == ws {
        RemoveConnection(who);
      }
    }

    /** A room event goes to every other subscriber that is connected. */
    method BroadcastRoomEvent(who: Id, room: Room, data: Data)
      requires Exact(View())
      modifies this`sent
      ensures sent == if room in roomSubscriptions then SendAll(old(sent), Audience(View(), who, room), RoomEvent(room, data)) else old(sent)
    {
      if room !in roomSubscriptions {
        return;
      }
      ExactDistinct(View());
      var todo := roomSubscriptions[room];
      ghost var reached: set<Socket> := {};
      assert sent == SendAll(sent, {}, RoomEvent(room, data));
      while todo != {}
        invariant todo <= roomSubscriptions[room]
        invariant reached == set i | i in roomSubscriptions[room] && i !in todo && i != who && i in connections :: connections[i].ws
        invariant sent == SendAll(old(sent), reached, RoomEvent(room, data))
        decreases todo
      {
        var i :| i in todo;
        if i != who && i in connections {
          SendAllMore(old(sent), reached, connections[i].ws, RoomEvent(room, data));
          SendTo(connections[i].ws, RoomEvent(room, data));
          reached := reached + {connections[i].ws};
        }
        todo := todo - {i};
      }
      assert reached == Audience(View(), who, room);
    }

    method SubscribeRoom(who: Id, room: Room)
      modifies this`connections, this`roomSubscriptions
      ensures View() == SubscribeTo(old(View()), who, room)
    {
      if who !in connections {
        return;
      }
      var entry := connections[who];
      connections := connections[who := entry.(rooms := entry.rooms + {room})];
      if room !in roomSubscriptions {
        roomSubscriptions := roomSubscriptions[room := {}];
      }
      roomSubscriptions := roomSubscriptions[room := roomSubscriptions[room] + {who}];
    }

    method UnsubscribeRoom(who: Id, room: Room)
      modifies this`connections, this`roomSubscriptions
      ensures View() == UnsubscribeFrom(old(View()), who, room)
    {
      if who in connections {
        connections := connections[who := connections[who].(rooms := connections[who].rooms - {room})];
      }
      LeaveRoom(who, room);
    }

    /** A new socket is challenged and waits with what it says it is. */
    method HandleUpgrade(ws: Socket, claim: Claim)
      requires Exact(View()) && ws !in sent
      modifies this`pending, this`sent
      ensures View() == Upgrade(old(View()), ws, claim)
      ensures Exact(View())
    {
      UpgradeKeeps(View(), ws, claim);
      pending := pending[ws := claim];
      SendTo(ws, Challenge);
    }

    method WebSocketMessage(ws: Socket, m: Received)
      requires Exact(View())
      modifies this
      ensures View() == Message(old(View()), ws, m)
      ensures Exact(View())
    {
      MessageKeeps(View(), ws, m);
      if ws in pending {
        HandleAuth(ws, pending[ws], m);
        return;
      }
      if ws !in socketIdentity || socketIdentity[ws] !in connections || connections[socketIdentity[ws]].ws != ws {
        RejectAuth(ws, "not authenticated");
        return;
      }
      var who := socketIdentity[ws];
      match m {
        case Invalid => SendTo(ws, ErrorText("invalid JSON"));
        case Direct(to, data) =>
          if to in connections {
            SendTo(connections[to].ws, Forwarded(who, data));
          }
        case Subscribe(room) => SubscribeRoom(who, room);
        case Unsubscribe(room) => UnsubscribeRoom(who, room);
        case Publish(room, data) => BroadcastRoomEvent(who, room, data);
        case Auth(_) =>
        case Unknown =>
      }
    }
  }

  // ---- Exactness ----

  /** What reading one message does to what a client believes: a snapshot replaces, an update adds or removes. */
  function Believe(before: set<Id>, m: Sent): set<Id> {
    if m.Snapshot? then m.all
    else if m.Presence? then (if m.online then before + {m.who} else before - {m.who})
    else before
  }

  function Replay(log: seq<Sent>): set<Id>
    decreases |log|
  {
    if log == [] then {} else Believe(Replay(log[..|log| - 1]), log[|log| - 1])
  }

  lemma ReplayPush(log: seq<Sent>, m: Sent)
    ensures Replay(log + [m]) == Believe(Replay(log), m)
  {
    assert (log + [m])[..|log|] == log;
  }

  function Listing(connections: map<Id, Entry>, room: Room): set<Id> {
    set i | i in connections && room in connections[i].rooms
  }

  ghost predicate ConnectionOk(t: Tables, i: Id) {
    i in t.connections ==>
      var ws := t.connections[i].ws;
      ws in t.identities && t.identities[ws] == i && ws !in t.pending && ws in t.sent
  }

  ghost predicate PresenceOk(t: Tables, i: Id) {
    i in t.connections ==> Replay(LogOf(t.sent, t.connections[i].ws)) == t.connections.Keys
  }

  ghost predicate SocketOk(t: Tables, ws: Socket) {
    && (ws in t.identities ==> t.identities[ws] in t.connections && t.connections[t.identities[ws]].ws == ws)
    && (ws in t.pending ==> ws !in t.identities && ws in t.sent)
  }

  ghost predicate RoomOk(t: Tables, room: Room) {
    if room in t.rooms then t.rooms[room] != {} && t.rooms[room] == Listing(t.connections, room)
    else Listing(t.connections, room) == {}
  }

  ghost predicate Exact(t: Tables) {
    && (forall i :: ConnectionOk(t, i))
    && (forall i :: PresenceOk(t, i))
    && (forall ws :: SocketOk(t, ws))
    && (forall r :: RoomOk(t, r))
  }

  lemma AllOk(t: Tables, ws: Socket)
    requires Exact(t) && ws in t.pending
    ensures forall i :: i in t.connections ==> t.connections[i].ws != ws
  {
    forall i | i in t.connections ensures t.connections[i].ws != ws {
      assert ConnectionOk(t, i);
    }
  }

  lemma ExactDistinct(t: Tables)
    requires Exact(t)
    ensures forall i, j :: i in t.connections && j in t.connections && i != j ==> t.connections[i].ws != t.connections[j].ws
    ensures forall r :: r in t.rooms ==> t.rooms[r] != {}
  {
    forall i, j | i in t.connections && j in t.connections && i != j ensures t.connections[i].ws != t.connections[j].ws {
      assert ConnectionOk(t, i) && ConnectionOk(t, j);
    }
    forall r | r in t.rooms ensures t.rooms[r] != {} {
      assert RoomOk(t, r);
    }
  }

  // ---- Every handler keeps the tables exact ----

  lemma SendPresence(t: Tables, ws: Socket, m: Sent, i: Id)
    requires PresenceOk(t, i) && !m.Snapshot? && !m.Presence?
    ensures PresenceOk(t.(sent := Send(t.sent, ws, m)), i)
  {
    ReplayPush(LogOf(t.sent, ws), m);
  }

  lemma SendKeeps(t: Tables, ws: Socket, m: Sent)
    requires Exact(t) && !m.Snapshot? && !m.Presence?
    ensures Exact(t.(sent := Send(t.sent, ws, m)))
  {
    var t' := t.(sent := Send(t.sent, ws, m));
    forall i ensures ConnectionOk(t', i) && PresenceOk(t', i) {
      assert ConnectionOk(t, i) && PresenceOk(t, i);
      SendPresence(t, ws, m, i);
    }
    forall k ensures SocketOk(t', k) {
      assert SocketOk(t, k);
    }
    forall r ensures RoomOk(t', r) {
      assert RoomOk(t, r);
    }
  }

  lemma SendAllKeeps(t: Tables, to: set<Socket>, m: Sent)
    requires Exact(t) && !m.Snapshot? && !m.Presence?
    ensures Exact(t.(sent := SendAll(t.sent, to, m)))
  {
    var t' := t.(sent := SendAll(t.sent, to, m));
    forall i ensures ConnectionOk(t', i) && PresenceOk(t', i) {
      assert ConnectionOk(t, i) && PresenceOk(t, i);
      if i in t.connections {
        ReplayPush(LogOf(t.sent, t.connections[i].ws), m);
      }
    }
    forall k ensures SocketOk(t', k) {
      assert SocketOk(t, k);
    }
    forall r ensures RoomOk(t', r) {
      assert RoomOk(t, r);
    }
  }

  lemma ForgetPendingKeeps(t: Tables, ws: Socket)
    requires Exact(t)
    ensures Exact(t.(pending := t.pending - {ws}))
  {
    var t' := t.(pending := t.pending - {ws});
    forall i ensures ConnectionOk(t', i) && PresenceOk(t', i) {
      assert ConnectionOk(t, i) && PresenceOk(t, i);
    }
    forall k ensures SocketOk(t', k) {
      assert SocketOk(t, k);
    }
    forall r ensures RoomOk(t', r) {
      assert RoomOk(t, r);
    }
  }

  /** A connection removed together with its socket's identity. */
  function Gone(t: Tables, who: Id): Tables
    requires who in t.connections
  {
    Remove(t, who).(identities := t.identities - {t.connections[who].ws})
  }

  lemma GoneKeeps(t: Tables, who: Id)
    requires Exact(t) && who in t.connections
    ensures Exact(Gone(t, who))
  {
    var t' := Gone(t, who);
    assert ConnectionOk(t, who);
    forall i ensures ConnectionOk(t', i) && PresenceOk(t', i) {
      assert ConnectionOk(t, i) && PresenceOk(t, i);
      if i in t'.connections {
        ReplayPush(LogOf(t.sent, t.connections[i].ws), Presence(who, false));
        assert t'.connections[i].ws in Sockets(t'.connections);
      }
    }
    forall k ensures SocketOk(t', k) {
      assert SocketOk(t, k);
    }
    forall r ensures RoomOk(t', r) {
      assert RoomOk(t, r);
      assert Listing(t'.connections, r) == Listing(t.connections, r) - {who};
    }
  }

  lemma ReplacedKeeps(t: Tables, who: Id)
    requires Exact(t)
    ensures Exact(Replaced(t, who)) && who !in Replaced(t, who).connections
    ensures Replaced(t, who).pending == t.pending
    ensures Replaced(t, who).connections == t.connections - {who}
    ensures forall ws :: ws in Replaced(t, who).identities ==> ws in t.identities
    ensures forall ws :: ws in t.sent ==> ws in Replaced(t, who).sent
  {
    if who in t.connections {
      var ws := t.connections[who].ws;
      var t1 := t.(sent := Send(t.sent, ws, ErrorText("Replaced by new connection")));
      SendKeeps(t, ws, ErrorText("Replaced by new connection"));
      GoneKeeps(t1, who);
      assert Replaced(t, who) == Gone(t1, who);
    }
  }

  /** The newcomer reads a snapshot, then its own arrival. */
  lemma NewcomerReads(log: seq<Sent>, who: Id, online: set<Id>)
    requires who in online
    ensures Replay(log + [Authenticated(who)] + [Snapshot(online)] + [Presence(who, true)]) == online
  {
    ReplayPush(log + [Authenticated(who)], Snapshot(online));
    ReplayPush(log + [Authenticated(who)] + [Snapshot(online)], Presence(who, true));
  }

  /** What each socket has been sent once somebody joined. */
  lemma JoinLog(t: Tables, ws: Socket, claim: Claim, k: Socket)
    ensures var t' := Join(t, ws, claim); var who := claim.identity;
            k in Sockets(t'.connections) ==>
              LogOf(t'.sent, k) ==
              (if k == ws then LogOf(t.sent, ws) + [Authenticated(who)] + [Snapshot(t'.connections.Keys)] else LogOf(t.sent, k)) + [Presence(who, true)]
  {
  }

  lemma JoinPresence(t: Tables, ws: Socket, claim: Claim, i: Id)
    requires ConnectionOk(t, i) && PresenceOk(t, i) && claim.identity !in t.connections && ws !in t.identities
    ensures PresenceOk(Join(t, ws, claim), i)
  {
    var t' := Join(t, ws, claim);
    if i in t'.connections {
      var k := t'.connections[i].ws;
      assert k in Sockets(t'.connections);
      JoinLog(t, ws, claim, k);
      if i == claim.identity {
        NewcomerReads(LogOf(t.sent, ws), i, t'.connections.Keys);
      } else {
        ReplayPush(LogOf(t.sent, k), Presence(claim.identity, true));
      }
    }
  }

  lemma JoinKeeps(t: Tables, ws: Socket, claim: Claim)
    requires Exact(t) && claim.identity !in t.connections && ws !in t.identities && ws !in t.pending
    ensures Exact(Join(t, ws, claim))
  {
    var t' := Join(t, ws, claim);
    forall i ensures ConnectionOk(t', i) && PresenceOk(t', i) {
      assert ConnectionOk(t, i) && PresenceOk(t, i);
      JoinPresence(t, ws, claim, i);
    }
    forall k ensures SocketOk(t', k) {
      assert SocketOk(t, k);
    }
    forall r ensures RoomOk(t', r) {
      assert RoomOk(t, r);
      assert Listing(t'.connections, r) == Listing(t.connections, r);
    }
  }

  lemma AcceptKeeps(t: Tables, ws: Socket)
    requires Exact(t) && ws in t.pending
    ensures Exact(Accept(t, ws, t.pending[ws]))
  {
    assert SocketOk(t, ws);
    ForgetPendingKeeps(t, ws);
    ReplacedKeeps(t.(pending := t.pending - {ws}), t.pending[ws].identity);
    JoinKeeps(Replaced(t.(pending := t.pending - {ws}), t.pending[ws].identity), ws, t.pending[ws]);
  }

  lemma DropIsGone(t: Tables, ws: Socket, who: Id)
    requires ws in t.identities && t.identities[ws] == who && who in t.connections && t.connections[who].ws == ws
    ensures Drop(t, ws) == Gone(t.(pending := t.pending - {ws}), who)
  {
  }

  lemma DropKeeps(t: Tables, ws: Socket)
    requires Exact(t)
    ensures Exact(Drop(t, ws))
  {
    assert SocketOk(t, ws);
    ForgetPendingKeeps(t, ws);
    var t1 := t.(pending := t.pending - {ws});
    if ws in t.identities {
      var who := t.identities[ws];
      GoneKeeps(t1, who);
      DropIsGone(t, ws, who);
    } else {
      assert t.identities - {ws} == t.identities;
    }
  }

  lemma RejectKeeps(t: Tables, ws: Socket, text: string)
    requires Exact(t)
    ensures Exact(Reject(t, ws, text))
  {
    ForgetPendingKeeps(t, ws);
    SendKeeps(t.(pending := t.pending - {ws}), ws, ErrorText(text));
  }

  lemma SubscribeKeeps(t: Tables, who: Id, room: Room)
    requires Exact(t)
    ensures Exact(SubscribeTo(t, who, room))
  {
    if who in t.connections {
      var t' := SubscribeTo(t, who, room);
      forall i ensures ConnectionOk(t', i) && PresenceOk(t', i) {
        assert ConnectionOk(t, i) && PresenceOk(t, i);
      }
      forall k ensures SocketOk(t', k) {
        assert SocketOk(t, k);
      }
      forall r ensures RoomOk(t', r) {
        assert RoomOk(t, r);
        assert Listing(t'.connections, r) == Listing(t.connections, r) + (if r == room then {who} else {});
      }
    }
  }

  lemma UnsubscribeKeeps(t: Tables, who: Id, room: Room)
    requires Exact(t) && who in t.connections
    ensures Exact(UnsubscribeFrom(t, who, room))
  {
    var t' := UnsubscribeFrom(t, who, room);
    assert t'.connections.Keys == t.connections.Keys;
    forall i ensures ConnectionOk(t', i) && PresenceOk(t', i) {
      assert ConnectionOk(t, i) && PresenceOk(t, i);
    }
    forall k ensures SocketOk(t', k) {
      assert SocketOk(t, k);
    }
    forall r ensures RoomOk(t', r) {
      assert RoomOk(t, r);
      if r == room {
        assert Listing(t'.connections, r) == Listing(t.connections, r) - {who};
      } else {
        assert Listing(t'.connections, r) == Listing(t.connections, r);
      }
    }
  }

  lemma MessageKeeps(t: Tables, ws: Socket, m: Received)
    requires Exact(t)
    ensures Exact(Message(t, ws, m))
  {
    if ws in t.pending {
      if m.Auth? && m.verified {
        AcceptKeeps(t, ws);
      } else {
        RejectKeeps(t, ws, "authentication failed");
      }
    } else {
      assert SocketOk(t, ws);
      if ws !in t.identities {
        RejectKeeps(t, ws, "not authenticated");
      } else {
        ServeKeeps(t, ws, t.identities[ws], m);
      }
    }
  }

  lemma ServeKeeps(t: Tables, ws: Socket, who: Id, m: Received)
    requires Exact(t) && who in t.connections
    ensures Exact(Serve(t, ws, who, m))
  {
    match m {
      case Invalid => SendKeeps(t, ws, ErrorText("invalid JSON"));
      case Direct(to, data) =>
        if to in t.connections {
          SendKeeps(t, t.connections[to].ws, Forwarded(who, data));
        }
      case Subscribe(room) => SubscribeKeeps(t, who, room);
      case Unsubscribe(room) => UnsubscribeKeeps(t, who, room);
      case Publish(room, data) => SendAllKeeps(t, Audience(t, who, room), RoomEvent(room, data));
      case Auth(_) =>
      case Unknown =>
    }
  }

  lemma UpgradeKeeps(t: Tables, ws: Socket, claim: Claim)
    requires Exact(t) && ws !in t.sent
    ensures Exact(Upgrade(t, ws, claim))
  {
    SendKeeps(t, ws, Challenge);
    var t1 := t.(sent := Send(t.sent, ws, Challenge));
    var t' := Upgrade(t, ws, claim);
    forall i ensures ConnectionOk(t', i) && PresenceOk(t', i) {
      assert ConnectionOk(t, i) && ConnectionOk(t1, i) && PresenceOk(t1, i);
    }
    forall k ensures SocketOk(t', k) {
      assert SocketOk(t, k) && SocketOk(t1, k);
      assert k in t.identities ==> ConnectionOk(t, t.identities[k]);
    }
    forall r ensures RoomOk(t', r) {
      assert RoomOk(t, r);
    }
  }

  // ---- Runs ----

  /** A new socket is accepted; a socket sends, times out before authenticating, or closes. */
  datatype Step =
    | Connect(ws: Socket, claim: Claim)
    | Receive(ws: Socket, m: Received)
    | Timeout(ws: Socket)
    | Close(ws: Socket)

  function Next(t: Tables, step: Step): Tables {
    match step
    case Connect(ws, claim) => if ws in t.sent then t else Upgrade(t, ws, claim)
    case Receive(ws, m) => if ws in t.sent then Message(t, ws, m) else t
    case Timeout(ws) => if ws in t.pending then Reject(t, ws, "authentication timeout") else t
    case Close(ws) => Drop(t, ws)
  }

  function Run(steps: seq<Step>): Tables
    decreases |steps|
  {
    if steps == [] then Tables(map[], map[], map[], map[], map[])
    else Next(Run(steps[..|steps| - 1]), steps[|steps| - 1])
  }

  /** After every run the four tables agree exactly, and every connected client's replay of what it was
      sent is the set of connected identities. */
  lemma {:induction false} TablesStayExact(steps: seq<Step>)
    ensures Exact(Run(steps))
    decreases |steps|
  {
    if steps == [] {
      var t := Run([]);
      forall r ensures RoomOk(t, r) {
        assert Listing(t.connections, r) == {};
      }
    } else {
      var t := Run(steps[..|steps| - 1]);
      TablesStayExact(steps[..|steps| - 1]);
      match steps[|steps| - 1] {
        case Connect(ws, claim) =>
          if ws !in t.sent {
            UpgradeKeeps(t, ws, claim);
          }
        case Receive(ws, m) => MessageKeeps(t, ws, m);
        case Timeout(ws) => RejectKeeps(t, ws, "authentication timeout");
        case Close(ws) => DropKeeps(t, ws);
      }
    }
  }

  // ---- Who is connected, told from the history alone ----

  datatype Status = Unseen | Claiming(claim: Claim) | Spent

  /** A socket's claim stands until its first message, timeout or close. */
  function StatusOf(steps: seq<Step>, ws: Socket): Status
    decreases |steps|
  {
    if steps == [] then Unseen
    else
      var before := StatusOf(steps[..|steps| - 1], ws);
      var step := steps[|steps| - 1];
      if step.ws != ws then before
      else if step.Connect? then (if before.Unseen? then Claiming(step.claim) else before)
      else if before.Claiming? then Spent
      else before
  }

  /** The identity a step authenticates. */
  function Authenticates(before: seq<Step>, step: Step): Option<Id> {
    var status := StatusOf(before, step.ws);
    if step.Receive? && step.m.Auth? && step.m.verified && status.Claiming? then Some(status.claim.identity) else None
  }

  /** The latest socket to authenticate as `who`, until that socket closes. */
  function Holder(steps: seq<Step>, who: Id): Option<Socket>
    decreases |steps|
  {
    if steps == [] then None
    else
      var before := steps[..|steps| - 1];
      var step := steps[|steps| - 1];
      if Authenticates(before, step) == Some(who) then Some(step.ws)
      else if step.Close? && Holder(before, who) == Some(step.ws) then None
      else Holder(before, who)
  }

  /** Whether `who`'s current connection last asked to be in `room`. */
  function Joined(steps: seq<Step>, who: Id, room: Room): bool
    decreases |steps|
  {
    if steps == [] then false
    else
      var before := steps[..|steps| - 1];
      var step := steps[|steps| - 1];
      if Authenticates(before, step) == Some(who) then false
      else if Holder(before, who) != Some(step.ws) then Joined(before, who, room)
      else if step.Close? then false
      else if step.Receive? && step.m == Subscribe(room) then true
      else if step.Receive? && step.m == Unsubscribe(room) then false
      else Joined(before, who, room)
  }

  ghost predicate SocketTold(steps: seq<Step>, t: Tables, ws: Socket) {
    match StatusOf(steps, ws)
    case Unseen => ws !in t.sent && ws !in t.pending
    case Claiming(claim) => ws in t.sent && ws in t.pending && t.pending[ws] == claim
    case Spent => ws in t.sent && ws !in t.pending
  }

  ghost predicate IdentityTold(steps: seq<Step>, t: Tables, who: Id) {
    && (who in t.connections <==> Holder(steps, who).Some?)
    && (who in t.connections ==> Holder(steps, who) == Some(t.connections[who].ws))
    && (forall r :: Joined(steps, who, r) <==> who in t.connections && r in t.connections[who].rooms)
  }

  lemma SocketStep(steps: seq<Step>, step: Step, ws: Socket)
    requires Exact(Run(steps)) && SocketTold(steps, Run(steps), ws) && SocketTold(steps, Run(steps), step.ws)
    ensures SocketTold(steps + [step], Run(steps + [step]), ws)
  {
    var t := Run(steps);
    assert (steps + [step])[..|steps|] == steps;
    SocketOnly(t, step);
  }

  /** Every connection's socket is one the relay has accepted. */
  ghost predicate SocketsOpen(t: Tables) {
    forall i :: i in t.connections ==> t.connections[i].ws in t.sent
  }

  lemma ExactOpen(t: Tables)
    requires Exact(t)
    ensures SocketsOpen(t)
  {
    forall i | i in t.connections ensures t.connections[i].ws in t.sent {
      assert ConnectionOk(t, i);
    }
  }

  lemma ReplacedForm(t: Tables, who: Id)
    requires SocketsOpen(t)
    ensures var t' := Replaced(t, who);
            && t'.pending == t.pending && t'.connections == t.connections - {who} && t'.sent.Keys == t.sent.Keys
            && SocketsOpen(t')
  {
  }

  lemma JoinForm(t: Tables, ws: Socket, claim: Claim)
    requires ws in t.sent && SocketsOpen(t)
    ensures var t' := Join(t, ws, claim);
            && t'.pending == t.pending && t'.sent.Keys == t.sent.Keys
            && t'.connections == t.connections[claim.identity := Entry(ws, claim.device, {})]
  {
    assert Sockets(Join(t, ws, claim).connections) <= t.sent.Keys;
  }

  /** What authentication does to the tables the history speaks of. */
  lemma AcceptForm(t: Tables, ws: Socket, claim: Claim)
    requires SocketsOpen(t) && ws in t.sent
    ensures var t' := Accept(t, ws, claim);
            && t'.pending == t.pending - {ws}
            && t'.connections == t.connections[claim.identity := Entry(ws, claim.device, {})]
            && t'.sent.Keys == t.sent.Keys
  {
    var t0 := t.(pending := t.pending - {ws});
    ReplacedForm(t0, claim.identity);
    var t1 := Replaced(t0, claim.identity);
    JoinForm(t1, ws, claim);
    Overwrite(t.connections, claim.identity, Entry(ws, claim.device, {}));
  }

  lemma DropForm(t: Tables, ws: Socket)
    requires Exact(t)
    ensures var t' := Drop(t, ws);
            && t'.pending == t.pending - {ws}
            && t'.connections == (if ws in t.identities then t.connections - {t.identities[ws]} else t.connections)
            && t'.sent.Keys == t.sent.Keys
  {
    assert SocketOk(t, ws);
    ExactOpen(t);
  }

  lemma ServeForm(t: Tables, ws: Socket, who: Id, m: Received)
    requires Exact(t) && ws in t.sent && who in t.connections
    ensures Serve(t, ws, who, m).pending == t.pending && Serve(t, ws, who, m).sent.Keys == t.sent.Keys
  {
    ExactOpen(t);
  }

  /** A step puts only its own socket into or out of `pending`, and opens no other socket. */
  lemma SocketOnly(t: Tables, step: Step)
    requires Exact(t)
    ensures var t' := Next(t, step);
            if step.Connect? then
              if step.ws in t.sent then t' == t
              else t'.pending == t.pending[step.ws := step.claim] && t'.sent.Keys == t.sent.Keys + {step.ws}
            else t'.pending == t.pending - {step.ws} && t'.sent.Keys == t.sent.Keys
  {
    assert SocketOk(t, step.ws);
    match step {
      case Connect(_, _) =>
      case Receive(ws, m) =>
        if ws in t.pending {
          if m.Auth? && m.verified {
            ExactOpen(t);
            AcceptForm(t, ws, t.pending[ws]);
          }
        } else if ws in t.sent && ws in t.identities {
          ServeForm(t, ws, t.identities[ws], m);
        }
      case Timeout(ws) =>
      case Close(ws) => DropForm(t, ws);
    }
  }

  /** How a step of an identity's own socket, or an authentication, changes its connection. */
  function EntryNext(before: seq<Step>, entry: Option<Entry>, who: Id, step: Step): Option<Entry> {
    if Authenticates(before, step) == Some(who) then Some(Entry(step.ws, StatusOf(before, step.ws).claim.device, {}))
    else if entry.None? || entry.value.ws != step.ws then entry
    else if step.Close? then None
    else if step.Receive? && step.m.Subscribe? then Some(entry.value.(rooms := entry.value.rooms + {step.m.room}))
    else if step.Receive? && step.m.Unsubscribe? then Some(entry.value.(rooms := entry.value.rooms - {step.m.room}))
    else entry
  }

  function EntryOf(t: Tables, who: Id): Option<Entry> {
    if who in t.connections then Some(t.connections[who]) else None
  }

  lemma EntryStep(before: seq<Step>, t: Tables, step: Step, who: Id)
    requires Exact(t) && SocketTold(before, t, step.ws)
    ensures EntryOf(Next(t, step), who) == EntryNext(before, EntryOf(t, who), who, step)
  {
    assert SocketOk(t, step.ws) && ConnectionOk(t, who);
    match step {
      case Connect(_, _) =>
      case Receive(ws, m) =>
        if ws in t.pending {
          ExactOpen(t);
          AcceptForm(t, ws, t.pending[ws]);
        }
      case Timeout(_) =>
      case Close(ws) => DropForm(t, ws);
    }
  }

  lemma IdentityStep(steps: seq<Step>, step: Step, who: Id)
    requires Exact(Run(steps)) && IdentityTold(steps, Run(steps), who) && SocketTold(steps, Run(steps), step.ws)
    ensures IdentityTold(steps + [step], Run(steps + [step]), who)
  {
    assert (steps + [step])[..|steps|] == steps;
    EntryStep(steps, Run(steps), step, who);
    EntryTold(steps, step, who, EntryOf(Run(steps), who));
  }

  /** The same for the history. */
  lemma EntryTold(steps: seq<Step>, step: Step, who: Id, entry: Option<Entry>)
    requires Holder(steps, who) == (if entry.None? then None else Some(entry.value.ws))
    requires forall r :: Joined(steps, who, r) <==> entry.Some? && r in entry.value.rooms
    ensures var next := EntryNext(steps, entry, who, step);
            && Holder(steps + [step], who) == (if next.None? then None else Some(next.value.ws))
            && (forall r :: Joined(steps + [step], who, r) <==> next.Some? && r in next.value.rooms)
  {
    assert (steps + [step])[..|steps|] == steps;
  }

  /** The tables are what the history says: pending holds exactly the standing claims, connections the
      holders, and rooms the subscriptions made since each holder connected. */
  lemma {:induction false} HistoryTells(steps: seq<Step>)
    ensures forall ws :: SocketTold(steps, Run(steps), ws)
    ensures forall who :: IdentityTold(steps, Run(steps), who)
    decreases |steps|
  {
    if steps != [] {
      var before, step := steps[..|steps| - 1], steps[|steps| - 1];
      HistoryTells(before);
      TablesStayExact(before);
      assert before + [step] == steps;
      assert SocketTold(before, Run(before), step.ws);
      forall ws ensures SocketTold(steps, Run(steps), ws) {
        SocketStep(before, step, ws);
      }
      forall who ensures IdentityTold(steps, Run(steps), who) {
        IdentityStep(before, step, who);
      }
    }
  }

  /** A published event reaches, once each, exactly the other identities whose connection last asked to be
      in the room, and nobody else is sent anything. */
  lemma PublishReaches(steps: seq<Step>, ws: Socket, room: Room, data: Data, who: Id)
    requires Holder(steps, who) == Some(ws)
    ensures var before := Run(steps); var after := Run(steps + [Receive(ws, Publish(room, data))]);
            && after == before.(sent := after.sent)
            && (forall k: Socket :: LogOf(after.sent, k) ==
                  LogOf(before.sent, k) +
                  (if exists i :: Reads(steps, i, who, room, k) then [RoomEvent(room, data)] else []))
  {
    TablesStayExact(steps);
    HistoryTells(steps);
    var t := Run(steps);
    assert (steps + [Receive(ws, Publish(room, data))])[..|steps|] == steps;
    assert IdentityTold(steps, t, who) && ConnectionOk(t, who);
    PublishForm(t, ws, room, data, who);
    forall k: Socket ensures k in Audience(t, who, room) <==> exists i :: Reads(steps, i, who, room, k) {
      assert RoomOk(t, room);
      AudienceTold(steps, who, room, k);
    }
  }

  lemma PublishForm(t: Tables, ws: Socket, room: Room, data: Data, who: Id)
    requires who in t.connections && t.connections[who].ws == ws && ConnectionOk(t, who)
    ensures var t' := Next(t, Receive(ws, Publish(room, data)));
            && t' == t.(sent := t'.sent)
            && (forall k: Socket :: LogOf(t'.sent, k) ==
                  LogOf(t.sent, k) + (if k in Audience(t, who, room) then [RoomEvent(room, data)] else []))
  {
  }

  /** A direct message reaches exactly the socket that holds its recipient's identity, and always names the
      identity its sender authenticated as. */
  lemma DirectReaches(steps: seq<Step>, ws: Socket, to: Id, data: Data, who: Id)
    requires Holder(steps, who) == Some(ws)
    ensures var before := Run(steps); var after := Run(steps + [Receive(ws, Direct(to, data))]);
            && after == before.(sent := after.sent)
            && (forall k: Socket :: LogOf(after.sent, k) ==
                  LogOf(before.sent, k) + (if Holder(steps, to) == Some(k) then [Forwarded(who, data)] else []))
  {
    TablesStayExact(steps);
    HistoryTells(steps);
    var t := Run(steps);
    assert (steps + [Receive(ws, Direct(to, data))])[..|steps|] == steps;
    assert IdentityTold(steps, t, who) && IdentityTold(steps, t, to) && ConnectionOk(t, who);
    DirectForm(t, ws, to, data, who);
  }

  lemma DirectForm(t: Tables, ws: Socket, to: Id, data: Data, who: Id)
    requires who in t.connections && t.connections[who].ws == ws && ConnectionOk(t, who)
    ensures var t' := Next(t, Receive(ws, Direct(to, data)));
            && t' == t.(sent := t'.sent)
            && (forall k: Socket :: LogOf(t'.sent, k) ==
                  LogOf(t.sent, k) + (if to in t.connections && t.connections[to].ws == k then [Forwarded(who, data)] else []))
  {
  }

  /** `i` is another identity whose connection `k` last asked to be in the room. */
  ghost predicate Reads(steps: seq<Step>, i: Id, who: Id, room: Room, k: Socket) {
    i != who && Joined(steps, i, room) && Holder(steps, i) == Some(k)
  }

  lemma AudienceTold(steps: seq<Step>, who: Id, room: Room, k: Socket)
    requires RoomOk(Run(steps), room) && forall i :: IdentityTold(steps, Run(steps), i)
    ensures k in Audience(Run(steps), who, room) <==> exists i :: Reads(steps, i, who, room, k)
  {
    var t := Run(steps);
    if k in Audience(t, who, room) {
      var i :| i in t.rooms[room] && i != who && i in t.connections && k == t.connections[i].ws;
      assert IdentityTold(steps, t, i);
      assert Reads(steps, i, who, room, k);
    }
    if i :| Reads(steps, i, who, room, k) {
      assert IdentityTold(steps, t, i);
      assert i in Listing(t.connections, room);
    }
  }
}
