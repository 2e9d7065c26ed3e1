/**
 What every step of the relay sends to every socket, told from the history alone (workers/relay/src/index.ts): with
 HistoryTells, which gives the tables, this determines all that clients see.
 */
module RelayEffects {
  import opened Basics
  import opened RelaySession

  /** The socket holds an identity other than `who`. */
  ghost predicate HoldsOther(steps: seq<Step>, who: Id, k: Socket) {
    exists j :: j != who && Holder(steps, j) == Some(k)
  }

  ghost predicate HoldsNothing(steps: seq<Step>, k: Socket) {
    forall j :: Holder(steps, j) != Some(k)
  }

  /** The step sends `m` to `ws` and nothing to anybody else. */
  ghost predicate TellsOnly(steps: seq<Step>, step: Step, ws: Socket, m: seq<Sent>) {
    forall k: Socket :: LogOf(Run(steps + [step]).sent, k) == LogOf(Run(steps).sent, k) + if k == ws then m else []
  }

  lemma RunNext(steps: seq<Step>, step: Step)
    ensures Run(steps + [step]) == Next(Run(steps), step)
  {
    assert (steps + [step])[..|steps|] == steps;
  }

  lemma SocketsTold(steps: seq<Step>, who: Id, k: Socket)
    ensures k in Sockets(Run(steps).connections - {who}) <==> HoldsOther(steps, who, k)
  {
    HistoryTells(steps);
    var t := Run(steps);
    forall j ensures IdentityTold(steps, t, j) {
    }
    if k in Sockets(t.connections - {who}) {
      var j :| j in t.connections - {who} && (t.connections - {who})[j].ws == k;
      assert IdentityTold(steps, t, j);
      assert j != who && Holder(steps, j) == Some(k);
    }
    if j :| j != who && Holder(steps, j) == Some(k) {
      assert IdentityTold(steps, t, j);
      assert j in t.connections - {who} && (t.connections - {who})[j].ws == k;
    }
  }

  lemma NothingHeld(steps: seq<Step>, ws: Socket)
    ensures var t := Run(steps);
            HoldsNothing(steps, ws) <==> ws !in t.identities || t.identities[ws] !in t.connections || t.connections[t.identities[ws]].ws != ws
  {
    TablesStayExact(steps);
    HistoryTells(steps);
    var t := Run(steps);
    assert SocketOk(t, ws);
    if ws in t.identities {
      assert IdentityTold(steps, t, t.identities[ws]) && ConnectionOk(t, t.identities[ws]);
    }
    forall j | Holder(steps, j) == Some(ws) ensures ws in t.identities && t.identities[ws] == j && j in t.connections && t.connections[j].ws == ws {
      assert IdentityTold(steps, t, j) && ConnectionOk(t, j);
    }
  }

  lemma SendLog(sent: Logs, ws: Socket, m: Sent, k: Socket)
    ensures LogOf(Send(sent, ws, m), k) == LogOf(sent, k) + if k == ws then [m] else []
  {
    assert LogOf(sent, k) + [] == LogOf(sent, k);
  }

  lemma SendAllLog(sent: Logs, to: set<Socket>, m: Sent, k: Socket)
    ensures LogOf(SendAll(sent, to, m), k) == LogOf(sent, k) + if k in to then [m] else []
  {
    assert LogOf(sent, k) + [] == LogOf(sent, k);
  }

  /** A new socket is sent the challenge; a socket that has been used is not opened again. */
  lemma ConnectTells(steps: seq<Step>, ws: Socket, claim: Claim)
    ensures TellsOnly(steps, Connect(ws, claim), ws, if StatusOf(steps, ws).Unseen? then [Challenge] else [])
  {
    RunNext(steps, Connect(ws, claim));
    HistoryTells(steps);
    assert SocketTold(steps, Run(steps), ws);
    forall k: Socket ensures LogOf(Run(steps + [Connect(ws, claim)]).sent, k) ==
                             LogOf(Run(steps).sent, k) + if k == ws then (if StatusOf(steps, ws).Unseen? then [Challenge] else []) else []
    {
      SendLog(Run(steps).sent, ws, Challenge, k);
      assert LogOf(Run(steps).sent, k) + [] == LogOf(Run(steps).sent, k);
    }
  }

  /** A claim that is not proven in time, or by anything but a verified answer, is told so, and so is a socket that
      holds no identity. */
  lemma RefusalTells(steps: seq<Step>, step: Step)
    requires step.Timeout? || (step.Receive? && Authenticates(steps, step).None? && HoldsNothing(steps, step.ws))
    ensures var status := StatusOf(steps, step.ws);
            TellsOnly(steps, step, step.ws,
                      if step.Timeout? then (if status.Claiming? then [ErrorText("authentication timeout")] else [])
                      else if status.Claiming? then [ErrorText("authentication failed")]
                      else if status.Spent? then [ErrorText("not authenticated")] else [])
  {
    RunNext(steps, step);
    HistoryTells(steps);
    var t := Run(steps);
    assert SocketTold(steps, t, step.ws);
    NothingHeld(steps, step.ws);
    forall k: Socket ensures LogOf(t.sent, k) + [] == LogOf(t.sent, k) {
    }
    forall k: Socket, m: Sent ensures LogOf(Send(t.sent, step.ws, m), k) == LogOf(t.sent, k) + if k == step.ws then [m] else [] {
      SendLog(t.sent, step.ws, m, k);
    }
  }

  /** What a socket is sent when `who` leaves for good, or gives way to a new connection. */
  ghost function LeavingTells(steps: seq<Step>, who: Id, k: Socket): seq<Sent> {
    if Holder(steps, who).Some? && HoldsOther(steps, who, k) then [Presence(who, false)] else []
  }

  /** A socket that closes takes its identity offline for everybody else; one that holds nothing is not noticed. */
  lemma CloseTells(steps: seq<Step>, ws: Socket, who: Id, k: Socket)
    ensures Holder(steps, who) == Some(ws) ==>
              LogOf(Run(steps + [Close(ws)]).sent, k) == LogOf(Run(steps).sent, k) + LeavingTells(steps, who, k)
    ensures HoldsNothing(steps, ws) ==> Run(steps + [Close(ws)]).sent == Run(steps).sent
  {
    RunNext(steps, Close(ws));
    TablesStayExact(steps);
    HistoryTells(steps);
    NothingHeld(steps, ws);
    var t := Run(steps);
    if Holder(steps, who) == Some(ws) {
      assert IdentityTold(steps, t, who) && ConnectionOk(t, who);
      SocketsTold(steps, who, k);
      SendAllLog(t.sent, Sockets(t.connections - {who}), Presence(who, false), k);
    }
  }

  lemma ReplacedLog(steps: seq<Step>, t: Tables, who: Id, k: Socket)
    requires t == Run(steps).(pending := t.pending)
    ensures var t1 := Replaced(t, who);
            && LogOf(t1.sent, k) ==
               LogOf(t.sent, k) + (if Holder(steps, who) == Some(k) then [ErrorText("Replaced by new connection")] else []) + LeavingTells(steps, who, k)
            && t1.connections == t.connections - {who}
  {
    HistoryTells(steps);
    assert IdentityTold(steps, Run(steps), who);
    SocketsTold(steps, who, k);
    assert LogOf(t.sent, k) + [] + [] == LogOf(t.sent, k);
    if who in t.connections {
      var ws := t.connections[who].ws;
      var sent := Send(t.sent, ws, ErrorText("Replaced by new connection"));
      SendLog(t.sent, ws, ErrorText("Replaced by new connection"), k);
      SendAllLog(sent, Sockets(t.connections - {who}), Presence(who, false), k);
    }
  }

  lemma GreetedLog(sent: Logs, ws: Socket, first: Sent, second: Sent, k: Socket)
    ensures LogOf(Send(Send(sent, ws, first), ws, second), k) == LogOf(sent, k) + if k == ws then [first, second] else []
  {
    SendLog(sent, ws, first, k);
    SendLog(Send(sent, ws, first), ws, second, k);
  }

  lemma JoinedLog(t: Tables, ws: Socket, claim: Claim, k: Socket)
    requires claim.identity !in t.connections
    ensures var t1 := Join(t, ws, claim);
            LogOf(t1.sent, k) ==
            LogOf(t.sent, k) + (if k == ws then [Authenticated(claim.identity), Snapshot(t.connections.Keys + {claim.identity})] else [])
            + if k == ws || k in Sockets(t.connections) then [Presence(claim.identity, true)] else []
  {
    var entry := Entry(ws, claim.device, {});
    var connections := t.connections[claim.identity := entry];
    var first, second := Authenticated(claim.identity), Snapshot(t.connections.Keys + {claim.identity});
    assert connections.Keys == t.connections.Keys + {claim.identity};
    GreetedLog(t.sent, ws, first, second, k);
    SendAllLog(Send(Send(t.sent, ws, first), ws, second), Sockets(connections), Presence(claim.identity, true), k);
    JoinedSockets(t.connections, claim.identity, entry, k);
  }

  lemma JoinedSockets(connections: map<Id, Entry>, who: Id, entry: Entry, k: Socket)
    requires who !in connections
    ensures k in Sockets(connections[who := entry]) <==> k == entry.ws || k in Sockets(connections)
  {
    var more := connections[who := entry];
    if k in Sockets(connections) {
      var i :| i in connections && connections[i].ws == k;
      assert i in more && more[i].ws == k;
    }
    assert who in more && more[who].ws == entry.ws;
  }

  /** A verified answer: the old holder of the identity is told that it was replaced and everybody else that the identity
      went; the new one is told who it is and who is connected, itself included, and then it and everybody else
      that the identity is there. */
  lemma AuthTells(steps: seq<Step>, ws: Socket, claim: Claim, k: Socket)
    requires StatusOf(steps, ws) == Claiming(claim)
    ensures var who := claim.identity; var before := Run(steps);
            && LogOf(Run(steps + [Receive(ws, Auth(true))]).sent, k) ==
               LogOf(before.sent, k)
               + (if Holder(steps, who) == Some(k) then [ErrorText("Replaced by new connection")] else []) + LeavingTells(steps, who, k)
               + (if k == ws then [Authenticated(who), Snapshot(before.connections.Keys + {who})] else [])
               + (if k == ws || HoldsOther(steps, who, k) then [Presence(who, true)] else [])
            && (forall j :: j in before.connections <==> Holder(steps, j).Some?)
  {
    RunNext(steps, Receive(ws, Auth(true)));
    HistoryTells(steps);
    var before, who := Run(steps), claim.identity;
    assert SocketTold(steps, before, ws);
    forall j ensures j in before.connections <==> Holder(steps, j).Some? {
      assert IdentityTold(steps, before, j);
    }
    var t := before.(pending := before.pending - {ws});
    ReplacedLog(steps, t, who, k);
    var t1 := Replaced(t, who);
    JoinedLog(t1, ws, claim, k);
    SocketsTold(steps, who, k);
    assert t1.connections.Keys + {who} == before.connections.Keys + {who};
  }

  /** On a connected socket, besides direct and published messages: what is not understood is told so, and joining or
      leaving a room is silent. */
  lemma ServedTells(steps: seq<Step>, ws: Socket, who: Id, m: Received)
    requires Holder(steps, who) == Some(ws) && !m.Direct? && !m.Publish?
    ensures TellsOnly(steps, Receive(ws, m), ws, if m.Invalid? then [ErrorText("invalid JSON")] else [])
  {
    RunNext(steps, Receive(ws, m));
    HistoryTells(steps);
    var t := Run(steps);
    TablesStayExact(steps);
    assert SocketTold(steps, t, ws) && SocketOk(t, ws) && IdentityTold(steps, t, who) && ConnectionOk(t, who);
    assert ws in t.identities && t.identities[ws] == who && ws !in t.pending && ws in t.sent;
    forall k: Socket ensures LogOf(t.sent, k) + [] == LogOf(t.sent, k) {
    }
    forall k: Socket ensures LogOf(Send(t.sent, ws, ErrorText("invalid JSON")), k) == LogOf(t.sent, k) + if k == ws then [ErrorText("invalid JSON")] else [] {
      SendLog(t.sent, ws, ErrorText("invalid JSON"), k);
    }
  }
}
