/**
 What becomes of a message that was sent, in every run of the network: exactly when the recipient's handler takes it,
 what it then stores, and exactly when one round of transmission, handling and receipt settles it on both devices
 (packages/client/src/dm.ts, packages/client/src/queue-manager.ts).
 */
module Delivery {
  import opened Basics
  import opened Symbolic
  import opened DoubleRatchet
  import opened RatchetRuns
  import opened X3dh
  import opened PersistentClient
  import opened DirectMessages
  import opened ClientEffects
  import opened DmPipeline
  import opened Network
  import opened DmTheorems

  // ---- The handler ----

  /** The recipient's session once the history has this message delivered. */
  function NextSession(c: Config, w: World, kept: Rows, role: Role, env: Envelope, responderKey: KeyId, turnKey: KeyId): Ratchet {
    St(DeliverStep(Rekeyed(w, kept, role, env.sender, responderKey), role, env.body.frame, AadFor(env.sender, IdOf(c, role)), turnKey), role)
  }

  /** The prekeys without the one-time key that a first message names, if it opens a session and names one. */
  function SpentBy(rows: Rows, env: Envelope): Option<LocalPrekeys> {
    if HasSession(rows, env.sender) || env.body.Later? || !HasPrekeys(rows) || env.body.otpId == 0 then None
    else Some(rows[Prekeys].prekeys.(oneTime := rows[Prekeys].prekeys.oneTime - {env.body.otpId}))
  }

  lemma StageSpends(rows: Rows, env: Envelope, responderKey: KeyId)
    requires Stage(rows, env, responderKey).Staged?
    ensures Stage(rows, env, responderKey).spent == SpentBy(rows, env)
  {
  }

  /** Exactly what it takes: the guard of decryption, and room for session, spent key and message. */
  ghost predicate Takes(c: Config, w: World, kept: Rows, o: Outgoing, id: MsgId, responderKey: KeyId, turnKey: KeyId, now: int) {
    && o.envelope.body.frame.Frame? && Welcome(kept, o.envelope)
    && RoomForMessage(HostOf(c, Peer(o.role)), kept, NextSession(c, w, kept, Peer(o.role), o.envelope, responderKey, turnKey),
                      SpentBy(kept, o.envelope), InboxMsg(id, o.envelope.sender, o.payload, now, false))
  }

  /** The rows after it was taken. */
  function Taken(c: Config, w: World, kept: Rows, o: Outgoing, id: MsgId, responderKey: KeyId, turnKey: KeyId, now: int): Rows {
    WithMessage(kept, NextSession(c, w, kept, Peer(o.role), o.envelope, responderKey, turnKey), SpentBy(kept, o.envelope),
                InboxMsg(id, o.envelope.sender, o.payload, now, false))
  }

  lemma OpensTo(c: Config, p: Pipe, o: Outgoing, id: MsgId, responderKey: KeyId, turnKey: KeyId)
    requires Sound(c) && Sessions(c, p) && p.world.Some? && FreshKeys(p, responderKey, turnKey)
    requires id in p.sent && o == p.sent[id] && EnvelopeOk(c, p.world.value, o, id)
    requires Opens(RowsOf(p, Peer(o.role)), IdOf(c, Peer(o.role)), o.envelope, responderKey, turnKey)
    ensures var role := Peer(o.role); var rows := RowsOf(p, role); var staged := Stage(rows, o.envelope, responderKey);
            && staged.Staged? && staged.spent == SpentBy(rows, o.envelope)
            && Open(staged.st, staged.frame, AadFor(o.envelope.sender, IdOf(c, role)), turnKey) ==
               OpenOutcome(NextSession(c, p.world.value, rows, role, o.envelope, responderKey, turnKey), Ok(o.payload))
  {
    DeliveredHistory(c, p, Peer(o.role), o.envelope, responderKey, turnKey);
    StageSpends(RowsOf(p, Peer(o.role)), o.envelope, responderKey);
  }

  /** The staged receive of a message that is not in the inbox yet. `p` is the state after retention. */
  lemma ReceiveIff(c: Config, p: Pipe, o: Outgoing, id: MsgId, responderKey: KeyId, turnKey: KeyId, now: int)
    requires Sound(c) && Sessions(c, p) && p.world.Some? && ChainFits(p.world.value, o.slot) && FreshKeys(p, responderKey, turnKey)
    requires id in p.sent && o == p.sent[id] && EnvelopeOk(c, p.world.value, o, id) && o.slot !in p.world.value.taken
    requires Inbox(id) !in RowsOf(p, Peer(o.role))
    ensures var role := Peer(o.role); var rows := RowsOf(p, role);
            var out := ReceiveDm(HostOf(c, role), IdOf(c, role), rows, o.envelope, responderKey, turnKey, now);
            if Takes(c, p.world.value, rows, o, id, responderKey, turnKey, now)
            then out == Stored(Taken(c, p.world.value, rows, o, id, responderKey, turnKey, now), o.payload)
            else out.Dropped? || out.Refused?
  {
    var role := Peer(o.role);
    var rows := RowsOf(p, role);
    DeliverableAt(c, p, o, id, responderKey, turnKey);
    if Opens(rows, IdOf(c, role), o.envelope, responderKey, turnKey) {
      OpensTo(c, p, o, id, responderKey, turnKey);
      ReceiveCommitsIff(HostOf(c, role), rows, NextSession(c, p.world.value, rows, role, o.envelope, responderKey, turnKey),
                        SpentBy(rows, o.envelope), InboxMsg(id, o.envelope.sender, o.payload, now, false));
    }
  }

  /** The same for the state before retention, and for the whole handler. */
  lemma HandlerAt(c: Config, p: Pipe, id: MsgId, responderKey: KeyId, turnKey: KeyId, now: int)
    requires Sound(c) && PipeInv(c, p) && FreshKeys(p, responderKey, turnKey) && id in p.sent && !Arrived(p, id)
    requires p.world.Some? ==> ChainFits(p.world.value, p.sent[id].slot)
    ensures var o := p.sent[id]; var role := Peer(o.role); var rows := RowsOf(p, role); var h := HostOf(c, role);
            var kept := Retain(h, rows, now);
            var out := ReceiveDm(h, IdOf(c, role), kept, o.envelope, responderKey, turnKey, now);
            && p.world.Some? && o.envelope.id == id && Inbox(id) !in kept
            && if Takes(c, p.world.value, kept, o, id, responderKey, turnKey, now)
               then out == Stored(Taken(c, p.world.value, kept, o, id, responderKey, turnKey, now), o.payload)
               else out.Dropped? || out.Refused?
  {
    assert IdOk(c, p, id);
    var o := p.sent[id];
    var role := Peer(o.role);
    var kept := Retain(HostOf(c, role), RowsOf(p, role), now);
    RetainKeeps(c, p, role, now);
    RetainKeepsKeys(HostOf(c, role), RowsOf(p, role), now);
    ReceiveIff(c, WithRows(p, role, kept), o, id, responderKey, turnKey, now);
  }

  /** Exactly when the handler takes a message, in every run: a message sent and not yet in the recipient's inbox is there
      after the handler ran if and only if, on the rows left by retention, it is within the skip limit of the
      installed session, or without one is a first message whose one-time key is unspent; and the inbox is below its
      limits and session, spent key and message find room. The inbox then holds the payload that was sent, next
      to the session of the history and the prekeys without the key. Otherwise retention is all that happened. */
  lemma HandlerTakesIff(d: Directory, moves: seq<Move>, q: Pair, id: MsgId, responderKey: KeyId, turnKey: KeyId, now: int)
    requires Honest(d) && Openable(After(d, moves), q)
    requires var p := PipeOf(d, After(d, moves), q);
             && id in p.sent && !Arrived(p, id) && FreshKeys(p, responderKey, turnKey)
             && (p.world.Some? ==> ChainFits(p.world.value, p.sent[id].slot))
    ensures var p, c := PipeOf(d, After(d, moves), q), ConfigOf(d, q);
            var o := p.sent[id]; var role := Peer(o.role); var h := HostOf(c, role);
            var kept := Retain(h, RowsOf(p, role), now);
            var after := HandleDm(h, IdOf(c, role), RowsOf(p, role), o.envelope, responderKey, turnKey, now);
            && p.world.Some?
            && (Inbox(id) in after <==> Takes(c, p.world.value, kept, o, id, responderKey, turnKey, now))
            && (Inbox(id) in after ==> after[Inbox(id)] == InboxV(InboxMsg(id, o.envelope.sender, o.payload, now, false)))
            && after == if Inbox(id) in after then Taken(c, p.world.value, kept, o, id, responderKey, turnKey, now) else kept
  {
    AfterPair(d, moves, q);
    HandlerAt(ConfigOf(d, q), PipeOf(d, After(d, moves), q), id, responderKey, turnKey, now);
  }

  // ---- Sending ----

  lemma SideCanSeal(w: World, role: Role)
    requires Inv(w) && (role.Initiator? || w.b.dhr.Some?)
    ensures CanSeal(St(w, role))
  {
    assert SideOf(w, role);
  }

  /** In every run, the device that opens the conversation can always seal for its peer, and the other one exactly once
      it has a session: no stored session ever lacks a chain to send on. */
  lemma CanPrepareIff(d: Directory, moves: seq<Move>, q: Pair, role: Role)
    requires Honest(d) && Openable(After(d, moves), q)
    ensures var p, c := PipeOf(d, After(d, moves), q), ConfigOf(d, q);
            var rows, peer := RowsOf(p, role), IdOf(c, Peer(role));
            Sound(c) && (CanPrepare(rows, peer, BundleFor(c, role)) <==> role.Initiator? || HasSession(rows, peer))
  {
    AfterPair(d, moves, q);
    var p, c := PipeOf(d, After(d, moves), q), ConfigOf(d, q);
    if p.world.Some? && HasSession(RowsOf(p, role), IdOf(c, Peer(role))) {
      SideCanSeal(p.world.value, role);
    }
  }

  // ---- One round ----

  function ReceiptFor(c: Config, o: Outgoing, id: MsgId): DeliveryReceipt {
    DeliveryReceipt(id, IdOf(c, Peer(o.role)), IdOf(c, o.role))
  }

  /** A message not in the inbox is still queued as it was sent, so it can be transmitted. */
  lemma TransmitAt(c: Config, p: Pipe, id: MsgId, now: int)
    requires PipeInv(c, p) && id in p.sent && !Arrived(p, id)
    ensures var o := p.sent[id];
            && PendingRow(RowsOf(p, o.role), Queue(id)) && RowsOf(p, o.role)[Queue(id)].item.recipient == IdOf(c, Peer(o.role))
            && TransmitStep(c, p, o.role, id, now, false) == p.(wire := p.wire + {o.envelope})
            && ReceiptFor(c, o, id) !in p.receipts
  {
    assert IdOk(c, p, id);
    var o := p.sent[id];
    assert WithRows(p, o.role, RowsOf(p, o.role)) == p;
  }

  lemma ReceiveAt(c: Config, p: Pipe, id: MsgId, responderKey: KeyId, turnKey: KeyId, now: int)
    requires Sound(c) && PipeInv(c, p) && FreshKeys(p, responderKey, turnKey) && id in p.sent && !Arrived(p, id)
    requires p.world.Some? ==> ChainFits(p.world.value, p.sent[id].slot)
    requires p.sent[id].envelope in p.wire && ReceiptFor(c, p.sent[id], id) !in p.receipts
    ensures var o := p.sent[id]; var role := Peer(o.role);
            var kept := Retain(HostOf(c, role), RowsOf(p, role), now);
            var p' := ReceiveStep(c, p, role, o.envelope, responderKey, turnKey, now);
            && p.world.Some? && p'.sent == p.sent && RowsOf(p', o.role) == RowsOf(p, o.role)
            && (ReceiptFor(c, o, id) in p'.receipts <==> Takes(c, p.world.value, kept, o, id, responderKey, turnKey, now))
            && RowsOf(p', role) == (if Takes(c, p.world.value, kept, o, id, responderKey, turnKey, now)
                                    then Taken(c, p.world.value, kept, o, id, responderKey, turnKey, now) else kept)
            && (Arrived(p', id) <==> Takes(c, p.world.value, kept, o, id, responderKey, turnKey, now))
  {
    var o := p.sent[id];
    HandlerAt(c, p, id, responderKey, turnKey, now);
    assert IdOk(c, p, id);
    ReceiveStepForm(c, p, Peer(o.role), o.envelope, responderKey, turnKey, now);
  }

  lemma ReceiptAt(c: Config, p: Pipe, id: MsgId, now: int)
    requires id in p.sent
    requires var o := p.sent[id]; PendingRow(RowsOf(p, o.role), Queue(id)) && RowsOf(p, o.role)[Queue(id)].item.recipient == IdOf(c, Peer(o.role))
    ensures var o := p.sent[id]; var rows := RowsOf(p, o.role);
            var p' := ReceiptStep(c, p, o.role, ReceiptFor(c, o, id), now);
            && p'.sent == p.sent && RowsOf(p', Peer(o.role)) == RowsOf(p, Peer(o.role))
            && Queue(id) in RowsOf(p', o.role) && RowsOf(p', o.role)[Queue(id)].ItemV?
            && (RowsOf(p', o.role)[Queue(id)].item.delivered <==> ReceiptFor(c, o, id) in p.receipts && RoomForProof(HostOf(c, o.role), rows, id, now))
  {
    var o := p.sent[id];
    DeliveredIff(HostOf(c, o.role), RowsOf(p, o.role), IdOf(c, o.role), ReceiptFor(c, o, id), now);
  }

  /** Transmission, handling and receipt, one after the other. */
  ghost function Round(c: Config, p: Pipe, id: MsgId, responderKey: KeyId, turnKey: KeyId, now: int, later: int): Pipe
    requires id in p.sent
  {
    var o := p.sent[id];
    var p1 := TransmitStep(c, p, o.role, id, now, false);
    var p2 := ReceiveStep(c, p1, Peer(o.role), o.envelope, responderKey, turnKey, now);
    ReceiptStep(c, p2, o.role, ReceiptFor(c, o, id), later)
  }

  lemma RoundAt(c: Config, p: Pipe, id: MsgId, responderKey: KeyId, turnKey: KeyId, now: int, later: int)
    requires Sound(c) && PipeInv(c, p) && FreshKeys(p, responderKey, turnKey) && id in p.sent && !Arrived(p, id)
    requires p.world.Some? ==> ChainFits(p.world.value, p.sent[id].slot)
    ensures p.world.Some?
    ensures var o := p.sent[id]; var role := Peer(o.role);
            var takes := Takes(c, p.world.value, Retain(HostOf(c, role), RowsOf(p, role), now), o, id, responderKey, turnKey, now);
            var p' := Round(c, p, id, responderKey, turnKey, now, later);
            && id in p'.sent && p'.sent[id] == o && (Arrived(p', id) <==> takes)
            && (takes ==> RowsOf(p', role) == Taken(c, p.world.value, Retain(HostOf(c, role), RowsOf(p, role), now), o, id, responderKey, turnKey, now))
            && PendingRow(RowsOf(p, o.role), Queue(id))
            && (PendingRow(RowsOf(p', o.role), Queue(id)) <==> !(takes && RoomForProof(HostOf(c, o.role), RowsOf(p, o.role), id, later)))
  {
    var o := p.sent[id];
    TransmitAt(c, p, id, now);
    var p1 := TransmitStep(c, p, o.role, id, now, false);
    TransmitSessions(c, p, o.role, id, now, false);
    TransmitBooks(c, p, o.role, id, now, false);
    ReceiveAt(c, p1, id, responderKey, turnKey, now);
    var p2 := ReceiveStep(c, p1, Peer(o.role), o.envelope, responderKey, turnKey, now);
    ReceiptAt(c, p2, id, later);
  }

  /** The three moves of a round, by the two devices of the conversation. */
  function RoundMoves(d: Directory, q: Pair, o: Outgoing, id: MsgId, responderKey: KeyId, turnKey: KeyId, now: int, later: int): seq<Move> {
    [Move(q, Transmit(o.role, id, now, false)), Move(q, ReceiveMsg(Peer(o.role), o.envelope, responderKey, turnKey, now)),
     Move(q, ReceiptIn(o.role, ReceiptFor(ConfigOf(d, q), o, id), later))]
  }

  lemma RunThree(d: Directory, n: Net, moves: seq<Move>, m1: Move, m2: Move, m3: Move)
    requires Honest(d) && n == After(d, moves)
    ensures After(d, moves + [m1, m2, m3]) ==
            var n1 := NetNext(d, n, m1.pair, m1.step); var n2 := NetNext(d, n1, m2.pair, m2.step); NetNext(d, n2, m3.pair, m3.step)
  {
    RunSnoc(d, Begin(), moves, m1);
    RunSnoc(d, Begin(), moves + [m1], m2);
    RunSnoc(d, Begin(), moves + [m1] + [m2], m3);
    assert moves + [m1, m2, m3] == moves + [m1] + [m2] + [m3];
  }

  lemma DrawnFresh(d: Directory, n: Net, q: Pair, responderKey: KeyId, turnKey: KeyId)
    requires AllKeysOk(d, n) && FreshDraws(d, n, {responderKey, turnKey}) && responderKey != turnKey
    ensures FreshKeys(PipeOf(d, n, q), responderKey, turnKey)
  {
    assert KeysOk(d, n, q);
    var t := ThreadAt(n, q);
    if t.world.Some? {
      forall k | k in {responderKey, turnKey} ensures Unused(t.world.value, k) {
        assert k !in KeySet(t.world.value);
      }
    }
  }

  lemma TwoSteps(d: Directory, n: Net, q: Pair, s1: DmPipeline.Step, s2: DmPipeline.Step)
    requires Honest(d) && NetOk(d, n) && Openable(n, q) && s1.Transmit? && FreshDraws(d, n, Draws(PipeOf(d, n, q), s2)) && s2.ReceiveMsg?
    ensures Sound(ConfigOf(d, q))
    ensures var c := ConfigOf(d, q); var n2 := NetNext(d, NetNext(d, n, q, s1), q, s2);
            NetOk(d, n2) && Openable(n2, q) && PipeOf(d, n2, q) == Next(c, Next(c, PipeOf(d, n, q), s1), s2)
  {
    OwnStep(d, n, q, s1);
    OwnStep(d, NetNext(d, n, q, s1), q, s2);
  }

  lemma RoundRuns(d: Directory, n: Net, q: Pair, o: Outgoing, id: MsgId, responderKey: KeyId, turnKey: KeyId, now: int, later: int)
    requires Honest(d) && NetOk(d, n) && Openable(n, q) && FreshDraws(d, n, {responderKey, turnKey})
    requires id in ThreadAt(n, q).sent && o == ThreadAt(n, q).sent[id]
    ensures var ms := RoundMoves(d, q, o, id, responderKey, turnKey, now, later);
            var n3 := NetNext(d, NetNext(d, NetNext(d, n, q, ms[0].step), q, ms[1].step), q, ms[2].step);
            PipeOf(d, n3, q) == Round(ConfigOf(d, q), PipeOf(d, n, q), id, responderKey, turnKey, now, later)
  {
    var ms := RoundMoves(d, q, o, id, responderKey, turnKey, now, later);
    TwoSteps(d, n, q, ms[0].step, ms[1].step);
    OwnStep(d, NetNext(d, NetNext(d, n, q, ms[0].step), q, ms[1].step), q, ms[2].step);
  }

  /** One round settles a message, exactly: from any reachable state, transmit a message that has not arrived, hand it to
      the recipient and return the receipt. It has arrived if and only if the recipient takes it, and its retries are
      over if and only if moreover the sender finds room for the proof; else it is still queued. */
  lemma RoundSettlesIff(d: Directory, moves: seq<Move>, q: Pair, id: MsgId, responderKey: KeyId, turnKey: KeyId, now: int, later: int)
    requires Honest(d) && Openable(After(d, moves), q)
    requires FreshDraws(d, After(d, moves), {responderKey, turnKey}) && responderKey != turnKey
    requires var p := PipeOf(d, After(d, moves), q);
             id in p.sent && !Arrived(p, id) && (p.world.Some? ==> ChainFits(p.world.value, p.sent[id].slot))
    ensures var p, c := PipeOf(d, After(d, moves), q), ConfigOf(d, q);
            var o := p.sent[id]; var role := Peer(o.role);
            var kept := Retain(HostOf(c, role), RowsOf(p, role), now);
            var p' := PipeOf(d, After(d, moves + RoundMoves(d, q, o, id, responderKey, turnKey, now, later)), q);
            && p.world.Some? && id in p'.sent
            && (Arrived(p', id) <==> Takes(c, p.world.value, kept, o, id, responderKey, turnKey, now))
            && (PendingRow(RowsOf(p', o.role), Queue(id)) <==>
                !(Arrived(p', id) && RoomForProof(HostOf(c, o.role), RowsOf(p, o.role), id, later)))
  {
    AfterOk(d, moves);
    AfterPair(d, moves, q);
    var n := After(d, moves);
    var p, c := PipeOf(d, n, q), ConfigOf(d, q);
    DrawnFresh(d, n, q, responderKey, turnKey);
    RoundAt(c, p, id, responderKey, turnKey, now, later);
    RoundRuns(d, n, q, p.sent[id], id, responderKey, turnKey, now, later);
    var ms := RoundMoves(d, q, p.sent[id], id, responderKey, turnKey, now, later);
    RunThree(d, n, moves, ms[0], ms[1], ms[2]);
  }
}
