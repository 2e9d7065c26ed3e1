/**
 One conversation between two honest persistent peers over a network that loses, duplicates and
 reorders, with crashes anywhere: sending, retrying, receiving, acknowledging and compacting
 (packages/client/src/dm.ts, packages/client/src/persistent-client.ts,
 packages/client/src/queue-manager.ts). The devices may be talking to others at the same time: `others`
 holds the ids of those messages, and one-time prekeys may be spent by them. The module Network runs
 any number of conversations over shared devices.

 The initiator opens the session. Everything a device remembers is in its rows, so a crash
 between steps changes nothing, and a crash inside a step is a transaction that keeps nothing.
 `world`, `sent`, `ids`, `arrivals` and `others` are history: no device reads them.
 */
module DmPipeline {
  import opened Basics
  import opened Symbolic
  import opened DoubleRatchet
  import opened RatchetRuns
  import opened RatchetTheorems
  import opened X3dh
  import opened PersistentClient
  import opened DirectMessages

  datatype Config = Config(
    hostA: Host, hostB: Host, a: Identity, b: Identity,
    keysA: LocalPrekeys, keysB: LocalPrekeys, signer: KeyId, offered: Option<nat>)

  /** Distinct identities, and a bundle the responder really exported. */
  predicate Sound(c: Config) {
    && c.a != c.b
    && c.keysB.signature == Signature(c.signer, c.keysB.signedPrekey)
    && (c.offered.Some? ==> c.offered.value in c.keysB.oneTime && 0 < c.offered.value < U32)
  }

  function IdOf(c: Config, role: Role): Identity {
    if role.Initiator? then c.a else c.b
  }

  function HostOf(c: Config, role: Role): Host {
    if role.Initiator? then c.hostA else c.hostB
  }

  function BundleFor(c: Config, role: Role): Option<Bundle>
    requires Sound(c)
  {
    if role.Initiator? then Some(ExportBundle(c.keysB, c.signer, c.offered)) else None
  }

  datatype Outgoing = Outgoing(role: Role, slot: Slot, envelope: Envelope, payload: Payload)

  datatype Pipe = Pipe(
    rowsA: Rows,
    rowsB: Rows,
    wire: set<Envelope>,
    receipts: set<DeliveryReceipt>,
    world: Option<World>,
    sent: map<MsgId, Outgoing>,
    ids: map<Slot, MsgId>,
    arrivals: seq<MsgId>,
    others: set<MsgId>)

  function RowsOf(p: Pipe, role: Role): Rows {
    if role.Initiator? then p.rowsA else p.rowsB
  }

  function WithRows(p: Pipe, role: Role, rows: Rows): Pipe {
    if role.Initiator? then p.(rowsA := rows) else p.(rowsB := rows)
  }

  function Start(c: Config): Pipe {
    Pipe(map[Prekeys := PrekeysV(c.keysA)], map[Prekeys := PrekeysV(c.keysB)], {}, {}, None, map[], map[], [], {})
  }

  // ---- Steps ----

  datatype Step =
    | SendMsg(role: Role, payload: Payload, draw: Draw, spare: KeyId, meta: Option<seq<(string, nat)>>)
    | Transmit(role: Role, id: MsgId, now: int, counted: bool)
    | ReceiveMsg(role: Role, env: Envelope, responderKey: KeyId, turnKey: KeyId, now: int)
    | ReceiptIn(role: Role, receipt: DeliveryReceipt, now: int)
    | Retention(role: Role, now: int)

  /** The session history a send continues, or begins. */
  function WorldFor(c: Config, p: Pipe, draw: Draw, spare: KeyId): World
    requires Sound(c)
  {
    if p.world.Some? then p.world.value
    else InitWorld(Initiate(c.keysA.identityDh, ExportBundle(c.keysB, c.signer, c.offered), draw.ephemeral).sk, draw.ratchetKey, spare)
  }

  /** The envelope is committed, not transmitted. Message ids are fresh; only the initiator opens the session. */
  ghost function SendStep(c: Config, p: Pipe, role: Role, payload: Payload, draw: Draw, spare: KeyId,
                          meta: Option<seq<(string, nat)>>): Pipe
    requires Sound(c)
  {
    var self, peer := IdOf(c, role), IdOf(c, Peer(role));
    var out := SendDm(HostOf(c, role), self, RowsOf(p, role), peer, payload, BundleFor(c, role), draw, meta);
    if out.SendFailed? || draw.id in p.sent || draw.id in p.others || (p.world.None? && draw.ratchetKey == spare) then p
    else
      var w := WorldFor(c, p, draw, spare);
      var slot := NextSlot(w, role);
      WithRows(p, role, out.rows).(
        world := Some(SealStep(w, role, payload, AadFor(self, peer), draw.nonce)),
        sent := p.sent[draw.id := Outgoing(role, slot, out.envelope, payload)],
        ids := p.ids[slot := draw.id])
  }

  /** One attempt of the queue: whatever is still pending may go out, any number of times. A crash between
      the write to the socket and the counting leaves the row uncounted. */
  ghost function TransmitStep(c: Config, p: Pipe, role: Role, id: MsgId, now: int, counted: bool): Pipe {
    var rows := RowsOf(p, role);
    if id !in p.sent || !PendingRow(rows, Queue(id)) || rows[Queue(id)].item.envelope.None? then p
    else
      var after := MarkAttempt(HostOf(c, role), rows, id, now);
      WithRows(p, role, if counted && after.Some? then after.value else rows).(wire := p.wire + {rows[Queue(id)].item.envelope.value})
  }

  predicate FreshKeys(p: Pipe, responderKey: KeyId, turnKey: KeyId) {
    p.world.Some? ==> Unused(p.world.value, responderKey) && Unused(p.world.value, turnKey) && responderKey != turnKey
  }

  /** The history with the responder's first key as it was drawn for this receive. */
  function Rekeyed(w: World, rows: Rows, role: Role, sender: Identity, responderKey: KeyId): World {
    if role.Responder? && !HasSession(rows, sender) then w.(b := InitResponder(w.sk, responderKey)) else w
  }

  ghost function ReceiveStep(c: Config, p: Pipe, role: Role, env: Envelope, responderKey: KeyId, turnKey: KeyId, now: int): Pipe {
    var self := IdOf(c, role);
    var kept := Retain(HostOf(c, role), RowsOf(p, role), now);
    if env !in p.wire || env.recipient != self || !FreshKeys(p, responderKey, turnKey) then p
    else
      var ack := DeliveryReceipt(env.id, self, env.sender);
      match ReceiveDm(HostOf(c, role), self, kept, env, responderKey, turnKey, now)
      case Dropped => WithRows(p, role, kept)
      case Refused => WithRows(p, role, kept)
      case Acknowledged => WithRows(p, role, kept).(receipts := p.receipts + {ack})
      case Stored(rows, _) =>
        WithRows(p, role, rows).(
          receipts := p.receipts + {ack},
          arrivals := p.arrivals + [env.id],
          world := if p.world.None? then None else
                   Some(DeliverStep(Rekeyed(p.world.value, kept, role, env.sender, responderKey), role, env.body.frame,
                                    AadFor(env.sender, self), turnKey)))
  }

  /** A receipt is acted on while its item is pending. */
  ghost function ReceiptStep(c: Config, p: Pipe, role: Role, receipt: DeliveryReceipt, now: int): Pipe {
    var rows := RowsOf(p, role);
    if receipt !in p.receipts || receipt.sender != IdOf(c, role) || !PendingRow(rows, Queue(receipt.id)) then p
    else
      var after := MarkDelivered(HostOf(c, role), rows, IdOf(c, role), receipt, now);
      if after.None? then p else WithRows(p, role, after.value)
  }

  ghost function Next(c: Config, p: Pipe, step: Step): Pipe
    requires Sound(c)
  {
    match step
    case SendMsg(role, payload, draw, spare, meta) => SendStep(c, p, role, payload, draw, spare, meta)
    case Transmit(role, id, now, counted) => TransmitStep(c, p, role, id, now, counted)
    case ReceiveMsg(role, env, responderKey, turnKey, now) => ReceiveStep(c, p, role, env, responderKey, turnKey, now)
    case ReceiptIn(role, receipt, now) => ReceiptStep(c, p, role, receipt, now)
    case Retention(role, now) => WithRows(p, role, Retain(HostOf(c, role), RowsOf(p, role), now))
  }

  // ---- Invariant ----

  /** Prekey material some of whose one-time keys may have been spent since. */
  predicate Shrunk(later: LocalPrekeys, keys: LocalPrekeys) {
    && later.identityDh == keys.identityDh && later.signedPrekey == keys.signedPrekey && later.signature == keys.signature
    && (forall i :: i in later.oneTime ==> i in keys.oneTime && later.oneTime[i] == keys.oneTime[i])
  }

  predicate KeepsPrekeys(rows: Rows, keys: LocalPrekeys) {
    HasPrekeys(rows) && Shrunk(rows[Prekeys].prekeys, keys)
  }

  /** The stored sessions are the ones of the history; before its first receive the responder has none. */
  ghost predicate Sessions(c: Config, p: Pipe) {
    && KeepsPrekeys(p.rowsA, c.keysA) && KeepsPrekeys(p.rowsB, c.keysB)
    && (p.world.None? ==> Session(c.b) !in p.rowsA && Session(c.a) !in p.rowsB && p.sent == map[] && p.ids == map[])
    && (p.world.Some? ==>
          var w := p.world.value;
          && Inv(w) && Slot(0, 0) in w.log
          && Session(c.b) in p.rowsA && p.rowsA[Session(c.b)] == SessionV(w.a)
          && (if Session(c.a) in p.rowsB then p.rowsB[Session(c.a)] == SessionV(w.b) && w.b.dhr.Some?
              else w.b == InitResponder(w.sk, w.b.dhs)))
  }

  /** What is on the wire for a message that was sent. */
  ghost predicate EnvelopeOk(c: Config, w: World, o: Outgoing, id: MsgId) {
    var self, peer := IdOf(c, o.role), IdOf(c, Peer(o.role));
    && o.envelope.id == id && o.envelope.sender == self && o.envelope.recipient == peer
    && o.envelope.body.frame.Frame?
    && o.slot in w.log && Owns(o.role, o.slot.epoch)
    && w.log[o.slot] == Sent(o.envelope.body.frame.blob, AadFor(self, peer), o.payload)
    && (o.envelope.body.First? <==> o.slot == Slot(0, 0))
    && (o.envelope.body.First? ==>
          && o.envelope.body.otpId == WireId(c.offered)
          && var r := Respond(c.keysB, o.envelope.body.identityDh, o.envelope.body.ephemeral, FromWireId(o.envelope.body.otpId));
          r.Responded? && r.sk == w.sk)
  }

  /** The sender's side of a message: an item that keeps its envelope until delivery is proven. */
  ghost predicate OutboxOk(rows: Rows, peerRows: Rows, peer: Identity, o: Outgoing, id: MsgId) {
    && Queue(id) in rows && rows[Queue(id)].ItemV? && Queue(id) !in peerRows
    && var item := rows[Queue(id)].item;
    && item.id == id && item.recipient == peer
    && (!item.delivered ==> item.envelope == Some(o.envelope))
    && (item.envelope.Some? ==> item.envelope == Some(o.envelope))
    && (item.delivered ==> Inbox(id) in peerRows)
  }

  /** The recipient's side: in the inbox exactly when opened, with the payload that was sent. */
  ghost predicate InboxOk(rows: Rows, peerRows: Rows, self: Identity, w: World, o: Outgoing, id: MsgId) {
    && Inbox(id) !in rows
    && (Inbox(id) in peerRows <==> o.slot in w.taken)
    && (Inbox(id) in peerRows ==>
          && peerRows[Inbox(id)].InboxV? && peerRows[Inbox(id)].msg.id == id && peerRows[Inbox(id)].msg.sender == self
          && (!peerRows[Inbox(id)].msg.expired ==> peerRows[Inbox(id)].msg.payload == o.payload))
  }

  ghost predicate IdOk(c: Config, p: Pipe, id: MsgId) {
    if id !in p.sent then
      id !in p.others ==> Queue(id) !in p.rowsA && Queue(id) !in p.rowsB && Inbox(id) !in p.rowsA && Inbox(id) !in p.rowsB
    else
      && p.world.Some?
      && var o := p.sent[id];
      var rows, peerRows := RowsOf(p, o.role), RowsOf(p, Peer(o.role));
      && EnvelopeOk(c, p.world.value, o, id)
      && OutboxOk(rows, peerRows, IdOf(c, Peer(o.role)), o, id)
      && InboxOk(rows, peerRows, IdOf(c, o.role), p.world.value, o, id)
      && o.slot in p.ids && p.ids[o.slot] == id
  }

  ghost predicate SlotOk(p: Pipe, s: Slot) {
    && (s in p.ids <==> p.world.Some? && s in p.world.value.log)
    && (s in p.ids ==> p.ids[s] in p.sent && p.sent[p.ids[s]].slot == s)
  }

  predicate Arrived(p: Pipe, id: MsgId) {
    id in p.sent && Inbox(id) in RowsOf(p, Peer(p.sent[id].role))
  }

  ghost predicate NetworkOk(c: Config, p: Pipe) {
    && (forall env :: env in p.wire ==> env.id in p.sent && env == p.sent[env.id].envelope)
    && (forall r :: r in p.receipts ==> Arrived(p, r.id) && r.sender == IdOf(c, p.sent[r.id].role))
    && (forall i, j :: 0 <= i < j < |p.arrivals| ==> p.arrivals[i] != p.arrivals[j])
    && (forall id :: id in p.arrivals <==> Arrived(p, id))
  }

  ghost predicate Books(c: Config, p: Pipe) {
    && (forall id :: IdOk(c, p, id))
    && (forall s :: SlotOk(p, s))
    && NetworkOk(c, p)
    && p.sent.Keys !! p.others
  }

  ghost predicate PipeInv(c: Config, p: Pipe) {
    Sessions(c, p) && Books(c, p)
  }

  lemma StartInv(c: Config)
    requires Sound(c)
    ensures PipeInv(c, Start(c))
  {
  }

  // ---- Steps that only touch bookkeeping ----

  /** Keys, sessions and undelivered envelopes stay; bodies that are no longer owed may be emptied. */
  ghost predicate BenignAt(rows: Rows, after: Rows, n: Name) {
    && (!n.Receipt? ==> (n in after <==> n in rows))
    && (n in rows && n in after ==>
          match n
          case Queue(_) =>
            rows[n].ItemV? ==>
              && after[n].ItemV? && after[n].item.id == rows[n].item.id && after[n].item.recipient == rows[n].item.recipient
              && after[n].item.delivered == rows[n].item.delivered
              && (after[n].item.envelope == rows[n].item.envelope || (rows[n].item.delivered && after[n].item.envelope.None?))
          case Inbox(_) =>
            rows[n].InboxV? ==>
              && after[n].InboxV? && after[n].msg.id == rows[n].msg.id && after[n].msg.sender == rows[n].msg.sender
              && (!after[n].msg.expired ==> !rows[n].msg.expired && after[n].msg.payload == rows[n].msg.payload)
          case _ => n.Receipt? || after[n] == rows[n])
  }

  ghost predicate Benign(rows: Rows, after: Rows) {
    forall n :: BenignAt(rows, after, n)
  }

  /** A row is there as before, with the same value. */
  predicate SameAt(rows: Rows, after: Rows, n: Name) {
    (n in after <==> n in rows) && (n in rows ==> after[n] == rows[n])
  }

  lemma SameSessions(c: Config, p: Pipe, role: Role, after: Rows)
    requires Sessions(c, p)
    requires SameAt(RowsOf(p, role), after, Prekeys) && SameAt(RowsOf(p, role), after, Session(c.a)) && SameAt(RowsOf(p, role), after, Session(c.b))
    ensures Sessions(c, WithRows(p, role, after))
  {
  }

  lemma BenignSessions(c: Config, p: Pipe, role: Role, after: Rows)
    requires Sessions(c, p) && Benign(RowsOf(p, role), after)
    ensures Sessions(c, WithRows(p, role, after))
  {
    var rows := RowsOf(p, role);
    assert BenignAt(rows, after, Prekeys) && BenignAt(rows, after, Session(c.a)) && BenignAt(rows, after, Session(c.b));
    SameSessions(c, p, role, after);
  }

  lemma BenignBooks(c: Config, p: Pipe, role: Role, after: Rows)
    requires Books(c, p) && Benign(RowsOf(p, role), after)
    ensures Books(c, WithRows(p, role, after))
  {
    var rows := RowsOf(p, role);
    var p' := WithRows(p, role, after);
    forall id ensures IdOk(c, p', id) {
      assert IdOk(c, p, id) && BenignAt(rows, after, Queue(id)) && BenignAt(rows, after, Inbox(id));
    }
    forall s ensures SlotOk(p', s) {
      assert SlotOk(p, s);
    }
    forall id ensures Arrived(p', id) <==> Arrived(p, id) {
      assert BenignAt(rows, after, Inbox(id));
    }
  }

  lemma RetainBenign(h: Host, rows: Rows, now: int)
    ensures Benign(rows, Retain(h, rows, now))
  {
    forall n ensures BenignAt(rows, Retain(h, rows, now), n) {
    }
  }

  lemma RetainKeeps(c: Config, p: Pipe, role: Role, now: int)
    requires PipeInv(c, p)
    ensures PipeInv(c, WithRows(p, role, Retain(HostOf(c, role), RowsOf(p, role), now)))
  {
    RetainBenign(HostOf(c, role), RowsOf(p, role), now);
    BenignSessions(c, p, role, Retain(HostOf(c, role), RowsOf(p, role), now));
    BenignBooks(c, p, role, Retain(HostOf(c, role), RowsOf(p, role), now));
  }

  lemma MoreOnWire(c: Config, p: Pipe, env: Envelope)
    requires Books(c, p) && env.id in p.sent && env == p.sent[env.id].envelope
    ensures Books(c, p.(wire := p.wire + {env}))
  {
    var p' := p.(wire := p.wire + {env});
    forall id ensures IdOk(c, p', id) && (Arrived(p', id) <==> Arrived(p, id)) {
      assert IdOk(c, p, id);
    }
    forall s ensures SlotOk(p', s) {
      assert SlotOk(p, s);
    }
  }

  lemma TransmitSessions(c: Config, p: Pipe, role: Role, id: MsgId, now: int, counted: bool)
    requires Sessions(c, p)
    ensures Sessions(c, TransmitStep(c, p, role, id, now, counted))
  {
  }

  lemma TransmitBooks(c: Config, p: Pipe, role: Role, id: MsgId, now: int, counted: bool)
    requires Books(c, p)
    ensures Books(c, TransmitStep(c, p, role, id, now, counted))
  {
    var rows := RowsOf(p, role);
    var p' := TransmitStep(c, p, role, id, now, counted);
    if id in p.sent && PendingRow(rows, Queue(id)) && rows[Queue(id)].item.envelope.Some? {
      var after := RowsOf(p', role);
      assert IdOk(c, p, id);
      forall n ensures BenignAt(rows, after, n) {
      }
      BenignBooks(c, p, role, after);
      MoreOnWire(c, WithRows(p, role, after), rows[Queue(id)].item.envelope.value);
    }
  }

  lemma DeliveredBooks(c: Config, p: Pipe, role: Role, id: MsgId, now: int)
    requires Books(c, p) && Arrived(p, id) && p.sent[id].role == role && PendingRow(RowsOf(p, role), Queue(id))
    ensures var rows := RowsOf(p, role);
            Books(c, WithRows(p, role, rows[Receipt(id) := ReceiptV(now)][Queue(id) := ItemV(rows[Queue(id)].item.(delivered := true))]))
  {
    var rows := RowsOf(p, role);
    var p' := WithRows(p, role, rows[Receipt(id) := ReceiptV(now)][Queue(id) := ItemV(rows[Queue(id)].item.(delivered := true))]);
    assert IdOk(c, p, id);
    forall k ensures IdOk(c, p', k) && (Arrived(p', k) <==> Arrived(p, k)) {
      assert IdOk(c, p, k);
    }
    forall s ensures SlotOk(p', s) {
      assert SlotOk(p, s);
    }
  }

  lemma ReceiptSessions(c: Config, p: Pipe, role: Role, receipt: DeliveryReceipt, now: int)
    requires Sessions(c, p)
    ensures Sessions(c, ReceiptStep(c, p, role, receipt, now))
  {
    var after := MarkDelivered(HostOf(c, role), RowsOf(p, role), IdOf(c, role), receipt, now);
    if after.Some? {
      SameSessions(c, p, role, after.value);
    }
  }

  lemma ReceiptBooks(c: Config, p: Pipe, role: Role, receipt: DeliveryReceipt, now: int)
    requires Sound(c) && Books(c, p)
    ensures Books(c, ReceiptStep(c, p, role, receipt, now))
  {
    var id := receipt.id;
    if receipt in p.receipts && receipt.sender == IdOf(c, role) && PendingRow(RowsOf(p, role), Queue(id)) {
      DeliveredBooks(c, p, role, id, now);
    }
  }

  // ---- Sending ----

  /** What a committed send adds to the history, and what it leaves alone. */
  ghost predicate SendFacts(c: Config, p: Pipe, role: Role, payload: Payload, id: MsgId, o: Outgoing, st: Ratchet, w: World, w': World) {
    && id !in p.sent && id !in p.others
    && w'.sk == w.sk && w'.taken == w.taken && o.slot !in w.log
    && (p.world.Some? ==> p.world.value == w) && (p.world.None? ==> w.log == map[] && w.taken == {})
    && o.role == role && o.payload == payload
    && o.envelope.body.frame.Frame? && w'.log == w.log[o.slot := Sent(o.envelope.body.frame.blob, AadFor(IdOf(c, role), IdOf(c, Peer(role))), payload)]
    && EnvelopeOk(c, w', o, id)
    && St(w', role) == st && St(w', Peer(role)) == St(w, Peer(role))
  }

  /** The first message of a session: X3DH, then the initiator's bootstrap chain. */
  lemma FirstSendFacts(c: Config, p: Pipe, payload: Payload, draw: Draw, spare: KeyId)
    requires Sound(c) && Sessions(c, p) && p.world.None? && draw.ratchetKey != spare && draw.id !in p.sent && draw.id !in p.others
    requires Prepare(c.a, p.rowsA, c.b, payload, BundleFor(c, Initiator), draw).Prepared?
    ensures var prep := Prepare(c.a, p.rowsA, c.b, payload, BundleFor(c, Initiator), draw);
            var w := WorldFor(c, p, draw, spare);
            var w' := SealStep(w, Initiator, payload, AadFor(c.a, c.b), draw.nonce);
            && Inv(w')
            && SendFacts(c, p, Initiator, payload, draw.id, Outgoing(Initiator, NextSlot(w, Initiator), prep.envelope, payload), prep.st, w, w')
            && w'.b == InitResponder(w'.sk, w'.b.dhs)
  {
    var w := WorldFor(c, p, draw, spare);
    InitKeeps(w.sk, draw.ratchetKey, spare);
    SealStepFacts(w, Initiator, payload, AadFor(c.a, c.b), draw.nonce);
    X3dhAgreement(c.keysA.identityDh, c.keysB, c.keysB, c.signer, c.offered, draw.ephemeral);
  }

  lemma LaterSendFacts(c: Config, p: Pipe, role: Role, payload: Payload, draw: Draw, spare: KeyId)
    requires Sound(c) && Sessions(c, p) && p.world.Some? && draw.id !in p.sent && draw.id !in p.others
    requires Prepare(IdOf(c, role), RowsOf(p, role), IdOf(c, Peer(role)), payload, BundleFor(c, role), draw).Prepared?
    ensures var self, peer := IdOf(c, role), IdOf(c, Peer(role));
            var prep := Prepare(self, RowsOf(p, role), peer, payload, BundleFor(c, role), draw);
            var w := p.world.value;
            var w' := SealStep(w, role, payload, AadFor(self, peer), draw.nonce);
            Inv(w') && SendFacts(c, p, role, payload, draw.id, Outgoing(role, NextSlot(w, role), prep.envelope, payload), prep.st, w, w')
  {
    SealStepFacts(p.world.value, role, payload, AadFor(IdOf(c, role), IdOf(c, Peer(role))), draw.nonce);
  }

  function AfterSend(p: Pipe, after: Rows, id: MsgId, o: Outgoing, w': World): Pipe {
    WithRows(p, o.role, after).(world := Some(w'), sent := p.sent[id := o], ids := p.ids[o.slot := id])
  }

  lemma SendIdOk(c: Config, p: Pipe, payload: Payload, after: Rows, id: MsgId, o: Outgoing, st: Ratchet, w: World, w': World, k: MsgId)
    requires Sound(c) && SendFacts(c, p, o.role, payload, id, o, st, w, w')
    requires SentChange(RowsOf(p, o.role), after, st, ItemFor(o.envelope))
    requires IdOk(c, p, k) && SlotOk(p, o.slot)
    requires p.world.Some? ==> o.slot !in w.taken
    requires p.world.None? ==> p.sent == map[]
    ensures var p' := AfterSend(p, after, id, o, w'); IdOk(c, p', k) && (Arrived(p', k) <==> Arrived(p, k))
  {
    if k == id {
      SendIdNew(c, p, payload, after, id, o, st, w, w');
    } else {
      SentElsewhere(RowsOf(p, o.role), after, st, ItemFor(o.envelope), k);
      if k in p.sent {
        EnvelopeStays(c, w, w', p.sent[k], k);
      }
      SendIdOld(c, p, after, id, o, w', k);
    }
  }

  lemma SendIdNew(c: Config, p: Pipe, payload: Payload, after: Rows, id: MsgId, o: Outgoing, st: Ratchet, w: World, w': World)
    requires Sound(c) && SendFacts(c, p, o.role, payload, id, o, st, w, w')
    requires SentChange(RowsOf(p, o.role), after, st, ItemFor(o.envelope))
    requires IdOk(c, p, id)
    requires p.world.Some? ==> o.slot !in w.taken
    ensures var p' := AfterSend(p, after, id, o, w'); IdOk(c, p', id) && (Arrived(p', id) <==> Arrived(p, id))
  {
  }

  lemma EnvelopeStays(c: Config, w: World, w': World, o: Outgoing, id: MsgId)
    requires EnvelopeOk(c, w, o, id) && w'.sk == w.sk && o.slot in w'.log && w'.log[o.slot] == w.log[o.slot]
    ensures EnvelopeOk(c, w', o, id)
  {
  }

  /** Nothing a message rests on has changed. */
  ghost predicate Untouched(p: Pipe, p': Pipe, id: MsgId) {
    && SameAt(p.rowsA, p'.rowsA, Queue(id)) && SameAt(p.rowsA, p'.rowsA, Inbox(id))
    && SameAt(p.rowsB, p'.rowsB, Queue(id)) && SameAt(p.rowsB, p'.rowsB, Inbox(id))
    && (id in p'.sent <==> id in p.sent) && p'.others == p.others
    && (id in p.sent ==>
          && p'.sent[id] == p.sent[id] && p.world.Some? && p'.world.Some?
          && (p.sent[id].slot in p'.world.value.taken <==> p.sent[id].slot in p.world.value.taken)
          && (p.sent[id].slot in p.ids ==> p.sent[id].slot in p'.ids && p'.ids[p.sent[id].slot] == p.ids[p.sent[id].slot]))
  }

  lemma UntouchedId(c: Config, p: Pipe, p': Pipe, id: MsgId)
    requires IdOk(c, p, id) && Untouched(p, p', id)
    requires id in p.sent ==> EnvelopeOk(c, p'.world.value, p.sent[id], id)
    ensures IdOk(c, p', id) && (Arrived(p', id) <==> Arrived(p, id))
  {
  }

  lemma SentElsewhere(rows: Rows, after: Rows, st: Ratchet, item: Item, k: MsgId)
    requires SentChange(rows, after, st, item) && k != item.id
    ensures SameAt(rows, after, Queue(k)) && SameAt(rows, after, Inbox(k))
  {
  }

  lemma SendIdOld(c: Config, p: Pipe, after: Rows, id: MsgId, o: Outgoing, w': World, k: MsgId)
    requires IdOk(c, p, k) && k != id && o.slot !in p.ids
    requires SameAt(RowsOf(p, o.role), after, Queue(k)) && SameAt(RowsOf(p, o.role), after, Inbox(k))
    requires k in p.sent ==> p.world.Some? && w'.taken == p.world.value.taken && EnvelopeOk(c, w', p.sent[k], k)
    ensures var p' := AfterSend(p, after, id, o, w'); IdOk(c, p', k) && (Arrived(p', k) <==> Arrived(p, k))
  {
    var p' := AfterSend(p, after, id, o, w');
    assert Untouched(p, p', k);
    UntouchedId(c, p, p', k);
  }

  lemma SendBooks(c: Config, p: Pipe, payload: Payload, after: Rows, id: MsgId, o: Outgoing, st: Ratchet, w: World, w': World)
    requires Sound(c) && Books(c, p) && SendFacts(c, p, o.role, payload, id, o, st, w, w')
    requires SentChange(RowsOf(p, o.role), after, st, ItemFor(o.envelope))
    requires p.world.Some? ==> o.slot !in w.taken
    requires p.world.None? ==> p.sent == map[]
    ensures Books(c, AfterSend(p, after, id, o, w'))
  {
    var p' := AfterSend(p, after, id, o, w');
    assert SlotOk(p, o.slot);
    forall k ensures IdOk(c, p', k) && (Arrived(p', k) <==> Arrived(p, k)) {
      assert IdOk(c, p, k);
      SendIdOk(c, p, payload, after, id, o, st, w, w', k);
    }
    forall s ensures SlotOk(p', s) {
      assert SlotOk(p, s);
      if s in p.ids {
        assert IdOk(c, p, p.ids[s]);
      }
    }
    SendNetwork(c, p, p', id, o);
  }

  lemma SendNetwork(c: Config, p: Pipe, p': Pipe, id: MsgId, o: Outgoing)
    requires NetworkOk(c, p) && id !in p.sent
    requires p'.sent == p.sent[id := o] && p'.wire == p.wire && p'.receipts == p.receipts && p'.arrivals == p.arrivals
    requires forall k :: Arrived(p', k) <==> Arrived(p, k)
    ensures NetworkOk(c, p')
  {
  }

  lemma SendSessions(c: Config, p: Pipe, payload: Payload, after: Rows, id: MsgId, o: Outgoing, st: Ratchet, w: World, w': World)
    requires Sound(c) && Sessions(c, p) && Inv(w') && SendFacts(c, p, o.role, payload, id, o, st, w, w')
    requires SentChange(RowsOf(p, o.role), after, st, ItemFor(o.envelope))
    requires p.world.None? ==> o.role.Initiator? && o.slot == Slot(0, 0) && w'.b == InitResponder(w'.sk, w'.b.dhs)
    requires o.role.Responder? ==> Session(c.a) in p.rowsB && st.dhr.Some?
    ensures Sessions(c, AfterSend(p, after, id, o, w'))
  {
  }

  /** The responder answers only whom it has heard from. */
  lemma AnswersHeard(c: Config, p: Pipe, payload: Payload, draw: Draw)
    requires Sessions(c, p)
    requires Prepare(c.b, p.rowsB, c.a, payload, None, draw).Prepared?
    ensures Session(c.a) in p.rowsB && Prepare(c.b, p.rowsB, c.a, payload, None, draw).st.dhr.Some?
  {
  }

  /** A send that goes through, as a change of the history. */
  lemma SendStepForm(c: Config, p: Pipe, role: Role, payload: Payload, draw: Draw, spare: KeyId, meta: Option<seq<(string, nat)>>)
    requires Sound(c) && SendStep(c, p, role, payload, draw, spare, meta) != p
    ensures var self, peer := IdOf(c, role), IdOf(c, Peer(role)); var rows := RowsOf(p, role);
            var prep := Prepare(self, rows, peer, payload, BundleFor(c, role), draw);
            var w := WorldFor(c, p, draw, spare);
            var p' := SendStep(c, p, role, payload, draw, spare, meta);
            && prep.Prepared? && draw.id !in p.sent && draw.id !in p.others && (p.world.None? ==> draw.ratchetKey != spare)
            && SentChange(rows, RowsOf(p', role), prep.st, ItemFor(prep.envelope))
            && p' == AfterSend(p, RowsOf(p', role), draw.id, Outgoing(role, NextSlot(w, role), prep.envelope, payload),
                               SealStep(w, role, payload, AadFor(self, peer), draw.nonce))
  {
    var self, peer := IdOf(c, role), IdOf(c, Peer(role));
    var prep := Prepare(self, RowsOf(p, role), peer, payload, BundleFor(c, role), draw);
    CommitSendChange(HostOf(c, role), RowsOf(p, role), prep.st, ItemFor(prep.envelope), meta);
  }

  /** A slot not sealed yet has not been opened either. */
  lemma UnsealedUntaken(w: World, s: Slot)
    requires Inv(w) && s !in w.log
    ensures s !in w.taken
  {
    var role := if Owns(Initiator, s.epoch) then Responder else Initiator;
    assert SideOf(w, role);
    assert LedgerAt(St(w, role), role, w.sk, w.keys, w.lens, w.taken, s);
    assert LogAt(w.sk, w.keys, w.lens, w.log, s);
  }

  lemma SendKeeps(c: Config, p: Pipe, role: Role, payload: Payload, draw: Draw, spare: KeyId, meta: Option<seq<(string, nat)>>)
    requires Sound(c) && PipeInv(c, p)
    ensures PipeInv(c, SendStep(c, p, role, payload, draw, spare, meta))
  {
    var p' := SendStep(c, p, role, payload, draw, spare, meta);
    if p' != p {
      SendStepForm(c, p, role, payload, draw, spare, meta);
      var self, peer := IdOf(c, role), IdOf(c, Peer(role));
      var prep := Prepare(self, RowsOf(p, role), peer, payload, BundleFor(c, role), draw);
      var w := WorldFor(c, p, draw, spare);
      var w' := SealStep(w, role, payload, AadFor(self, peer), draw.nonce);
      var o := Outgoing(role, NextSlot(w, role), prep.envelope, payload);
      if p.world.None? {
        FirstSendFacts(c, p, payload, draw, spare);
      } else {
        LaterSendFacts(c, p, role, payload, draw, spare);
        UnsealedUntaken(w, o.slot);
      }
      SendBooks(c, p, payload, RowsOf(p', role), draw.id, o, prep.st, w, w');
      if role.Responder? {
        AnswersHeard(c, p, payload, draw);
      }
      SendSessions(c, p, payload, RowsOf(p', role), draw.id, o, prep.st, w, w');
    }
  }

  // ---- Receiving ----

  /** The one-time key a first message names, if it names one, has not been spent. */
  predicate OnOffer(rows: Rows, otpId: nat) {
    HasPrekeys(rows) && (otpId == 0 || otpId in rows[Prekeys].prekeys.oneTime)
  }

  /** Material from which keys were spent still gives the same root, or refuses a spent key. */
  lemma RespondShrunk(later: LocalPrekeys, keys: LocalPrekeys, identityDh: KeyId, ephemeral: KeyId, otpId: nat)
    requires Shrunk(later, keys) && Respond(keys, identityDh, ephemeral, FromWireId(otpId)).Responded?
    ensures var r := Respond(later, identityDh, ephemeral, FromWireId(otpId));
            if otpId == 0 || otpId in later.oneTime then
              r.Responded? && r.sk == Respond(keys, identityDh, ephemeral, FromWireId(otpId)).sk && Shrunk(later.(oneTime := r.oneTime), later)
            else r == UnknownOneTimeKey
  {
  }

  /** What is staged for an envelope on the wire is the recipient's side of the history. */
  lemma StagedIsHistory(c: Config, p: Pipe, role: Role, env: Envelope, responderKey: KeyId, turnKey: KeyId)
    requires Sound(c) && Sessions(c, p) && p.world.Some? && FreshKeys(p, responderKey, turnKey)
    requires env.id in p.sent && EnvelopeOk(c, p.world.value, p.sent[env.id], env.id) && env == p.sent[env.id].envelope
    requires env.recipient == IdOf(c, role)
    ensures p.sent[env.id].role == Peer(role)
    ensures var w0 := Rekeyed(p.world.value, RowsOf(p, role), role, env.sender, responderKey);
            var staged := Stage(RowsOf(p, role), env, responderKey);
            && Inv(w0) && Unused(w0, turnKey) && w0.log == p.world.value.log && w0.taken == p.world.value.taken
            && w0.sk == p.world.value.sk && St(w0, Peer(role)) == St(p.world.value, Peer(role))
            && (staged.Staged? ==> staged.st == St(w0, role) && staged.frame == env.body.frame)
            && (staged.Staged? <==> HasSession(RowsOf(p, role), env.sender) || (env.body.First? && OnOffer(RowsOf(p, role), env.body.otpId)))
            && (role.Initiator? ==> HasSession(RowsOf(p, role), env.sender))
  {
    var w := p.world.value;
    if role.Responder? && !HasSession(p.rowsB, env.sender) {
      RekeyKeeps(w, responderKey);
      if env.body.First? {
        RespondShrunk(p.rowsB[Prekeys].prekeys, c.keysB, env.body.identityDh, env.body.ephemeral, env.body.otpId);
      }
    }
  }

  /** Opening it adds exactly its slot to what has been opened, and yields the payload that was sent. */
  lemma OpenedHistory(c: Config, w0: World, role: Role, o: Outgoing, id: MsgId, turnKey: KeyId)
    requires Inv(w0) && Unused(w0, turnKey) && EnvelopeOk(c, w0, o, id) && o.role == Peer(role)
    requires Open(St(w0, role), o.envelope.body.frame, AadFor(o.envelope.sender, IdOf(c, role)), turnKey).result.Ok?
    ensures var aad := AadFor(o.envelope.sender, IdOf(c, role));
            var out := Open(St(w0, role), o.envelope.body.frame, aad, turnKey);
            var w' := DeliverStep(w0, role, o.envelope.body.frame, aad, turnKey);
            && Inv(w') && St(w', role) == out.state && St(w', Peer(role)) == St(w0, Peer(role))
            && w'.sk == w0.sk && w'.log == w0.log && w'.taken == w0.taken + {o.slot} && o.slot !in w0.taken
            && out.result == Ok(o.payload)
  {
    DeliverStepFacts(w0, role, o.slot, AadFor(o.envelope.sender, IdOf(c, role)), turnKey);
  }

  function AfterReceive(p: Pipe, role: Role, after: Rows, ack: DeliveryReceipt, w': World): Pipe {
    WithRows(p, role, after).(receipts := p.receipts + {ack}, arrivals := p.arrivals + [ack.id], world := Some(w'))
  }

  /** The rows of a stored message, as `StoredRows` gives them. */
  ghost predicate StoredChange(rows: Rows, after: Rows, sender: Identity, st: Ratchet, msg: InboxMsg) {
    && Inbox(msg.id) !in rows
    && (forall n: Name :: n in after <==> n in rows || n == Session(sender) || n == Inbox(msg.id) || (n == Prekeys && Prekeys in after))
    && after[Session(sender)] == SessionV(st) && after[Inbox(msg.id)] == InboxV(msg)
    && (forall n: Name :: n in rows && n != Session(sender) && n != Prekeys ==> after[n] == rows[n])
  }

  /** What a stored receive asks of the message, its rows and the history. */
  ghost predicate Receives(c: Config, p: Pipe, role: Role, after: Rows, st: Ratchet, msg: InboxMsg, w': World) {
    && p.world.Some? && msg.id in p.sent && p.sent[msg.id].role == Peer(role) && msg.sender == IdOf(c, Peer(role))
    && StoredChange(RowsOf(p, role), after, msg.sender, st, msg) && !msg.expired && msg.payload == p.sent[msg.id].payload
    && w'.sk == p.world.value.sk && w'.log == p.world.value.log && w'.taken == p.world.value.taken + {p.sent[msg.id].slot}
  }

  lemma ReceiveIdItself(c: Config, p: Pipe, role: Role, after: Rows, st: Ratchet, msg: InboxMsg, ack: DeliveryReceipt, w': World)
    requires Sound(c) && Receives(c, p, role, after, st, msg, w') && ack.id == msg.id && IdOk(c, p, msg.id)
    ensures var p' := AfterReceive(p, role, after, ack, w'); IdOk(c, p', msg.id) && Arrived(p', msg.id)
  {
  }

  lemma StoredElsewhere(rows: Rows, after: Rows, sender: Identity, st: Ratchet, msg: InboxMsg, k: MsgId)
    requires StoredChange(rows, after, sender, st, msg) && k != msg.id
    ensures SameAt(rows, after, Queue(k)) && SameAt(rows, after, Inbox(k))
  {
  }

  lemma ReceiveIdOther(c: Config, p: Pipe, role: Role, after: Rows, ack: DeliveryReceipt, w': World, k: MsgId, slot: Slot)
    requires IdOk(c, p, k) && p.world.Some?
    requires SameAt(RowsOf(p, role), after, Queue(k)) && SameAt(RowsOf(p, role), after, Inbox(k))
    requires w'.sk == p.world.value.sk && w'.log == p.world.value.log && w'.taken == p.world.value.taken + {slot}
    requires k in p.sent ==> p.sent[k].slot != slot
    ensures var p' := AfterReceive(p, role, after, ack, w'); IdOk(c, p', k) && (Arrived(p', k) <==> Arrived(p, k))
  {
    var p' := AfterReceive(p, role, after, ack, w');
    if k in p.sent {
      EnvelopeStays(c, p.world.value, w', p.sent[k], k);
    }
    assert Untouched(p, p', k);
    UntouchedId(c, p, p', k);
  }

  lemma ReceiveBooks(c: Config, p: Pipe, role: Role, after: Rows, st: Ratchet, msg: InboxMsg, ack: DeliveryReceipt, w': World)
    requires Sound(c) && Books(c, p) && Receives(c, p, role, after, st, msg, w') && ack.id == msg.id && ack.sender == msg.sender
    ensures Books(c, AfterReceive(p, role, after, ack, w'))
  {
    var p' := AfterReceive(p, role, after, ack, w');
    assert IdOk(c, p, msg.id);
    forall k ensures IdOk(c, p', k) && (Arrived(p', k) <==> Arrived(p, k) || k == msg.id) {
      assert IdOk(c, p, k);
      if k == msg.id {
        ReceiveIdItself(c, p, role, after, st, msg, ack, w');
      } else {
        StoredElsewhere(RowsOf(p, role), after, msg.sender, st, msg, k);
        assert k in p.sent ==> p.sent[k].slot != p.sent[msg.id].slot;
        ReceiveIdOther(c, p, role, after, ack, w', k, p.sent[msg.id].slot);
      }
    }
    forall s ensures SlotOk(p', s) {
      assert SlotOk(p, s);
    }
    assert !Arrived(p, msg.id);
    ReceiveNetwork(c, p, p', ack);
  }

  lemma ReceiveNetwork(c: Config, p: Pipe, p': Pipe, ack: DeliveryReceipt)
    requires NetworkOk(c, p) && !Arrived(p, ack.id) && ack.id in p.sent && ack.sender == IdOf(c, p.sent[ack.id].role)
    requires p'.sent == p.sent && p'.wire == p.wire && p'.receipts == p.receipts + {ack} && p'.arrivals == p.arrivals + [ack.id]
    requires forall k :: Arrived(p', k) <==> Arrived(p, k) || k == ack.id
    ensures NetworkOk(c, p')
  {
    assert ack.id !in p.arrivals;
    forall k ensures k in p'.arrivals <==> Arrived(p', k) {
      assert k in p'.arrivals <==> k in p.arrivals || k == ack.id;
    }
  }

  lemma ReceiveSessions(c: Config, p: Pipe, role: Role, after: Rows, st: Ratchet, msg: InboxMsg, ack: DeliveryReceipt, w': World)
    requires Sound(c) && Sessions(c, p) && p.world.Some? && Inv(w')
    requires msg.sender == IdOf(c, Peer(role)) && StoredChange(RowsOf(p, role), after, msg.sender, st, msg)
    requires w'.log == p.world.value.log && St(w', role) == st && St(w', Peer(role)) == St(p.world.value, Peer(role))
    requires KeepsPrekeys(after, if role.Initiator? then c.keysA else c.keysB) && (role.Responder? ==> st.dhr.Some?)
    ensures w'.sk == p.world.value.sk ==> Sessions(c, AfterReceive(p, role, after, ack, w'))
  {
  }

  lemma AckKeeps(c: Config, p: Pipe, ack: DeliveryReceipt)
    requires Books(c, p) && Arrived(p, ack.id) && ack.sender == IdOf(c, p.sent[ack.id].role)
    ensures Books(c, p.(receipts := p.receipts + {ack}))
  {
    var p' := p.(receipts := p.receipts + {ack});
    forall k ensures IdOk(c, p', k) && (Arrived(p', k) <==> Arrived(p, k)) {
      assert IdOk(c, p, k);
    }
    forall s ensures SlotOk(p', s) {
      assert SlotOk(p, s);
    }
  }

  /** The rows of a stored message. */
  lemma StoredRowsChange(h: Host, self: Identity, rows: Rows, env: Envelope, responderKey: KeyId, turnKey: KeyId, now: int)
    requires ReceiveDm(h, self, rows, env, responderKey, turnKey, now).Stored?
    ensures var out := ReceiveDm(h, self, rows, env, responderKey, turnKey, now);
            var staged := Stage(rows, env, responderKey);
            && staged.Staged?
            && var out2 := Open(staged.st, staged.frame, AadFor(env.sender, self), turnKey);
            && out2.result == Ok(out.payload)
            && StoredChange(rows, out.rows, env.sender, out2.state, InboxMsg(env.id, env.sender, out.payload, now, false))
            && (HasPrekeys(rows) ==> KeepsPrekeys(out.rows, rows[Prekeys].prekeys))
  {
    StoredRows(h, self, rows, env, responderKey, turnKey, now);
  }

  /** A stored receive, as a change of the history. `p` is the state after retention. */
  lemma StoredForm(c: Config, p: Pipe, role: Role, env: Envelope, responderKey: KeyId, turnKey: KeyId, now: int)
    requires Sound(c) && Sessions(c, p) && Books(c, p) && p.world.Some? && FreshKeys(p, responderKey, turnKey)
    requires env in p.wire && env.recipient == IdOf(c, role)
    requires ReceiveDm(HostOf(c, role), IdOf(c, role), RowsOf(p, role), env, responderKey, turnKey, now).Stored?
    ensures env.id in p.sent && p.sent[env.id].role == Peer(role) && env.sender == IdOf(c, Peer(role))
    ensures var out := ReceiveDm(HostOf(c, role), IdOf(c, role), RowsOf(p, role), env, responderKey, turnKey, now);
            StoredHistory(c, p, role, env, responderKey, turnKey, now, out.rows, out.payload)
  {
    assert IdOk(c, p, env.id);
    var o := p.sent[env.id];
    StoredRowsChange(HostOf(c, role), IdOf(c, role), RowsOf(p, role), env, responderKey, turnKey, now);
    var out := ReceiveDm(HostOf(c, role), IdOf(c, role), RowsOf(p, role), env, responderKey, turnKey, now);
    StoredHistoryHolds(c, p, role, env, responderKey, turnKey, now, out.rows, out.payload);
  }

  ghost predicate StoredHistory(c: Config, p: Pipe, role: Role, env: Envelope, responderKey: KeyId, turnKey: KeyId, now: int,
                                after: Rows, payload: Payload)
    requires p.world.Some? && env.id in p.sent
  {
    var o := p.sent[env.id]; var w := p.world.value;
    var w0 := Rekeyed(w, RowsOf(p, role), role, env.sender, responderKey);
    var w' := DeliverStep(w0, role, env.body.frame, AadFor(env.sender, IdOf(c, role)), turnKey);
    && payload == o.payload
    && Inv(w') && w'.sk == w.sk && w'.log == w.log && w'.taken == w.taken + {o.slot}
    && St(w', Peer(role)) == St(w, Peer(role))
    && StoredChange(RowsOf(p, role), after, env.sender, St(w', role), InboxMsg(env.id, env.sender, o.payload, now, false))
    && KeepsPrekeys(after, if role.Initiator? then c.keysA else c.keysB)
  }

  lemma StoredHistoryHolds(c: Config, p: Pipe, role: Role, env: Envelope, responderKey: KeyId, turnKey: KeyId, now: int,
                           after: Rows, payload: Payload)
    requires Sound(c) && Sessions(c, p) && p.world.Some? && FreshKeys(p, responderKey, turnKey)
    requires env.id in p.sent && EnvelopeOk(c, p.world.value, p.sent[env.id], env.id) && env == p.sent[env.id].envelope
    requires env.recipient == IdOf(c, role)
    requires var staged := Stage(RowsOf(p, role), env, responderKey); var rows := RowsOf(p, role);
             && staged.Staged?
             && var out2 := Open(staged.st, staged.frame, AadFor(env.sender, IdOf(c, role)), turnKey);
             && out2.result == Ok(payload)
             && StoredChange(rows, after, env.sender, out2.state, InboxMsg(env.id, env.sender, payload, now, false))
             && (HasPrekeys(rows) ==> KeepsPrekeys(after, rows[Prekeys].prekeys))
    ensures p.sent[env.id].role == Peer(role)
    ensures StoredHistory(c, p, role, env, responderKey, turnKey, now, after, payload)
  {
    DeliveredHistory(c, p, role, env, responderKey, turnKey);
    var rows := RowsOf(p, role);
    var staged := Stage(rows, env, responderKey);
    var st := Open(staged.st, staged.frame, AadFor(env.sender, IdOf(c, role)), turnKey).state;
    StoredHistoryFrom(c, p, role, env, responderKey, turnKey, now, after, payload, st);
  }

  lemma StoredHistoryFrom(c: Config, p: Pipe, role: Role, env: Envelope, responderKey: KeyId, turnKey: KeyId, now: int,
                          after: Rows, payload: Payload, st: Ratchet)
    requires p.world.Some? && env.id in p.sent && payload == p.sent[env.id].payload
    requires var w := p.world.value;
             var w0 := Rekeyed(w, RowsOf(p, role), role, env.sender, responderKey);
             var w' := DeliverStep(w0, role, env.body.frame, AadFor(env.sender, IdOf(c, role)), turnKey);
             && St(w', role) == st && Inv(w') && w'.sk == w.sk && w'.log == w.log && w'.taken == w.taken + {p.sent[env.id].slot}
             && St(w', Peer(role)) == St(w, Peer(role))
    requires StoredChange(RowsOf(p, role), after, env.sender, st, InboxMsg(env.id, env.sender, payload, now, false))
    requires KeepsPrekeys(RowsOf(p, role), if role.Initiator? then c.keysA else c.keysB) && KeepsPrekeys(after, RowsOf(p, role)[Prekeys].prekeys)
    ensures StoredHistory(c, p, role, env, responderKey, turnKey, now, after, payload)
  {
  }

  /** What opening a staged envelope does to the history. */
  lemma DeliveredHistory(c: Config, p: Pipe, role: Role, env: Envelope, responderKey: KeyId, turnKey: KeyId)
    requires Sound(c) && Sessions(c, p) && p.world.Some? && FreshKeys(p, responderKey, turnKey)
    requires env.id in p.sent && EnvelopeOk(c, p.world.value, p.sent[env.id], env.id) && env == p.sent[env.id].envelope
    requires env.recipient == IdOf(c, role)
    requires var staged := Stage(RowsOf(p, role), env, responderKey);
             staged.Staged? && Open(staged.st, staged.frame, AadFor(env.sender, IdOf(c, role)), turnKey).result.Ok?
    ensures p.sent[env.id].role == Peer(role)
    ensures var w := p.world.value; var staged := Stage(RowsOf(p, role), env, responderKey);
            var w0 := Rekeyed(w, RowsOf(p, role), role, env.sender, responderKey);
            var w' := DeliverStep(w0, role, env.body.frame, AadFor(env.sender, IdOf(c, role)), turnKey);
            var out := Open(staged.st, staged.frame, AadFor(env.sender, IdOf(c, role)), turnKey);
            && out.result == Ok(p.sent[env.id].payload) && St(w', role) == out.state
            && Inv(w') && w'.sk == w.sk && w'.log == w.log && w'.taken == w.taken + {p.sent[env.id].slot}
            && St(w', Peer(role)) == St(w, Peer(role))
  {
    StagedIsHistory(c, p, role, env, responderKey, turnKey);
    var w0 := Rekeyed(p.world.value, RowsOf(p, role), role, env.sender, responderKey);
    EnvelopeStays(c, p.world.value, w0, p.sent[env.id], env.id);
    OpenedHistory(c, w0, role, p.sent[env.id], env.id, turnKey);
  }

  /** Who has opened a message has heard from the peer. */
  lemma HeardFrom(w: World, s: Slot)
    requires Inv(w) && s in w.taken && Owns(Initiator, s.epoch)
    ensures w.b.dhr.Some?
  {
    assert SideOf(w, Responder);
    assert LedgerAt(w.b, Responder, w.sk, w.keys, w.lens, w.taken, s);
  }

  lemma StoredHeard(c: Config, p: Pipe, role: Role, env: Envelope, w': World)
    requires p.world.Some? && env.id in p.sent && IdOk(c, p, env.id) && p.sent[env.id].role == Peer(role)
    requires Inv(w') && w'.taken == p.world.value.taken + {p.sent[env.id].slot}
    ensures role.Responder? ==> w'.b.dhr.Some?
  {
    if role.Responder? {
      HeardFrom(w', p.sent[env.id].slot);
    }
  }

  lemma ReceiveKeepsAfterRetention(c: Config, p: Pipe, role: Role, env: Envelope, responderKey: KeyId, turnKey: KeyId, now: int)
    requires Sound(c) && Sessions(c, p) && Books(c, p) && p.world.Some? && FreshKeys(p, responderKey, turnKey)
    requires env in p.wire && env.recipient == IdOf(c, role)
    requires ReceiveDm(HostOf(c, role), IdOf(c, role), RowsOf(p, role), env, responderKey, turnKey, now).Stored?
    ensures var out := ReceiveDm(HostOf(c, role), IdOf(c, role), RowsOf(p, role), env, responderKey, turnKey, now);
            var w0 := Rekeyed(p.world.value, RowsOf(p, role), role, env.sender, responderKey);
            var w' := DeliverStep(w0, role, env.body.frame, AadFor(env.sender, IdOf(c, role)), turnKey);
            PipeInv(c, AfterReceive(p, role, out.rows, DeliveryReceipt(env.id, IdOf(c, role), env.sender), w'))
  {
    StoredForm(c, p, role, env, responderKey, turnKey, now);
    var out := ReceiveDm(HostOf(c, role), IdOf(c, role), RowsOf(p, role), env, responderKey, turnKey, now);
    var w0 := Rekeyed(p.world.value, RowsOf(p, role), role, env.sender, responderKey);
    var w' := DeliverStep(w0, role, env.body.frame, AadFor(env.sender, IdOf(c, role)), turnKey);
    var msg := InboxMsg(env.id, env.sender, p.sent[env.id].payload, now, false);
    var ack := DeliveryReceipt(env.id, IdOf(c, role), env.sender);
    ReceiveBooks(c, p, role, out.rows, St(w', role), msg, ack, w');
    StoredHeard(c, p, role, env, w');
    ReceiveSessions(c, p, role, out.rows, St(w', role), msg, ack, w');
  }

  /** The receive step is retention followed by one of the three outcomes. */
  lemma ReceiveStepForm(c: Config, p: Pipe, role: Role, env: Envelope, responderKey: KeyId, turnKey: KeyId, now: int)
    requires env in p.wire && env.recipient == IdOf(c, role) && FreshKeys(p, responderKey, turnKey) && p.world.Some?
    ensures var p1 := WithRows(p, role, Retain(HostOf(c, role), RowsOf(p, role), now));
            var ack := DeliveryReceipt(env.id, IdOf(c, role), env.sender);
            ReceiveStep(c, p, role, env, responderKey, turnKey, now) ==
            match ReceiveDm(HostOf(c, role), IdOf(c, role), RowsOf(p1, role), env, responderKey, turnKey, now)
            case Dropped => p1
            case Refused => p1
            case Acknowledged => p1.(receipts := p1.receipts + {ack})
            case Stored(rows, _) =>
              AfterReceive(p1, role, rows, ack,
                           DeliverStep(Rekeyed(p1.world.value, RowsOf(p1, role), role, env.sender, responderKey), role, env.body.frame,
                                       AadFor(env.sender, IdOf(c, role)), turnKey))
  {
  }

  lemma ReceiveKeeps(c: Config, p: Pipe, role: Role, env: Envelope, responderKey: KeyId, turnKey: KeyId, now: int)
    requires Sound(c) && PipeInv(c, p)
    ensures PipeInv(c, ReceiveStep(c, p, role, env, responderKey, turnKey, now))
  {
    if env in p.wire && env.recipient == IdOf(c, role) && FreshKeys(p, responderKey, turnKey) {
      assert p.world.Some? by {
        assert IdOk(c, p, env.id);
      }
      var p1 := WithRows(p, role, Retain(HostOf(c, role), RowsOf(p, role), now));
      RetainKeeps(c, p, role, now);
      ReceiveStepForm(c, p, role, env, responderKey, turnKey, now);
      RetainedReceiveKeeps(c, p1, role, env, responderKey, turnKey, now, ReceiveStep(c, p, role, env, responderKey, turnKey, now));
    }
  }

  /** `p` is the state after retention, and `p'` the state after the outcome. */
  lemma RetainedReceiveKeeps(c: Config, p: Pipe, role: Role, env: Envelope, responderKey: KeyId, turnKey: KeyId, now: int, p': Pipe)
    requires Sound(c) && PipeInv(c, p) && p.world.Some? && env in p.wire && env.recipient == IdOf(c, role) && FreshKeys(p, responderKey, turnKey)
    requires p' == match ReceiveDm(HostOf(c, role), IdOf(c, role), RowsOf(p, role), env, responderKey, turnKey, now)
                   case Dropped => p
                   case Refused => p
                   case Acknowledged => p.(receipts := p.receipts + {DeliveryReceipt(env.id, IdOf(c, role), env.sender)})
                   case Stored(rows, _) =>
                     AfterReceive(p, role, rows, DeliveryReceipt(env.id, IdOf(c, role), env.sender),
                                  DeliverStep(Rekeyed(p.world.value, RowsOf(p, role), role, env.sender, responderKey), role, env.body.frame,
                                              AadFor(env.sender, IdOf(c, role)), turnKey))
    ensures PipeInv(c, p')
  {
    var out := ReceiveDm(HostOf(c, role), IdOf(c, role), RowsOf(p, role), env, responderKey, turnKey, now);
    if out.Stored? {
      ReceiveKeepsAfterRetention(c, p, role, env, responderKey, turnKey, now);
    } else if out.Acknowledged? {
      assert IdOk(c, p, env.id);
      AckKeeps(c, p, DeliveryReceipt(env.id, IdOf(c, role), env.sender));
    }
  }

  lemma StepKeeps(c: Config, p: Pipe, step: Step)
    requires Sound(c) && PipeInv(c, p)
    ensures PipeInv(c, Next(c, p, step))
  {
    match step {
      case SendMsg(role, payload, draw, spare, meta) => SendKeeps(c, p, role, payload, draw, spare, meta);
      case Transmit(role, id, now, counted) =>
        TransmitSessions(c, p, role, id, now, counted);
        TransmitBooks(c, p, role, id, now, counted);
      case ReceiveMsg(role, env, responderKey, turnKey, now) => ReceiveKeeps(c, p, role, env, responderKey, turnKey, now);
      case ReceiptIn(role, receipt, now) =>
        ReceiptSessions(c, p, role, receipt, now);
        ReceiptBooks(c, p, role, receipt, now);
      case Retention(role, now) => RetainKeeps(c, p, role, now);
    }
  }
}
