/**
 Exactly when each operation of the persistent client takes effect, and what it leaves behind
 (packages/client/src/persistent-client.ts, packages/client/src/dm.ts). The conditions are about the rows before the
 call and the limits: how many rows of a kind there are, and what the byte sum and the record count would become.
 */
module ClientEffects {
  import opened Basics
  import opened Symbolic
  import opened DoubleRatchet
  import opened X3dh
  import opened DeviceStore
  import opened PersistentClient
  import opened DirectMessages

  ghost predicate RoomFor(h: Host, rows: Rows, n: Name, v: Value) {
    Room(h.sizes, rows, BudgetOf(h), n, v)
  }

  lemma WriteIff(h: Host, rows: Rows, n: Name, v: Value)
    ensures Write(h, rows, n, v) == if RoomFor(h, rows, n, v) then Some(rows[n := v]) else None
  {
    PutIff(h.sizes, rows, BudgetOf(h), n, v);
  }

  // ---- Receiving ----

  /** Fewer live messages than the limits allow, in all and from this sender. */
  predicate InboxHasRoom(h: Host, rows: Rows, sender: Identity) {
    h.limits.Some? ==> |Live(rows)| < h.limits.value.inbox && |LiveFrom(rows, sender)| < h.limits.value.inboxPerPeer
  }

  function WithSession(rows: Rows, peer: Identity, st: Ratchet): Rows {
    rows[Session(peer) := SessionV(st)]
  }

  function WithPrekeys(rows: Rows, spent: Option<LocalPrekeys>): Rows {
    if spent.Some? then rows[Prekeys := PrekeysV(spent.value)] else rows
  }

  /** Session, spent prekeys and message all find room, one after the other. */
  ghost predicate RoomForMessage(h: Host, rows: Rows, st: Ratchet, spent: Option<LocalPrekeys>, msg: InboxMsg) {
    var r1 := WithSession(rows, msg.sender, st);
    && InboxHasRoom(h, rows, msg.sender)
    && RoomFor(h, rows, Session(msg.sender), SessionV(st))
    && (spent.Some? ==> RoomFor(h, r1, Prekeys, PrekeysV(spent.value)))
    && RoomFor(h, WithPrekeys(r1, spent), Inbox(msg.id), InboxV(msg))
  }

  function WithMessage(rows: Rows, st: Ratchet, spent: Option<LocalPrekeys>, msg: InboxMsg): Rows {
    WithPrekeys(WithSession(rows, msg.sender, st), spent)[Inbox(msg.id) := InboxV(msg)]
  }

  /** A message not yet in the inbox is stored, with its session and the spent key, exactly when there is room. */
  lemma ReceiveCommitsIff(h: Host, rows: Rows, st: Ratchet, spent: Option<LocalPrekeys>, msg: InboxMsg)
    requires Inbox(msg.id) !in rows
    ensures CommitReceive(h, rows, st, spent, msg) ==
            if RoomForMessage(h, rows, st, spent, msg) then Some(WithMessage(rows, st, spent, msg)) else None
  {
    var r1 := WithSession(rows, msg.sender, st);
    WriteIff(h, rows, Session(msg.sender), SessionV(st));
    if spent.Some? {
      WriteIff(h, r1, Prekeys, PrekeysV(spent.value));
    }
    WriteIff(h, WithPrekeys(r1, spent), Inbox(msg.id), InboxV(msg));
  }

  // ---- Sending ----

  predicate OutboxHasRoom(h: Host, rows: Rows, peer: Identity) {
    h.limits.Some? ==> |Pending(rows)| < h.limits.value.pending && |PendingFor(rows, peer)| < h.limits.value.pendingPerPeer
  }

  ghost predicate RoomForMeta(h: Host, rows: Rows, writes: seq<(string, nat)>)
    decreases |writes|
  {
    writes != [] ==>
      var n, v := Meta(writes[0].0), Opaque(writes[0].1);
      RoomFor(h, rows, n, v) && RoomForMeta(h, rows[n := v], writes[1..])
  }

  lemma {:induction false} MetaWrittenIff(h: Host, rows: Rows, writes: seq<(string, nat)>)
    ensures WriteMeta(h, rows, writes).Some? <==> RoomForMeta(h, rows, writes)
    decreases |writes|
  {
    if writes != [] {
      WriteIff(h, rows, Meta(writes[0].0), Opaque(writes[0].1));
      MetaWrittenIff(h, rows[Meta(writes[0].0) := Opaque(writes[0].1)], writes[1..]);
    }
  }

  /** Session, item and all the metadata find room, one after the other. */
  ghost predicate RoomForItem(h: Host, rows: Rows, st: Ratchet, item: Item, writes: seq<(string, nat)>) {
    var r1 := WithSession(rows, item.recipient, st);
    && Queue(item.id) !in rows && OutboxHasRoom(h, rows, item.recipient)
    && RoomFor(h, rows, Session(item.recipient), SessionV(st))
    && RoomFor(h, r1, Queue(item.id), ItemV(item))
    && RoomForMeta(h, r1[Queue(item.id) := ItemV(item)], writes)
  }

  lemma SessionsDoNotCount(rows: Rows, peer: Identity, st: Ratchet, p: Identity)
    ensures var r1 := WithSession(rows, peer, st); Pending(r1) == Pending(rows) && PendingFor(r1, p) == PendingFor(rows, p)
  {
  }

  lemma SendCommitsIff(h: Host, rows: Rows, st: Ratchet, item: Item, meta: Option<seq<(string, nat)>>)
    ensures CommitSend(h, rows, st, item, meta).Some? <==> meta.Some? && RoomForItem(h, rows, st, item, meta.value)
  {
    var r1 := WithSession(rows, item.recipient, st);
    WriteIff(h, rows, Session(item.recipient), SessionV(st));
    SessionsDoNotCount(rows, item.recipient, st, item.recipient);
    WriteIff(h, r1, Queue(item.id), ItemV(item));
    if meta.Some? {
      MetaWrittenIff(h, r1[Queue(item.id) := ItemV(item)], meta.value);
    }
  }

  /** The signature on the prekey is by the identity that the bundle names, and over that prekey. */
  predicate Genuine(b: Bundle) {
    b.signature.signer == b.identitySign && b.signature.message == b.signedPrekey
  }

  /** A session that can seal: it has a sending chain, or has heard from the peer and can start one. */
  predicate CanSeal(st: Ratchet) {
    st.cks.Some? || st.dhr.Some?
  }

  /** Something can be sealed for the recipient: on a session that can seal, or for want of one on a genuine bundle. */
  predicate CanPrepare(rows: Rows, recipient: Identity, bundle: Option<Bundle>) {
    if HasSession(rows, recipient) then CanSeal(rows[Session(recipient)].ratchet)
    else HasPrekeys(rows) && bundle.Some? && Genuine(bundle.value)
  }

  lemma PreparesIff(self: Identity, rows: Rows, recipient: Identity, payload: Payload, bundle: Option<Bundle>, draw: Draw)
    ensures var prep := Prepare(self, rows, recipient, payload, bundle, draw);
            && (prep.Prepared? <==> CanPrepare(rows, recipient, bundle))
            && (prep.Prepared? ==> prep.envelope.id == draw.id && prep.envelope.sender == self && prep.envelope.recipient == recipient)
            && (prep.Prepared? ==> (prep.envelope.body.Later? <==> HasSession(rows, recipient)))
  {
  }

  /** A message is sent exactly when something can be sealed for the recipient, its id is unused and there is room for
      session, item and metadata; else no row changes and nothing is returned. A bundle with any other signature in
      particular opens no session. */
  lemma SendsIff(h: Host, self: Identity, rows: Rows, recipient: Identity, payload: Payload,
                 bundle: Option<Bundle>, draw: Draw, meta: Option<seq<(string, nat)>>)
    ensures var out := SendDm(h, self, rows, recipient, payload, bundle, draw, meta);
            var prep := Prepare(self, rows, recipient, payload, bundle, draw);
            && (out.SentOk? <==>
                CanPrepare(rows, recipient, bundle) && prep.Prepared? && meta.Some? && RoomForItem(h, rows, prep.st, ItemFor(prep.envelope), meta.value))
            && (out.SentOk? ==> out.envelope == prep.envelope && Queue(draw.id) in out.rows && out.rows[Queue(draw.id)] == ItemV(ItemFor(prep.envelope)))
  {
    PreparesIff(self, rows, recipient, payload, bundle, draw);
    var prep := Prepare(self, rows, recipient, payload, bundle, draw);
    if prep.Prepared? {
      SendCommitsIff(h, rows, prep.st, ItemFor(prep.envelope), meta);
      if CommitSend(h, rows, prep.st, ItemFor(prep.envelope), meta).Some? {
        CommitSendChange(h, rows, prep.st, ItemFor(prep.envelope), meta);
      }
    }
  }

  // ---- Receipts and attempts ----

  /** The receipt is for this device and by the peer the item is for. */
  predicate Matches(rows: Rows, self: Identity, receipt: DeliveryReceipt) {
    var n := Queue(receipt.id);
    n in rows && rows[n].ItemV? && receipt.sender == self && receipt.recipient == rows[n].item.recipient
  }

  ghost predicate RoomForProof(h: Host, rows: Rows, id: MsgId, now: int) {
    && Queue(id) in rows && rows[Queue(id)].ItemV?
    && RoomFor(h, rows, Receipt(id), ReceiptV(now))
    && RoomFor(h, rows[Receipt(id) := ReceiptV(now)], Queue(id), ItemV(rows[Queue(id)].item.(delivered := true)))
  }

  /** A receipt ends the retries of its item, and of no other, exactly when it matches and there is room for the proof. */
  lemma DeliveredIff(h: Host, rows: Rows, self: Identity, receipt: DeliveryReceipt, now: int)
    ensures var after := MarkDelivered(h, rows, self, receipt, now); var n := Queue(receipt.id);
            && (after.Some? <==> Matches(rows, self, receipt) && RoomForProof(h, rows, receipt.id, now))
            && (after.Some? ==>
                  && Pending(after.value) == Pending(rows) - {n}
                  && n in after.value && after.value[n] == ItemV(rows[n].item.(delivered := true))
                  && Receipt(receipt.id) in after.value && after.value[Receipt(receipt.id)] == ReceiptV(now)
                  && after.value.Keys == rows.Keys + {Receipt(receipt.id)}
                  && (forall k :: k in rows && k != n && k != Receipt(receipt.id) ==> after.value[k] == rows[k]))
  {
    var n := Queue(receipt.id);
    if Matches(rows, self, receipt) {
      WriteIff(h, rows, Receipt(receipt.id), ReceiptV(now));
      WriteIff(h, rows[Receipt(receipt.id) := ReceiptV(now)], n, ItemV(rows[n].item.(delivered := true)));
    }
  }

  function Doubled(n: nat): nat {
    if n == 0 then 1 else 2 * Doubled(n - 1)
  }

  lemma {:induction false} DoubledGrows(n: nat)
    requires n >= 6
    ensures Doubled(n) >= 64
  {
    if n > 6 {
      DoubledGrows(n - 1);
    }
  }

  /** The wait doubles from thirty seconds with every attempt, up to half an hour. */
  lemma BackoffDoubles(attempts: nat)
    ensures Backoff(attempts) == if 30_000 * Doubled(attempts) <= 30 * 60_000 then 30_000 * Doubled(attempts) else 30 * 60_000
  {
    if attempts >= 6 {
      DoubledGrows(attempts);
    } else {
      assert Doubled(0) == 1 && Doubled(1) == 2 && Doubled(2) == 4 && Doubled(3) == 8 && Doubled(4) == 16 && Doubled(5) == 32;
    }
  }

  /** A pending item is counted exactly when its new row finds room; it then stays pending and is due after the wait. */
  lemma AttemptCountsIff(h: Host, rows: Rows, id: MsgId, now: int)
    ensures var after := MarkAttempt(h, rows, id, now); var n := Queue(id);
            && (after.Some? ==> PendingRow(rows, n) && Pending(after.value) == Pending(rows))
            && (PendingRow(rows, n) ==>
                  var item := rows[n].item;
                  var next := ItemV(item.(attempts := item.attempts + 1, nextAttemptAt := now + Backoff(item.attempts)));
                  after == if RoomFor(h, rows, n, next) then Some(rows[n := next]) else None)
  {
    if PendingRow(rows, Queue(id)) {
      var item := rows[Queue(id)].item;
      WriteIff(h, rows, Queue(id), ItemV(item.(attempts := item.attempts + 1, nextAttemptAt := now + Backoff(item.attempts))));
    }
  }

  // ---- Retention ----

  /** Whether a message may be emptied at all: a text, or capabilities the host has taken note of. */
  predicate Disposable(rows: Rows, msg: InboxMsg, id: MsgId) {
    msg.payload.contentType.Text? || (msg.payload.contentType.AgentCapabilities? && CapabilitySeen(id) in rows)
  }

  /** Retention empties exactly the disposable messages received at least `retentionMs` ago, and exactly the envelopes
      of items whose delivery was proven that long ago. Younger ones, and all else, are as they were. */
  lemma RetentionExact(h: Host, rows: Rows, now: int, n: Name)
    requires n in rows
    ensures var kept := Retain(h, rows, now);
            && n in kept
            && (n.Inbox? && rows[n].InboxV? ==>
                  var msg := rows[n].msg;
                  var stale := h.limits.Some? && now - msg.receivedAt >= h.limits.value.retentionMs;
                  && kept[n].InboxV?
                  && kept[n].msg.expired == (msg.expired || (stale && Disposable(rows, msg, n.id)))
                  && kept[n].msg == if kept[n].msg.expired && !msg.expired then msg.(payload := Payload(Text, ""), expired := true) else msg)
            && (n.Queue? && rows[n].ItemV? ==>
                  var item := rows[n].item;
                  var proven := h.limits.Some? && Receipt(n.id) in rows && rows[Receipt(n.id)].ReceiptV?
                                && now - rows[Receipt(n.id)].verifiedAt >= h.limits.value.retentionMs;
                  kept[n] == ItemV(if item.delivered && proven then item.(envelope := None) else item))
            && (!(n.Inbox? && rows[n].InboxV?) && !(n.Queue? && rows[n].ItemV?) ==> kept[n] == rows[n])
  {
  }
}
