/**
 The durable state of a device, packages/client/src/persistent-client.ts: ratchet sessions,
 outbox, inbox, receipts, prekeys and host metadata are rows of one store, and each operation
 writes its rows in one transaction.
 */
module PersistentClient {
  import opened Basics
  import opened Symbolic
  import opened DoubleRatchet
  import opened X3dh
  import opened DeviceStore

  type MsgId = nat

  datatype Name =
    | Format
    | Credentials
    | Prekeys
    | Session(peer: Identity)
    | Queue(id: MsgId)
    | Inbox(id: MsgId)
    | Receipt(id: MsgId)
    | CapabilitySeen(id: MsgId)
    | Meta(tag: string)

  /** A first message carries the X3DH prefix in front of the ratchet frame. */
  datatype Body = First(identityDh: KeyId, ephemeral: KeyId, otpId: nat, frame: Wire) | Later(frame: Wire)

  datatype Envelope = Envelope(id: MsgId, sender: Identity, recipient: Identity, body: Body)

  /** A queue item; the envelope is emptied once delivery is proven and old. */
  datatype Item = Item(
    id: MsgId, recipient: Identity, envelope: Option<Envelope>, attempts: nat, nextAttemptAt: int, delivered: bool)

  datatype InboxMsg = InboxMsg(id: MsgId, sender: Identity, payload: Payload, receivedAt: int, expired: bool)

  datatype Value =
    | Opaque(n: nat)
    | PrekeysV(prekeys: LocalPrekeys)
    | SessionV(ratchet: Ratchet)
    | ItemV(item: Item)
    | InboxV(msg: InboxMsg)
    | ReceiptV(verifiedAt: int)

  type Rows = map<Name, Value>

  datatype Limits = Limits(
    bytes: nat, records: nat, pending: nat, pendingPerPeer: nat, inbox: nat, inboxPerPeer: nat, retentionMs: nat)

  /** What the host fixes: how long encodings are, and the resource limits if any. */
  datatype Host = Host(sizes: Sizes<Name, Value>, limits: Option<Limits>)

  function BudgetOf(h: Host): Option<Budget> {
    if h.limits.Some? then Some(Budget(h.limits.value.bytes, h.limits.value.records)) else None
  }

  // ---- Counting rows ----

  predicate PendingRow(rows: Rows, n: Name) {
    n in rows && n.Queue? && rows[n].ItemV? && !rows[n].item.delivered
  }

  function Pending(rows: Rows): set<Name> {
    set n | n in rows && PendingRow(rows, n)
  }

  function PendingFor(rows: Rows, peer: Identity): set<Name> {
    set n | n in rows && PendingRow(rows, n) && rows[n].item.recipient == peer
  }

  predicate LiveRow(rows: Rows, n: Name) {
    n in rows && n.Inbox? && rows[n].InboxV? && !rows[n].msg.expired
  }

  function Live(rows: Rows): set<Name> {
    set n | n in rows && LiveRow(rows, n)
  }

  function LiveFrom(rows: Rows, sender: Identity): set<Name> {
    set n | n in rows && LiveRow(rows, n) && rows[n].msg.sender == sender
  }

  // ---- Operations ----

  ghost function Write(h: Host, rows: Rows, name: Name, value: Value): Option<Rows> {
    Put(h.sizes, rows, BudgetOf(h), name, value)
  }

  predicate OutboxFull(h: Host, rows: Rows, peer: Identity) {
    h.limits.Some? && (|Pending(rows)| >= h.limits.value.pending || |PendingFor(rows, peer)| >= h.limits.value.pendingPerPeer)
  }

  predicate InboxFull(h: Host, rows: Rows, sender: Identity) {
    h.limits.Some? && (|Live(rows)| >= h.limits.value.inbox || |LiveFrom(rows, sender)| >= h.limits.value.inboxPerPeer)
  }

  /** None stands for a throw; the surrounding transaction then keeps nothing. */
  ghost function Enqueue(h: Host, rows: Rows, item: Item): Option<Rows> {
    if Queue(item.id) in rows || OutboxFull(h, rows, item.recipient) then None
    else Write(h, rows, Queue(item.id), ItemV(item))
  }

  ghost function WriteMeta(h: Host, rows: Rows, writes: seq<(string, nat)>): Option<Rows>
    decreases |writes|
  {
    if writes == [] then Some(rows)
    else
      match Write(h, rows, Meta(writes[0].0), Opaque(writes[0].1))
      case None => None
      case Some(next) => WriteMeta(h, next, writes[1..])
  }

  /** Ratchet advance, queue item and host metadata in one transaction. `meta` is None when the
      host's callback throws. */
  ghost function CommitSend(h: Host, rows: Rows, ratchet: Ratchet, item: Item, meta: Option<seq<(string, nat)>>): Option<Rows> {
    match Write(h, rows, Session(item.recipient), SessionV(ratchet))
    case None => None
    case Some(r1) =>
      match Enqueue(h, r1, item)
      case None => None
      case Some(r2) => if meta.None? then None else WriteMeta(h, r2, meta.value)
  }

  ghost function WritePrekeys(h: Host, rows: Rows, prekeys: Option<LocalPrekeys>): Option<Rows> {
    if prekeys.None? then Some(rows) else Write(h, rows, Prekeys, PrekeysV(prekeys.value))
  }

  /** Session, spent prekey and inbox entry in one transaction. */
  ghost function CommitReceive(h: Host, rows: Rows, ratchet: Ratchet, prekeys: Option<LocalPrekeys>, msg: InboxMsg): Option<Rows> {
    if Inbox(msg.id) in rows || InboxFull(h, rows, msg.sender) then None
    else
      match Write(h, rows, Session(msg.sender), SessionV(ratchet))
      case None => None
      case Some(r1) =>
        match WritePrekeys(h, r1, prekeys)
        case None => None
        case Some(r2) => Write(h, r2, Inbox(msg.id), InboxV(msg))
  }

  /** A delivery receipt names the message and who stored it for whom; signatures are not forged. */
  datatype DeliveryReceipt = DeliveryReceipt(id: MsgId, recipient: Identity, sender: Identity)

  ghost function MarkDelivered(h: Host, rows: Rows, self: Identity, receipt: DeliveryReceipt, now: int): Option<Rows> {
    var name := Queue(receipt.id);
    if name !in rows || !rows[name].ItemV? || receipt.sender != self || receipt.recipient != rows[name].item.recipient then None
    else
      match Write(h, rows, Receipt(receipt.id), ReceiptV(now))
      case None => None
      case Some(r1) => Write(h, r1, name, ItemV(rows[name].item.(delivered := true)))
  }

  function Backoff(attempts: nat): int {
    if attempts >= 6 then 1_800_000 else [30_000, 60_000, 120_000, 240_000, 480_000, 960_000][attempts]
  }

  ghost function MarkAttempt(h: Host, rows: Rows, id: MsgId, now: int): Option<Rows> {
    if !PendingRow(rows, Queue(id)) then None
    else
      var item := rows[Queue(id)].item;
      Write(h, rows, Queue(id), ItemV(item.(attempts := item.attempts + 1, nextAttemptAt := now + Backoff(item.attempts))))
  }

  // ---- Retention ----

  predicate DisposableItem(rows: Rows, n: Name, cutoff: int) {
    && n in rows && n.Queue? && rows[n].ItemV? && rows[n].item.delivered && rows[n].item.envelope.Some?
    && Receipt(n.id) in rows && rows[Receipt(n.id)].ReceiptV? && rows[Receipt(n.id)].verifiedAt <= cutoff
  }

  predicate DisposableMsg(rows: Rows, n: Name, cutoff: int) {
    && n in rows && n.Inbox? && rows[n].InboxV? && !rows[n].msg.expired && rows[n].msg.receivedAt <= cutoff
    && (rows[n].msg.payload.contentType.Text?
        || (rows[n].msg.payload.contentType.AgentCapabilities? && CapabilitySeen(n.id) in rows))
  }

  function EmptiedItem(item: Item): Item {
    item.(envelope := None)
  }

  function EmptiedMsg(msg: InboxMsg): InboxMsg {
    msg.(payload := Payload(Text, ""), expired := true)
  }

  function CompactRow(rows: Rows, n: Name, cutoff: int): Value
    requires n in rows
  {
    if DisposableItem(rows, n, cutoff) then ItemV(EmptiedItem(rows[n].item))
    else if DisposableMsg(rows, n, cutoff) then InboxV(EmptiedMsg(rows[n].msg))
    else rows[n]
  }

  function Compact(rows: Rows, cutoff: int): Rows {
    map n | n in rows :: CompactRow(rows, n, cutoff)
  }

  function Retain(h: Host, rows: Rows, now: int): Rows {
    if h.limits.None? then rows else Compact(rows, now - h.limits.value.retentionMs)
  }

  /** An emptied record never encodes longer than the full one. */
  ghost predicate EmptyingShrinks(z: Sizes<Name, Value>) {
    && (forall i: Item {:trigger EmptiedItem(i)} :: z.valueLen(ItemV(EmptiedItem(i))) <= z.valueLen(ItemV(i)))
    && (forall m: InboxMsg {:trigger EmptiedMsg(m)} :: z.valueLen(InboxV(EmptiedMsg(m))) <= z.valueLen(InboxV(m)))
  }

  // ---- The counts never pass their caps ----

  /** `rows` is within every count limit, given what `base` held when the limits were set. */
  ghost predicate CountsWithin(l: Limits, base: Rows, rows: Rows) {
    && |Pending(rows)| <= Cap(l.pending, |Pending(base)|)
    && |Live(rows)| <= Cap(l.inbox, |Live(base)|)
    && (forall p :: |PendingFor(rows, p)| <= Cap(l.pendingPerPeer, |PendingFor(base, p)|))
    && (forall p :: |LiveFrom(rows, p)| <= Cap(l.inboxPerPeer, |LiveFrom(base, p)|))
  }

  /** No row becomes pending, or live, that was not so before for the same peer. */
  ghost predicate NoNewWork(rows: Rows, after: Rows) {
    && (forall n :: PendingRow(after, n) ==> PendingRow(rows, n) && rows[n].item.recipient == after[n].item.recipient)
    && (forall n :: LiveRow(after, n) ==> LiveRow(rows, n) && rows[n].msg.sender == after[n].msg.sender)
  }

  lemma NoNewWorkCounts(l: Limits, base: Rows, rows: Rows, after: Rows)
    requires CountsWithin(l, base, rows) && NoNewWork(rows, after)
    ensures CountsWithin(l, base, after)
  {
    SubsetSize(Pending(after), Pending(rows));
    SubsetSize(Live(after), Live(rows));
    forall p ensures |PendingFor(after, p)| <= |PendingFor(rows, p)| && |LiveFrom(after, p)| <= |LiveFrom(rows, p)| {
      SubsetSize(PendingFor(after, p), PendingFor(rows, p));
      SubsetSize(LiveFrom(after, p), LiveFrom(rows, p));
    }
  }

  lemma OneMorePending(l: Limits, base: Rows, rows: Rows, item: Item)
    requires CountsWithin(l, base, rows) && Queue(item.id) !in rows
    requires |Pending(rows)| < l.pending && |PendingFor(rows, item.recipient)| < l.pendingPerPeer
    ensures CountsWithin(l, base, rows[Queue(item.id) := ItemV(item)])
  {
    var after := rows[Queue(item.id) := ItemV(item)];
    QueueRowSets(rows, item, after, item.recipient);
    SubsetSize(Pending(after), Pending(rows) + {Queue(item.id)});
    forall p
      ensures |PendingFor(after, p)| <= Cap(l.pendingPerPeer, |PendingFor(base, p)|)
      ensures |LiveFrom(after, p)| <= Cap(l.inboxPerPeer, |LiveFrom(base, p)|)
    {
      QueueRowSets(rows, item, after, p);
      if p == item.recipient {
        SubsetSize(PendingFor(after, p), PendingFor(rows, p) + {Queue(item.id)});
      } else {
        SubsetSize(PendingFor(after, p), PendingFor(rows, p));
      }
    }
  }

  /** A new queue row is live nowhere, and pending only for its recipient. */
  lemma QueueRowSets(rows: Rows, item: Item, after: Rows, p: Identity)
    requires Queue(item.id) !in rows && after == rows[Queue(item.id) := ItemV(item)]
    ensures Live(after) == Live(rows) && LiveFrom(after, p) == LiveFrom(rows, p)
    ensures Pending(after) <= Pending(rows) + {Queue(item.id)}
    ensures PendingFor(after, p) <= if p == item.recipient then PendingFor(rows, p) + {Queue(item.id)} else PendingFor(rows, p)
  {
  }

  lemma OneMoreLive(l: Limits, base: Rows, rows: Rows, msg: InboxMsg)
    requires CountsWithin(l, base, rows) && Inbox(msg.id) !in rows
    requires |Live(rows)| < l.inbox && |LiveFrom(rows, msg.sender)| < l.inboxPerPeer
    ensures CountsWithin(l, base, rows[Inbox(msg.id) := InboxV(msg)])
  {
    var after := rows[Inbox(msg.id) := InboxV(msg)];
    InboxRowSets(rows, msg, after, msg.sender);
    SubsetSize(Live(after), Live(rows) + {Inbox(msg.id)});
    forall p
      ensures |PendingFor(after, p)| <= Cap(l.pendingPerPeer, |PendingFor(base, p)|)
      ensures |LiveFrom(after, p)| <= Cap(l.inboxPerPeer, |LiveFrom(base, p)|)
    {
      InboxRowSets(rows, msg, after, p);
      if p == msg.sender {
        SubsetSize(LiveFrom(after, p), LiveFrom(rows, p) + {Inbox(msg.id)});
      } else {
        SubsetSize(LiveFrom(after, p), LiveFrom(rows, p));
      }
    }
  }

  /** A new inbox row is pending nowhere, and live only for its sender. */
  lemma InboxRowSets(rows: Rows, msg: InboxMsg, after: Rows, p: Identity)
    requires Inbox(msg.id) !in rows && after == rows[Inbox(msg.id) := InboxV(msg)]
    ensures Pending(after) == Pending(rows) && PendingFor(after, p) == PendingFor(rows, p)
    ensures Live(after) <= Live(rows) + {Inbox(msg.id)}
    ensures LiveFrom(after, p) <= if p == msg.sender then LiveFrom(rows, p) + {Inbox(msg.id)} else LiveFrom(rows, p)
  {
  }

  /** Every operation that touches the durable state, with the arguments its environment supplies. */
  datatype Op =
    | Send(ratchet: Ratchet, item: Item, meta: Option<seq<(string, nat)>>)
    | Receive(ratchet: Ratchet, prekeys: Option<LocalPrekeys>, msg: InboxMsg)
    | Delivered(self: Identity, receipt: DeliveryReceipt, now: int)
    | Attempted(id: MsgId, now: int)
    | Compacted(now: int)

  ghost function Attempt(h: Host, rows: Rows, op: Op): Option<Rows> {
    match op
    case Send(ratchet, item, meta) => CommitSend(h, rows, ratchet, item, meta)
    case Receive(ratchet, prekeys, msg) => CommitReceive(h, rows, ratchet, prekeys, msg)
    case Delivered(self, receipt, now) => MarkDelivered(h, rows, self, receipt, now)
    case Attempted(id, now) => MarkAttempt(h, rows, id, now)
    case Compacted(now) => Some(Retain(h, rows, now))
  }

  /** A transaction that throws leaves the rows as they were. */
  ghost function Do(h: Host, rows: Rows, op: Op): Rows {
    var after := Attempt(h, rows, op);
    if after.Some? then after.value else rows
  }

  ghost function DoAll(h: Host, rows: Rows, ops: seq<Op>): Rows
    decreases |ops|
  {
    if ops == [] then rows else DoAll(h, Do(h, rows, ops[0]), ops[1..])
  }

  /** Rows other than queue items and inbox entries do not count. */
  lemma PlainWriteCounts(l: Limits, base: Rows, rows: Rows, n: Name, v: Value)
    requires CountsWithin(l, base, rows) && !n.Queue? && !n.Inbox?
    ensures CountsWithin(l, base, rows[n := v])
    ensures Pending(rows[n := v]) == Pending(rows) && Live(rows[n := v]) == Live(rows)
    ensures forall p :: LiveFrom(rows[n := v], p) == LiveFrom(rows, p)
  {
    NoNewWorkCounts(l, base, rows, rows[n := v]);
  }

  lemma {:induction false} MetaCounts(h: Host, l: Limits, base: Rows, rows: Rows, writes: seq<(string, nat)>)
    requires CountsWithin(l, base, rows) && WriteMeta(h, rows, writes).Some?
    ensures CountsWithin(l, base, WriteMeta(h, rows, writes).value)
    decreases |writes|
  {
    if writes != [] {
      PlainWriteCounts(l, base, rows, Meta(writes[0].0), Opaque(writes[0].1));
      MetaCounts(h, l, base, rows[Meta(writes[0].0) := Opaque(writes[0].1)], writes[1..]);
    }
  }

  lemma EnqueueCounts(h: Host, base: Rows, rows: Rows, item: Item)
    requires h.limits.Some? && CountsWithin(h.limits.value, base, rows) && Enqueue(h, rows, item).Some?
    ensures CountsWithin(h.limits.value, base, Enqueue(h, rows, item).value)
  {
    OneMorePending(h.limits.value, base, rows, item);
  }

  lemma SendCounts(h: Host, base: Rows, rows: Rows, ratchet: Ratchet, item: Item, meta: Option<seq<(string, nat)>>)
    requires h.limits.Some? && CountsWithin(h.limits.value, base, rows) && CommitSend(h, rows, ratchet, item, meta).Some?
    ensures CountsWithin(h.limits.value, base, CommitSend(h, rows, ratchet, item, meta).value)
  {
    var r1 := Write(h, rows, Session(item.recipient), SessionV(ratchet)).value;
    PlainWriteCounts(h.limits.value, base, rows, Session(item.recipient), SessionV(ratchet));
    EnqueueCounts(h, base, r1, item);
    MetaCounts(h, h.limits.value, base, Enqueue(h, r1, item).value, meta.value);
  }

  lemma ReceiveCounts(h: Host, base: Rows, rows: Rows, ratchet: Ratchet, prekeys: Option<LocalPrekeys>, msg: InboxMsg)
    requires h.limits.Some? && CountsWithin(h.limits.value, base, rows) && CommitReceive(h, rows, ratchet, prekeys, msg).Some?
    ensures CountsWithin(h.limits.value, base, CommitReceive(h, rows, ratchet, prekeys, msg).value)
  {
    var l := h.limits.value;
    var r1 := Write(h, rows, Session(msg.sender), SessionV(ratchet)).value;
    PlainWriteCounts(l, base, rows, Session(msg.sender), SessionV(ratchet));
    if prekeys.Some? {
      PlainWriteCounts(l, base, r1, Prekeys, PrekeysV(prekeys.value));
    }
    OneMoreLive(l, base, WritePrekeys(h, r1, prekeys).value, msg);
  }

  /** From the moment limits are set, whatever operations run and whichever of them fail, the
      pending items, the pending items of each peer, the live inbox and the live inbox of each peer
      stay at or below the larger of their limit and their number at that moment. */
  lemma {:induction false} CountCapsHold(h: Host, base: Rows, rows: Rows, ops: seq<Op>)
    requires h.limits.Some? && CountsWithin(h.limits.value, base, rows)
    ensures CountsWithin(h.limits.value, base, DoAll(h, rows, ops))
    decreases |ops|
  {
    if ops != [] {
      if Attempt(h, rows, ops[0]).Some? {
        match ops[0] {
          case Send(ratchet, item, meta) => SendCounts(h, base, rows, ratchet, item, meta);
          case Receive(ratchet, prekeys, msg) => ReceiveCounts(h, base, rows, ratchet, prekeys, msg);
          case Delivered(self, receipt, now) => NoNewWorkCounts(h.limits.value, base, rows, Do(h, rows, ops[0]));
          case Attempted(id, now) => NoNewWorkCounts(h.limits.value, base, rows, Do(h, rows, ops[0]));
          case Compacted(now) => NoNewWorkCounts(h.limits.value, base, rows, Do(h, rows, ops[0]));
        }
      }
      CountCapsHold(h, base, Do(h, rows, ops[0]), ops[1..]);
    }
  }

  lemma CountCaps(h: Host, rows: Rows, ops: seq<Op>)
    requires h.limits.Some?
    ensures CountsWithin(h.limits.value, rows, DoAll(h, rows, ops))
  {
    CountCapsHold(h, rows, rows, ops);
  }

  // ---- The byte and record budget, over the same operations ----

  lemma {:induction false} SumShrinks(z: Sizes<Name, Value>, rows: Rows, after: Rows, names: set<Name>)
    requires names <= rows.Keys && names <= after.Keys
    requires forall n :: n in names ==> z.valueLen(after[n]) <= z.valueLen(rows[n])
    ensures SumBytes(z, after, names) <= SumBytes(z, rows, names)
    decreases |names|
  {
    if names != {} {
      var k :| k in names;
      SumSplit(z, rows, names, k);
      SumSplit(z, after, names, k);
      SumShrinks(z, rows, after, names - {k});
    }
  }

  lemma CompactRowShrinks(z: Sizes<Name, Value>, rows: Rows, n: Name, cutoff: int)
    requires EmptyingShrinks(z) && n in rows
    ensures z.valueLen(CompactRow(rows, n, cutoff)) <= z.valueLen(rows[n])
  {
  }

  lemma CompactShrinks(z: Sizes<Name, Value>, rows: Rows, cutoff: int)
    requires EmptyingShrinks(z)
    ensures Bytes(z, Compact(rows, cutoff)) <= Bytes(z, rows) && |Compact(rows, cutoff)| == |rows|
  {
    var after := Compact(rows, cutoff);
    assert after.Keys == rows.Keys;
    SumShrinks(z, rows, after, rows.Keys);
  }

  lemma {:induction false} MetaWithin(h: Host, rows: Rows, atSet: Budget, writes: seq<(string, nat)>)
    requires h.limits.Some? && Within(h.sizes, rows, BudgetOf(h).value, atSet) && WriteMeta(h, rows, writes).Some?
    ensures Within(h.sizes, WriteMeta(h, rows, writes).value, BudgetOf(h).value, atSet)
    decreases |writes|
  {
    if writes != [] {
      WriteWithin(h, rows, atSet, Meta(writes[0].0), Opaque(writes[0].1));
      MetaWithin(h, Write(h, rows, Meta(writes[0].0), Opaque(writes[0].1)).value, atSet, writes[1..]);
    }
  }

  lemma WriteWithin(h: Host, rows: Rows, atSet: Budget, n: Name, v: Value)
    requires h.limits.Some? && Within(h.sizes, rows, BudgetOf(h).value, atSet)
    ensures Write(h, rows, n, v).Some? ==> Within(h.sizes, Write(h, rows, n, v).value, BudgetOf(h).value, atSet)
  {
    if Write(h, rows, n, v).Some? {
      PutWithin(h.sizes, rows, BudgetOf(h).value, atSet, n, v);
    }
  }

  lemma SendWithin(h: Host, rows: Rows, atSet: Budget, ratchet: Ratchet, item: Item, meta: Option<seq<(string, nat)>>)
    requires h.limits.Some? && Within(h.sizes, rows, BudgetOf(h).value, atSet)
    requires CommitSend(h, rows, ratchet, item, meta).Some?
    ensures Within(h.sizes, CommitSend(h, rows, ratchet, item, meta).value, BudgetOf(h).value, atSet)
  {
    WriteWithin(h, rows, atSet, Session(item.recipient), SessionV(ratchet));
    var r1 := Write(h, rows, Session(item.recipient), SessionV(ratchet)).value;
    WriteWithin(h, r1, atSet, Queue(item.id), ItemV(item));
    MetaWithin(h, Enqueue(h, r1, item).value, atSet, meta.value);
  }

  lemma ReceiveWithin(h: Host, rows: Rows, atSet: Budget, ratchet: Ratchet, prekeys: Option<LocalPrekeys>, msg: InboxMsg)
    requires h.limits.Some? && Within(h.sizes, rows, BudgetOf(h).value, atSet)
    requires CommitReceive(h, rows, ratchet, prekeys, msg).Some?
    ensures Within(h.sizes, CommitReceive(h, rows, ratchet, prekeys, msg).value, BudgetOf(h).value, atSet)
  {
    WriteWithin(h, rows, atSet, Session(msg.sender), SessionV(ratchet));
    var r1 := Write(h, rows, Session(msg.sender), SessionV(ratchet)).value;
    if prekeys.Some? {
      WriteWithin(h, r1, atSet, Prekeys, PrekeysV(prekeys.value));
    }
    WriteWithin(h, WritePrekeys(h, r1, prekeys).value, atSet, Inbox(msg.id), InboxV(msg));
  }

  lemma DeliveredWithin(h: Host, rows: Rows, atSet: Budget, self: Identity, receipt: DeliveryReceipt, now: int)
    requires h.limits.Some? && Within(h.sizes, rows, BudgetOf(h).value, atSet)
    requires MarkDelivered(h, rows, self, receipt, now).Some?
    ensures Within(h.sizes, MarkDelivered(h, rows, self, receipt, now).value, BudgetOf(h).value, atSet)
  {
    WriteWithin(h, rows, atSet, Receipt(receipt.id), ReceiptV(now));
    var r1 := Write(h, rows, Receipt(receipt.id), ReceiptV(now)).value;
    WriteWithin(h, r1, atSet, Queue(receipt.id), ItemV(rows[Queue(receipt.id)].item.(delivered := true)));
  }

  lemma AttemptedWithin(h: Host, rows: Rows, atSet: Budget, id: MsgId, now: int)
    requires h.limits.Some? && Within(h.sizes, rows, BudgetOf(h).value, atSet)
    requires MarkAttempt(h, rows, id, now).Some?
    ensures Within(h.sizes, MarkAttempt(h, rows, id, now).value, BudgetOf(h).value, atSet)
  {
    var item := rows[Queue(id)].item;
    WriteWithin(h, rows, atSet, Queue(id),
                ItemV(item.(attempts := item.attempts + 1, nextAttemptAt := now + Backoff(item.attempts))));
  }

  lemma OpWithin(h: Host, rows: Rows, atSet: Budget, op: Op, after: Option<Rows>)
    requires h.limits.Some? && EmptyingShrinks(h.sizes) && Within(h.sizes, rows, BudgetOf(h).value, atSet)
    requires after == Attempt(h, rows, op)
    ensures after.Some? ==> Within(h.sizes, after.value, BudgetOf(h).value, atSet)
  {
    if after.Some? {
      match op {
        case Send(ratchet, item, meta) => SendWithin(h, rows, atSet, ratchet, item, meta);
        case Receive(ratchet, prekeys, msg) => ReceiveWithin(h, rows, atSet, ratchet, prekeys, msg);
        case Delivered(self, receipt, now) => DeliveredWithin(h, rows, atSet, self, receipt, now);
        case Attempted(id, now) => AttemptedWithin(h, rows, atSet, id, now);
        case Compacted(now) => CompactShrinks(h.sizes, rows, now - h.limits.value.retentionMs);
      }
    }
  }

  /** The same caps for bytes and records, over the client's own operations. */
  lemma {:induction false} BudgetCapsHold(h: Host, rows: Rows, atSet: Budget, ops: seq<Op>)
    requires h.limits.Some? && EmptyingShrinks(h.sizes) && Within(h.sizes, rows, BudgetOf(h).value, atSet)
    ensures Within(h.sizes, DoAll(h, rows, ops), BudgetOf(h).value, atSet)
    decreases |ops|
  {
    if ops != [] {
      OpWithin(h, rows, atSet, ops[0], Attempt(h, rows, ops[0]));
      BudgetCapsHold(h, Do(h, rows, ops[0]), atSet, ops[1..]);
    }
  }

  // ---- The object ----

  /** Midway through retention: the rows in `rest` are still to be visited. */
  ghost predicate Visited(before: Rows, rows: Rows, rest: set<Name>, cutoff: int, n: Name) {
    n in before ==> n in rows && rows[n] == if n in rest then before[n] else CompactRow(before, n, cutoff)
  }

  ghost predicate PartlyCompacted(before: Rows, rows: Rows, rest: set<Name>, cutoff: int) {
    rows.Keys == before.Keys && forall n :: Visited(before, rows, rest, cutoff, n)
  }

  /** Compacting some rows does not change the verdict on the others. */
  lemma SameVerdict(before: Rows, rows: Rows, rest: set<Name>, cutoff: int, n: Name)
    requires PartlyCompacted(before, rows, rest, cutoff) && n in rest && n in before
    ensures rows[n] == before[n] && CompactRow(rows, n, cutoff) == CompactRow(before, n, cutoff)
  {
    assert Visited(before, rows, rest, cutoff, n);
    if n.Queue? {
      assert Visited(before, rows, rest, cutoff, Receipt(n.id));
    }
  }

  lemma PartlyStep(before: Rows, rows: Rows, rest: set<Name>, cutoff: int, n: Name)
    requires PartlyCompacted(before, rows, rest, cutoff) && n in rest && n in before
    ensures PartlyCompacted(before, rows[n := CompactRow(before, n, cutoff)], rest - {n}, cutoff)
  {
    var rows' := rows[n := CompactRow(before, n, cutoff)];
    var rest' := rest - {n};
    forall k ensures Visited(before, rows', rest', cutoff, k) {
      assert Visited(before, rows, rest, cutoff, k);
    }
  }

  lemma PartlyAll(before: Rows, rows: Rows, cutoff: int)
    requires PartlyCompacted(before, rows, {}, cutoff)
    ensures rows == Compact(before, cutoff)
  {
    forall n | n in rows ensures rows[n] == CompactRow(before, n, cutoff) {
      assert Visited(before, rows, {}, cutoff, n);
    }
  }

  class PersistentDmState {
    const store: Store<Name, Value>
    var limits: Option<Limits>

    ghost function TheHost(): Host
      reads this
    {
      Host(store.sizes, limits)
    }

    ghost predicate Valid()
      reads this, store
    {
      store.budget == BudgetOf(TheHost())
    }

    constructor (store: Store<Name, Value>)
      requires store.budget == None
      ensures this.store == store && limits == None && Valid()
    {
      this.store := store;
      limits := None;
    }

    method ConfigureLimits(l: Limits) returns (ok: bool)
      requires Valid()
      modifies this, store`budget
      ensures Valid()
      ensures ok <==> l.bytes >= 1 && l.records >= 1 && l.pending >= 1 && l.pendingPerPeer >= 1 &&
                      l.inbox >= 1 && l.inboxPerPeer >= 1 && l.retentionMs >= 1
      ensures limits == if ok then Some(l) else old(limits)
    {
      ok := l.bytes >= 1 && l.records >= 1 && l.pending >= 1 && l.pendingPerPeer >= 1 &&
            l.inbox >= 1 && l.inboxPerPeer >= 1 && l.retentionMs >= 1;
      if ok {
        limits := Some(l);
        var accepted := store.SetLimits(l.bytes, l.records);
      }
    }

    /** A write that is no longer than the row it replaces is never refused. */
    method ShrinkRow(n: Name, v: Value)
      requires Valid() && n in store.rows && store.sizes.valueLen(v) <= store.sizes.valueLen(store.rows[n])
      modifies store`rows
      ensures Valid() && store.rows == old(store.rows)[n := v]
    {
      var ok := store.PutRow(n, v);
    }

    method VisitRow(n: Name, cutoff: int, ghost before: Rows, ghost rest: set<Name>)
      requires Valid() && EmptyingShrinks(store.sizes)
      requires PartlyCompacted(before, store.rows, rest, cutoff) && n in rest && n in before
      modifies store`rows
      ensures Valid() && PartlyCompacted(before, store.rows, rest - {n}, cutoff)
    {
      ghost var rows := store.rows;
      SameVerdict(before, rows, rest, cutoff, n);
      CompactRowShrinks(store.sizes, rows, n, cutoff);
      if DisposableItem(store.rows, n, cutoff) || DisposableMsg(store.rows, n, cutoff) {
        ShrinkRow(n, CompactRow(store.rows, n, cutoff));
      }
      assert store.rows == rows[n := CompactRow(before, n, cutoff)];
      PartlyStep(before, rows, rest, cutoff, n);
    }

    /** Row by row, each write smaller than the row it replaces, so that none can be refused. */
    method RetainRows(now: int)
      requires Valid() && EmptyingShrinks(store.sizes)
      modifies store`rows
      ensures Valid() && store.rows == Retain(TheHost(), old(store.rows), now)
    {
      if limits.None? {
        return;
      }
      var cutoff := now - limits.value.retentionMs;
      ghost var before := store.rows;
      var rest := store.rows.Keys;
      while rest != {}
        invariant Valid() && rest <= before.Keys
        invariant PartlyCompacted(before, store.rows, rest, cutoff)
        decreases |rest|
      {
        var n :| n in rest;
        VisitRow(n, cutoff, before, rest);
        rest := rest - {n};
      }
      PartlyAll(before, store.rows, cutoff);
    }

    method EnqueueItem(item: Item) returns (ok: bool)
      requires Valid()
      modifies store`rows
      ensures Valid() && ok == Enqueue(TheHost(), old(store.rows), item).Some?
      ensures store.rows == if ok then Enqueue(TheHost(), old(store.rows), item).value else old(store.rows)
    {
      if Queue(item.id) in store.rows {
        return false;
      }
      if limits.Some? && (|Pending(store.rows)| >= limits.value.pending ||
                          |PendingFor(store.rows, item.recipient)| >= limits.value.pendingPerPeer) {
        return false;
      }
      ok := store.PutRow(Queue(item.id), ItemV(item));
    }

    method CommitSendTx(ratchet: Ratchet, item: Item, meta: Option<seq<(string, nat)>>) returns (ok: bool)
      requires Valid()
      modifies store`rows
      ensures Valid() && ok == CommitSend(TheHost(), old(store.rows), ratchet, item, meta).Some?
      ensures store.rows == if ok then CommitSend(TheHost(), old(store.rows), ratchet, item, meta).value else old(store.rows)
    {
      var saved := store.rows;
      ok := store.PutRow(Session(item.recipient), SessionV(ratchet));
      if ok {
        ok := EnqueueItem(item);
      }
      if ok {
        ok := meta.Some?;
      }
      if ok {
        ghost var r2 := store.rows;
        var i := 0;
        while i < |meta.value| && ok
          invariant 0 <= i <= |meta.value| && Valid()
          invariant WriteMeta(TheHost(), r2, meta.value) ==
                    if ok then WriteMeta(TheHost(), store.rows, meta.value[i..]) else None
        {
          ok := store.PutRow(Meta(meta.value[i].0), Opaque(meta.value[i].1));
          i := i + 1;
        }
      }
      if !ok {
        store.rows := saved;
      }
    }

    method CommitReceiveTx(ratchet: Ratchet, prekeys: Option<LocalPrekeys>, msg: InboxMsg) returns (ok: bool)
      requires Valid()
      modifies store`rows
      ensures Valid() && ok == CommitReceive(TheHost(), old(store.rows), ratchet, prekeys, msg).Some?
      ensures store.rows == if ok then CommitReceive(TheHost(), old(store.rows), ratchet, prekeys, msg).value else old(store.rows)
    {
      var saved := store.rows;
      if Inbox(msg.id) in store.rows {
        return false;
      }
      if limits.Some? && (|Live(store.rows)| >= limits.value.inbox ||
                          |LiveFrom(store.rows, msg.sender)| >= limits.value.inboxPerPeer) {
        return false;
      }
      ok := store.PutRow(Session(msg.sender), SessionV(ratchet));
      if ok && prekeys.Some? {
        ok := store.PutRow(Prekeys, PrekeysV(prekeys.value));
      }
      if ok {
        ok := store.PutRow(Inbox(msg.id), InboxV(msg));
      }
      if !ok {
        store.rows := saved;
      }
    }

    method MarkDeliveredTx(self: Identity, receipt: DeliveryReceipt, now: int) returns (ok: bool)
      requires Valid()
      modifies store`rows
      ensures Valid() && ok == MarkDelivered(TheHost(), old(store.rows), self, receipt, now).Some?
      ensures store.rows == if ok then MarkDelivered(TheHost(), old(store.rows), self, receipt, now).value else old(store.rows)
    {
      var saved := store.rows;
      var name := Queue(receipt.id);
      if name !in store.rows || !store.rows[name].ItemV? {
        return false;
      }
      var item := store.rows[name].item;
      if receipt.sender != self || receipt.recipient != item.recipient {
        return false;
      }
      ok := store.PutRow(Receipt(receipt.id), ReceiptV(now));
      if ok {
        ok := store.PutRow(name, ItemV(item.(delivered := true)));
      }
      if !ok {
        store.rows := saved;
      }
    }
  }
}
