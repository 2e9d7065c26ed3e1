/**
 Sending and receiving direct messages on a persistent client, packages/client/src/dm.ts.

 A receive is staged: the session is a copy, the prekey material is a copy, and nothing is
 stored unless decryption succeeds and the whole transaction fits. A send commits ratchet,
 queue item and metadata before anything is transmitted.
 */
module DirectMessages {
  import opened Basics
  import opened Symbolic
  import opened DoubleRatchet
  import opened X3dh
  import opened PersistentClient

  function AadFor(sender: Identity, recipient: Identity): Aad {
    Aad(ConversationOf(sender, recipient), sender, recipient)
  }

  predicate HasSession(rows: Rows, peer: Identity) {
    Session(peer) in rows && rows[Session(peer)].SessionV?
  }

  predicate HasPrekeys(rows: Rows) {
    Prekeys in rows && rows[Prekeys].PrekeysV?
  }

  datatype SendResult = SendFailed | SentOk(rows: Rows, envelope: Envelope)

  /** The random choices of a send: message id, X3DH ephemeral, ratchet key and nonce. */
  datatype Draw = Draw(id: MsgId, ephemeral: KeyId, ratchetKey: KeyId, nonce: nat)

  /** The advanced session and the envelope, neither stored yet. */
  datatype Prepared = NotPrepared | Prepared(st: Ratchet, envelope: Envelope)

  function Prepare(self: Identity, rows: Rows, recipient: Identity, payload: Payload, bundle: Option<Bundle>, draw: Draw): Prepared {
    var aad := AadFor(self, recipient);
    if HasSession(rows, recipient) then
      match Seal(rows[Session(recipient)].ratchet, payload, aad, draw.nonce)
      case Err(_) => NotPrepared
      case Ok((st, blob)) => Prepared(st, Envelope(draw.id, self, recipient, Later(Frame(blob))))
    else if !HasPrekeys(rows) || bundle.None? then NotPrepared
    else
      var local := rows[Prekeys].prekeys;
      match Initiate(local.identityDh, bundle.value, draw.ephemeral)
      case InvalidSignature => NotPrepared
      case Initiated(sk, ephemeral, usedId) =>
        match Seal(InitInitiator(sk, draw.ratchetKey), payload, aad, draw.nonce)
        case Err(_) => NotPrepared
        case Ok((st, blob)) =>
          Prepared(st, Envelope(draw.id, self, recipient, First(local.identityDh, ephemeral, WireId(usedId), Frame(blob))))
  }

  function ItemFor(envelope: Envelope): Item {
    Item(envelope.id, envelope.recipient, Some(envelope), 0, 0, false)
  }

  ghost function SendDm(h: Host, self: Identity, rows: Rows, recipient: Identity, payload: Payload,
                        bundle: Option<Bundle>, draw: Draw, meta: Option<seq<(string, nat)>>): SendResult {
    match Prepare(self, rows, recipient, payload, bundle, draw)
    case NotPrepared => SendFailed
    case Prepared(st, envelope) =>
      match CommitSend(h, rows, st, ItemFor(envelope), meta)
      case None => SendFailed
      case Some(after) => SentOk(after, envelope)
  }

  lemma {:induction false} MetaRows(h: Host, rows: Rows, writes: seq<(string, nat)>)
    requires WriteMeta(h, rows, writes).Some?
    ensures var after := WriteMeta(h, rows, writes).value;
            forall n: Name :: !n.Meta? ==> (n in after <==> n in rows) && (n in rows ==> after[n] == rows[n])
    decreases |writes|
  {
    if writes != [] {
      MetaRows(h, rows[Meta(writes[0].0) := Opaque(writes[0].1)], writes[1..]);
    }
  }

  /** What a committed send changed besides metadata: the session of the recipient and one new queue row. */
  ghost predicate SentChange(rows: Rows, after: Rows, st: Ratchet, item: Item) {
    && Queue(item.id) !in rows
    && (forall n: Name :: !n.Meta? ==>
          (n in after <==> n in rows || n == Session(item.recipient) || n == Queue(item.id)))
    && after[Session(item.recipient)] == SessionV(st)
    && after[Queue(item.id)] == ItemV(item)
    && (forall n: Name :: !n.Meta? && n in rows && n != Session(item.recipient) ==> after[n] == rows[n])
  }

  lemma CommitSendChange(h: Host, rows: Rows, st: Ratchet, item: Item, meta: Option<seq<(string, nat)>>)
    requires CommitSend(h, rows, st, item, meta).Some?
    ensures SentChange(rows, CommitSend(h, rows, st, item, meta).value, st, item)
  {
    var r2 := rows[Session(item.recipient) := SessionV(st)][Queue(item.id) := ItemV(item)];
    MetaRows(h, r2, meta.value);
  }

  // ---- Receiving ----

  /** The staged copy a receive works on: a session, and the prekeys to store with it if one was spent. */
  datatype Staged = NotForUs | BadPrekey | Staged(st: Ratchet, spent: Option<LocalPrekeys>, frame: Wire)

  function Stage(rows: Rows, env: Envelope, responderKey: KeyId): Staged {
    if HasSession(rows, env.sender) then Staged(rows[Session(env.sender)].ratchet, None, env.body.frame)
    else if env.body.Later? || !HasPrekeys(rows) then NotForUs
    else
      var local := rows[Prekeys].prekeys;
      var usedId := FromWireId(env.body.otpId);
      match Respond(local, env.body.identityDh, env.body.ephemeral, usedId)
      case UnknownOneTimeKey => BadPrekey
      case Responded(sk, oneTime) =>
        Staged(InitResponder(sk, responderKey), if usedId.Some? then Some(local.(oneTime := oneTime)) else None, env.body.frame)
  }

  /** Acknowledged: already stored, so only the receipt is sent again. */
  datatype ReceiveResult = Dropped | Refused | Acknowledged | Stored(rows: Rows, payload: Payload)

  ghost function ReceiveDm(h: Host, self: Identity, rows: Rows, env: Envelope,
                           responderKey: KeyId, turnKey: KeyId, now: int): ReceiveResult {
    if Inbox(env.id) in rows then Acknowledged
    else
      match Stage(rows, env, responderKey)
      case NotForUs => Dropped
      case BadPrekey => Refused
      case Staged(st, spent, frame) =>
        var out := Open(st, frame, AadFor(env.sender, self), turnKey);
        if out.result.Err? then Refused
        else
          match CommitReceive(h, rows, out.state, spent, InboxMsg(env.id, env.sender, out.result.value, now, false))
          case None => Refused
          case Some(after) => Stored(after, out.result.value)
  }

  /** The whole handler: retention first, then the staged receive. */
  ghost function HandleDm(h: Host, self: Identity, rows: Rows, env: Envelope,
                          responderKey: KeyId, turnKey: KeyId, now: int): Rows {
    var kept := Retain(h, rows, now);
    var out := ReceiveDm(h, self, kept, env, responderKey, turnKey, now);
    if out.Stored? then out.rows else kept
  }

  /** Retention touches no session, no prekey and no host metadata, and loses no record. */
  lemma RetainKeepsKeys(h: Host, rows: Rows, now: int)
    ensures var kept := Retain(h, rows, now);
            && kept.Keys == rows.Keys
            && (forall n :: n in rows && !n.Queue? && !n.Inbox? ==> kept[n] == rows[n])
  {
  }

  /** What a stored message changed: its session, the prekeys if one was spent, and its inbox row. */
  lemma StoredRows(h: Host, self: Identity, rows: Rows, env: Envelope, responderKey: KeyId, turnKey: KeyId, now: int)
    requires ReceiveDm(h, self, rows, env, responderKey, turnKey, now).Stored?
    ensures var out := ReceiveDm(h, self, rows, env, responderKey, turnKey, now);
            var staged := Stage(rows, env, responderKey);
            && staged.Staged? && Inbox(env.id) !in rows
            && var out2 := Open(staged.st, staged.frame, AadFor(env.sender, self), turnKey);
            && out2.result == Ok(out.payload)
            && out.rows == (rows[Session(env.sender) := SessionV(out2.state)]
                              + (if staged.spent.Some? then map[Prekeys := PrekeysV(staged.spent.value)] else map[]))
                             [Inbox(env.id) := InboxV(InboxMsg(env.id, env.sender, out.payload, now, false))]
  {
  }

  // ---- One-time prekeys over every run of a receiving device ----

  /** A device and, in the order they happened, the one-time prekeys its installed sessions spent. */
  datatype Office = Office(rows: Rows, spent: seq<nat>)

  /** Any envelope from anyone at any time, and any message the device itself sends. */
  datatype Event =
    | Arrives(env: Envelope, responderKey: KeyId, turnKey: KeyId, now: int)
    | Sends(recipient: Identity, payload: Payload, bundle: Option<Bundle>, draw: Draw, meta: Option<seq<(string, nat)>>)

  ghost function Handle(h: Host, self: Identity, o: Office, ev: Event): Office {
    match ev
    case Arrives(env, responderKey, turnKey, now) =>
      var kept := Retain(h, o.rows, now);
      var out := ReceiveDm(h, self, kept, env, responderKey, turnKey, now);
      var staged := Stage(kept, env, responderKey);
      if !out.Stored? then Office(kept, o.spent)
      else Office(out.rows, if staged.Staged? && staged.spent.Some? then o.spent + [env.body.otpId] else o.spent)
    case Sends(recipient, payload, bundle, draw, meta) =>
      var out := SendDm(h, self, o.rows, recipient, payload, bundle, draw, meta);
      if out.SentOk? then o.(rows := out.rows) else o
  }

  ghost function HandleAll(h: Host, self: Identity, o: Office, events: seq<Event>): Office
    decreases |events|
  {
    if events == [] then o else HandleAll(h, self, Handle(h, self, o, events[0]), events[1..])
  }

  /** No prekey was spent twice, and none that was spent is still on offer. */
  ghost predicate SpentOnce(o: Office) {
    && (forall i, j :: 0 <= i < j < |o.spent| ==> o.spent[i] != o.spent[j])
    && (o.spent != [] ==> HasPrekeys(o.rows))
    && (forall i :: 0 <= i < |o.spent| ==> o.spent[i] !in o.rows[Prekeys].prekeys.oneTime)
  }

  lemma ArrivalSpendsOnce(h: Host, self: Identity, o: Office, env: Envelope, responderKey: KeyId, turnKey: KeyId, now: int)
    requires SpentOnce(o)
    ensures SpentOnce(Handle(h, self, o, Arrives(env, responderKey, turnKey, now)))
  {
    var kept := Retain(h, o.rows, now);
    RetainKeepsKeys(h, o.rows, now);
    if ReceiveDm(h, self, kept, env, responderKey, turnKey, now).Stored? {
      StoredRows(h, self, kept, env, responderKey, turnKey, now);
    }
  }

  lemma SendKeepsPrekeys(h: Host, self: Identity, rows: Rows, recipient: Identity, payload: Payload,
                         bundle: Option<Bundle>, draw: Draw, meta: Option<seq<(string, nat)>>)
    ensures var out := SendDm(h, self, rows, recipient, payload, bundle, draw, meta);
            out.SentOk? ==> (Prekeys in out.rows <==> Prekeys in rows) && (Prekeys in rows ==> out.rows[Prekeys] == rows[Prekeys])
  {
    var out := SendDm(h, self, rows, recipient, payload, bundle, draw, meta);
    if out.SentOk? {
      var p := Prepare(self, rows, recipient, payload, bundle, draw);
      CommitSendChange(h, rows, p.st, ItemFor(p.envelope), meta);
    }
  }

  /** Over every run, whoever sends what, a one-time prekey backs at most one installed session. */
  lemma {:induction false} OneTimeKeysSpentOnce(h: Host, self: Identity, o: Office, events: seq<Event>)
    requires SpentOnce(o)
    ensures SpentOnce(HandleAll(h, self, o, events))
    decreases |events|
  {
    if events != [] {
      match events[0] {
        case Arrives(env, responderKey, turnKey, now) => ArrivalSpendsOnce(h, self, o, env, responderKey, turnKey, now);
        case Sends(recipient, payload, bundle, draw, meta) =>
          SendKeepsPrekeys(h, self, o.rows, recipient, payload, bundle, draw, meta);
      }
      OneTimeKeysSpentOnce(h, self, Handle(h, self, o, events[0]), events[1..]);
    }
  }
}
