/**
 What honest persistent devices can rely on, in every run of the network: any number of devices, any
 conversations between them, crashes, loss, duplication and reordering.
 */
module DmTheorems {
  import opened Basics
  import opened Symbolic
  import opened DoubleRatchet
  import opened RatchetRuns
  import opened RatchetTheorems
  import opened X3dh
  import opened PersistentClient
  import opened DirectMessages
  import opened DmPipeline
  import opened Network

  ghost function After(d: Directory, moves: seq<Move>): Net
    requires Honest(d)
  {
    Network.Run(d, Begin(), moves)
  }

  lemma AfterOk(d: Directory, moves: seq<Move>)
    requires Honest(d)
    ensures NetOk(d, After(d, moves)) && AllKeysOk(d, After(d, moves))
  {
    BeginOk(d);
    Network.RunKeeps(d, Begin(), moves);
    RunKeys(d, Begin(), moves);
  }

  lemma AfterPair(d: Directory, moves: seq<Move>, q: Pair)
    requires Honest(d) && Openable(After(d, moves), q)
    ensures PipeInv(ConfigOf(d, q), PipeOf(d, After(d, moves), q)) && Sound(ConfigOf(d, q))
  {
    AfterOk(d, moves);
    HonestSound(d, q);
    assert PairOk(d, After(d, moves), q);
  }

  /** A sent message is held by its sender until it is in the recipient's inbox with the payload that
      was sent (until retention empties it), and it is marked delivered only then. */
  ghost predicate SafelyHeld(p: Pipe, id: MsgId)
    requires id in p.sent
  {
    var o := p.sent[id];
    var rows, peerRows := RowsOf(p, o.role), RowsOf(p, Peer(o.role));
    && Queue(id) in rows && rows[Queue(id)].ItemV?
    && (rows[Queue(id)].item.delivered ==> Inbox(id) in peerRows)
    && (!rows[Queue(id)].item.delivered ==> rows[Queue(id)].item.envelope == Some(o.envelope))
    && (Inbox(id) in peerRows ==>
          peerRows[Inbox(id)].InboxV? && (peerRows[Inbox(id)].msg.expired || peerRows[Inbox(id)].msg.payload == o.payload))
  }

  /** Exactly-once delivery, for every conversation of every device. In every run: no message enters an inbox
      twice, an item marked delivered is in the recipient's inbox, an item not yet delivered still holds its
      whole envelope, no id belongs to two conversations, and no inbox or outbox holds an id nobody used. */
  lemma ExactlyOnce(d: Directory, moves: seq<Move>, q: Pair)
    requires Honest(d) && Openable(After(d, moves), q)
    ensures var n := After(d, moves); var p := PipeOf(d, n, q);
            && (forall i, j :: 0 <= i < j < |p.arrivals| ==> p.arrivals[i] != p.arrivals[j])
            && (forall id :: id in p.arrivals <==> Arrived(p, id))
            && (forall id :: id in p.sent ==> SafelyHeld(p, id))
            && (forall r, id :: r != q && id in p.sent ==> id !in ThreadAt(n, r).sent)
            && (forall id :: id !in n.used ==> Inbox(id) !in p.rowsA && Inbox(id) !in p.rowsB && Queue(id) !in p.rowsA && Queue(id) !in p.rowsB)
  {
    AfterOk(d, moves);
    AfterPair(d, moves, q);
    var n, c := After(d, moves), ConfigOf(d, q);
    var p := PipeOf(d, n, q);
    forall id | id in p.sent ensures SafelyHeld(p, id) {
      assert IdOk(c, p, id);
    }
    forall r, id | r != q && id in p.sent ensures id !in ThreadAt(n, r).sent {
      assert ApartOk(n, q, r);
    }
    forall id | id !in n.used ensures Inbox(id) !in p.rowsA && Inbox(id) !in p.rowsB && Queue(id) !in p.rowsA && Queue(id) !in p.rowsB {
      assert IdOk(c, p, id) && ThreadOk(n, q);
    }
  }

  // ---- One key, one message, over all conversations ----

  function RootSecret(rk: Root): Secret {
    match rk
    case Seed(sk) => sk
    case NextRoot(prev, _) => RootSecret(prev)
  }

  lemma {:induction false} RootKeepsSecret(sk: Secret, keys: seq<KeyId>, e: nat)
    requires e <= |keys|
    ensures RootSecret(RootAt(sk, keys, e)) == sk
  {
    if e > 0 {
      RootKeepsSecret(sk, keys, e - 1);
    }
  }

  /** A message key remembers the root of its session. */
  lemma KeysOfDifferentRoots(sk: Secret, keys: seq<KeyId>, e: nat, i: nat, sk2: Secret, keys2: seq<KeyId>, f: nat, j: nat)
    requires e < |keys| && f < |keys2| && sk != sk2
    ensures KeyAt(sk, keys, e, i) != KeyAt(sk2, keys2, f, j)
  {
    AdvanceInjective(ChainAt(sk, keys, e), i, ChainAt(sk2, keys2, f), j);
    RootKeepsSecret(sk, keys, e);
    RootKeepsSecret(sk2, keys2, f);
  }

  /** What is known of an envelope that left a device. */
  lemma OnTheWire(d: Directory, moves: seq<Move>, q: Pair, env: Envelope) returns (w: World, s: Slot)
    requires Honest(d) && env in ThreadAt(After(d, moves), q).wire
    ensures ThreadAt(After(d, moves), q).world == Some(w) && Inv(w) && Openable(After(d, moves), q)
    ensures env.id in ThreadAt(After(d, moves), q).sent && env == ThreadAt(After(d, moves), q).sent[env.id].envelope
    ensures s == ThreadAt(After(d, moves), q).sent[env.id].slot && s in w.log && env.body.frame.Frame? && w.log[s].blob == env.body.frame.blob
    ensures s in ThreadAt(After(d, moves), q).ids && ThreadAt(After(d, moves), q).ids[s] == env.id
    ensures s.epoch < |w.keys| && env.body.frame.blob.ct.key == KeyAt(w.sk, w.keys, s.epoch, s.idx) && env.body.frame.blob.header.dh in KeySet(w)
  {
    AfterOk(d, moves);
    var n := After(d, moves);
    assert ThreadOk(n, q);
    AfterPair(d, moves, q);
    var p := PipeOf(d, n, q);
    assert IdOk(ConfigOf(d, q), p, env.id);
    w := p.world.value;
    s := p.sent[env.id].slot;
    assert LogAt(w.sk, w.keys, w.lens, w.log, s);
  }

  /** No message key is used twice on the wire: no two envelopes that left any devices share one, whatever sends
      failed or were rolled back in between. No two share a ratchet key and counter either, except, in one
      conversation, past 2^32 messages of one chain. */
  lemma NoKeyTwiceOnTheWire(d: Directory, moves: seq<Move>, q: Pair, r: Pair, e1: Envelope, e2: Envelope)
    requires Honest(d) && e1 != e2
    requires e1 in ThreadAt(After(d, moves), q).wire && e2 in ThreadAt(After(d, moves), r).wire
    ensures e1.body.frame.Frame? && e2.body.frame.Frame?
    ensures e1.body.frame.blob.ct.key != e2.body.frame.blob.ct.key
    ensures ThreadAt(After(d, moves), q).world.Some?
    ensures q != r || CountersFit(ThreadAt(After(d, moves), q).world.value) ==>
              var h1, h2 := e1.body.frame.blob.header, e2.body.frame.blob.header; !(h1.dh == h2.dh && h1.n == h2.n)
  {
    AfterOk(d, moves);
    var w, s := OnTheWire(d, moves, q, e1);
    var v, t := OnTheWire(d, moves, r, e2);
    if q == r {
      OneKeyPerMessage(w, s, t);
    } else {
      assert DistinctOk(After(d, moves), q, r);
      KeysOfDifferentRoots(w.sk, w.keys, s.epoch, s.idx, v.sk, v.keys, t.epoch, t.idx);
    }
  }

  // ---- All or nothing ----

  /** The last value written under a tag. */
  function LastWrite(writes: seq<(string, nat)>, tag: string): Option<nat>
    decreases |writes|
  {
    if writes == [] then None
    else if writes[|writes| - 1].0 == tag then Some(writes[|writes| - 1].1)
    else LastWrite(writes[..|writes| - 1], tag)
  }

  lemma {:induction false} LastWriteFirst(writes: seq<(string, nat)>, tag: string)
    requires writes != []
    ensures LastWrite(writes, tag) ==
            if LastWrite(writes[1..], tag).Some? then LastWrite(writes[1..], tag) else if writes[0].0 == tag then Some(writes[0].1) else None
    decreases |writes|
  {
    var n := |writes| - 1;
    if n > 0 {
      assert writes[1..][..n - 1] == writes[..n][1..] && writes[1..][n - 1] == writes[n];
      LastWriteFirst(writes[..n], tag);
    }
  }

  /** Each tag ends with its last value, and tags not written stay as they were. */
  lemma {:induction false} MetaWritten(h: Host, rows: Rows, writes: seq<(string, nat)>, tag: string)
    requires WriteMeta(h, rows, writes).Some?
    ensures var after := WriteMeta(h, rows, writes).value;
            if LastWrite(writes, tag).Some? then Meta(tag) in after && after[Meta(tag)] == Opaque(LastWrite(writes, tag).value)
            else SameAt(rows, after, Meta(tag))
    decreases |writes|
  {
    if writes != [] {
      MetaWritten(h, rows[Meta(writes[0].0) := Opaque(writes[0].1)], writes[1..], tag);
      LastWriteFirst(writes, tag);
    }
  }

  /** A send stores the advanced ratchet, the queue item and all the metadata together, or changes nothing: every
      tag the host wrote holds its last value, and no other metadata changed. */
  lemma SendAllOrNothing(h: Host, self: Identity, rows: Rows, recipient: Identity, payload: Payload,
                         bundle: Option<Bundle>, draw: Draw, meta: Option<seq<(string, nat)>>, tag: string)
    requires SendDm(h, self, rows, recipient, payload, bundle, draw, meta).SentOk?
    ensures var out := SendDm(h, self, rows, recipient, payload, bundle, draw, meta);
            var prep := Prepare(self, rows, recipient, payload, bundle, draw);
            && prep.Prepared? && SentChange(rows, out.rows, prep.st, ItemFor(prep.envelope))
            && meta.Some?
            && (if LastWrite(meta.value, tag).Some? then Meta(tag) in out.rows && out.rows[Meta(tag)] == Opaque(LastWrite(meta.value, tag).value)
                else SameAt(rows, out.rows, Meta(tag)))
  {
    var prep := Prepare(self, rows, recipient, payload, bundle, draw);
    var item := ItemFor(prep.envelope);
    CommitSendChange(h, rows, prep.st, item, meta);
    MetaWritten(h, rows[Session(item.recipient) := SessionV(prep.st)][Queue(item.id) := ItemV(item)], meta.value, tag);
  }

  // ---- Deliverability ----

  /** Whether decryption of this envelope succeeds on the recipient as it stands. */
  predicate Opens(rows: Rows, self: Identity, env: Envelope, responderKey: KeyId, turnKey: KeyId) {
    var staged := Stage(rows, env, responderKey);
    staged.Staged? && Open(staged.st, staged.frame, AadFor(env.sender, self), turnKey).result.Ok?
  }

  /** The guard: on an installed session the skip limit, and without one a first message whose one-time key has
      not been spent. */
  predicate Welcome(rows: Rows, env: Envelope)
    requires env.body.frame.Frame?
  {
    if HasSession(rows, env.sender) then WithinSkip(rows[Session(env.sender)].ratchet, env.body.frame.blob.header)
    else env.body.First? && OnOffer(rows, env.body.otpId)
  }

  /** The chain of this message fits the header's 32-bit counters. */
  predicate ChainFits(w: World, s: Slot) {
    s.epoch < |w.lens| ==> w.lens[s.epoch] < U32
  }

  /** A message not yet in the inbox decrypts exactly when it is welcome. */
  lemma DeliverableIff(d: Directory, moves: seq<Move>, q: Pair, id: MsgId, responderKey: KeyId, turnKey: KeyId)
    requires Honest(d) && Openable(After(d, moves), q)
    requires var p := PipeOf(d, After(d, moves), q);
             && id in p.sent && !Arrived(p, id) && FreshKeys(p, responderKey, turnKey)
             && (p.world.Some? ==> ChainFits(p.world.value, p.sent[id].slot))
    ensures var p, c := PipeOf(d, After(d, moves), q), ConfigOf(d, q);
            var o := p.sent[id]; var rows := RowsOf(p, Peer(o.role));
            && o.envelope.body.frame.Frame?
            && (Opens(rows, IdOf(c, Peer(o.role)), o.envelope, responderKey, turnKey) <==> Welcome(rows, o.envelope))
  {
    AfterPair(d, moves, q);
    var p, c := PipeOf(d, After(d, moves), q), ConfigOf(d, q);
    assert IdOk(c, p, id);
    DeliverableAt(c, p, p.sent[id], id, responderKey, turnKey);
  }

  lemma DeliverableAt(c: Config, p: Pipe, o: Outgoing, id: MsgId, responderKey: KeyId, turnKey: KeyId)
    requires Sound(c) && Sessions(c, p) && p.world.Some? && ChainFits(p.world.value, o.slot) && FreshKeys(p, responderKey, turnKey)
    requires id in p.sent && o == p.sent[id] && EnvelopeOk(c, p.world.value, o, id) && o.slot !in p.world.value.taken
    ensures var rows := RowsOf(p, Peer(o.role));
            Opens(rows, IdOf(c, Peer(o.role)), o.envelope, responderKey, turnKey) <==> Welcome(rows, o.envelope)
  {
    var role := Peer(o.role);
    StagedIsHistory(c, p, role, o.envelope, responderKey, turnKey);
    var w0 := Rekeyed(p.world.value, RowsOf(p, role), role, o.envelope.sender, responderKey);
    assert LogAt(w0.sk, w0.keys, w0.lens, w0.log, o.slot);
    Agreement(w0, role, o.slot, turnKey);
  }

  // ---- When nothing can be delivered any more ----

  /** The recipient has a session with the sender, or can still open the one it was offered. */
  predicate Receptive(c: Config, p: Pipe, sender: Role) {
    var rows := RowsOf(p, Peer(sender));
    HasSession(rows, IdOf(c, sender)) || OnOffer(rows, WireId(c.offered))
  }

  /** A message that is missing, still queued with its whole envelope, and would decrypt right now. */
  ghost predicate Deliverable(c: Config, p: Pipe, sender: Role, responderKey: KeyId, turnKey: KeyId, next: MsgId) {
    && next in p.sent && p.sent[next].role == sender && !Arrived(p, next)
    && PendingRow(RowsOf(p, sender), Queue(next))
    && RowsOf(p, sender)[Queue(next)].item.envelope == Some(p.sent[next].envelope)
    && Opens(RowsOf(p, Peer(sender)), IdOf(c, Peer(sender)), p.sent[next].envelope, responderKey, turnKey)
  }

  /** No deadlock, exactly: while a message is missing from its recipient's inbox, some message of that sender can be
      delivered right now if and only if the recipient has a session with the sender or the one-time key the
      sender was offered has not been spent by somebody else. */
  lemma NoDeadlockIff(d: Directory, moves: seq<Move>, q: Pair, id: MsgId, responderKey: KeyId, turnKey: KeyId)
    requires Honest(d) && Openable(After(d, moves), q)
    requires var p := PipeOf(d, After(d, moves), q);
             && id in p.sent && !Arrived(p, id) && FreshKeys(p, responderKey, turnKey)
             && (p.world.Some? ==> CountersFit(p.world.value))
    ensures var p, c := PipeOf(d, After(d, moves), q), ConfigOf(d, q);
            var sender := p.sent[id].role;
            (exists next :: Deliverable(c, p, sender, responderKey, turnKey, next)) <==> Receptive(c, p, sender)
  {
    AfterPair(d, moves, q);
    var p, c := PipeOf(d, After(d, moves), q), ConfigOf(d, q);
    var sender := p.sent[id].role;
    if Receptive(c, p, sender) {
      var next := NextDeliverable(c, p, id, responderKey, turnKey);
      assert Deliverable(c, p, sender, responderKey, turnKey, next);
    }
    if next :| Deliverable(c, p, sender, responderKey, turnKey, next) {
      assert IdOk(c, p, next);
      DeliverableAt(c, p, p.sent[next], next, responderKey, turnKey);
    }
  }

  lemma NextDeliverable(c: Config, p: Pipe, id: MsgId, responderKey: KeyId, turnKey: KeyId) returns (next: MsgId)
    requires Sound(c) && PipeInv(c, p) && id in p.sent && !Arrived(p, id) && FreshKeys(p, responderKey, turnKey)
    requires p.world.Some? ==> CountersFit(p.world.value)
    requires Receptive(c, p, p.sent[id].role)
    ensures Deliverable(c, p, p.sent[id].role, responderKey, turnKey, next)
  {
    assert IdOk(c, p, id);
    var o := p.sent[id];
    var w := p.world.value;
    var rows := RowsOf(p, Peer(o.role));
    var s: Slot;
    if HasSession(rows, IdOf(c, o.role)) {
      s := SomethingOpens(w, Peer(o.role), o.slot);
    } else {
      s := Slot(0, 0);
      NothingTakenYet(w, s);
    }
    assert SlotOk(p, s);
    next := p.ids[s];
    assert IdOk(c, p, next);
    DeliverableAt(c, p, p.sent[next], next, responderKey, turnKey);
  }

  lemma NothingTakenYet(w: World, s: Slot)
    requires Inv(w) && w.b == InitResponder(w.sk, w.b.dhs) && Owns(Initiator, s.epoch)
    ensures s !in w.taken
  {
    assert SideOf(w, Responder);
    assert LedgerAt(w.b, Responder, w.sk, w.keys, w.lens, w.taken, s);
  }
}
