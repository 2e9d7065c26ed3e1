/**
 Two initiators and one one-time prekey. A bundle offers the same one-time key to everyone who fetches it
 (packages/client/src/x3dh.ts); the first of them to be received spends it, and what the others have sent can
 then never be delivered.
 */
module Starvation {
  import opened Basics
  import opened Symbolic
  import opened DoubleRatchet
  import opened RatchetRuns
  import opened X3dh
  import opened PersistentClient
  import opened DirectMessages
  import opened DmPipeline
  import opened Network
  import opened DmTheorems

  /** The first of the pair has opened a session that the second never installed and no longer can. */
  predicate Starved(d: Directory, n: Net, q: Pair) {
    Openable(n, q) && ThreadAt(n, q).world.Some? && !Receptive(ConfigOf(d, q), PipeOf(d, n, q), Initiator)
  }

  // ---- Once starved, always starved ----

  /** At the recipient: no session with the sender, and the key it was offered is gone. */
  predicate Closed(rows: Rows, sender: Identity, otpId: nat) {
    HasPrekeys(rows) && !HasSession(rows, sender) && otpId != 0 && otpId !in rows[Prekeys].prekeys.oneTime
  }

  lemma ClosedStays(rows: Rows, after: Rows, sender: Identity, otpId: nat)
    requires Closed(rows, sender, otpId) && SameAt(rows, after, Session(sender)) && KeepsPrekeys(after, rows[Prekeys].prekeys)
    ensures Closed(after, sender, otpId)
  {
  }

  lemma RefusedReceive(c: Config, p: Pipe, env: Envelope, responderKey: KeyId, turnKey: KeyId, now: int)
    requires Sound(c) && PipeInv(c, p) && Closed(p.rowsB, c.a, WireId(c.offered)) && env in p.wire && env.recipient == c.b
    ensures !ReceiveDm(c.hostB, c.b, Retain(c.hostB, p.rowsB, now), env, responderKey, turnKey, now).Stored?
  {
    var kept := Retain(c.hostB, p.rowsB, now);
    RetainKeepsKeys(c.hostB, p.rowsB, now);
    assert IdOk(c, p, env.id);
    if env.body.First? {
      RespondShrunk(kept[Prekeys].prekeys, c.keysB, env.body.identityDh, env.body.ephemeral, env.body.otpId);
    }
  }

  lemma ClosedReceive(c: Config, p: Pipe, env: Envelope, responderKey: KeyId, turnKey: KeyId, now: int)
    requires Sound(c) && PipeInv(c, p) && Closed(p.rowsB, c.a, WireId(c.offered))
    ensures Closed(ReceiveStep(c, p, Responder, env, responderKey, turnKey, now).rowsB, c.a, WireId(c.offered))
  {
    RetainKeepsKeys(c.hostB, p.rowsB, now);
    if env in p.wire && env.recipient == c.b {
      RefusedReceive(c, p, env, responderKey, turnKey, now);
    }
  }

  lemma ClosedSend(c: Config, p: Pipe, role: Role, payload: Payload, draw: Draw, spare: KeyId, meta: Option<seq<(string, nat)>>)
    requires Sound(c) && Closed(p.rowsB, c.a, WireId(c.offered))
    ensures SendStep(c, p, role, payload, draw, spare, meta).rowsB == p.rowsB
  {
  }

  lemma ClosedElse(c: Config, p: Pipe, step: DmPipeline.Step)
    requires Sound(c) && Closed(p.rowsB, c.a, WireId(c.offered)) && (step.Transmit? || step.ReceiptIn?)
    ensures Closed(Next(c, p, step).rowsB, c.a, WireId(c.offered))
  {
  }

  lemma ClosedStep(c: Config, p: Pipe, step: DmPipeline.Step)
    requires Sound(c) && PipeInv(c, p) && p.world.Some? && Closed(p.rowsB, c.a, WireId(c.offered))
    ensures Closed(Next(c, p, step).rowsB, c.a, WireId(c.offered))
  {
    if step.SendMsg? {
      ClosedSend(c, p, step.role, step.payload, step.draw, step.spare, step.meta);
    } else if step.ReceiveMsg? {
      if step.role.Responder? {
        ClosedReceive(c, p, step.env, step.responderKey, step.turnKey, step.now);
      }
    } else if step.Retention? {
      RetainKeepsKeys(c.hostB, p.rowsB, step.now);
    } else {
      ClosedElse(c, p, step);
    }
  }

  lemma StarvedIsClosed(d: Directory, n: Net, q: Pair)
    requires Honest(d) && NetOk(d, n) && Openable(n, q) && ThreadAt(n, q).world.Some?
    ensures Starved(d, n, q) <==> Closed(RowsAt(d, n, q.1), q.0, WireId(d.offered(q)))
  {
    assert PairOk(d, n, q);
  }

  lemma ClosedNext(d: Directory, n: Net, n': Net, q: Pair, r: Pair, step: DmPipeline.Step, p': Pipe)
    requires NetOk(d, n) && Openable(n, q) && ThreadAt(n, q).world.Some? && Closed(RowsAt(d, n, q.1), q.0, WireId(d.offered(q)))
    requires Sound(ConfigOf(d, r)) && p' == Next(ConfigOf(d, r), PipeOf(d, n, r), step) && Steps(d, n, n', r, p') && r != Reversed(q)
    ensures Closed(RowsAt(d, n', q.1), q.0, WireId(d.offered(q)))
  {
    if r == q {
      assert PairOk(d, n, q);
      ClosedStep(ConfigOf(d, q), PipeOf(d, n, q), step);
    } else {
      assert ThreadOk(n, q) && ApartOk(n, q, r);
      ElsewhereClosed(d, n, n', r, p', q);
    }
  }

  lemma StarvedNext(d: Directory, n: Net, q: Pair, r: Pair, step: DmPipeline.Step)
    requires Honest(d) && NetOk(d, n) && Starved(d, n, q)
    ensures Starved(d, NetNext(d, n, r, step), q)
  {
    var n' := NetNext(d, n, r, step);
    if Openable(n, r) && FreshDraws(d, n, Draws(PipeOf(d, n, r), step)) {
      StarvedIsClosed(d, n, q);
      NetNextKeeps(d, n, r, step);
      StepTaken(d, n, r, step);
      var p' := Next(ConfigOf(d, r), PipeOf(d, n, r), step);
      ClosedNext(d, n, n', q, r, step, p');
      StillOpen(d, n, n', q, r, p');
      StarvedIsClosed(d, n', q);
    }
  }

  lemma StillOpen(d: Directory, n: Net, n': Net, q: Pair, r: Pair, p': Pipe)
    requires Steps(d, n, n', r, p') && Openable(n, q) && ThreadAt(n, q).world.Some?
    ensures Openable(n', q) && ThreadAt(n', q).world.Some?
  {
    assert r != Reversed(q);
  }

  lemma ElsewhereClosed(d: Directory, n: Net, n': Net, r: Pair, p': Pipe, q: Pair)
    requires Steps(d, n, n', r, p') && r != q && r != Reversed(q) && ThreadOk(n, q) && ApartOk(n, q, r)
    requires Closed(RowsAt(d, n, q.1), q.0, WireId(d.offered(q)))
    ensures Closed(RowsAt(d, n', q.1), q.0, WireId(d.offered(q)))
  {
    var rows, after := RowsAt(d, n, q.1), RowsAt(d, n', q.1);
    DeviceQuiet(d, n, n', r, p', q.1, q.0, {}, n'.used);
    assert QuietAt(rows, after, q.0, {}, n'.used, Session(q.0)) && QuietAt(rows, after, q.0, {}, n'.used, Prekeys);
    ClosedStays(rows, after, q.0, WireId(d.offered(q)));
  }

  lemma {:induction false} StarvedRun(d: Directory, n: Net, q: Pair, moves: seq<Move>)
    requires Honest(d) && NetOk(d, n) && Starved(d, n, q)
    ensures Starved(d, Network.Run(d, n, moves), q) && NetOk(d, Network.Run(d, n, moves))
    decreases |moves|
  {
    if moves != [] {
      NetNextKeeps(d, n, moves[0].pair, moves[0].step);
      StarvedNext(d, n, q, moves[0].pair, moves[0].step);
      StarvedRun(d, NetNext(d, n, moves[0].pair, moves[0].step), q, moves[1..]);
    }
  }

  /** Starvation is permanent: however the run goes on, no message the initiator sent or will send is ever in the
      recipient's inbox, while all of them stay queued. */
  lemma StarvedForever(d: Directory, moves: seq<Move>, q: Pair, more: seq<Move>, id: MsgId)
    requires Honest(d) && Starved(d, After(d, moves), q)
    requires id in ThreadAt(Network.Run(d, After(d, moves), more), q).sent
    ensures var n := Network.Run(d, After(d, moves), more); var p := PipeOf(d, n, q);
            Starved(d, n, q) && p.sent[id].role.Initiator? && !Arrived(p, id) && PendingRow(p.rowsA, Queue(id))
  {
    AfterOk(d, moves);
    StarvedRun(d, After(d, moves), q, more);
    var n := Network.Run(d, After(d, moves), more);
    var p, c := PipeOf(d, n, q), ConfigOf(d, q);
    assert PairOk(d, n, q);
    assert IdOk(c, p, id);
    NobodyReplied(c, p, id);
    NothingTakenYet(p.world.value, p.sent[id].slot);
  }

  /** Without a session the responder has sent nothing. */
  lemma NobodyReplied(c: Config, p: Pipe, id: MsgId)
    requires Sessions(c, p) && p.world.Some? && !HasSession(p.rowsB, c.a) && id in p.sent && IdOk(c, p, id)
    ensures p.sent[id].role.Initiator?
  {
    var w := p.world.value;
    assert SideOf(w, Responder) && SideOf(w, Initiator);
    var s := p.sent[id].slot;
    assert LogAt(w.sk, w.keys, w.lens, w.log, s);
  }

  // ---- A run that starves ----

  /** A device without limits that knows nothing of the recipient can always send it a first message. */
  lemma FirstSendWorks(h: Host, self: Identity, rows: Rows, recipient: Identity, payload: Payload, bundle: Bundle, draw: Draw)
    requires h.limits.None? && HasPrekeys(rows) && Session(recipient) !in rows && Queue(draw.id) !in rows && VerifyBundle(bundle)
    ensures var out := SendDm(h, self, rows, recipient, payload, Some(bundle), draw, Some([]));
            && out.SentOk? && out.envelope.id == draw.id && out.envelope.body.First? && out.envelope.sender == self && out.envelope.recipient == recipient
  {
  }

  lemma PipeFirstSend(c: Config, p: Pipe, payload: Payload, draw: Draw, spare: KeyId)
    requires Sound(c) && PipeInv(c, p) && p.world.None? && c.hostA.limits.None?
    requires draw.id !in p.others && draw.ratchetKey != spare
    ensures var p' := SendStep(c, p, Initiator, payload, draw, spare, Some([]));
            && p'.world.Some? && draw.id in p'.sent && p'.sent[draw.id].role.Initiator? && p'.sent[draw.id].envelope.body.First?
            && p'.rowsB == p.rowsB && p'.others == p.others && p'.wire == p.wire
            && p'.world == Some(SealStep(WorldFor(c, p, draw, spare), Initiator, payload, AadFor(c.a, c.b), draw.nonce))
  {
    assert IdOk(c, p, draw.id);
    FirstSendWorks(c.hostA, c.a, p.rowsA, c.b, payload, BundleFor(c, Initiator).value, draw);
  }

  lemma PipeTransmit(c: Config, p: Pipe, id: MsgId)
    requires PipeInv(c, p) && id in p.sent && p.sent[id].role.Initiator? && PendingRow(p.rowsA, Queue(id))
    ensures var p' := TransmitStep(c, p, Initiator, id, 0, false);
            p' == p.(wire := p.wire + {p.sent[id].envelope})
  {
    assert IdOk(c, p, id);
  }

  /** A first message that opens is stored by a device without limits, and the one-time key it names is spent. */
  lemma FirstReceiveWorks(h: Host, self: Identity, rows: Rows, env: Envelope, responderKey: KeyId, turnKey: KeyId)
    requires h.limits.None? && Inbox(env.id) !in rows && Opens(rows, self, env, responderKey, turnKey)
    requires !HasSession(rows, env.sender) && env.body.First? && env.body.otpId != 0
    ensures var out := ReceiveDm(h, self, rows, env, responderKey, turnKey, 0);
            && out.Stored? && HasPrekeys(out.rows) && env.body.otpId !in out.rows[Prekeys].prekeys.oneTime
  {
    StoredRows(h, self, rows, env, responderKey, turnKey, 0);
  }

  lemma FirstOpens(c: Config, p: Pipe, id: MsgId, responderKey: KeyId, turnKey: KeyId)
    requires Sound(c) && PipeInv(c, p) && p.world.Some? && FreshKeys(p, responderKey, turnKey)
    requires id in p.sent && p.sent[id].role.Initiator? && p.sent[id].envelope.body.First?
    requires Session(c.a) !in p.rowsB && OnOffer(p.rowsB, WireId(c.offered)) && ChainFits(p.world.value, p.sent[id].slot)
    ensures var env := p.sent[id].envelope;
            && env.id == id && env.sender == c.a && env.recipient == c.b && env.body.otpId == WireId(c.offered)
            && Inbox(id) !in p.rowsB && Opens(p.rowsB, c.b, env, responderKey, turnKey)
  {
    assert IdOk(c, p, id);
    NothingTakenYet(p.world.value, p.sent[id].slot);
    DeliverableAt(c, p, p.sent[id], id, responderKey, turnKey);
  }

  lemma PipeFirstReceive(c: Config, p: Pipe, id: MsgId, responderKey: KeyId, turnKey: KeyId)
    requires Sound(c) && PipeInv(c, p) && p.world.Some? && FreshKeys(p, responderKey, turnKey) && c.hostB.limits.None?
    requires id in p.sent && p.sent[id].role.Initiator? && p.sent[id].envelope in p.wire && p.sent[id].envelope.body.First?
    requires Session(c.a) !in p.rowsB && c.offered.Some? && OnOffer(p.rowsB, WireId(c.offered)) && ChainFits(p.world.value, p.sent[id].slot)
    ensures var p' := ReceiveStep(c, p, Responder, p.sent[id].envelope, responderKey, turnKey, 0);
            HasPrekeys(p'.rowsB) && WireId(c.offered) != 0 && WireId(c.offered) !in p'.rowsB[Prekeys].prekeys.oneTime
  {
    FirstOpens(c, p, id, responderKey, turnKey);
    FirstReceiveWorks(c.hostB, c.b, p.rowsB, p.sent[id].envelope, responderKey, turnKey);
    ReceiveStepForm(c, p, Responder, p.sent[id].envelope, responderKey, turnKey, 0);
  }

  lemma FirstChainFits(sk: Secret, key: KeyId, spare: KeyId, payload: Payload, aad: Aad, nonce: nat)
    ensures SealStep(InitWorld(sk, key, spare), Initiator, payload, aad, nonce).lens == [1]
  {
    var w := InitWorld(sk, key, spare);
    assert Started(w, Initiator) == w;
    assert Depth(w.a.rk) == 1;
    assert w.lens[0 := 1] == [1];
  }

  /** The first message has been sent, and has left the device if `out`. */
  ghost predicate Asking(c: Config, p: Pipe, id: MsgId, keys: set<KeyId>, out: bool) {
    && PipeInv(c, p) && p.world.Some? && p.world.value.lens == [1] && KeySet(p.world.value) <= keys
    && p.sent.Keys == {id} && p.sent[id].role.Initiator? && p.sent[id].envelope.body.First?
    && Session(c.a) !in p.rowsB && OnOffer(p.rowsB, WireId(c.offered)) && PendingRow(p.rowsA, Queue(id))
    && (out ==> p.sent[id].envelope in p.wire)
  }

  lemma FirstAsks(c: Config, payload: Payload, x: Draw, spare: KeyId)
    requires Sound(c) && c.offered.Some? && c.hostA.limits.None? && x.ratchetKey != spare
    ensures Asking(c, SendStep(c, Start(c), Initiator, payload, x, spare, Some([])), x.id, {x.ephemeral, x.ratchetKey, spare}, false)
  {
    StartInv(c);
    PipeFirstSend(c, Start(c), payload, x, spare);
    SendKeeps(c, Start(c), Initiator, payload, x, spare, Some([]));
    var w := WorldFor(c, Start(c), x, spare);
    FirstChainFits(w.sk, x.ratchetKey, spare, payload, AadFor(c.a, c.b), x.nonce);
    SealKeySet(w, Initiator, payload, AadFor(c.a, c.b), x.nonce);
    assert Wrap(c.offered.value) == c.offered.value;
    var p' := SendStep(c, Start(c), Initiator, payload, x, spare, Some([]));
    assert IdOk(c, p', x.id);
    SendStepForm(c, Start(c), Initiator, payload, x, spare, Some([]));
  }

  lemma FirstGoesOut(c: Config, p: Pipe, id: MsgId, keys: set<KeyId>)
    requires Sound(c) && Asking(c, p, id, keys, false)
    ensures Asking(c, TransmitStep(c, p, Initiator, id, 0, false), id, keys, true)
  {
    PipeTransmit(c, p, id);
    TransmitSessions(c, p, Initiator, id, 0, false);
    TransmitBooks(c, p, Initiator, id, 0, false);
  }

  lemma FirstArrives(c: Config, p: Pipe, id: MsgId, keys: set<KeyId>, responderKey: KeyId, turnKey: KeyId)
    requires Sound(c) && Asking(c, p, id, keys, true) && c.hostB.limits.None? && c.offered.Some?
    requires keys !! {responderKey, turnKey} && responderKey != turnKey
    ensures var p' := ReceiveStep(c, p, Responder, p.sent[id].envelope, responderKey, turnKey, 0);
            && HasPrekeys(p'.rowsB) && WireId(c.offered) != 0 && WireId(c.offered) !in p'.rowsB[Prekeys].prekeys.oneTime
            && p'.sent == p.sent
  {
    assert IdOk(c, p, id);
    assert FreshKeys(p, responderKey, turnKey) by {
      forall k | k in p.world.value.keys ensures k in KeySet(p.world.value) {
      }
    }
    PipeFirstReceive(c, p, id, responderKey, turnKey);
  }

  // ---- The same in the network ----

  /** Only one conversation has begun, and it stands at `p`. */
  ghost predicate Solo(d: Directory, n: Net, q: Pair, p: Pipe, keys: set<KeyId>) {
    NetOk(d, n) && n.threads.Keys <= {q} && PipeOf(d, n, q) == p && n.used == p.sent.Keys && n.drawn == keys
  }

  lemma SoloBegin(d: Directory, q: Pair)
    requires Honest(d)
    ensures Solo(d, Begin(), q, Start(ConfigOf(d, q)), {})
  {
    BeginOk(d);
  }

  lemma SoloStep(d: Directory, n: Net, q: Pair, p: Pipe, keys: set<KeyId>, step: DmPipeline.Step, draws: set<KeyId>)
    requires Honest(d) && q.0 != q.1 && Solo(d, n, q, p, keys) && draws == Draws(p, step) && FreshDraws(d, n, draws)
    ensures Sound(ConfigOf(d, q)) && Solo(d, NetNext(d, n, q, step), q, Next(ConfigOf(d, q), p, step), keys + draws)
  {
    StepTaken(d, n, q, step);
    StepsKeep(d, n, NetNext(d, n, q, step), q, Next(ConfigOf(d, q), p, step));
  }

  /** The conversation of the first initiator, served: its message is stored and the key is gone. */
  lemma PipeServed(c: Config, payload: Payload, x: Draw, spare: KeyId, responderKey: KeyId, turnKey: KeyId)
    returns (s1: DmPipeline.Step, s2: DmPipeline.Step, s3: DmPipeline.Step, p: Pipe)
    requires Sound(c) && c.offered.Some? && c.hostA.limits.None? && c.hostB.limits.None?
    requires {x.ephemeral, x.ratchetKey, spare} !! {responderKey, turnKey} && x.ratchetKey != spare && responderKey != turnKey
    ensures p == Next(c, Next(c, Next(c, Start(c), s1), s2), s3) && p.sent.Keys == {x.id}
    ensures s1.SendMsg? && s1.draw == x && s1.spare == spare && s2.Transmit? && s3.ReceiveMsg? && s3.responderKey == responderKey && s3.turnKey == turnKey
    ensures HasPrekeys(p.rowsB) && WireId(c.offered) != 0 && WireId(c.offered) !in p.rowsB[Prekeys].prekeys.oneTime
  {
    var keys := {x.ephemeral, x.ratchetKey, spare};
    s1 := SendMsg(Initiator, payload, x, spare, Some([]));
    FirstAsks(c, payload, x, spare);
    var p1 := SendStep(c, Start(c), Initiator, payload, x, spare, Some([]));
    s2 := Transmit(Initiator, x.id, 0, false);
    FirstGoesOut(c, p1, x.id, keys);
    var p2 := TransmitStep(c, p1, Initiator, x.id, 0, false);
    s3 := ReceiveMsg(Responder, p2.sent[x.id].envelope, responderKey, turnKey, 0);
    FirstArrives(c, p2, x.id, keys, responderKey, turnKey);
    p := ReceiveStep(c, p2, Responder, p2.sent[x.id].envelope, responderKey, turnKey, 0);
  }

  /** Three steps of one conversation from the beginning. */
  lemma SoloThree(d: Directory, q: Pair, s1: DmPipeline.Step, s2: DmPipeline.Step, s3: DmPipeline.Step, mine: set<KeyId>, theirs: set<KeyId>)
    requires Honest(d) && q.0 != q.1 && s1.SendMsg? && mine == {s1.draw.ephemeral, s1.draw.ratchetKey, s1.spare}
    requires s2.Transmit? && s3.ReceiveMsg? && theirs == {s3.responderKey, s3.turnKey} && mine !! theirs
    requires forall k :: k in mine + theirs ==> !LongTerm(d, k)
    ensures Sound(ConfigOf(d, q))
    ensures var c := ConfigOf(d, q);
            Solo(d, After(d, [Move(q, s1), Move(q, s2), Move(q, s3)]), q, Next(c, Next(c, Next(c, Start(c), s1), s2), s3), mine + theirs)
  {
    var c := ConfigOf(d, q);
    SoloBegin(d, q);
    SoloStep(d, Begin(), q, Start(c), {}, s1, mine);
    var n1, p1 := NetNext(d, Begin(), q, s1), Next(c, Start(c), s1);
    SoloStep(d, n1, q, p1, mine, s2, {});
    var n2, p2 := NetNext(d, n1, q, s2), Next(c, p1, s2);
    SoloStep(d, n2, q, p2, mine, s3, theirs);
    ThreeMoves(d, Move(q, s1), Move(q, s2), Move(q, s3));
  }

  lemma ThreeMoves(d: Directory, m1: Move, m2: Move, m3: Move)
    requires Honest(d)
    ensures var n1 := NetNext(d, Begin(), m1.pair, m1.step); var n2 := NetNext(d, n1, m2.pair, m2.step);
            After(d, [m1, m2, m3]) == NetNext(d, n2, m3.pair, m3.step)
  {
    RunCons(d, Begin(), m1, [m2, m3]);
    RunCons(d, NetNext(d, Begin(), m1.pair, m1.step), m2, [m3]);
    RunCons(d, NetNext(d, NetNext(d, Begin(), m1.pair, m1.step), m2.pair, m2.step), m3, []);
    assert [m1] + [m2, m3] == [m1, m2, m3] && [m2] + [m3] == [m2, m3] && [m3] + [] == [m3];
  }

  /** Another initiator that holds the same offer sends its first message too late. */
  lemma SecondStarves(d: Directory, n: Net, s: Pair, payload: Payload, y: Draw, spare: KeyId)
    requires Honest(d) && NetOk(d, n) && Openable(n, s) && ThreadAt(n, s).world.None?
    requires Closed(RowsAt(d, n, s.1), s.0, WireId(d.offered(s))) && d.hosts(s.0).limits.None?
    requires FreshDraws(d, n, {y.ephemeral, y.ratchetKey, spare}) && y.ratchetKey != spare && y.id !in n.used
    ensures Starved(d, NetNext(d, n, s, SendMsg(Initiator, payload, y, spare, Some([]))), s)
  {
    var ps, step := PipeOf(d, n, s), SendMsg(Initiator, payload, y, spare, Some([]));
    assert PairOk(d, n, s);
    HonestSound(d, s);
    OwnStep(d, n, s, step);
    PipeFirstSend(ConfigOf(d, s), ps, payload, y, spare);
    var n' := NetNext(d, n, s, step);
    assert RowsAt(d, n', s.1) == PipeOf(d, n', s).rowsB == RowsAt(d, n, s.1) && ThreadAt(n', s).world == PipeOf(d, n', s).world;
    StarvedIsClosed(d, n', s);
  }

  /** Any choices of different fresh keys. */
  ghost predicate FreshChoices(d: Directory, x: Draw, spareX: KeyId, responderKey: KeyId, turnKey: KeyId, y: Draw, spareY: KeyId) {
    && x.id != y.id && x.ratchetKey != spareX && y.ratchetKey != spareY && responderKey != turnKey
    && {x.ephemeral, x.ratchetKey, spareX} !! {responderKey, turnKey}
    && {x.ephemeral, x.ratchetKey, spareX, responderKey, turnKey} !! {y.ephemeral, y.ratchetKey, spareY}
    && (forall k :: k in {x.ephemeral, x.ratchetKey, spareX, responderKey, turnKey, y.ephemeral, y.ratchetKey, spareY} ==> !LongTerm(d, k))
  }

  lemma FirstServed(d: Directory, q: Pair, payload: Payload, x: Draw, spare: KeyId, responderKey: KeyId, turnKey: KeyId, keys: set<KeyId>)
    returns (moves: seq<Move>, p: Pipe)
    requires Honest(d) && q.0 != q.1 && d.offered(q).Some? && d.hosts(q.0).limits.None? && d.hosts(q.1).limits.None?
    requires {x.ephemeral, x.ratchetKey, spare} !! {responderKey, turnKey} && x.ratchetKey != spare && responderKey != turnKey
    requires keys == {x.ephemeral, x.ratchetKey, spare} + {responderKey, turnKey} && forall k :: k in keys ==> !LongTerm(d, k)
    ensures Solo(d, After(d, moves), q, p, keys) && p.sent.Keys == {x.id}
    ensures HasPrekeys(p.rowsB) && WireId(d.offered(q)) != 0 && WireId(d.offered(q)) !in p.rowsB[Prekeys].prekeys.oneTime
  {
    HonestSound(d, q);
    var s1, s2, s3, r := PipeServed(ConfigOf(d, q), payload, x, spare, responderKey, turnKey);
    SoloThree(d, q, s1, s2, s3, {x.ephemeral, x.ratchetKey, spare}, {responderKey, turnKey});
    moves, p := [Move(q, s1), Move(q, s2), Move(q, s3)], r;
  }

  lemma TooLate(d: Directory, n: Net, q: Pair, s: Pair, p: Pipe, keys: set<KeyId>)
    requires Honest(d) && Solo(d, n, q, p, keys) && s.1 == q.1 && s.0 != q.0 && s.0 != s.1 && q.0 != q.1 && d.offered(s) == d.offered(q)
    requires HasPrekeys(p.rowsB) && WireId(d.offered(q)) != 0 && WireId(d.offered(q)) !in p.rowsB[Prekeys].prekeys.oneTime
    ensures Openable(n, s) && ThreadAt(n, s).world.None? && Closed(RowsAt(d, n, s.1), s.0, WireId(d.offered(s)))
  {
    assert Reversed(s) != q;
    assert PairOk(d, n, s);
    assert RowsAt(d, n, q.1) == p.rowsB;
  }

  /** Three honest devices, two of which fetched the same bundle of the third: if `e` is received first, `a` is
      starved. */
  lemma TwoInitiatorsOneKey(d: Directory, a: Identity, b: Identity, e: Identity, payload: Payload,
                            x: Draw, spareX: KeyId, responderKey: KeyId, turnKey: KeyId, y: Draw, spareY: KeyId) returns (moves: seq<Move>)
    requires Honest(d) && a != b && b != e && a != e
    requires d.offered((a, b)).Some? && d.offered((e, b)) == d.offered((a, b))
    requires d.hosts(a).limits.None? && d.hosts(b).limits.None? && d.hosts(e).limits.None?
    requires FreshChoices(d, x, spareX, responderKey, turnKey, y, spareY)
    ensures Starved(d, After(d, moves), (a, b))
  {
    var q, s := (e, b), (a, b);
    var keys := {x.ephemeral, x.ratchetKey, spareX} + {responderKey, turnKey};
    var before, p := FirstServed(d, q, payload, x, spareX, responderKey, turnKey, keys);
    var n := After(d, before);
    TooLate(d, n, q, s, p, keys);
    assert FreshDraws(d, n, {y.ephemeral, y.ratchetKey, spareY});
    SecondStarves(d, n, s, payload, y, spareY);
    var last := Move(s, SendMsg(Initiator, payload, y, spareY, Some([])));
    RunSnoc(d, Begin(), before, last);
    moves := before + [last];
  }
}
