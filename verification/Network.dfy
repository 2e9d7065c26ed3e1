/**
 Any number of honest devices, every two of which may hold a conversation, all of them over the devices'
 shared rows: outboxes, inboxes, limits and one-time prekeys are one per device. Conversations are
 interleaved step by step in any way. Message ids, ephemeral keys and ratchet keys are drawn fresh.
 */
module Network {
  import opened Basics
  import opened Symbolic
  import opened DoubleRatchet
  import opened RatchetRuns
  import opened X3dh
  import opened PersistentClient
  import opened DirectMessages
  import opened DmPipeline

  type Pair = (Identity, Identity)

  /** What every device starts with, and the one-time key of the second's bundle that the first fetched. */
  datatype Directory = Directory(
    hosts: Identity -> Host,
    keys: Identity -> LocalPrekeys,
    signers: Identity -> KeyId,
    offered: Pair -> Option<nat>)

  function ConfigOf(d: Directory, q: Pair): Config {
    Config(d.hosts(q.0), d.hosts(q.1), q.0, q.1, d.keys(q.0), d.keys(q.1), d.signers(q.1), d.offered(q))
  }

  /** Every bundle was really exported: it is signed, and the key it offers was on offer, under a nonzero 32-bit id. */
  ghost predicate Honest(d: Directory) {
    && (forall i :: d.keys(i).signature == Signature(d.signers(i), d.keys(i).signedPrekey))
    && (forall q :: d.offered(q).Some? ==> d.offered(q).value in d.keys(q.1).oneTime && 0 < d.offered(q).value < U32)
  }

  /** The history of one conversation, opened by the first of the pair. */
  datatype Thread = Thread(
    wire: set<Envelope>,
    receipts: set<DeliveryReceipt>,
    world: Option<World>,
    sent: map<MsgId, Outgoing>,
    ids: map<Slot, MsgId>,
    arrivals: seq<MsgId>)

  datatype Net = Net(rows: map<Identity, Rows>, threads: map<Pair, Thread>, used: set<MsgId>, drawn: set<KeyId>)

  function Begin(): Net {
    Net(map[], map[], {}, {})
  }

  function RowsAt(d: Directory, n: Net, i: Identity): Rows {
    if i in n.rows then n.rows[i] else map[Prekeys := PrekeysV(d.keys(i))]
  }

  function ThreadAt(n: Net, q: Pair): Thread {
    if q in n.threads then n.threads[q] else Thread({}, {}, None, map[], map[], [])
  }

  /** One conversation, with everybody else's messages as `others`. */
  function PipeOf(d: Directory, n: Net, q: Pair): Pipe {
    var t := ThreadAt(n, q);
    Pipe(RowsAt(d, n, q.0), RowsAt(d, n, q.1), t.wire, t.receipts, t.world, t.sent, t.ids, t.arrivals, n.used - t.sent.Keys)
  }

  function ThreadOf(p: Pipe): Thread {
    Thread(p.wire, p.receipts, p.world, p.sent, p.ids, p.arrivals)
  }

  function Reversed(q: Pair): Pair {
    (q.1, q.0)
  }

  /** The pair may converse, and the second has not opened a session to the first. */
  predicate Openable(n: Net, q: Pair) {
    q.0 != q.1 && ThreadAt(n, Reversed(q)).world.None?
  }

  /** The long-term keys of the devices. */
  ghost predicate LongTerm(d: Directory, k: KeyId) {
    exists i :: k == d.keys(i).signedPrekey || k == d.keys(i).identityDh
  }

  /** The key pairs a step may draw. */
  function Draws(p: Pipe, step: DmPipeline.Step): set<KeyId> {
    match step
    case SendMsg(_, _, draw, spare, _) => if p.world.None? then {draw.ephemeral, draw.ratchetKey, spare} else {}
    case ReceiveMsg(_, _, responderKey, turnKey, _) => {responderKey, turnKey}
    case _ => {}
  }

  ghost predicate FreshDraws(d: Directory, n: Net, keys: set<KeyId>) {
    keys !! n.drawn && forall k :: k in keys ==> !LongTerm(d, k)
  }

  ghost function NetNext(d: Directory, n: Net, q: Pair, step: DmPipeline.Step): Net
    requires Honest(d)
  {
    var p := PipeOf(d, n, q);
    if !Openable(n, q) || !FreshDraws(d, n, Draws(p, step)) then n
    else
      var p' := Next(ConfigOf(d, q), p, step);
      Net(n.rows[q.0 := p'.rowsA][q.1 := p'.rowsB], n.threads[q := ThreadOf(p')], n.used + p'.sent.Keys, n.drawn + Draws(p, step))
  }

  datatype Move = Move(pair: Pair, step: DmPipeline.Step)

  ghost function Run(d: Directory, n: Net, moves: seq<Move>): Net
    requires Honest(d)
    decreases |moves|
  {
    if moves == [] then n else Run(d, NetNext(d, n, moves[0].pair, moves[0].step), moves[1..])
  }

  lemma RunCons(d: Directory, n: Net, m: Move, rest: seq<Move>)
    requires Honest(d)
    ensures Run(d, n, [m] + rest) == Run(d, NetNext(d, n, m.pair, m.step), rest)
  {
    assert ([m] + rest)[1..] == rest;
  }

  lemma {:induction false} RunSnoc(d: Directory, n: Net, moves: seq<Move>, m: Move)
    requires Honest(d)
    ensures Run(d, n, moves + [m]) == NetNext(d, Run(d, n, moves), m.pair, m.step)
    decreases |moves|
  {
    if moves == [] {
      assert [] + [m] == [m] + [];
      RunCons(d, n, m, []);
    } else {
      assert moves + [m] == [moves[0]] + (moves[1..] + [m]);
      RunCons(d, n, moves[0], moves[1..] + [m]);
      RunSnoc(d, NetNext(d, n, moves[0].pair, moves[0].step), moves[1..], m);
    }
  }

  // ---- What a step of one conversation does to a device ----

  /** Seen from any other conversation of the device: sessions with others stay, one-time prekeys are only spent,
      and the rows of others' messages change at most as retention changes them. */
  ghost predicate LocalAt(rows: Rows, after: Rows, peer: Identity, ids: set<MsgId>, idle: bool, n: Name) {
    match n
    case Session(x) => x != peer || idle ==> SameAt(rows, after, n)
    case Prekeys => HasPrekeys(rows) ==> KeepsPrekeys(after, rows[Prekeys].prekeys)
    case Queue(id) => id !in ids ==> BenignAt(rows, after, n)
    case Inbox(id) => id !in ids ==> BenignAt(rows, after, n)
    case _ => true
  }

  ghost predicate Local(rows: Rows, after: Rows, peer: Identity, ids: set<MsgId>, idle: bool) {
    forall n :: LocalAt(rows, after, peer, ids, idle, n)
  }

  lemma SameLocal(rows: Rows, peer: Identity, ids: set<MsgId>, idle: bool)
    ensures Local(rows, rows, peer, ids, idle)
  {
    forall n ensures LocalAt(rows, rows, peer, ids, idle, n) {
    }
  }

  lemma BenignLocal(rows: Rows, after: Rows, peer: Identity, ids: set<MsgId>, idle: bool)
    requires Benign(rows, after)
    ensures Local(rows, after, peer, ids, idle)
  {
    forall n ensures LocalAt(rows, after, peer, ids, idle, n) {
      assert BenignAt(rows, after, n);
    }
  }

  lemma SentLocal(rows: Rows, after: Rows, st: Ratchet, item: Item, ids: set<MsgId>)
    requires SentChange(rows, after, st, item) && item.id in ids
    ensures Local(rows, after, item.recipient, ids, false)
  {
    forall n ensures LocalAt(rows, after, item.recipient, ids, false, n) {
      if n == Prekeys && HasPrekeys(rows) {
        assert after[n] == rows[n];
      }
    }
  }

  /** Retention, then a stored message. */
  lemma StoredLocal(rows: Rows, kept: Rows, after: Rows, sender: Identity, st: Ratchet, msg: InboxMsg, ids: set<MsgId>)
    requires Benign(rows, kept) && StoredChange(kept, after, sender, st, msg) && msg.id in ids
    requires HasPrekeys(kept) ==> KeepsPrekeys(after, kept[Prekeys].prekeys)
    ensures Local(rows, after, sender, ids, false)
  {
    forall n ensures LocalAt(rows, after, sender, ids, false, n) {
      assert BenignAt(rows, kept, n);
    }
  }

  lemma DeliveredLocal(rows: Rows, after: Rows, peer: Identity, ids: set<MsgId>, idle: bool, id: MsgId)
    requires id in ids && forall n: Name :: n != Queue(id) && n != Receipt(id) ==> SameAt(rows, after, n)
    ensures Local(rows, after, peer, ids, idle)
  {
    forall n ensures LocalAt(rows, after, peer, ids, idle, n) {
      assert n != Queue(id) && n != Receipt(id) ==> SameAt(rows, after, n);
    }
  }

  /** What a step of a conversation changes at each end, and in its history. */
  ghost predicate StepsLocally(c: Config, p: Pipe, p': Pipe) {
    && Local(p.rowsA, p'.rowsA, c.b, p'.sent.Keys, p'.world.None?)
    && Local(p.rowsB, p'.rowsB, c.a, p'.sent.Keys, p'.world.None?)
    && p'.others == p.others && p.sent.Keys <= p'.sent.Keys && p'.sent.Keys !! p.others
    && (p.world.Some? ==> p'.world.Some?)
  }

  lemma OneEnd(c: Config, p: Pipe, role: Role, after: Rows, p': Pipe)
    requires p'.rowsA == WithRows(p, role, after).rowsA && p'.rowsB == WithRows(p, role, after).rowsB
    requires Local(RowsOf(p, role), after, IdOf(c, Peer(role)), p'.sent.Keys, p'.world.None?)
    requires p'.others == p.others && p.sent.Keys <= p'.sent.Keys && p'.sent.Keys !! p.others && (p.world.Some? ==> p'.world.Some?)
    ensures StepsLocally(c, p, p')
  {
    SameLocal(p.rowsA, c.b, p'.sent.Keys, p'.world.None?);
    SameLocal(p.rowsB, c.a, p'.sent.Keys, p'.world.None?);
  }

  lemma StutterLocal(c: Config, p: Pipe)
    requires p.sent.Keys !! p.others
    ensures StepsLocally(c, p, p)
  {
    OneEnd(c, p, Initiator, p.rowsA, p);
  }

  lemma SendLocal(c: Config, p: Pipe, role: Role, payload: Payload, draw: Draw, spare: KeyId, meta: Option<seq<(string, nat)>>)
    requires Sound(c) && p.sent.Keys !! p.others
    ensures StepsLocally(c, p, SendStep(c, p, role, payload, draw, spare, meta))
  {
    var p' := SendStep(c, p, role, payload, draw, spare, meta);
    if p' == p {
      StutterLocal(c, p);
    } else {
      SendStepForm(c, p, role, payload, draw, spare, meta);
      var prep := Prepare(IdOf(c, role), RowsOf(p, role), IdOf(c, Peer(role)), payload, BundleFor(c, role), draw);
      SentLocal(RowsOf(p, role), RowsOf(p', role), prep.st, ItemFor(prep.envelope), p'.sent.Keys);
      OneEnd(c, p, role, RowsOf(p', role), p');
    }
  }

  lemma TransmitLocal(c: Config, p: Pipe, role: Role, id: MsgId, now: int, counted: bool)
    requires p.sent.Keys !! p.others
    ensures StepsLocally(c, p, TransmitStep(c, p, role, id, now, counted))
  {
    var p' := TransmitStep(c, p, role, id, now, counted);
    if id in p.sent {
      var rows, after := RowsOf(p, role), RowsOf(p', role);
      DeliveredLocal(rows, after, IdOf(c, Peer(role)), p'.sent.Keys, p'.world.None?, id);
      OneEnd(c, p, role, after, p');
    } else {
      StutterLocal(c, p);
    }
  }

  lemma ReceiptLocal(c: Config, p: Pipe, role: Role, receipt: DeliveryReceipt, now: int)
    requires Books(c, p)
    ensures StepsLocally(c, p, ReceiptStep(c, p, role, receipt, now))
  {
    var p' := ReceiptStep(c, p, role, receipt, now);
    if p' == p {
      StutterLocal(c, p);
    } else {
      assert receipt.id in p.sent;
      DeliveredLocal(RowsOf(p, role), RowsOf(p', role), IdOf(c, Peer(role)), p'.sent.Keys, p'.world.None?, receipt.id);
      OneEnd(c, p, role, RowsOf(p', role), p');
    }
  }

  lemma ReceiveLocal(c: Config, p: Pipe, role: Role, env: Envelope, responderKey: KeyId, turnKey: KeyId, now: int)
    requires Sound(c) && PipeInv(c, p)
    ensures StepsLocally(c, p, ReceiveStep(c, p, role, env, responderKey, turnKey, now))
  {
    var p' := ReceiveStep(c, p, role, env, responderKey, turnKey, now);
    if env in p.wire && env.recipient == IdOf(c, role) && FreshKeys(p, responderKey, turnKey) {
      assert IdOk(c, p, env.id);
      var h, self := HostOf(c, role), IdOf(c, role);
      var kept := Retain(h, RowsOf(p, role), now);
      RetainBenign(h, RowsOf(p, role), now);
      ReceiveStepForm(c, p, role, env, responderKey, turnKey, now);
      var out := ReceiveDm(h, self, kept, env, responderKey, turnKey, now);
      if out.Stored? {
        StoredRowsChange(h, self, kept, env, responderKey, turnKey, now);
        var staged := Stage(kept, env, responderKey);
        var st := Open(staged.st, staged.frame, AadFor(env.sender, self), turnKey).state;
        StoredLocal(RowsOf(p, role), kept, out.rows, env.sender, st, InboxMsg(env.id, env.sender, out.payload, now, false), p.sent.Keys);
        assert env.sender == IdOf(c, Peer(role));
        OneEnd(c, p, role, out.rows, p');
      } else {
        BenignLocal(RowsOf(p, role), kept, IdOf(c, Peer(role)), p.sent.Keys, p'.world.None?);
        OneEnd(c, p, role, kept, p');
      }
    } else {
      StutterLocal(c, p);
    }
  }

  lemma StepLocal(c: Config, p: Pipe, step: DmPipeline.Step)
    requires Sound(c) && PipeInv(c, p)
    ensures StepsLocally(c, p, Next(c, p, step))
  {
    match step {
      case SendMsg(role, payload, draw, spare, meta) => SendLocal(c, p, role, payload, draw, spare, meta);
      case Transmit(role, id, now, counted) => TransmitLocal(c, p, role, id, now, counted);
      case ReceiveMsg(role, env, responderKey, turnKey, now) => ReceiveLocal(c, p, role, env, responderKey, turnKey, now);
      case ReceiptIn(role, receipt, now) => ReceiptLocal(c, p, role, receipt, now);
      case Retention(role, now) =>
        var after := Retain(HostOf(c, role), RowsOf(p, role), now);
        RetainBenign(HostOf(c, role), RowsOf(p, role), now);
        BenignLocal(RowsOf(p, role), after, IdOf(c, Peer(role)), p.sent.Keys, p.world.None?);
        OneEnd(c, p, role, after, Next(c, p, step));
    }
  }

  // ---- What the other conversations of that device see ----

  /** A change at one end of a conversation that none of its own steps made. */
  ghost predicate QuietAt(rows: Rows, after: Rows, peer: Identity, ids: set<MsgId>, others: set<MsgId>, n: Name) {
    match n
    case Session(x) => x == peer ==> SameAt(rows, after, n)
    case Prekeys => HasPrekeys(rows) ==> KeepsPrekeys(after, rows[Prekeys].prekeys)
    case Queue(id) => if id in ids then BenignAt(rows, after, n) else n in after ==> n in rows || id in others
    case Inbox(id) => if id in ids then BenignAt(rows, after, n) else n in after ==> n in rows || id in others
    case _ => true
  }

  ghost predicate Quiet(rows: Rows, after: Rows, peer: Identity, ids: set<MsgId>, others: set<MsgId>) {
    forall n :: QuietAt(rows, after, peer, ids, others, n)
  }

  lemma QuietSessions(c: Config, p: Pipe, role: Role, after: Rows, others: set<MsgId>)
    requires Sessions(c, p) && Quiet(RowsOf(p, role), after, IdOf(c, Peer(role)), p.sent.Keys, others)
    ensures Sessions(c, WithRows(p, role, after).(others := others))
  {
    var rows, peer := RowsOf(p, role), IdOf(c, Peer(role));
    assert QuietAt(rows, after, peer, p.sent.Keys, others, Prekeys);
    assert QuietAt(rows, after, peer, p.sent.Keys, others, Session(peer));
  }

  lemma QuietId(c: Config, p: Pipe, role: Role, after: Rows, others: set<MsgId>, id: MsgId)
    requires IdOk(c, p, id) && p.others <= others
    requires var rows, peer := RowsOf(p, role), IdOf(c, Peer(role));
             QuietAt(rows, after, peer, p.sent.Keys, others, Queue(id)) && QuietAt(rows, after, peer, p.sent.Keys, others, Inbox(id))
    ensures var p' := WithRows(p, role, after).(others := others); IdOk(c, p', id) && (Arrived(p', id) <==> Arrived(p, id))
  {
  }

  lemma QuietBooks(c: Config, p: Pipe, role: Role, after: Rows, others: set<MsgId>)
    requires Books(c, p) && Quiet(RowsOf(p, role), after, IdOf(c, Peer(role)), p.sent.Keys, others)
    requires p.others <= others && p.sent.Keys !! others
    ensures Books(c, WithRows(p, role, after).(others := others))
  {
    var p' := WithRows(p, role, after).(others := others);
    var rows, peer := RowsOf(p, role), IdOf(c, Peer(role));
    forall id ensures IdOk(c, p', id) && (Arrived(p', id) <==> Arrived(p, id)) {
      assert IdOk(c, p, id);
      assert QuietAt(rows, after, peer, p.sent.Keys, others, Queue(id)) && QuietAt(rows, after, peer, p.sent.Keys, others, Inbox(id));
      QuietId(c, p, role, after, others, id);
    }
    forall s ensures SlotOk(p', s) {
      assert SlotOk(p, s);
    }
  }

  /** Quiet changes at both ends. */
  lemma QuietKeeps(c: Config, p: Pipe, afterA: Rows, afterB: Rows, others: set<MsgId>)
    requires PipeInv(c, p) && p.others <= others && p.sent.Keys !! others
    requires Quiet(p.rowsA, afterA, c.b, p.sent.Keys, others) && Quiet(p.rowsB, afterB, c.a, p.sent.Keys, others)
    ensures PipeInv(c, p.(rowsA := afterA, rowsB := afterB, others := others))
  {
    QuietSessions(c, p, Initiator, afterA, others);
    QuietBooks(c, p, Initiator, afterA, others);
    var p1 := WithRows(p, Initiator, afterA).(others := others);
    QuietSessions(c, p1, Responder, afterB, others);
    QuietBooks(c, p1, Responder, afterB, others);
    assert WithRows(p1, Responder, afterB).(others := others) == p.(rowsA := afterA, rowsB := afterB, others := others);
  }

  /** A local change of one conversation is quiet for another with a different peer, or if the first is idle. */
  lemma LocalIsQuiet(rows: Rows, after: Rows, peer: Identity, ids: set<MsgId>, idle: bool, x: Identity, mine: set<MsgId>, others: set<MsgId>)
    requires Local(rows, after, peer, ids, idle) && (x != peer || idle) && mine !! ids && ids <= others
    ensures Quiet(rows, after, x, mine, others)
  {
    forall n ensures QuietAt(rows, after, x, mine, others, n) {
      assert LocalAt(rows, after, peer, ids, idle, n);
    }
  }

  lemma SameQuiet(rows: Rows, x: Identity, mine: set<MsgId>, others: set<MsgId>)
    ensures Quiet(rows, rows, x, mine, others)
  {
    forall n ensures QuietAt(rows, rows, x, mine, others, n) {
    }
  }

  // ---- The invariant of the network ----

  ghost predicate PairOk(d: Directory, n: Net, q: Pair) {
    Openable(n, q) ==> PipeInv(ConfigOf(d, q), PipeOf(d, n, q))
  }

  /** Ids are used in one conversation only, and of two devices only one opens the session. */
  ghost predicate ApartOk(n: Net, q: Pair, r: Pair) {
    q != r ==> ThreadAt(n, q).sent.Keys !! ThreadAt(n, r).sent.Keys
  }

  ghost predicate ThreadOk(n: Net, q: Pair) {
    && ThreadAt(n, q).sent.Keys <= n.used
    && (ThreadAt(n, q).world.None? ==> ThreadAt(n, q).sent == map[] && ThreadAt(n, q).wire == {})
    && (ThreadAt(n, q).world.Some? ==> q.0 != q.1 && ThreadAt(n, Reversed(q)).world.None?)
  }

  function End(q: Pair, role: Role): Identity {
    if role.Initiator? then q.0 else q.1
  }

  predicate SentFrom(n: Net, q: Pair, id: MsgId, i: Identity) {
    id in ThreadAt(n, q).sent && End(q, ThreadAt(n, q).sent[id].role) == i
  }

  predicate SentTo(n: Net, q: Pair, id: MsgId, i: Identity) {
    id in ThreadAt(n, q).sent && End(q, Peer(ThreadAt(n, q).sent[id].role)) == i
  }

  /** An outbox holds only what the device sent in some conversation, an inbox only what it was sent. */
  ghost predicate OwnedAt(n: Net, rows: Rows, i: Identity, id: MsgId) {
    && (Queue(id) in rows ==> exists q :: SentFrom(n, q, id, i))
    && (Inbox(id) in rows ==> exists q :: SentTo(n, q, id, i))
  }

  ghost predicate Owned(d: Directory, n: Net, i: Identity, id: MsgId) {
    OwnedAt(n, RowsAt(d, n, i), i, id)
  }

  ghost predicate NetOk(d: Directory, n: Net) {
    && (forall q :: PairOk(d, n, q))
    && (forall q :: ThreadOk(n, q))
    && (forall q, r :: ApartOk(n, q, r))
    && (forall i, id :: Owned(d, n, i, id))
  }

  lemma HonestSound(d: Directory, q: Pair)
    requires Honest(d) && q.0 != q.1
    ensures Sound(ConfigOf(d, q))
  {
    assert d.offered(q).Some? ==> d.offered(q).value in d.keys(q.1).oneTime;
  }

  lemma BeginOk(d: Directory)
    requires Honest(d)
    ensures NetOk(d, Begin())
  {
    forall q ensures PairOk(d, Begin(), q) {
      if q.0 != q.1 {
        HonestSound(d, q);
        StartInv(ConfigOf(d, q));
        assert PipeOf(d, Begin(), q) == Start(ConfigOf(d, q));
      }
    }
    forall i, id ensures Owned(d, Begin(), i, id) {
    }
  }

  /** The step itself, as `NetNext` takes it. */
  ghost predicate Steps(d: Directory, n: Net, n': Net, q: Pair, p': Pipe) {
    && Openable(n, q)
    && StepsLocally(ConfigOf(d, q), PipeOf(d, n, q), p') && PipeInv(ConfigOf(d, q), p')
    && n'.rows == n.rows[q.0 := p'.rowsA][q.1 := p'.rowsB] && n'.threads == n.threads[q := ThreadOf(p')] && n'.used == n.used + p'.sent.Keys
  }

  /** At any device, what a step of `q` changed is quiet for the end of `r` there. */
  lemma DeviceQuiet(d: Directory, n: Net, n': Net, q: Pair, p': Pipe, i: Identity, x: Identity, mine: set<MsgId>, others: set<MsgId>)
    requires Steps(d, n, n', q, p') && mine !! p'.sent.Keys && p'.sent.Keys <= others
    requires (i, x) == q || (x, i) == q ==> p'.world.None?
    ensures Quiet(RowsAt(d, n, i), RowsAt(d, n', i), x, mine, others)
  {
    if i == q.0 {
      LocalIsQuiet(RowsAt(d, n, i), p'.rowsA, q.1, p'.sent.Keys, p'.world.None?, x, mine, others);
    } else if i == q.1 {
      LocalIsQuiet(RowsAt(d, n, i), p'.rowsB, q.0, p'.sent.Keys, p'.world.None?, x, mine, others);
    } else {
      SameQuiet(RowsAt(d, n, i), x, mine, others);
    }
  }

  lemma OtherPairKept(d: Directory, n: Net, n': Net, q: Pair, p': Pipe, r: Pair)
    requires Steps(d, n, n', q, p') && r != q && Openable(n', r)
    requires PairOk(d, n, r) && ThreadOk(n, r) && ApartOk(n, q, r)
    ensures PairOk(d, n', r)
  {
    var c, p, pr := ConfigOf(d, r), PipeOf(d, n, q), PipeOf(d, n, r);
    assert ThreadAt(n', r) == ThreadAt(n, r);
    assert Openable(n, r);
    var mine := pr.sent.Keys;
    var others := n'.used - mine;
    assert p'.sent.Keys !! mine by {
      assert p'.sent.Keys !! p.others;
    }
    DeviceQuiet(d, n, n', q, p', r.0, r.1, mine, others);
    DeviceQuiet(d, n, n', q, p', r.1, r.0, mine, others);
    QuietKeeps(c, pr, RowsAt(d, n', r.0), RowsAt(d, n', r.1), others);
    assert PipeOf(d, n', r) == pr.(rowsA := RowsAt(d, n', r.0), rowsB := RowsAt(d, n', r.1), others := others);
  }

  lemma ThreadsKept(n: Net, n': Net, q: Pair, p': Pipe, r: Pair)
    requires ThreadOk(n, r) && ThreadOk(n, Reversed(r)) && Openable(n, q)
    requires n'.threads == n.threads[q := ThreadOf(p')] && n'.used == n.used + p'.sent.Keys
    requires p'.world.None? ==> p'.sent == map[] && p'.wire == {}
    ensures ThreadOk(n', r)
  {
    assert Reversed(Reversed(r)) == r;
  }

  lemma ApartKept(n: Net, n': Net, q: Pair, p': Pipe, r: Pair, s: Pair)
    requires n'.threads == n.threads[q := ThreadOf(p')]
    requires ApartOk(n, r, s) && ThreadOk(n, r) && ThreadOk(n, s) && p'.sent.Keys !! n.used - ThreadAt(n, q).sent.Keys
    requires ApartOk(n, q, s) && ApartOk(n, r, q)
    ensures ApartOk(n', r, s)
  {
  }

  /** A message of the conversation that moved is held at its ends alone. */
  lemma OwnedHere(d: Directory, n: Net, n': Net, q: Pair, p': Pipe, i: Identity, id: MsgId)
    requires Steps(d, n, n', q, p') && ThreadOk(n, q) && id in p'.sent && Owned(d, n, i, id)
    requires forall r :: ThreadOk(n, r) && ApartOk(n, q, r)
    ensures Owned(d, n', i, id)
  {
    assert ThreadAt(n', q) == ThreadOf(p') && IdOk(ConfigOf(d, q), p', id);
    var role := p'.sent[id].role;
    assert SentFrom(n', q, id, End(q, role)) && SentTo(n', q, id, End(q, Peer(role)));
    if i != q.0 && i != q.1 {
      assert RowsAt(d, n', i) == RowsAt(d, n, i);
      forall r ensures !SentFrom(n, r, id, i) && !SentTo(n, r, id, i) {
        assert ThreadOk(n, r) && ApartOk(n, q, r);
      }
    }
  }

  /** A local change adds and removes no message of other conversations. */
  lemma LocalHolds(rows: Rows, after: Rows, peer: Identity, ids: set<MsgId>, idle: bool, id: MsgId)
    requires Local(rows, after, peer, ids, idle) && id !in ids
    ensures (Queue(id) in after <==> Queue(id) in rows) && (Inbox(id) in after <==> Inbox(id) in rows)
  {
    assert LocalAt(rows, after, peer, ids, idle, Queue(id)) && LocalAt(rows, after, peer, ids, idle, Inbox(id));
  }

  lemma SameHolds(d: Directory, n: Net, n': Net, q: Pair, p': Pipe, i: Identity, id: MsgId)
    requires StepsLocally(ConfigOf(d, q), PipeOf(d, n, q), p') && id !in p'.sent
    requires n'.rows == n.rows[q.0 := p'.rowsA][q.1 := p'.rowsB]
    ensures Queue(id) in RowsAt(d, n', i) <==> Queue(id) in RowsAt(d, n, i)
    ensures Inbox(id) in RowsAt(d, n', i) <==> Inbox(id) in RowsAt(d, n, i)
  {
    if i == q.1 {
      LocalHolds(RowsAt(d, n, i), p'.rowsB, q.0, p'.sent.Keys, p'.world.None?, id);
    } else if i == q.0 {
      LocalHolds(RowsAt(d, n, i), p'.rowsA, q.1, p'.sent.Keys, p'.world.None?, id);
    }
  }

  lemma OwnedElsewhere(n: Net, n': Net, q: Pair, t: Thread, rows: Rows, after: Rows, i: Identity, id: MsgId)
    requires n'.threads == n.threads[q := t] && id !in ThreadAt(n, q).sent && OwnedAt(n, rows, i, id)
    requires (Queue(id) in after ==> Queue(id) in rows) && (Inbox(id) in after ==> Inbox(id) in rows)
    ensures OwnedAt(n', after, i, id)
  {
    if Queue(id) in after {
      var r :| SentFrom(n, r, id, i);
      assert SentFrom(n', r, id, i);
    }
    if Inbox(id) in after {
      var r :| SentTo(n, r, id, i);
      assert SentTo(n', r, id, i);
    }
  }

  lemma OwnedKept(d: Directory, n: Net, n': Net, q: Pair, p': Pipe, i: Identity, id: MsgId)
    requires Steps(d, n, n', q, p') && Owned(d, n, i, id)
    requires forall r :: ThreadOk(n, r) && ApartOk(n, q, r)
    ensures Owned(d, n', i, id)
  {
    if id in p'.sent {
      assert ThreadOk(n, q);
      OwnedHere(d, n, n', q, p', i, id);
    } else {
      SameHolds(d, n, n', q, p', i, id);
      OwnedElsewhere(n, n', q, ThreadOf(p'), RowsAt(d, n, i), RowsAt(d, n', i), i, id);
    }
  }

  lemma OwnersKept(d: Directory, n: Net, n': Net, q: Pair, p': Pipe)
    requires Steps(d, n, n', q, p') && (forall r :: ThreadOk(n, r) && ApartOk(n, q, r)) && forall i, id :: Owned(d, n, i, id)
    ensures forall i, id :: Owned(d, n', i, id)
  {
    forall i, id ensures Owned(d, n', i, id) {
      assert Owned(d, n, i, id);
      OwnedKept(d, n, n', q, p', i, id);
    }
  }

  lemma ApartsKept(d: Directory, n: Net, n': Net, q: Pair, p': Pipe)
    requires NetOk(d, n) && Steps(d, n, n', q, p')
    ensures (forall r :: ThreadOk(n', r)) && forall r, s :: ApartOk(n', r, s)
  {
    forall r ensures ThreadOk(n', r) {
      assert ThreadOk(n, r) && ThreadOk(n, Reversed(r));
      ThreadsKept(n, n', q, p', r);
    }
    forall r, s ensures ApartOk(n', r, s) {
      assert ApartOk(n, r, s) && ThreadOk(n, r) && ThreadOk(n, s) && ApartOk(n, r, q) && ApartOk(n, q, s);
      ApartKept(n, n', q, p', r, s);
    }
  }

  /** The conversation that moved is as its own step left it. */
  lemma SelfKept(d: Directory, n: Net, n': Net, q: Pair, p': Pipe)
    requires ThreadOk(n, q) && Steps(d, n, n', q, p')
    ensures PipeOf(d, n', q) == p' && PairOk(d, n', q)
  {
    assert p'.others == n'.used - p'.sent.Keys;
    assert PipeOf(d, n', q) == p';
  }

  lemma StepsKeep(d: Directory, n: Net, n': Net, q: Pair, p': Pipe)
    requires NetOk(d, n) && Steps(d, n, n', q, p')
    ensures NetOk(d, n') && PipeOf(d, n', q) == p'
  {
    assert ThreadOk(n, q);
    SelfKept(d, n, n', q, p');
    forall r ensures PairOk(d, n', r) {
      if r != q && Openable(n', r) {
        assert PairOk(d, n, r) && ThreadOk(n, r) && ApartOk(n, q, r);
        OtherPairKept(d, n, n', q, p', r);
      }
    }
    ApartsKept(d, n, n', q, p');
    OwnersKept(d, n, n', q, p');
  }

  lemma StepTaken(d: Directory, n: Net, r: Pair, step: DmPipeline.Step)
    requires Honest(d) && NetOk(d, n) && Openable(n, r) && FreshDraws(d, n, Draws(PipeOf(d, n, r), step))
    ensures Sound(ConfigOf(d, r)) && Steps(d, n, NetNext(d, n, r, step), r, Next(ConfigOf(d, r), PipeOf(d, n, r), step))
  {
    HonestSound(d, r);
    assert PairOk(d, n, r);
    StepLocal(ConfigOf(d, r), PipeOf(d, n, r), step);
    StepKeeps(ConfigOf(d, r), PipeOf(d, n, r), step);
  }

  lemma OwnStep(d: Directory, n: Net, s: Pair, step: DmPipeline.Step)
    requires Honest(d) && NetOk(d, n) && Openable(n, s) && FreshDraws(d, n, Draws(PipeOf(d, n, s), step))
    ensures var n' := NetNext(d, n, s, step);
            NetOk(d, n') && PipeOf(d, n', s) == Next(ConfigOf(d, s), PipeOf(d, n, s), step) && Openable(n', s)
  {
    StepTaken(d, n, s, step);
    StepsKeep(d, n, NetNext(d, n, s, step), s, Next(ConfigOf(d, s), PipeOf(d, n, s), step));
  }

  lemma NetNextKeeps(d: Directory, n: Net, q: Pair, step: DmPipeline.Step)
    requires Honest(d) && NetOk(d, n)
    ensures NetOk(d, NetNext(d, n, q, step))
  {
    var n' := NetNext(d, n, q, step);
    var p := PipeOf(d, n, q);
    if Openable(n, q) && FreshDraws(d, n, Draws(p, step)) {
      var c := ConfigOf(d, q);
      HonestSound(d, q);
      assert PairOk(d, n, q);
      StepLocal(c, p, step);
      StepKeeps(c, p, step);
      StepsKeep(d, n, n', q, Next(c, p, step));
    }
  }

  lemma {:induction false} RunKeeps(d: Directory, n: Net, moves: seq<Move>)
    requires Honest(d) && NetOk(d, n)
    ensures NetOk(d, Run(d, n, moves))
    decreases |moves|
  {
    if moves != [] {
      NetNextKeeps(d, n, moves[0].pair, moves[0].step);
      RunKeeps(d, NetNext(d, n, moves[0].pair, moves[0].step), moves[1..]);
    }
  }

  // ---- Keys of different conversations ----

  /** The ratchet keys a conversation has used or holds. */
  function KeySet(w: World): set<KeyId> {
    (set k | k in w.keys) + {w.a.dhs, w.b.dhs}
  }

  /** The root of a session opened with this ephemeral key. */
  predicate BornOf(sk: Secret, signedPrekey: KeyId, ephemeral: KeyId) {
    |sk.parts| >= 3 && sk.parts[2] == Dh(ephemeral, signedPrekey)
  }

  lemma SealKeySet(w: World, role: Role, plain: Payload, aad: Aad, nonce: nat)
    ensures var w' := SealStep(w, role, plain, aad, nonce); KeySet(w') <= KeySet(w) && w'.sk == w.sk
  {
    var v := Started(w, role);
    assert KeySet(v) <= KeySet(w) && v.sk == w.sk;
  }

  lemma OpenDhs(st: Ratchet, blob: Blob, aad: Aad, newKey: KeyId)
    ensures OpenBlob(st, blob, aad, newKey).state.dhs in {st.dhs, newKey}
  {
    var h := blob.header;
    if st.dhr.Some? && st.ckr.Some? {
      SkipToKeepsChain(st, h.pn, st.dhr.value);
    }
    var aligned := Align(st, h, newKey).0;
    if aligned.ckr.Some? {
      SkipToKeepsChain(aligned, h.n, h.dh);
    }
  }

  lemma DeliverKeySet(w: World, role: Role, wire: Wire, aad: Aad, newKey: KeyId)
    ensures var w' := DeliverStep(w, role, wire, aad, newKey); KeySet(w') <= KeySet(w) + {newKey} && w'.sk == w.sk
  {
    if wire.Frame? {
      OpenDhs(St(w, role), wire.blob, aad, newKey);
    }
  }

  /** A step of a conversation uses only keys it had, or has just drawn. */
  ghost predicate KeyStep(c: Config, p: Pipe, p': Pipe, draws: set<KeyId>) {
    match (p.world, p'.world)
    case (None, None) => true
    case (Some(_), None) => false
    case (Some(w), Some(w')) => w'.sk == w.sk && KeySet(w') <= KeySet(w) + draws
    case (None, Some(w')) => KeySet(w') <= draws && exists e :: e in draws && BornOf(w'.sk, c.keysB.signedPrekey, e)
  }

  lemma SendWorld(c: Config, p: Pipe, role: Role, payload: Payload, draw: Draw, spare: KeyId, meta: Option<seq<(string, nat)>>)
    requires Sound(c)
    ensures var p' := SendStep(c, p, role, payload, draw, spare, meta);
            || p'.world == p.world
            || p'.world == Some(SealStep(WorldFor(c, p, draw, spare), role, payload, AadFor(IdOf(c, role), IdOf(c, Peer(role))), draw.nonce))
  {
  }

  lemma SendKeyStep(c: Config, p: Pipe, role: Role, payload: Payload, draw: Draw, spare: KeyId, meta: Option<seq<(string, nat)>>)
    requires Sound(c)
    ensures KeyStep(c, p, SendStep(c, p, role, payload, draw, spare, meta), if p.world.None? then {draw.ephemeral, draw.ratchetKey, spare} else {})
  {
    var w := WorldFor(c, p, draw, spare);
    SendWorld(c, p, role, payload, draw, spare, meta);
    SealKeySet(w, role, payload, AadFor(IdOf(c, role), IdOf(c, Peer(role))), draw.nonce);
    if p.world.None? {
      FirstKeySet(c, p, draw, spare);
    }
  }

  lemma FirstKeySet(c: Config, p: Pipe, draw: Draw, spare: KeyId)
    requires Sound(c) && p.world.None?
    ensures var w := WorldFor(c, p, draw, spare); KeySet(w) == {draw.ratchetKey, spare} && BornOf(w.sk, c.keysB.signedPrekey, draw.ephemeral)
  {
  }

  lemma ReceiveWorld(c: Config, p: Pipe, role: Role, env: Envelope, responderKey: KeyId, turnKey: KeyId, now: int)
    requires p.world.Some?
    ensures var p' := ReceiveStep(c, p, role, env, responderKey, turnKey, now);
            var w0 := Rekeyed(p.world.value, Retain(HostOf(c, role), RowsOf(p, role), now), role, env.sender, responderKey);
            || p'.world == p.world
            || p'.world == Some(DeliverStep(w0, role, env.body.frame, AadFor(env.sender, IdOf(c, role)), turnKey))
  {
  }

  lemma ReceiveKeyStep(c: Config, p: Pipe, role: Role, env: Envelope, responderKey: KeyId, turnKey: KeyId, now: int)
    ensures KeyStep(c, p, ReceiveStep(c, p, role, env, responderKey, turnKey, now), {responderKey, turnKey})
  {
    if p.world.Some? {
      var w0 := Rekeyed(p.world.value, Retain(HostOf(c, role), RowsOf(p, role), now), role, env.sender, responderKey);
      assert KeySet(w0) <= KeySet(p.world.value) + {responderKey} && w0.sk == p.world.value.sk;
      DeliverKeySet(w0, role, env.body.frame, AadFor(env.sender, IdOf(c, role)), turnKey);
      ReceiveWorld(c, p, role, env, responderKey, turnKey, now);
    }
  }

  lemma SameWorld(c: Config, p: Pipe, p': Pipe, draws: set<KeyId>)
    requires p'.world == p.world
    ensures KeyStep(c, p, p', draws)
  {
  }

  lemma QuietWorld(c: Config, p: Pipe, step: DmPipeline.Step)
    requires Sound(c) && !step.SendMsg? && !step.ReceiveMsg?
    ensures Next(c, p, step).world == p.world
  {
  }

  lemma StepKeys(c: Config, p: Pipe, step: DmPipeline.Step)
    requires Sound(c)
    ensures KeyStep(c, p, Next(c, p, step), Draws(p, step))
  {
    if step.SendMsg? {
      SendKeyStep(c, p, step.role, step.payload, step.draw, step.spare, step.meta);
    } else if step.ReceiveMsg? {
      ReceiveKeyStep(c, p, step.role, step.env, step.responderKey, step.turnKey, step.now);
    } else {
      QuietWorld(c, p, step);
      SameWorld(c, p, Next(c, p, step), Draws(p, step));
    }
  }

  ghost predicate KeysOk(d: Directory, n: Net, q: Pair) {
    var t := ThreadAt(n, q);
    t.world.Some? ==>
      && KeySet(t.world.value) <= n.drawn
      && exists e :: e in n.drawn && !LongTerm(d, e) && BornOf(t.world.value.sk, d.keys(q.1).signedPrekey, e)
  }

  /** Two conversations share no root and no ratchet key. */
  ghost predicate DistinctOk(n: Net, q: Pair, r: Pair) {
    var s, t := ThreadAt(n, q), ThreadAt(n, r);
    q != r && s.world.Some? && t.world.Some? ==>
      s.world.value.sk != t.world.value.sk && KeySet(s.world.value) !! KeySet(t.world.value)
  }

  ghost predicate AllKeysOk(d: Directory, n: Net) {
    && (forall q :: KeysOk(d, n, q))
    && (forall q, r :: DistinctOk(n, q, r))
  }

  lemma DifferentBirths(d: Directory, a: Secret, b: Secret, i: Identity, j: Identity, e: KeyId, f: KeyId)
    requires BornOf(a, d.keys(i).signedPrekey, e) && BornOf(b, d.keys(j).signedPrekey, f)
    requires e != f && !LongTerm(d, e) && !LongTerm(d, f)
    ensures a != b
  {
    assert e != d.keys(j).signedPrekey;
  }

  lemma DistinctKept(d: Directory, n: Net, n': Net, q: Pair, p': Pipe, draws: set<KeyId>, r: Pair)
    requires n'.threads == n.threads[q := ThreadOf(p')] && q != r
    requires KeyStep(ConfigOf(d, q), PipeOf(d, n, q), p', draws) && FreshDraws(d, n, draws)
    requires KeysOk(d, n, q) && KeysOk(d, n, r) && DistinctOk(n, q, r)
    ensures DistinctOk(n', q, r) && DistinctOk(n', r, q)
  {
    var s, t := ThreadAt(n', q), ThreadAt(n', r);
    assert t == ThreadAt(n, r);
    if s.world.Some? && t.world.Some? && ThreadAt(n, q).world.None? {
      var e :| e in draws && BornOf(s.world.value.sk, d.keys(q.1).signedPrekey, e);
      var f :| f in n.drawn && !LongTerm(d, f) && BornOf(t.world.value.sk, d.keys(r.1).signedPrekey, f);
      DifferentBirths(d, s.world.value.sk, t.world.value.sk, q.1, r.1, e, f);
    }
  }

  lemma KeysKept(d: Directory, n: Net, n': Net, q: Pair, p': Pipe, draws: set<KeyId>, r: Pair)
    requires n'.threads == n.threads[q := ThreadOf(p')] && n'.drawn == n.drawn + draws
    requires KeyStep(ConfigOf(d, q), PipeOf(d, n, q), p', draws) && FreshDraws(d, n, draws) && KeysOk(d, n, r)
    ensures KeysOk(d, n', r)
  {
    var t := ThreadAt(n', r);
    if t.world.Some? {
      if r == q && ThreadAt(n, q).world.None? {
        var e :| e in draws && BornOf(t.world.value.sk, d.keys(q.1).signedPrekey, e);
        assert e in n'.drawn && !LongTerm(d, e);
      } else {
        var e :| e in n.drawn && !LongTerm(d, e) && BornOf(ThreadAt(n, r).world.value.sk, d.keys(r.1).signedPrekey, e);
        assert e in n'.drawn;
      }
    }
  }

  lemma NetNextKeys(d: Directory, n: Net, q: Pair, step: DmPipeline.Step)
    requires Honest(d) && AllKeysOk(d, n)
    ensures AllKeysOk(d, NetNext(d, n, q, step))
  {
    var n' := NetNext(d, n, q, step);
    var p := PipeOf(d, n, q);
    if Openable(n, q) && FreshDraws(d, n, Draws(p, step)) {
      HonestSound(d, q);
      var p' := Next(ConfigOf(d, q), p, step);
      StepKeys(ConfigOf(d, q), p, step);
      KeysStep(d, n, n', q, p', Draws(p, step));
    }
  }

  lemma KeysStep(d: Directory, n: Net, n': Net, q: Pair, p': Pipe, draws: set<KeyId>)
    requires AllKeysOk(d, n) && n'.threads == n.threads[q := ThreadOf(p')] && n'.drawn == n.drawn + draws
    requires KeyStep(ConfigOf(d, q), PipeOf(d, n, q), p', draws) && FreshDraws(d, n, draws)
    ensures AllKeysOk(d, n')
  {
    forall r ensures KeysOk(d, n', r) {
      assert KeysOk(d, n, r);
      KeysKept(d, n, n', q, p', draws, r);
    }
    forall r, s ensures DistinctOk(n', r, s) {
      assert KeysOk(d, n, q) && KeysOk(d, n, r) && KeysOk(d, n, s) && DistinctOk(n, r, s) && DistinctOk(n, q, s) && DistinctOk(n, q, r);
      if r == q && s != q {
        DistinctKept(d, n, n', q, p', draws, s);
      } else if s == q && r != q {
        DistinctKept(d, n, n', q, p', draws, r);
      }
    }
  }

  lemma {:induction false} RunKeys(d: Directory, n: Net, moves: seq<Move>)
    requires Honest(d) && AllKeysOk(d, n)
    ensures AllKeysOk(d, Run(d, n, moves))
    decreases |moves|
  {
    if moves != [] {
      NetNextKeys(d, n, moves[0].pair, moves[0].step);
      RunKeys(d, NetNext(d, n, moves[0].pair, moves[0].step), moves[1..]);
    }
  }
}
