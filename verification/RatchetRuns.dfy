/**
 Runs of one initiator and one responder that share a root, over a network that loses,
 duplicates, reorders and tampers.

 The proof looks at a session as a sequence of epochs. Epoch 0 is the initiator's bootstrap
 chain, epoch 1 the responder's first chain, and so on in turn: `keys[e]` is the ratchet key
 of epoch `e` and `lens[e]` the number of messages sealed in it. A message is the slot
 (epoch, index). Neither peer stores any of this; the invariant ties it to what they do store.
 */
module RatchetRuns {
  import opened Basics
  import opened Symbolic
  import opened DoubleRatchet

  datatype Role = Initiator | Responder

  function Peer(role: Role): Role {
    if role.Initiator? then Responder else Initiator
  }

  datatype Slot = Slot(epoch: nat, idx: nat)

  datatype Sent = Sent(blob: Blob, aad: Aad, plain: Payload)

  datatype World = World(
    sk: Secret,
    a: Ratchet,
    b: Ratchet,
    keys: seq<KeyId>,
    lens: seq<nat>,
    log: map<Slot, Sent>,
    taken: set<Slot>)

  function St(w: World, role: Role): Ratchet {
    if role.Initiator? then w.a else w.b
  }

  function WithSt(w: World, role: Role, st: Ratchet): World {
    if role.Initiator? then w.(a := st) else w.(b := st)
  }

  predicate Owns(role: Role, e: int) {
    (e % 2 == 0) == role.Initiator?
  }

  // ---- The key schedule of a session ----

  function Ikm(keys: seq<KeyId>, e: nat): DhOut
    requires e < |keys|
  {
    if e == 0 then PublicBytes(keys[0]) else Dh(keys[e - 1], keys[e])
  }

  function RootAt(sk: Secret, keys: seq<KeyId>, e: nat): Root
    requires e <= |keys|
  {
    if e == 0 then Seed(sk) else NextRoot(RootAt(sk, keys, e - 1), Ikm(keys, e - 1))
  }

  function ChainAt(sk: Secret, keys: seq<KeyId>, e: nat): ChainKey
    requires e < |keys|
  {
    FirstChain(RootAt(sk, keys, e), Ikm(keys, e))
  }

  function KeyAt(sk: Secret, keys: seq<KeyId>, e: nat, i: nat): MessageKey
    requires e < |keys|
  {
    MessageKey(Advance(ChainAt(sk, keys, e), i))
  }

  lemma {:induction false} RootDepth(sk: Secret, keys: seq<KeyId>, e: nat)
    requires e <= |keys|
    ensures Depth(RootAt(sk, keys, e)) == e
  {
    if e > 0 {
      RootDepth(sk, keys, e - 1);
    }
  }

  lemma {:induction false} RootFrame(sk: Secret, keys: seq<KeyId>, k: KeyId, e: nat)
    requires e <= |keys|
    ensures RootAt(sk, keys + [k], e) == RootAt(sk, keys, e)
  {
    if e > 0 {
      RootFrame(sk, keys, k, e - 1);
    }
  }

  lemma ChainFrame(sk: Secret, keys: seq<KeyId>, k: KeyId)
    ensures forall e: nat :: e < |keys| ==> ChainAt(sk, keys + [k], e) == ChainAt(sk, keys, e)
  {
    forall e: nat | e < |keys| ensures ChainAt(sk, keys + [k], e) == ChainAt(sk, keys, e) {
      RootFrame(sk, keys, k, e);
    }
  }

  /** Message keys of different slots differ: a message key names its slot. */
  lemma KeyAtInjective(sk: Secret, keys: seq<KeyId>, e: nat, i: nat, f: nat, j: nat)
    requires e < |keys| && f < |keys|
    ensures KeyAt(sk, keys, e, i) == KeyAt(sk, keys, f, j) <==> e == f && i == j
  {
    AdvanceInjective(ChainAt(sk, keys, e), i, ChainAt(sk, keys, f), j);
    RootDepth(sk, keys, e);
    RootDepth(sk, keys, f);
  }

  // ---- What a peer's stored state must be ----

  /** The newest epoch received, negative if none, for a peer that has absorbed `m` epochs. */
  function RecvEpoch(role: Role, m: nat): int {
    if role.Responder? && m == 1 then 0 else m - 2
  }

  /** The newest epoch this peer sends in, negative if none. */
  function SendEpoch(role: Role, m: nat): int {
    if role.Responder? && m == 1 then -1 else m - 1
  }

  function PnOf(lens: seq<nat>, e: nat): nat
    requires e < |lens|
  {
    if e >= 2 then lens[e - 2] else 0
  }

  ghost predicate RecvShape(st: Ratchet, r: int, sk: Secret, keys: seq<KeyId>, lens: seq<nat>)
    requires r < |keys| == |lens|
  {
    if r < 0 then st.dhr.None? && st.ckr.None? && st.nr == 0
    else st.dhr == Some(keys[r]) && st.ckr == Some(Advance(ChainAt(sk, keys, r), st.nr)) && st.nr <= lens[r]
  }

  ghost predicate SendShape(st: Ratchet, s: int, sk: Secret, keys: seq<KeyId>, lens: seq<nat>)
    requires s < |keys| == |lens|
  {
    if s < 0 then st.cks.None? && st.ns == 0 && st.pn == 0 && st.dhs !in keys
    else
      && st.dhs == keys[s] && st.cks == Some(Advance(ChainAt(sk, keys, s), st.ns))
      && st.ns == lens[s] && st.pn == PnOf(lens, s)
  }

  ghost predicate Party(st: Ratchet, role: Role, sk: Secret, keys: seq<KeyId>, lens: seq<nat>) {
    var m := Depth(st.rk);
    && m <= |keys| == |lens|
    && (if role.Initiator? then m % 2 == 1 else m == 1 || m % 2 == 0)
    && st.rk == RootAt(sk, keys, m)
    && RecvShape(st, RecvEpoch(role, m), sk, keys, lens)
    && SendShape(st, SendEpoch(role, m), sk, keys, lens)
  }

  /** Whether the receiver has moved past the slot. */
  predicate Behind(r: int, nr: nat, p: Slot) {
    p.epoch < r || (p.epoch == r && p.idx < nr)
  }

  /** A skipped key is kept for a slot exactly while the slot is passed over and not taken. */
  ghost predicate LedgerAt(st: Ratchet, role: Role, sk: Secret, keys: seq<KeyId>, lens: seq<nat>, taken: set<Slot>, p: Slot)
    requires |keys| == |lens|
  {
    var r := RecvEpoch(role, Depth(st.rk));
    if p.epoch >= |keys| then p in taken ==> Owns(role, p.epoch)
    else
      var kept := (keys[p.epoch], p.idx) in st.skipped;
      var passed := p.idx < lens[p.epoch] && Behind(r, st.nr, p);
      if Owns(role, p.epoch) then !kept
      else
        && (kept ==> passed && p !in taken && st.skipped[(keys[p.epoch], p.idx)] == KeyAt(sk, keys, p.epoch, p.idx))
        && (p in taken ==> passed)
        && (passed && (p.epoch < r ==> lens[p.epoch] < U32) ==> p in taken || kept)
  }

  ghost predicate Ledger(st: Ratchet, role: Role, sk: Secret, keys: seq<KeyId>, lens: seq<nat>, taken: set<Slot>)
    requires |keys| == |lens|
  {
    && (forall q :: q in st.skipped ==> q.0 in keys)
    && (forall p :: LedgerAt(st, role, sk, keys, lens, taken, p))
  }

  /** Every slot sealed so far is in the log, in exactly the form its sender must have given it. */
  ghost predicate LogExact(sk: Secret, keys: seq<KeyId>, lens: seq<nat>, log: map<Slot, Sent>)
    requires |keys| == |lens|
  {
    forall p :: LogAt(sk, keys, lens, log, p)
  }

  ghost predicate LogAt(sk: Secret, keys: seq<KeyId>, lens: seq<nat>, log: map<Slot, Sent>, p: Slot)
    requires |keys| == |lens|
  {
    && (p in log <==> p.epoch < |keys| && p.idx < lens[p.epoch])
    && (p in log ==>
          var sent := log[p];
          var header := Header(keys[p.epoch], Wrap(PnOf(lens, p.epoch)), Wrap(p.idx));
          && sent.blob.header == header
          && sent.blob.ct == Cipher(KeyAt(sk, keys, p.epoch, p.idx), sent.blob.nonce, FullAad(sent.aad, header), sent.plain))
  }

  /** Everything one peer's state satisfies. An epoch it has not absorbed is the newest, and the peer's. */
  ghost predicate Side(st: Ratchet, role: Role, sk: Secret, keys: seq<KeyId>, lens: seq<nat>, taken: set<Slot>) {
    var m := Depth(st.rk);
    && |keys| == |lens| && Distinct(keys)
    && Party(st, role, sk, keys, lens)
    && Ledger(st, role, sk, keys, lens, taken)
    && (m < |keys| ==> m == |keys| - 1 && !Owns(role, m))
  }

  ghost predicate SideOf(w: World, role: Role) {
    Side(St(w, role), role, w.sk, w.keys, w.lens, w.taken)
  }

  ghost predicate Inv(w: World) {
    && SideOf(w, Initiator)
    && SideOf(w, Responder)
    && LogExact(w.sk, w.keys, w.lens, w.log)
    && (Depth(w.a.rk) == |w.keys| || Depth(w.b.rk) == |w.keys|)
  }

  // ---- Steps ----

  function InitWorld(sk: Secret, keyA: KeyId, keyB: KeyId): World {
    World(sk, InitInitiator(sk, keyA), InitResponder(sk, keyB), [keyA], [0], map[], {})
  }

  predicate Unused(w: World, k: KeyId) {
    k !in w.keys && k != w.a.dhs && k != w.b.dhs
  }

  /** The blobs an active network attacker can put on the wire: any frame around a ciphertext it
      has seen, or around one it made under a key of its own. */
  predicate Producible(w: World, blob: Blob) {
    blob.ct.key.Foreign? || exists p :: p in w.log && w.log[p].blob.ct == blob.ct
  }

  /** Before its first reply the responder opens epoch 1 with the key it has held since the start. */
  function Started(w: World, role: Role): World {
    var st := St(w, role);
    if st.cks.None? && st.dhr.Some? then
      WithSt(w, role, EnsureSendingChain(st).value).(keys := w.keys + [st.dhs], lens := w.lens + [0])
    else w
  }

  /** `seal` starts the chain if there is none (see `SealStarts`), then seals in it. */
  function SealStep(w: World, role: Role, plain: Payload, aad: Aad, nonce: nat): World {
    var v := Started(w, role);
    var s := SendEpoch(role, Depth(St(v, role).rk));
    match Seal(St(v, role), plain, aad, nonce)
    case Err(_) => w
    case Ok((st, blob)) =>
      if 0 <= s < |v.lens| then
        WithSt(v, role, st).(lens := v.lens[s := v.lens[s] + 1],
                             log := v.log[Slot(s, v.lens[s]) := Sent(blob, aad, plain)])
      else w
  }

  /** What the peer puts on the wire and keeps is the same whether or not the chain was started first. */
  lemma SealStarts(w: World, role: Role, plain: Payload, aad: Aad, nonce: nat)
    ensures Seal(St(w, role), plain, aad, nonce) == Seal(St(Started(w, role), role), plain, aad, nonce)
  {
  }

  /** A receive is staged on a copy: a failing `open` leaves the session as it was. */
  function DeliverStep(w: World, role: Role, wire: Wire, aad: Aad, newKey: KeyId): World {
    var st := St(w, role);
    var out := Open(st, wire, aad, newKey);
    if !Unused(w, newKey) || out.result.Err? || !wire.Frame? || !Producible(w, wire.blob) then w
    else
      var turned := out.state.dhs != st.dhs;
      WithSt(w, role, out.state).(
        keys := if turned then w.keys + [newKey] else w.keys,
        lens := if turned then w.lens + [0] else w.lens,
        taken := w.taken + set p | p in w.log && w.log[p].blob.ct == wire.blob.ct)
  }

  datatype Step =
    | SealMsg(role: Role, plain: Payload, aad: Aad, nonce: nat)
    | DeliverMsg(role: Role, wire: Wire, aad: Aad, newKey: KeyId)

  function Apply(w: World, step: Step): World {
    match step
    case SealMsg(role, plain, aad, nonce) => SealStep(w, role, plain, aad, nonce)
    case DeliverMsg(role, wire, aad, newKey) => DeliverStep(w, role, wire, aad, newKey)
  }

  function Run(w: World, steps: seq<Step>): World
    decreases |steps|
  {
    if steps == [] then w else Run(Apply(w, steps[0]), steps[1..])
  }

  // ---- One open ----

  /** The guard of the two throwing branches of `open`. */
  predicate WithinSkip(st: Ratchet, h: Header) {
    || (h.dh, h.n) in st.skipped
    || (if st.dhr == Some(h.dh) then h.n - st.nr <= MAX_SKIP
        else (st.ckr.Some? && st.dhr.Some? ==> h.pn - st.nr <= MAX_SKIP) && h.n <= MAX_SKIP)
  }

  /** The message key `open` tries, and what it makes of it, for a header of epoch `e`. */
  function Tried(st: Ratchet, role: Role, sk: Secret, keys: seq<KeyId>, e: nat, h: Header): MessageKey
    requires Depth(st.rk) <= |keys|
  {
    var m := Depth(st.rk);
    var r := RecvEpoch(role, m);
    if (h.dh, h.n) in st.skipped then st.skipped[(h.dh, h.n)]
    else if e == r && r < |keys| then KeyAt(sk, keys, r, if h.n > st.nr then h.n else st.nr)
    else if m == 0 then MessageKey(Advance(FirstChain(Seed(sk), PublicBytes(h.dh)), h.n))
    else MessageKey(Advance(FirstChain(RootAt(sk, keys, m), Dh(st.dhs, h.dh)), h.n))
  }

  lemma OpenOnEpoch(st: Ratchet, role: Role, sk: Secret, keys: seq<KeyId>, lens: seq<nat>,
                    e: nat, blob: Blob, aad: Aad, newKey: KeyId)
    requires |keys| == |lens| && Distinct(keys) && Party(st, role, sk, keys, lens)
    requires e < |keys| && blob.header.dh == keys[e]
    ensures OpenBlob(st, blob, aad, newKey).result ==
            if WithinSkip(st, blob.header)
            then Finish(Decrypt(Tried(st, role, sk, keys, e, blob.header), blob.nonce, FullAad(aad, blob.header), blob.ct))
            else Err(TooManySkipped)
  {
    var h := blob.header;
    var m := Depth(st.rk);
    var r := RecvEpoch(role, m);
    if (h.dh, h.n) !in st.skipped && WithinSkip(st, h) {
      assert st.dhr == Some(h.dh) <==> e == r;
      if e == r {
        SkipToClosedForm(st, h.n, h.dh, ChainAt(sk, keys, r));
      } else if m == 0 {
        SkipToClosedForm(BootstrapReceive(st, h.dh), h.n, h.dh, FirstChain(Seed(sk), PublicBytes(h.dh)));
      } else {
        if st.ckr.Some? {
          SkipToClosedForm(st, h.pn, st.dhr.value, ChainAt(sk, keys, r));
        }
        SkipToClosedForm(Align(st, h, newKey).0, h.n, h.dh, FirstChain(RootAt(sk, keys, m), Dh(st.dhs, h.dh)));
      }
    }
  }

  /** The key `open` tries is that of slot (e, i) only if the slot is the peer's and still unopened. */
  lemma TriedKeyIsFresh(st: Ratchet, role: Role, sk: Secret, keys: seq<KeyId>, lens: seq<nat>, taken: set<Slot>,
                        e: nat, i: nat, h: Header)
    requires Side(st, role, sk, keys, lens, taken) && e < |keys| && h.dh == keys[e]
    requires Tried(st, role, sk, keys, e, h) == KeyAt(sk, keys, e, i)
    ensures !Owns(role, e) && Slot(e, i) !in taken
    ensures var m := Depth(st.rk); var r := RecvEpoch(role, m);
            if (h.dh, h.n) in st.skipped then h.n == i
            else if e == r then i == if h.n > st.nr then h.n else st.nr
            else e == m && h.n == i
  {
    var m := Depth(st.rk);
    var r := RecvEpoch(role, m);
    assert LedgerAt(st, role, sk, keys, lens, taken, Slot(e, i));
    assert LedgerAt(st, role, sk, keys, lens, taken, Slot(e, h.n));
    if (h.dh, h.n) in st.skipped {
      KeyAtInjective(sk, keys, e, i, e, h.n);
    } else if e == r {
      KeyAtInjective(sk, keys, e, i, r, if h.n > st.nr then h.n else st.nr);
    } else if m == 0 {
      AdvanceInjective(ChainAt(sk, keys, e), i, FirstChain(Seed(sk), PublicBytes(h.dh)), h.n);
      RootDepth(sk, keys, e);
    } else {
      AdvanceInjective(ChainAt(sk, keys, e), i, FirstChain(RootAt(sk, keys, m), Dh(st.dhs, h.dh)), h.n);
      RootDepth(sk, keys, e);
      RootDepth(sk, keys, m);
    }
  }

  /** The converse: an unopened slot of the peer has its own key tried, when its chain fits 32 bits. */
  lemma UnopenedKeyIsTried(st: Ratchet, role: Role, sk: Secret, keys: seq<KeyId>, lens: seq<nat>, taken: set<Slot>,
                           e: nat, h: Header)
    requires Side(st, role, sk, keys, lens, taken) && e < |keys| && h.n < lens[e] && h.dh == keys[e]
    requires !Owns(role, e) && Slot(e, h.n) !in taken
    requires lens[e] < U32
    ensures Tried(st, role, sk, keys, e, h) == KeyAt(sk, keys, e, h.n)
  {
    var m := Depth(st.rk);
    var r := RecvEpoch(role, m);
    assert LedgerAt(st, role, sk, keys, lens, taken, Slot(e, h.n));
    if (h.dh, h.n) !in st.skipped {
      assert !Behind(r, st.nr, Slot(e, h.n));
      assert e != r ==> e == m;
    }
  }

  lemma CipherNamesSlot(w: World, p: Slot, ct: Cipher)
    requires Inv(w) && p in w.log && w.log[p].blob.ct == ct
    ensures p.epoch < |w.keys| && p.idx < w.lens[p.epoch]
    ensures ct.key == KeyAt(w.sk, w.keys, p.epoch, p.idx)
    ensures forall q :: q in w.log && w.log[q].blob.ct == ct ==> q == p
    ensures (set q | q in w.log && w.log[q].blob.ct == ct) == {p}
  {
    assert LogAt(w.sk, w.keys, w.lens, w.log, p);
    forall q | q in w.log && w.log[q].blob.ct == ct ensures q == p {
      assert LogAt(w.sk, w.keys, w.lens, w.log, q);
      KeyAtInjective(w.sk, w.keys, p.epoch, p.idx, q.epoch, q.idx);
    }
  }

  /** The keys of a session never equal a key made outside it. */
  lemma OpenedKeyIsDerived(st: Ratchet, role: Role, sk: Secret, keys: seq<KeyId>, lens: seq<nat>, taken: set<Slot>,
                           blob: Blob, aad: Aad, newKey: KeyId)
    requires |keys| == |lens| && Ledger(st, role, sk, keys, lens, taken)
    requires OpenBlob(st, blob, aad, newKey).result.Ok?
    ensures blob.ct.key.MessageKey? && blob.ct.aad == FullAad(aad, blob.header) && blob.ct.nonce == blob.nonce
  {
    if (blob.header.dh, blob.header.n) in st.skipped {
      var e :| 0 <= e < |keys| && keys[e] == blob.header.dh;
      assert LedgerAt(st, role, sk, keys, lens, taken, Slot(e, blob.header.n));
    }
  }

  /** Whatever the network delivers, a blob that opens is one the peer sealed, under the same
      associated data, and one that has not been opened before. */
  lemma OpenedIsGenuine(w: World, role: Role, blob: Blob, aad: Aad, newKey: KeyId) returns (p: Slot)
    requires Inv(w) && Producible(w, blob)
    requires OpenBlob(St(w, role), blob, aad, newKey).result.Ok?
    ensures p in w.log && !Owns(role, p.epoch) && p !in w.taken
    ensures w.log[p].blob == blob && w.log[p].aad == aad
    ensures OpenBlob(St(w, role), blob, aad, newKey).result == Ok(w.log[p].plain)
    ensures WithinSkip(St(w, role), blob.header)
    ensures forall q :: q in w.log && w.log[q].blob.ct == blob.ct ==> q == p
    ensures (set q | q in w.log && w.log[q].blob.ct == blob.ct) == {p}
  {
    var st := St(w, role);
    assert SideOf(w, role);
    OpenedKeyIsDerived(st, role, w.sk, w.keys, w.lens, w.taken, blob, aad, newKey);
    p :| p in w.log && w.log[p].blob.ct == blob.ct;
    CipherNamesSlot(w, p, blob.ct);
    assert LogAt(w.sk, w.keys, w.lens, w.log, p);
    OpenOnEpoch(st, role, w.sk, w.keys, w.lens, p.epoch, blob, aad, newKey);
    TriedKeyIsFresh(st, role, w.sk, w.keys, w.lens, w.taken, p.epoch, p.idx, blob.header);
  }

  /** Agreement: a genuine blob that has not been opened returns its plaintext if and only if its
      gaps are within the skip limit. The chain it is on must fit the 32 bits the header counts with. */
  lemma Agreement(w: World, role: Role, p: Slot, newKey: KeyId)
    requires Inv(w) && p in w.log && !Owns(role, p.epoch) && p !in w.taken
    requires p.epoch < |w.lens| ==> w.lens[p.epoch] < U32
    ensures Open(St(w, role), Frame(w.log[p].blob), w.log[p].aad, newKey).result ==
            if WithinSkip(St(w, role), w.log[p].blob.header) then Ok(w.log[p].plain) else Err(TooManySkipped)
  {
    var st := St(w, role);
    assert SideOf(w, role);
    var sent := w.log[p];
    assert LogAt(w.sk, w.keys, w.lens, w.log, p);
    OpenOnEpoch(st, role, w.sk, w.keys, w.lens, p.epoch, sent.blob, sent.aad, newKey);
    UnopenedKeyIsTried(st, role, w.sk, w.keys, w.lens, w.taken, p.epoch, sent.blob.header);
  }

  // ---- The invariant is kept ----

  /** The peer that has absorbed every epoch is undisturbed when the other one starts the next. */
  lemma SideExtend(st: Ratchet, role: Role, sk: Secret, keys: seq<KeyId>, lens: seq<nat>, taken: set<Slot>, k: KeyId)
    requires Side(st, role, sk, keys, lens, taken)
    requires k !in keys && k != st.dhs && Depth(st.rk) == |keys| && !Owns(role, |keys|)
    ensures Side(st, role, sk, keys + [k], lens + [0], taken)
  {
    ChainFrame(sk, keys, k);
    RootFrame(sk, keys, k, |keys|);
    forall p ensures LedgerAt(st, role, sk, keys + [k], lens + [0], taken, p) {
      assert LedgerAt(st, role, sk, keys, lens, taken, p);
    }
  }

  lemma LogExtend(sk: Secret, keys: seq<KeyId>, lens: seq<nat>, log: map<Slot, Sent>, k: KeyId)
    requires |keys| == |lens| && LogExact(sk, keys, lens, log)
    ensures LogExact(sk, keys + [k], lens + [0], log)
  {
    ChainFrame(sk, keys, k);
    forall p ensures LogAt(sk, keys + [k], lens + [0], log, p) {
      assert LogAt(sk, keys, lens, log, p);
    }
  }

  lemma SideAfterSkippedKey(st: Ratchet, role: Role, sk: Secret, keys: seq<KeyId>, lens: seq<nat>, taken: set<Slot>,
                            e: nat, i: nat)
    requires Side(st, role, sk, keys, lens, taken) && e < |keys| && (keys[e], i) in st.skipped
    ensures Side(st.(skipped := st.skipped - {(keys[e], i)}), role, sk, keys, lens, taken + {Slot(e, i)})
  {
    var st' := st.(skipped := st.skipped - {(keys[e], i)});
    assert LedgerAt(st, role, sk, keys, lens, taken, Slot(e, i));
    forall p ensures LedgerAt(st', role, sk, keys, lens, taken + {Slot(e, i)}, p) {
      assert LedgerAt(st, role, sk, keys, lens, taken, p);
    }
  }

  lemma SideAfterSkipOne(st: Ratchet, role: Role, sk: Secret, keys: seq<KeyId>, lens: seq<nat>, taken: set<Slot>)
    requires Side(st, role, sk, keys, lens, taken)
    requires var r := RecvEpoch(role, Depth(st.rk)); r >= 0 && st.nr < lens[r]
    ensures var r := RecvEpoch(role, Depth(st.rk)); Side(SkipOne(st, keys[r]), role, sk, keys, lens, taken)
  {
    var r := RecvEpoch(role, Depth(st.rk));
    var st' := SkipOne(st, keys[r]);
    forall p ensures LedgerAt(st', role, sk, keys, lens, taken, p) {
      assert LedgerAt(st, role, sk, keys, lens, taken, p);
    }
  }

  lemma SideAfterTake(st: Ratchet, role: Role, sk: Secret, keys: seq<KeyId>, lens: seq<nat>, taken: set<Slot>)
    requires Side(st, role, sk, keys, lens, taken)
    requires var r := RecvEpoch(role, Depth(st.rk)); r >= 0 && st.nr < lens[r]
    ensures var r := RecvEpoch(role, Depth(st.rk));
            Side(st.(ckr := Some(NextChain(st.ckr.value)), nr := st.nr + 1), role, sk, keys, lens, taken + {Slot(r, st.nr)})
  {
    var r := RecvEpoch(role, Depth(st.rk));
    var st' := st.(ckr := Some(NextChain(st.ckr.value)), nr := st.nr + 1);
    forall p ensures LedgerAt(st', role, sk, keys, lens, taken + {Slot(r, st.nr)}, p) {
      assert LedgerAt(st, role, sk, keys, lens, taken, p);
    }
  }

  /** Passing over part of the current chain. */
  lemma {:induction false} SideAfterSkip(st: Ratchet, role: Role, sk: Secret, keys: seq<KeyId>, lens: seq<nat>,
                                         taken: set<Slot>, n: nat)
    requires Side(st, role, sk, keys, lens, taken)
    requires var r := RecvEpoch(role, Depth(st.rk)); r >= 0 && n <= lens[r]
    ensures var r := RecvEpoch(role, Depth(st.rk)); var at := SkipTo(st, n, keys[r]);
            && Side(at, role, sk, keys, lens, taken)
            && at.nr == (if n > st.nr then n else st.nr)
            && at == st.(ckr := at.ckr, nr := at.nr, skipped := at.skipped)
    decreases n - st.nr
  {
    if st.nr < n {
      var r := RecvEpoch(role, Depth(st.rk));
      SideAfterSkipOne(st, role, sk, keys, lens, taken);
      SideAfterSkip(SkipOne(st, keys[r]), role, sk, keys, lens, taken, n);
    }
  }

  lemma SideAfterBootstrap(st: Ratchet, sk: Secret, keys: seq<KeyId>, lens: seq<nat>, taken: set<Slot>)
    requires Side(st, Responder, sk, keys, lens, taken) && Depth(st.rk) == 0 && |keys| == 1
    ensures Side(BootstrapReceive(st, keys[0]), Responder, sk, keys, lens, taken)
    ensures Depth(BootstrapReceive(st, keys[0]).rk) == 1
  {
    var st' := BootstrapReceive(st, keys[0]);
    assert st'.rk == RootAt(sk, keys, 1);
    forall p ensures LedgerAt(st', Responder, sk, keys, lens, taken, p) {
      assert LedgerAt(st, Responder, sk, keys, lens, taken, p);
    }
  }

  /** A Diffie-Hellman turn absorbs the peer's epoch `m` and opens epoch `m + 1`, whose key it brings. */
  lemma SideAfterTurn(st: Ratchet, role: Role, sk: Secret, keys: seq<KeyId>, lens: seq<nat>, taken: set<Slot>, newKey: KeyId)
    requires Side(st, role, sk, keys, lens, taken) && newKey !in keys
    requires var m := Depth(st.rk); 0 < m < |keys|
    requires var r := RecvEpoch(role, Depth(st.rk)); r >= 0 && lens[r] < U32 ==> st.nr == lens[r]
    ensures var m := Depth(st.rk); var st' := DhRatchet(st, keys[m], newKey);
            Side(st', role, sk, keys + [newKey], lens + [0], taken) && Depth(st'.rk) == m + 2
  {
    PartyAfterTurn(st, role, sk, keys, lens, newKey);
    LedgerAfterTurn(st, role, sk, keys, lens, taken, newKey);
  }

  lemma PartyAfterTurn(st: Ratchet, role: Role, sk: Secret, keys: seq<KeyId>, lens: seq<nat>, newKey: KeyId)
    requires Party(st, role, sk, keys, lens) && newKey !in keys && Distinct(keys)
    requires var m := Depth(st.rk); 0 < m < |keys| && m == |keys| - 1 && !Owns(role, m)
    ensures var m := Depth(st.rk); var st' := DhRatchet(st, keys[m], newKey);
            Party(st', role, sk, keys + [newKey], lens + [0]) && Depth(st'.rk) == m + 2
  {
    var m := Depth(st.rk);
    var keys', lens' := keys + [newKey], lens + [0];
    var st' := DhRatchet(st, keys[m], newKey);
    ChainFrame(sk, keys, newKey);
    RootFrame(sk, keys, newKey, m);
    assert RootAt(sk, keys', m + 1) == NextRoot(RootAt(sk, keys', m), Dh(keys[m - 1], keys[m]));
    assert st'.rk == RootAt(sk, keys', m + 2);
    assert SendShape(st', m + 1, sk, keys', lens');
    assert RecvShape(st', m, sk, keys', lens');
  }

  lemma LedgerAfterTurn(st: Ratchet, role: Role, sk: Secret, keys: seq<KeyId>, lens: seq<nat>, taken: set<Slot>, newKey: KeyId)
    requires Side(st, role, sk, keys, lens, taken) && newKey !in keys
    requires var m := Depth(st.rk); 0 < m < |keys|
    requires var r := RecvEpoch(role, Depth(st.rk)); r >= 0 && lens[r] < U32 ==> st.nr == lens[r]
    ensures Ledger(DhRatchet(st, keys[Depth(st.rk)], newKey), role, sk, keys + [newKey], lens + [0], taken)
  {
    var keys', lens' := keys + [newKey], lens + [0];
    var st' := DhRatchet(st, keys[Depth(st.rk)], newKey);
    ChainFrame(sk, keys, newKey);
    forall p ensures LedgerAt(st', role, sk, keys', lens', taken, p) {
      assert LedgerAt(st, role, sk, keys, lens, taken, p);
    }
  }

  function Take(st: Ratchet): Ratchet
    requires st.ckr.Some?
  {
    st.(ckr := Some(NextChain(st.ckr.value)), nr := st.nr + 1)
  }

  lemma OpenedState(st: Ratchet, blob: Blob, aad: Aad, newKey: KeyId)
    requires OpenBlob(st, blob, aad, newKey).result.Ok?
    ensures var h := blob.header; var st' := OpenBlob(st, blob, aad, newKey).state;
            if (h.dh, h.n) in st.skipped then st' == st.(skipped := st.skipped - {(h.dh, h.n)})
            else
              var (aligned, ok) := Align(st, h, newKey);
              && ok && aligned.ckr.Some? && SkipTo(aligned, h.n, h.dh).ckr.Some?
              && st' == Take(SkipTo(aligned, h.n, h.dh))
  {
  }

  /** The receiver brought to the start of the chain of epoch `e`, its current one or the next. */
  lemma SideAfterAlign(st: Ratchet, role: Role, sk: Secret, keys: seq<KeyId>, lens: seq<nat>, taken: set<Slot>,
                       e: nat, h: Header, newKey: KeyId)
    requires Side(st, role, sk, keys, lens, taken) && newKey !in keys && newKey != st.dhs
    requires e < |keys| && h.dh == keys[e] && h.pn == Wrap(PnOf(lens, e)) && !Owns(role, e)
    requires e == RecvEpoch(role, Depth(st.rk)) || e == Depth(st.rk)
    requires Align(st, h, newKey).1
    ensures var st' := Align(st, h, newKey).0;
            if st'.dhs == st.dhs then
              && Side(st', role, sk, keys, lens, taken) && Depth(st'.rk) >= Depth(st.rk)
              && RecvEpoch(role, Depth(st'.rk)) == e && (e == Depth(st.rk) || st' == st)
            else
              && Side(st', role, sk, keys + [newKey], lens + [0], taken)
              && Depth(st'.rk) == |keys| + 1 && Depth(st.rk) == |keys| - 1 && e == Depth(st.rk)
    ensures e == Depth(st.rk) ==> Align(st, h, newKey).0.nr == 0
  {
    var m := Depth(st.rk);
    var r := RecvEpoch(role, m);
    if e == r {
    } else if m == 0 {
      SideAfterBootstrap(st, sk, keys, lens, taken);
    } else if r >= 0 {
      assert h.pn <= lens[r];
      SideAfterSkip(st, role, sk, keys, lens, taken, h.pn);
      SideAfterTurn(SkipTo(st, h.pn, keys[r]), role, sk, keys, lens, taken, newKey);
    } else {
      SideAfterTurn(st, role, sk, keys, lens, taken, newKey);
    }
  }

  /** Passing to a message of the current chain and taking its key. */
  lemma SideAfterAdvance(st: Ratchet, role: Role, sk: Secret, keys: seq<KeyId>, lens: seq<nat>, taken: set<Slot>,
                         e: nat, i: nat, h: Header)
    requires Side(st, role, sk, keys, lens, taken) && RecvEpoch(role, Depth(st.rk)) == e < |keys| && h.dh == keys[e]
    requires i < lens[e] && i == (if h.n > st.nr then h.n else st.nr) && SkipTo(st, h.n, h.dh).ckr.Some?
    ensures Side(Take(SkipTo(st, h.n, h.dh)), role, sk, keys, lens, taken + {Slot(e, i)})
    ensures Take(SkipTo(st, h.n, h.dh)).rk == st.rk && Take(SkipTo(st, h.n, h.dh)).dhs == st.dhs
  {
    SideAfterSkip(st, role, sk, keys, lens, taken, h.n);
    SideAfterTake(SkipTo(st, h.n, h.dh), role, sk, keys, lens, taken);
  }

  /** What a successful `open` of slot (e, i) leaves, in terms of the epochs. */
  lemma SideAfterOpen(st: Ratchet, role: Role, sk: Secret, keys: seq<KeyId>, lens: seq<nat>, taken: set<Slot>,
                      e: nat, i: nat, blob: Blob, aad: Aad, newKey: KeyId)
    requires Side(st, role, sk, keys, lens, taken) && newKey !in keys && newKey != st.dhs
    requires e < |keys| && i < lens[e]
    requires blob.header == Header(keys[e], Wrap(PnOf(lens, e)), Wrap(i)) && blob.ct.key == KeyAt(sk, keys, e, i)
    requires OpenBlob(st, blob, aad, newKey).result.Ok?
    ensures var st' := OpenBlob(st, blob, aad, newKey).state;
            if st'.dhs == st.dhs then
              Side(st', role, sk, keys, lens, taken + {Slot(e, i)}) && Depth(st'.rk) >= Depth(st.rk)
            else
              && st'.dhs == newKey
              && Side(st', role, sk, keys + [newKey], lens + [0], taken + {Slot(e, i)})
              && Depth(st'.rk) == |keys| + 1 && Depth(st.rk) == |keys| - 1
  {
    var h := blob.header;
    OpenOnEpoch(st, role, sk, keys, lens, e, blob, aad, newKey);
    TriedKeyIsFresh(st, role, sk, keys, lens, taken, e, i, h);
    OpenedState(st, blob, aad, newKey);
    if (h.dh, h.n) in st.skipped {
      SideAfterSkippedKey(st, role, sk, keys, lens, taken, e, i);
    } else {
      SideAfterAlign(st, role, sk, keys, lens, taken, e, h, newKey);
      var st1 := Align(st, h, newKey).0;
      var turned := st1.dhs != st.dhs;
      var keys' := if turned then keys + [newKey] else keys;
      var lens' := if turned then lens + [0] else lens;
      SideAfterAdvance(st1, role, sk, keys', lens', taken, e, i, h);
    }
  }

  lemma SideOtherTaken(st: Ratchet, role: Role, sk: Secret, keys: seq<KeyId>, lens: seq<nat>, taken: set<Slot>, p: Slot)
    requires Side(st, role, sk, keys, lens, taken) && Owns(role, p.epoch)
    ensures Side(st, role, sk, keys, lens, taken + {p})
  {
    forall q ensures LedgerAt(st, role, sk, keys, lens, taken + {p}, q) {
      assert LedgerAt(st, role, sk, keys, lens, taken, q);
    }
  }

  lemma DeliverKeeps(w: World, role: Role, wire: Wire, aad: Aad, newKey: KeyId)
    requires Inv(w)
    ensures Inv(DeliverStep(w, role, wire, aad, newKey))
  {
    var w' := DeliverStep(w, role, wire, aad, newKey);
    if w' != w {
      var p := OpenedIsGenuine(w, role, wire.blob, aad, newKey);
      OpenedKeeps(w, role, wire.blob, aad, newKey, p, w');
    }
  }

  /** A world after a blob of slot `p` was opened. */
  lemma OpenedKeeps(w: World, role: Role, blob: Blob, aad: Aad, newKey: KeyId, p: Slot, w': World)
    requires Inv(w) && Unused(w, newKey) && p in w.log && w.log[p].blob == blob && !Owns(role, p.epoch)
    requires OpenBlob(St(w, role), blob, aad, newKey).result.Ok?
    requires var st' := OpenBlob(St(w, role), blob, aad, newKey).state;
             var turned := st'.dhs != St(w, role).dhs;
             && St(w', role) == st' && St(w', Peer(role)) == St(w, Peer(role)) && w'.sk == w.sk && w'.log == w.log
             && w'.taken == w.taken + {p}
             && w'.keys == (if turned then w.keys + [newKey] else w.keys) && w'.lens == (if turned then w.lens + [0] else w.lens)
    ensures Inv(w')
  {
    assert SideOf(w, role);
    assert LogAt(w.sk, w.keys, w.lens, w.log, p);
    SideAfterOpen(St(w, role), role, w.sk, w.keys, w.lens, w.taken, p.epoch, p.idx, blob, aad, newKey);
    OtherAfterOpen(w, role, p, newKey, w');
    Assembled(w', role);
  }

  /** What the sender of an opened message sees of it. */
  lemma OtherAfterOpen(w: World, role: Role, p: Slot, newKey: KeyId, w': World)
    requires Inv(w) && Owns(Peer(role), p.epoch) && Unused(w, newKey)
    requires w'.sk == w.sk && w'.log == w.log && w'.taken == w.taken + {p} && St(w', Peer(role)) == St(w, Peer(role))
    requires if St(w', role).dhs == St(w, role).dhs then w'.keys == w.keys && w'.lens == w.lens
             else w'.keys == w.keys + [newKey] && w'.lens == w.lens + [0] && Depth(St(w, role).rk) == |w.keys| - 1 && !Owns(Peer(role), |w.keys|)
    ensures SideOf(w', Peer(role)) && LogExact(w'.sk, w'.keys, w'.lens, w'.log)
  {
    var other := St(w, Peer(role));
    assert SideOf(w, Peer(role));
    SideOtherTaken(other, Peer(role), w.sk, w.keys, w.lens, w.taken, p);
    if St(w', role).dhs != St(w, role).dhs {
      SideExtend(other, Peer(role), w.sk, w.keys, w.lens, w.taken + {p}, newKey);
      LogExtend(w.sk, w.keys, w.lens, w.log, newKey);
    }
  }

  // ---- Sealing ----

  lemma SideAfterSeal(st: Ratchet, role: Role, sk: Secret, keys: seq<KeyId>, lens: seq<nat>, lens': seq<nat>, taken: set<Slot>)
    requires Side(st, role, sk, keys, lens, taken) && st.cks.Some?
    requires var s := SendEpoch(role, Depth(st.rk)); lens' == lens[s := lens[s] + 1]
    ensures Side(st.(cks := Some(NextChain(st.cks.value)), ns := st.ns + 1), role, sk, keys, lens', taken)
  {
    var s := SendEpoch(role, Depth(st.rk));
    var st' := st.(cks := Some(NextChain(st.cks.value)), ns := st.ns + 1);
    assert SendShape(st', s, sk, keys, lens');
    forall p ensures LedgerAt(st', role, sk, keys, lens', taken, p) {
      assert LedgerAt(st, role, sk, keys, lens, taken, p);
    }
  }

  lemma SideOtherSeals(st: Ratchet, role: Role, sk: Secret, keys: seq<KeyId>, lens: seq<nat>, lens': seq<nat>,
                       taken: set<Slot>, s: nat)
    requires Side(st, role, sk, keys, lens, taken)
    requires s < |keys| && !Owns(role, s) && RecvEpoch(role, Depth(st.rk)) <= s && lens' == lens[s := lens[s] + 1]
    ensures Side(st, role, sk, keys, lens', taken)
  {
    forall p ensures LedgerAt(st, role, sk, keys, lens', taken, p) {
      assert LedgerAt(st, role, sk, keys, lens, taken, p);
    }
  }

  /** One more message in the newest epoch of its sender. */
  lemma LogAfterSeal(sk: Secret, keys: seq<KeyId>, lens: seq<nat>, log: map<Slot, Sent>, s: nat, sent: Sent)
    requires |keys| == |lens| && LogExact(sk, keys, lens, log) && s < |keys| && s + 2 >= |keys|
    requires var header := Header(keys[s], Wrap(PnOf(lens, s)), Wrap(lens[s]));
             && sent.blob.header == header
             && sent.blob.ct == Cipher(KeyAt(sk, keys, s, lens[s]), sent.blob.nonce, FullAad(sent.aad, header), sent.plain)
    ensures LogExact(sk, keys, lens[s := lens[s] + 1], log[Slot(s, lens[s]) := sent])
  {
    var lens' := lens[s := lens[s] + 1];
    var log' := log[Slot(s, lens[s]) := sent];
    forall p ensures LogAt(sk, keys, lens', log', p) {
      assert LogAt(sk, keys, lens, log, p);
    }
  }

  lemma StartedKeeps(w: World, role: Role)
    requires Inv(w)
    ensures Inv(Started(w, role))
  {
    var st, w' := St(w, role), Started(w, role);
    if st.cks.None? && st.dhr.Some? {
      assert SideOf(w, role) && SideOf(w, Peer(role));
      assert role.Responder? && Depth(st.rk) == 1 && |w.keys| == 1;
      SideAfterStart(st, w.sk, w.keys, w.lens, w.taken);
      SideExtend(St(w, Peer(role)), Peer(role), w.sk, w.keys, w.lens, w.taken, st.dhs);
      LogExtend(w.sk, w.keys, w.lens, w.log, st.dhs);
      Assembled(w', role);
    }
  }

  /** The responder opens its first chain, with the key it already has. */
  lemma SideAfterStart(st: Ratchet, sk: Secret, keys: seq<KeyId>, lens: seq<nat>, taken: set<Slot>)
    requires Side(st, Responder, sk, keys, lens, taken) && st.cks.None? && st.dhr.Some? && Depth(st.rk) == 1 && |keys| == 1
    ensures EnsureSendingChain(st).Ok? && Depth(EnsureSendingChain(st).value.rk) == 2
    ensures Side(EnsureSendingChain(st).value, Responder, sk, keys + [st.dhs], lens + [0], taken)
  {
    var st' := EnsureSendingChain(st).value;
    var keys', lens' := keys + [st.dhs], lens + [0];
    ChainFrame(sk, keys, st.dhs);
    RootFrame(sk, keys, st.dhs, 1);
    assert st'.rk == RootAt(sk, keys', 2);
    assert SendShape(st', 1, sk, keys', lens');
    forall p ensures LedgerAt(st', Responder, sk, keys', lens', taken, p) {
      assert LedgerAt(st, Responder, sk, keys, lens, taken, p);
    }
  }

  /** A sender seals in its newest epoch, and no epoch of its own is newer. */
  lemma SendEpochIsNewest(st: Ratchet, role: Role, sk: Secret, keys: seq<KeyId>, lens: seq<nat>, taken: set<Slot>)
    requires Side(st, role, sk, keys, lens, taken) && st.cks.Some?
    ensures var s := SendEpoch(role, Depth(st.rk)); 0 <= s < |keys| <= s + 2 && Owns(role, s)
  {
  }

  lemma RecvEpochIsPeers(st: Ratchet, role: Role, sk: Secret, keys: seq<KeyId>, lens: seq<nat>, taken: set<Slot>)
    requires Side(st, role, sk, keys, lens, taken)
    ensures var r := RecvEpoch(role, Depth(st.rk)); r < |keys| && (r >= 0 ==> !Owns(role, r))
  {
  }

  lemma SealedForm(st: Ratchet, role: Role, sk: Secret, keys: seq<KeyId>, lens: seq<nat>,
                   plain: Payload, aad: Aad, nonce: nat)
    requires |keys| == |lens| && Party(st, role, sk, keys, lens) && st.cks.Some?
    ensures var s := SendEpoch(role, Depth(st.rk)); var sealed := Seal(st, plain, aad, nonce);
            && 0 <= s < |keys| && lens[s] == st.ns && sealed.Ok?
            && var (st', blob) := sealed.value;
            && st' == st.(cks := Some(NextChain(st.cks.value)), ns := st.ns + 1)
            && blob.header == Header(keys[s], Wrap(PnOf(lens, s)), Wrap(lens[s]))
            && blob.ct == Cipher(KeyAt(sk, keys, s, lens[s]), blob.nonce, FullAad(aad, blob.header), plain)
  {
  }

  lemma SealStepKeeps(w: World, role: Role, plain: Payload, aad: Aad, nonce: nat)
    requires Inv(w)
    ensures Inv(SealStep(w, role, plain, aad, nonce))
  {
    var v := Started(w, role);
    StartedKeeps(w, role);
    SealFromStarted(w, role, plain, aad, nonce);
    if St(v, role).cks.Some? {
      SealKeeps(v, role, plain, aad, nonce);
    }
  }

  lemma SealFromStarted(w: World, role: Role, plain: Payload, aad: Aad, nonce: nat)
    ensures var v := Started(w, role);
            if St(v, role).cks.Some? then SealStep(w, role, plain, aad, nonce) in {SealStep(v, role, plain, aad, nonce), w}
            else SealStep(w, role, plain, aad, nonce) == w
  {
  }

  lemma SealKeeps(v: World, role: Role, plain: Payload, aad: Aad, nonce: nat)
    requires Inv(v) && St(v, role).cks.Some?
    ensures Inv(SealStep(v, role, plain, aad, nonce))
  {
    var st := St(v, role);
    assert SideOf(v, role);
    SealedForm(st, role, v.sk, v.keys, v.lens, plain, aad, nonce);
    var s := SendEpoch(role, Depth(st.rk));
    var sent := Sent(Seal(st, plain, aad, nonce).value.1, aad, plain);
    InvAfterSeal(v, role, s, sent, SealStep(v, role, plain, aad, nonce));
  }

  lemma InvAfterSeal(v: World, role: Role, s: nat, sent: Sent, w': World)
    requires Inv(v) && St(v, role).cks.Some? && s == SendEpoch(role, Depth(St(v, role).rk)) && s < |v.keys|
    requires var st := St(v, role);
             w' == WithSt(v, role, st.(cks := Some(NextChain(st.cks.value)), ns := st.ns + 1)).(
                     lens := v.lens[s := v.lens[s] + 1], log := v.log[Slot(s, v.lens[s]) := sent])
    requires var header := Header(v.keys[s], Wrap(PnOf(v.lens, s)), Wrap(v.lens[s]));
             && sent.blob.header == header
             && sent.blob.ct == Cipher(KeyAt(v.sk, v.keys, s, v.lens[s]), sent.blob.nonce, FullAad(sent.aad, header), sent.plain)
    ensures Inv(w')
  {
    SealerAfterSeal(v, role, s, w');
    OtherAfterSeal(v, role, s, w');
    LogExactAfterSeal(v, role, s, sent);
    Assembled(w', role);
  }

  /** Both sides, the log, and one of the two up to date. */
  lemma Assembled(w: World, role: Role)
    requires SideOf(w, role) && SideOf(w, Peer(role)) && LogExact(w.sk, w.keys, w.lens, w.log)
    requires Depth(St(w, role).rk) == |w.keys| || Depth(St(w, Peer(role)).rk) == |w.keys|
    ensures Inv(w)
  {
  }

  lemma SealerAfterSeal(v: World, role: Role, s: nat, w': World)
    requires SideOf(v, role) && St(v, role).cks.Some? && s == SendEpoch(role, Depth(St(v, role).rk)) && s < |v.keys|
    requires w'.sk == v.sk && w'.keys == v.keys && w'.lens == v.lens[s := v.lens[s] + 1] && w'.taken == v.taken
    requires var st := St(v, role); St(w', role) == st.(cks := Some(NextChain(st.cks.value)), ns := st.ns + 1)
    ensures SideOf(w', role)
  {
    SideAfterSeal(St(v, role), role, v.sk, v.keys, v.lens, w'.lens, v.taken);
  }

  lemma OtherAfterSeal(v: World, role: Role, s: nat, w': World)
    requires Inv(v) && St(v, role).cks.Some? && s == SendEpoch(role, Depth(St(v, role).rk)) && s < |v.keys|
    requires w'.sk == v.sk && w'.keys == v.keys && w'.lens == v.lens[s := v.lens[s] + 1] && w'.taken == v.taken
    requires St(w', Peer(role)) == St(v, Peer(role))
    ensures SideOf(w', Peer(role))
  {
    var other := St(v, Peer(role));
    assert SideOf(v, role) && SideOf(v, Peer(role));
    SendEpochIsNewest(St(v, role), role, v.sk, v.keys, v.lens, v.taken);
    RecvEpochIsPeers(other, Peer(role), v.sk, v.keys, v.lens, v.taken);
    SideOtherSeals(other, Peer(role), v.sk, v.keys, v.lens, w'.lens, v.taken, s);
  }

  lemma LogExactAfterSeal(v: World, role: Role, s: nat, sent: Sent)
    requires Inv(v) && St(v, role).cks.Some? && s == SendEpoch(role, Depth(St(v, role).rk)) && s < |v.keys|
    requires var header := Header(v.keys[s], Wrap(PnOf(v.lens, s)), Wrap(v.lens[s]));
             && sent.blob.header == header
             && sent.blob.ct == Cipher(KeyAt(v.sk, v.keys, s, v.lens[s]), sent.blob.nonce, FullAad(sent.aad, header), sent.plain)
    ensures LogExact(v.sk, v.keys, v.lens[s := v.lens[s] + 1], v.log[Slot(s, v.lens[s]) := sent])
  {
    assert SideOf(v, role);
    SendEpochIsNewest(St(v, role), role, v.sk, v.keys, v.lens, v.taken);
    LogAfterSeal(v.sk, v.keys, v.lens, v.log, s, sent);
  }

  lemma InitKeeps(sk: Secret, keyA: KeyId, keyB: KeyId)
    requires keyA != keyB
    ensures Inv(InitWorld(sk, keyA, keyB))
  {
    var w := InitWorld(sk, keyA, keyB);
    assert w.a.rk == RootAt(sk, w.keys, 1);
    assert forall p :: LedgerAt(w.a, Initiator, sk, w.keys, w.lens, {}, p) && LedgerAt(w.b, Responder, sk, w.keys, w.lens, {}, p);
  }

  lemma {:induction false} RunKeeps(w: World, steps: seq<Step>)
    requires Inv(w)
    ensures Inv(Run(w, steps))
    decreases |steps|
  {
    if steps != [] {
      match steps[0] {
        case SealMsg(role, plain, aad, nonce) => SealStepKeeps(w, role, plain, aad, nonce);
        case DeliverMsg(role, wire, aad, newKey) => DeliverKeeps(w, role, wire, aad, newKey);
      }
      RunKeeps(Apply(w, steps[0]), steps[1..]);
    }
  }
}
