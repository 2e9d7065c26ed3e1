/**
 What the ratchet promises over every run: agreement, authenticity, at most one opening of any
 blob, one message key per message, and no deadlock.
 */
module RatchetTheorems {
  import opened Symbolic
  import opened DoubleRatchet
  import opened RatchetRuns

  /** No chain has outgrown the 32-bit counters of the header. */
  predicate CountersFit(w: World) {
    forall e :: 0 <= e < |w.lens| ==> w.lens[e] < U32
  }

  /** Every reachable world, whatever the peers and the network did. */
  function Reached(sk: Secret, keyA: KeyId, keyB: KeyId, steps: seq<Step>): World {
    Run(InitWorld(sk, keyA, keyB), steps)
  }

  lemma ReachedInv(sk: Secret, keyA: KeyId, keyB: KeyId, steps: seq<Step>)
    requires keyA != keyB
    ensures Inv(Reached(sk, keyA, keyB, steps))
  {
    InitKeeps(sk, keyA, keyB);
    RunKeeps(InitWorld(sk, keyA, keyB), steps);
  }

  /** Ratchet agreement: after any run, a message the peer sealed and this side has not opened
      yields exactly its plaintext if and only if its gaps are within the 100-key limit. Only the chain of
      that message has to fit the header's 32-bit counters. */
  lemma RunAgreement(sk: Secret, keyA: KeyId, keyB: KeyId, steps: seq<Step>, role: Role, p: Slot, newKey: KeyId)
    requires keyA != keyB
    requires var w := Reached(sk, keyA, keyB, steps);
             p in w.log && !Owns(role, p.epoch) && p !in w.taken && (p.epoch < |w.lens| ==> w.lens[p.epoch] < U32)
    ensures var w := Reached(sk, keyA, keyB, steps); var sent := w.log[p];
            && (Open(St(w, role), Frame(sent.blob), sent.aad, newKey).result == Ok(sent.plain) <==>
                WithinSkip(St(w, role), sent.blob.header))
            && (!WithinSkip(St(w, role), sent.blob.header) ==>
                Open(St(w, role), Frame(sent.blob), sent.aad, newKey).result == Err(TooManySkipped))
  {
    ReachedInv(sk, keyA, keyB, steps);
    Agreement(Reached(sk, keyA, keyB, steps), role, p, newKey);
  }

  /** Authenticity: after any run, any blob an active attacker can produce opens only if the peer
      sealed that very blob, for this associated data, and it was never opened before. */
  lemma RunAuthenticity(sk: Secret, keyA: KeyId, keyB: KeyId, steps: seq<Step>, role: Role,
                        blob: Blob, aad: Aad, newKey: KeyId)
    requires keyA != keyB
    requires var w := Reached(sk, keyA, keyB, steps);
             Producible(w, blob) && Open(St(w, role), Frame(blob), aad, newKey).result.Ok?
    ensures var w := Reached(sk, keyA, keyB, steps);
            exists p :: p in w.log && !Owns(role, p.epoch) && p !in w.taken &&
                        w.log[p] == Sent(blob, aad, Open(St(w, role), Frame(blob), aad, newKey).result.value)
  {
    ReachedInv(sk, keyA, keyB, steps);
    var p := OpenedIsGenuine(Reached(sk, keyA, keyB, steps), role, blob, aad, newKey);
  }

  // ---- Replays ----

  /** History only grows: nothing sealed is forgotten and nothing opened becomes unopened. */
  ghost predicate Extends(w: World, v: World) {
    && (forall p :: p in w.log ==> p in v.log && v.log[p] == w.log[p])
    && w.taken <= v.taken
  }

  lemma SealExtends(w: World, role: Role, plain: Payload, aad: Aad, nonce: nat)
    requires Inv(w)
    ensures Extends(w, SealStep(w, role, plain, aad, nonce))
  {
    var v := Started(w, role);
    StartedKeeps(w, role);
    LoggedSlots(v);
    SealKeepsLog(w, role, plain, aad, nonce);
  }

  ghost predicate Logged(w: World) {
    forall p :: p in w.log ==> p.epoch < |w.lens| && p.idx < w.lens[p.epoch]
  }

  lemma LoggedSlots(v: World)
    requires Inv(v)
    ensures Logged(v)
  {
    forall p | p in v.log ensures p.epoch < |v.lens| && p.idx < v.lens[p.epoch] {
      assert LogAt(v.sk, v.keys, v.lens, v.log, p);
    }
  }

  lemma SealKeepsLog(w: World, role: Role, plain: Payload, aad: Aad, nonce: nat)
    requires Logged(Started(w, role))
    ensures Extends(w, SealStep(w, role, plain, aad, nonce))
  {
  }

  lemma {:induction false} RunExtends(w: World, steps: seq<Step>)
    requires Inv(w)
    ensures Extends(w, Run(w, steps))
    decreases |steps|
  {
    if steps != [] {
      var v := Apply(w, steps[0]);
      RunKeeps(w, [steps[0]]);
      assert Run(w, [steps[0]]) == v by {
        assert [steps[0]][1..] == [];
      }
      match steps[0] {
        case SealMsg(role, plain, aad, nonce) => SealExtends(w, role, plain, aad, nonce);
        case DeliverMsg(role, wire, aad, newKey) =>
      }
      RunExtends(v, steps[1..]);
    }
  }

  lemma TakenNeverOpens(v: World, role: Role, p: Slot, blob: Blob, aad: Aad, newKey: KeyId)
    requires Inv(v) && p in v.log && v.log[p].blob == blob && p in v.taken
    ensures Open(St(v, role), Frame(blob), aad, newKey).result.Err?
  {
    if Open(St(v, role), Frame(blob), aad, newKey).result.Ok? {
      var q := OpenedIsGenuine(v, role, blob, aad, newKey);
    }
  }

  /** Once a blob has been opened it never opens again, however the run goes on. */
  lemma NeverOpensTwice(w: World, role: Role, blob: Blob, aad: Aad, newKey: KeyId, steps: seq<Step>,
                        aad2: Aad, newKey2: KeyId)
    requires Inv(w) && Producible(w, blob) && Unused(w, newKey)
    requires Open(St(w, role), Frame(blob), aad, newKey).result.Ok?
    ensures var v := Run(DeliverStep(w, role, Frame(blob), aad, newKey), steps);
            Open(St(v, role), Frame(blob), aad2, newKey2).result.Err?
  {
    var w1 := DeliverStep(w, role, Frame(blob), aad, newKey);
    var p := OpenedIsGenuine(w, role, blob, aad, newKey);
    assert p in w1.log && p in w1.taken;
    DeliverKeeps(w, role, Frame(blob), aad, newKey);
    RunKeeps(w1, steps);
    RunExtends(w1, steps);
    TakenNeverOpens(Run(w1, steps), role, p, blob, aad2, newKey2);
  }

  // ---- One key, one message ----

  /** No message key seals two messages, and the public pair (ratchet key, counter) on the wire
      repeats exactly when two messages of one chain are a multiple of 2^32 apart. */
  lemma OneKeyPerMessage(w: World, p: Slot, q: Slot)
    requires Inv(w) && p in w.log && q in w.log && p != q
    ensures w.log[p].blob.ct.key != w.log[q].blob.ct.key
    ensures var h, k := w.log[p].blob.header, w.log[q].blob.header;
            h.dh == k.dh && h.n == k.n <==> p.epoch == q.epoch && p.idx % U32 == q.idx % U32
    ensures CountersFit(w) ==> !(w.log[p].blob.header.dh == w.log[q].blob.header.dh && w.log[p].blob.header.n == w.log[q].blob.header.n)
  {
    assert LogAt(w.sk, w.keys, w.lens, w.log, p) && LogAt(w.sk, w.keys, w.lens, w.log, q);
    KeyAtInjective(w.sk, w.keys, p.epoch, p.idx, q.epoch, q.idx);
    assert SideOf(w, Initiator);
    if p.epoch == q.epoch {
      assert p.idx != q.idx;
      assert w.lens[p.epoch] < U32 ==> p.idx % U32 != q.idx % U32;
    }
  }

  // ---- No deadlock ----

  lemma NextOpenable(st: Ratchet, role: Role, sk: Secret, keys: seq<KeyId>, lens: seq<nat>, taken: set<Slot>, p: Slot)
    returns (q: Slot)
    requires Side(st, role, sk, keys, lens, taken) && (forall e :: 0 <= e < |lens| ==> lens[e] < U32)
    requires p.epoch < |keys| && p.idx < lens[p.epoch] && !Owns(role, p.epoch) && p !in taken
    ensures q.epoch < |keys| && q.idx < lens[q.epoch] && !Owns(role, q.epoch) && q !in taken
    ensures WithinSkip(st, Header(keys[q.epoch], Wrap(PnOf(lens, q.epoch)), Wrap(q.idx)))
  {
    var m := Depth(st.rk);
    var r := RecvEpoch(role, m);
    RecvEpochIsPeers(st, role, sk, keys, lens, taken);
    assert LedgerAt(st, role, sk, keys, lens, taken, p);
    if Behind(r, st.nr, p) {
      q := p;
    } else if r >= 0 && st.nr < lens[r] {
      q := Slot(r, st.nr);
    } else {
      assert p.epoch == m;
      q := Slot(m, 0);
    }
    assert LedgerAt(st, role, sk, keys, lens, taken, q);
  }

  /** If anything the peer sealed is unopened, something it sealed can be opened right now. */
  lemma SomethingOpens(w: World, role: Role, p: Slot) returns (q: Slot)
    requires Inv(w) && CountersFit(w) && p in w.log && !Owns(role, p.epoch) && p !in w.taken
    ensures q in w.log && !Owns(role, q.epoch) && q !in w.taken
    ensures WithinSkip(St(w, role), w.log[q].blob.header)
  {
    assert SideOf(w, role);
    assert LogAt(w.sk, w.keys, w.lens, w.log, p);
    q := NextOpenable(St(w, role), role, w.sk, w.keys, w.lens, w.taken, p);
    assert LogAt(w.sk, w.keys, w.lens, w.log, q);
  }

  // ---- Single steps, for the layers above ----

  /** The slot the next message of this peer will have. */
  function NextSlot(w: World, role: Role): Slot {
    var v := Started(w, role);
    var s := SendEpoch(role, Depth(St(v, role).rk));
    if 0 <= s < |v.lens| then Slot(s, v.lens[s]) else Slot(0, 0)
  }

  lemma SealStepFacts(w: World, role: Role, plain: Payload, aad: Aad, nonce: nat)
    requires Inv(w) && Seal(St(w, role), plain, aad, nonce).Ok?
    ensures var (st, blob) := Seal(St(w, role), plain, aad, nonce).value;
            var w' := SealStep(w, role, plain, aad, nonce); var slot := NextSlot(w, role);
            && Inv(w') && St(w', role) == st && St(w', Peer(role)) == St(w, Peer(role))
            && w'.sk == w.sk && w'.taken == w.taken
            && slot !in w.log && Owns(role, slot.epoch) && w'.log == w.log[slot := Sent(blob, aad, plain)]
  {
    SealStepKeeps(w, role, plain, aad, nonce);
    SealStarts(w, role, plain, aad, nonce);
    NextSlotFree(w, role, plain, aad, nonce);
  }

  lemma NextSlotFree(w: World, role: Role, plain: Payload, aad: Aad, nonce: nat)
    requires Inv(w) && Seal(St(w, role), plain, aad, nonce).Ok?
    ensures NextSlot(w, role) !in w.log && Owns(role, NextSlot(w, role).epoch)
  {
    SealStarts(w, role, plain, aad, nonce);
    var v := Started(w, role);
    StartedKeeps(w, role);
    assert SideOf(v, role);
    SendEpochIsNewest(St(v, role), role, v.sk, v.keys, v.lens, v.taken);
    assert LogAt(v.sk, v.keys, v.lens, v.log, NextSlot(w, role));
  }

  lemma DeliverStepFacts(w: World, role: Role, p: Slot, aad: Aad, newKey: KeyId)
    requires Inv(w) && p in w.log && Unused(w, newKey)
    requires Open(St(w, role), Frame(w.log[p].blob), aad, newKey).result.Ok?
    ensures var out := Open(St(w, role), Frame(w.log[p].blob), aad, newKey);
            var w' := DeliverStep(w, role, Frame(w.log[p].blob), aad, newKey);
            && Inv(w') && St(w', role) == out.state && St(w', Peer(role)) == St(w, Peer(role))
            && w'.sk == w.sk && w'.log == w.log && w'.taken == w.taken + {p}
            && out.result == Ok(w.log[p].plain) && p !in w.taken
  {
    DeliverKeeps(w, role, Frame(w.log[p].blob), aad, newKey);
    var q := OpenedIsGenuine(w, role, w.log[p].blob, aad, newKey);
  }

  /** A responder that has received nothing may draw its first ratchet key again. */
  lemma RekeyKeeps(w: World, k: KeyId)
    requires Inv(w) && w.b == InitResponder(w.sk, w.b.dhs) && Unused(w, k)
    ensures Inv(w.(b := InitResponder(w.sk, k)))
  {
    var w' := w.(b := InitResponder(w.sk, k));
    assert SideOf(w, Initiator) && SideOf(w, Responder);
    forall p ensures LedgerAt(w'.b, Responder, w.sk, w.keys, w.lens, w.taken, p) {
      assert LedgerAt(w.b, Responder, w.sk, w.keys, w.lens, w.taken, p);
    }
    assert SideOf(w', Initiator) && SideOf(w', Responder);
  }
}
