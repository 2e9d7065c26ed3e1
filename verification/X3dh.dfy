/**
 The session bootstrap of packages/client/src/x3dh.ts: prekey material, exported bundles and
 the two sides of the X3DH agreement (sections 3.3 and 3.4 of Signal's X3DH specification).
 */
module X3dh {
  import opened Basics
  import opened Symbolic
  import opened DoubleRatchet

  /** An Ed25519 signature is the pair of signer and message: it cannot be forged. */
  datatype Signature = Signature(signer: KeyId, message: KeyId)

  datatype Bundle = Bundle(
    identityDh: KeyId,
    signedPrekey: KeyId,
    signature: Signature,
    identitySign: KeyId,
    oneTime: Option<KeyId>,
    oneTimeId: Option<nat>)

  datatype LocalPrekeys = LocalPrekeys(
    identityDh: KeyId,
    signedPrekey: KeyId,
    signature: Signature,
    oneTime: map<nat, KeyId>)

  datatype Initiated = InvalidSignature | Initiated(sk: Secret, ephemeral: KeyId, usedId: Option<nat>)

  datatype Responded = UnknownOneTimeKey | Responded(sk: Secret, oneTime: map<nat, KeyId>)

  /** Prekey ids start at 1, so that 0 can mean "none" on the wire. */
  method CreateLocalPrekeys(identityDh: KeyId, signedPrekey: KeyId, signer: KeyId, oneTimeKeys: seq<KeyId>)
    returns (m: LocalPrekeys)
    ensures m.identityDh == identityDh && m.signedPrekey == signedPrekey
    ensures m.signature == Signature(signer, signedPrekey)
    ensures forall i :: i in m.oneTime <==> 1 <= i <= |oneTimeKeys|
    ensures forall i :: i in m.oneTime ==> m.oneTime[i] == oneTimeKeys[i - 1]
  {
    var oneTime: map<nat, KeyId> := map[];
    var i := 1;
    while i <= |oneTimeKeys|
      invariant 1 <= i <= |oneTimeKeys| + 1
      invariant forall j :: j in oneTime <==> 1 <= j < i
      invariant forall j :: j in oneTime ==> oneTime[j] == oneTimeKeys[j - 1]
    {
      oneTime := oneTime[i := oneTimeKeys[i - 1]];
      i := i + 1;
    }
    m := LocalPrekeys(identityDh, signedPrekey, Signature(signer, signedPrekey), oneTime);
  }

  /** The public bundle. The source offers the first entry of its map; the model lets it be any. */
  function ExportBundle(m: LocalPrekeys, signer: KeyId, offered: Option<nat>): Bundle
    requires offered.Some? ==> offered.value in m.oneTime
  {
    Bundle(m.identityDh, m.signedPrekey, m.signature, signer,
           if offered.Some? then Some(m.oneTime[offered.value]) else None, offered)
  }

  predicate VerifyBundle(b: Bundle) {
    b.signature == Signature(b.identitySign, b.signedPrekey)
  }

  function Initiate(identitySecret: KeyId, bob: Bundle, ephemeral: KeyId): Initiated {
    if !VerifyBundle(bob) then InvalidSignature
    else
      var parts := [Dh(identitySecret, bob.signedPrekey), Dh(ephemeral, bob.identityDh), Dh(ephemeral, bob.signedPrekey)];
      if bob.oneTime.Some? then
        Initiated(Secret(parts + [Dh(ephemeral, bob.oneTime.value)]), ephemeral, bob.oneTimeId)
      else Initiated(Secret(parts), ephemeral, None)
  }

  /** A bundle is accepted exactly when its prekey was signed by the identity it names; a prekey that anybody else put in
      opens no session. */
  lemma InitiatesIff(identitySecret: KeyId, bob: Bundle, ephemeral: KeyId)
    ensures Initiate(identitySecret, bob, ephemeral).Initiated? <==>
            bob.signature.signer == bob.identitySign && bob.signature.message == bob.signedPrekey
  {
  }

  /** Consumes the one-time key it uses, from the copy of the material it is given. */
  function Respond(bob: LocalPrekeys, identityDh: KeyId, ephemeral: KeyId, usedId: Option<nat>): Responded {
    var parts := [Dh(bob.signedPrekey, identityDh), Dh(bob.identityDh, ephemeral), Dh(bob.signedPrekey, ephemeral)];
    if usedId.None? then Responded(Secret(parts), bob.oneTime)
    else if usedId.value !in bob.oneTime then UnknownOneTimeKey
    else Responded(Secret(parts + [Dh(bob.oneTime[usedId.value], ephemeral)]), bob.oneTime - {usedId.value})
  }

  /** Prekey material in memory; responding deletes the one-time key that was used. */
  class PrekeyMaterial {
    const identityDh: KeyId
    const signedPrekey: KeyId
    const signature: Signature
    var oneTime: map<nat, KeyId>

    function View(): LocalPrekeys
      reads this
    {
      LocalPrekeys(identityDh, signedPrekey, signature, oneTime)
    }

    constructor FromValue(m: LocalPrekeys)
      ensures View() == m
    {
      identityDh, signedPrekey, signature, oneTime := m.identityDh, m.signedPrekey, m.signature, m.oneTime;
    }

    method RespondTo(theirs: KeyId, ephemeral: KeyId, usedId: Option<nat>) returns (sk: Option<Secret>)
      modifies this
      ensures match Respond(old(View()), theirs, ephemeral, usedId)
              case UnknownOneTimeKey => sk == None && View() == old(View())
              case Responded(secret, left) => sk == Some(secret) && View() == old(View()).(oneTime := left)
    {
      var parts := [Dh(signedPrekey, theirs), Dh(identityDh, ephemeral), Dh(signedPrekey, ephemeral)];
      if usedId.Some? {
        if usedId.value !in oneTime {
          return None;
        }
        parts := parts + [Dh(oneTime[usedId.value], ephemeral)];
        oneTime := oneTime - {usedId.value};
      }
      return Some(Secret(parts));
    }
  }

  /** The prekey id as the prefix carries it: 0 for none, and modulo 2^32. */
  function WireId(usedId: Option<nat>): nat {
    if usedId.Some? then Wrap(usedId.value) else 0
  }

  function FromWireId(raw: nat): Option<nat> {
    if raw == 0 then None else Some(raw)
  }

  /** Both sides derive one root from a bundle that the responder exported, and the key it offered
      is spent, provided its id is a nonzero 32-bit number and the key has not been spent since. */
  lemma X3dhAgreement(alice: KeyId, bob: LocalPrekeys, later: LocalPrekeys, signer: KeyId, offered: Option<nat>, ephemeral: KeyId)
    requires bob.signature == Signature(signer, bob.signedPrekey)
    requires offered.Some? ==> offered.value in bob.oneTime && 0 < offered.value < U32
    requires later.identityDh == bob.identityDh && later.signedPrekey == bob.signedPrekey
    requires forall i :: i in later.oneTime ==> i in bob.oneTime && later.oneTime[i] == bob.oneTime[i]
    ensures var i := Initiate(alice, ExportBundle(bob, signer, offered), ephemeral);
            && i.Initiated?
            && var r := Respond(later, alice, ephemeral, FromWireId(WireId(i.usedId)));
            if offered.Some? && offered.value !in later.oneTime then r == UnknownOneTimeKey
            else r == Responded(i.sk, if offered.Some? then later.oneTime - {offered.value} else later.oneTime)
  {
    if offered.Some? {
      assert Wrap(offered.value) == offered.value;
    }
  }

  /** Exactly when the two sides agree at once, for any id: no key is offered, or the id that survives the wire
      is nonzero and names the key that was offered. */
  lemma X3dhAgreementIff(alice: KeyId, bob: LocalPrekeys, signer: KeyId, offered: Option<nat>, ephemeral: KeyId)
    requires bob.signature == Signature(signer, bob.signedPrekey)
    requires offered.Some? ==> offered.value in bob.oneTime
    ensures var i := Initiate(alice, ExportBundle(bob, signer, offered), ephemeral);
            && i.Initiated?
            && var r := Respond(bob, alice, ephemeral, FromWireId(WireId(i.usedId)));
            r.Responded? && r.sk == i.sk <==>
            offered.Some? ==> var id := Wrap(offered.value); id != 0 && id in bob.oneTime && bob.oneTime[id] == bob.oneTime[offered.value]
  {
    var i := Initiate(alice, ExportBundle(bob, signer, offered), ephemeral);
    if offered.Some? {
      var id, key := Wrap(offered.value), bob.oneTime[offered.value];
      assert i.sk.parts[3] == Dh(ephemeral, key);
      if id == 0 {
        assert |Respond(bob, alice, ephemeral, None).sk.parts| == 3;
      } else if id in bob.oneTime {
        var r := Respond(bob, alice, ephemeral, Some(id));
        assert r.sk.parts[3] == Dh(bob.oneTime[id], ephemeral);
        DhInjective(ephemeral, key, bob.oneTime[id]);
        assert r.sk.parts[..3] == i.sk.parts[..3];
      }
    }
  }

  lemma DhInjective(ours: KeyId, a: KeyId, b: KeyId)
    ensures Dh(ours, a) == Dh(b, ours) <==> a == b
  {
  }

  /** Why the ids start at 1: a key offered under id 0 is used by one side and not by the other. */
  lemma ZeroIdBreaksAgreement(alice: KeyId, bob: LocalPrekeys, signer: KeyId, ephemeral: KeyId)
    requires bob.signature == Signature(signer, bob.signedPrekey) && 0 in bob.oneTime
    ensures var i := Initiate(alice, ExportBundle(bob, signer, Some(0)), ephemeral);
            && i.Initiated?
            && var r := Respond(bob, alice, ephemeral, FromWireId(WireId(i.usedId)));
            r.Responded? && r.sk != i.sk
  {
    var i := Initiate(alice, ExportBundle(bob, signer, Some(0)), ephemeral);
    assert |i.sk.parts| == 4;
  }
}
