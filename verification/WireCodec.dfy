/**
 Byte formats of the direct-message wire and the stored form of a ratchet.

 A ratchet frame is version, header, nonce and ciphertext; a first message puts the X3DH prefix
 in front of it. Counters and the one-time prekey id are written with setUint32, which keeps
 them modulo 2^32, and a prekey id of zero stands for "none".
 */
module WireCodec {
  import opened Basics
  import opened Symbolic
  import opened DoubleRatchet
  import opened X3dh

  const RATCHET_VERSION: Byte := 1
  const X3DH_VERSION: Byte := 2
  const KEY_LEN := 32
  const HEADER_LEN := 40
  const NONCE_LEN := 24
  const PREFIX_LEN := 69

  /** Big-endian, of the value modulo 2^32. */
  function PutU32(n: nat): (bytes: seq<Byte>)
    ensures |bytes| == 4
  {
    var m := Wrap(n);
    [m / 256 / 256 / 256, m / 256 / 256 % 256, m / 256 % 256, m % 256]
  }

  function GetU32(bytes: seq<Byte>, at: nat): nat
    requires at + 4 <= |bytes|
  {
    var b: seq<int> := bytes[at..at + 4];
    ((b[0] * 256 + b[1]) * 256 + b[2]) * 256 + b[3]
  }

  lemma U32RoundTrip(n: nat)
    ensures GetU32(PutU32(n), 0) == Wrap(n)
  {
    assert PutU32(n)[0..4] == PutU32(n);
  }

  // ---- Ratchet header and frame ----

  datatype RawHeader = RawHeader(dh: seq<Byte>, pn: nat, n: nat)

  predicate WellFormed(h: RawHeader) {
    |h.dh| == KEY_LEN
  }

  function EncodeHeader(h: RawHeader): (bytes: seq<Byte>)
    requires WellFormed(h)
    ensures |bytes| == HEADER_LEN
  {
    h.dh + PutU32(h.pn) + PutU32(h.n)
  }

  function DecodeHeader(bytes: seq<Byte>): Option<RawHeader> {
    if |bytes| < HEADER_LEN then None
    else Some(RawHeader(bytes[..32], GetU32(bytes, 32), GetU32(bytes, 36)))
  }

  /** What a reader of the header sees: the key, and both counters modulo 2^32. */
  lemma HeaderRoundTrip(h: RawHeader, rest: seq<Byte>)
    requires WellFormed(h)
    ensures DecodeHeader(EncodeHeader(h) + rest) == Some(RawHeader(h.dh, Wrap(h.pn), Wrap(h.n)))
    ensures DecodeHeader(EncodeHeader(h) + rest) == Some(h) <==> h.pn < U32 && h.n < U32
  {
    var bytes := EncodeHeader(h) + rest;
    U32RoundTrip(h.pn);
    U32RoundTrip(h.n);
    assert bytes[..32] == h.dh;
    assert bytes[32..36] == PutU32(h.pn) && bytes[36..40] == PutU32(h.n);
    assert PutU32(h.pn)[0..4] == PutU32(h.pn) && PutU32(h.n)[0..4] == PutU32(h.n);
  }

  /** Binding the header into the associated data by concatenation is unambiguous. */
  lemma HeaderBinding(aad1: seq<Byte>, h1: RawHeader, aad2: seq<Byte>, h2: RawHeader)
    requires WellFormed(h1) && WellFormed(h2)
    requires aad1 + EncodeHeader(h1) == aad2 + EncodeHeader(h2)
    ensures aad1 == aad2 && h1.dh == h2.dh && Wrap(h1.pn) == Wrap(h2.pn) && Wrap(h1.n) == Wrap(h2.n)
  {
    var all := aad1 + EncodeHeader(h1);
    assert |aad1| == |aad2|;
    assert aad1 == all[..|aad1|] == aad2;
    assert EncodeHeader(h1) == all[|aad1|..] == EncodeHeader(h2);
    HeaderRoundTrip(h1, []);
    HeaderRoundTrip(h2, []);
    assert EncodeHeader(h1) + [] == EncodeHeader(h1) && EncodeHeader(h2) + [] == EncodeHeader(h2);
  }

  datatype RawFrame = FrameTooShort | FrameBadVersion | RawFrame(header: RawHeader, nonce: seq<Byte>, ct: seq<Byte>)

  function EncodeFrame(h: RawHeader, nonce: seq<Byte>, ct: seq<Byte>): seq<Byte>
    requires WellFormed(h)
  {
    [RATCHET_VERSION] + EncodeHeader(h) + nonce + ct
  }

  /** The checks and slices at the head of `open`. */
  function DecodeFrame(blob: seq<Byte>): RawFrame {
    if |blob| < 1 + HEADER_LEN + NONCE_LEN + 1 then FrameTooShort
    else if blob[0] != RATCHET_VERSION then FrameBadVersion
    else
      var h := DecodeHeader(blob[1..41]);
      if h.None? then FrameTooShort else RawFrame(h.value, blob[41..65], blob[65..])
  }

  lemma FrameRoundTrip(h: RawHeader, nonce: seq<Byte>, ct: seq<Byte>)
    requires WellFormed(h) && |nonce| == NONCE_LEN
    ensures DecodeFrame(EncodeFrame(h, nonce, ct)) ==
            if ct == [] then FrameTooShort else RawFrame(RawHeader(h.dh, Wrap(h.pn), Wrap(h.n)), nonce, ct)
  {
    var blob := EncodeFrame(h, nonce, ct);
    assert ct != [] ==> blob[1..41] == EncodeHeader(h) + [] && blob[41..65] == nonce && blob[65..] == ct;
    HeaderRoundTrip(h, []);
  }

  lemma Byte256(a: nat, b: nat)
    requires b < 256
    ensures (a * 256 + b) / 256 == a && (a * 256 + b) % 256 == b
  {
  }

  lemma U32Canonical(bytes: seq<Byte>, at: nat)
    requires at + 4 <= |bytes|
    ensures GetU32(bytes, at) < U32 && PutU32(GetU32(bytes, at)) == bytes[at..at + 4]
  {
    var b: seq<int> := bytes[at..at + 4];
    var hi: nat := b[0] * 256 + b[1];
    var mid: nat := hi * 256 + b[2];
    Byte256(b[0], b[1]);
    Byte256(hi, b[2]);
    Byte256(mid, b[3]);
  }

  /** The other way round: bytes are a frame exactly when they are long enough and of this version, and what they decode to
      encodes to them again. No two byte strings are the same frame. */
  lemma FrameCanonical(blob: seq<Byte>)
    ensures var f := DecodeFrame(blob);
            && (f.RawFrame? <==> |blob| >= 66 && blob[0] == 1)
            && (f.RawFrame? ==> WellFormed(f.header) && |f.nonce| == NONCE_LEN && EncodeFrame(f.header, f.nonce, f.ct) == blob)
  {
    if |blob| >= 66 {
      var head := blob[1..41];
      U32Canonical(head, 32);
      U32Canonical(head, 36);
      assert head == head[..32] + head[32..36] + head[36..40];
      assert blob == [blob[0]] + head + blob[41..65] + blob[65..];
    }
  }

  // ---- X3DH prefix ----

  datatype Prefix = Prefix(identityDh: seq<Byte>, ephemeral: seq<Byte>, otpId: Option<nat>, rest: seq<Byte>)

  function EncodePrefix(identityDh: seq<Byte>, ephemeral: seq<Byte>, otpId: Option<nat>): seq<Byte> {
    [X3DH_VERSION] + identityDh + ephemeral + PutU32(if otpId.Some? then otpId.value else 0)
  }

  function DecodePrefix(blob: seq<Byte>): Option<Prefix> {
    if |blob| < PREFIX_LEN + 2 || blob[0] != X3DH_VERSION then None
    else
      var raw := GetU32(blob, 65);
      Some(Prefix(blob[1..33], blob[33..65], if raw == 0 then None else Some(raw), blob[PREFIX_LEN..]))
  }

  /** Where the fields of a prefix lie. */
  lemma PrefixSlices(identityDh: seq<Byte>, ephemeral: seq<Byte>, id: nat, rest: seq<Byte>)
    requires |identityDh| == KEY_LEN && |ephemeral| == KEY_LEN
    ensures var blob := [X3DH_VERSION] + identityDh + ephemeral + PutU32(id) + rest;
            && |blob| == PREFIX_LEN + |rest| && blob[0] == X3DH_VERSION
            && blob[1..33] == identityDh && blob[33..65] == ephemeral && blob[PREFIX_LEN..] == rest
            && GetU32(blob, 65) == Wrap(id)
  {
    var blob := [X3DH_VERSION] + identityDh + ephemeral + PutU32(id) + rest;
    assert blob[65..69] == PutU32(id);
    assert PutU32(id)[0..4] == PutU32(id);
    U32RoundTrip(id);
  }

  /** Whatever the id, the bytes carry it as `WireId` and `FromWireId` say. */
  lemma PrefixCarriesId(identityDh: seq<Byte>, ephemeral: seq<Byte>, usedId: Option<nat>, rest: seq<Byte>)
    requires |identityDh| == KEY_LEN && |ephemeral| == KEY_LEN
    ensures DecodePrefix(EncodePrefix(identityDh, ephemeral, usedId) + rest) ==
            if |rest| >= 2 then Some(Prefix(identityDh, ephemeral, FromWireId(WireId(usedId)), rest)) else None
  {
    PrefixSlices(identityDh, ephemeral, if usedId.Some? then usedId.value else 0, rest);
  }

  /** The prefix survives the wire exactly when the prekey id is absent or a nonzero 32-bit number. */
  lemma PrefixRoundTrip(identityDh: seq<Byte>, ephemeral: seq<Byte>, otpId: Option<nat>, rest: seq<Byte>)
    requires |identityDh| == KEY_LEN && |ephemeral| == KEY_LEN
    ensures DecodePrefix(EncodePrefix(identityDh, ephemeral, otpId) + rest) == Some(Prefix(identityDh, ephemeral, otpId, rest))
            <==> |rest| >= 2 && (otpId.Some? ==> 0 < otpId.value < U32)
  {
    PrefixCarriesId(identityDh, ephemeral, otpId, rest);
  }

  /** Bytes are a first message exactly when they are long enough and of this version, and what they decode to encodes to
      them again. */
  lemma PrefixCanonical(blob: seq<Byte>)
    ensures var p := DecodePrefix(blob);
            && (p.Some? <==> |blob| >= 71 && blob[0] == 2)
            && (p.Some? ==> |p.value.identityDh| == KEY_LEN && |p.value.ephemeral| == KEY_LEN
                            && EncodePrefix(p.value.identityDh, p.value.ephemeral, p.value.otpId) + p.value.rest == blob)
  {
    if |blob| >= 71 {
      U32Canonical(blob, 65);
      assert blob == [blob[0]] + blob[1..33] + blob[33..65] + blob[65..69] + blob[69..];
    }
  }

  /** X3DH over the bytes: whoever decodes the prefix of a first message built from an exported bundle derives the
      initiator's root, and spends the key that was offered, unless it was spent meanwhile. `pk` is the encoding of
      public keys: 32 bytes that stand for no other key. */
  lemma X3dhOverTheWire(pk: KeyId -> seq<Byte>, alice: KeyId, bob: LocalPrekeys, later: LocalPrekeys, signer: KeyId,
                        offered: Option<nat>, ephemeral: KeyId, frame: seq<Byte>, ik: KeyId, ek: KeyId)
    requires |pk(alice)| == KEY_LEN && |pk(ephemeral)| == KEY_LEN
    requires (pk(ik) == pk(alice) ==> ik == alice) && (pk(ek) == pk(ephemeral) ==> ek == ephemeral)
    requires bob.signature == Signature(signer, bob.signedPrekey) && |frame| >= 2
    requires offered.Some? ==> offered.value in bob.oneTime && 0 < offered.value < U32
    requires later.identityDh == bob.identityDh && later.signedPrekey == bob.signedPrekey
    requires forall i :: i in later.oneTime ==> i in bob.oneTime && later.oneTime[i] == bob.oneTime[i]
    ensures var i := Initiate(alice, ExportBundle(bob, signer, offered), ephemeral);
            && i.Initiated?
            && var pre := DecodePrefix(EncodePrefix(pk(alice), pk(i.ephemeral), i.usedId) + frame);
            && pre.Some? && pre.value.rest == frame
            && (pre.value.identityDh == pk(ik) && pre.value.ephemeral == pk(ek) ==>
                  Respond(later, ik, ek, pre.value.otpId) ==
                  if offered.Some? && offered.value !in later.oneTime then UnknownOneTimeKey
                  else Responded(i.sk, if offered.Some? then later.oneTime - {offered.value} else later.oneTime))
  {
    X3dhAgreement(alice, bob, later, signer, offered, ephemeral);
    var i := Initiate(alice, ExportBundle(bob, signer, offered), ephemeral);
    PrefixCarriesId(pk(alice), pk(i.ephemeral), i.usedId, frame);
  }

  /** A reply is never taken for a first message, nor a first message for a reply. */
  lemma VersionsDoNotMix(h: RawHeader, nonce: seq<Byte>, ct: seq<Byte>, ik: seq<Byte>, ek: seq<Byte>, otpId: Option<nat>)
    requires WellFormed(h) && |nonce| == NONCE_LEN && |ik| == KEY_LEN && |ek| == KEY_LEN
    ensures DecodePrefix(EncodeFrame(h, nonce, ct)) == None
    ensures !DecodeFrame(EncodePrefix(ik, ek, otpId) + EncodeFrame(h, nonce, ct)).RawFrame?
  {
    assert EncodeFrame(h, nonce, ct)[0] == RATCHET_VERSION;
    assert (EncodePrefix(ik, ek, otpId) + EncodeFrame(h, nonce, ct))[0] == X3DH_VERSION;
  }

  // ---- The stored form of a session ----

  /** What serializeState writes: the fields, and the skipped keys as a list of entries. */
  datatype Stored = Stored(
    dhs: KeyId, dhr: Option<KeyId>, rk: Root, cks: Option<ChainKey>, ckr: Option<ChainKey>,
    ns: nat, nr: nat, pn: nat, skipped: seq<((KeyId, nat), MessageKey)>)

  /** What serializing a session may write: its fields, and the skipped keys in any order. */
  ghost predicate Serializes(st: Ratchet, s: Stored) {
    && s.dhs == st.dhs && s.dhr == st.dhr && s.rk == st.rk && s.cks == st.cks && s.ckr == st.ckr
    && s.ns == st.ns && s.nr == st.nr && s.pn == st.pn
    && Lists(s.skipped, st.skipped)
  }

  method SerializeState(st: Ratchet) returns (s: Stored)
    ensures Serializes(st, s)
  {
    var entries := EntriesOf(st.skipped);
    s := Stored(st.dhs, st.dhr, st.rk, st.cks, st.ckr, st.ns, st.nr, st.pn, entries);
  }

  function DeserializeState(s: Stored): Ratchet {
    Ratchet(s.dhs, s.dhr, s.rk, s.cks, s.ckr, s.ns, s.nr, s.pn, MapOf(s.skipped))
  }

  /** Reading back what was written gives the same session, in whatever order the entries were listed. */
  lemma StateRoundTrip(st: Ratchet, s: Stored)
    requires Serializes(st, s)
    ensures DeserializeState(s) == st
  {
    MapOfLists(s.skipped, st.skipped);
  }
}
