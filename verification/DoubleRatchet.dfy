/**
 The per-peer key state machine of packages/client/src/double-ratchet.ts.

 `Ratchet` is the value of a session. The functions say what each operation does to it, on the
 failing paths too: `open` throws after it has already moved the state, and the model keeps
 that. The class `RatchetState` is the object the client mutates in place, loop and all; every
 method is proved to compute the matching function.
 */
module DoubleRatchet {
  import opened Basics
  import opened Symbolic

  const MAX_SKIP: nat := 100
  const U32: nat := 0x1_0000_0000

  /** What DataView.setUint32 keeps of a counter. */
  function Wrap(n: nat): nat { n % U32 }

  datatype Ratchet = Ratchet(
    dhs: KeyId,
    dhr: Option<KeyId>,
    rk: Root,
    cks: Option<ChainKey>,
    ckr: Option<ChainKey>,
    ns: nat,
    nr: nat,
    pn: nat,
    skipped: map<(KeyId, nat), MessageKey>)

  datatype Blob = Blob(header: Header, nonce: nat, ct: Cipher)

  /** Bytes on the wire, after the length and version checks of `open`. */
  datatype Wire = TooShort | BadVersion | Frame(blob: Blob)

  datatype Error = BlobTooShort | VersionMismatch | TooManySkipped | NoReceivingChain | NoRemoteDh | DecryptFailed

  datatype Result<+T> = Ok(value: T) | Err(error: Error)

  /** `open` returns or throws, and moves the state either way. */
  datatype OpenOutcome = OpenOutcome(state: Ratchet, result: Result<Payload>)

  function InitInitiator(sk: Secret, newKey: KeyId): Ratchet {
    var (rk, ck) := KdfRk(Seed(sk), PublicBytes(newKey));
    Ratchet(newKey, None, rk, Some(ck), None, 0, 0, 0, map[])
  }

  function InitResponder(sk: Secret, newKey: KeyId): Ratchet {
    Ratchet(newKey, None, Seed(sk), None, None, 0, 0, 0, map[])
  }

  // ---- Skipping ----

  function SkipOne(st: Ratchet, dhPub: KeyId): Ratchet
    requires st.ckr.Some?
  {
    var (ck, mk) := KdfCk(st.ckr.value);
    st.(ckr := Some(ck), skipped := st.skipped[(dhPub, st.nr) := mk], nr := st.nr + 1)
  }

  function SkipTo(st: Ratchet, until: nat, dhPub: KeyId): Ratchet
    requires st.ckr.Some?
    decreases until - st.nr
  {
    if st.nr >= until then st else SkipTo(SkipOne(st, dhPub), until, dhPub)
  }

  /** The state is untouched when the limit is passed: the check comes before the loop. */
  function SkipMessageKeys(st: Ratchet, until: nat, dhPub: KeyId): (Ratchet, bool) {
    if st.ckr.None? then (st, true)
    else if until - st.nr > MAX_SKIP then (st, false)
    else (SkipTo(st, until, dhPub), true)
  }

  // ---- Steps ----

  function DhRatchet(st: Ratchet, headerDh: KeyId, newKey: KeyId): Ratchet {
    var (rk1, ckr) := KdfRk(st.rk, Dh(st.dhs, headerDh));
    var (rk2, cks) := KdfRk(rk1, Dh(newKey, headerDh));
    Ratchet(newKey, Some(headerDh), rk2, Some(cks), Some(ckr), 0, 0, st.ns, st.skipped)
  }

  function BootstrapReceive(st: Ratchet, headerDh: KeyId): Ratchet {
    var (rk, ck) := KdfRk(st.rk, PublicBytes(headerDh));
    st.(rk := rk, ckr := Some(ck), dhr := Some(headerDh))
  }

  function EnsureSendingChain(st: Ratchet): Result<Ratchet> {
    if st.cks.Some? then Ok(st)
    else if st.dhr.None? then Err(NoRemoteDh)
    else
      var (rk, ck) := KdfRk(st.rk, Dh(st.dhs, st.dhr.value));
      Ok(st.(rk := rk, cks := Some(ck)))
  }

  function Seal(st: Ratchet, plain: Payload, aad: Aad, nonce: nat): Result<(Ratchet, Blob)> {
    match EnsureSendingChain(st)
    case Err(e) => Err(e)
    case Ok(ready) =>
      if ready.cks.None? then Err(NoRemoteDh)
      else
        var (ck, mk) := KdfCk(ready.cks.value);
        var header := Header(ready.dhs, Wrap(ready.pn), Wrap(ready.ns));
        Ok((ready.(cks := Some(ck), ns := ready.ns + 1),
            Blob(header, nonce, Encrypt(mk, nonce, FullAad(aad, header), plain))))
  }

  /** Everything `open` does before the final key derivation, on a key that was not skipped. */
  function Align(st: Ratchet, header: Header, newKey: KeyId): (Ratchet, bool) {
    if st.dhr == Some(header.dh) then (st, true)
    else if st.dhr.None? && st.ckr.None? && st.cks.None? then (BootstrapReceive(st, header.dh), true)
    else if st.ckr.Some? && st.dhr.Some? then
      var (skippedTo, ok) := SkipMessageKeys(st, header.pn, st.dhr.value);
      if ok then (DhRatchet(skippedTo, header.dh, newKey), true) else (skippedTo, false)
    else (DhRatchet(st, header.dh, newKey), true)
  }

  function Finish(plain: Option<Payload>): Result<Payload> {
    if plain.Some? then Ok(plain.value) else Err(DecryptFailed)
  }

  function OpenBlob(st: Ratchet, blob: Blob, aad: Aad, newKey: KeyId): OpenOutcome {
    var header := blob.header;
    var fullAad := FullAad(aad, header);
    var id := (header.dh, header.n);
    if id in st.skipped then
      OpenOutcome(st.(skipped := st.skipped - {id}), Finish(Decrypt(st.skipped[id], blob.nonce, fullAad, blob.ct)))
    else
      var (aligned, ok) := Align(st, header, newKey);
      if !ok then OpenOutcome(aligned, Err(TooManySkipped))
      else if aligned.ckr.None? then OpenOutcome(aligned, Err(NoReceivingChain))
      else
        var (at, ok2) := SkipMessageKeys(aligned, header.n, header.dh);
        if !ok2 || at.ckr.None? then OpenOutcome(at, Err(TooManySkipped))
        else
          var (ck, mk) := KdfCk(at.ckr.value);
          OpenOutcome(at.(ckr := Some(ck), nr := at.nr + 1), Finish(Decrypt(mk, blob.nonce, fullAad, blob.ct)))
  }

  function Open(st: Ratchet, wire: Wire, aad: Aad, newKey: KeyId): OpenOutcome {
    match wire
    case TooShort => OpenOutcome(st, Err(BlobTooShort))
    case BadVersion => OpenOutcome(st, Err(VersionMismatch))
    case Frame(blob) => OpenBlob(st, blob, aad, newKey)
  }

  // ---- Facts about skipping ----

  lemma {:induction false} SkipToKeepsChain(st: Ratchet, until: nat, dhPub: KeyId)
    requires st.ckr.Some?
    ensures var r := SkipTo(st, until, dhPub); r.ckr.Some? && r == st.(ckr := r.ckr, nr := r.nr, skipped := r.skipped)
    decreases until - st.nr
  {
    if st.nr < until {
      SkipToKeepsChain(SkipOne(st, dhPub), until, dhPub);
    }
  }

  /** Closed form of the skip loop on a chain that started at `start`. */
  lemma {:induction false} SkipToClosedForm(st: Ratchet, until: nat, dhPub: KeyId, start: ChainKey)
    requires st.ckr == Some(Advance(start, st.nr))
    ensures var out := SkipTo(st, until, dhPub);
            && out.nr == (if st.nr >= until then st.nr else until)
            && out.ckr == Some(Advance(start, out.nr))
            && out == st.(nr := out.nr, ckr := out.ckr, skipped := out.skipped)
            && (forall q: (KeyId, nat) :: q in out.skipped <==> q in st.skipped || (q.0 == dhPub && st.nr <= q.1 < until))
            && (forall q: (KeyId, nat) :: q in out.skipped ==>
                  out.skipped[q] == if q.0 == dhPub && st.nr <= q.1 < until
                                    then MessageKey(Advance(start, q.1)) else st.skipped[q])
    decreases until - st.nr
  {
    if st.nr < until {
      var next := SkipOne(st, dhPub);
      assert next.ckr == Some(Advance(start, next.nr));
      SkipToClosedForm(next, until, dhPub, start);
    }
  }

  // ---- The session object ----

  class RatchetState {
    var dhs: KeyId
    var dhr: Option<KeyId>
    var rk: Root
    var cks: Option<ChainKey>
    var ckr: Option<ChainKey>
    var ns: nat
    var nr: nat
    var pn: nat
    var skipped: map<(KeyId, nat), MessageKey>

    function View(): Ratchet
      reads this
    {
      Ratchet(dhs, dhr, rk, cks, ckr, ns, nr, pn, skipped)
    }

    constructor FromValue(st: Ratchet)
      ensures View() == st
    {
      dhs, dhr, rk, cks, ckr := st.dhs, st.dhr, st.rk, st.cks, st.ckr;
      ns, nr, pn, skipped := st.ns, st.nr, st.pn, st.skipped;
    }

    method SkipKeys(until: nat, dhPub: KeyId) returns (ok: bool)
      modifies this
      ensures (View(), ok) == SkipMessageKeys(old(View()), until, dhPub)
    {
      if ckr.None? {
        return true;
      }
      if until - nr > MAX_SKIP {
        return false;
      }
      while nr < until
        invariant ckr.Some?
        invariant SkipTo(View(), until, dhPub) == SkipTo(old(View()), until, dhPub)
      {
        ghost var before := View();
        var (ck, mk) := KdfCk(ckr.value);
        ckr := Some(ck);
        skipped := skipped[(dhPub, nr) := mk];
        nr := nr + 1;
        assert View() == SkipOne(before, dhPub);
      }
      return true;
    }

    method DhStep(headerDh: KeyId, newKey: KeyId)
      modifies this
      ensures View() == DhRatchet(old(View()), headerDh, newKey)
    {
      pn := ns;
      ns := 0;
      nr := 0;
      dhr := Some(headerDh);
      var (rk1, ck1) := KdfRk(rk, Dh(dhs, headerDh));
      rk := rk1;
      ckr := Some(ck1);
      dhs := newKey;
      var (rk2, ck2) := KdfRk(rk, Dh(dhs, headerDh));
      rk := rk2;
      cks := Some(ck2);
    }

    method SealMessage(plain: Payload, aad: Aad, nonce: nat) returns (r: Result<Blob>)
      modifies this
      ensures match Seal(old(View()), plain, aad, nonce)
              case Ok((st, blob)) => View() == st && r == Ok(blob)
              case Err(e) => View() == old(View()) && r == Err(e)
    {
      if cks.None? {
        if dhr.None? {
          return Err(NoRemoteDh);
        }
        var (rk1, ck1) := KdfRk(rk, Dh(dhs, dhr.value));
        rk := rk1;
        cks := Some(ck1);
      }
      var (ck, mk) := KdfCk(cks.value);
      cks := Some(ck);
      var header := Header(dhs, Wrap(pn), Wrap(ns));
      ns := ns + 1;
      return Ok(Blob(header, nonce, Encrypt(mk, nonce, FullAad(aad, header), plain)));
    }

    method OpenMessage(wire: Wire, aad: Aad, newKey: KeyId) returns (r: Result<Payload>)
      modifies this
      ensures OpenOutcome(View(), r) == Open(old(View()), wire, aad, newKey)
    {
      match wire {
        case TooShort => return Err(BlobTooShort);
        case BadVersion => return Err(VersionMismatch);
        case Frame(blob) =>
          var header := blob.header;
          var fullAad := FullAad(aad, header);
          var id := (header.dh, header.n);
          if id in skipped {
            var mk := skipped[id];
            skipped := skipped - {id};
            return Finish(Decrypt(mk, blob.nonce, fullAad, blob.ct));
          }
          if dhr != Some(header.dh) {
            if dhr.None? && ckr.None? && cks.None? {
              var (rk1, ck1) := KdfRk(rk, PublicBytes(header.dh));
              rk := rk1;
              ckr := Some(ck1);
              dhr := Some(header.dh);
            } else {
              if ckr.Some? && dhr.Some? {
                var within := SkipKeys(header.pn, dhr.value);
                if !within {
                  return Err(TooManySkipped);
                }
              }
              DhStep(header.dh, newKey);
            }
          }
          if ckr.None? {
            return Err(NoReceivingChain);
          }
          ghost var aligned := View();
          var within := SkipKeys(header.n, header.dh);
          if !within {
            return Err(TooManySkipped);
          }
          SkipToKeepsChain(aligned, header.n, header.dh);
          var (ck, mk) := KdfCk(ckr.value);
          ckr := Some(ck);
          nr := nr + 1;
          return Finish(Decrypt(mk, blob.nonce, fullAad, blob.ct));
      }
    }
  }
}
