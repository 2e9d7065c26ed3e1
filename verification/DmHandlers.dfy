/**
 The receive and send handlers of packages/client/src/dm.ts as they run: objects that are changed in place,
 copies that are staged, and one transaction at the end. `open` and the X3DH response change the object they
 are given before they can fail, so everything before the commit works on copies.
 */
module DmHandlers {
  import opened Basics
  import opened Symbolic
  import opened DoubleRatchet
  import opened WireCodec
  import opened X3dh
  import opened PersistentClient
  import opened DirectMessages

  /** A copy made through the stored form: a different object with the same session. */
  method CopySession(st: Ratchet) returns (copy: RatchetState)
    ensures fresh(copy) && copy.View() == st
  {
    var written := SerializeState(st);
    StateRoundTrip(st, written);
    copy := new RatchetState.FromValue(DeserializeState(written));
  }

  /** Why the copy is needed: an `open` that fails to decrypt has already moved the chain. */
  lemma FailedOpenMoves(st: Ratchet, blob: Blob, aad: Aad, newKey: KeyId)
    requires st.dhr == Some(blob.header.dh) && st.ckr.Some? && (blob.header.dh, blob.header.n) !in st.skipped
    requires blob.header.n - st.nr <= MAX_SKIP && blob.ct.key.Foreign?
    ensures var out := OpenBlob(st, blob, aad, newKey); out.result.Err? && out.state.nr > st.nr
  {
    SkipNr(st, blob.header.n, blob.header.dh);
  }

  lemma {:induction false} SkipNr(st: Ratchet, until: nat, dhPub: KeyId)
    requires st.ckr.Some?
    ensures SkipTo(st, until, dhPub).ckr.Some? && SkipTo(st, until, dhPub).nr >= st.nr
    decreases until - st.nr
  {
    if st.nr < until {
      SkipNr(SkipOne(st, dhPub), until, dhPub);
    }
  }

  // ---- On a persistent device ----

  /** What is staged for an envelope: a session of its own, and the prekeys to store if a one-time key was used. */
  method StageEnvelope(rows: Rows, env: Envelope, responderKey: KeyId) returns (session: RatchetState?, spent: Option<LocalPrekeys>)
    ensures match Stage(rows, env, responderKey)
            case Staged(st, s, _) => session != null && fresh(session) && session.View() == st && spent == s
            case _ => session == null
  {
    if HasSession(rows, env.sender) {
      session := CopySession(rows[Session(env.sender)].ratchet);
      return session, None;
    }
    if env.body.Later? || !HasPrekeys(rows) {
      return null, None;
    }
    var local := new PrekeyMaterial.FromValue(rows[Prekeys].prekeys);
    var copy := new PrekeyMaterial.FromValue(local.View());
    var usedId := FromWireId(env.body.otpId);
    var sk := copy.RespondTo(env.body.identityDh, env.body.ephemeral, usedId);
    if sk.None? {
      return null, None;
    }
    session := new RatchetState.FromValue(InitResponder(sk.value, responderKey));
    if usedId.Some? {
      local.oneTime := local.oneTime - {usedId.value};
      return session, Some(local.View());
    }
    return session, None;
  }

  /** Retention, the inbox test, staging, decryption on the staged objects, and the commit. Whatever fails on the
      way, the rows are what `HandleDm` says. */
  method HandleDirectMessage(state: PersistentDmState, self: Identity, env: Envelope, responderKey: KeyId, turnKey: KeyId, now: int)
    returns (ack: bool)
    requires state.Valid() && EmptyingShrinks(state.store.sizes)
    modifies state.store`rows
    ensures state.Valid()
    ensures state.store.rows == HandleDm(state.TheHost(), self, old(state.store.rows), env, responderKey, turnKey, now)
    ensures var kept := Retain(state.TheHost(), old(state.store.rows), now);
            var out := ReceiveDm(state.TheHost(), self, kept, env, responderKey, turnKey, now);
            && (ack <==> out.Acknowledged? || out.Stored?) && (ack <==> Inbox(env.id) in state.store.rows)
            && (!out.Stored? ==> state.store.rows.Keys == old(state.store.rows).Keys)
            && (!out.Stored? ==> forall n :: n in old(state.store.rows) && !n.Queue? && !n.Inbox? ==> state.store.rows[n] == old(state.store.rows)[n])
  {
    RetainKeepsKeys(state.TheHost(), state.store.rows, now);
    state.RetainRows(now);
    if Inbox(env.id) in state.store.rows {
      return true;
    }
    var session, spent := StageEnvelope(state.store.rows, env, responderKey);
    if session == null {
      return false;
    }
    var opening := session.OpenMessage(env.body.frame, AadFor(env.sender, self), turnKey);
    if opening.Err? {
      return false;
    }
    ack := state.CommitReceiveTx(session.View(), spent, InboxMsg(env.id, env.sender, opening.value, now, false));
  }

  /** The advanced session and the envelope, before anything is stored. */
  method PrepareMessage(self: Identity, rows: Rows, recipient: Identity, payload: Payload, bundle: Option<Bundle>, draw: Draw)
    returns (session: RatchetState?, envelope: Option<Envelope>)
    ensures match Prepare(self, rows, recipient, payload, bundle, draw)
            case NotPrepared => envelope == None
            case Prepared(st, e) => session != null && fresh(session) && session.View() == st && envelope == Some(e)
  {
    var aad := AadFor(self, recipient);
    if HasSession(rows, recipient) {
      session := CopySession(rows[Session(recipient)].ratchet);
      var sealed := session.SealMessage(payload, aad, draw.nonce);
      if sealed.Err? {
        return session, None;
      }
      return session, Some(Envelope(draw.id, self, recipient, Later(Frame(sealed.value))));
    }
    if !HasPrekeys(rows) || bundle.None? {
      return null, None;
    }
    var identityDh := rows[Prekeys].prekeys.identityDh;
    var init := Initiate(identityDh, bundle.value, draw.ephemeral);
    if init.InvalidSignature? {
      return null, None;
    }
    session := new RatchetState.FromValue(InitInitiator(init.sk, draw.ratchetKey));
    var sealed := session.SealMessage(payload, aad, draw.nonce);
    if sealed.Err? {
      return session, None;
    }
    return session, Some(Envelope(draw.id, self, recipient, First(identityDh, init.ephemeral, WireId(init.usedId), Frame(sealed.value))));
  }

  /** Sealing, then one transaction, then nothing more that can fail: the envelope may be transmitted only if the
      rows hold it. */
  method SendDirectMessage(state: PersistentDmState, self: Identity, recipient: Identity, payload: Payload,
                           bundle: Option<Bundle>, draw: Draw, meta: Option<seq<(string, nat)>>)
    returns (envelope: Option<Envelope>)
    requires state.Valid()
    modifies state.store`rows
    ensures state.Valid()
    ensures match SendDm(state.TheHost(), self, old(state.store.rows), recipient, payload, bundle, draw, meta)
            case SendFailed => envelope == None && state.store.rows == old(state.store.rows)
            case SentOk(rows, e) => envelope == Some(e) && state.store.rows == rows
  {
    var session, prepared := PrepareMessage(self, state.store.rows, recipient, payload, bundle, draw);
    if prepared.None? {
      return None;
    }
    var ok := state.CommitSendTx(session.View(), ItemFor(prepared.value), meta);
    return if ok then prepared else None;
  }

  // ---- Without a device store: live objects ----

  /** What a receive makes of sessions and prekeys, as values. */
  datatype Memory = Memory(sessions: map<Identity, Ratchet>, prekeys: LocalPrekeys)

  datatype MemoryResult = Failed | Opened(memory: Memory, payload: Payload)

  /** The session a receive works on, and the one-time key it would spend. */
  datatype StagedInMemory = Unstaged | StagedInMemory(st: Ratchet, used: Option<nat>)

  function StageInMemory(m: Memory, env: Envelope, responderKey: KeyId): StagedInMemory {
    if env.sender in m.sessions then StagedInMemory(m.sessions[env.sender], None)
    else if env.body.Later? then Unstaged
    else
      match Respond(m.prekeys, env.body.identityDh, env.body.ephemeral, FromWireId(env.body.otpId))
      case UnknownOneTimeKey => Unstaged
      case Responded(sk, _) => StagedInMemory(InitResponder(sk, responderKey), FromWireId(env.body.otpId))
  }

  function Spend(m: LocalPrekeys, used: Option<nat>): LocalPrekeys {
    if used.Some? then m.(oneTime := m.oneTime - {used.value}) else m
  }

  function ReceiveInMemory(m: Memory, self: Identity, env: Envelope, responderKey: KeyId, turnKey: KeyId): MemoryResult {
    match StageInMemory(m, env, responderKey)
    case Unstaged => Failed
    case StagedInMemory(st, used) =>
      var out := Open(st, env.body.frame, AadFor(env.sender, self), turnKey);
      match out.result
      case Err(_) => Failed
      case Ok(payload) => Opened(Memory(m.sessions[env.sender := out.state], Spend(m.prekeys, used)), payload)
  }

  /** The rows hold the same sessions and prekeys. */
  ghost predicate Mirrors(m: Memory, rows: Rows) {
    && HasPrekeys(rows) && rows[Prekeys].prekeys == m.prekeys
    && (forall i :: i in m.sessions <==> HasSession(rows, i))
    && (forall i :: i in m.sessions ==> rows[Session(i)].ratchet == m.sessions[i])
  }

  /** With or without a device store the same messages are opened, to the same payload and the same sessions and keys. */
  lemma MemoryAsStored(h: Host, m: Memory, rows: Rows, self: Identity, env: Envelope, responderKey: KeyId, turnKey: KeyId, now: int)
    requires h.limits.None? && Mirrors(m, rows) && Inbox(env.id) !in rows
    ensures var out := ReceiveDm(h, self, rows, env, responderKey, turnKey, now);
            match ReceiveInMemory(m, self, env, responderKey, turnKey)
            case Failed => !out.Stored?
            case Opened(memory, payload) => out.Stored? && out.payload == payload && Mirrors(memory, out.rows)
  {
    if ReceiveDm(h, self, rows, env, responderKey, turnKey, now).Stored? {
      StoredRows(h, self, rows, env, responderKey, turnKey, now);
    }
  }

  /** Sessions and prekeys that the process keeps as objects and hands out by reference. */
  class LiveClient {
    var sessions: map<Identity, RatchetState>
    const prekeys: PrekeyMaterial

    constructor (prekeys: PrekeyMaterial)
      ensures this.prekeys == prekeys && sessions == map[]
    {
      this.prekeys, sessions := prekeys, map[];
    }

    ghost function View(): Memory
      reads this, prekeys, sessions.Values
    {
      Memory(map i | i in sessions :: sessions[i].View(), prekeys.View())
    }

    /** Copies of what is live; nothing that existed before is changed. */
    method StageLive(env: Envelope, responderKey: KeyId) returns (staged: RatchetState?, used: Option<nat>)
      ensures match StageInMemory(View(), env, responderKey)
              case Unstaged => staged == null
              case StagedInMemory(st, u) => staged != null && fresh(staged) && staged.View() == st && used == u
    {
      if env.sender in sessions {
        staged := CopySession(sessions[env.sender].View());
        return staged, None;
      }
      if env.body.Later? {
        return null, None;
      }
      var copy := new PrekeyMaterial.FromValue(prekeys.View());
      used := FromWireId(env.body.otpId);
      var sk := copy.RespondTo(env.body.identityDh, env.body.ephemeral, used);
      if sk.None? {
        return null, None;
      }
      staged := new RatchetState.FromValue(InitResponder(sk.value, responderKey));
    }

    method Install(peer: Identity, session: RatchetState, used: Option<nat>)
      modifies this, prekeys
      ensures View() == Memory(old(View()).sessions[peer := session.View()], Spend(old(View()).prekeys, used))
    {
      sessions := sessions[peer := session];
      if used.Some? {
        prekeys.oneTime := prekeys.oneTime - {used.value};
      }
    }

    /** No session object that existed is written to: a failed receive leaves every live session and the prekeys as
        they were, and a successful one installs its staged session and then spends the one-time key. */
    method Receive(self: Identity, env: Envelope, responderKey: KeyId, turnKey: KeyId) returns (r: Option<Payload>)
      modifies this, prekeys
      ensures match ReceiveInMemory(old(View()), self, env, responderKey, turnKey)
              case Failed => r == None && View() == old(View()) && sessions == old(sessions)
              case Opened(memory, payload) => r == Some(payload) && View() == memory
    {
      var staged, used := StageLive(env, responderKey);
      if staged == null {
        return None;
      }
      var opening := staged.OpenMessage(env.body.frame, AadFor(env.sender, self), turnKey);
      assert View() == old(View());
      if opening.Err? {
        return None;
      }
      Install(env.sender, staged, used);
      return Some(opening.value);
    }
  }
}
