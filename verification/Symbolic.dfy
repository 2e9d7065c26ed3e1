/**
 Symbolic cryptography shared by the direct-message model.

 Key pairs are named by numbers, and a public key is named by the number of its pair.
 Diffie-Hellman is commutative (section 6.1 of RFC 7748), HKDF is an injective constructor
 (section 2 of RFC 5869), and an AEAD ciphertext opens exactly when key, nonce and associated
 data are the ones it was sealed under.
 */
module Symbolic {
  import opened Basics

  type KeyId = nat

  /** The bytes fed to HKDF: a shared secret, or the raw bytes of a public key. */
  datatype DhOut = PublicBytes(k: KeyId) | Shared(lo: KeyId, hi: KeyId)

  function Dh(ours: KeyId, theirs: KeyId): DhOut {
    if ours <= theirs then Shared(ours, theirs) else Shared(theirs, ours)
  }

  /** HKDF over a concatenation of Diffie-Hellman outputs: the X3DH shared root. */
  datatype Secret = Secret(parts: seq<DhOut>)

  datatype Root = Seed(sk: Secret) | NextRoot(rk: Root, ikm: DhOut)

  datatype ChainKey = FirstChain(rk: Root, ikm: DhOut) | NextChain(prev: ChainKey)

  /** Message keys come from chain keys; a `Foreign` key is any key made outside the session. */
  datatype MessageKey = MessageKey(ck: ChainKey) | Foreign(tag: nat)

  function KdfRk(rk: Root, ikm: DhOut): (Root, ChainKey) {
    (NextRoot(rk, ikm), FirstChain(rk, ikm))
  }

  function KdfCk(ck: ChainKey): (ChainKey, MessageKey) {
    (NextChain(ck), MessageKey(ck))
  }

  /** The chain key after `n` symmetric steps. */
  function Advance(ck: ChainKey, n: nat): ChainKey {
    if n == 0 then ck else NextChain(Advance(ck, n - 1))
  }

  function Depth(rk: Root): nat {
    match rk
    case Seed(_) => 0
    case NextRoot(prev, _) => 1 + Depth(prev)
  }

  /** Chains that start differently never meet, and one chain never repeats. */
  lemma {:induction false} AdvanceInjective(c: ChainKey, m: nat, d: ChainKey, n: nat)
    requires c.FirstChain? && d.FirstChain?
    ensures Advance(c, m) == Advance(d, n) <==> c == d && m == n
  {
    if m > 0 && n > 0 {
      AdvanceInjective(c, m - 1, d, n - 1);
    }
  }

  // ---- Messages ----

  type Identity = nat

  /** The conversation id is derived from both identities in sorted order. */
  datatype Conversation = Conversation(first: Identity, second: Identity)

  function ConversationOf(a: Identity, b: Identity): Conversation {
    if a <= b then Conversation(a, b) else Conversation(b, a)
  }

  datatype Aad = Aad(conversation: Conversation, sender: Identity, recipient: Identity)

  datatype ContentType = Text | Agent | AgentCapabilities | OtherContent

  datatype Payload = Payload(contentType: ContentType, text: string)

  datatype Header = Header(dh: KeyId, pn: nat, n: nat)

  datatype FullAad = FullAad(aad: Aad, header: Header)

  datatype Cipher = Cipher(key: MessageKey, nonce: nat, aad: FullAad, plain: Payload)

  function Encrypt(key: MessageKey, nonce: nat, aad: FullAad, plain: Payload): Cipher {
    Cipher(key, nonce, aad, plain)
  }

  function Decrypt(key: MessageKey, nonce: nat, aad: FullAad, ct: Cipher): Option<Payload> {
    if ct.key == key && ct.nonce == nonce && ct.aad == aad then Some(ct.plain) else None
  }
}
