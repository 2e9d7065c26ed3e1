/**
 The development chain of packages/client/src/chain-stub.ts: usernames, identity roots, device
 authorisations and revocations, with the file that `persist` writes and `restore` reads.

 Hex and base64 keys are injective, so tables are keyed by the values themselves. A signature is the
 wallet that made it. Each synchronous section reads the clock once; the two operations that await
 are two steps, with anything in between. Usernames are already lower-cased and trimmed.
 */
module ChainStub {
  import opened Basics

  const DAY: int := 24 * 60 * 60 * 1000
  const MIN_ACCOUNT_AGE: int := 7 * DAY
  const INACTIVITY_RELEASE: int := 90 * DAY
  const MAX_SSH_KEYS: nat := 8
  const MAX_PENDING: nat := 16
  const MAX_SEQUENCE_AHEAD: int := DAY
  const PENDING_LIFETIME: int := 5 * 60_000
  const ED25519: string := "ssh-ed25519"

  type Wallet = nat
  type Device = nat
  type Key = nat

  /** Identities derived from a wallet, and all others. */
  datatype Identity = FromWallet(wallet: Wallet) | Named(name: string)

  datatype Meta = Meta(createdAt: int, lastActiveAt: int)

  datatype Username = Username(username: string, owner: Wallet, identity: Identity, registeredAt: int)

  datatype Certificate = Certificate(
    account: Identity, device: Device, signingKey: Key, encryptionKey: Key, issuedAt: int, expiresAt: int,
    capabilities: int, signer: Option<Wallet>)

  datatype Authorization = ByRoot | BySsh(fingerprint: string) | ByPasskey(credential: string)

  /** What a revocation names. */
  datatype Credential = OfDevice(device: Device) | OfSsh(fingerprint: string) | OfPasskey(credential: string)

  datatype Passkey = Passkey(credential: string, publicKey: Key, counter: int, origin: string)

  datatype SshKey = SshKey(algorithm: string, publicKey: Key, fingerprint: string)

  datatype Pending = Pending(challenge: string, certificate: Certificate, expiresAt: int)

  datatype Chain = Chain(
    accounts: map<Wallet, Meta>,
    usernames: map<string, Username>,
    walletToUsername: map<Wallet, string>,
    history: map<string, seq<Username>>,
    roots: map<Identity, Wallet>,
    certificates: map<(Identity, Device), Certificate>,
    authorizations: map<(Identity, Device), Authorization>,
    passkeys: map<Identity, seq<Passkey>>,
    pending: map<(Identity, Device), Pending>,
    sshKeys: map<Identity, seq<SshKey>>,
    revocations: map<(Identity, Credential), int>,
    sequences: map<Identity, int>)

  function EmptyChain(): Chain {
    Chain(map[], map[], map[], map[], map[], map[], map[], map[], map[], map[], map[], map[])
  }

  datatype Error =
    | NotRegistered | TooNew | AlreadyOwns | RootBound | Taken | InvalidCertificate | NotRoot | BadSignature
    | DeviceRevoked | DeviceConflict | InvalidPasskey | AlreadyRegistered | NoPasskey | TooManyPending
    | MissingPending | NotAuthorized | BadAssertion | InvalidIdentity | InvalidSshKey | KeyRevoked | TooManyKeys
    | InvalidRevocation | StaleSequence

  /** What an operation leaves in memory, and whether it returned (and so persisted) or threw. */
  datatype Outcome = Done(chain: Chain) | Threw(chain: Chain, error: Error)

  // ---- Accounts, usernames and roots ----

  function RegisterAccount(c: Chain, w: Wallet, now: int): Chain {
    if w in c.accounts then c else c.(accounts := c.accounts[w := Meta(now, now)])
  }

  function RecordActivity(c: Chain, w: Wallet, now: int): Chain {
    if w in c.accounts then c.(accounts := c.accounts[w := c.accounts[w].(lastActiveAt := now)]) else c
  }

  /** A name is free, or its owner has been away long enough to lose it. */
  predicate Obtainable(c: Chain, name: string, now: int) {
    name in c.usernames ==>
      var owner := c.usernames[name].owner;
      owner in c.accounts && now - c.accounts[owner].lastActiveAt >= INACTIVITY_RELEASE
  }

  function RegisterUsername(c: Chain, name: string, w: Wallet, id: Identity, now: int): Outcome {
    if w !in c.accounts then Threw(c, NotRegistered)
    else if now - c.accounts[w].createdAt < MIN_ACCOUNT_AGE then Threw(c, TooNew)
    else if w in c.walletToUsername then Threw(c, AlreadyOwns)
    else if id in c.roots && c.roots[id] != w then Threw(c, RootBound)
    else if !Obtainable(c, name, now) then Threw(c, Taken)
    else
      var released := if name in c.usernames then c.walletToUsername - {c.usernames[name].owner} else c.walletToUsername;
      var record := Username(name, w, id, now);
      Done(c.(usernames := c.usernames[name := record],
              walletToUsername := released[w := name],
              roots := c.roots[id := w],
              history := c.history[name := (if name in c.history then c.history[name] else []) + [record]]))
  }

  function RegisterIdentity(c: Chain, w: Wallet, id: Identity, proven: bool, now: int): Outcome {
    if id != FromWallet(w) || !proven then Threw(c, InvalidIdentity)
    else if id in c.roots && c.roots[id] != w then Threw(c, RootBound)
    else if id in c.roots then Done(c)
    else Done(RegisterAccount(c, w, now).(roots := c.roots[id := w]))
  }

  // ---- Credentials ----

  predicate Revoked(c: Chain, id: Identity, credential: Credential) {
    (id, credential) in c.revocations
  }

  predicate Conflicts(c: Chain, cert: Certificate, auth: Authorization, now: int) {
    var k := (cert.account, cert.device);
    && k in c.certificates && c.certificates[k].expiresAt > now
    && (c.certificates[k].signingKey != cert.signingKey || k !in c.authorizations || c.authorizations[k] != auth)
  }

  function Authorize(c: Chain, cert: Certificate, auth: Authorization): Chain {
    var k := (cert.account, cert.device);
    c.(certificates := c.certificates[k := cert], authorizations := c.authorizations[k := auth])
  }

  predicate ShapeValid(cert: Certificate, id: Identity, now: int) {
    cert.account == id && cert.expiresAt > cert.issuedAt && cert.expiresAt > now
  }

  predicate IsRoot(c: Chain, id: Identity, w: Wallet) {
    id in c.roots && c.roots[id] == w
  }

  function RegisterCertificate(c: Chain, w: Wallet, cert: Certificate, now: int): Outcome {
    if cert.expiresAt <= cert.issuedAt || cert.expiresAt <= now then Threw(c, InvalidCertificate)
    else if !IsRoot(c, cert.account, w) then Threw(c, NotRoot)
    else if cert.signer != Some(w) then Threw(c, BadSignature)
    else if Revoked(c, cert.account, OfDevice(cert.device)) then Threw(c, DeviceRevoked)
    else if Conflicts(c, cert, ByRoot, now) then Threw(c, DeviceConflict)
    else Done(Authorize(c, cert, ByRoot))
  }

  function PasskeysOf(c: Chain, id: Identity): seq<Passkey> {
    if id in c.passkeys then c.passkeys[id] else []
  }

  predicate HasPasskey(ps: seq<Passkey>, credential: string) {
    exists i :: 0 <= i < |ps| && ps[i].credential == credential
  }

  function RegisterPasskey(c: Chain, w: Wallet, id: Identity, p: Passkey, signed: bool): Outcome {
    if !IsRoot(c, id, w) then Threw(c, NotRoot)
    else if p.counter < 0 || p.credential == "" || p.origin == "" || !signed then Threw(c, InvalidPasskey)
    else if HasPasskey(PasskeysOf(c, id), p.credential) then Threw(c, AlreadyRegistered)
    else Done(c.(passkeys := c.passkeys[id := PasskeysOf(c, id) + [p]]))
  }

  predicate HasLivePasskey(c: Chain, id: Identity) {
    exists i :: 0 <= i < |PasskeysOf(c, id)| && !Revoked(c, id, OfPasskey(PasskeysOf(c, id)[i].credential))
  }

  /** Expired challenges of every identity are dropped. */
  function Pruned(pending: map<(Identity, Device), Pending>, now: int): map<(Identity, Device), Pending> {
    map k | k in pending && pending[k].expiresAt > now :: pending[k]
  }

  function PendingOf(pending: map<(Identity, Device), Pending>, id: Identity): set<(Identity, Device)> {
    set k | k in pending && k.0 == id
  }

  /** When the limit is reached the pruning stays in memory, but is not persisted. */
  function BeginPasskey(c: Chain, id: Identity, cert: Certificate, challenge: string, now: int): Outcome {
    if id !in c.roots || !ShapeValid(cert, id, now) then Threw(c, InvalidCertificate)
    else if !HasLivePasskey(c, id) then Threw(c, NoPasskey)
    else if Revoked(c, id, OfDevice(cert.device)) then Threw(c, DeviceRevoked)
    else
      var left := Pruned(c.pending, now);
      var k := (id, cert.device);
      if |PendingOf(left, id)| >= MAX_PENDING && k !in left then Threw(c.(pending := left), TooManyPending)
      else Done(c.(pending := left[k := Pending(challenge, cert, now + PENDING_LIFETIME)]))
  }

  /** An authorisation whose credential has been checked and which is waiting to be committed. */
  datatype InFlight = InFlight(certificate: Certificate, auth: Authorization)

  datatype Checked = Passed(flight: InFlight) | Failed(error: Error)

  function CheckPasskey(c: Chain, id: Identity, cert: Certificate, credential: string, expected: Option<string>, now: int): Checked {
    var k := (id, cert.device);
    if expected.None? && (k !in c.pending || c.pending[k].expiresAt < now || !ShapeValid(cert, id, now) || c.pending[k].certificate != cert) then
      Failed(MissingPending)
    else if expected.Some? && (expected.value == "" || !ShapeValid(cert, id, now)) then Failed(MissingPending)
    else if !HasPasskey(PasskeysOf(c, id), credential) || Revoked(c, id, OfPasskey(credential)) then Failed(NotAuthorized)
    else Passed(InFlight(cert, ByPasskey(credential)))
  }

  /** The counter of one credential is replaced. */
  function Counted(ps: seq<Passkey>, credential: string, counter: int): (r: seq<Passkey>)
    ensures |r| == |ps|
    ensures forall i :: 0 <= i < |ps| ==> r[i] == if ps[i].credential == credential then ps[i].(counter := counter) else ps[i]
  {
    if ps == [] then []
    else [if ps[0].credential == credential then ps[0].(counter := counter) else ps[0]] + Counted(ps[1..], credential, counter)
  }

  /** The counter moves before the conflict is looked for. */
  function CommitPasskey(c: Chain, cert: Certificate, credential: string, verified: bool, counter: int, now: int): Outcome {
    var id := cert.account;
    if !verified then Threw(c, BadAssertion)
    else
      var c1 := if id in c.passkeys then c.(passkeys := c.passkeys[id := Counted(c.passkeys[id], credential, counter)]) else c;
      if Conflicts(c1, cert, ByPasskey(credential), now) then Threw(c1, DeviceConflict)
      else Done(Authorize(c1, cert, ByPasskey(credential)).(pending := c.pending - {(id, cert.device)}))
  }

  function SshKeysOf(c: Chain, id: Identity): seq<SshKey> {
    if id in c.sshKeys then c.sshKeys[id] else []
  }

  predicate HasSshKey(ks: seq<SshKey>, fingerprint: string) {
    exists i :: 0 <= i < |ks| && ks[i].fingerprint == fingerprint
  }

  function LiveKeys(c: Chain, id: Identity, ks: seq<SshKey>): nat {
    if ks == [] then 0
    else LiveKeys(c, id, ks[..|ks| - 1]) + if Revoked(c, id, OfSsh(ks[|ks| - 1].fingerprint)) then 0 else 1
  }

  function RegisterSshKey(c: Chain, w: Wallet, id: Identity, k: SshKey, signed: bool): Outcome {
    if !IsRoot(c, id, w) then Threw(c, NotRoot)
    else if k.algorithm != ED25519 || !signed then Threw(c, InvalidSshKey)
    else if HasSshKey(SshKeysOf(c, id), k.fingerprint) then Threw(c, AlreadyRegistered)
    else if Revoked(c, id, OfSsh(k.fingerprint)) then Threw(c, KeyRevoked)
    else if LiveKeys(c, id, SshKeysOf(c, id)) >= MAX_SSH_KEYS then Threw(c, TooManyKeys)
    else Done(c.(sshKeys := c.sshKeys[id := SshKeysOf(c, id) + [k]]))
  }

  predicate ResolvesSshKey(c: Chain, id: Identity, fingerprint: string) {
    !Revoked(c, id, OfSsh(fingerprint)) && HasSshKey(SshKeysOf(c, id), fingerprint)
  }

  function CheckSsh(c: Chain, id: Identity, cert: Certificate, fingerprint: string, now: int): Checked {
    if id !in c.roots || !ShapeValid(cert, id, now) then Failed(InvalidCertificate)
    else if !ResolvesSshKey(c, id, fingerprint) then Failed(NotAuthorized)
    else Passed(InFlight(cert, BySsh(fingerprint)))
  }

  function CommitSsh(c: Chain, cert: Certificate, fingerprint: string, now: int): Outcome {
    if Revoked(c, cert.account, OfDevice(cert.device)) then Threw(c, DeviceRevoked)
    else if Conflicts(c, cert, BySsh(fingerprint), now) then Threw(c, DeviceConflict)
    else Done(Authorize(c, cert, BySsh(fingerprint)))
  }

  function LastSequence(c: Chain, id: Identity): int {
    if id in c.sequences then c.sequences[id] else 0
  }

  function Revoke(c: Chain, w: Wallet, id: Identity, credential: Credential, sequence: int, valid: bool, now: int): Outcome {
    if !IsRoot(c, id, w) then Threw(c, NotRoot)
    else if !valid || sequence < 1 || sequence > now + MAX_SEQUENCE_AHEAD then Threw(c, InvalidRevocation)
    else if sequence <= LastSequence(c, id) then Threw(c, StaleSequence)
    else Done(c.(sequences := c.sequences[id := sequence], revocations := c.revocations[(id, credential) := sequence]))
  }

  // ---- Resolution ----

  predicate CertificateRevoked(c: Chain, id: Identity, d: Device) {
    || Revoked(c, id, OfDevice(d))
    || ((id, d) in c.authorizations &&
        match c.authorizations[(id, d)]
        case ByRoot => false
        case BySsh(f) => Revoked(c, id, OfSsh(f))
        case ByPasskey(p) => Revoked(c, id, OfPasskey(p)))
  }

  function Resolve(c: Chain, id: Identity, d: Device, now: int): Option<Certificate> {
    if (id, d) !in c.certificates then None
    else
      var cert := c.certificates[(id, d)];
      if cert.issuedAt > now || now >= cert.expiresAt || CertificateRevoked(c, id, d) then None else Some(cert)
  }

  // ---- What every reachable state satisfies ----

  ghost predicate NameOk(c: Chain, n: string) {
    n in c.usernames ==>
      var r := c.usernames[n];
      && r.username == n && r.owner in c.walletToUsername && c.walletToUsername[r.owner] == n
      && n in c.history && |c.history[n]| > 0 && c.history[n][|c.history[n]| - 1] == r
  }

  ghost predicate WalletOk(c: Chain, w: Wallet) {
    w in c.walletToUsername ==> c.walletToUsername[w] in c.usernames && c.usernames[c.walletToUsername[w]].owner == w
  }

  /** Every name ever registered was bound to the root its identity still has. */
  ghost predicate HistoryOk(c: Chain, n: string) {
    n in c.history ==>
      forall i :: 0 <= i < |c.history[n]| ==>
        var r := c.history[n][i];
        r.username == n && r.identity in c.roots && c.roots[r.identity] == r.owner
  }

  /** Who vouches for a device: the root's signature, or a registered key of the account. */
  ghost predicate Vouched(c: Chain, cert: Certificate, auth: Authorization) {
    match auth
    case ByRoot => cert.account in c.roots && cert.signer == Some(c.roots[cert.account])
    case BySsh(f) => HasSshKey(SshKeysOf(c, cert.account), f)
    case ByPasskey(p) => HasPasskey(PasskeysOf(c, cert.account), p)
  }

  ghost predicate CertificateOk(c: Chain, k: (Identity, Device)) {
    && (k in c.certificates <==> k in c.authorizations)
    && (k in c.certificates ==>
          && k == (c.certificates[k].account, c.certificates[k].device)
          && c.certificates[k].issuedAt < c.certificates[k].expiresAt
          && Vouched(c, c.certificates[k], c.authorizations[k]))
  }

  ghost predicate KeysOk(c: Chain, id: Identity) {
    && (forall i :: 0 <= i < |SshKeysOf(c, id)| ==> SshKeysOf(c, id)[i].algorithm == ED25519)
    && LiveKeys(c, id, SshKeysOf(c, id)) <= MAX_SSH_KEYS
    && |PendingOf(c.pending, id)| <= MAX_PENDING
  }

  ghost predicate RevocationOk(c: Chain, k: (Identity, Credential)) {
    k in c.revocations ==> 1 <= c.revocations[k] <= LastSequence(c, k.0)
  }

  ghost predicate NamesOk(c: Chain) {
    && (forall n :: NameOk(c, n))
    && (forall w :: WalletOk(c, w))
    && (forall n :: HistoryOk(c, n))
  }

  ghost predicate CredentialsOk(c: Chain) {
    && (forall k :: CertificateOk(c, k))
    && (forall id :: KeysOk(c, id))
    && (forall k :: RevocationOk(c, k))
  }

  ghost predicate ChainOk(c: Chain) {
    NamesOk(c) && CredentialsOk(c)
  }

  /** What never goes back: bound roots, registered keys, revocations, revocation sequences and history. */
  ghost predicate Grows(c: Chain, c': Chain) {
    && (forall id :: id in c.roots ==> id in c'.roots && c'.roots[id] == c.roots[id])
    && (forall id, f :: HasSshKey(SshKeysOf(c, id), f) ==> HasSshKey(SshKeysOf(c', id), f))
    && (forall id, p :: HasPasskey(PasskeysOf(c, id), p) ==> HasPasskey(PasskeysOf(c', id), p))
    && (forall k :: k in c.revocations ==> k in c'.revocations)
    && (forall id :: LastSequence(c, id) <= LastSequence(c', id))
    && (forall n :: n in c.history ==> n in c'.history && c.history[n] <= c'.history[n])
  }

  lemma GrowsThrough(a: Chain, b: Chain, c: Chain)
    requires Grows(a, b) && Grows(b, c)
    ensures Grows(a, c)
  {
    forall n | n in a.history ensures n in c.history && a.history[n] <= c.history[n] {
      assert n in b.history;
    }
  }

  // ---- Each operation keeps them ----

  /** Fields that certificates, keys and revocations live in are unchanged. */
  ghost predicate SameCredentials(c: Chain, c': Chain) {
    && c'.certificates == c.certificates && c'.authorizations == c.authorizations && c'.passkeys == c.passkeys
    && c'.pending == c.pending && c'.sshKeys == c.sshKeys && c'.revocations == c.revocations && c'.sequences == c.sequences
  }

  ghost predicate SameNames(c: Chain, c': Chain) {
    && c'.usernames == c.usernames && c'.walletToUsername == c.walletToUsername && c'.history == c.history && c'.roots == c.roots
  }

  /** Growing roots keeps what credentials rest on. */
  lemma {:induction false} LiveKeysFrame(c: Chain, c': Chain, id: Identity, ks: seq<SshKey>)
    requires c'.revocations == c.revocations
    ensures LiveKeys(c', id, ks) == LiveKeys(c, id, ks)
    decreases |ks|
  {
    if ks != [] {
      LiveKeysFrame(c, c', id, ks[..|ks| - 1]);
    }
  }

  lemma CredentialsKept(c: Chain, c': Chain)
    requires CredentialsOk(c) && SameCredentials(c, c') && forall id :: id in c.roots ==> id in c'.roots && c'.roots[id] == c.roots[id]
    ensures CredentialsOk(c')
  {
    forall k ensures CertificateOk(c', k) {
      assert CertificateOk(c, k);
    }
    forall id ensures KeysOk(c', id) {
      assert KeysOk(c, id);
      LiveKeysFrame(c, c', id, SshKeysOf(c, id));
    }
    forall k ensures RevocationOk(c', k) {
      assert RevocationOk(c, k);
    }
  }

  lemma NamesKept(c: Chain, c': Chain)
    requires NamesOk(c) && SameNames(c, c')
    ensures NamesOk(c')
  {
    forall n ensures NameOk(c', n) && HistoryOk(c', n) {
      assert NameOk(c, n) && HistoryOk(c, n);
    }
    forall w ensures WalletOk(c', w) {
      assert WalletOk(c, w);
    }
  }

  lemma AccountsKeep(c: Chain, accounts: map<Wallet, Meta>)
    requires ChainOk(c)
    ensures ChainOk(c.(accounts := accounts)) && Grows(c, c.(accounts := accounts))
  {
    NamesKept(c, c.(accounts := accounts));
    CredentialsKept(c, c.(accounts := accounts));
  }

  /** Registering keeps the two username indexes inverse, even when the name is taken from an inactive owner. */
  lemma UsernamesKeep(c: Chain, name: string, w: Wallet, id: Identity, now: int)
    requires NamesOk(c) && RegisterUsername(c, name, w, id, now).Done?
    ensures NamesOk(RegisterUsername(c, name, w, id, now).chain)
  {
    var c' := RegisterUsername(c, name, w, id, now).chain;
    assert NameOk(c, name) && HistoryOk(c, name);
    forall n ensures NameOk(c', n) {
      assert NameOk(c, n);
      RegisteredName(c, name, w, id, now, n);
    }
    forall n ensures HistoryOk(c', n) {
      assert HistoryOk(c, n);
      RegisteredHistory(c, name, w, id, now, n);
    }
    forall v ensures WalletOk(c', v) {
      assert WalletOk(c, v);
      RegisteredWallet(c, name, w, id, now, v);
    }
  }

  lemma RegisteredName(c: Chain, name: string, w: Wallet, id: Identity, now: int, n: string)
    requires RegisterUsername(c, name, w, id, now).Done? && NameOk(c, name) && NameOk(c, n)
    ensures NameOk(RegisterUsername(c, name, w, id, now).chain, n)
  {
  }

  lemma RegisteredHistory(c: Chain, name: string, w: Wallet, id: Identity, now: int, n: string)
    requires RegisterUsername(c, name, w, id, now).Done? && HistoryOk(c, n)
    ensures HistoryOk(RegisterUsername(c, name, w, id, now).chain, n)
  {
  }

  lemma RegisteredWallet(c: Chain, name: string, w: Wallet, id: Identity, now: int, v: Wallet)
    requires RegisterUsername(c, name, w, id, now).Done? && NameOk(c, name) && WalletOk(c, v)
    ensures WalletOk(RegisterUsername(c, name, w, id, now).chain, v)
  {
  }

  lemma RegisterUsernameKeeps(c: Chain, name: string, w: Wallet, id: Identity, now: int)
    requires ChainOk(c)
    ensures ChainOk(RegisterUsername(c, name, w, id, now).chain) && Grows(c, RegisterUsername(c, name, w, id, now).chain)
  {
    var o := RegisterUsername(c, name, w, id, now);
    if o.Done? {
      UsernamesKeep(c, name, w, id, now);
      CredentialsKept(c, o.chain);
      GrowsNames(c, o.chain);
    }
  }

  lemma GrowsNames(c: Chain, c': Chain)
    requires SameCredentials(c, c')
    requires forall id :: id in c.roots ==> id in c'.roots && c'.roots[id] == c.roots[id]
    requires forall n :: n in c.history ==> n in c'.history && c.history[n] <= c'.history[n]
    ensures Grows(c, c')
  {
  }

  lemma RootsKeep(c: Chain, accounts: map<Wallet, Meta>, id: Identity, w: Wallet)
    requires NamesOk(c) && id !in c.roots
    ensures NamesOk(c.(accounts := accounts, roots := c.roots[id := w]))
  {
    var c' := c.(accounts := accounts, roots := c.roots[id := w]);
    forall n ensures NameOk(c', n) {
      assert NameOk(c, n);
    }
    forall n ensures HistoryOk(c', n) {
      assert HistoryOk(c, n);
    }
    forall v ensures WalletOk(c', v) {
      assert WalletOk(c, v);
    }
  }

  lemma RegisterIdentityKeeps(c: Chain, w: Wallet, id: Identity, proven: bool, now: int)
    requires ChainOk(c)
    ensures ChainOk(RegisterIdentity(c, w, id, proven, now).chain) && Grows(c, RegisterIdentity(c, w, id, proven, now).chain)
  {
    if RegisterIdentity(c, w, id, proven, now).Done? && id !in c.roots {
      NewRootKeeps(c, RegisterAccount(c, w, now).accounts, id, w);
      assert RegisterAccount(c, w, now).(roots := c.roots[id := w]) == c.(accounts := RegisterAccount(c, w, now).accounts, roots := c.roots[id := w]);
    }
  }

  lemma NewRootKeeps(c: Chain, accounts: map<Wallet, Meta>, id: Identity, w: Wallet)
    requires ChainOk(c) && id !in c.roots
    ensures var c' := c.(accounts := accounts, roots := c.roots[id := w]); ChainOk(c') && Grows(c, c')
  {
    var c' := c.(accounts := accounts, roots := c.roots[id := w]);
    RootsKeep(c, accounts, id, w);
    CredentialsKept(c, c');
    GrowsNames(c, c');
  }

  lemma AuthorizeKeeps(c: Chain, cert: Certificate, auth: Authorization)
    requires ChainOk(c) && cert.issuedAt < cert.expiresAt && Vouched(c, cert, auth)
    ensures ChainOk(Authorize(c, cert, auth)) && Grows(c, Authorize(c, cert, auth))
  {
    var c' := Authorize(c, cert, auth);
    NamesKept(c, c');
    forall k ensures CertificateOk(c', k) {
      assert CertificateOk(c, k);
    }
    forall id ensures KeysOk(c', id) {
      assert KeysOk(c, id);
      LiveKeysFrame(c, c', id, SshKeysOf(c, id));
    }
    forall k ensures RevocationOk(c', k) {
      assert RevocationOk(c, k);
    }
  }

  lemma PasskeysKeep(c: Chain, passkeys: map<Identity, seq<Passkey>>)
    requires ChainOk(c)
    requires forall id, p :: HasPasskey(PasskeysOf(c, id), p) ==> HasPasskey(if id in passkeys then passkeys[id] else [], p)
    ensures ChainOk(c.(passkeys := passkeys)) && Grows(c, c.(passkeys := passkeys))
  {
    var c' := c.(passkeys := passkeys);
    NamesKept(c, c');
    forall k ensures CertificateOk(c', k) {
      assert CertificateOk(c, k);
    }
    forall id ensures KeysOk(c', id) {
      assert KeysOk(c, id);
      LiveKeysFrame(c, c', id, SshKeysOf(c, id));
    }
    forall k ensures RevocationOk(c', k) {
      assert RevocationOk(c, k);
    }
  }

  lemma MorePasskeys(ps: seq<Passkey>, p: Passkey, q: string)
    requires HasPasskey(ps, q)
    ensures HasPasskey(ps + [p], q)
  {
    var i :| 0 <= i < |ps| && ps[i].credential == q;
    assert (ps + [p])[i].credential == q;
  }

  lemma CountedPasskeys(ps: seq<Passkey>, credential: string, counter: int, q: string)
    ensures HasPasskey(Counted(ps, credential, counter), q) <==> HasPasskey(ps, q)
  {
    if i :| 0 <= i < |ps| && ps[i].credential == q {
      assert Counted(ps, credential, counter)[i].credential == q;
    }
  }

  lemma RegisterPasskeyKeeps(c: Chain, w: Wallet, id: Identity, p: Passkey, signed: bool)
    requires ChainOk(c)
    ensures ChainOk(RegisterPasskey(c, w, id, p, signed).chain) && Grows(c, RegisterPasskey(c, w, id, p, signed).chain)
  {
    var o := RegisterPasskey(c, w, id, p, signed);
    if o.Done? {
      var passkeys := c.passkeys[id := PasskeysOf(c, id) + [p]];
      forall i, q | HasPasskey(PasskeysOf(c, i), q) ensures HasPasskey(if i in passkeys then passkeys[i] else [], q) {
        if i == id {
          MorePasskeys(PasskeysOf(c, id), p, q);
        }
      }
      PasskeysKeep(c, passkeys);
    }
  }

  lemma PendingKeeps(c: Chain, pending: map<(Identity, Device), Pending>)
    requires ChainOk(c) && forall id :: |PendingOf(pending, id)| <= MAX_PENDING
    ensures ChainOk(c.(pending := pending)) && Grows(c, c.(pending := pending))
  {
    var c' := c.(pending := pending);
    NamesKept(c, c');
    forall k ensures CertificateOk(c', k) {
      assert CertificateOk(c, k);
    }
    forall id ensures KeysOk(c', id) {
      assert KeysOk(c, id);
      LiveKeysFrame(c, c', id, SshKeysOf(c, id));
    }
    forall k ensures RevocationOk(c', k) {
      assert RevocationOk(c, k);
    }
  }

  lemma PrunedFewer(pending: map<(Identity, Device), Pending>, now: int)
    requires forall i :: |PendingOf(pending, i)| <= MAX_PENDING
    ensures forall i :: |PendingOf(Pruned(pending, now), i)| <= MAX_PENDING
  {
    forall i ensures |PendingOf(Pruned(pending, now), i)| <= MAX_PENDING {
      SubsetSize(PendingOf(Pruned(pending, now), i), PendingOf(pending, i));
    }
  }

  lemma OneMorePending(left: map<(Identity, Device), Pending>, k: (Identity, Device), p: Pending, after: map<(Identity, Device), Pending>)
    requires forall i :: |PendingOf(left, i)| <= MAX_PENDING
    requires |PendingOf(left, k.0)| < MAX_PENDING || k in left
    requires after == left[k := p]
    ensures forall i :: |PendingOf(after, i)| <= MAX_PENDING
  {
    forall i ensures |PendingOf(after, i)| <= MAX_PENDING {
      if i == k.0 {
        assert PendingOf(after, i) == PendingOf(left, i) + {k};
        if k in left {
          assert PendingOf(left, i) + {k} == PendingOf(left, i);
        }
      } else {
        assert PendingOf(after, i) == PendingOf(left, i);
      }
    }
  }

  /** At most sixteen challenges wait per identity. */
  lemma BeginPasskeyKeeps(c: Chain, id: Identity, cert: Certificate, challenge: string, now: int)
    requires ChainOk(c)
    ensures ChainOk(BeginPasskey(c, id, cert, challenge, now).chain) && Grows(c, BeginPasskey(c, id, cert, challenge, now).chain)
  {
    var left := Pruned(c.pending, now);
    var o := BeginPasskey(c, id, cert, challenge, now);
    forall i ensures |PendingOf(c.pending, i)| <= MAX_PENDING {
      assert KeysOk(c, i);
    }
    PrunedFewer(c.pending, now);
    if o.Done? {
      var p := Pending(challenge, cert, now + PENDING_LIFETIME);
      OneMorePending(left, (id, cert.device), p, left[(id, cert.device) := p]);
      PendingKeeps(c, left[(id, cert.device) := p]);
    } else if o.error.TooManyPending? {
      PendingKeeps(c, left);
    }
  }

  lemma CommitPasskeyKeeps(c: Chain, cert: Certificate, credential: string, verified: bool, counter: int, now: int)
    requires ChainOk(c) && cert.issuedAt < cert.expiresAt && HasPasskey(PasskeysOf(c, cert.account), credential)
    ensures var c' := CommitPasskey(c, cert, credential, verified, counter, now).chain; ChainOk(c') && Grows(c, c')
  {
    var o := CommitPasskey(c, cert, credential, verified, counter, now);
    if verified {
      var id := cert.account;
      var passkeys := c.passkeys[id := Counted(c.passkeys[id], credential, counter)];
      var c1 := c.(passkeys := passkeys);
      forall i, q ensures HasPasskey(PasskeysOf(c1, i), q) <==> HasPasskey(PasskeysOf(c, i), q) {
        CountedPasskeys(c.passkeys[id], credential, counter, q);
      }
      PasskeysKeep(c, passkeys);
      if o.Done? {
        var c2 := Authorize(c1, cert, ByPasskey(credential));
        AuthorizeKeeps(c1, cert, ByPasskey(credential));
        GrowsThrough(c, c1, c2);
        var pending := c.pending - {(id, cert.device)};
        forall i ensures |PendingOf(pending, i)| <= MAX_PENDING {
          assert KeysOk(c, i);
          SubsetSize(PendingOf(pending, i), PendingOf(c.pending, i));
        }
        PendingKeeps(c2, pending);
        GrowsThrough(c, c2, c2.(pending := pending));
      }
    }
  }

  lemma MoreSshKeys(ks: seq<SshKey>, key: SshKey, f: string)
    requires HasSshKey(ks, f)
    ensures HasSshKey(ks + [key], f)
  {
    var j :| 0 <= j < |ks| && ks[j].fingerprint == f;
    assert (ks + [key])[j].fingerprint == f;
  }

  lemma RegisterSshKeyKeeps(c: Chain, w: Wallet, id: Identity, key: SshKey, signed: bool)
    requires ChainOk(c)
    ensures ChainOk(RegisterSshKey(c, w, id, key, signed).chain) && Grows(c, RegisterSshKey(c, w, id, key, signed).chain)
  {
    var o := RegisterSshKey(c, w, id, key, signed);
    if o.Done? {
      var c' := o.chain;
      forall i, f | HasSshKey(SshKeysOf(c, i), f) ensures HasSshKey(SshKeysOf(c', i), f) {
        if i == id {
          MoreSshKeys(SshKeysOf(c, id), key, f);
        }
      }
      NamesKept(c, c');
      SshKeyCredentials(c, c', id, key);
    }
  }

  lemma SshKeyCredentials(c: Chain, c': Chain, id: Identity, key: SshKey)
    requires CredentialsOk(c) && c' == c.(sshKeys := c.sshKeys[id := SshKeysOf(c, id) + [key]])
    requires key.algorithm == ED25519 && LiveKeys(c, id, SshKeysOf(c, id)) < MAX_SSH_KEYS
    requires forall i, f :: HasSshKey(SshKeysOf(c, i), f) ==> HasSshKey(SshKeysOf(c', i), f)
    ensures CredentialsOk(c')
  {
    forall k ensures CertificateOk(c', k) {
      assert CertificateOk(c, k);
    }
    forall i ensures KeysOk(c', i) {
      assert KeysOk(c, i);
      LiveKeysFrame(c, c', i, SshKeysOf(c, i));
      if i == id {
        assert SshKeysOf(c', i)[..|SshKeysOf(c, i)|] == SshKeysOf(c, i);
      }
    }
    forall k ensures RevocationOk(c', k) {
      assert RevocationOk(c, k);
    }
  }

  lemma {:induction false} FewerLiveKeys(c: Chain, c': Chain, id: Identity, ks: seq<SshKey>)
    requires forall k :: k in c.revocations ==> k in c'.revocations
    ensures LiveKeys(c', id, ks) <= LiveKeys(c, id, ks)
    decreases |ks|
  {
    if ks != [] {
      FewerLiveKeys(c, c', id, ks[..|ks| - 1]);
    }
  }

  lemma RevokeKeeps(c: Chain, w: Wallet, id: Identity, credential: Credential, sequence: int, valid: bool, now: int)
    requires ChainOk(c)
    ensures var c' := Revoke(c, w, id, credential, sequence, valid, now).chain; ChainOk(c') && Grows(c, c')
  {
    var c' := Revoke(c, w, id, credential, sequence, valid, now).chain;
    NamesKept(c, c');
    forall k ensures CertificateOk(c', k) {
      assert CertificateOk(c, k);
    }
    forall i ensures KeysOk(c', i) {
      assert KeysOk(c, i);
      FewerLiveKeys(c, c', i, SshKeysOf(c, i));
    }
    forall k ensures RevocationOk(c', k) {
      assert RevocationOk(c, k);
    }
  }
}
