/**
 Exactly which calls move which table of the development chain, in every reachable state, restarts and interleaved
 awaits included, and what follows for revocation, names and authentication (packages/client/src/chain-stub.ts,
 packages/gateway/src/gateway.ts). The conditions are about the tables before the call; a call that meets none
 leaves every table as it was.
 */
module ChainEffects {
  import opened Basics
  import opened ChainStub
  import opened ChainRuns
  import ChainFile

  /** The wallet is the root the identity is bound to. */
  predicate Root(c: Chain, id: Identity, w: Wallet) {
    id in c.roots && c.roots[id] == w
  }

  /** What a restart brings back is what memory had, except for counters and waiting challenges. */
  lemma RestartTables(n: Node, step: Step)
    requires Inv(n) && step.Restart?
    ensures var m, m' := n.mem, Next(n, step).mem;
            && m'.accounts == m.accounts && m'.usernames == m.usernames && m'.walletToUsername == m.walletToUsername
            && m'.history == m.history && m'.roots == m.roots && m'.certificates == m.certificates
            && m'.authorizations == m.authorizations && m'.sshKeys == m.sshKeys && m'.revocations == m.revocations
            && m'.sequences == m.sequences && UncountedAll(m'.passkeys) == UncountedAll(m.passkeys)
  {
    if ChainFile.Writes(n.disk, step.file) {
      RestartForm(n, step.file);
      var a, b := n.mem, n.disk;
      var f, g := Frozen(a), Frozen(b);
      assert a.accounts == f.accounts && b.accounts == g.accounts && a.usernames == f.usernames && b.usernames == g.usernames;
      assert a.walletToUsername == f.walletToUsername && b.walletToUsername == g.walletToUsername && a.history == f.history && b.history == g.history;
      assert a.roots == f.roots && b.roots == g.roots && a.certificates == f.certificates && b.certificates == g.certificates;
      assert a.authorizations == f.authorizations && b.authorizations == g.authorizations && a.sshKeys == f.sshKeys && b.sshKeys == g.sshKeys;
      assert a.revocations == f.revocations && b.revocations == g.revocations && a.sequences == f.sequences && b.sequences == g.sequences;
      assert UncountedAll(a.passkeys) == f.passkeys && UncountedAll(b.passkeys) == g.passkeys;
    }
  }

  // ---- What each kind of call leaves alone ----

  ghost predicate SameAccounts(c: Chain, c': Chain) {
    SameNames(c, c') && c'.accounts == c.accounts
  }

  ghost predicate SameRevocations(c: Chain, c': Chain) {
    c'.revocations == c.revocations && c'.sequences == c.sequences
  }

  ghost predicate SameCertificates(c: Chain, c': Chain) {
    c'.certificates == c.certificates && c'.authorizations == c.authorizations
  }

  ghost predicate SameKeys(c: Chain, c': Chain) {
    c'.sshKeys == c.sshKeys && UncountedAll(c'.passkeys) == UncountedAll(c.passkeys)
  }

  lemma UsernameOnly(c: Chain, name: string, w: Wallet, id: Identity, now: int)
    ensures SameCredentials(c, RegisterUsername(c, name, w, id, now).chain)
  {
  }

  lemma AccountOnly(c: Chain, w: Wallet, now: int)
    ensures SameCredentials(c, RegisterAccount(c, w, now))
  {
  }

  lemma IdentityOnly(c: Chain, w: Wallet, id: Identity, proven: bool, now: int)
    ensures SameCredentials(c, RegisterIdentity(c, w, id, proven, now).chain)
  {
    AccountOnly(c, w, now);
    var a := RegisterAccount(c, w, now);
    assert SameCredentials(c, a.(roots := c.roots[id := w]));
    assert RegisterIdentity(c, w, id, proven, now).chain in {c, a.(roots := c.roots[id := w])};
  }

  lemma NameCallsOnly(n: Node, step: Step)
    requires step.Account? || step.Activity? || step.NewUsername? || step.NewIdentity?
    ensures SameCredentials(n.mem, Next(n, step).mem) && Next(n, step).flights == n.flights
  {
    match step {
      case Account(_, _) =>
      case Activity(_, _) =>
      case NewUsername(name, w, id, now) => UsernameOnly(n.mem, name, w, id, now);
      case NewIdentity(w, id, proven, now) => IdentityOnly(n.mem, w, id, proven, now);
    }
  }

  lemma CertificateForm(c: Chain, w: Wallet, cert: Certificate, now: int)
    ensures var c' := RegisterCertificate(c, w, cert, now).chain; c' == c.(certificates := c'.certificates, authorizations := c'.authorizations)
  {
  }

  lemma SshForm(c: Chain, cert: Certificate, fingerprint: string, now: int)
    ensures var c' := CommitSsh(c, cert, fingerprint, now).chain; c' == c.(certificates := c'.certificates, authorizations := c'.authorizations)
  {
  }

  lemma CertificateCallsOnly(n: Node, step: Step)
    requires step.NewCertificate? || step.SshCommit?
    ensures var c' := Next(n, step).mem;
            c' == n.mem.(certificates := c'.certificates, authorizations := c'.authorizations) && Next(n, step).flights == n.flights
  {
    if step.NewCertificate? {
      CertificateForm(n.mem, step.w, step.certificate, step.now);
    } else if step.flight in n.flights && step.flight.auth.BySsh? {
      SshForm(n.mem, step.flight.certificate, step.flight.auth.fingerprint, step.now);
    }
  }

  function Recounted(c: Chain, id: Identity, credential: string, counter: int): Chain {
    if id in c.passkeys then c.(passkeys := c.passkeys[id := Counted(c.passkeys[id], credential, counter)]) else c
  }

  lemma CounterOnly(c: Chain, id: Identity, credential: string, counter: int)
    ensures var c' := Recounted(c, id, credential, counter);
            SameAccounts(c, c') && SameRevocations(c, c') && SameCertificates(c, c') && SameKeys(c, c')
  {
    if id in c.passkeys {
      FrozenCount(c, id, credential, counter);
      var counted := c.passkeys[id := Counted(c.passkeys[id], credential, counter)];
      assert Frozen(c.(passkeys := counted)).passkeys == UncountedAll(counted) && Frozen(c).passkeys == UncountedAll(c.passkeys);
    }
  }

  lemma CommitForm(c: Chain, cert: Certificate, credential: string, verified: bool, counter: int, now: int)
    ensures var c1 := Recounted(c, cert.account, credential, counter);
            CommitPasskey(c, cert, credential, verified, counter, now).chain in
            {c, c1, Authorize(c1, cert, ByPasskey(credential)).(pending := c.pending - {(cert.account, cert.device)})}
  {
  }

  lemma CountedOnly(c: Chain, cert: Certificate, credential: string, verified: bool, counter: int, now: int)
    ensures var c' := CommitPasskey(c, cert, credential, verified, counter, now).chain;
            SameAccounts(c, c') && SameRevocations(c, c') && SameKeys(c, c')
  {
    CounterOnly(c, cert.account, credential, counter);
    CommitForm(c, cert, credential, verified, counter, now);
  }

  lemma PasskeyCommitOnly(n: Node, step: Step)
    requires step.PasskeyCommit?
    ensures var c, c' := n.mem, Next(n, step).mem;
            SameAccounts(c, c') && SameRevocations(c, c') && SameKeys(c, c') && Next(n, step).flights == n.flights
  {
    if step.flight in n.flights && step.flight.auth.ByPasskey? {
      CountedOnly(n.mem, step.flight.certificate, step.flight.auth.credential, step.verified, step.counter, step.now);
    }
  }

  lemma SshKeyForm(c: Chain, w: Wallet, id: Identity, k: SshKey, signed: bool)
    ensures var c' := RegisterSshKey(c, w, id, k, signed).chain; c' == c.(sshKeys := c'.sshKeys)
  {
  }

  lemma NewSshKeyOnly(n: Node, step: Step)
    requires step.NewSshKey?
    ensures Next(n, step).mem == n.mem.(sshKeys := Next(n, step).mem.sshKeys) && Next(n, step).flights == n.flights
  {
    SshKeyForm(n.mem, step.w, step.id, step.key, step.signed);
  }

  lemma PasskeyForm(c: Chain, w: Wallet, id: Identity, p: Passkey, signed: bool)
    ensures var c' := RegisterPasskey(c, w, id, p, signed).chain; c' == c.(passkeys := c'.passkeys)
  {
  }

  lemma NewPasskeyOnly(n: Node, step: Step)
    requires step.NewPasskey?
    ensures Next(n, step).mem == n.mem.(passkeys := Next(n, step).mem.passkeys) && Next(n, step).flights == n.flights
  {
    PasskeyForm(n.mem, step.w, step.id, step.passkey, step.signed);
  }

  lemma BeginForm(c: Chain, id: Identity, cert: Certificate, challenge: string, now: int)
    ensures var c' := BeginPasskey(c, id, cert, challenge, now).chain; c' == c.(pending := c'.pending)
  {
  }

  lemma BeginOnly(n: Node, step: Step)
    requires step.Begin?
    ensures Next(n, step).mem == n.mem.(pending := Next(n, step).mem.pending) && Next(n, step).flights == n.flights
  {
    BeginForm(n.mem, step.id, step.certificate, step.challenge, step.now);
  }

  lemma ChecksOnly(n: Node, step: Step)
    requires step.PasskeyCheck? || step.SshCheck?
    ensures Next(n, step).mem == n.mem
  {
  }

  lemma RevocationsOnly(n: Node, step: Step)
    requires step.NewRevocation?
    ensures var c, c' := n.mem, Next(n, step).mem;
            SameAccounts(c, c') && SameCertificates(c, c') && SameKeys(c, c') && c'.pending == c.pending && Next(n, step).flights == n.flights
  {
  }

  predicate NameCall(step: Step) {
    step.Account? || step.Activity? || step.NewUsername? || step.NewIdentity?
  }

  /** Everything a call of each kind leaves alone. */
  lemma LeavesAlone(n: Node, step: Step)
    requires Inv(n)
    ensures var c, c' := n.mem, Next(n, step).mem;
            && (!NameCall(step) ==> SameAccounts(c, c'))
            && (!step.NewRevocation? ==> SameRevocations(c, c'))
            && (!step.NewCertificate? && !step.SshCommit? && !step.PasskeyCommit? ==> SameCertificates(c, c'))
            && (!step.NewPasskey? && !step.NewSshKey? ==> SameKeys(c, c'))
            && (!step.PasskeyCheck? && !step.SshCheck? && !step.Restart? ==> Next(n, step).flights == n.flights)
  {
    if step.Restart? {
      RestartTables(n, step);
    } else if NameCall(step) {
      NameCallsOnly(n, step);
    } else if step.NewCertificate? || step.SshCommit? {
      CertificateCallsOnly(n, step);
    } else if step.PasskeyCommit? {
      PasskeyCommitOnly(n, step);
    } else if step.NewRevocation? {
      RevocationsOnly(n, step);
    } else if step.PasskeyCheck? || step.SshCheck? {
      ChecksOnly(n, step);
    } else if step.Begin? {
      BeginOnly(n, step);
    } else if step.NewSshKey? {
      NewSshKeyOnly(n, step);
    } else {
      NewPasskeyOnly(n, step);
    }
  }

  // ---- Revocations ----

  /** A revocation that is recorded: by the root, well formed and signed, at most a day ahead and newer than any before. */
  predicate Revokes(c: Chain, step: Step) {
    && step.NewRevocation? && Root(c, step.id, step.w) && step.valid
    && 1 <= step.sequence <= step.now + DAY
    && (step.id in c.sequences ==> step.sequence > c.sequences[step.id])
  }

  lemma RevocationEffect(n: Node, step: Step)
    requires step.NewRevocation?
    ensures var c, c' := n.mem, Next(n, step).mem;
            if Revokes(c, step)
            then c'.revocations == c.revocations[(step.id, step.revoked) := step.sequence] && c'.sequences == c.sequences[step.id := step.sequence]
            else SameRevocations(c, c')
    ensures Revoke(n.mem, step.w, step.id, step.revoked, step.sequence, step.valid, step.now).Done? <==> Revokes(n.mem, step)
  {
  }

  /** In every reachable state: revocations and their sequences move exactly by the calls that meet the conditions, and
      then by that one pair; those calls return and all other revocations throw. */
  lemma RevocationsMoveIff(n: Node, step: Step)
    requires Reachable(n)
    ensures var c, c' := n.mem, Next(n, step).mem;
            if Revokes(c, step)
            then c'.revocations == c.revocations[(step.id, step.revoked) := step.sequence] && c'.sequences == c.sequences[step.id := step.sequence]
            else SameRevocations(c, c')
    ensures step.NewRevocation? ==>
              (Revoke(n.mem, step.w, step.id, step.revoked, step.sequence, step.valid, step.now).Done? <==> Revokes(n.mem, step))
  {
    ReachableInv(n);
    LeavesAlone(n, step);
    if step.NewRevocation? {
      RevocationEffect(n, step);
    }
  }

  /** A revocation takes effect: once the call has returned the credential is revoked, no other became so, and whatever
      follows no authentication succeeds through a certificate that rests on it. */
  lemma RevocationTakesEffect(n: Node, step: Step, steps: seq<Step>, sessions: map<string, Session>, token: string, now: int)
    requires Reachable(n) && Revokes(n.mem, step) && token in sessions && sessions[token].identity == step.id
    ensures var n' := Next(n, step); var later := Run(n', steps).mem;
            && Revoked(n'.mem, step.id, step.revoked)
            && (forall id, cr :: Revoked(n'.mem, id, cr) ==> Revoked(n.mem, id, cr) || (id, cr) == (step.id, step.revoked))
            && Revoked(later, step.id, step.revoked)
            && (Authenticate(sessions, later, token, now).certificate.Some? ==> step.revoked !in RestsOn(later, step.id, sessions[token].device))
  {
    RevocationsMoveIff(n, step);
    ReachableNext(n, step);
    NothingThroughRevoked(Next(n, step), steps, sessions, token, now, step.revoked);
  }

  // ---- Names, roots and accounts ----

  /** The wallet holds no name. */
  predicate Nameless(c: Chain, w: Wallet) {
    forall m :: m in c.usernames ==> c.usernames[m].owner != w
  }

  /** Nobody holds the name, or its owner has an account and was not active for ninety days. */
  predicate Free(c: Chain, name: string, now: int) {
    name in c.usernames ==>
      c.usernames[name].owner in c.accounts && now - c.accounts[c.usernames[name].owner].lastActiveAt >= 90 * DAY
  }

  /** A registration that goes through: an account at least seven days old, without a name, not against another root, for
      a name that is free. */
  predicate Registers(c: Chain, step: Step) {
    && step.NewUsername? && step.w in c.accounts && step.now - c.accounts[step.w].createdAt >= 7 * DAY
    && Nameless(c, step.w) && (step.id in c.roots ==> c.roots[step.id] == step.w) && Free(c, step.name, step.now)
  }

  function HistoryOf(c: Chain, name: string): seq<Username> {
    if name in c.history then c.history[name] else []
  }

  lemma NamelessIff(c: Chain, w: Wallet)
    requires NamesOk(c)
    ensures Nameless(c, w) <==> w !in c.walletToUsername
  {
    if w in c.walletToUsername {
      assert WalletOk(c, w);
    }
    forall m | m in c.usernames && c.usernames[m].owner == w ensures w in c.walletToUsername {
      assert NameOk(c, m);
    }
  }

  lemma RegistrationEffect(n: Node, step: Step)
    requires Inv(n) && step.NewUsername?
    ensures var c, c' := n.mem, Next(n, step).mem;
            if Registers(c, step)
            then
              var record := Username(step.name, step.w, step.id, step.now);
              && c'.usernames == c.usernames[step.name := record] && c'.roots == c.roots[step.id := step.w]
              && c'.history == c.history[step.name := HistoryOf(c, step.name) + [record]] && c'.accounts == c.accounts
            else c' == c
  {
    NamelessIff(n.mem, step.w);
  }

  /** A registration of an identity that binds its root: the identity is the wallet's own, proven, and unbound. */
  predicate Binds(c: Chain, step: Step) {
    step.NewIdentity? && step.id == FromWallet(step.w) && step.proven && step.id !in c.roots
  }

  lemma IdentityEffect(n: Node, step: Step)
    requires step.NewIdentity?
    ensures var c, c' := n.mem, Next(n, step).mem;
            if Binds(c, step)
            then
              && c'.roots == c.roots[step.id := step.w] && c'.usernames == c.usernames && c'.history == c.history
              && c'.accounts == if step.w in c.accounts then c.accounts else c.accounts[step.w := Meta(step.now, step.now)]
            else c' == c
  {
  }

  lemma AccountEffect(n: Node, step: Step)
    requires step.Account? || step.Activity?
    ensures var c, c' := n.mem, Next(n, step).mem;
            && SameNames(c, c')
            && c'.accounts == if step.Account?
                              then (if step.w in c.accounts then c.accounts else c.accounts[step.w := Meta(step.now, step.now)])
                              else (if step.w in c.accounts then c.accounts[step.w := Meta(c.accounts[step.w].createdAt, step.now)] else c.accounts)
  {
  }

  /** In every reachable state: names, their history and bound roots move exactly by registrations that meet the
      conditions, roots also by the binding of an identity, and nothing else. */
  lemma NamesMoveIff(n: Node, step: Step)
    requires Reachable(n)
    ensures var c, c' := n.mem, Next(n, step).mem;
            && (Registers(c, step) ==>
                  var record := Username(step.name, step.w, step.id, step.now);
                  && c'.usernames == c.usernames[step.name := record] && c'.roots == c.roots[step.id := step.w]
                  && c'.history == c.history[step.name := HistoryOf(c, step.name) + [record]])
            && (!Registers(c, step) ==> c'.usernames == c.usernames && c'.history == c.history)
            && (Binds(c, step) ==> c'.roots == c.roots[step.id := step.w])
            && (!Registers(c, step) && !Binds(c, step) ==> c'.roots == c.roots)
  {
    ReachableInv(n);
    if step.NewUsername? {
      RegistrationEffect(n, step);
    } else if step.NewIdentity? {
      IdentityEffect(n, step);
    } else if step.Account? || step.Activity? {
      AccountEffect(n, step);
    } else {
      LeavesAlone(n, step);
    }
  }

  /** An account starts when it is first registered, or when its identity is bound, and is active when it says so. */
  function AccountsAfter(c: Chain, step: Step): map<Wallet, Meta> {
    if (step.Account? || Binds(c, step)) && step.w !in c.accounts then c.accounts[step.w := Meta(step.now, step.now)]
    else if step.Activity? && step.w in c.accounts then c.accounts[step.w := Meta(c.accounts[step.w].createdAt, step.now)]
    else c.accounts
  }

  lemma AccountsMoveIff(n: Node, step: Step)
    requires Reachable(n)
    ensures Next(n, step).mem.accounts == AccountsAfter(n.mem, step)
  {
    ReachableInv(n);
    if step.NewUsername? {
      RegistrationEffect(n, step);
    } else if step.NewIdentity? {
      IdentityEffect(n, step);
    } else if step.Account? || step.Activity? {
      AccountEffect(n, step);
    } else {
      LeavesAlone(n, step);
    }
  }

  /** No step of the run takes the name from an owner that is away too long. */
  ghost predicate NeverReleased(n: Node, steps: seq<Step>, name: string)
    decreases |steps|
  {
    steps != [] ==>
      && (steps[0].NewUsername? && steps[0].name == name ==> !Free(n.mem, name, steps[0].now))
      && NeverReleased(Next(n, steps[0]), steps[1..], name)
  }

  /** Who holds a name keeps it through every run, however many others ask for it, as long as nobody asks after ninety
      days of silence. */
  lemma {:induction false} OwnerKeepsName(n: Node, steps: seq<Step>, name: string)
    requires Reachable(n) && name in n.mem.usernames && NeverReleased(n, steps, name)
    ensures name in Run(n, steps).mem.usernames && Run(n, steps).mem.usernames[name] == n.mem.usernames[name]
    decreases |steps|
  {
    if steps != [] {
      NamesMoveIff(n, steps[0]);
      ReachableNext(n, steps[0]);
      OwnerKeepsName(Next(n, steps[0]), steps[1..], name);
    }
  }

  // ---- Authorisations ----

  /** No other certificate of the device is in force, or it is the same key under the same authorisation. */
  predicate Unopposed(c: Chain, cert: Certificate, auth: Authorization, now: int) {
    var k := (cert.account, cert.device);
    k in c.certificates && now < c.certificates[k].expiresAt ==>
      c.certificates[k].signingKey == cert.signingKey && k in c.authorizations && c.authorizations[k] == auth
  }

  /** What a step authorises, if it authorises anything. */
  function Authorizes(n: Node, step: Step): Option<InFlight> {
    var c := n.mem;
    if step.NewCertificate? then
      var cert := step.certificate;
      if cert.issuedAt < cert.expiresAt && step.now < cert.expiresAt && Root(c, cert.account, step.w) && cert.signer == Some(step.w)
         && !Revoked(c, cert.account, OfDevice(cert.device)) && Unopposed(c, cert, ByRoot, step.now)
      then Some(InFlight(cert, ByRoot)) else None
    else if step.PasskeyCommit? then
      if step.flight in n.flights && step.flight.auth.ByPasskey? && step.verified && Unopposed(c, step.flight.certificate, step.flight.auth, step.now)
      then Some(step.flight) else None
    else if step.SshCommit? then
      var cert := step.flight.certificate;
      if step.flight in n.flights && step.flight.auth.BySsh? && !Revoked(c, cert.account, OfDevice(cert.device)) && Unopposed(c, cert, step.flight.auth, step.now)
      then Some(step.flight) else None
    else None
  }

  ghost predicate Authorized(c: Chain, c': Chain, f: Option<InFlight>) {
    if f.None? then SameCertificates(c, c')
    else
      var k := (f.value.certificate.account, f.value.certificate.device);
      c'.certificates == c.certificates[k := f.value.certificate] && c'.authorizations == c.authorizations[k := f.value.auth]
  }

  lemma RootEffect(n: Node, step: Step)
    requires step.NewCertificate?
    ensures Authorized(n.mem, Next(n, step).mem, Authorizes(n, step))
  {
  }

  lemma SshEffect(n: Node, step: Step)
    requires step.SshCommit?
    ensures Authorized(n.mem, Next(n, step).mem, Authorizes(n, step))
  {
  }

  lemma PasskeyEffect(n: Node, step: Step)
    requires step.PasskeyCommit?
    ensures Authorized(n.mem, Next(n, step).mem, Authorizes(n, step))
  {
  }

  /** In every reachable state: a certificate and its authorisation are recorded exactly when the root signed it, or a
      credential that was checked is committed, for a device not revoked where that is asked, that nothing in force
      opposes; and nothing else touches them. */
  lemma AuthorizationsMoveIff(n: Node, step: Step)
    requires Reachable(n)
    ensures Authorized(n.mem, Next(n, step).mem, Authorizes(n, step))
  {
    ReachableInv(n);
    if step.NewCertificate? {
      RootEffect(n, step);
    } else if step.SshCommit? {
      SshEffect(n, step);
    } else if step.PasskeyCommit? {
      PasskeyEffect(n, step);
    } else {
      LeavesAlone(n, step);
    }
  }

  // ---- Checks that pass, and challenges ----

  predicate InWindow(cert: Certificate, id: Identity, now: int) {
    cert.account == id && cert.issuedAt < cert.expiresAt && now < cert.expiresAt
  }

  /** What a step sends on its way to be committed: a current certificate vouched for by an unrevoked registered key, and
      for a passkey also a challenge of the caller's or the one that waits for this very certificate. */
  function Departs(c: Chain, step: Step): Option<InFlight> {
    if step.PasskeyCheck? then
      var k := (step.id, step.certificate.device);
      if InWindow(step.certificate, step.id, step.now)
         && (if step.expected.Some? then step.expected.value != ""
             else k in c.pending && step.now <= c.pending[k].expiresAt && c.pending[k].certificate == step.certificate)
         && HasPasskey(PasskeysOf(c, step.id), step.credential) && !Revoked(c, step.id, OfPasskey(step.credential))
      then Some(InFlight(step.certificate, ByPasskey(step.credential))) else None
    else if step.SshCheck? then
      if InWindow(step.certificate, step.id, step.now) && step.id in c.roots
         && HasSshKey(SshKeysOf(c, step.id), step.fingerprint) && !Revoked(c, step.id, OfSsh(step.fingerprint))
      then Some(InFlight(step.certificate, BySsh(step.fingerprint))) else None
    else None
  }

  lemma CheckEffect(n: Node, step: Step)
    requires step.PasskeyCheck? || step.SshCheck?
    ensures Next(n, step).flights == n.flights + if Departs(n.mem, step).Some? then {Departs(n.mem, step).value} else {}
  {
  }

  /** In every reachable state: authorisations are under way exactly after such a check, until a restart. */
  lemma FlightsMoveIff(n: Node, step: Step)
    requires Reachable(n)
    ensures Next(n, step).flights ==
            if step.Restart? && ChainFile.Writes(n.disk, step.file) then {}
            else n.flights + if Departs(n.mem, step).Some? then {Departs(n.mem, step).value} else {}
  {
    ReachableInv(n);
    LeavesAlone(n, step);
    if step.PasskeyCheck? || step.SshCheck? {
      CheckEffect(n, step);
    }
  }

  /** The challenges that have not expired. */
  function Unexpired(c: Chain, now: int): map<(Identity, Device), Pending> {
    map k | k in c.pending && now < c.pending[k].expiresAt :: c.pending[k]
  }

  /** A challenge may be asked for. */
  predicate MayAsk(c: Chain, id: Identity, cert: Certificate, now: int) {
    && id in c.roots && InWindow(cert, id, now)
    && (exists i :: 0 <= i < |PasskeysOf(c, id)| && !Revoked(c, id, OfPasskey(PasskeysOf(c, id)[i].credential)))
    && !Revoked(c, id, OfDevice(cert.device))
  }

  /** A challenge is given and waits five minutes, in place of one for the same device or while fewer than sixteen wait;
      asking drops what has expired, even when it is refused. */
  function Challenged(c: Chain, id: Identity, cert: Certificate, challenge: string, now: int): map<(Identity, Device), Pending> {
    var left, k := Unexpired(c, now), (id, cert.device);
    if !MayAsk(c, id, cert, now) then c.pending
    else if k in left || |set j | j in left && j.0 == id| < 16 then left[k := Pending(challenge, cert, now + 5 * 60_000)]
    else left
  }

  function PendingAfter(n: Node, step: Step): map<(Identity, Device), Pending> {
    var c := n.mem;
    if step.Begin? then Challenged(c, step.id, step.certificate, step.challenge, step.now)
    else if step.PasskeyCommit? && Authorizes(n, step).Some? then c.pending - {(step.flight.certificate.account, step.flight.certificate.device)}
    else c.pending
  }

  lemma UnexpiredSame(c: Chain, id: Identity, now: int)
    ensures Unexpired(c, now) == Pruned(c.pending, now)
    ensures var left := Unexpired(c, now); PendingOf(left, id) == set j | j in left && j.0 == id
  {
  }

  lemma MayAskIff(c: Chain, id: Identity, cert: Certificate, challenge: string, now: int)
    ensures MayAsk(c, id, cert, now) <==> id in c.roots && ShapeValid(cert, id, now) && HasLivePasskey(c, id) && !Revoked(c, id, OfDevice(cert.device))
    ensures !MayAsk(c, id, cert, now) ==> BeginPasskey(c, id, cert, challenge, now).chain == c
  {
  }

  lemma ChallengeEffect(c: Chain, id: Identity, cert: Certificate, challenge: string, now: int)
    ensures BeginPasskey(c, id, cert, challenge, now).chain.pending == Challenged(c, id, cert, challenge, now)
  {
    UnexpiredSame(c, id, now);
    MayAskIff(c, id, cert, challenge, now);
    if MayAsk(c, id, cert, now) {
      assert id in c.roots && ShapeValid(cert, id, now) && HasLivePasskey(c, id) && !Revoked(c, id, OfDevice(cert.device));
    }
  }

  lemma CommitPending(n: Node, step: Step)
    requires step.PasskeyCommit?
    ensures Next(n, step).mem.pending == PendingAfter(n, step)
  {
  }

  /** In every reachable state, between restarts: challenges are given, dropped and used up exactly so. */
  lemma ChallengesMoveIff(n: Node, step: Step)
    requires Reachable(n) && !step.Restart?
    ensures Next(n, step).mem.pending == PendingAfter(n, step)
  {
    ReachableInv(n);
    if step.Begin? {
      ChallengeEffect(n.mem, step.id, step.certificate, step.challenge, step.now);
    } else if step.PasskeyCommit? {
      CommitPending(n, step);
    } else if NameCall(step) {
      NameCallsOnly(n, step);
    } else if step.NewCertificate? || step.SshCommit? {
      CertificateCallsOnly(n, step);
    } else if step.NewRevocation? {
      RevocationsOnly(n, step);
    } else if step.PasskeyCheck? || step.SshCheck? {
      ChecksOnly(n, step);
    } else if step.NewSshKey? {
      NewSshKeyOnly(n, step);
    } else {
      NewPasskeyOnly(n, step);
    }
  }

  // ---- Keys ----

  /** The positions of keys that are not revoked. */
  function LiveAt(c: Chain, id: Identity, ks: seq<SshKey>): set<int> {
    set i | 0 <= i < |ks| && !Revoked(c, id, OfSsh(ks[i].fingerprint))
  }

  lemma {:induction false} LiveKeysCounts(c: Chain, id: Identity, ks: seq<SshKey>)
    ensures LiveKeys(c, id, ks) == |LiveAt(c, id, ks)|
    decreases |ks|
  {
    if ks != [] {
      var l := |ks| - 1;
      LiveKeysCounts(c, id, ks[..l]);
      assert LiveAt(c, id, ks) == LiveAt(c, id, ks[..l]) + if Revoked(c, id, OfSsh(ks[l].fingerprint)) then {} else {l};
    }
  }

  /** The root adds an Ed25519 key of its own that is new, not revoked, and at most the eighth live one. */
  predicate AddsSshKey(c: Chain, step: Step) {
    && step.NewSshKey? && Root(c, step.id, step.w) && step.signed && step.key.algorithm == "ssh-ed25519"
    && !HasSshKey(SshKeysOf(c, step.id), step.key.fingerprint) && !Revoked(c, step.id, OfSsh(step.key.fingerprint))
    && |LiveAt(c, step.id, SshKeysOf(c, step.id))| < 8
  }

  /** The root adds a complete passkey under a new credential id. */
  predicate AddsPasskey(c: Chain, step: Step) {
    && step.NewPasskey? && Root(c, step.id, step.w) && step.signed
    && step.passkey.counter >= 0 && step.passkey.credential != "" && step.passkey.origin != ""
    && !HasPasskey(PasskeysOf(c, step.id), step.passkey.credential)
  }

  lemma SshKeyEffect(n: Node, step: Step)
    requires step.NewSshKey?
    ensures Next(n, step).mem.sshKeys ==
            if AddsSshKey(n.mem, step) then n.mem.sshKeys[step.id := SshKeysOf(n.mem, step.id) + [step.key]] else n.mem.sshKeys
  {
    LiveKeysCounts(n.mem, step.id, SshKeysOf(n.mem, step.id));
  }

  lemma NewPasskeyEffect(n: Node, step: Step)
    requires step.NewPasskey?
    ensures Next(n, step).mem.passkeys ==
            if AddsPasskey(n.mem, step) then n.mem.passkeys[step.id := PasskeysOf(n.mem, step.id) + [step.passkey]] else n.mem.passkeys
  {
  }

  /** In every reachable state: keys are added exactly so, and none is ever taken away; only the counters of passkeys
      move otherwise. */
  lemma KeysMoveIff(n: Node, step: Step)
    requires Reachable(n)
    ensures var c, c' := n.mem, Next(n, step).mem;
            && c'.sshKeys == (if AddsSshKey(c, step) then c.sshKeys[step.id := SshKeysOf(c, step.id) + [step.key]] else c.sshKeys)
            && (if AddsPasskey(c, step) then c'.passkeys == c.passkeys[step.id := PasskeysOf(c, step.id) + [step.passkey]]
                else UncountedAll(c'.passkeys) == UncountedAll(c.passkeys))
  {
    ReachableInv(n);
    if step.NewSshKey? {
      SshKeyEffect(n, step);
      NewSshKeyOnly(n, step);
    } else if step.NewPasskey? {
      NewPasskeyEffect(n, step);
      NewPasskeyOnly(n, step);
    } else {
      LeavesAlone(n, step);
    }
  }

  // ---- Authentication ----

  /** The certificate of a device is in force: in its window, the device not revoked, and what vouches for it standing. */
  predicate InForce(c: Chain, id: Identity, d: Device, now: int) {
    var k := (id, d);
    && k in c.certificates && k in c.authorizations && c.certificates[k].issuedAt <= now < c.certificates[k].expiresAt
    && !Revoked(c, id, OfDevice(d))
    && match c.authorizations[k]
       case ByRoot => id in c.roots && c.certificates[k].signer == Some(c.roots[id])
       case BySsh(f) => HasSshKey(SshKeysOf(c, id), f) && !Revoked(c, id, OfSsh(f))
       case ByPasskey(p) => HasPasskey(PasskeysOf(c, id), p) && !Revoked(c, id, OfPasskey(p))
  }

  /** A request is authenticated exactly when its session is known and has not expired and the certificate of its device
      is in force; it is then that certificate, and the session goes on. Otherwise the session is over. */
  lemma AuthenticatesIff(n: Node, sessions: map<string, Session>, token: string, now: int)
    requires Reachable(n)
    ensures var a := Authenticate(sessions, n.mem, token, now);
            && (a.certificate.Some? <==>
                token in sessions && now < sessions[token].expiresAt && InForce(n.mem, sessions[token].identity, sessions[token].device, now))
            && (a.certificate.Some? ==> a.sessions == sessions && a.certificate.value == n.mem.certificates[(sessions[token].identity, sessions[token].device)])
            && (a.certificate.None? ==> a.sessions == sessions - {token})
  {
    if token in sessions {
      ResolvesIff(n, sessions[token].identity, sessions[token].device, now);
    } else {
      assert sessions - {token} == sessions;
    }
  }

  /** Nothing in the run revokes what the certificate of the device rests on, or authorises the device anew. */
  ghost predicate Undisturbed(n: Node, steps: seq<Step>, id: Identity, d: Device)
    decreases |steps|
  {
    steps != [] ==>
      && (Revokes(n.mem, steps[0]) ==> steps[0].id != id || steps[0].revoked !in RestsOn(n.mem, id, d))
      && (Authorizes(n, steps[0]).Some? ==>
            var cert := Authorizes(n, steps[0]).value.certificate; (cert.account, cert.device) != (id, d))
      && Undisturbed(Next(n, steps[0]), steps[1..], id, d)
  }

  lemma ForceKept(c: Chain, c': Chain, id: Identity, d: Device, now: int)
    requires InForce(c, id, d, now) && Grows(c, c') && (id, d) in c'.certificates && (id, d) in c'.authorizations
    requires c'.certificates[(id, d)] == c.certificates[(id, d)] && c'.authorizations[(id, d)] == c.authorizations[(id, d)]
    requires forall cr :: cr in RestsOn(c, id, d) && Revoked(c', id, cr) ==> Revoked(c, id, cr)
    ensures InForce(c', id, d, now)
  {
    assert OfDevice(d) in RestsOn(c, id, d);
  }

  lemma StaysInForce(n: Node, step: Step, id: Identity, d: Device, now: int)
    requires Reachable(n) && InForce(n.mem, id, d, now)
    requires Revokes(n.mem, step) ==> step.id != id || step.revoked !in RestsOn(n.mem, id, d)
    requires Authorizes(n, step).Some? ==> var cert := Authorizes(n, step).value.certificate; (cert.account, cert.device) != (id, d)
    ensures var c' := Next(n, step).mem;
            InForce(c', id, d, now) && c'.certificates[(id, d)] == n.mem.certificates[(id, d)]
  {
    ReachableInv(n);
    NextKeeps(n, step);
    RevocationsMoveIff(n, step);
    AuthorizationsMoveIff(n, step);
    ForceKept(n.mem, Next(n, step).mem, id, d, now);
  }

  /** A certificate in force stays in force through every run that does not revoke what it rests on or authorise its
      device anew, restarts included: until it expires, sessions of the device go on. */
  lemma {:induction false} CertificateStands(n: Node, steps: seq<Step>, sessions: map<string, Session>, token: string, now: int)
    requires Reachable(n) && token in sessions && now < sessions[token].expiresAt
    requires InForce(n.mem, sessions[token].identity, sessions[token].device, now)
    requires Undisturbed(n, steps, sessions[token].identity, sessions[token].device)
    ensures Authenticate(sessions, Run(n, steps).mem, token, now).certificate ==
            Some(n.mem.certificates[(sessions[token].identity, sessions[token].device)])
    decreases |steps|
  {
    if steps == [] {
      AuthenticatesIff(n, sessions, token, now);
    } else {
      StaysInForce(n, steps[0], sessions[token].identity, sessions[token].device, now);
      ReachableNext(n, steps[0]);
      CertificateStands(Next(n, steps[0]), steps[1..], sessions, token, now);
    }
  }
}
