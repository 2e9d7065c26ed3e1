/**
 Whole runs of the development chain: any calls in any order, with the clock, the two awaiting
 operations split where they await, and restarts from the file. Then the gateway's authentication
 on top of it (packages/gateway/src/gateway.ts).
 */
module ChainRuns {

  import opened Basics
  import opened ChainStub
  import ChainFile

  /** Memory, the chain last persisted, and authorisations that are awaiting. */
  datatype Node = Node(mem: Chain, disk: Chain, flights: set<InFlight>)

  datatype Step =
    | Account(w: Wallet, now: int)
    | Activity(w: Wallet, now: int)
    | NewUsername(name: string, w: Wallet, id: Identity, now: int)
    | NewIdentity(w: Wallet, id: Identity, proven: bool, now: int)
    | NewCertificate(w: Wallet, certificate: Certificate, now: int)
    | NewPasskey(w: Wallet, id: Identity, passkey: Passkey, signed: bool)
    | Begin(id: Identity, certificate: Certificate, challenge: string, now: int)
    | PasskeyCheck(id: Identity, certificate: Certificate, credential: string, expected: Option<string>, now: int)
    | PasskeyCommit(flight: InFlight, verified: bool, counter: int, now: int)
    | NewSshKey(w: Wallet, id: Identity, key: SshKey, signed: bool)
    | SshCheck(id: Identity, certificate: Certificate, fingerprint: string, now: int)
    | SshCommit(flight: InFlight, now: int)
    | NewRevocation(w: Wallet, id: Identity, revoked: Credential, sequence: int, valid: bool, now: int)
    | Restart(file: ChainFile.File)

  /** A call that returns has persisted; one that throws has not. */
  function Settle(n: Node, o: Outcome): Node {
    match o
    case Done(c) => n.(mem := c, disk := c)
    case Threw(c, _) => n.(mem := c)
  }

  function Depart(n: Node, checked: Checked): Node {
    match checked
    case Passed(flight) => n.(flights := n.flights + {flight})
    case Failed(_) => n
  }

  ghost function Next(n: Node, step: Step): Node {
    match step
    case Account(w, now) => if w in n.mem.accounts then n else Settle(n, Done(RegisterAccount(n.mem, w, now)))
    case Activity(w, now) => if w in n.mem.accounts then Settle(n, Done(RecordActivity(n.mem, w, now))) else n
    case NewUsername(name, w, id, now) => Settle(n, RegisterUsername(n.mem, name, w, id, now))
    case NewIdentity(w, id, proven, now) =>
      if id in n.mem.roots then n else Settle(n, RegisterIdentity(n.mem, w, id, proven, now))
    case NewCertificate(w, cert, now) => Settle(n, RegisterCertificate(n.mem, w, cert, now))
    case NewPasskey(w, id, p, signed) => Settle(n, RegisterPasskey(n.mem, w, id, p, signed))
    case Begin(id, cert, challenge, now) => Settle(n, BeginPasskey(n.mem, id, cert, challenge, now))
    case PasskeyCheck(id, cert, credential, expected, now) => Depart(n, CheckPasskey(n.mem, id, cert, credential, expected, now))
    case PasskeyCommit(flight, verified, counter, now) =>
      if flight in n.flights && flight.auth.ByPasskey? then
        Settle(n, CommitPasskey(n.mem, flight.certificate, flight.auth.credential, verified, counter, now))
      else n
    case NewSshKey(w, id, key, signed) => Settle(n, RegisterSshKey(n.mem, w, id, key, signed))
    case SshCheck(id, cert, fingerprint, now) => Depart(n, CheckSsh(n.mem, id, cert, fingerprint, now))
    case SshCommit(flight, now) =>
      if flight in n.flights && flight.auth.BySsh? then
        Settle(n, CommitSsh(n.mem, flight.certificate, flight.auth.fingerprint, now))
      else n
    case NewRevocation(w, id, revoked, sequence, valid, now) => Settle(n, Revoke(n.mem, w, id, revoked, sequence, valid, now))
    case Restart(file) => if ChainFile.Writes(n.disk, file) then Node(ChainFile.Restored(file), n.disk, {}) else n
  }

  ghost function Run(n: Node, steps: seq<Step>): Node
    decreases |steps|
  {
    if steps == [] then n else Run(Next(n, steps[0]), steps[1..])
  }

  function Fresh(): Node {
    Node(EmptyChain(), EmptyChain(), {})
  }

  // ---- Invariant ----

  function Uncounted(ps: seq<Passkey>): (r: seq<Passkey>)
    ensures |r| == |ps| && forall i :: 0 <= i < |ps| ==> r[i] == ps[i].(counter := 0)
  {
    if ps == [] then [] else [ps[0].(counter := 0)] + Uncounted(ps[1..])
  }

  function UncountedAll(m: map<Identity, seq<Passkey>>): map<Identity, seq<Passkey>> {
    map id | id in m :: Uncounted(m[id])
  }

  /** Everything but passkey counters and waiting challenges. */
  function Frozen(c: Chain): Chain {
    c.(passkeys := UncountedAll(c.passkeys), pending := map[])
  }

  ghost predicate FlightOk(c: Chain, f: InFlight) {
    && f.certificate.issuedAt < f.certificate.expiresAt
    && !f.auth.ByRoot? && Vouched(c, f.certificate, f.auth)
  }

  ghost predicate Inv(n: Node) {
    && ChainOk(n.mem) && ChainOk(n.disk)
    && Frozen(n.mem) == Frozen(n.disk)
    && forall f :: f in n.flights ==> FlightOk(n.mem, f)
  }

  lemma FrozenPasskeys(c: Chain, c': Chain, id: Identity, p: string)
    requires UncountedAll(c.passkeys) == UncountedAll(c'.passkeys) && HasPasskey(PasskeysOf(c, id), p)
    ensures HasPasskey(PasskeysOf(c', id), p)
  {
    var i :| 0 <= i < |PasskeysOf(c, id)| && PasskeysOf(c, id)[i].credential == p;
    assert UncountedAll(c.passkeys)[id] == Uncounted(c.passkeys[id]);
    assert id in UncountedAll(c'.passkeys);
    assert Uncounted(c.passkeys[id])[i].credential == p && Uncounted(c'.passkeys[id])[i].credential == PasskeysOf(c', id)[i].credential;
  }

  lemma FrozenGrows(c: Chain, c': Chain)
    requires Frozen(c) == Frozen(c')
    ensures Grows(c, c')
  {
    assert c.roots == Frozen(c).roots && c'.roots == Frozen(c').roots;
    assert c.sshKeys == Frozen(c).sshKeys && c'.sshKeys == Frozen(c').sshKeys;
    assert c.history == Frozen(c).history && c'.history == Frozen(c').history;
    assert c.revocations == Frozen(c).revocations && c'.revocations == Frozen(c').revocations;
    assert c.sequences == Frozen(c).sequences && c'.sequences == Frozen(c').sequences;
    assert UncountedAll(c.passkeys) == Frozen(c).passkeys && UncountedAll(c'.passkeys) == Frozen(c').passkeys;
    forall id, p | HasPasskey(PasskeysOf(c, id), p) ensures HasPasskey(PasskeysOf(c', id), p) {
      FrozenPasskeys(c, c', id, p);
    }
  }

  lemma FlightsGrow(n: Node, c: Chain)
    requires Grows(n.mem, c) && forall f :: f in n.flights ==> FlightOk(n.mem, f)
    ensures forall f :: f in n.flights ==> FlightOk(c, f)
  {
  }

  lemma FrozenCount(c: Chain, id: Identity, credential: string, counter: int)
    requires id in c.passkeys
    ensures Frozen(c.(passkeys := c.passkeys[id := Counted(c.passkeys[id], credential, counter)])) == Frozen(c)
  {
    var ps := c.passkeys[id];
    assert Uncounted(Counted(ps, credential, counter)) == Uncounted(ps);
    assert UncountedAll(c.passkeys[id := Counted(ps, credential, counter)]) == UncountedAll(c.passkeys);
  }

  /** A call that throws changes at most counters and waiting challenges. */
  lemma SettleKeeps(n: Node, o: Outcome)
    requires Inv(n) && ChainOk(o.chain) && Grows(n.mem, o.chain) && (o.Threw? ==> Frozen(o.chain) == Frozen(n.mem))
    ensures Inv(Settle(n, o)) && Grows(n.mem, Settle(n, o).mem)
  {
    FlightsGrow(n, o.chain);
  }

  lemma DepartKeeps(n: Node, checked: Checked)
    requires Inv(n) && (checked.Passed? ==> FlightOk(n.mem, checked.flight))
    ensures Inv(Depart(n, checked)) && Grows(n.mem, Depart(n, checked).mem)
  {
  }

  lemma CommitSshKeeps(c: Chain, cert: Certificate, fingerprint: string, now: int)
    requires ChainOk(c) && cert.issuedAt < cert.expiresAt && HasSshKey(SshKeysOf(c, cert.account), fingerprint)
    ensures ChainOk(CommitSsh(c, cert, fingerprint, now).chain) && Grows(c, CommitSsh(c, cert, fingerprint, now).chain)
  {
    AuthorizeKeeps(c, cert, BySsh(fingerprint));
  }

  lemma RegisterCertificateKeeps(c: Chain, w: Wallet, cert: Certificate, now: int)
    requires ChainOk(c)
    ensures ChainOk(RegisterCertificate(c, w, cert, now).chain) && Grows(c, RegisterCertificate(c, w, cert, now).chain)
  {
    if RegisterCertificate(c, w, cert, now).Done? {
      AuthorizeKeeps(c, cert, ByRoot);
    }
  }

  lemma CommitPasskeyFrozen(c: Chain, cert: Certificate, credential: string, verified: bool, counter: int, now: int)
    requires CommitPasskey(c, cert, credential, verified, counter, now).Threw?
    ensures Frozen(CommitPasskey(c, cert, credential, verified, counter, now).chain) == Frozen(c)
  {
    if cert.account in c.passkeys {
      FrozenCount(c, cert.account, credential, counter);
    }
  }

  /** A restart brings back exactly what was last persisted. */
  lemma RestartForm(n: Node, file: ChainFile.File)
    requires ChainOk(n.disk) && ChainFile.Writes(n.disk, file)
    ensures Next(n, Restart(file)) == Node(n.disk, n.disk, {})
  {
    ChainFile.RestorePersist(n.disk, file);
  }

  lemma RestartKeeps(n: Node)
    requires Inv(n)
    ensures Inv(Node(n.disk, n.disk, {})) && Grows(n.mem, n.disk)
  {
    FrozenGrows(n.mem, n.disk);
  }

  lemma NameStepKeeps(n: Node, step: Step)
    requires Inv(n) && (step.Account? || step.Activity? || step.NewUsername? || step.NewIdentity?)
    ensures Inv(Next(n, step)) && Grows(n.mem, Next(n, step).mem)
  {
    match step
    case Account(w, now) =>
      if w !in n.mem.accounts {
        AccountsKeep(n.mem, n.mem.accounts[w := Meta(now, now)]);
        SettleKeeps(n, Done(RegisterAccount(n.mem, w, now)));
      }
    case Activity(w, now) =>
      if w in n.mem.accounts {
        AccountsKeep(n.mem, n.mem.accounts[w := n.mem.accounts[w].(lastActiveAt := now)]);
        SettleKeeps(n, Done(RecordActivity(n.mem, w, now)));
      }
    case NewUsername(name, w, id, now) =>
      RegisterUsernameKeeps(n.mem, name, w, id, now);
      SettleKeeps(n, RegisterUsername(n.mem, name, w, id, now));
    case NewIdentity(w, id, proven, now) =>
      if id !in n.mem.roots {
        RegisterIdentityKeeps(n.mem, w, id, proven, now);
        SettleKeeps(n, RegisterIdentity(n.mem, w, id, proven, now));
      }
  }

  lemma RootStepKeeps(n: Node, step: Step)
    requires Inv(n) && (step.NewCertificate? || step.NewPasskey?)
    ensures Inv(Next(n, step)) && Grows(n.mem, Next(n, step).mem)
  {
    match step
    case NewCertificate(w, cert, now) =>
      RegisterCertificateKeeps(n.mem, w, cert, now);
      SettleKeeps(n, RegisterCertificate(n.mem, w, cert, now));
    case NewPasskey(w, id, p, signed) =>
      RegisterPasskeyKeeps(n.mem, w, id, p, signed);
      SettleKeeps(n, RegisterPasskey(n.mem, w, id, p, signed));
  }

  lemma SignedStepKeeps(n: Node, step: Step)
    requires Inv(n) && (step.NewSshKey? || step.NewRevocation?)
    ensures Inv(Next(n, step)) && Grows(n.mem, Next(n, step).mem)
  {
    match step
    case NewSshKey(w, id, key, signed) =>
      RegisterSshKeyKeeps(n.mem, w, id, key, signed);
      SettleKeeps(n, RegisterSshKey(n.mem, w, id, key, signed));
    case NewRevocation(w, id, revoked, sequence, valid, now) =>
      RevokeKeeps(n.mem, w, id, revoked, sequence, valid, now);
      SettleKeeps(n, Revoke(n.mem, w, id, revoked, sequence, valid, now));
  }

  lemma PasskeyCommitKeeps(n: Node, flight: InFlight, verified: bool, counter: int, now: int)
    requires Inv(n) && flight in n.flights && flight.auth.ByPasskey?
    ensures var n' := Settle(n, CommitPasskey(n.mem, flight.certificate, flight.auth.credential, verified, counter, now));
            Inv(n') && Grows(n.mem, n'.mem)
  {
    assert FlightOk(n.mem, flight);
    var o := CommitPasskey(n.mem, flight.certificate, flight.auth.credential, verified, counter, now);
    CommitPasskeyKeeps(n.mem, flight.certificate, flight.auth.credential, verified, counter, now);
    if o.Threw? {
      CommitPasskeyFrozen(n.mem, flight.certificate, flight.auth.credential, verified, counter, now);
    }
    SettleKeeps(n, o);
  }

  lemma BeginStepKeeps(n: Node, id: Identity, cert: Certificate, challenge: string, now: int)
    requires Inv(n)
    ensures var n' := Settle(n, BeginPasskey(n.mem, id, cert, challenge, now)); Inv(n') && Grows(n.mem, n'.mem)
  {
    BeginPasskeyKeeps(n.mem, id, cert, challenge, now);
    SettleKeeps(n, BeginPasskey(n.mem, id, cert, challenge, now));
  }

  lemma SshCommitKeeps(n: Node, flight: InFlight, now: int)
    requires Inv(n) && flight in n.flights && flight.auth.BySsh?
    ensures var n' := Settle(n, CommitSsh(n.mem, flight.certificate, flight.auth.fingerprint, now)); Inv(n') && Grows(n.mem, n'.mem)
  {
    assert FlightOk(n.mem, flight);
    CommitSshKeeps(n.mem, flight.certificate, flight.auth.fingerprint, now);
    SettleKeeps(n, CommitSsh(n.mem, flight.certificate, flight.auth.fingerprint, now));
  }

  lemma CheckStepKeeps(n: Node, step: Step)
    requires Inv(n) && (step.PasskeyCheck? || step.SshCheck?)
    ensures Inv(Next(n, step)) && Grows(n.mem, Next(n, step).mem)
  {
    match step
    case PasskeyCheck(id, cert, credential, expected, now) =>
      DepartKeeps(n, CheckPasskey(n.mem, id, cert, credential, expected, now));
    case SshCheck(id, cert, fingerprint, now) =>
      DepartKeeps(n, CheckSsh(n.mem, id, cert, fingerprint, now));
  }

  lemma NextKeeps(n: Node, step: Step)
    requires Inv(n)
    ensures Inv(Next(n, step)) && Grows(n.mem, Next(n, step).mem)
  {
    if step.Restart? {
      RestartKeeps(n);
      if ChainFile.Writes(n.disk, step.file) {
        RestartForm(n, step.file);
      }
    } else if step.Account? || step.Activity? || step.NewUsername? || step.NewIdentity? {
      NameStepKeeps(n, step);
    } else if step.NewCertificate? || step.NewPasskey? {
      RootStepKeeps(n, step);
    } else if step.NewSshKey? || step.NewRevocation? {
      SignedStepKeeps(n, step);
    } else if step.PasskeyCheck? || step.SshCheck? {
      CheckStepKeeps(n, step);
    } else if step.Begin? {
      BeginStepKeeps(n, step.id, step.certificate, step.challenge, step.now);
    } else if step.PasskeyCommit? {
      if step.flight in n.flights && step.flight.auth.ByPasskey? {
        PasskeyCommitKeeps(n, step.flight, step.verified, step.counter, step.now);
      }
    } else {
      if step.flight in n.flights && step.flight.auth.BySsh? {
        SshCommitKeeps(n, step.flight, step.now);
      }
    }
  }

  lemma {:induction false} RunKeeps(n: Node, steps: seq<Step>)
    requires Inv(n)
    ensures Inv(Run(n, steps)) && Grows(n.mem, Run(n, steps).mem)
    decreases |steps|
  {
    if steps != [] {
      NextKeeps(n, steps[0]);
      RunKeeps(Next(n, steps[0]), steps[1..]);
      GrowsThrough(n.mem, Next(n, steps[0]).mem, Run(n, steps).mem);
    }
  }

  lemma FreshInv()
    ensures Inv(Fresh())
  {
    forall id ensures KeysOk(EmptyChain(), id) {
      assert PendingOf(EmptyChain().pending, id) == {};
    }
  }

  ghost predicate Reachable(n: Node) {
    exists steps :: n == Run(Fresh(), steps)
  }

  lemma ReachableInv(n: Node)
    requires Reachable(n)
    ensures Inv(n)
  {
    var steps :| n == Run(Fresh(), steps);
    FreshInv();
    RunKeeps(Fresh(), steps);
  }

  // ---- Main results ----

  /** In every reachable state the two username indexes are inverse, and each name is held by the last
      wallet in its history. */
  lemma IndexesInverse(n: Node, name: string, w: Wallet)
    requires Reachable(n)
    ensures (w in n.mem.walletToUsername && n.mem.walletToUsername[w] == name) <==>
            (name in n.mem.usernames && n.mem.usernames[name].owner == w)
    ensures name in n.mem.usernames ==>
              && name in n.mem.history && n.mem.history[name] != []
              && n.mem.usernames[name] == n.mem.history[name][|n.mem.history[name]| - 1]
  {
    ReachableInv(n);
    assert NameOk(n.mem, name) && WalletOk(n.mem, w);
  }

  /** A bound root never changes, whatever follows, restarts included. */
  lemma RootNeverChanges(n: Node, steps: seq<Step>, id: Identity)
    requires Reachable(n) && id in n.mem.roots
    ensures id in Run(n, steps).mem.roots && Run(n, steps).mem.roots[id] == n.mem.roots[id]
  {
    ReachableInv(n);
    RunKeeps(n, steps);
  }

  /** In every reachable state, restoring what persist would write gives back the state itself. */
  lemma RestoreIsIdentity(n: Node, file: ChainFile.File)
    requires Reachable(n) && ChainFile.Writes(n.mem, file)
    ensures ChainFile.Restored(file) == n.mem
  {
    ReachableInv(n);
    ChainFile.RestorePersist(n.mem, file);
  }

  /** A certificate resolves exactly when it is registered, inside its window, its device is not revoked and
      what vouches for it still stands: the bound root's signature, or an unrevoked registered key. */
  lemma ResolvesIff(n: Node, id: Identity, d: Device, now: int)
    requires Reachable(n)
    ensures Resolve(n.mem, id, d, now).Some? <==>
            && (id, d) in n.mem.certificates && (id, d) in n.mem.authorizations
            && n.mem.certificates[(id, d)].issuedAt <= now < n.mem.certificates[(id, d)].expiresAt
            && !Revoked(n.mem, id, OfDevice(d))
            && match n.mem.authorizations[(id, d)]
               case ByRoot => id in n.mem.roots && n.mem.certificates[(id, d)].signer == Some(n.mem.roots[id])
               case BySsh(f) => HasSshKey(SshKeysOf(n.mem, id), f) && !Revoked(n.mem, id, OfSsh(f))
               case ByPasskey(p) => HasPasskey(PasskeysOf(n.mem, id), p) && !Revoked(n.mem, id, OfPasskey(p))
  {
    ReachableInv(n);
    assert CertificateOk(n.mem, (id, d));
  }

  // ---- The gateway ----

  datatype Session = Session(identity: Identity, device: Device, expiresAt: int)

  datatype Authentication = Authentication(sessions: map<string, Session>, certificate: Option<Certificate>)

  /** A session that has expired, or whose certificate no longer resolves, is ended. */
  function Authenticate(sessions: map<string, Session>, c: Chain, token: string, now: int): Authentication {
    if token !in sessions then Authentication(sessions, None)
    else if sessions[token].expiresAt <= now then Authentication(sessions - {token}, None)
    else
      match Resolve(c, sessions[token].identity, sessions[token].device, now)
      case None => Authentication(sessions - {token}, None)
      case Some(cert) => Authentication(sessions, Some(cert))
  }

  /** What a certificate in force rests on. */
  function RestsOn(c: Chain, id: Identity, d: Device): set<Credential> {
    {OfDevice(d)} +
    if (id, d) !in c.authorizations then {}
    else
      match c.authorizations[(id, d)]
      case ByRoot => {}
      case BySsh(f) => {OfSsh(f)}
      case ByPasskey(p) => {OfPasskey(p)}
  }

  /** Revocation is permanent and transitive: once a credential of an account has been revoked, no later
      authentication, in whatever follows, succeeds through a certificate that rests on it. */
  lemma NothingThroughRevoked(n: Node, steps: seq<Step>, sessions: map<string, Session>, token: string, now: int, credential: Credential)
    requires Reachable(n) && token in sessions && Revoked(n.mem, sessions[token].identity, credential)
    ensures var later := Run(n, steps).mem;
            && Revoked(later, sessions[token].identity, credential)
            && (Authenticate(sessions, later, token, now).certificate.Some? ==>
                  credential !in RestsOn(later, sessions[token].identity, sessions[token].device))
  {
    ReachableInv(n);
    RunKeeps(n, steps);
  }

  // ---- Memory and the file ----

  /** In every reachable state memory and the file differ at most in passkey counters and waiting challenges. */
  lemma DiskBehindOnlyInCounters(n: Node)
    requires Reachable(n)
    ensures Frozen(n.mem) == Frozen(n.disk)
  {
    ReachableInv(n);
  }

  /** The calls that change memory and then throw: a challenge refused at the limit after others were pruned, and
      a verified assertion with a moved counter for a device authorised differently. */
  predicate RunsAhead(n: Node, step: Step) {
    match step
    case Begin(id, cert, challenge, now) =>
      PruningRefused(n.mem, id, cert, now)
    case PasskeyCommit(flight, verified, counter, now) =>
      flight in n.flights && flight.auth.ByPasskey? && CounterMoves(n.mem, flight, verified, counter, now)
    case _ => false
  }

  lemma CountedSame(ps: seq<Passkey>, credential: string, counter: int)
    ensures Counted(ps, credential, counter) == ps <==>
            forall i :: 0 <= i < |ps| && ps[i].credential == credential ==> ps[i].counter == counter
  {
    var r := Counted(ps, credential, counter);
    if r == ps {
      forall i | 0 <= i < |ps| && ps[i].credential == credential ensures ps[i].counter == counter {
        assert r[i] == ps[i];
      }
    }
  }

  /** The guard of the throw that leaves a moved counter behind. */
  predicate CounterMoves(c: Chain, flight: InFlight, verified: bool, counter: int, now: int)
    requires flight.auth.ByPasskey?
  {
    && verified && Conflicts(c, flight.certificate, flight.auth, now)
    && exists i :: 0 <= i < |PasskeysOf(c, flight.certificate.account)| &&
         PasskeysOf(c, flight.certificate.account)[i].credential == flight.auth.credential &&
         PasskeysOf(c, flight.certificate.account)[i].counter != counter
  }

  lemma CommitMoves(c: Chain, flight: InFlight, verified: bool, counter: int, now: int)
    requires flight.auth.ByPasskey?
    ensures var o := CommitPasskey(c, flight.certificate, flight.auth.credential, verified, counter, now);
            o.Threw? && o.chain != c <==> CounterMoves(c, flight, verified, counter, now)
  {
    var id, p := flight.certificate.account, flight.auth.credential;
    CountedSame(PasskeysOf(c, id), p, counter);
    if id in c.passkeys {
      var counted := Counted(c.passkeys[id], p, counter);
      assert c.passkeys[id := counted][id] == counted;
      assert counted == c.passkeys[id] ==> c.passkeys[id := counted] == c.passkeys;
    }
  }

  lemma CommitAhead(n: Node, flight: InFlight, verified: bool, counter: int, now: int)
    requires n.mem == n.disk && flight in n.flights && flight.auth.ByPasskey?
    ensures var n' := Next(n, PasskeyCommit(flight, verified, counter, now));
            n'.mem == n'.disk <==> !RunsAhead(n, PasskeyCommit(flight, verified, counter, now))
  {
    CommitMoves(n.mem, flight, verified, counter, now);
    SettleAgrees(n, CommitPasskey(n.mem, flight.certificate, flight.auth.credential, verified, counter, now));
  }

  lemma SettleAgrees(n: Node, o: Outcome)
    requires n.mem == n.disk
    ensures Settle(n, o).mem == Settle(n, o).disk <==> !(o.Threw? && o.chain != n.mem)
  {
  }

  predicate SomeExpired(pending: map<(Identity, Device), Pending>, now: int) {
    exists k :: k in pending && pending[k].expiresAt <= now
  }

  lemma PrunedSame(pending: map<(Identity, Device), Pending>, now: int)
    ensures Pruned(pending, now) == pending <==> !SomeExpired(pending, now)
  {
    if k :| k in pending && pending[k].expiresAt <= now {
      assert k !in Pruned(pending, now);
    }
  }

  /** The guard of the throw that leaves pruned challenges behind: every check before the limit passes, the identity is
      at its limit after pruning, this device is not among those waiting, and something was pruned. */
  predicate PruningRefused(c: Chain, id: Identity, cert: Certificate, now: int) {
    && id in c.roots && ShapeValid(cert, id, now) && HasLivePasskey(c, id) && !Revoked(c, id, OfDevice(cert.device))
    && |PendingOf(Pruned(c.pending, now), id)| >= MAX_PENDING && (id, cert.device) !in Pruned(c.pending, now)
    && SomeExpired(c.pending, now)
  }

  lemma BeginMoves(c: Chain, id: Identity, cert: Certificate, challenge: string, now: int)
    ensures var o := BeginPasskey(c, id, cert, challenge, now);
            o.Threw? && o.chain != c <==> PruningRefused(c, id, cert, now)
  {
    PrunedSame(c.pending, now);
    assert c.(pending := Pruned(c.pending, now)) == c <==> Pruned(c.pending, now) == c.pending;
  }

  lemma BeginAhead(n: Node, id: Identity, cert: Certificate, challenge: string, now: int)
    requires n.mem == n.disk
    ensures var n' := Next(n, Begin(id, cert, challenge, now));
            n'.mem == n'.disk <==> !RunsAhead(n, Begin(id, cert, challenge, now))
  {
    BeginMoves(n.mem, id, cert, challenge, now);
    SettleAgrees(n, BeginPasskey(n.mem, id, cert, challenge, now));
  }

  lemma OthersAgree(n: Node, step: Step)
    requires n.mem == n.disk && !step.Begin? && !step.PasskeyCommit? && !step.Restart?
    ensures Next(n, step).mem == Next(n, step).disk
  {
  }

  /** From agreement, a call leaves memory and file in agreement exactly when it is not one of those. */
  lemma AheadIff(n: Node, step: Step)
    requires Reachable(n) && n.mem == n.disk
    ensures Next(n, step).mem == Next(n, step).disk <==> !RunsAhead(n, step)
  {
    if step.Begin? {
      BeginAhead(n, step.id, step.certificate, step.challenge, step.now);
    } else if step.PasskeyCommit? {
      if step.flight in n.flights && step.flight.auth.ByPasskey? {
        CommitAhead(n, step.flight, step.verified, step.counter, step.now);
      }
    } else if step.Restart? {
      if ChainFile.Writes(n.disk, step.file) {
        ReachableInv(n);
        RestartForm(n, step.file);
      }
    } else {
      OthersAgree(n, step);
    }
  }

  lemma {:induction false} RunSnoc(n: Node, steps: seq<Step>, step: Step)
    ensures Run(n, steps + [step]) == Next(Run(n, steps), step)
    decreases |steps|
  {
    if steps != [] {
      assert (steps + [step])[1..] == steps[1..] + [step];
      RunSnoc(Next(n, steps[0]), steps[1..], step);
    }
  }

  lemma ReachableNext(n: Node, step: Step)
    requires Reachable(n)
    ensures Reachable(Next(n, step))
  {
    var steps :| n == Run(Fresh(), steps);
    RunSnoc(Fresh(), steps, step);
  }

  /** An account with one passkey and one device that its root authorised. */
  function Example(counter: int): Chain {
    var id := FromWallet(0);
    EmptyChain().(accounts := map[0 := Meta(0, 0)], roots := map[id := 0],
                  passkeys := map[id := [Passkey("p", 1, counter, "o")]],
                  certificates := map[(id, 7) := ExampleCertificate()], authorizations := map[(id, 7) := ByRoot])
  }

  function ExampleCertificate(): Certificate {
    Certificate(FromWallet(0), 7, 1, 2, 0, 100, 0, Some(0))
  }

  function ExampleIdentity(): Chain {
    EmptyChain().(accounts := map[0 := Meta(0, 0)], roots := map[FromWallet(0) := 0])
  }

  function ExamplePasskey(): Chain {
    ExampleIdentity().(passkeys := map[FromWallet(0) := [Passkey("p", 1, 0, "o")]])
  }

  lemma ExampleRegistered()
    ensures Next(Fresh(), NewIdentity(0, FromWallet(0), true, 0)) == Node(ExampleIdentity(), ExampleIdentity(), {})
  {
  }

  lemma ExampleEnrolled()
    ensures Next(Node(ExampleIdentity(), ExampleIdentity(), {}), NewPasskey(0, FromWallet(0), Passkey("p", 1, 0, "o"), true)) ==
            Node(ExamplePasskey(), ExamplePasskey(), {})
  {
    var p := Passkey("p", 1, 0, "o");
    assert |p.credential| == 1 && |p.origin| == 1 && PasskeysOf(ExampleIdentity(), FromWallet(0)) + [p] == [p];
  }

  lemma ExampleCertified()
    ensures Next(Node(ExamplePasskey(), ExamplePasskey(), {}), NewCertificate(0, ExampleCertificate(), 0)) ==
            Node(Example(0), Example(0), {})
  {
  }

  lemma ExampleReachable()
    ensures Reachable(Node(Example(0), Example(0), {}))
  {
    assert Run(Fresh(), []) == Fresh();
    ExampleRegistered();
    ReachableNext(Fresh(), NewIdentity(0, FromWallet(0), true, 0));
    ExampleEnrolled();
    ReachableNext(Node(ExampleIdentity(), ExampleIdentity(), {}), NewPasskey(0, FromWallet(0), Passkey("p", 1, 0, "o"), true));
    ExampleCertified();
    ReachableNext(Node(ExamplePasskey(), ExamplePasskey(), {}), NewCertificate(0, ExampleCertificate(), 0));
  }

  lemma ExampleChecked()
    ensures var flight := InFlight(ExampleCertificate(), ByPasskey("p"));
            Next(Node(Example(0), Example(0), {}), PasskeyCheck(FromWallet(0), ExampleCertificate(), "p", Some("c"), 0)) ==
            Node(Example(0), Example(0), {flight})
  {
    assert PasskeysOf(Example(0), FromWallet(0))[0].credential == "p";
  }

  lemma ExampleRefused()
    ensures var flight := InFlight(ExampleCertificate(), ByPasskey("p"));
            Next(Node(Example(0), Example(0), {flight}), PasskeyCommit(flight, true, 5, 0)) == Node(Example(5), Example(0), {flight})
  {
    assert Counted([Passkey("p", 1, 0, "o")], "p", 5) == [Passkey("p", 1, 5, "o")];
  }

  /** A run of five calls after which the counter in memory is 5 and the counter in the file is 0, so a
      restart forgets that memory had moved past counters 0 to 4. */
  lemma CounterRunsAhead()
    ensures exists n :: Reachable(n) && n.mem == Example(5) && n.disk == Example(0)
  {
    var flight := InFlight(ExampleCertificate(), ByPasskey("p"));
    var n3 := Node(Example(0), Example(0), {});
    ExampleReachable();
    ExampleChecked();
    ReachableNext(n3, PasskeyCheck(FromWallet(0), ExampleCertificate(), "p", Some("c"), 0));
    ExampleRefused();
    ReachableNext(Node(Example(0), Example(0), {flight}), PasskeyCommit(flight, true, 5, 0));
    assert Reachable(Node(Example(5), Example(0), {flight}));
  }
}
