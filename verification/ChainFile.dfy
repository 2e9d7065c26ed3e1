/**
 The state file of packages/client/src/chain-stub.ts: what `persist` writes, what `restore` rebuilds,
 and the client object whose methods do both. A file holds lists, in any order; the wallet index is
 not in it, and SSH keys are stored without their algorithm.
 */
module ChainFile {

  import opened Basics
  import opened ChainStub

  datatype StoredKey = StoredKey(publicKey: Key, fingerprint: string)

  datatype File = File(
    accounts: seq<(Wallet, Meta)>,
    usernames: seq<Username>,
    history: seq<(string, seq<Username>)>,
    roots: seq<(Identity, Wallet)>,
    certificates: seq<Certificate>,
    passkeys: seq<(Identity, seq<Passkey>)>,
    pending: seq<((Identity, Device), Pending)>,
    sshKeys: seq<(Identity, seq<StoredKey>)>,
    revocations: seq<((Identity, Credential), int)>,
    sequences: seq<(Identity, int)>,
    authorizations: seq<((Identity, Device), Authorization)>)

  // ---- Writing ----

  function Strip(ks: seq<SshKey>): seq<StoredKey> {
    seq(|ks|, i requires 0 <= i < |ks| => StoredKey(ks[i].publicKey, ks[i].fingerprint))
  }

  function Dress(ks: seq<StoredKey>): seq<SshKey> {
    seq(|ks|, i requires 0 <= i < |ks| => SshKey(ED25519, ks[i].publicKey, ks[i].fingerprint))
  }

  function StripAll(m: map<Identity, seq<SshKey>>): map<Identity, seq<StoredKey>> {
    map id | id in m :: Strip(m[id])
  }

  /** `f` is a file that persisting `c` may write. Usernames and certificates are written without their keys. */
  ghost predicate Writes(c: Chain, f: File) {
    && Lists(f.accounts, c.accounts)
    && Values(f.usernames, c.usernames)
    && Lists(f.history, c.history)
    && Lists(f.roots, c.roots)
    && Values(f.certificates, c.certificates)
    && Lists(f.passkeys, c.passkeys)
    && Lists(f.pending, c.pending)
    && Lists(f.sshKeys, StripAll(c.sshKeys))
    && Lists(f.revocations, c.revocations)
    && Lists(f.sequences, c.sequences)
    && Lists(f.authorizations, c.authorizations)
  }

  // ---- Reading ----

  function NameEntries(rs: seq<Username>): seq<(string, Username)> {
    seq(|rs|, i requires 0 <= i < |rs| => (rs[i].username, rs[i]))
  }

  function WalletEntries(rs: seq<Username>): seq<(Wallet, string)> {
    seq(|rs|, i requires 0 <= i < |rs| => (rs[i].owner, rs[i].username))
  }

  function CertificateEntries(cs: seq<Certificate>): seq<((Identity, Device), Certificate)> {
    seq(|cs|, i requires 0 <= i < |cs| => ((cs[i].account, cs[i].device), cs[i]))
  }

  function KeyEntries(es: seq<(Identity, seq<StoredKey>)>): seq<(Identity, seq<SshKey>)> {
    seq(|es|, i requires 0 <= i < |es| => (es[i].0, Dress(es[i].1)))
  }

  function RootsFrom(rs: seq<Username>, roots: map<Identity, Wallet>): map<Identity, Wallet>
    decreases |rs|
  {
    if rs == [] then roots else RootsFrom(rs[1..], roots[rs[0].identity := rs[0].owner])
  }

  function RootsFromHistory(h: seq<(string, seq<Username>)>, roots: map<Identity, Wallet>): map<Identity, Wallet>
    decreases |h|
  {
    if h == [] then roots else RootsFromHistory(h[1..], RootsFrom(h[0].1, roots))
  }

  /** When the file binds no roots they are rebuilt from the username history. */
  function RestoredRoots(f: File): map<Identity, Wallet> {
    if |MapOf(f.roots)| == 0 then RootsFromHistory(f.history, map[]) else MapOf(f.roots)
  }

  function Restored(f: File): Chain {
    Chain(
      MapOf(f.accounts),
      MapOf(NameEntries(f.usernames)),
      MapOf(WalletEntries(f.usernames)),
      MapOf(f.history),
      RestoredRoots(f),
      MapOf(CertificateEntries(f.certificates)),
      MapOf(f.authorizations),
      MapOf(f.passkeys),
      MapOf(f.pending),
      MapOf(KeyEntries(f.sshKeys)),
      MapOf(f.revocations),
      MapOf(f.sequences))
  }

  // ---- The round trip ----

  lemma NamesRoundTrip(c: Chain, rs: seq<Username>)
    requires NamesOk(c) && Values(rs, c.usernames)
    ensures MapOf(NameEntries(rs)) == c.usernames
  {
    var es := NameEntries(rs);
    forall i | 0 <= i < |es| ensures es[i].0 in c.usernames && c.usernames[es[i].0] == es[i].1 {
      assert rs[i] in c.usernames.Values;
      var n :| n in c.usernames && c.usernames[n] == rs[i];
      assert NameOk(c, n);
    }
    forall n | n in c.usernames ensures (n, c.usernames[n]) in es {
      assert NameOk(c, n);
      var i :| 0 <= i < |rs| && rs[i] == c.usernames[n];
      assert es[i] == (n, c.usernames[n]);
    }
    MapOfLists(es, c.usernames);
  }

  /** The wallet index is not stored: rebuilding it from the usernames gives it back. */
  lemma WalletsRoundTrip(c: Chain, rs: seq<Username>)
    requires NamesOk(c) && Values(rs, c.usernames)
    ensures MapOf(WalletEntries(rs)) == c.walletToUsername
  {
    var es := WalletEntries(rs);
    forall i | 0 <= i < |es| ensures es[i].0 in c.walletToUsername && c.walletToUsername[es[i].0] == es[i].1 {
      assert rs[i] in c.usernames.Values;
      var n :| n in c.usernames && c.usernames[n] == rs[i];
      assert NameOk(c, n);
    }
    forall w | w in c.walletToUsername ensures (w, c.walletToUsername[w]) in es {
      assert WalletOk(c, w);
      var n := c.walletToUsername[w];
      assert NameOk(c, n);
      var i :| 0 <= i < |rs| && rs[i] == c.usernames[n];
      assert es[i] == (w, n);
    }
    MapOfLists(es, c.walletToUsername);
  }

  lemma CertificatesRoundTrip(c: Chain, cs: seq<Certificate>)
    requires CredentialsOk(c) && Values(cs, c.certificates)
    ensures MapOf(CertificateEntries(cs)) == c.certificates
  {
    var es := CertificateEntries(cs);
    forall i | 0 <= i < |es| ensures es[i].0 in c.certificates && c.certificates[es[i].0] == es[i].1 {
      assert cs[i] in c.certificates.Values;
      var k :| k in c.certificates && c.certificates[k] == cs[i];
      assert CertificateOk(c, k);
    }
    forall k | k in c.certificates ensures (k, c.certificates[k]) in es {
      assert CertificateOk(c, k);
      var i :| 0 <= i < |cs| && cs[i] == c.certificates[k];
      assert es[i] == (k, c.certificates[k]);
    }
    MapOfLists(es, c.certificates);
  }

  lemma KeysRoundTrip(c: Chain, es: seq<(Identity, seq<StoredKey>)>)
    requires CredentialsOk(c) && Lists(es, StripAll(c.sshKeys))
    ensures MapOf(KeyEntries(es)) == c.sshKeys
  {
    var ks := KeyEntries(es);
    forall id | id in c.sshKeys ensures Dress(Strip(c.sshKeys[id])) == c.sshKeys[id] {
      assert KeysOk(c, id);
      assert SshKeysOf(c, id) == c.sshKeys[id];
    }
    forall id | id in c.sshKeys ensures (id, c.sshKeys[id]) in ks {
      assert id in StripAll(c.sshKeys);
      var i :| 0 <= i < |es| && es[i] == (id, StripAll(c.sshKeys)[id]);
      assert ks[i] == (id, c.sshKeys[id]);
    }
    MapOfLists(ks, c.sshKeys);
  }

  lemma {:induction false} NothingFromNothing(h: seq<(string, seq<Username>)>, roots: map<Identity, Wallet>)
    requires forall i :: 0 <= i < |h| ==> h[i].1 == []
    ensures RootsFromHistory(h, roots) == roots
    decreases |h|
  {
    if h != [] {
      NothingFromNothing(h[1..], roots);
    }
  }

  lemma HistoryBound(c: Chain, n: string, i: nat)
    requires HistoryOk(c, n) && n in c.history && i < |c.history[n]|
    ensures |c.roots| > 0
  {
    assert c.history[n][i].identity in c.roots;
  }

  /** The fallback changes nothing: a chain without roots has no history to rebuild them from. */
  lemma RootsRoundTrip(c: Chain, f: File)
    requires NamesOk(c) && Lists(f.history, c.history) && Lists(f.roots, c.roots)
    ensures RestoredRoots(f) == c.roots == MapOf(f.roots)
  {
    MapOfLists(f.roots, c.roots);
    if |c.roots| == 0 {
      forall i | 0 <= i < |f.history| ensures f.history[i].1 == [] {
        var n := f.history[i].0;
        assert HistoryOk(c, n) && c.history[n] == f.history[i].1;
        if c.history[n] != [] {
          HistoryBound(c, n, 0);
        }
      }
      NothingFromNothing(f.history, map[]);
    }
  }

  /** Restoring what persist wrote gives back the same chain. */
  lemma RestorePersist(c: Chain, f: File)
    requires ChainOk(c) && Writes(c, f)
    ensures Restored(f) == c
  {
    MapOfLists(f.accounts, c.accounts);
    NamesRoundTrip(c, f.usernames);
    WalletsRoundTrip(c, f.usernames);
    MapOfLists(f.history, c.history);
    RootsRoundTrip(c, f);
    CertificatesRoundTrip(c, f.certificates);
    MapOfLists(f.authorizations, c.authorizations);
    MapOfLists(f.passkeys, c.passkeys);
    MapOfLists(f.pending, c.pending);
    KeysRoundTrip(c, f.sshKeys);
    MapOfLists(f.revocations, c.revocations);
    MapOfLists(f.sequences, c.sequences);
  }

  // ---- The client object ----

  class DevChain {
    var accounts: map<Wallet, Meta>
    var usernames: map<string, Username>
    var walletToUsername: map<Wallet, string>
    var history: map<string, seq<Username>>
    var roots: map<Identity, Wallet>
    var certificates: map<(Identity, Device), Certificate>
    var authorizations: map<(Identity, Device), Authorization>
    var passkeys: map<Identity, seq<Passkey>>
    var pending: map<(Identity, Device), Pending>
    var sshKeys: map<Identity, seq<SshKey>>
    var revocations: map<(Identity, Credential), int>
    var sequences: map<Identity, int>
    var file: File

    ghost function View(): Chain
      reads this
    {
      Chain(accounts, usernames, walletToUsername, history, roots, certificates, authorizations, passkeys, pending,
            sshKeys, revocations, sequences)
    }

    method Persist()
      modifies this`file
      ensures Writes(View(), file)
    {
      var names := ValuesOf(usernames);
      var certs := ValuesOf(certificates);
      var stripped := map id | id in sshKeys :: Strip(sshKeys[id]);
      var es1 := EntriesOf(accounts);
      var es2 := EntriesOf(history);
      var es3 := EntriesOf(roots);
      var es4 := EntriesOf(passkeys);
      var es5 := EntriesOf(pending);
      var es6 := EntriesOf(stripped);
      var es7 := EntriesOf(revocations);
      var es8 := EntriesOf(sequences);
      var es9 := EntriesOf(authorizations);
      file := File(es1, names, es2, es3, certs, es4, es5, es6, es7, es8, es9);
    }

    /** Memory is rebuilt from a file. */
    method Restore(f: File)
      modifies this
      ensures var c := Restored(f);
              && accounts == c.accounts && usernames == c.usernames && walletToUsername == c.walletToUsername
              && history == c.history && roots == c.roots && certificates == c.certificates
              && authorizations == c.authorizations && passkeys == c.passkeys && pending == c.pending
              && sshKeys == c.sshKeys && revocations == c.revocations && sequences == c.sequences && file == f
    {
      file := f;
      RestoreCredentials(f);
      RestoreNames(f);
    }

    method RestoreCredentials(f: File)
      modifies this`certificates, this`passkeys, this`pending, this`sshKeys, this`revocations, this`sequences, this`authorizations
      ensures certificates == MapOf(CertificateEntries(f.certificates))
      ensures passkeys == MapOf(f.passkeys) && pending == MapOf(f.pending) && sshKeys == MapOf(KeyEntries(f.sshKeys))
      ensures revocations == MapOf(f.revocations) && sequences == MapOf(f.sequences) && authorizations == MapOf(f.authorizations)
    {
      certificates := MapOf(CertificateEntries(f.certificates));
      passkeys := MapOf(f.passkeys);
      pending := MapOf(f.pending);
      sshKeys := MapOf(KeyEntries(f.sshKeys));
      revocations := MapOf(f.revocations);
      sequences := MapOf(f.sequences);
      authorizations := MapOf(f.authorizations);
    }

    method RestoreNames(f: File)
      modifies this`accounts, this`usernames, this`walletToUsername, this`history, this`roots
      ensures accounts == MapOf(f.accounts) && history == MapOf(f.history) && roots == RestoredRoots(f)
      ensures usernames == MapOf(NameEntries(f.usernames)) && walletToUsername == MapOf(WalletEntries(f.usernames))
    {
      accounts := MapOf(f.accounts);
      usernames := MapOf(NameEntries(f.usernames));
      history := MapOf(f.history);
      roots := MapOf(f.roots);
      if |roots| == 0 {
        RebuildRoots(f.history);
      }
      walletToUsername := MapOf(WalletEntries(f.usernames));
    }

    method RebuildRoots(h: seq<(string, seq<Username>)>)
      requires roots == map[]
      modifies this`roots
      ensures roots == RootsFromHistory(h, map[])
    {
      var i := 0;
      while i < |h|
        invariant 0 <= i <= |h|
        invariant RootsFromHistory(h[i..], roots) == RootsFromHistory(h, map[])
      {
        var j := 0;
        ghost var before := roots;
        while j < |h[i].1|
          invariant 0 <= j <= |h[i].1|
          invariant RootsFrom(h[i].1[j..], roots) == RootsFrom(h[i].1, before)
        {
          var record := h[i].1[j];
          roots := roots[record.identity := record.owner];
          j := j + 1;
        }
        i := i + 1;
      }
    }

    /** A name whose owner has been away long enough is released. */
    method ReleaseInactive(name: string, now: int) returns (free: bool)
      modifies this`usernames, this`walletToUsername
      ensures free == Obtainable(old(View()), name, now)
      ensures if free then usernames == old(usernames) - {name} else usernames == old(usernames)
      ensures walletToUsername ==
              if free && name in old(usernames) then old(walletToUsername) - {old(usernames)[name].owner} else old(walletToUsername)
    {
      if name in usernames {
        var owner := usernames[name].owner;
        if owner !in accounts || now - accounts[owner].lastActiveAt < INACTIVITY_RELEASE {
          return false;
        }
        usernames := usernames - {name};
        walletToUsername := walletToUsername - {owner};
      }
      return true;
    }

    /** A taken name is released first, and only a call that succeeds is persisted. */
    method RegisterUsernameFor(name: string, w: Wallet, id: Identity, now: int) returns (error: Option<Error>)
      modifies this`usernames, this`walletToUsername, this`roots, this`history, this`file
      ensures var o := RegisterUsername(old(View()), name, w, id, now);
              && usernames == o.chain.usernames && walletToUsername == o.chain.walletToUsername
              && roots == o.chain.roots && history == o.chain.history
              && error == (if o.Threw? then Some(o.error) else None)
              && (if o.Done? then Writes(View(), file) else file == old(file))
    {
      if w !in accounts {
        return Some(NotRegistered);
      }
      if now - accounts[w].createdAt < MIN_ACCOUNT_AGE {
        return Some(TooNew);
      }
      if w in walletToUsername {
        return Some(AlreadyOwns);
      }
      if id in roots && roots[id] != w {
        return Some(RootBound);
      }
      var free := ReleaseInactive(name, now);
      if !free {
        return Some(Taken);
      }
      Overwrite(old(usernames), name, Username(name, w, id, now));
      BindUsername(Username(name, w, id, now));
      Persist();
      return None;
    }

    method BindUsername(record: Username)
      modifies this`usernames, this`walletToUsername, this`roots, this`history
      ensures usernames == old(usernames)[record.username := record]
      ensures walletToUsername == old(walletToUsername)[record.owner := record.username]
      ensures roots == old(roots)[record.identity := record.owner]
      ensures history == old(history)[record.username :=
                (if record.username in old(history) then old(history)[record.username] else []) + [record]]
    {
      usernames := usernames[record.username := record];
      walletToUsername := walletToUsername[record.owner := record.username];
      roots := roots[record.identity := record.owner];
      var list := if record.username in history then history[record.username] else [];
      history := history[record.username := list + [record]];
    }

    /** Deletes what has expired and counts what is left for one identity. */
    method PrunePending(id: Identity, now: int) returns (live: nat)
      modifies this`pending
      ensures pending == Pruned(old(pending), now) && live == |PendingOf(pending, id)|
    {
      var todo := pending.Keys;
      ghost var kept: set<(Identity, Device)> := {};
      live := 0;
      while todo != {}
        invariant todo <= old(pending).Keys
        invariant forall k :: k in pending <==> k in old(pending) && (k in todo || old(pending)[k].expiresAt > now)
        invariant forall k :: k in pending ==> pending[k] == old(pending)[k]
        invariant kept == set k | k in pending && k !in todo && k.0 == id
        invariant live == |kept|
        decreases todo
      {
        var k :| k in todo;
        if pending[k].expiresAt <= now {
          pending := pending - {k};
        } else if k.0 == id {
          live := live + 1;
          kept := kept + {k};
        }
        todo := todo - {k};
      }
      assert kept == PendingOf(pending, id);
      assert pending == Pruned(old(pending), now);
    }

    /** At the limit the call throws with the expired challenges already gone from memory. */
    method BeginPasskeyFor(id: Identity, cert: Certificate, challenge: string, now: int) returns (error: Option<Error>)
      modifies this`pending, this`file
      ensures var o := BeginPasskey(old(View()), id, cert, challenge, now);
              && pending == o.chain.pending
              && error == (if o.Threw? then Some(o.error) else None)
              && (if o.Done? then Writes(View(), file) else file == old(file))
    {
      if id !in roots || !ShapeValid(cert, id, now) {
        return Some(InvalidCertificate);
      }
      var mine := if id in passkeys then passkeys[id] else [];
      var alive := exists i :: 0 <= i < |mine| && (id, OfPasskey(mine[i].credential)) !in revocations;
      assert mine == PasskeysOf(View(), id) && alive == HasLivePasskey(View(), id);
      if !alive {
        return Some(NoPasskey);
      }
      if (id, OfDevice(cert.device)) in revocations {
        return Some(DeviceRevoked);
      }
      var live := PrunePending(id, now);
      if live >= MAX_PENDING && (id, cert.device) !in pending {
        return Some(TooManyPending);
      }
      pending := pending[(id, cert.device) := Pending(challenge, cert, now + PENDING_LIFETIME)];
      Persist();
      return None;
    }

    /** The credential's counter moves before the conflict is looked for; a conflict throws without persisting. */
    method CommitPasskeyFor(cert: Certificate, credential: string, verified: bool, counter: int, now: int)
      returns (error: Option<Error>)
      modifies this`passkeys, this`certificates, this`authorizations, this`pending, this`file
      ensures var o := CommitPasskey(old(View()), cert, credential, verified, counter, now);
              && passkeys == o.chain.passkeys && certificates == o.chain.certificates
              && authorizations == o.chain.authorizations && pending == o.chain.pending
              && error == (if o.Threw? then Some(o.error) else None)
              && (if o.Done? then Writes(View(), file) else file == old(file))
    {
      if !verified {
        return Some(BadAssertion);
      }
      if cert.account in passkeys {
        passkeys := passkeys[cert.account := Counted(passkeys[cert.account], credential, counter)];
      }
      var k := (cert.account, cert.device);
      var auth := ByPasskey(credential);
      if k in certificates && certificates[k].expiresAt > now &&
         (certificates[k].signingKey != cert.signingKey || k !in authorizations || authorizations[k] != auth) {
        return Some(DeviceConflict);
      }
      certificates := certificates[k := cert];
      authorizations := authorizations[k := auth];
      pending := pending - {k};
      Persist();
      return None;
    }

    method RevokeCredential(w: Wallet, id: Identity, credential: Credential, sequence: int, valid: bool, now: int)
      returns (error: Option<Error>)
      modifies this`revocations, this`sequences, this`file
      ensures var o := Revoke(old(View()), w, id, credential, sequence, valid, now);
              && revocations == o.chain.revocations && sequences == o.chain.sequences
              && error == (if o.Threw? then Some(o.error) else None)
              && (if o.Done? then Writes(View(), file) else file == old(file))
    {
      if id !in roots || roots[id] != w {
        return Some(NotRoot);
      }
      if !valid || sequence < 1 || sequence > now + MAX_SEQUENCE_AHEAD {
        return Some(InvalidRevocation);
      }
      var last := if id in sequences then sequences[id] else 0;
      if sequence <= last {
        return Some(StaleSequence);
      }
      sequences := sequences[id := sequence];
      revocations := revocations[(id, credential) := sequence];
      Persist();
      return None;
    }
  }
}
