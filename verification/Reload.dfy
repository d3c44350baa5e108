/** The proxy's certificate reloader, reading a directory that a publisher changes.

    `timeline` gives the directory at every instant. A reload reads the certificate
    at one instant and the key at a later one; anything may happen in between. */
module Reload {
  import opened Wrappers
  import opened Publication

  type Timeline = nat -> Tls

  datatype Certificate = Certificate(chain: string, key: string)

  datatype Fingerprint<D> = Fingerprint(certificate: D, privateKey: D)

  /** What os.ReadFile returned: the file, or the text of its error. */
  datatype FileRead = Read(data: string) | Unreadable(cause: string)

  /** The two instants of a reload and what else may keep a file from being read then. */
  datatype Reads = Reads(certAt: nat, keyAt: nat, certFault: Option<string>, keyFault: Option<string>)

  const NOT_FOUND := "no such file or directory"

  function FileAt(timeline: Timeline, t: nat, file: string, fault: Option<string>): FileRead {
    match fault
    case Some(cause) => Unreadable(cause)
    case None =>
      var data := ReadCurrent(timeline(t), file);
      if data.None? then Unreadable(NOT_FOUND) else Read(data.value)
  }

  /** No two different files have the same digest. */
  ghost predicate CollisionFree<D>(digest: string -> D) {
    forall a, b :: digest(a) == digest(b) ==> a == b
  }

  class CertificateReloader<D(==, 0)> {
    const digest: string -> D
    const x509KeyPair: Matcher
    /** The text of the error for a pair that does not load. */
    const parseError: (string, string) -> string
    const certPath: string
    const keyPath: string
    ghost const timeline: Timeline
    var files: Fingerprint<D>
    var certificate: Option<Certificate>
    var lastFailure: string
    /** When the files of the served certificate were last seen in the directory. */
    ghost var certSeen: nat
    ghost var keySeen: nat
    ghost var clock: nat

    /** The served certificate has its own key; both were published when last seen. */
    ghost predicate Valid()
      reads this
    {
      certSeen <= keySeen <= clock &&
      (certificate.Some? ==>
         x509KeyPair(certificate.value.chain, certificate.value.key) &&
         files == Fingerprint(digest(certificate.value.chain), digest(certificate.value.key)) &&
         ReadCurrent(timeline(certSeen), FULLCHAIN) == Some(certificate.value.chain) &&
         ReadCurrent(timeline(keySeen), PRIVKEY) == Some(certificate.value.key))
    }

    ghost predicate InOrder(r: Reads)
      reads this
    {
      clock <= r.certAt <= r.keyAt
    }

    /** What a reload reads at its two instants. */
    ghost function CertRead(r: Reads): FileRead {
      FileAt(timeline, r.certAt, FULLCHAIN, r.certFault)
    }

    ghost function KeyRead(r: Reads): FileRead {
      FileAt(timeline, r.keyAt, PRIVKEY, r.keyFault)
    }

    /** The certificate a reload finds, if both files are read and load together. */
    ghost function Found(r: Reads): Option<Certificate> {
      var cert, key := CertRead(r), KeyRead(r);
      if cert.Unreadable? || key.Unreadable? || !x509KeyPair(cert.data, key.data) then None
      else Some(Certificate(cert.data, key.data))
    }

    /** The text of the error if a reload finds none. */
    ghost function Trouble(r: Reads): string
      requires Found(r).None?
    {
      var cert, key := CertRead(r), KeyRead(r);
      if cert.Unreadable? then "read certificate " + certPath + ": " + cert.cause
      else if key.Unreadable? then "read private key " + keyPath + ": " + key.cause
      else "parse TLS certificate and key: " + parseError(cert.data, key.data)
    }

    constructor (digest: string -> D, x509KeyPair: Matcher, parseError: (string, string) -> string,
                 certPath: string, keyPath: string, ghost timeline: Timeline, ghost now: nat)
      ensures this.digest == digest && this.x509KeyPair == x509KeyPair && this.timeline == timeline
      ensures certificate.None? && lastFailure == "" && clock == certSeen == keySeen == now && Valid()
    {
      this.digest, this.x509KeyPair, this.parseError := digest, x509KeyPair, parseError;
      this.certPath, this.keyPath, this.timeline := certPath, keyPath, timeline;
      certificate, lastFailure := None, "";
      clock, certSeen, keySeen := now, now, now;
    }

    /** `certPem` and `keyPem` are what os.ReadFile returned at the instants of `r`; the
        failure is the text of the error. */
    method Reload(certPem: FileRead, keyPem: FileRead, ghost r: Reads)
      returns (changed: bool, failure: Option<string>)
      requires Valid() && InOrder(r) && certPem == CertRead(r) && keyPem == KeyRead(r)
      modifies `files, `certificate, `certSeen, `keySeen, `clock
      ensures Valid() && clock == r.keyAt
      ensures (certSeen == old(certSeen) && keySeen == old(keySeen)) || (certSeen == r.certAt && keySeen == r.keyAt)
      ensures certificate == old(certificate) || certificate == Found(r)
      ensures failure.Some? ==> certificate == old(certificate) && Found(r).None? && failure.value == Trouble(r)
      ensures failure.None? ==> certificate.Some?
      ensures CollisionFree(digest) && Found(r).Some? ==>
        failure.None? && certificate == Found(r) && certSeen == r.certAt && keySeen == r.keyAt
      ensures CollisionFree(digest) || old(certificate).None? ==> (failure.None? <==> Found(r).Some?)
      ensures CollisionFree(digest) ==> (changed <==> Found(r).Some? && old(certificate) != Found(r))
    {
      clock := r.keyAt;
      if certPem.Unreadable? { return false, Some("read certificate " + certPath + ": " + certPem.cause); }
      if keyPem.Unreadable? { return false, Some("read private key " + keyPath + ": " + keyPem.cause); }
      var fingerprint := Fingerprint(digest(certPem.data), digest(keyPem.data));
      if certificate.Some? && fingerprint == files {
        if certificate.value == Certificate(certPem.data, keyPem.data) { certSeen, keySeen := r.certAt, r.keyAt; }
        return false, None;
      }
      if !x509KeyPair(certPem.data, keyPem.data) {
        return false, Some("parse TLS certificate and key: " + parseError(certPem.data, keyPem.data));
      }
      certificate := Some(Certificate(certPem.data, keyPem.data));
      files := fingerprint;
      certSeen, keySeen := r.certAt, r.keyAt;
      return true, None;
    }

    /** One handshake: reload if possible, serve what is loaded, log a failure when its text
        is not that of the failure before. */
    method GetCertificate(certPem: FileRead, keyPem: FileRead, ghost r: Reads)
      returns (served: Certificate, logged: bool)
      requires Valid() && certificate.Some? && InOrder(r) && certPem == CertRead(r) && keyPem == KeyRead(r)
      modifies this
      ensures Valid() && certificate == Some(served) && clock == r.keyAt
      ensures x509KeyPair(served.chain, served.key)
      ensures ReadCurrent(timeline(certSeen), FULLCHAIN) == Some(served.chain)
      ensures old(certSeen) <= certSeen <= r.certAt && old(keySeen) <= keySeen <= r.keyAt
      ensures CollisionFree(digest) ==>
        (if Found(r).Some? then served == Found(r).value && certSeen == r.certAt && lastFailure == ""
         else Some(served) == old(certificate) && lastFailure == Trouble(r))
      ensures CollisionFree(digest) ==>
        (logged <==> if Found(r).Some? then old(certificate) != Found(r) else Trouble(r) != old(lastFailure))
    {
      var changed, failure := Reload(certPem, keyPem, r);
      if failure.Some? {
        logged := failure.value != lastFailure;
        lastFailure := failure.value;
      } else {
        logged := changed;
        lastFailure := "";
      }
      served := certificate.value;
    }
  }

  /** newCertificateReloader: no reloader without a first pair that loads. */
  method NewCertificateReloader<D(==, 0)>(digest: string -> D, x509KeyPair: Matcher,
      parseError: (string, string) -> string, certPath: string, keyPath: string,
      certPem: FileRead, keyPem: FileRead, ghost timeline: Timeline, ghost r: Reads)
    returns (reloader: CertificateReloader?<D>)
    requires r.certAt <= r.keyAt
    requires certPem == FileAt(timeline, r.certAt, FULLCHAIN, r.certFault)
    requires keyPem == FileAt(timeline, r.keyAt, PRIVKEY, r.keyFault)
    ensures reloader != null <==> certPem.Read? && keyPem.Read? && x509KeyPair(certPem.data, keyPem.data)
    ensures reloader != null ==>
      fresh(reloader) && reloader.Valid() && reloader.timeline == timeline && reloader.clock == r.keyAt &&
      reloader.certificate == Some(Certificate(certPem.data, keyPem.data))
  {
    reloader := new CertificateReloader<D>(digest, x509KeyPair, parseError, certPath, keyPath, timeline, r.certAt);
    var _, failure := reloader.Reload(certPem, keyPem, r);
    if failure.Some? { return null; }
  }

  /** The directory a publisher leaves behind, from its first recorded state on. */
  ghost function Played(history: seq<Tls>): Timeline
    requires history != []
  {
    (t: nat) => history[if t < |history| then t else |history| - 1]
  }

  /** `current` has not been switched since the state `from`. */
  ghost predicate SettledSince(history: seq<Tls>, from: nat) {
    from < |history| && Untouched(history, from, Entry(history[from], CURRENT))
  }

  lemma SameFile(history: seq<Tls>, from: nat, t: nat, file: string, matches: Matcher)
    requires SoundHistory(history, matches) && SettledSince(history, from) && CURRENT in history[from] && from <= t
    ensures ReadCurrent(Played(history)(t), file) == ReadCurrent(history[from], file)
  {
    var at := if t < |history| then t else |history| - 1;
    KeptThroughout(history, matches, from, at);
    assert Entry(history[at], CURRENT) == Entry(history[from], CURRENT);
  }

  ghost function CurrentPair(t: Tls): Certificate
    requires ReadCurrent(t, FULLCHAIN).Some? && ReadCurrent(t, PRIVKEY).Some?
  {
    Certificate(ReadCurrent(t, FULLCHAIN).value, ReadCurrent(t, PRIVKEY).value)
  }

  /** After the last switch of a sound history a reload whose reads succeed finds the
      current version, if the server accepts what the publisher validated. */
  lemma FindsLastSwitch<D(0)>(reloader: CertificateReloader<D>, history: seq<Tls>, from: nat, r: Reads,
                              matches: Matcher)
    requires SoundHistory(history, matches) && SettledSince(history, from) && CURRENT in history[from]
    requires from <= r.certAt <= r.keyAt
    requires reloader.timeline == Played(history) && r.certFault.None? && r.keyFault.None?
    requires forall cert, key :: matches(cert, key) ==> reloader.x509KeyPair(cert, key)
    ensures ReadCurrent(history[from], FULLCHAIN).Some? && ReadCurrent(history[from], PRIVKEY).Some?
    ensures reloader.Found(r) == Some(CurrentPair(history[from]))
  {
    GoodServes(history[from], matches);
    SameFile(history, from, r.certAt, FULLCHAIN, matches);
    SameFile(history, from, r.keyAt, PRIVKEY, matches);
  }

  /** The first handshake, and every later one, that starts after the last switch of a sound
      history serves the current version's pair. */
  method HandshakeAfterLastSwitch<D(==, 0)>(reloader: CertificateReloader<D>, certPem: FileRead, keyPem: FileRead,
      ghost history: seq<Tls>, ghost from: nat, ghost r: Reads, ghost matches: Matcher)
    returns (served: Certificate)
    requires reloader.Valid() && reloader.certificate.Some? && reloader.InOrder(r)
    requires certPem == reloader.CertRead(r) && keyPem == reloader.KeyRead(r)
    requires SoundHistory(history, matches) && SettledSince(history, from) && CURRENT in history[from]
    requires from <= r.certAt && reloader.timeline == Played(history) && r.certFault.None? && r.keyFault.None?
    requires CollisionFree(reloader.digest)
    requires forall cert, key :: matches(cert, key) ==> reloader.x509KeyPair(cert, key)
    modifies reloader
    ensures ReadCurrent(history[from], FULLCHAIN).Some? && ReadCurrent(history[from], PRIVKEY).Some?
    ensures served == CurrentPair(history[from]) && reloader.Valid() && reloader.certificate == Some(served)
  {
    FindsLastSwitch(reloader, history, from, r, matches);
    var logged;
    served, logged := reloader.GetCertificate(certPem, keyPem, r);
  }
}
