/** The time-driven certificate cache behind the handshake callbacks.
    Time is an integer count of nanoseconds supplied by the caller; the
    read/write lock is dropped, so calls are taken one at a time. */
module CertReload {
  import opened TlsTypes

  /** A call reloads only when an interval is configured and the next reload
      time lies strictly before `now`. */
  predicate ReloadDue(reloadInterval: int, nextReload: int, now: int) {
    reloadInterval != 0 && nextReload < now
  }

  /** The mutable part of a reloader. */
  datatype Cache = Cache(nextReload: int, cert: Certificate)

  /** The effect of one GetCertificate call at `now` against the files as
      `disk` shows them: the answer and the cache afterwards. */
  function Serve(certFile: string, keyFile: string, reloadInterval: int, c: Cache, now: int, disk: Disk)
    : (Result<Certificate>, Cache)
  {
    if ReloadDue(reloadInterval, c.nextReload, now) then
      match disk.loadKeyPair(certFile, keyFile)
      case Err(e) => (Err(Wrapped(LoadCertAndKey, e)), c)
      case Ok(cert) => (Ok(cert), Cache(now + reloadInterval, cert))
    else
      (Ok(c.cert), c)
  }

  /** One handshake's request: the time it is made and the files it would read. */
  datatype Call = Call(now: int, disk: Disk)

  /** A sequence of calls, answered in order. */
  function Run(certFile: string, keyFile: string, reloadInterval: int, c: Cache, calls: seq<Call>)
    : (seq<Result<Certificate>>, Cache)
    decreases |calls|
  {
    if calls == [] then
      ([], c)
    else
      var (first, c') := Serve(certFile, keyFile, reloadInterval, c, calls[0].now, calls[0].disk);
      var (rest, last) := Run(certFile, keyFile, reloadInterval, c', calls[1..]);
      ([first] + rest, last)
  }

  /** With a zero interval the files are never re-read: every call, whatever
      the time and whatever the files now hold, answers the cached
      certificate, and the cache never changes. */
  lemma {:induction false} ZeroIntervalNeverReloads(certFile: string, keyFile: string, c: Cache, calls: seq<Call>)
    ensures Run(certFile, keyFile, 0, c, calls).1 == c
    ensures |Run(certFile, keyFile, 0, c, calls).0| == |calls|
    ensures forall i :: 0 <= i < |calls| ==> Run(certFile, keyFile, 0, c, calls).0[i] == Ok(c.cert)
  {
    if calls != [] {
      ZeroIntervalNeverReloads(certFile, keyFile, c, calls[1..]);
    }
  }

  /** When every reload attempt fails, the cache is left exactly as it was and
      each call answers either the cached certificate or a reload error. */
  lemma {:induction false} FailedReloadsKeepCache(certFile: string, keyFile: string, reloadInterval: int, c: Cache, calls: seq<Call>)
    requires forall i :: 0 <= i < |calls| ==> calls[i].disk.loadKeyPair(certFile, keyFile).Err?
    ensures Run(certFile, keyFile, reloadInterval, c, calls).1 == c
    ensures |Run(certFile, keyFile, reloadInterval, c, calls).0| == |calls|
    ensures forall i :: 0 <= i < |calls| ==>
      var answer := Run(certFile, keyFile, reloadInterval, c, calls).0[i];
      answer == Ok(c.cert) || (answer.Err? && answer.error.Wrapped? && answer.error.context == LoadCertAndKey)
  {
    if calls != [] {
      FailedReloadsKeepCache(certFile, keyFile, reloadInterval, c, calls[1..]);
    }
  }

  /** Until the next reload time has passed, every call answers the cached
      certificate without touching the files: after a reload at time t with a
      positive interval, the certificate is served unchanged through
      t + interval. */
  lemma {:induction false} NoReloadBeforeNextReload(certFile: string, keyFile: string, reloadInterval: int, c: Cache, calls: seq<Call>)
    requires forall i :: 0 <= i < |calls| ==> calls[i].now <= c.nextReload
    ensures Run(certFile, keyFile, reloadInterval, c, calls).1 == c
    ensures |Run(certFile, keyFile, reloadInterval, c, calls).0| == |calls|
    ensures forall i :: 0 <= i < |calls| ==> Run(certFile, keyFile, reloadInterval, c, calls).0[i] == Ok(c.cert)
  {
    if calls != [] {
      NoReloadBeforeNextReload(certFile, keyFile, reloadInterval, c, calls[1..]);
    }
  }

  /** A successful reload moves the next reload time to exactly one interval
      after the call, so with a positive interval two reloads are always more
      than one interval apart. */
  lemma ReloadsAreSpaced(certFile: string, keyFile: string, reloadInterval: int, c: Cache, t: int, t': int, d: Disk, d': Disk)
    requires reloadInterval > 0
    requires ReloadDue(reloadInterval, c.nextReload, t)
    requires d.loadKeyPair(certFile, keyFile).Ok?
    requires t' <= t + reloadInterval
    ensures !ReloadDue(reloadInterval, Serve(certFile, keyFile, reloadInterval, c, t, d).1.nextReload, t')
    ensures Serve(certFile, keyFile, reloadInterval, Serve(certFile, keyFile, reloadInterval, c, t, d).1, t', d').0
         == Ok(d.loadKeyPair(certFile, keyFile).value)
  {
  }

  /** certReloader: the paths and interval are fixed at construction; the
      cached certificate and the next reload time change only through
      GetCertificate. */
  class CertReloader {
    const certFile: string
    const keyFile: string
    const reloadInterval: int
    var nextReload: int
    var cert: Certificate

    /** The struct literal built once the initial key pair has loaded. */
    constructor (certFile: string, keyFile: string, reloadInterval: int, now: int, cert: Certificate)
      ensures this.certFile == certFile && this.keyFile == keyFile
      ensures this.reloadInterval == reloadInterval
      ensures nextReload == now + reloadInterval
      ensures this.cert == cert
    {
      this.certFile := certFile;
      this.keyFile := keyFile;
      this.reloadInterval := reloadInterval;
      nextReload := now + reloadInterval;
      this.cert := cert;
    }

    function Snapshot(): Cache
      reads this
    {
      Cache(nextReload, cert)
    }

    /** Answers the cached certificate, reloading it first when due. A failed
        reload leaves both fields as they were; a call that is not due leaves
        them as they were. */
    method GetCertificate(now: int, disk: Disk) returns (r: Result<Certificate>)
      modifies this
      ensures (r, Snapshot()) == Serve(certFile, keyFile, reloadInterval, old(Snapshot()), now, disk)
      ensures !ReloadDue(reloadInterval, old(nextReload), now) ==> r == Ok(old(cert)) && unchanged(this)
      ensures ReloadDue(reloadInterval, old(nextReload), now) && r.Err? ==>
                unchanged(this) && r.error == Wrapped(LoadCertAndKey, disk.loadKeyPair(certFile, keyFile).error)
      ensures ReloadDue(reloadInterval, old(nextReload), now) && r.Ok? ==>
                cert == disk.loadKeyPair(certFile, keyFile).value && nextReload == now + reloadInterval
      ensures r.Ok? ==> r.value == cert
    {
      if reloadInterval != 0 && nextReload < now {
        var loaded := disk.loadKeyPair(certFile, keyFile);
        if loaded.Err? {
          return Err(Wrapped(LoadCertAndKey, loaded.error));
        }
        cert := loaded.value;
        nextReload := now + reloadInterval;
        return Ok(cert);
      }
      return Ok(cert);
    }
  }

  /** newCertReloader: loads the key pair once and fails with the loader's own
      error, or yields a fresh reloader holding that pair. */
  method NewCertReloader(certFile: string, keyFile: string, reloadInterval: int, now: int, disk: Disk)
    returns (r: Result<CertReloader>)
    ensures r.Err? <==> disk.loadKeyPair(certFile, keyFile).Err?
    ensures r.Err? ==> r.error == disk.loadKeyPair(certFile, keyFile).error
    ensures r.Ok? ==> fresh(r.value)
    ensures r.Ok? ==> r.value.certFile == certFile && r.value.keyFile == keyFile
                      && r.value.reloadInterval == reloadInterval
    ensures r.Ok? ==> r.value.Snapshot() == Cache(now + reloadInterval, disk.loadKeyPair(certFile, keyFile).value)
  {
    var loaded := disk.loadKeyPair(certFile, keyFile);
    if loaded.Err? {
      return Err(loaded.error);
    }
    var reloader := new CertReloader(certFile, keyFile, reloadInterval, now, loaded.value);
    return Ok(reloader);
  }

  /** Right after construction at time t0, a call made no later than
      t0 + interval answers exactly the pair that was loaded, whatever the
      files hold by then. */
  method FirstCallServesLoadedPair(certFile: string, keyFile: string, reloadInterval: int, t0: int, now: int, disk: Disk, disk': Disk)
    returns (r: Result<Certificate>)
    requires disk.loadKeyPair(certFile, keyFile).Ok?
    requires now <= t0 + reloadInterval
    ensures r == Ok(disk.loadKeyPair(certFile, keyFile).value)
  {
    var reloader := NewCertReloader(certFile, keyFile, reloadInterval, t0, disk);
    r := reloader.value.GetCertificate(now, disk');
  }
}
