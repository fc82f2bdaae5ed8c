/** Assembly of a TLS configuration from the common, client and server
    settings. Each builder exists twice: as a function that says which
    configuration (or which error) the settings produce, with each callback
    standing for the certificate it serves first, and as a method that builds
    the configuration step by step, allocating the certificate reloader the
    callbacks are bound to, proved to produce what the function says. */
module ConfigTls {
  import opened Options
  import opened TlsTypes
  import opened TlsVersion
  import opened CertReload

  /** The settings common to clients and servers; reloadInterval is a
      duration in nanoseconds, 0 meaning never reload. */
  datatype TlsSetting = TlsSetting(
    caFile: string,
    certFile: string,
    keyFile: string,
    minVersion: string,
    maxVersion: string,
    reloadInterval: int)

  datatype TlsClientSetting = TlsClientSetting(
    tls: TlsSetting,
    insecure: bool,
    insecureSkipVerify: bool,
    serverName: string)

  datatype TlsServerSetting = TlsServerSetting(
    tls: TlsSetting,
    clientCAFile: string,
    reloadClientCAFile: bool)

  /** The two client-authentication modes this code produces; NoClientCert is
      the library's zero value. */
  datatype ClientAuthType = NoClientCert | RequireAndVerifyClientCert

  /** The per-connection hook bound to the client-CA reloader of a file. */
  datatype ClientCAsHook = ClientCAsHook(clientCAFile: string, certPool: CertPool)

  /** The fields of tls.Config that this code sets. GetCertificate and
      GetClientCertificate are represented by what they call: a Hook. */
  datatype Config<Hook> = Config(
    rootCAs: Option<CertPool>,
    getCertificate: Option<Hook>,
    getClientCertificate: Option<Hook>,
    minVersion: uint16,
    maxVersion: uint16,
    serverName: string,
    insecureSkipVerify: bool,
    clientCAs: Option<CertPool>,
    clientAuth: ClientAuthType,
    getConfigForClient: Option<ClientCAsHook>)

  /** loadCert: read the file, then parse its PEM blocks into a new pool.
      Either failure names the file. */
  function LoadCert(disk: Disk, path: string): (r: Result<CertPool>)
    ensures r.Err? ==> (r.error.ReadCA? || r.error.ParseCA?) && r.error.path == path
    ensures disk.readFile(path).Err? ==> r == Err(ReadCA(path, disk.readFile(path).error))
    ensures disk.readFile(path).Ok? && disk.appendCertsFromPem(disk.readFile(path).value).None? ==> r == Err(ParseCA(path))
    ensures r.Ok? ==> disk.readFile(path).Ok? && disk.appendCertsFromPem(disk.readFile(path).value) == Some(r.value)
  {
    match disk.readFile(path)
    case Err(e) => Err(ReadCA(path, e))
    case Ok(pem) =>
      match disk.appendCertsFromPem(pem)
      case None => Err(ParseCA(path))
      case Some(pool) => Ok(pool)
  }

  /** The configuration the common settings produce (loadTLSConfig). */
  function BaseConfig(s: TlsSetting, disk: Disk): (r: Result<Config<Certificate>>)
    ensures (s.certFile == "") != (s.keyFile == "") ==> r.Err?
    ensures r.Ok? ==> (r.value.rootCAs.None? <==> s.caFile == "")
    ensures r.Ok? && s.caFile != "" ==> r.value.rootCAs.Some? && LoadCert(disk, s.caFile) == Ok(r.value.rootCAs.value)
    ensures r.Ok? ==> (r.value.getCertificate.Some? <==> s.certFile != "" && s.keyFile != "")
    ensures r.Ok? && r.value.getCertificate.Some? ==>
              disk.loadKeyPair(s.certFile, s.keyFile) == Ok(r.value.getCertificate.value)
    ensures r.Ok? ==> r.value.getClientCertificate == r.value.getCertificate
    ensures r.Ok? ==> ConvertVersion(s.minVersion, DefaultMinTlsVersion) == Ok(r.value.minVersion)
    ensures r.Ok? ==> ConvertVersion(s.maxVersion, DefaultMaxTlsVersion) == Ok(r.value.maxVersion)
    ensures r.Ok? && s.minVersion == "" ==> r.value.minVersion == VersionTLS12
    ensures r.Ok? && s.maxVersion == "" ==> r.value.maxVersion == 0
    ensures r.Ok? ==> r.value.serverName == "" && !r.value.insecureSkipVerify
    ensures r.Ok? ==> r.value.clientCAs.None? && r.value.clientAuth == NoClientCert && r.value.getConfigForClient.None?
  {
    var certPool :- if s.caFile == "" then Ok(None) else
      match LoadCert(disk, s.caFile)
      case Err(e) => Err(Wrapped(LoadCAPool, e))
      case Ok(pool) => Ok(Some(pool));
    if (s.certFile == "" && s.keyFile != "") || (s.certFile != "" && s.keyFile == "") then
      Err(IncompleteCertKey)
    else
      var identity :- if s.certFile != "" && s.keyFile != "" then
        match disk.loadKeyPair(s.certFile, s.keyFile)
        case Err(e) => Err(Wrapped(LoadCertAndKey, e))
        case Ok(cert) => Ok(Some(cert))
      else Ok(None);
      var minTls :- match ConvertVersion(s.minVersion, DefaultMinTlsVersion)
        case Err(e) => Err(Wrapped(MinVersion, e))
        case Ok(v) => Ok(v);
      var maxTls :- match ConvertVersion(s.maxVersion, DefaultMaxTlsVersion)
        case Err(e) => Err(Wrapped(MaxVersion, e))
        case Ok(v) => Ok(v);
      Ok(Config(certPool, identity, identity, minTls, maxTls, "", false, None, NoClientCert, None))
  }

  // The checks of the common settings, each stated on its own.

  function CACheck(s: TlsSetting, disk: Disk): Option<Error> {
    if s.caFile != "" && LoadCert(disk, s.caFile).Err? then Some(Wrapped(LoadCAPool, LoadCert(disk, s.caFile).error)) else None
  }

  function PairingCheck(s: TlsSetting): Option<Error> {
    if (s.certFile == "") != (s.keyFile == "") then Some(IncompleteCertKey) else None
  }

  function KeyPairCheck(s: TlsSetting, disk: Disk): Option<Error> {
    var pair := disk.loadKeyPair(s.certFile, s.keyFile);
    if s.certFile != "" && s.keyFile != "" && pair.Err? then Some(Wrapped(LoadCertAndKey, pair.error)) else None
  }

  function VersionCheck(v: string, context: Context): Option<Error> {
    if v !in {"", "1.0", "1.1", "1.2", "1.3"} then Some(Wrapped(context, UnsupportedVersion(v))) else None
  }

  /** The checks in the order the settings are validated. */
  function Checks(s: TlsSetting, disk: Disk): seq<Option<Error>> {
    [ CACheck(s, disk),
      PairingCheck(s),
      KeyPairCheck(s, disk),
      VersionCheck(s.minVersion, MinVersion),
      VersionCheck(s.maxVersion, MaxVersion) ]
  }

  /** The first failing check, if any. */
  function FirstError(checks: seq<Option<Error>>): (r: Option<Error>)
    ensures r.None? <==> forall i :: 0 <= i < |checks| ==> checks[i].None?
    ensures r.Some? ==> r in checks
  {
    if checks == [] then None
    else if checks[0].Some? then checks[0]
    else
      assert forall i :: 1 <= i < |checks| ==> checks[i] == checks[1..][i - 1];
      FirstError(checks[1..])
  }

  /** The common settings fail exactly when one of the five checks fails, and
      then with the error of the first failing one, in the order: CA file,
      pairing of cert and key, loading of cert and key, min_version,
      max_version. */
  lemma FirstFailureWins(s: TlsSetting, disk: Disk)
    ensures BaseConfig(s, disk).Err? <==> FirstError(Checks(s, disk)).Some?
    ensures BaseConfig(s, disk).Err? ==> BaseConfig(s, disk).error == FirstError(Checks(s, disk)).value
  {
    var cs := Checks(s, disk);
    FirstOfFive(cs[0], cs[1], cs[2], cs[3], cs[4]);
    assert cs == [cs[0], cs[1], cs[2], cs[3], cs[4]];
  }

  lemma FirstOfFive(a: Option<Error>, b: Option<Error>, c: Option<Error>, d: Option<Error>, e: Option<Error>)
    ensures FirstError([a, b, c, d, e]) ==
      if a.Some? then a else if b.Some? then b else if c.Some? then c else if d.Some? then d else e
  {
    assert FirstError([a, b, c, d, e]) == if a.Some? then a else FirstError([b, c, d, e]) by {
      assert [a, b, c, d, e][1..] == [b, c, d, e];
    }
    assert FirstError([b, c, d, e]) == if b.Some? then b else FirstError([c, d, e]) by {
      assert [b, c, d, e][1..] == [c, d, e];
    }
    assert FirstError([c, d, e]) == if c.Some? then c else FirstError([d, e]) by {
      assert [c, d, e][1..] == [d, e];
    }
    assert FirstError([d, e]) == if d.Some? then d else FirstError([e]) by {
      assert [d, e][1..] == [e];
    }
    assert FirstError([e]) == e by {
      assert [e][1..] == [];
    }
  }

  /** Client builder (TLSClientSetting.LoadTLSConfig): Ok(None) means TLS is
      disabled. */
  function ClientConfig(c: TlsClientSetting, disk: Disk): (r: Result<Option<Config<Certificate>>>)
    ensures r == Ok(None) <==> c.insecure && c.tls.caFile == ""
    ensures r.Err? <==> !(c.insecure && c.tls.caFile == "") && BaseConfig(c.tls, disk).Err?
    ensures r.Err? ==> r.error == Wrapped(LoadConfig, BaseConfig(c.tls, disk).error)
    ensures r.Ok? && r.value.Some? ==>
              r.value.value.serverName == c.serverName && r.value.value.insecureSkipVerify == c.insecureSkipVerify
    ensures r.Ok? && r.value.Some? ==>
              r.value.value.(serverName := "", insecureSkipVerify := false) == BaseConfig(c.tls, disk).value
  {
    if c.insecure && c.tls.caFile == "" then
      Ok(None)
    else
      match BaseConfig(c.tls, disk)
      case Err(e) => Err(Wrapped(LoadConfig, e))
      case Ok(cfg) => Ok(Some(cfg.(serverName := c.serverName, insecureSkipVerify := c.insecureSkipVerify)))
  }

  /** With TLS disabled on the client nothing is loaded: the answer does not
      depend on what the files hold. */
  lemma InsecureClientLoadsNothing(c: TlsClientSetting, disk: Disk, disk': Disk)
    requires c.insecure && c.tls.caFile == ""
    ensures ClientConfig(c, disk) == ClientConfig(c, disk')
  {
  }

  /** Server builder (TLSServerSetting.LoadTLSConfig). */
  function ServerConfig(c: TlsServerSetting, disk: Disk): (r: Result<Config<Certificate>>)
    ensures BaseConfig(c.tls, disk).Err? ==> r == Err(Wrapped(LoadConfig, BaseConfig(c.tls, disk).error))
    ensures c.clientCAFile == "" && BaseConfig(c.tls, disk).Ok? ==> r == BaseConfig(c.tls, disk)
    ensures r.Ok? && c.clientCAFile != "" ==>
              r.value.clientAuth == RequireAndVerifyClientCert
              && r.value.clientCAs.Some?
              && disk.newClientCAsReloader(c.clientCAFile) == Ok(r.value.clientCAs.value)
    ensures r.Ok? ==> (r.value.getConfigForClient.Some? <==> c.clientCAFile != "" && c.reloadClientCAFile)
    ensures r.Ok? && r.value.getConfigForClient.Some? ==>
              r.value.clientCAs.Some? && r.value.getConfigForClient.value == ClientCAsHook(c.clientCAFile, r.value.clientCAs.value)
    ensures BaseConfig(c.tls, disk).Ok? && c.clientCAFile != "" && disk.newClientCAsReloader(c.clientCAFile).Err? ==>
              r == Err(disk.newClientCAsReloader(c.clientCAFile).error)
    ensures BaseConfig(c.tls, disk).Ok? && c.clientCAFile != "" && disk.newClientCAsReloader(c.clientCAFile).Ok?
            && c.reloadClientCAFile && disk.startWatching(c.clientCAFile).Some? ==>
              r == Err(disk.startWatching(c.clientCAFile).value)
    ensures r.Ok? ==> r.value.(clientCAs := None, clientAuth := NoClientCert, getConfigForClient := None) == BaseConfig(c.tls, disk).value
    ensures r.Err? && BaseConfig(c.tls, disk).Ok? ==>
              c.clientCAFile != "" &&
              (disk.newClientCAsReloader(c.clientCAFile) == Err(r.error) ||
               (c.reloadClientCAFile && Some(r.error) == disk.startWatching(c.clientCAFile)))
  {
    match BaseConfig(c.tls, disk)
    case Err(e) => Err(Wrapped(LoadConfig, e))
    case Ok(cfg) =>
      if c.clientCAFile == "" then
        Ok(cfg)
      else
        match disk.newClientCAsReloader(c.clientCAFile)
        case Err(e) => Err(e)
        case Ok(pool) =>
          if c.reloadClientCAFile && disk.startWatching(c.clientCAFile).Some? then
            Err(disk.startWatching(c.clientCAFile).value)
          else
            var hook := if c.reloadClientCAFile then Some(ClientCAsHook(c.clientCAFile, pool)) else None;
            Ok(cfg.(clientCAs := Some(pool), clientAuth := RequireAndVerifyClientCert, getConfigForClient := hook))
  }

  // The builders as the program runs them.

  /** The reloaders a built configuration's certificate callbacks call. */
  function Reloaders(cfg: Config<CertReloader>): set<CertReloader> {
    (if cfg.getCertificate.Some? then {cfg.getCertificate.value} else {})
    + (if cfg.getClientCertificate.Some? then {cfg.getClientCertificate.value} else {})
  }

  /** A built configuration agrees with the specified one: same fields, both
      callbacks bound to one reloader for the settings' files and interval,
      holding the specified certificate, next due one interval after `now`. */
  ghost predicate Serves(cfg: Config<CertReloader>, spec: Config<Certificate>, s: TlsSetting, now: int)
    reads Reloaders(cfg)
  {
    && cfg.rootCAs == spec.rootCAs
    && cfg.minVersion == spec.minVersion
    && cfg.maxVersion == spec.maxVersion
    && cfg.serverName == spec.serverName
    && cfg.insecureSkipVerify == spec.insecureSkipVerify
    && cfg.clientCAs == spec.clientCAs
    && cfg.clientAuth == spec.clientAuth
    && cfg.getConfigForClient == spec.getConfigForClient
    && cfg.getClientCertificate == cfg.getCertificate
    && (cfg.getCertificate.Some? <==> spec.getCertificate.Some?)
    && (cfg.getCertificate.Some? ==>
          var reloader := cfg.getCertificate.value;
          && reloader.certFile == s.certFile
          && reloader.keyFile == s.keyFile
          && reloader.reloadInterval == s.reloadInterval
          && reloader.Snapshot() == Cache(now + s.reloadInterval, spec.getCertificate.value))
  }

  /** TLSSetting.loadTLSConfig, with `now` the time the reloader is created. */
  method LoadTlsConfig(s: TlsSetting, disk: Disk, now: int) returns (r: Result<Config<CertReloader>>)
    ensures r.Err? <==> BaseConfig(s, disk).Err?
    ensures r.Err? ==> r.error == BaseConfig(s, disk).error
    ensures r.Ok? ==> fresh(Reloaders(r.value)) && Serves(r.value, BaseConfig(s, disk).value, s, now)
  {
    var certPool: Option<CertPool> := None;
    if |s.caFile| != 0 {
      var loaded := LoadCert(disk, s.caFile);
      if loaded.Err? {
        return Err(Wrapped(LoadCAPool, loaded.error));
      }
      certPool := Some(loaded.value);
    }

    if (s.certFile == "" && s.keyFile != "") || (s.certFile != "" && s.keyFile == "") {
      return Err(IncompleteCertKey);
    }

    var callback: Option<CertReloader> := None;
    if s.certFile != "" && s.keyFile != "" {
      var reloader := NewCertReloader(s.certFile, s.keyFile, s.reloadInterval, now, disk);
      if reloader.Err? {
        return Err(Wrapped(LoadCertAndKey, reloader.error));
      }
      callback := Some(reloader.value);
    }

    var minTls := ConvertVersion(s.minVersion, DefaultMinTlsVersion);
    if minTls.Err? {
      return Err(Wrapped(MinVersion, minTls.error));
    }
    var maxTls := ConvertVersion(s.maxVersion, DefaultMaxTlsVersion);
    if maxTls.Err? {
      return Err(Wrapped(MaxVersion, maxTls.error));
    }

    return Ok(Config(certPool, callback, callback, minTls.value, maxTls.value, "", false, None, NoClientCert, None));
  }

  /** TLSClientSetting.LoadTLSConfig: Ok(None) when TLS is disabled; otherwise
      the common configuration with the server name and skip-verify flag set. */
  method LoadClientTlsConfig(c: TlsClientSetting, disk: Disk, now: int) returns (r: Result<Option<Config<CertReloader>>>)
    ensures r.Err? <==> ClientConfig(c, disk).Err?
    ensures r.Err? ==> r.error == ClientConfig(c, disk).error
    ensures r.Ok? ==> (r.value.None? <==> ClientConfig(c, disk).value.None?)
    ensures r.Ok? && r.value.Some? ==>
              fresh(Reloaders(r.value.value)) && Serves(r.value.value, ClientConfig(c, disk).value.value, c.tls, now)
  {
    if c.insecure && c.tls.caFile == "" {
      return Ok(None);
    }

    var tlsCfg := LoadTlsConfig(c.tls, disk, now);
    if tlsCfg.Err? {
      return Err(Wrapped(LoadConfig, tlsCfg.error));
    }
    var cfg := tlsCfg.value;
    cfg := cfg.(serverName := c.serverName);
    cfg := cfg.(insecureSkipVerify := c.insecureSkipVerify);
    return Ok(Some(cfg));
  }

  /** TLSServerSetting.LoadTLSConfig: the common configuration, plus mandatory
      client-certificate verification against the client-CA pool when a
      client-CA file is set, with a per-connection hook when it is watched. */
  method LoadServerTlsConfig(c: TlsServerSetting, disk: Disk, now: int) returns (r: Result<Config<CertReloader>>)
    ensures r.Err? <==> ServerConfig(c, disk).Err?
    ensures r.Err? ==> r.error == ServerConfig(c, disk).error
    ensures r.Ok? ==> fresh(Reloaders(r.value)) && Serves(r.value, ServerConfig(c, disk).value, c.tls, now)
  {
    var tlsCfg := LoadTlsConfig(c.tls, disk, now);
    if tlsCfg.Err? {
      return Err(Wrapped(LoadConfig, tlsCfg.error));
    }
    var cfg := tlsCfg.value;
    if c.clientCAFile != "" {
      var reloader := disk.newClientCAsReloader(c.clientCAFile);
      if reloader.Err? {
        return Err(reloader.error);
      }
      if c.reloadClientCAFile {
        var err := disk.startWatching(c.clientCAFile);
        if err.Some? {
          return Err(err.value);
        }
        cfg := cfg.(getConfigForClient := Some(ClientCAsHook(c.clientCAFile, reloader.value)));
      }
      cfg := cfg.(clientCAs := Some(reloader.value));
      cfg := cfg.(clientAuth := RequireAndVerifyClientCert);
    }
    return Ok(cfg);
  }
}
