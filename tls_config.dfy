/**
 * The TLS settings builder: turns the operator's TLS options into the TLS
 * configuration of the proxy's listener (server role) and of its connections
 * to the Kafka brokers (client role).
 */
module TlsConfigBuilder {
  import opened Wrappers
  import opened TlsTables
  import opened Library
  import opened LegacyPem
  import opened NameResolution

  /** Go's `tls.ClientAuthType`. */
  datatype ClientAuthType =
    | NoClientCert
    | RequestClientCert
    | RequireAnyClientCert
    | VerifyClientCertIfGiven
    | RequireAndVerifyClientCert

  /** The fields of Go's `tls.Config` the builder sets; `None` stands for a nil pool. */
  datatype TlsConfig = TlsConfig(
    certificates: seq<Certificate>,
    nameToCertificate: map<string, Certificate>,
    clientAuth: ClientAuthType,
    clientCAs: Option<CertPool>,
    rootCAs: Option<CertPool>,
    insecureSkipVerify: bool,
    preferServerCipherSuites: bool,
    minVersion: ProtocolVersion,
    cipherSuites: seq<CipherSuiteId>,
    curvePreferences: seq<CurveId>
  )

  /** Go's zero `tls.Config`: every field unset. */
  const ZeroConfig: TlsConfig := TlsConfig([], map[], NoClientCert, None, None, false, false, 0, [], [])

  /** The listener's TLS options. */
  datatype ProxyTlsOptions = ProxyTlsOptions(
    listenerCertFile: string,
    listenerKeyFile: string,
    listenerKeyPassword: string,
    listenerCipherSuites: seq<string>,
    listenerCurvePreferences: seq<string>,
    caChainCertFile: string
  )

  /** The TLS options for connections to the Kafka brokers. */
  datatype KafkaTlsOptions = KafkaTlsOptions(
    insecureSkipVerify: bool,
    clientCertFile: string,
    clientKeyFile: string,
    clientKeyPassword: string,
    caChainCertFile: string
  )

  /** The part of the proxy's configuration the builder reads. */
  datatype Config = Config(proxyTls: ProxyTlsOptions, kafkaTls: KafkaTlsOptions)

  /**
   * Reading the certificate file, reading the key file, passing the key
   * through the legacy-PEM gate and pairing the two, in that order; the first
   * step that fails decides the error.
   */
  function LoadKeyPair(env: Env, certFile: string, keyFile: string, password: string): (r: Result<Certificate, Error>)
    ensures env.readFile(certFile).Err? ==> r == Err(Foreign(env.readFile(certFile).error))
    ensures env.readFile(certFile).Ok? && env.readFile(keyFile).Err? ==> r == Err(Foreign(env.readFile(keyFile).error))
    ensures env.readFile(certFile).Ok? && env.readFile(keyFile).Ok? ==>
      var key := DecryptPem(env, env.readFile(keyFile).value, password);
      (key.Err? ==> r == Err(key.error))
      && (key.Ok? ==> r == FromLibrary(env.x509KeyPair(env.readFile(certFile).value, key.value)))
  {
    match env.readFile(certFile)
    case Err(message) => Err(Foreign(message))
    case Ok(certPem) =>
      match env.readFile(keyFile)
      case Err(message) => Err(Foreign(message))
      case Ok(keyPem) =>
        match DecryptPem(env, keyPem, password)
        case Err(e) => Err(e)
        case Ok(plainKeyPem) => FromLibrary(env.x509KeyPair(certPem, plainKeyPem))
  }

  /** The password only matters when the key file holds an encrypted key. */
  lemma LoadKeyPairPasswordIrrelevant(env: Env, certFile: string, keyFile: string, p1: string, p2: string)
    requires env.readFile(keyFile).Ok? ==> !IsEncrypted(env, env.readFile(keyFile).value)
    ensures LoadKeyPair(env, certFile, keyFile, p1) == LoadKeyPair(env, certFile, keyFile, p2)
  {
    if env.readFile(certFile).Ok? && env.readFile(keyFile).Ok? {
      DecryptPemPasswordIrrelevant(env, env.readFile(keyFile).value, p1, p2);
    }
  }

  /** What every listener configuration the builder returns satisfies. */
  predicate ValidListenerConfig(cfg: TlsConfig) {
    |cfg.certificates| == 1
    && cfg.minVersion == VersionTls12
    && cfg.preferServerCipherSuites
    && (cfg.clientAuth == RequireAndVerifyClientCert <==> cfg.clientCAs.Some?)
    && (cfg.clientAuth == NoClientCert <==> cfg.clientCAs.None?)
  }

  method NewTlsListenerConfig(conf: Config, env: Env) returns (r: Result<TlsConfig, Error>)
    // the empty-path check comes first, whatever the files would hold
    ensures conf.proxyTls.listenerKeyFile == "" || conf.proxyTls.listenerCertFile == "" ==>
      r == Err(ListenerFilesMissing)
    // then the key pair, the cipher suites, the curves and the CA chain, in that order
    ensures
      var o := conf.proxyTls;
      var pair := LoadKeyPair(env, o.listenerCertFile, o.listenerKeyFile, o.listenerKeyPassword);
      var suites := CipherSuitesOf(o.listenerCipherSuites);
      var curves := CurvePreferencesOf(o.listenerCurvePreferences);
      var ca := env.readFile(o.caChainCertFile);
      o.listenerKeyFile != "" && o.listenerCertFile != "" ==>
        (pair.Err? ==> r == Err(pair.error))
        && (pair.Ok? && suites.Err? ==> r == Err(suites.error))
        && (pair.Ok? && suites.Ok? && curves.Err? ==> r == Err(curves.error))
        && (pair.Ok? && suites.Ok? && curves.Ok? && o.caChainCertFile != "" ==>
              (ca.Err? ==> r == Err(Foreign(ca.error)))
              && (ca.Ok? && !env.appendCertsFromPem(NewCertPool, ca.value).1 ==> r == Err(ListenerRootCertParseFailed)))
        && (r.Ok? <==>
              (pair.Ok? && suites.Ok? && curves.Ok?
               && (o.caChainCertFile != "" ==> ca.Ok? && env.appendCertsFromPem(NewCertPool, ca.value).1)))
    // and success describes the settings
    ensures
      var o := conf.proxyTls;
      var pair := LoadKeyPair(env, o.listenerCertFile, o.listenerKeyFile, o.listenerKeyPassword);
      var ca := env.readFile(o.caChainCertFile);
      r.Ok? ==>
        ValidListenerConfig(r.value)
        && pair.Ok? && r.value.certificates == [pair.value]
        && CipherSuitesOf(o.listenerCipherSuites) == Ok(r.value.cipherSuites)
        && CurvePreferencesOf(o.listenerCurvePreferences) == Ok(r.value.curvePreferences)
        && (r.value.clientAuth == RequireAndVerifyClientCert <==> o.caChainCertFile != "")
        && (o.caChainCertFile != "" ==>
              ca.Ok? && env.appendCertsFromPem(NewCertPool, ca.value).1
              && r.value.clientCAs == Some(env.appendCertsFromPem(NewCertPool, ca.value).0))
        && r.value.rootCAs.None? && !r.value.insecureSkipVerify && r.value.nameToCertificate == map[]
  {
    var o := conf.proxyTls;
    if o.listenerKeyFile == "" || o.listenerCertFile == "" {
      return Err(ListenerFilesMissing);
    }
    var pair := LoadKeyPair(env, o.listenerCertFile, o.listenerKeyFile, o.listenerKeyPassword);
    if pair.Err? {
      return Err(pair.error);
    }
    var suites := GetCipherSuites(o.listenerCipherSuites);
    if suites.Err? {
      return Err(suites.error);
    }
    var curves := GetCurvePreferences(o.listenerCurvePreferences);
    if curves.Err? {
      return Err(curves.error);
    }
    var cfg := ZeroConfig.(
      certificates := [pair.value],
      clientAuth := NoClientCert,
      preferServerCipherSuites := true,
      minVersion := VersionTls12,
      curvePreferences := curves.value,
      cipherSuites := suites.value);
    if o.caChainCertFile != "" {
      var ca := env.readFile(o.caChainCertFile);
      if ca.Err? {
        return Err(Foreign(ca.error));
      }
      var (clientCAs, ok) := env.appendCertsFromPem(NewCertPool, ca.value);
      if !ok {
        return Err(ListenerRootCertParseFailed);
      }
      cfg := cfg.(clientCAs := Some(clientCAs));
      cfg := cfg.(clientAuth := RequireAndVerifyClientCert);
    }
    return Ok(cfg);
  }

  method NewTlsClientConfig(conf: Config, env: Env) returns (r: Result<TlsConfig, Error>)
    // the client key pair is loaded first, and only when both paths are given
    ensures
      var o := conf.kafkaTls;
      var pair := LoadKeyPair(env, o.clientCertFile, o.clientKeyFile, o.clientKeyPassword);
      var ca := env.readFile(o.caChainCertFile);
      var pairOk := o.clientCertFile != "" && o.clientKeyFile != "" ==> pair.Ok?;
      (o.clientCertFile != "" && o.clientKeyFile != "" && pair.Err? ==> r == Err(pair.error))
      && (pairOk && o.caChainCertFile != "" ==>
            (ca.Err? ==> r == Err(Foreign(ca.error)))
            && (ca.Ok? && !env.appendCertsFromPem(NewCertPool, ca.value).1 ==> r == Err(ClientRootCertParseFailed)))
      && (r.Ok? <==> pairOk && (o.caChainCertFile != "" ==> ca.Ok? && env.appendCertsFromPem(NewCertPool, ca.value).1))
    // success describes the settings
    ensures
      var o := conf.kafkaTls;
      var pair := LoadKeyPair(env, o.clientCertFile, o.clientKeyFile, o.clientKeyPassword);
      var ca := env.readFile(o.caChainCertFile);
      r.Ok? ==>
        r.value.insecureSkipVerify == o.insecureSkipVerify
        && (if o.clientCertFile != "" && o.clientKeyFile != "" then
              r.value.certificates == [pair.value]
              && r.value.nameToCertificate == env.nameToCertificate([pair.value])
            else r.value.certificates == [] && r.value.nameToCertificate == map[])
        && (if o.caChainCertFile != "" then r.value.rootCAs == Some(env.appendCertsFromPem(NewCertPool, ca.value).0)
            else r.value.rootCAs.None?)
        && r.value.clientAuth == NoClientCert && r.value.clientCAs.None? && !r.value.preferServerCipherSuites
        && r.value.minVersion == 0 && r.value.cipherSuites == [] && r.value.curvePreferences == []
  {
    var o := conf.kafkaTls;
    var cfg := ZeroConfig.(insecureSkipVerify := o.insecureSkipVerify);
    if o.clientCertFile != "" && o.clientKeyFile != "" {
      var pair := LoadKeyPair(env, o.clientCertFile, o.clientKeyFile, o.clientKeyPassword);
      if pair.Err? {
        return Err(pair.error);
      }
      cfg := cfg.(certificates := [pair.value]);
      cfg := cfg.(nameToCertificate := env.nameToCertificate(cfg.certificates));
    }
    if o.caChainCertFile != "" {
      var ca := env.readFile(o.caChainCertFile);
      if ca.Err? {
        return Err(Foreign(ca.error));
      }
      var (rootCAs, ok) := env.appendCertsFromPem(NewCertPool, ca.value);
      if !ok {
        return Err(ClientRootCertParseFailed);
      }
      cfg := cfg.(rootCAs := Some(rootCAs));
    }
    return Ok(cfg);
  }
}
