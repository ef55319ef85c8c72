/**
 * The static tables of the TLS settings builder: the supported cipher-suite
 * and curve names, the fixed default lists, and the builder's error values.
 */
module TlsTables {

  /** Go's `byte`. */
  newtype byte = x: int | 0 <= x < 0x100
  type Bytes = seq<byte>

  /** Go's `uint16` cipher-suite identifiers (IANA TLS Cipher Suites registry). */
  newtype CipherSuiteId = x: int | 0 <= x < 0x1_0000

  /** Go's `tls.CurveID`, a TLS named-group identifier (section 5.1.1 of RFC 8422, RFC 7748). */
  newtype CurveId = x: int | 0 <= x < 0x1_0000

  /** Go's protocol version constants, as a `uint16`. */
  newtype ProtocolVersion = x: int | 0 <= x < 0x1_0000

  const VersionTls12: ProtocolVersion := 0x0303

  const CurveP256: CurveId := 23
  const CurveP384: CurveId := 24
  const CurveP521: CurveId := 25
  const X25519: CurveId := 29

  const TLS_RSA_WITH_3DES_EDE_CBC_SHA: CipherSuiteId := 0x000a
  const TLS_RSA_WITH_AES_128_CBC_SHA: CipherSuiteId := 0x002f
  const TLS_RSA_WITH_AES_256_CBC_SHA: CipherSuiteId := 0x0035
  const TLS_ECDHE_ECDSA_WITH_AES_128_CBC_SHA: CipherSuiteId := 0xc009
  const TLS_ECDHE_ECDSA_WITH_AES_256_CBC_SHA: CipherSuiteId := 0xc00a
  const TLS_ECDHE_RSA_WITH_3DES_EDE_CBC_SHA: CipherSuiteId := 0xc012
  const TLS_ECDHE_RSA_WITH_AES_128_CBC_SHA: CipherSuiteId := 0xc013
  const TLS_ECDHE_RSA_WITH_AES_256_CBC_SHA: CipherSuiteId := 0xc014
  const TLS_ECDHE_ECDSA_WITH_AES_128_GCM_SHA256: CipherSuiteId := 0xc02b
  const TLS_ECDHE_ECDSA_WITH_AES_256_GCM_SHA384: CipherSuiteId := 0xc02c
  const TLS_ECDHE_RSA_WITH_AES_128_GCM_SHA256: CipherSuiteId := 0xc02f
  const TLS_ECDHE_RSA_WITH_AES_256_GCM_SHA384: CipherSuiteId := 0xc030
  const TLS_ECDHE_RSA_WITH_CHACHA20_POLY1305: CipherSuiteId := 0xcca8
  const TLS_ECDHE_ECDSA_WITH_CHACHA20_POLY1305: CipherSuiteId := 0xcca9

  /** The curves used when no curve preference is configured. */
  const DefaultCurvePreferences: seq<CurveId> := [CurveP256, X25519]

  const SupportedCurves: map<string, CurveId> := map[
    "X25519" := X25519,
    "P256" := CurveP256,
    "P384" := CurveP384,
    "P521" := CurveP521
  ]

  /** The six ECDHE AEAD suites used when no cipher suite is configured, in priority order. */
  const DefaultCipherSuites: seq<CipherSuiteId> := [
    TLS_ECDHE_ECDSA_WITH_AES_256_GCM_SHA384,
    TLS_ECDHE_RSA_WITH_AES_256_GCM_SHA384,
    TLS_ECDHE_ECDSA_WITH_CHACHA20_POLY1305,
    TLS_ECDHE_RSA_WITH_CHACHA20_POLY1305,
    TLS_ECDHE_ECDSA_WITH_AES_128_GCM_SHA256,
    TLS_ECDHE_RSA_WITH_AES_128_GCM_SHA256
  ]

  const SupportedCiphers: map<string, CipherSuiteId> := map[
    "ECDHE-ECDSA-AES256-GCM-SHA384" := TLS_ECDHE_ECDSA_WITH_AES_256_GCM_SHA384,
    "ECDHE-RSA-AES256-GCM-SHA384" := TLS_ECDHE_RSA_WITH_AES_256_GCM_SHA384,
    "ECDHE-ECDSA-AES128-GCM-SHA256" := TLS_ECDHE_ECDSA_WITH_AES_128_GCM_SHA256,
    "ECDHE-RSA-AES128-GCM-SHA256" := TLS_ECDHE_RSA_WITH_AES_128_GCM_SHA256,
    "ECDHE-ECDSA-WITH-CHACHA20-POLY1305" := TLS_ECDHE_ECDSA_WITH_CHACHA20_POLY1305,
    "ECDHE-RSA-WITH-CHACHA20-POLY1305" := TLS_ECDHE_RSA_WITH_CHACHA20_POLY1305,
    "ECDHE-RSA-AES256-CBC-SHA" := TLS_ECDHE_RSA_WITH_AES_256_CBC_SHA,
    "ECDHE-RSA-AES128-CBC-SHA" := TLS_ECDHE_RSA_WITH_AES_128_CBC_SHA,
    "ECDHE-ECDSA-AES256-CBC-SHA" := TLS_ECDHE_ECDSA_WITH_AES_256_CBC_SHA,
    "ECDHE-ECDSA-AES128-CBC-SHA" := TLS_ECDHE_ECDSA_WITH_AES_128_CBC_SHA,
    "RSA-AES256-CBC-SHA" := TLS_RSA_WITH_AES_256_CBC_SHA,
    "RSA-AES128-CBC-SHA" := TLS_RSA_WITH_AES_128_CBC_SHA,
    "ECDHE-RSA-3DES-EDE-CBC-SHA" := TLS_ECDHE_RSA_WITH_3DES_EDE_CBC_SHA,
    "RSA-3DES-EDE-CBC-SHA" := TLS_RSA_WITH_3DES_EDE_CBC_SHA
  ]

  /** The names under which the default suites appear in the table, in the same order. */
  const DefaultCipherSuiteNames: seq<string> := [
    "ECDHE-ECDSA-AES256-GCM-SHA384",
    "ECDHE-RSA-AES256-GCM-SHA384",
    "ECDHE-ECDSA-WITH-CHACHA20-POLY1305",
    "ECDHE-RSA-WITH-CHACHA20-POLY1305",
    "ECDHE-ECDSA-AES128-GCM-SHA256",
    "ECDHE-RSA-AES128-GCM-SHA256"
  ]

  /**
   * The errors the builder produces itself, plus `Foreign` for an error returned
   * unchanged by a file or crypto library call.
   */
  datatype Error =
    | ListenerFilesMissing
    | InvalidCipherSuite(name: string)
    | InvalidCurve(name: string)
    | PemParseFailed
    | PemEncryptedWithoutPassword
    | ListenerRootCertParseFailed
    | ClientRootCertParseFailed
    | Foreign(message: string)

  /** The text of each error; an invalid-name error quotes the configured name as given. */
  function Message(e: Error): (m: string)
    ensures e.InvalidCipherSuite? ==> 22 + |e.name| <= |m| && m[22..22 + |e.name|] == e.name
    ensures e.InvalidCurve? ==> 17 + |e.name| <= |m| && m[17..17 + |e.name|] == e.name
    ensures e.Foreign? ==> m == e.message
  {
    match e
    case ListenerFilesMissing => "Listener key and cert files must not be empty"
    case InvalidCipherSuite(name) => "invalid cipher suite '" + name + "' selected"
    case InvalidCurve(name) => "invalid curveID '" + name + "' selected"
    case PemParseFailed => "Failed to parse PEM"
    case PemEncryptedWithoutPassword => "PEM is encrypted, but password is empty"
    case ListenerRootCertParseFailed => "Failed to parse listener root certificate"
    case ClientRootCertParseFailed => "Failed to parse client root certificate"
    case Foreign(message) => message
  }
}
