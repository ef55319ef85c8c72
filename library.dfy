/**
 * The file-system and crypto library calls the TLS settings builder makes.
 * Their internals belong to the Go standard library, so each call is a
 * parameter of the model: a field of `Env`, a total function that may fail.
 */
module Library {
  import opened Wrappers
  import opened TlsTables

  /** A PEM block: its type label, its headers and its decoded body. */
  datatype PemBlock = PemBlock(blockType: string, headers: map<string, string>, bytes: Bytes)

  /** A certificate chain with its private key, as `tls.X509KeyPair` builds it. */
  datatype Certificate = Certificate(chain: seq<Bytes>, privateKey: Bytes)

  /** A set of trusted certificates, as `x509.CertPool` holds it. */
  datatype CertPool = CertPool(certs: seq<Bytes>)

  /** `x509.NewCertPool()`. */
  const NewCertPool: CertPool := CertPool([])

  datatype Env = Env(
    /** `ioutil.ReadFile`: the file's bytes, or the error text. */
    readFile: string -> Result<Bytes, string>,
    /** `pem.Decode`: the first PEM block of the data, if any (the rest is ignored). */
    pemDecode: Bytes -> Option<PemBlock>,
    /** `x509.IsEncryptedPEMBlock`: whether the block carries the legacy encryption header. */
    isEncryptedPemBlock: PemBlock -> bool,
    /** `x509.DecryptPEMBlock`: the decrypted body, or the error text. */
    decryptPemBlock: (PemBlock, string) -> Result<Bytes, string>,
    /** `pem.EncodeToMemory`. */
    encodePem: PemBlock -> Bytes,
    /** `tls.X509KeyPair(certPEM, keyPEM)`: the key pair, or the error text. */
    x509KeyPair: (Bytes, Bytes) -> Result<Certificate, string>,
    /** `CertPool.AppendCertsFromPEM`: the pool afterwards, and whether any certificate was added. */
    appendCertsFromPem: (CertPool, Bytes) -> (CertPool, bool),
    /** `tls.Config.BuildNameToCertificate`: the name index built from the certificates. */
    nameToCertificate: seq<Certificate> -> map<string, Certificate>
  )

  /** A library error is passed on unchanged. */
  function FromLibrary<T>(r: Result<T, string>): (e: Result<T, Error>)
    ensures e.Ok? <==> r.Ok?
    ensures r.Ok? ==> e.value == r.value
    ensures r.Err? ==> e.error == Foreign(r.error)
  {
    match r
    case Ok(v) => Ok(v)
    case Err(message) => Err(Foreign(message))
  }
}
