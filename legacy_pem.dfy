/**
 * The legacy-PEM gate applied to private-key files: a key in the legacy
 * password-encrypted PEM format (the DEK-Info header of section 4.6.1.3 of
 * RFC 1421) is decrypted and re-emitted as a plain "RSA PRIVATE KEY" block;
 * any other key passes through unchanged.
 */
module LegacyPem {
  import opened Wrappers
  import opened TlsTables
  import opened Library

  /** The block the decrypted key is re-emitted in: no headers, PKCS#1 type label. */
  function RsaKeyBlock(key: Bytes): (b: PemBlock) {
    PemBlock("RSA PRIVATE KEY", map[], key)
  }

  /** The data's first block decodes and carries the legacy encryption header. */
  predicate IsEncrypted(env: Env, pemData: Bytes) {
    env.pemDecode(pemData).Some? && env.isEncryptedPemBlock(env.pemDecode(pemData).value)
  }

  function DecryptPem(env: Env, pemData: Bytes, password: string): (r: Result<Bytes, Error>)
    ensures r == Err(PemParseFailed) <==> env.pemDecode(pemData).None?
    ensures r == Err(PemEncryptedWithoutPassword) <==> IsEncrypted(env, pemData) && password == ""
    ensures env.pemDecode(pemData).Some? && !IsEncrypted(env, pemData) ==> r == Ok(pemData)
    ensures IsEncrypted(env, pemData) && password != "" ==>
      var decrypted := env.decryptPemBlock(env.pemDecode(pemData).value, password);
      (r.Ok? <==> decrypted.Ok?)
      && (r.Ok? ==> r.value == env.encodePem(RsaKeyBlock(decrypted.value)))
      && (r.Err? ==> r.error == Foreign(decrypted.error))
  {
    match env.pemDecode(pemData)
    case None => Err(PemParseFailed)
    case Some(block) =>
      if env.isEncryptedPemBlock(block) then
        if password == "" then Err(PemEncryptedWithoutPassword)
        else
          match env.decryptPemBlock(block, password)
          case Err(message) => Err(Foreign(message))
          case Ok(key) => Ok(env.encodePem(RsaKeyBlock(key)))
      else Ok(pemData)
  }

  /**
   * The re-emitted key block decodes back to itself and is not encrypted
   * (it carries no headers, so no legacy encryption header).
   */
  ghost predicate ReemitsPlainRsaKey(env: Env) {
    forall key: Bytes ::
      env.pemDecode(env.encodePem(RsaKeyBlock(key))) == Some(RsaKeyBlock(key))
      && !env.isEncryptedPemBlock(RsaKeyBlock(key))
  }

  /** The gate accepts its own output unchanged: a decrypted key loads again as it is. */
  lemma DecryptPemIdempotent(env: Env, pemData: Bytes, password: string)
    requires ReemitsPlainRsaKey(env)
    requires DecryptPem(env, pemData, password).Ok?
    ensures DecryptPem(env, DecryptPem(env, pemData, password).value, password) == DecryptPem(env, pemData, password)
  {
    if IsEncrypted(env, pemData) {
      var key := env.decryptPemBlock(env.pemDecode(pemData).value, password).value;
      assert env.pemDecode(env.encodePem(RsaKeyBlock(key))) == Some(RsaKeyBlock(key));
    }
  }

  /** The password only matters for an encrypted key. */
  lemma DecryptPemPasswordIrrelevant(env: Env, pemData: Bytes, p1: string, p2: string)
    requires !IsEncrypted(env, pemData)
    ensures DecryptPem(env, pemData, p1) == DecryptPem(env, pemData, p2)
  {
  }
}
