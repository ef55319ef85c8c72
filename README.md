# TLS settings builder of kafka-proxy, modelled in Dafny

This project models the TLS settings builder of the proxy (`proxy/tls.go`).
The builder turns the operator's TLS options into a `tls.Config` for two roles:

- the listener, the server side that Kafka clients connect to;
- the client, the side used for connections to the Kafka brokers.

It covers four parts of the builder.

- **Name resolution.** Configured cipher-suite and curve names are trimmed of white space with Go's `strings.TrimSpace`. Each trimmed name is looked up in a fixed table: 14 cipher suites and 4 curves. The first unknown name fails the whole list, and the error quotes that name as configured. An empty list gives the fixed defaults: the six ECDHE AEAD suites, and the curves P-256 and X25519.
- **The legacy-PEM gate** (`decryptPEM`). Key data that does not parse as PEM is an error. A block carrying the legacy encryption header needs a non-empty password. Such a block is decrypted and re-emitted as an "RSA PRIVATE KEY" block. Any other block passes through byte for byte.
- **Listener settings** (`newTLSListenerConfig`). The certificate and key paths must both be non-empty. Then come the key pair, the cipher suites, the curves and the CA chain, in that order, and the first failure is returned. A CA chain switches client authentication to require-and-verify.
- **Client settings** (`newTLSClientConfig`). The client key pair is loaded only when both paths are given. A CA chain replaces the default trust roots. The skip-verify flag is copied as it is.

Layout, one module per file:

- `wrappers.dfy`: `Option`, `Result`.
- `tls_tables.dfy`: the identifiers, the tables, the defaults, the errors and their texts.
- `strings.dfy`: `TrimSpace`.
- `name_resolution.dfy`: the resolvers.
- `library.dfy`: the library calls, as the fields of `Env`.
- `legacy_pem.dfy`: `DecryptPem`.
- `tls_config.dfy`: the two builders.

The file-system and crypto library calls are parameters of the model. Each is a total function field of `Library.Env` that may fail:

- `ioutil.ReadFile`;
- `pem.Decode`, `pem.EncodeToMemory`;
- `x509.IsEncryptedPEMBlock`, `x509.DecryptPEMBlock`;
- `tls.X509KeyPair`;
- `CertPool.AppendCertsFromPEM`;
- `BuildNameToCertificate`.

Their errors are passed on unchanged as `Error.Foreign(message)`, as the Go code does with `return nil, err`. The builders check options before any file is read. The model states this as a result that holds for every `Env`.

## Model

| member | source | states |
|---|---|---|
| `TlsTables.Message` | proxy/tls.go:110-128 | the text of an unknown cipher-suite or curve error contains the configured name, untrimmed, at a fixed position; a library error keeps its own text |
| `Strings.TrimSpace` | proxy/tls.go:110 | the trimmed name is no longer than the input and neither starts nor ends with white space |
| `Strings.TrimSpaceSplit` | proxy/tls.go:110 | every string is its trimmed core with white space before and after: `s == pre + TrimSpace(s) + post` |
| `Strings.TrimSpaceUnique` | proxy/tls.go:110 | trimming `pre + m + post`, with white-space `pre` and `post` and an unpadded `m`, gives exactly `m` |
| `Strings.TrimSpacePadded` | proxy/tls.go:125 | white space added around a name never changes what it trims to |
| `Strings.TrimSpaceIdempotent` | proxy/tls.go:110 | trimming twice is trimming once |
| `NameResolution.ResolveEach` | proxy/tls.go:107-115 | a successful lookup yields one value per name; a failure names one of the configured names |
| `NameResolution.ResolveEachKnown` | proxy/tls.go:109-115 | the lookup succeeds exactly when every trimmed name is in the table, and then yields the table values in input order |
| `NameResolution.ResolveEachFirstUnknown` | proxy/tls.go:110-113 | when some trimmed name is missing, the lookup fails with the first such name as configured, untrimmed |
| `NameResolution.ResolveEachErr` | proxy/tls.go:110-113 | every failure is of that kind: it names the first unknown name, and all names before it are known |
| `NameResolution.ResolveDefaults` | proxy/tls.go:116-119 | the empty list yields the defaults; a non-empty list never takes the default branch |
| `NameResolution.ResolveEachTrimInvariant` | proxy/tls.go:110 | two name lists that trim alike resolve alike: both succeed with the same values, or both fail at the same position |
| `NameResolution.ResolveNames` | proxy/tls.go:107-119 | the loop that trims, looks up, appends and returns early computes the specified resolution, defaults included |
| `NameResolution.GetCipherSuites` | proxy/tls.go:107-120 | returns `CipherSuitesOf(names)`, the functional model of the source function: the cipher suites the name list selects, or the invalid-cipher-suite error for the first unknown name |
| `NameResolution.GetCurvePreferences` | proxy/tls.go:122-135 | returns `CurvePreferencesOf(names)`, the functional model of the source function: the curves the name list selects, or the invalid-curve error for the first unknown name |
| `NameResolution.CipherSuitesContract` | proxy/tls.go:107-120 | about `CipherSuitesOf`: the empty list gives exactly the six default suites; success happens exactly when all names are known; then there is one suite per name in input order; otherwise the error is for the first unknown name |
| `NameResolution.CurvePreferencesContract` | proxy/tls.go:122-135 | about `CurvePreferencesOf`: the same for curves, with [P256, X25519] as default |
| `NameResolution.DefaultCipherSuitesByName` | proxy/tls.go:26-50 | the default suites are the table entries of the six ECDHE AEAD names, in the declared default order |
| `NameResolution.CipherSuitesTrimInvariant` | proxy/tls.go:110 | cipher-suite lists that trim alike select the same suites, or fail at the same position |
| `NameResolution.CurvePreferencesTrimInvariant` | proxy/tls.go:125 | curve lists that trim alike select the same curves, or fail at the same position |
| `NameResolution.PaddedCurveName` | proxy/tls.go:122-135 | `" P256 "` selects exactly what `"P256"` selects: the P-256 curve alone |
| `LegacyPem.DecryptPem` | proxy/tls.go:179-200 | unparsable data fails with the parse error, and only such data does; an encrypted block with an empty password fails with the password error, and only such a block does; an unencrypted block returns the input unchanged; an encrypted block with a password yields the decrypted key re-emitted as an "RSA PRIVATE KEY" block, or the decryption error |
| `LegacyPem.DecryptPemIdempotent` | proxy/tls.go:189-199 | when the re-emitted headerless "RSA PRIVATE KEY" block decodes back to itself and is not encrypted, the gate's output passes through the gate again unchanged |
| `LegacyPem.DecryptPemPasswordIrrelevant` | proxy/tls.go:185-199 | the password changes nothing unless the block is encrypted |
| `TlsConfigBuilder.LoadKeyPair` | proxy/tls.go:59-74 | the certificate read, the key read, the PEM gate and the key pairing run in that order; the first failure is returned; otherwise the result is the pair of the certificate and the gated key |
| `TlsConfigBuilder.LoadKeyPairPasswordIrrelevant` | proxy/tls.go:144-159 | loading a key pair from an unencrypted key does not depend on the password |
| `TlsConfigBuilder.NewTlsListenerConfig` | proxy/tls.go:53-105 | an empty key or cert path fails first; then the key pair, cipher suites, curves, CA read and CA parse fail in that order; success happens exactly when all pass; a success has one certificate, minimum version TLS 1.2, server cipher preference, the resolved suites and curves, and require-and-verify client authentication with the CA pool exactly when a CA chain is configured (otherwise no client certificate and no pool) |
| `TlsConfigBuilder.NewTlsClientConfig` | proxy/tls.go:137-177 | the key pair is loaded, and can fail, only when both paths are given; then the CA read and parse can fail; success happens exactly when these pass; skip-verify is copied; certificates and name index are set only when both paths are given; root CAs are set only when a CA chain is configured; every other field keeps its zero value |

## Left out

- `proxy/util_test.go`: test fixtures made of real TCP listeners, dialers, SOCKS5 and HTTP proxies, goroutines with timeouts, certificate generation and temporary files. All of it is network I/O, concurrency or real cryptography.
- The dialers (direct, SOCKS5, HTTP CONNECT, TLS) and the TLS handshake itself. Their source is not part of this model, and the handshake belongs to Go's `crypto/tls`.
- The internals of the library calls (`ioutil.ReadFile`, `pem.Decode`, `x509.IsEncryptedPEMBlock`, `x509.DecryptPEMBlock`, `pem.EncodeToMemory`, `tls.X509KeyPair`, `x509.NewCertPool` with `AppendCertsFromPEM`, `BuildNameToCertificate`). They are uninterpreted fields of `Env`. `NewCertPool` is an empty pool value.
- `x509.DecryptPEMBlock`'s error is passed on unchanged as `Foreign`; there is no separate decryption-failure error (proxy/tls.go:189-191).
- The client key is read and decrypted only when both the client cert path and the client key path are non-empty (proxy/tls.go:143).
- `config.Config` is not part of this model. Only the fields the builder reads are modelled, as `ProxyTlsOptions` and `KafkaTlsOptions`.
- Go strings are byte strings. The model uses Unicode characters, so names that are not valid UTF-8 are not modelled.
- Go distinguishes a nil slice from an empty slice, and a nil map from an empty map. The model writes both as empty and Go's nil pool pointers as `None`.
- When the list is empty, Go returns the package-level default slice itself. Aliasing of that slice by the caller is not modelled; the model returns the default value.
