# TLS acceptor configuration and request-size limiter, modelled in Dafny

This project models the OpenSSL configuration layer of a Rust web server's
TLS listener, and its request-size limiter middleware:

- **`Keycert`** (`keycert.dfy`, module `Keycerts`): holds the private-key bytes and the
  certificate-chain bytes. Both start empty. `with_key`/`with_cert` replace a buffer.
  `key_from_path`/`cert_from_path` append a file's bytes to it. `key()`/`cert()` fail
  with "empty key"/"empty cert" exactly when the buffer is empty.
- **`create_acceptor_builder`** (`acceptor.dfy`, module `Acceptor`): builds an
  `SslAcceptorBuilder` step by step. The order is:
  1. the baseline builder from `SslAcceptor::mozilla_intermediate`, whose failure is
     reported before anything else;
  2. the certificate accessor;
  3. the PEM certificate stack, which fails with "no leaf certificate" when empty;
  4. the leaf (first certificate), then every other certificate as an extra chain
     certificate, in file order;
  5. the key accessor, then the parsed private key;
  6. the ALPN protocol list, then the selection callback;
  7. the optional `builder_fn` hook, last and once.

  The builder is a record of what has been installed plus the list of calls made on it.
  OpenSSL (its baseline builder, PEM parsers and its verdict on each setting) is the
  `Engine` parameter. `Build` states the outcome of a whole build declaratively.
  `OpensslConfig.CreateAcceptorBuilder` is proved equal to it. Lemmas then read off
  the leaf/chain order, the order of calls, and error precedence.
- **ALPN** (`alpn.dfy`, module `Alpn`): the advertised list `\x02h2\x08http/1.1`
  in the length-prefixed wire format of section 3.1 of RFC 7301. The module has a
  decoder and an encoder with round-trip lemmas in both directions. It also models
  OpenSSL's `select_next_proto`: the first protocol in the server's order that the
  client offers, or NOACK.
- **`IntoConfigStream`** (`config_stream.dfy`, module `ConfigStream`): a single
  configuration becomes a one-item stream. A stream passes through unchanged.
- **`MaxSizeHandler`** (`size_limiter.dfy`, module `SizeLimiter`): sets 413 Payload
  Too Large only when the request has a body, the body's size hint has an upper
  bound, and that bound is strictly above the limit.

`io.dfy` (module `Io`) holds the shared byte type, `Option`, `Result` and the
`io::Error` values. The errors raised by the code are `ErrorKind::Other` with the
messages "empty key", "empty cert" and "no leaf certificate". Errors from the
file system are OS errors. OpenSSL failures are tagged with the step that failed.

Notes on the code:
- the `builder_fn` hook returns nothing and cannot fail;
- every error is a `std::io::Error`;
- loading a file appends to the buffer.

## Model

| member | source | states |
|---|---|---|
| `Keycerts.Keycert.constructor` | crates/core/src/conn/openssl/config.rs:32-37 | a new value has an empty key buffer and an empty certificate buffer |
| `Keycerts.Keycert.KeyFromPath` | crates/core/src/conn/openssl/config.rs:40-44 | the key buffer becomes the old buffer followed by the bytes read (nothing if the open failed); the certificate is untouched; the value is returned only when the whole file was read, otherwise the I/O error is |
| `Keycerts.Keycert.WithKey` | crates/core/src/conn/openssl/config.rs:48-51 | the key buffer is replaced by the given bytes; the certificate is untouched |
| `Keycerts.Keycert.CertFromPath` | crates/core/src/conn/openssl/config.rs:55-59 | the certificate buffer becomes the old buffer followed by the bytes read; the key is untouched; success only when the whole file was read |
| `Keycerts.Keycert.WithCert` | crates/core/src/conn/openssl/config.rs:63-66 | the certificate buffer is replaced by the given bytes; the key is untouched |
| `Keycerts.Keycert.Key` | crates/core/src/conn/openssl/config.rs:70-76 | fails with "empty key" exactly when the key buffer is empty, otherwise returns the buffer; changes nothing |
| `Keycerts.Keycert.Cert` | crates/core/src/conn/openssl/config.rs:80-86 | fails with "empty cert" exactly when the certificate buffer is empty, otherwise returns the buffer; changes nothing |
| `Keycerts.FreshKeycertIsEmpty` | crates/core/src/conn/openssl/config.rs:32-37 | on a fresh value both `key()` and `cert()` fail |
| `Keycerts.SetThenGet` | crates/core/src/conn/openssl/config.rs:48-86 | after `with_key(b)`, `key()` is `Ok(b)` for non-empty `b` and "empty key" for empty `b`, and the certificate is kept; the same for `with_cert`/`cert()` |
| `Keycerts.LoadAppends` | crates/core/src/conn/openssl/config.rs:40-51 | loading a key file after `with_key(p)` yields `p` followed by the file's bytes, not a replacement |
| `Alpn.Encode` | crates/core/src/conn/openssl/config.rs:135 | the encoding starts with the first name's length byte followed by that name |
| `Alpn.DecodeEncode` | crates/core/src/conn/openssl/config.rs:135 | decoding the encoding of any valid protocol list gives the list back |
| `Alpn.EncodeDecode` | crates/core/src/conn/openssl/config.rs:135 | every byte string that decodes yields a valid list, and that list encodes back to the same bytes |
| `Alpn.ProtosEncodeServerProtocols` | crates/core/src/conn/openssl/config.rs:135-136 | the advertised bytes decode to exactly ["h2", "http/1.1"] in that order, and that list encodes back to them |
| `Alpn.SelectNextProto` | crates/core/src/conn/openssl/config.rs:138-140 | the result is in both lists and is the first server protocol the client offers; it is none exactly when the lists share nothing |
| `Alpn.ClientOrderIrrelevant` | crates/core/src/conn/openssl/config.rs:139 | two client offers holding the same protocols get the same selection, whatever their order |
| `Alpn.Negotiate` | crates/core/src/conn/openssl/config.rs:138-140 | a selected protocol is one the client offered |
| `Alpn.ServerPreference` | crates/core/src/conn/openssl/config.rs:135-140 | with the advertised list: h2 whenever offered; otherwise http/1.1 when offered; otherwise NOACK |
| `Alpn.ClientOrderExample` | crates/core/src/conn/openssl/config.rs:138-140 | the offer ["http/1.1", "h2"] selects h2 |
| `Alpn.NoOverlapExamples` | crates/core/src/conn/openssl/config.rs:138-140 | the offer ["spdy/1"] and the empty offer both get NOACK |
| `Acceptor.Invoke` | crates/core/src/conn/openssl/config.rs:125-136 | a fallible builder call succeeds exactly when the engine accepts it, appends itself to the call record, and otherwise fails with its own error |
| `Acceptor.ExtraCallsAt` | crates/core/src/conn/openssl/config.rs:131 | the j-th extra-chain call adds the j-th remaining certificate |
| `Acceptor.AddChain` | crates/core/src/conn/openssl/config.rs:123-131 | the loop over the drained stack equals the whole-chain specification; on success the leaf is `stack[0]` and the extra chain is `stack[1..]` in order |
| `Acceptor.AddExtras` | crates/core/src/conn/openssl/config.rs:131 | with the leaf installed, adding `stack[1..]` one by one and stopping at the first rejection gives exactly the whole-chain outcome: failure exactly when some extra certificate is rejected, otherwise the builder holding the whole chain |
| `Acceptor.OpensslConfig.constructor` | crates/core/src/conn/openssl/config.rs:107-109 | the configuration holds its own copy of the given key and certificate bytes, which the caller can no longer change, and no hook |
| `Acceptor.OpensslConfig.SetBuilderFn` | crates/core/src/conn/openssl/config.rs:112-117 | the hook is replaced by the given one; the key material is untouched |
| `Acceptor.OpensslConfig.CreateAcceptorBuilder` | crates/core/src/conn/openssl/config.rs:120-145 | the step-by-step build returns exactly what `Build` specifies for the configuration's certificate bytes, key bytes, hook and engine |
| `Acceptor.EmptyCertReportedFirst` | crates/core/src/conn/openssl/config.rs:123-132 | an empty certificate buffer fails with "empty cert" whatever the key is, because the certificate is checked first |
| `Acceptor.NoLeafCertificate` | crates/core/src/conn/openssl/config.rs:123-128 | a certificate buffer that parses to no certificate fails with "no leaf certificate" |
| `Acceptor.BuiltSettings` | crates/core/src/conn/openssl/config.rs:123-143 | a successful build has a stack of at least one certificate and non-empty buffers; its leaf is `stack[0]`, its extra chain `stack[1..]`, its key the parsed key, and its ALPN list and callback the advertised ones; with a hook, the result is the hook applied to exactly those settings |
| `Acceptor.CallOrder` | crates/core/src/conn/openssl/config.rs:123-143 | a successful build calls, in order: set the leaf, add each extra certificate in file order, set the private key, set the ALPN list, set the selection callback, then the hook as the single last call when set and never otherwise |
| `ConfigStream.IntoStream` | crates/core/src/conn/openssl/config.rs:148-165 | a single configuration becomes a stream of exactly that one item; a stream yields the same items in the same order |
| `ConfigStream.IntoStreamIdempotent` | crates/core/src/conn/openssl/config.rs:148-165 | converting the converted stream again changes nothing |
| `ConfigStream.SingleIsOneItemStream` | crates/core/src/conn/openssl/config.rs:151-153 | a single configuration converts to the same stream as a one-item stream holding it |
| `SizeLimiter.UpperBound` | extra/src/size_limiter/mod.rs:10 | there is a bound exactly when the request has a body whose size hint has an upper bound, and the bound is that upper bound |
| `SizeLimiter.Response.SetHttpError` | extra/src/size_limiter/mod.rs:12 | the response records the error and takes its status code |
| `SizeLimiter.MaxSizeHandler.Handle` | extra/src/size_limiter/mod.rs:9-15 | an oversized request gets error PayloadTooLarge and status 413; any other request leaves the response's error and status as they were |
| `SizeLimiter.TooLargeExactly` | extra/src/size_limiter/mod.rs:10-14 | a request is refused exactly when it has a body, the upper bound is known, and it is strictly greater than the limit; a bound equal to the limit passes |
| `SizeLimiter.TooLargeMonotone` | extra/src/size_limiter/mod.rs:11 | a request refused under a limit is refused under every smaller limit |
| `SizeLimiter.MaxSize` | extra/src/size_limiter/mod.rs:18-20 | the handler's limit is exactly the given size |
| `SizeLimiter.FullBody` | extra/src/size_limiter/mod.rs:42-47 | a body made from a whole string has the byte length of its UTF-8 encoding as its size hint |
| `SizeLimiter.LimitOf32` | extra/src/size_limiter/mod.rs:34-58 | with limit 32, the body "abc" leaves the status unset and a 104-byte body gets status 413 |

## Left out

- File access: opening and reading a file (`File::open`, `read_to_end`) is not modelled. Its outcome is a `FileRead` parameter: open failed, read failed after some bytes, or the whole contents.
- Keycerts.Keycert.KeyFromPath: in Rust a failed load drops the whole value. In the model the object outlives the error, and its buffer holds the bytes read before the failure.
- Keycerts.Keycert.CertFromPath: the same as `KeyFromPath`: the object outlives a failed load, and its certificate buffer holds the bytes read before the failure.
- Keycerts.Keycert.Key: returns a copy of the buffer rather than a borrowed slice, and the same holds for `Cert`.
- OpenSSL is not modelled; it is the `Engine` parameter. This covers the `mozilla_intermediate` cipher and protocol profile, `X509::stack_from_pem`, `PKey::private_key_from_pem`, and the engine's acceptance or rejection of each setting. An OpenSSL error stack is reduced to the step that failed.
- Acceptor.OpensslConfig.CreateAcceptorBuilder: the hook's changes are a function on the installed settings. A hook that panics is not modelled.
- Alpn.Negotiate: a client list that is not well-formed gets NOACK. OpenSSL's TLS layer rejects such an ALPN extension before the callback runs. The selected protocol is a value, not a pointer into either buffer.
- ConfigStream.IntoStream: a stream is the finite sequence of items it yields. The `Arc`/`Send + Sync` sharing of the hook, the `Once`/`Ready` futures, and what a listener does with each item are not modelled. That includes swapping the live context and keeping the old one when a build fails.
- The `Debug` implementation of `OpensslConfig` (config.rs:97-102) only formats a name.
- SizeLimiter.MaxSizeHandler.Handle: the body's size hint is an input, because hyper computes it. The router and service that run the handler in the test are not modelled. The test's 3-byte request reaching the `hello` handler is modelled as the response status staying unset.
- examples/remote-addr/src/main.rs only wires a router to a TCP listener and is not part of this model.
