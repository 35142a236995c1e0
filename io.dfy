/** Values shared by the TLS configuration model: bytes, optional values,
    results, and the `std::io::Error` values the configuration returns. */
module Io {

  /** An unsigned 8-bit byte (`u8`). */
  newtype byte = b: int | 0 <= b < 0x100

  datatype Option<+T> = None | Some(value: T)

  datatype Result<+T, +E> = Ok(value: T) | Err(error: E)

  /** Which OpenSSL step reported the `ErrorStack` that was converted into
      an `io::Error`: creating the acceptor builder, parsing the PEM
      certificates, installing the leaf or an extra chain certificate,
      parsing or installing the private key, or setting the ALPN list. */
  datatype SslFailure =
    | AcceptorInit
    | CertParse
    | LeafRejected
    | ChainRejected
    | KeyParse
    | KeyRejected
    | AlpnRejected

  /** An `io::Error`: one built with `ErrorKind::Other` and a message, an
      operating-system error from opening or reading a file, or an OpenSSL
      error stack converted into an `io::Error`. */
  datatype IoError =
    | Other(message: string)
    | Os(code: int)
    | Ssl(failure: SslFailure)

  const EMPTY_KEY: IoError := Other("empty key")
  const EMPTY_CERT: IoError := Other("empty cert")
  const NO_LEAF_CERTIFICATE: IoError := Other("no leaf certificate")
}
