/** The private key and certificate-chain bytes handed to the acceptor
    builder. Both buffers start empty; setters replace a buffer, the
    file loaders append a file's bytes to it, and the accessors refuse an
    empty buffer. */
module Keycerts {
  import opened Io

  /** What opening and reading a whole file produced. Reading is done by the
      caller's file system; the model receives its outcome. A read that fails
      part-way has already appended the bytes it got. */
  datatype FileRead =
    | OpenFailed(error: IoError)
    | ReadFailed(partial: seq<byte>, error: IoError)
    | ReadAll(contents: seq<byte>)
  {
    /** The bytes `read_to_end` appended to the buffer. */
    function Appended(): seq<byte> {
      match this
      case OpenFailed(_) => []
      case ReadFailed(partial, _) => partial
      case ReadAll(contents) => contents
    }
  }

  class Keycert {
    var key: seq<byte>
    var cert: seq<byte>

    /** `Keycert::new()` (and `Default`): both buffers empty. */
    constructor ()
      ensures key == [] && cert == []
    {
      key := [];
      cert := [];
    }

    /** `key_from_path`: appends the file's bytes to the key buffer. On an
        open or read error the value is not returned. */
    method KeyFromPath(file: FileRead) returns (r: Result<Keycert, IoError>)
      modifies this
      ensures key == old(key) + file.Appended() && cert == old(cert)
      ensures file.OpenFailed? ==> key == old(key)
      ensures file.ReadAll? <==> r.Ok?
      ensures r.Ok? ==> r.value == this
      ensures r.Err? ==> r.error == file.error
    {
      match file
      case OpenFailed(e) =>
        r := Err(e);
      case ReadFailed(partial, e) =>
        key := key + partial;
        r := Err(e);
      case ReadAll(contents) =>
        key := key + contents;
        r := Ok(this);
    }

    /** `with_key`: replaces the key buffer. */
    method WithKey(k: seq<byte>)
      modifies this
      ensures key == k && cert == old(cert)
    {
      key := k;
    }

    /** `cert_from_path`: appends the file's bytes to the certificate buffer. */
    method CertFromPath(file: FileRead) returns (r: Result<Keycert, IoError>)
      modifies this
      ensures cert == old(cert) + file.Appended() && key == old(key)
      ensures file.OpenFailed? ==> cert == old(cert)
      ensures file.ReadAll? <==> r.Ok?
      ensures r.Ok? ==> r.value == this
      ensures r.Err? ==> r.error == file.error
    {
      match file
      case OpenFailed(e) =>
        r := Err(e);
      case ReadFailed(partial, e) =>
        cert := cert + partial;
        r := Err(e);
      case ReadAll(contents) =>
        cert := cert + contents;
        r := Ok(this);
    }

    /** `with_cert`: replaces the certificate buffer. */
    method WithCert(c: seq<byte>)
      modifies this
      ensures cert == c && key == old(key)
    {
      cert := c;
    }

    /** `key()`: fails exactly when the key buffer is empty; changes nothing. */
    method Key() returns (r: Result<seq<byte>, IoError>)
      ensures r.Err? <==> key == []
      ensures r.Ok? ==> r.value == key
      ensures r.Err? ==> r.error == EMPTY_KEY
    {
      if key == [] {
        r := Err(EMPTY_KEY);
      } else {
        r := Ok(key);
      }
    }

    /** `cert()`: fails exactly when the certificate buffer is empty; changes
        nothing. */
    method Cert() returns (r: Result<seq<byte>, IoError>)
      ensures r.Err? <==> cert == []
      ensures r.Ok? ==> r.value == cert
      ensures r.Err? ==> r.error == EMPTY_CERT
    {
      if cert == [] {
        r := Err(EMPTY_CERT);
      } else {
        r := Ok(cert);
      }
    }
  }

  /** A fresh value has neither key nor certificate. */
  method FreshKeycertIsEmpty() returns (rk: Result<seq<byte>, IoError>, rc: Result<seq<byte>, IoError>)
    ensures rk == Err(EMPTY_KEY) && rc == Err(EMPTY_CERT)
  {
    var kc := new Keycert();
    rk := kc.Key();
    rc := kc.Cert();
  }

  /** `with_key(b).key()` gives `b` back unless `b` is empty, and leaves the
      certificate as it was; likewise `with_cert(b).cert()` and the key. */
  method SetThenGet(priorKey: seq<byte>, priorCert: seq<byte>, b: seq<byte>)
    returns (rk: Result<seq<byte>, IoError>, certKept: seq<byte>,
             rc: Result<seq<byte>, IoError>, keyKept: seq<byte>)
    ensures rk == (if b == [] then Err(EMPTY_KEY) else Ok(b)) && certKept == priorCert
    ensures rc == (if b == [] then Err(EMPTY_CERT) else Ok(b)) && keyKept == priorKey
  {
    var kc := new Keycert();
    kc.WithKey(priorKey);
    kc.WithCert(priorCert);
    kc.WithKey(b);
    rk := kc.Key();
    certKept := kc.cert;
    kc.WithKey(priorKey);
    kc.WithCert(b);
    rc := kc.Cert();
    keyKept := kc.key;
  }

  /** Loading a key file into a buffer that already holds bytes keeps them
      in front: the loaders append, they do not replace. */
  method LoadAppends(prefix: seq<byte>, contents: seq<byte>) returns (r: Result<seq<byte>, IoError>)
    requires prefix != []
    ensures r == Ok(prefix + contents)
  {
    var kc := new Keycert();
    kc.WithKey(prefix);
    var loaded := kc.KeyFromPath(ReadAll(contents));
    r := kc.Key();
  }
}
