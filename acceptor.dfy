/** Building the TLS acceptor from an `OpensslConfig`: the certificate
    chain (leaf first, then the extra chain certificates in file order),
    then the private key, then the ALPN list and its selection callback,
    then the optional customisation hook.

    OpenSSL itself is not modelled: its PEM parsers and its verdict on each
    setting are an `Engine` given as a parameter. The builder is a record of
    what has been installed and of the calls made on it, in order. */
module Acceptor {
  import opened Io
  import opened Alpn
  import opened Keycerts

  /** A parsed X.509 certificate, standing for its DER encoding. */
  datatype Cert = Cert(der: seq<byte>)

  /** A parsed private key. */
  datatype PKey = PKey(der: seq<byte>)

  /** What an `SslAcceptorBuilder` has been given so far. */
  datatype Settings = Settings(
    leaf: Option<Cert>,
    extraChain: seq<Cert>,
    privateKey: Option<PKey>,
    alpnProtos: seq<byte>,
    alpnSelect: Option<AlpnCallback>)

  /** The builder `SslAcceptor::mozilla_intermediate` returns; its cipher and
      protocol-version profile is not modelled. */
  const BASELINE: Settings := Settings(None, [], None, [], None)

  /** A call made on the builder while it is configured. */
  datatype BuilderCall =
    | SetCertificate(cert: Cert)
    | AddExtraChainCert(cert: Cert)
    | SetPrivateKey(key: PKey)
    | SetAlpnProtos(protos: seq<byte>)
    | SetAlpnSelectCallback(callback: AlpnCallback)
    | RunBuilderFn(id: nat)

  datatype AcceptorBuilder = AcceptorBuilder(settings: Settings, calls: seq<BuilderCall>)

  /** The user's `builder_fn` hook: arbitrary code that may override any
      setting. `id` tells hooks apart in the call record. */
  datatype BuilderFn = BuilderFn(id: nat, apply: Settings -> Settings)

  /** OpenSSL's part: whether the baseline builder could be created, the PEM
      parsers, and whether a setting is accepted given what is installed. */
  datatype Engine = Engine(
    initOk: bool,
    stackFromPem: seq<byte> -> Option<seq<Cert>>,
    privateKeyFromPem: seq<byte> -> Option<PKey>,
    accepts: (Settings, BuilderCall) -> bool)

  /** What an accepted call installs. */
  function Install(s: Settings, c: BuilderCall): Settings
    requires !c.RunBuilderFn?
  {
    match c
    case SetCertificate(x) => s.(leaf := Some(x))
    case AddExtraChainCert(x) => s.(extraChain := s.extraChain + [x])
    case SetPrivateKey(k) => s.(privateKey := Some(k))
    case SetAlpnProtos(p) => s.(alpnProtos := p)
    case SetAlpnSelectCallback(cb) => s.(alpnSelect := Some(cb))
  }

  /** A fallible builder call: the engine accepts it and it is installed and
      recorded, or the build fails with `err`. */
  function Invoke(b: AcceptorBuilder, c: BuilderCall, e: Engine, err: IoError): (r: Result<AcceptorBuilder, IoError>)
    requires !c.RunBuilderFn?
    ensures r.Ok? <==> e.accepts(b.settings, c)
    ensures r.Ok? ==> r.value.calls == b.calls + [c]
    ensures r.Err? ==> r.error == err
  {
    if e.accepts(b.settings, c) then Ok(AcceptorBuilder(Install(b.settings, c), b.calls + [c]))
    else Err(err)
  }

  /** One `AddExtraChainCert` call per certificate, in order. */
  function ExtraCalls(certs: seq<Cert>): (calls: seq<BuilderCall>)
    ensures |calls| == |certs|
  {
    if certs == [] then []
    else ExtraCalls(certs[..|certs| - 1]) + [AddExtraChainCert(certs[|certs| - 1])]
  }

  lemma {:induction false} ExtraCallsAt(certs: seq<Cert>, j: nat)
    requires j < |certs|
    ensures ExtraCalls(certs)[j] == AddExtraChainCert(certs[j])
    decreases |certs|
  {
    if j < |certs| - 1 {
      ExtraCallsAt(certs[..|certs| - 1], j);
    }
  }

  /** The builder once the leaf `stack[0]` and the extra chain certificates
      `stack[1..i]` are installed. */
  function ChainBuilder(stack: seq<Cert>, i: nat): AcceptorBuilder
    requires 1 <= i <= |stack|
  {
    AcceptorBuilder(BASELINE.(leaf := Some(stack[0]), extraChain := stack[1..i]),
                    [SetCertificate(stack[0])] + ExtraCalls(stack[1..i]))
  }

  /** The engine accepts `stack[i]` as an extra chain certificate once the
      ones before it are installed. */
  predicate ExtraAccepted(stack: seq<Cert>, e: Engine, i: nat)
    requires 1 <= i < |stack|
  {
    e.accepts(ChainBuilder(stack, i).settings, AddExtraChainCert(stack[i]))
  }

  /** The engine accepts every extra chain certificate in turn. */
  predicate ChainAccepted(stack: seq<Cert>, e: Engine)
    requires 1 <= |stack|
  {
    forall i :: 1 <= i < |stack| ==> ExtraAccepted(stack, e, i)
  }

  /** Adding one certificate at the end adds one call at the end. */
  lemma ExtraCallsSnoc(certs: seq<Cert>, c: Cert)
    ensures ExtraCalls(certs + [c]) == ExtraCalls(certs) + [AddExtraChainCert(c)]
  {
    assert (certs + [c])[..|certs|] == certs;
  }

  /** Installing `stack[i]` after `stack[1..i]` gives the builder holding
      `stack[1..i + 1]`, or fails when the engine rejects it. */
  lemma ChainBuilderStep(stack: seq<Cert>, i: nat, e: Engine)
    requires 1 <= i < |stack|
    ensures Invoke(ChainBuilder(stack, i), AddExtraChainCert(stack[i]), e, Ssl(ChainRejected)) ==
            if ExtraAccepted(stack, e, i) then Ok(ChainBuilder(stack, i + 1)) else Err(Ssl(ChainRejected))
  {
    var b := ChainBuilder(stack, i);
    var c := AddExtraChainCert(stack[i]);
    if ExtraAccepted(stack, e, i) {
      var pre := stack[1..i];
      assert stack[1..i + 1] == pre + [stack[i]];
      ExtraCallsSnoc(pre, stack[i]);
      var next := AcceptorBuilder(Install(b.settings, c), b.calls + [c]);
      assert next.settings == ChainBuilder(stack, i + 1).settings;
      assert next.calls == ChainBuilder(stack, i + 1).calls;
      assert Invoke(b, c, e, Ssl(ChainRejected)) == Ok(next);
    }
  }

  /** Installing the leaf on the baseline builder gives the builder holding
      the leaf alone, or fails when the engine rejects it. */
  lemma ChainBuilderStart(stack: seq<Cert>, e: Engine)
    requires 1 <= |stack|
    ensures Invoke(AcceptorBuilder(BASELINE, []), SetCertificate(stack[0]), e, Ssl(LeafRejected)) ==
            if e.accepts(BASELINE, SetCertificate(stack[0])) then Ok(ChainBuilder(stack, 1)) else Err(Ssl(LeafRejected))
  {
    assert stack[1..1] == [];
    assert ExtraCalls(stack[1..1]) == [];
    assert Install(BASELINE, SetCertificate(stack[0])) == ChainBuilder(stack, 1).settings;
    assert [] + [SetCertificate(stack[0])] == ChainBuilder(stack, 1).calls;
  }

  /** The fully installed chain: leaf `stack[0]`, extra chain `stack[1..]`. */
  lemma ChainBuilderFull(stack: seq<Cert>)
    requires 1 <= |stack|
    ensures ChainBuilder(stack, |stack|).settings.leaf == Some(stack[0])
    ensures ChainBuilder(stack, |stack|).settings.extraChain == stack[1..]
  {
  }

  /** Installing the chain as a whole: the leaf must be accepted, then every
      extra certificate in turn. */
  function InstallChain(stack: seq<Cert>, e: Engine): Result<AcceptorBuilder, IoError>
    requires 1 <= |stack|
  {
    if !e.accepts(BASELINE, SetCertificate(stack[0])) then Err(Ssl(LeafRejected))
    else if !ChainAccepted(stack, e) then Err(Ssl(ChainRejected))
    else Ok(ChainBuilder(stack, |stack|))
  }

  /** The chain steps of `create_acceptor_builder`: `set_certificate` with
      the first certificate, then `add_extra_chain_cert` with each of the
      others in order, stopping at the first one the engine rejects. */
  method AddChain(stack: seq<Cert>, e: Engine) returns (r: Result<AcceptorBuilder, IoError>)
    requires 1 <= |stack|
    ensures r == InstallChain(stack, e)
    ensures r.Ok? ==> r.value.settings.leaf == Some(stack[0]) && r.value.settings.extraChain == stack[1..]
  {
    ChainBuilderStart(stack, e);
    r := Invoke(AcceptorBuilder(BASELINE, []), SetCertificate(stack[0]), e, Ssl(LeafRejected));
    if r.Err? {
      return;
    }
    r := AddExtras(stack, e, r.value);
    ChainBuilderFull(stack);
  }

  /** The `try_for_each` loop: `add_extra_chain_cert` with `stack[1..]` in
      order, once the leaf is installed, stopping at the first rejection. */
  method AddExtras(stack: seq<Cert>, e: Engine, b0: AcceptorBuilder) returns (r: Result<AcceptorBuilder, IoError>)
    requires 1 <= |stack| && e.accepts(BASELINE, SetCertificate(stack[0]))
    requires b0 == ChainBuilder(stack, 1)
    ensures r == InstallChain(stack, e)
  {
    var b := b0;
    var i := 1;
    while i < |stack|
      invariant 1 <= i <= |stack|
      invariant b == ChainBuilder(stack, i)
      invariant forall j :: 1 <= j < i ==> ExtraAccepted(stack, e, j)
    {
      ChainBuilderStep(stack, i, e);
      r := Invoke(b, AddExtraChainCert(stack[i]), e, Ssl(ChainRejected));
      if r.Err? {
        assert !ChainAccepted(stack, e) by {
          assert !ExtraAccepted(stack, e, i);
        }
        return;
      }
      b := r.value;
      i := i + 1;
    }
    assert ChainAccepted(stack, e);
    r := Ok(b);
  }

  /** The calls made after the chain: the key, the ALPN list, the selection
      callback, and the hook if there is one. */
  function TailCalls(k: PKey, hook: Option<BuilderFn>): seq<BuilderCall> {
    [SetPrivateKey(k), SetAlpnProtos(PROTOS), SetAlpnSelectCallback(SelectFrom(PROTOS))] +
    (if hook.Some? then [RunBuilderFn(hook.value.id)] else [])
  }

  /** Everything the core installs: leaf, chain, key, ALPN list and callback. */
  function Configured(stack: seq<Cert>, k: PKey): Settings
    requires 1 <= |stack|
  {
    Settings(Some(stack[0]), stack[1..], Some(k), PROTOS, Some(SelectFrom(PROTOS)))
  }

  /** The outcome of building an acceptor from the given certificate and key
      bytes, stated as a whole: every stage in order, the chain check as
      "every extra certificate is accepted", and on success the exact
      settings and call record. */
  function Build(certPem: seq<byte>, keyPem: seq<byte>, hook: Option<BuilderFn>, e: Engine): Result<AcceptorBuilder, IoError>
  {
    if !e.initOk then Err(Ssl(AcceptorInit))
    else if certPem == [] then Err(EMPTY_CERT)
    else match e.stackFromPem(certPem)
      case None => Err(Ssl(CertParse))
      case Some(stack) =>
        if stack == [] then Err(NO_LEAF_CERTIFICATE)
        else if InstallChain(stack, e).Err? then InstallChain(stack, e)
        else if keyPem == [] then Err(EMPTY_KEY)
        else match e.privateKeyFromPem(keyPem)
          case None => Err(Ssl(KeyParse))
          case Some(k) =>
            var chained := Configured(stack, k).(privateKey := None, alpnProtos := [], alpnSelect := None);
            var keyed := chained.(privateKey := Some(k));
            if !e.accepts(chained, SetPrivateKey(k)) then Err(Ssl(KeyRejected))
            else if !e.accepts(keyed, SetAlpnProtos(PROTOS)) then Err(Ssl(AlpnRejected))
            else
              var calls := [SetCertificate(stack[0])] + ExtraCalls(stack[1..]) + TailCalls(k, hook);
              Ok(AcceptorBuilder(if hook.Some? then hook.value.apply(Configured(stack, k)) else Configured(stack, k), calls))
  }

  /** An empty certificate buffer fails the build before the key is looked
      at, so an empty key is never what is reported then. */
  lemma EmptyCertReportedFirst(keyPem: seq<byte>, hook: Option<BuilderFn>, e: Engine)
    requires e.initOk
    ensures Build([], keyPem, hook, e) == Err(EMPTY_CERT)
  {
  }

  /** A certificate buffer holding no certificate fails with "no leaf
      certificate". */
  lemma NoLeafCertificate(certPem: seq<byte>, keyPem: seq<byte>, hook: Option<BuilderFn>, e: Engine)
    requires e.initOk && certPem != [] && e.stackFromPem(certPem) == Some([])
    ensures Build(certPem, keyPem, hook, e) == Err(NO_LEAF_CERTIFICATE)
  {
  }

  /** On success the leaf is the first parsed certificate, the extra chain is
      the rest in file order, and (unless the hook overrides them) the key,
      the ALPN list and the selection callback are installed. */
  lemma BuiltSettings(certPem: seq<byte>, keyPem: seq<byte>, hook: Option<BuilderFn>, e: Engine,
                      stack: seq<Cert>, k: PKey)
    requires e.stackFromPem(certPem) == Some(stack) && e.privateKeyFromPem(keyPem) == Some(k)
    requires Build(certPem, keyPem, hook, e).Ok?
    ensures |stack| >= 1 && certPem != [] && keyPem != []
    ensures hook.None? ==> Build(certPem, keyPem, hook, e).value.settings ==
                           Settings(Some(stack[0]), stack[1..], Some(k), PROTOS, Some(SelectFrom(PROTOS)))
    ensures hook.Some? ==> Build(certPem, keyPem, hook, e).value.settings ==
                           hook.value.apply(Configured(stack, k))
  {
  }

  /** On success the calls come in this order: the leaf, each extra chain
      certificate in file order, the private key (never before the
      certificates), the ALPN list, the selection callback, and last the
      hook, exactly once when one is set and never otherwise. */
  lemma {:induction false} CallOrder(certPem: seq<byte>, keyPem: seq<byte>, hook: Option<BuilderFn>, e: Engine,
                                     stack: seq<Cert>, k: PKey)
    requires e.stackFromPem(certPem) == Some(stack) && e.privateKeyFromPem(keyPem) == Some(k)
    requires Build(certPem, keyPem, hook, e).Ok?
    ensures var calls := Build(certPem, keyPem, hook, e).value.calls;
      && |stack| >= 1
      && |calls| == |stack| + 3 + (if hook.Some? then 1 else 0)
      && calls[0] == SetCertificate(stack[0])
      && (forall j :: 1 <= j < |stack| ==> calls[j] == AddExtraChainCert(stack[j]))
      && calls[|stack|] == SetPrivateKey(k)
      && calls[|stack| + 1] == SetAlpnProtos(PROTOS)
      && calls[|stack| + 2] == SetAlpnSelectCallback(SelectFrom(PROTOS))
      && (hook.Some? ==> calls[|calls| - 1] == RunBuilderFn(hook.value.id))
      && (forall j :: 0 <= j < |stack| + 3 ==> !calls[j].RunBuilderFn?)
  {
    var calls := Build(certPem, keyPem, hook, e).value.calls;
    var extras := ExtraCalls(stack[1..]);
    assert calls == [SetCertificate(stack[0])] + extras + TailCalls(k, hook);
    forall j | 1 <= j < |stack| ensures calls[j] == AddExtraChainCert(stack[j]) {
      ExtraCallsAt(stack[1..], j - 1);
      assert calls[j] == extras[j - 1];
    }
  }

  /** Builder configuration for the TLS server: key material and an
      optional hook. */
  class OpensslConfig {
    var keycert: Keycert
    var builderFn: Option<BuilderFn>

    /** `OpensslConfig::new`: takes the key material by value, so the
        configuration holds its own copy that the caller can no longer
        change; no hook. */
    constructor (keycert: Keycert)
      ensures fresh(this.keycert)
      ensures this.keycert.key == keycert.key && this.keycert.cert == keycert.cert
      ensures builderFn == None
    {
      var owned := new Keycert();
      owned.WithKey(keycert.key);
      owned.WithCert(keycert.cert);
      this.keycert := owned;
      builderFn := None;
    }

    /** `set_builder_fn`: replaces the hook. */
    method SetBuilderFn(f: BuilderFn)
      modifies this
      ensures builderFn == Some(f) && keycert == old(keycert)
    {
      builderFn := Some(f);
    }

    /** `create_acceptor_builder`: configures a fresh builder step by step;
        the first failing step ends the build with its error. */
    method CreateAcceptorBuilder(e: Engine) returns (r: Result<AcceptorBuilder, IoError>)
      ensures r == Build(keycert.cert, keycert.key, builderFn, e)
    {
      if !e.initOk {
        return Err(Ssl(AcceptorInit));
      }
      var certPem := keycert.Cert();
      if certPem.Err? {
        return Err(certPem.error);
      }
      var parsed := e.stackFromPem(certPem.value);
      if parsed.None? {
        return Err(Ssl(CertParse));
      }
      var stack := parsed.value;
      if stack == [] {
        return Err(NO_LEAF_CERTIFICATE);
      }
      r := AddChain(stack, e);
      if r.Err? {
        return;
      }
      var b := r.value;
      assert stack[1..|stack|] == stack[1..];
      var keyPem := keycert.Key();
      if keyPem.Err? {
        return Err(keyPem.error);
      }
      var key := e.privateKeyFromPem(keyPem.value);
      if key.None? {
        return Err(Ssl(KeyParse));
      }
      var k := key.value;
      r := Invoke(b, SetPrivateKey(k), e, Ssl(KeyRejected));
      if r.Err? {
        return;
      }
      b := r.value;
      r := Invoke(b, SetAlpnProtos(PROTOS), e, Ssl(AlpnRejected));
      if r.Err? {
        return;
      }
      b := r.value;
      var cb := SelectFrom(PROTOS);
      b := AcceptorBuilder(Install(b.settings, SetAlpnSelectCallback(cb)), b.calls + [SetAlpnSelectCallback(cb)]);
      assert b.settings == Configured(stack, k);
      assert b.calls == [SetCertificate(stack[0])] + ExtraCalls(stack[1..]) + TailCalls(k, None);
      if builderFn.Some? {
        var f := builderFn.value;
        b := AcceptorBuilder(f.apply(b.settings), b.calls + [RunBuilderFn(f.id)]);
      }
      assert b.calls == [SetCertificate(stack[0])] + ExtraCalls(stack[1..]) + TailCalls(k, builderFn);
      r := Ok(b);
    }
  }
}
