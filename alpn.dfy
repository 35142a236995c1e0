/** Application-Layer Protocol Negotiation as the acceptor configures it:
    the advertised protocol list in the wire format of section 3.1 of
    RFC 7301 (each name prefixed by its one-byte length), and the server's
    selection routine, which picks the first protocol in the server's
    preference order that the client also offers. */
module Alpn {
  import opened Io

  type ProtocolName = seq<byte>

  /** "h2" */
  const H2: ProtocolName := [0x68, 0x32]
  /** "http/1.1" */
  const HTTP_1_1: ProtocolName := [0x68, 0x74, 0x74, 0x70, 0x2f, 0x31, 0x2e, 0x31]

  /** The advertised list `b"\x02h2\x08http/1.1"`. */
  const PROTOS: seq<byte> := [0x02] + H2 + [0x08] + HTTP_1_1

  /** The server's protocols, in preference order. */
  const SERVER_PROTOCOLS: seq<ProtocolName> := [H2, HTTP_1_1]

  /** A ProtocolName of RFC 7301 is one to 255 bytes long. */
  predicate ValidName(p: ProtocolName) {
    1 <= |p| <= 255
  }

  predicate ValidList(names: seq<ProtocolName>) {
    forall i :: 0 <= i < |names| ==> ValidName(names[i])
  }

  /** Wire form of a protocol list: each name preceded by its length. */
  function Encode(names: seq<ProtocolName>): (wire: seq<byte>)
    requires ValidList(names)
    ensures |wire| >= |names|
    ensures names != [] ==> |wire| > |names[0]| && wire[0] as int == |names[0]| &&
                            wire[1..1 + |names[0]|] == names[0]
  {
    if names == [] then []
    else [|names[0]| as byte] + names[0] + Encode(names[1..])
  }

  /** Reads a wire-format list; `None` when a length byte is zero or runs past
      the end of the input. */
  function Decode(wire: seq<byte>): (r: Option<seq<ProtocolName>>)
    decreases |wire|
  {
    if wire == [] then Some([])
    else
      var n := wire[0] as int;
      if n == 0 || n > |wire| - 1 then None
      else
        match Decode(wire[1 + n..])
        case None => None
        case Some(rest) => Some([wire[1..1 + n]] + rest)
  }

  /** Decoding an encoded list gives the list back. */
  lemma {:induction false} DecodeEncode(names: seq<ProtocolName>)
    requires ValidList(names)
    ensures Decode(Encode(names)) == Some(names)
  {
    if names != [] {
      var wire := Encode(names);
      var n := |names[0]|;
      assert ValidList(names[1..]) by {
        forall i | 0 <= i < |names[1..]| ensures ValidName(names[1..][i]) {
          assert names[1..][i] == names[i + 1];
        }
      }
      assert wire[1 + n..] == Encode(names[1..]);
      DecodeEncode(names[1..]);
      assert [names[0]] + names[1..] == names;
    }
  }

  /** One step of a successful decode: the first name and the decoded rest. */
  lemma DecodeCons(wire: seq<byte>, names: seq<ProtocolName>)
    requires wire != [] && Decode(wire) == Some(names)
    ensures 1 <= wire[0] as int <= |wire| - 1
    ensures Decode(wire[1 + wire[0] as int..]).Some?
    ensures names == [wire[1..1 + wire[0] as int]] + Decode(wire[1 + wire[0] as int..]).value
  {
  }

  /** Prepending a valid name keeps a list valid, and its encoding is the
      name's length byte and the name in front of the rest's encoding. */
  lemma EncodeCons(p: ProtocolName, rest: seq<ProtocolName>)
    requires ValidName(p) && ValidList(rest)
    ensures ValidList([p] + rest)
    ensures Encode([p] + rest) == [|p| as byte] + p + Encode(rest)
  {
    forall i | 0 <= i < |[p] + rest| ensures ValidName(([p] + rest)[i]) {
      if i > 0 { assert ([p] + rest)[i] == rest[i - 1]; }
    }
    assert ([p] + rest)[1..] == rest;
  }

  /** A wire list whose first length byte is in range splits into that byte,
      the name it announces, and the rest. */
  lemma SplitWire(wire: seq<byte>)
    requires wire != [] && 1 <= wire[0] as int <= |wire| - 1
    ensures |wire[1..1 + wire[0] as int]| as byte == wire[0]
    ensures wire == [wire[0]] + wire[1..1 + wire[0] as int] + wire[1 + wire[0] as int..]
  {
  }

  /** Every list that decodes is valid, and encoding it gives back exactly
      the bytes it was read from. */
  lemma {:induction false} EncodeDecode(wire: seq<byte>, names: seq<ProtocolName>)
    requires Decode(wire) == Some(names)
    ensures ValidList(names) && Encode(names) == wire
    decreases |wire|
  {
    if wire != [] {
      DecodeCons(wire, names);
      var n := wire[0] as int;
      var rest := Decode(wire[1 + n..]).value;
      EncodeDecode(wire[1 + n..], rest);
      EncodeCons(wire[1..1 + n], rest);
      SplitWire(wire);
    }
  }

  /** The advertised bytes are exactly the encoding of h2 then http/1.1. */
  lemma ProtosEncodeServerProtocols()
    ensures ValidList(SERVER_PROTOCOLS)
    ensures Encode(SERVER_PROTOCOLS) == PROTOS
    ensures Decode(PROTOS) == Some(SERVER_PROTOCOLS)
  {
    assert SERVER_PROTOCOLS[1..] == [HTTP_1_1];
    assert SERVER_PROTOCOLS[1..][1..] == [];
    assert Encode([HTTP_1_1]) == [0x08] + HTTP_1_1 + Encode([]);
    assert Encode(SERVER_PROTOCOLS) == [0x02] + H2 + Encode([HTTP_1_1]);
    DecodeEncode(SERVER_PROTOCOLS);
  }

  /** OpenSSL's `select_next_proto` on decoded lists: the first server
      protocol, in server order, that the client offers. */
  function SelectNextProto(server: seq<ProtocolName>, client: seq<ProtocolName>): (r: Option<ProtocolName>)
    ensures r.Some? ==> r.value in server && r.value in client
    ensures r.None? <==> forall p :: p in server ==> p !in client
    ensures r.Some? ==> exists i :: 0 <= i < |server| && server[i] == r.value &&
                                    forall j :: 0 <= j < i ==> server[j] !in client
  {
    if server == [] then None
    else if server[0] in client then Some(server[0])
    else
      var r := SelectNextProto(server[1..], client);
      assert r.Some? ==> exists i :: 0 <= i < |server[1..]| && server[1..][i] == r.value &&
                                     forall j :: 0 <= j < i ==> server[1..][j] !in client;
      assert r.Some? ==> exists i :: 0 <= i < |server| && server[i] == r.value &&
                                     forall j :: 0 <= j < i ==> server[j] !in client by {
        if r.Some? {
          var i :| 0 <= i < |server[1..]| && server[1..][i] == r.value &&
                   forall j :: 0 <= j < i ==> server[1..][j] !in client;
          assert server[i + 1] == r.value;
          forall j | 0 <= j < i + 1 ensures server[j] !in client {
            if j > 0 { assert server[j] == server[1..][j - 1]; }
          }
        }
      }
      r
  }

  /** The client's order never matters: two offers with the same protocols
      get the same answer. */
  lemma {:induction false} ClientOrderIrrelevant(server: seq<ProtocolName>, c1: seq<ProtocolName>, c2: seq<ProtocolName>)
    requires forall p :: p in c1 <==> p in c2
    ensures SelectNextProto(server, c1) == SelectNextProto(server, c2)
  {
    if server != [] {
      ClientOrderIrrelevant(server[1..], c1, c2);
    }
  }

  /** What the ALPN select callback answers. */
  datatype AlpnOutcome = Selected(protocol: ProtocolName) | NoAck

  /** The installed select callback: it captures the server's wire list. */
  datatype AlpnCallback = SelectFrom(server: seq<byte>)

  /** `select_next_proto(server, list).ok_or(AlpnError::NOACK)` on the
      client's wire-format offer. */
  function Negotiate(cb: AlpnCallback, clientWire: seq<byte>): (r: AlpnOutcome)
    ensures r.Selected? ==> Decode(clientWire).Some? && r.protocol in Decode(clientWire).value
  {
    match (Decode(cb.server), Decode(clientWire))
    case (Some(server), Some(client)) =>
      (match SelectNextProto(server, client)
       case Some(p) => Selected(p)
       case None => NoAck)
    case _ => NoAck
  }

  /** With the advertised list, h2 wins whenever offered, http/1.1 otherwise,
      and without either the answer is NOACK, whatever order the client uses. */
  lemma ServerPreference(client: seq<ProtocolName>)
    requires ValidList(client)
    ensures H2 in client ==> Negotiate(SelectFrom(PROTOS), Encode(client)) == Selected(H2)
    ensures H2 !in client && HTTP_1_1 in client ==>
              Negotiate(SelectFrom(PROTOS), Encode(client)) == Selected(HTTP_1_1)
    ensures H2 !in client && HTTP_1_1 !in client ==>
              Negotiate(SelectFrom(PROTOS), Encode(client)) == NoAck
  {
    ProtosEncodeServerProtocols();
    DecodeEncode(client);
    assert SERVER_PROTOCOLS[1..] == [HTTP_1_1];
  }

  /** A client offering ["http/1.1", "h2"] gets h2. */
  lemma ClientOrderExample()
    ensures Negotiate(SelectFrom(PROTOS), [0x08] + HTTP_1_1 + [0x02] + H2) == Selected(H2)
  {
    var offer := [HTTP_1_1, H2];
    assert offer[1..] == [H2] && offer[1..][1..] == [];
    assert Encode([H2]) == [0x02] + H2 + Encode([]);
    assert Encode(offer) == [0x08] + HTTP_1_1 + Encode([H2]);
    assert Encode(offer) == [0x08] + HTTP_1_1 + [0x02] + H2;
    ServerPreference(offer);
  }

  /** A client offering only ["spdy/1"], or nothing at all, gets NOACK. */
  lemma NoOverlapExamples()
    ensures Negotiate(SelectFrom(PROTOS), [0x06, 0x73, 0x70, 0x64, 0x79, 0x2f, 0x31]) == NoAck
    ensures Negotiate(SelectFrom(PROTOS), []) == NoAck
  {
    var spdy: ProtocolName := [0x73, 0x70, 0x64, 0x79, 0x2f, 0x31];
    assert [spdy][1..] == [];
    assert Encode([spdy]) == [0x06] + spdy + Encode([]);
    assert Encode([spdy]) == [0x06, 0x73, 0x70, 0x64, 0x79, 0x2f, 0x31];
    ServerPreference([spdy]);
    ServerPreference([]);
  }
}
