/**
 * The client's side of the negotiation, written from the standards: method
 * selection and CONNECT request (sections 3 to 5 of RFC 1928), username and
 * password (section 2 of RFC 1929). The server of module Socks5 dials for
 * exactly these messages.
 */
module Socks5Messages {
  import opened Util
  import opened Socks5
  import Utf8

  datatype Message = Message(methods: Bytes, login: Credentials, reserved: byte, target: Target)

  predicate Short(b: Bytes) {
    |b| < 256
  }

  predicate ValidTarget(t: Target) {
    && t.port < 0x1_0000
    && match t.host
       case IPv4(octets) => |octets| == 4
       case Name(text) => Short(text) && Utf8.Valid(text)
       case IPv6(octets) => |octets| == 16
  }

  predicate ValidMessage(m: Message) {
    && Short(m.methods) && 0x02 in m.methods
    && Short(m.login.user) && Short(m.login.pass)
    && ValidTarget(m.target)
  }

  function Counted(b: Bytes): (r: Bytes)
    requires Short(b)
    ensures |r| == 1 + |b|
  {
    [|b| as byte] + b
  }

  function EncodeAddress(t: Target): Bytes
    requires ValidTarget(t)
  {
    match t.host
    case IPv4(octets) => octets + ToBe16(t.port)
    case Name(text) => Counted(text) + ToBe16(t.port)
    case IPv6(octets) => octets + ToBe16(t.port)
  }

  function AddressType(host: Host): byte {
    match host
    case IPv4(_) => 0x01
    case Name(_) => 0x03
    case IPv6(_) => 0x04
  }

  function EncodeRequest(reserved: byte, t: Target): Bytes
    requires ValidTarget(t)
  {
    [0x05, 0x01, reserved, AddressType(t.host)] + EncodeAddress(t)
  }

  function EncodeLogin(login: Credentials): Bytes
    requires Short(login.user) && Short(login.pass)
  {
    [0x01] + Counted(login.user) + Counted(login.pass)
  }

  function EncodeGreeting(methods: Bytes): Bytes
    requires Short(methods)
  {
    [0x05] + Counted(methods)
  }

  function Encode(m: Message): Bytes
    requires ValidMessage(m)
  {
    EncodeGreeting(m.methods) + EncodeLogin(m.login) + EncodeRequest(m.reserved, m.target)
  }

  // ---- Reading an encoding --------------------------------------------------

  /** One pending read, delivered in full. */
  lemma Deliver(p: Phase, got: Bytes, rest: Bytes, auth: Credentials, room: nat)
    requires !p.Final() && |got| == p.Need()
    ensures var a := Respond(p, got, auth, room);
            Parse(p, got + rest, auth, room) == After(|got|, a.sent, Parse(a.phase, rest, auth, room - |a.sent|))
  {
    hide Parse, Respond;
    assert (got + rest)[..|got|] == got && (got + rest)[|got|..] == rest;
    ParseRead(p, got + rest, auth, room);
  }

  lemma ReadAddress(t: Target, rest: Bytes, auth: Credentials, room: nat)
    requires ValidTarget(t)
    ensures var p := if t.host.IPv4? then IPv4Body else if t.host.Name? then NameLength else IPv6Body;
            Parse(p, EncodeAddress(t) + rest, auth, room) == Outcome(Dialing(t), |EncodeAddress(t)|, [])
  {
    hide Parse, Utf8.Valid;
    var port := ToBe16(t.port);
    ParseEnd(Dialing(t), rest, auth, room);
    match t.host
    case IPv4(octets) =>
      assert (octets + port)[..4] == octets;
      Deliver(IPv4Body, octets + port, rest, auth, room);
    case Name(text) =>
      var length := [|text| as byte];
      assert EncodeAddress(t) + rest == length + ((text + port) + rest);
      Deliver(NameLength, length, (text + port) + rest, auth, room);
      assert (text + port)[..|text|] == text;
      Deliver(NameBody(|text|), text + port, rest, auth, room);
    case IPv6(octets) =>
      assert (octets + port)[..16] == octets;
      Deliver(IPv6Body, octets + port, rest, auth, room);
  }

  lemma ReadRequest(reserved: byte, t: Target, rest: Bytes, auth: Credentials, room: nat)
    requires ValidTarget(t)
    ensures Parse(Head, EncodeRequest(reserved, t) + rest, auth, room)
         == Outcome(Dialing(t), |EncodeRequest(reserved, t)|, [])
  {
    hide Parse, EncodeAddress;
    var head := [0x05, 0x01, reserved, AddressType(t.host)];
    assert EncodeRequest(reserved, t) + rest == head + (EncodeAddress(t) + rest);
    Deliver(Head, head, EncodeAddress(t) + rest, auth, room);
    ReadAddress(t, rest, auth, room);
  }

  lemma ReadLogin(login: Credentials, rest: Bytes, auth: Credentials, room: nat)
    requires Short(login.user) && Short(login.pass) && room >= 2
    ensures Parse(AuthVersion, EncodeLogin(login) + rest, auth, room)
         == if login == auth then After(|EncodeLogin(login)|, AUTH_OK, Parse(Head, rest, auth, room - 2))
            else Outcome(Dead(BadCredentials), |EncodeLogin(login)|, AUTH_FAILED)
  {
    hide Parse;
    var user, pass := login.user, login.pass;
    var ulen, plen := [|user| as byte], [|pass| as byte];
    var afterPass := pass + rest;
    var afterUser := plen + afterPass;
    assert EncodeLogin(login) + rest == [0x01] + (ulen + (user + afterUser));
    Deliver(AuthVersion, [0x01], ulen + (user + afterUser), auth, room);
    Deliver(UserLength, ulen, user + afterUser, auth, room);
    Deliver(User(|user|), user, afterUser, auth, room);
    Deliver(PassLength(user), plen, afterPass, auth, room);
    Deliver(Pass(user, |pass|), pass, rest, auth, room);
    ParseEnd(Dead(BadCredentials), rest, auth, room - 2);
  }

  lemma ReadGreeting(methods: Bytes, rest: Bytes, auth: Credentials, room: nat)
    requires Short(methods) && 0x02 in methods && room >= 2
    ensures Parse(Greeting, EncodeGreeting(methods) + rest, auth, room)
         == After(|EncodeGreeting(methods)|, METHOD_USER_PASS, Parse(AuthVersion, rest, auth, room - 2))
  {
    hide Parse;
    var head := [0x05, |methods| as byte];
    assert EncodeGreeting(methods) + rest == head + (methods + rest);
    Deliver(Greeting, head, methods + rest, auth, room);
    Deliver(Methods(|methods|), methods, rest, auth, room);
  }

  /**
   * Every well-formed client message is understood: with the right login its
   * target is dialled, with any other the login is refused; what follows the
   * message stays on the stream.
   */
  lemma RoundTrip(m: Message, suffix: Bytes, auth: Credentials, room: nat)
    requires ValidMessage(m) && room >= 4
    ensures Parse(Greeting, Encode(m) + suffix, auth, room)
         == if m.login == auth then Outcome(Dialing(m.target), |Encode(m)|, PRELUDE)
            else Outcome(Dead(BadCredentials), |EncodeGreeting(m.methods) + EncodeLogin(m.login)|,
                         METHOD_USER_PASS + AUTH_FAILED)
  {
    hide Parse, EncodeGreeting, EncodeLogin, EncodeRequest;
    var greeting, login := EncodeGreeting(m.methods), EncodeLogin(m.login);
    var request := EncodeRequest(m.reserved, m.target);
    assert Encode(m) + suffix == greeting + (login + (request + suffix));
    ReadGreeting(m.methods, login + (request + suffix), auth, room);
    ReadLogin(m.login, request + suffix, auth, room - 2);
    ReadRequest(m.reserved, m.target, suffix, auth, room - 4);
    assert AUTH_OK + [] == AUTH_OK;
  }

  // ---- Only encodings are accepted ------------------------------------------

  /** A negotiation that reaches the dial got through its pending read. */
  lemma Received(p: Phase, input: Bytes, auth: Credentials, room: nat) returns (got: Bytes, rest: Bytes)
    requires !p.Final() && Parse(p, input, auth, room).phase.Dialing?
    ensures |got| == p.Need() && input == got + rest
    ensures var a := Respond(p, got, auth, room);
            Parse(p, input, auth, room) == After(|got|, a.sent, Parse(a.phase, rest, auth, room - |a.sent|))
    ensures !Respond(p, got, auth, room).phase.Dead?
  {
    hide Parse, Respond, Phase.Need;
    if |input| < p.Need() {
      ParseEnd(p, input, auth, room);
    }
    got, rest := input[..p.Need()], input[p.Need()..];
    Deliver(p, got, rest, auth, room);
    var a := Respond(p, got, auth, room);
    if a.phase.Dead? {
      ParseEnd(a.phase, rest, auth, room - |a.sent|);
    }
  }

  lemma NameInverse(input: Bytes, auth: Credentials, room: nat) returns (t: Target)
    requires Parse(NameLength, input, auth, room).phase.Dialing?
    ensures t.host.Name? && ValidTarget(t) && Parse(NameLength, input, auth, room).phase == Dialing(t)
    ensures EncodeAddress(t) <= input
  {
    hide Parse, Utf8.Valid;
    var got, rest := Received(NameLength, input, auth, room);
    var length := got[0] as nat;
    var text, tail := Received(NameBody(length), rest, auth, room);
    t := Respond(NameBody(length), text, auth, room).phase.target;
    ParseEnd(Dialing(t), tail, auth, room);
    assert got == [length as byte];
    assert text == text[..length] + ToBe16(t.port);
    assert EncodeAddress(t) == got + text;
    assert input == EncodeAddress(t) + tail;
  }

  lemma IPv4Inverse(input: Bytes, auth: Credentials, room: nat) returns (t: Target)
    requires Parse(IPv4Body, input, auth, room).phase.Dialing?
    ensures t.host.IPv4? && ValidTarget(t) && Parse(IPv4Body, input, auth, room).phase == Dialing(t)
    ensures EncodeAddress(t) <= input
  {
    hide Parse, Utf8.Valid;
    var got, rest := Received(IPv4Body, input, auth, room);
    t := Respond(IPv4Body, got, auth, room).phase.target;
    ParseEnd(Dialing(t), rest, auth, room);
    assert got == got[..4] + ToBe16(t.port) == EncodeAddress(t);
  }

  lemma IPv6Inverse(input: Bytes, auth: Credentials, room: nat) returns (t: Target)
    requires Parse(IPv6Body, input, auth, room).phase.Dialing?
    ensures t.host.IPv6? && ValidTarget(t) && Parse(IPv6Body, input, auth, room).phase == Dialing(t)
    ensures EncodeAddress(t) <= input
  {
    hide Parse, Utf8.Valid;
    var got, rest := Received(IPv6Body, input, auth, room);
    t := Respond(IPv6Body, got, auth, room).phase.target;
    ParseEnd(Dialing(t), rest, auth, room);
    assert got == got[..16] + ToBe16(t.port) == EncodeAddress(t);
  }

  lemma RequestInverse(input: Bytes, auth: Credentials, room: nat) returns (reserved: byte, t: Target)
    requires Parse(Head, input, auth, room).phase.Dialing?
    ensures ValidTarget(t) && Parse(Head, input, auth, room).phase == Dialing(t)
    ensures EncodeRequest(reserved, t) <= input
  {
    hide Parse, EncodeAddress, Utf8.Valid, ValidTarget;
    var got, rest := Received(Head, input, auth, room);
    match Respond(Head, got, auth, room).phase {
      case IPv4Body => t := IPv4Inverse(rest, auth, room);
      case NameLength => t := NameInverse(rest, auth, room);
      case IPv6Body => t := IPv6Inverse(rest, auth, room);
    }
    reserved := got[2];
    assert got == [0x05, 0x01, reserved, AddressType(t.host)];
  }

  lemma LoginInverse(input: Bytes, auth: Credentials, room: nat) returns (rest: Bytes)
    requires Parse(AuthVersion, input, auth, room).phase.Dialing?
    ensures Short(auth.user) && Short(auth.pass) && room >= 2
    ensures input == EncodeLogin(auth) + rest
    ensures Parse(AuthVersion, input, auth, room).phase == Parse(Head, rest, auth, room - 2).phase
  {
    hide Parse;
    var version, r1 := Received(AuthVersion, input, auth, room);
    var ulen, r2 := Received(UserLength, r1, auth, room);
    var user, r3 := Received(User(ulen[0] as nat), r2, auth, room);
    var plen, r4 := Received(PassLength(user), r3, auth, room);
    var pass;
    pass, rest := Received(Pass(user, plen[0] as nat), r4, auth, room);
    assert version == [0x01] && ulen == [|user| as byte] && plen == [|pass| as byte];
    assert input == EncodeLogin(auth) + rest;
  }

  lemma GreetingInverse(input: Bytes, auth: Credentials, room: nat) returns (methods: Bytes, rest: Bytes)
    requires Parse(Greeting, input, auth, room).phase.Dialing?
    ensures Short(methods) && 0x02 in methods && room >= 2
    ensures input == EncodeGreeting(methods) + rest
    ensures Parse(Greeting, input, auth, room).phase == Parse(AuthVersion, rest, auth, room - 2).phase
  {
    hide Parse;
    var head, r1 := Received(Greeting, input, auth, room);
    methods, rest := Received(Methods(head[1] as nat), r1, auth, room);
    assert head == [0x05, |methods| as byte];
    assert input == EncodeGreeting(methods) + rest;
  }

  /** The message at the front of an accepted stream, login included. */
  lemma AcceptedMessage(input: Bytes, auth: Credentials, room: nat) returns (m: Message)
    requires Parse(Greeting, input, auth, room).phase.Dialing?
    ensures ValidMessage(m) && m.login == auth && room >= 4
    ensures Encode(m) <= input
    ensures Parse(Greeting, input, auth, room) == Outcome(Dialing(m.target), |Encode(m)|, PRELUDE)
  {
    hide Parse, EncodeGreeting, EncodeLogin, EncodeRequest;
    var methods, afterGreeting := GreetingInverse(input, auth, room);
    var afterLogin := LoginInverse(afterGreeting, auth, room - 2);
    var reserved, t := RequestInverse(afterLogin, auth, room - 4);
    m := Message(methods, auth, reserved, t);
    var suffix := afterLogin[|EncodeRequest(reserved, t)|..];
    assert afterLogin == EncodeRequest(reserved, t) + suffix;
    assert input == Encode(m) + suffix;
    RoundTrip(m, suffix, auth, room);
  }

  ghost predicate StartsWithMessage(input: Bytes, m: Message, auth: Credentials) {
    ValidMessage(m) && m.login == auth && Encode(m) <= input
  }

  /**
   * The dial is reached if and only if the stream starts with a well-formed
   * message carrying the server's own login, and the client takes both replies.
   */
  lemma DialIffMessage(input: Bytes, auth: Credentials, room: nat)
    ensures Parse(Greeting, input, auth, room).phase.Dialing?
       <==> room >= 4 && exists m :: StartsWithMessage(input, m, auth)
  {
    hide Parse, Encode, ValidMessage;
    if Parse(Greeting, input, auth, room).phase.Dialing? {
      var m := AcceptedMessage(input, auth, room);
      assert StartsWithMessage(input, m, auth);
    }
    if room >= 4 {
      forall m | StartsWithMessage(input, m, auth)
        ensures Parse(Greeting, input, auth, room).phase.Dialing?
      {
        var suffix := input[|Encode(m)|..];
        assert input == Encode(m) + suffix;
        RoundTrip(m, suffix, auth, room);
      }
    }
  }

  lemma FrontInjective(m: Message, m': Message, s: Bytes)
    requires ValidMessage(m) && ValidMessage(m') && m.login == m'.login
    requires Encode(m) <= s && Encode(m') <= s
    ensures m.methods == m'.methods && m.reserved == m'.reserved
  {
    hide EncodeAddress, ValidTarget;
    assert s[1] as nat == |m.methods| == |m'.methods|;
    assert m.methods == s[2..2 + |m.methods|] && m'.methods == s[2..2 + |m'.methods|];
    var request := |EncodeGreeting(m.methods) + EncodeLogin(m.login)|;
    assert m.reserved == s[request + 2] && m'.reserved == s[request + 2];
  }

  /** No message is a proper prefix of another with the same login, and encoding loses nothing. */
  lemma PrefixFree(m: Message, m': Message, suffix: Bytes, suffix': Bytes)
    requires ValidMessage(m) && ValidMessage(m') && m.login == m'.login
    requires Encode(m) + suffix == Encode(m') + suffix'
    ensures m == m' && suffix == suffix'
  {
    hide Parse, Encode, ValidMessage;
    var s := Encode(m) + suffix;
    RoundTrip(m, suffix, m.login, 4);
    RoundTrip(m', suffix', m.login, 4);
    assert suffix == s[|Encode(m)|..] && suffix' == s[|Encode(m')|..];
    FrontInjective(m, m', s);
  }
}
