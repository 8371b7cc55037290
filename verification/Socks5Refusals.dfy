/**
 * What a client is told, and how much of its stream is gone, when its message is not
 * one the server accepts: every early return of the negotiation, with the bytes on the
 * wire written out. The source sends no reply to a malformed request.
 */
module Socks5Refusals {
  import opened Util
  import opened Socks5
  import opened Socks5Messages
  import Utf8

  /** Not version 5: dropped after two bytes, without a word. */
  lemma OtherVersion(version: byte, count: byte, suffix: Bytes, auth: Credentials, room: nat)
    requires version != 5
    ensures Parse(Greeting, [version, count] + suffix, auth, room) == Outcome(Dead(NotSocks5), 2, [])
  {
    hide Parse;
    Deliver(Greeting, [version, count], suffix, auth, room);
    ParseEnd(Dead(NotSocks5), suffix, auth, room);
  }

  /** The method selection, both ways, and what is left of the answer if the client takes less than two bytes. */
  lemma MethodsAnswered(methods: Bytes, suffix: Bytes, auth: Credentials, room: nat)
    requires |methods| < 256
    ensures var o := Parse(Greeting, [5, |methods| as byte] + methods + suffix, auth, room);
            if room < 2 then
              o == Outcome(Dead(Io), 2 + |methods|, [5, if 2 in methods then 2 else 0xFF][..room])
            else if 2 !in methods then
              o == Outcome(Dead(RefusedUserPass), 2 + |methods|, [5, 0xFF])
            else
              o == After(2 + |methods|, [5, 2], Parse(AuthVersion, suffix, auth, room - 2))
  {
    hide Parse;
    var head := [5, |methods| as byte];
    assert head + methods + suffix == head + (methods + suffix);
    Deliver(Greeting, head, methods + suffix, auth, room);
    Deliver(Methods(|methods|), methods, suffix, auth, room);
    ParseEnd(Dead(Io), suffix, auth, 0);
    if room >= 2 {
      ParseEnd(Dead(RefusedUserPass), suffix, auth, room - 2);
    }
  }

  /** Not version 1 of the subnegotiation: dropped after one more byte. */
  lemma OtherAuthVersion(methods: Bytes, version: byte, suffix: Bytes, auth: Credentials, room: nat)
    requires |methods| < 256 && 2 in methods && version != 1 && room >= 2
    ensures Parse(Greeting, [5, |methods| as byte] + methods + ([version] + suffix), auth, room)
         == Outcome(Dead(BadAuthVersion), 3 + |methods|, [5, 2])
  {
    hide Parse;
    MethodsAnswered(methods, [version] + suffix, auth, room);
    Deliver(AuthVersion, [version], suffix, auth, room - 2);
    ParseEnd(Dead(BadAuthVersion), suffix, auth, room - 2);
  }

  /** Methods and login, as they go over the wire. */
  function Front(methods: Bytes, login: Credentials): Bytes
    requires Short(methods) && Short(login.user) && Short(login.pass)
  {
    [5, |methods| as byte] + methods
    + ([1, |login.user| as byte] + login.user + ([|login.pass| as byte] + login.pass))
  }

  /** The login, whatever follows it: granted exactly if it is the server's own, else refused at once. */
  lemma LoginAnswered(methods: Bytes, login: Credentials, suffix: Bytes, auth: Credentials, room: nat)
    requires Short(methods) && 2 in methods && Short(login.user) && Short(login.pass) && room >= 4
    ensures var o := Parse(Greeting, Front(methods, login) + suffix, auth, room);
            if login == auth then o == After(|Front(methods, login)|, [5, 2, 1, 0], Parse(Head, suffix, auth, room - 4))
            else o == Outcome(Dead(BadCredentials), |Front(methods, login)|, [5, 2, 1, 1])
  {
    hide Parse, EncodeLogin;
    FrontIs(methods, login, suffix);
    var own := EncodeLogin(login);
    MethodsAnswered(methods, own + suffix, auth, room);
    ReadLogin(login, suffix, auth, room - 2);
    var rest := Parse(Head, suffix, auth, room - 4);
    hide Front;
    assert [5, 2] + ([1, 0] + rest.sent) == [5, 2, 1, 0] + rest.sent;
  }

  lemma FrontIs(methods: Bytes, login: Credentials, suffix: Bytes)
    requires Short(methods) && Short(login.user) && Short(login.pass)
    ensures Front(methods, login) + suffix == [5, |methods| as byte] + methods + (EncodeLogin(login) + suffix)
    ensures |Front(methods, login)| == 2 + |methods| + |EncodeLogin(login)|
  {
    assert [1, |login.user| as byte] + login.user + ([|login.pass| as byte] + login.pass) == EncodeLogin(login);
    hide EncodeLogin;
  }

  /** Behind a granted login, a request that is dropped after `used` bytes leaves the client with the two replies. */
  lemma RequestDropped(methods: Bytes, suffix: Bytes, auth: Credentials, room: nat, error: Error, used: nat)
    requires Short(methods) && 2 in methods && Short(auth.user) && Short(auth.pass) && room >= 4
    requires Parse(Head, suffix, auth, room - 4) == Outcome(Dead(error), used, [])
    ensures Parse(Greeting, Front(methods, auth) + suffix, auth, room)
         == Outcome(Dead(error), |Front(methods, auth)| + used, [5, 2, 1, 0])
  {
    hide Parse, Front;
    LoginAnswered(methods, auth, suffix, auth, room);
  }

  /** Another version, or a command other than CONNECT: dropped after the four bytes of the head. */
  lemma OtherCommand(methods: Bytes, head: Bytes, suffix: Bytes, auth: Credentials, room: nat)
    requires Short(methods) && 2 in methods && Short(auth.user) && Short(auth.pass) && room >= 4
    requires |head| == 4 && (head[0] != 5 || head[1] != 1)
    ensures Parse(Greeting, Front(methods, auth) + (head + suffix), auth, room)
         == Outcome(Dead(UnsupportedRequest), |Front(methods, auth)| + 4, [5, 2, 1, 0])
  {
    hide Parse, Front;
    Deliver(Head, head, suffix, auth, room - 4);
    ParseEnd(Dead(UnsupportedRequest), suffix, auth, room - 4);
    RequestDropped(methods, head + suffix, auth, room, UnsupportedRequest, 4);
  }

  /** An address type other than 1, 3 and 4. */
  lemma OtherAddressType(methods: Bytes, reserved: byte, kind: byte, suffix: Bytes, auth: Credentials, room: nat)
    requires Short(methods) && 2 in methods && Short(auth.user) && Short(auth.pass) && room >= 4
    requires kind !in {1, 3, 4}
    ensures Parse(Greeting, Front(methods, auth) + ([5, 1, reserved, kind] + suffix), auth, room)
         == Outcome(Dead(BadAddressType), |Front(methods, auth)| + 4, [5, 2, 1, 0])
  {
    hide Parse, Front;
    Deliver(Head, [5, 1, reserved, kind], suffix, auth, room - 4);
    ParseEnd(Dead(BadAddressType), suffix, auth, room - 4);
    RequestDropped(methods, [5, 1, reserved, kind] + suffix, auth, room, BadAddressType, 4);
  }

  /** A name that is not UTF-8: its length, the name and the port are gone. */
  lemma OtherName(methods: Bytes, reserved: byte, name: Bytes, port: Bytes, suffix: Bytes, auth: Credentials, room: nat)
    requires Short(methods) && 2 in methods && Short(auth.user) && Short(auth.pass) && room >= 4
    requires |name| < 256 && |port| == 2 && !Utf8.Valid(name)
    ensures var address := [|name| as byte] + (name + port + suffix);
            Parse(Greeting, Front(methods, auth) + ([5, 1, reserved, 3] + address), auth, room)
            == Outcome(Dead(BadHost), |Front(methods, auth)| + 7 + |name|, [5, 2, 1, 0])
  {
    hide Parse, Front, Utf8.Valid;
    var body := name + port;
    var rest := [|name| as byte] + (body + suffix);
    Deliver(Head, [5, 1, reserved, 3], rest, auth, room - 4);
    Deliver(NameLength, [|name| as byte], body + suffix, auth, room - 4);
    assert body[..|name|] == name;
    Deliver(NameBody(|name|), body, suffix, auth, room - 4);
    ParseEnd(Dead(BadHost), suffix, auth, room - 4);
    RequestDropped(methods, [5, 1, reserved, 3] + rest, auth, room, BadHost, 7 + |name|);
  }

  // ---- The three kinds of address on the wire, each with the port in network order ----

  function Port(high: byte, low: byte): nat {
    256 * (high as nat) + low as nat
  }

  lemma FourOctets(reserved: byte, ip: Bytes, high: byte, low: byte, suffix: Bytes, auth: Credentials, room: nat)
    requires |ip| == 4
    ensures Parse(Head, [5, 1, reserved, 1] + (ip + [high, low] + suffix), auth, room)
         == Outcome(Dialing(Target(IPv4(ip), Port(high, low))), 10, [])
  {
    hide Parse;
    var body := ip + [high, low];
    assert body[..4] == ip;
    Deliver(Head, [5, 1, reserved, 1], body + suffix, auth, room);
    Deliver(IPv4Body, body, suffix, auth, room);
    ParseEnd(Dialing(Target(IPv4(ip), Port(high, low))), suffix, auth, room);
  }

  lemma SixteenOctets(reserved: byte, ip: Bytes, high: byte, low: byte, suffix: Bytes, auth: Credentials, room: nat)
    requires |ip| == 16
    ensures Parse(Head, [5, 1, reserved, 4] + (ip + [high, low] + suffix), auth, room)
         == Outcome(Dialing(Target(IPv6(ip), Port(high, low))), 22, [])
  {
    hide Parse;
    var body := ip + [high, low];
    assert body[..16] == ip;
    Deliver(Head, [5, 1, reserved, 4], body + suffix, auth, room);
    Deliver(IPv6Body, body, suffix, auth, room);
    ParseEnd(Dialing(Target(IPv6(ip), Port(high, low))), suffix, auth, room);
  }

  lemma CountedName(reserved: byte, name: Bytes, high: byte, low: byte, suffix: Bytes, auth: Credentials, room: nat)
    requires |name| < 256 && Utf8.Valid(name)
    ensures Parse(Head, [5, 1, reserved, 3] + ([|name| as byte] + (name + [high, low] + suffix)), auth, room)
         == Outcome(Dialing(Target(Name(name), Port(high, low))), 7 + |name|, [])
  {
    hide Parse, Utf8.Valid;
    var body := name + [high, low];
    assert body[..|name|] == name;
    Deliver(Head, [5, 1, reserved, 3], [|name| as byte] + (body + suffix), auth, room);
    Deliver(NameLength, [|name| as byte], body + suffix, auth, room);
    Deliver(NameBody(|name|), body, suffix, auth, room);
    ParseEnd(Dialing(Target(Name(name), Port(high, low))), suffix, auth, room);
  }
}
