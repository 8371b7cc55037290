/**
 * The server side as the program runs it: reads into fixed buffers, replies
 * written between them, every failure an early return.
 */
module Socks5Server {
  import opened Util
  import opened Socks5
  import Utf8

  datatype Result<+T> = Ok(value: T) | Err(error: Error)

  /** One accepted connection: what its peer will ever send and how much it will take. */
  class ClientSocket {
    const input: Bytes
    const room: nat
    var pos: nat
    var sent: Bytes

    ghost predicate Valid()
      reads this
    {
      pos <= |input| && |sent| <= room
    }

    /** The bytes that have not been read yet. */
    ghost function Unread(): Bytes
      reads this
      requires Valid()
    {
      input[pos..]
    }

    ghost function RoomLeft(): nat
      reads this
      requires Valid()
    {
      room - |sent|
    }

    constructor (input: Bytes, room: nat)
      ensures Valid() && this.input == input && this.room == room
      ensures pos == 0 && sent == []
    {
      this.input := input;
      this.room := room;
      pos := 0;
      sent := [];
    }

    /** Fills `buf` from the stream, or drains the stream and fails. */
    method ReadExact(buf: array<byte>) returns (ok: bool)
      requires Valid()
      modifies this`pos, buf
      ensures Valid()
      ensures ok <==> old(pos) + buf.Length <= |input|
      ensures pos == if ok then old(pos) + buf.Length else |input|
      ensures ok ==> buf[..] == old(Unread())[..buf.Length] && Unread() == old(Unread())[buf.Length..]
    {
      var filled := 0;
      while filled < buf.Length && pos < |input|
        invariant Valid() && filled <= buf.Length && pos == old(pos) + filled
        invariant buf[..filled] == input[old(pos)..pos]
      {
        buf[filled] := input[pos];
        filled, pos := filled + 1, pos + 1;
      }
      ok := filled == buf.Length;
      if ok {
        assert buf[..] == buf[..filled];
      }
    }

    method ReadU8() returns (ok: bool, b: byte)
      requires Valid()
      modifies this`pos
      ensures Valid()
      ensures ok <==> old(pos) < |input|
      ensures pos == if ok then old(pos) + 1 else |input|
      ensures ok ==> old(Unread())[..1] == [b] && Unread() == old(Unread())[1..]
    {
      var one := new byte[1];
      ok := ReadExact(one);
      b := one[0];
      if ok {
        assert one[..] == [b];
      }
    }

    /** Writes all of `bytes`, or as much as the client still takes. */
    method WriteAll(bytes: Bytes) returns (ok: bool)
      requires Valid()
      modifies this`sent
      ensures Valid()
      ensures ok <==> |bytes| <= old(RoomLeft())
      ensures sent == old(sent) + if ok then bytes else bytes[..old(RoomLeft())]
    {
      ok := |bytes| <= room - |sent|;
      sent := sent + if ok then bytes else bytes[..room - |sent|];
    }
  }

  /**
   * Ties a connection in mid-negotiation to the outcome its stream had in store
   * from the start: `used` bytes and `sent` replies later, phase `p` is next.
   */
  ghost predicate Continues(whole: Outcome, used: nat, sent: Bytes, p: Phase, input: Bytes, auth: Credentials,
                            room: nat)
  {
    whole == After(used, sent, Parse(p, input, auth, room))
  }

  lemma Opening(p: Phase, input: Bytes, auth: Credentials, room: nat)
    ensures Continues(Parse(p, input, auth, room), 0, [], p, input, auth, room)
  {
    hide Parse;
    assert [] + Parse(p, input, auth, room).sent == Parse(p, input, auth, room).sent;
  }

  /** One read delivers `got`; the server reacts by replying and moving to `next`. */
  lemma Proceed(whole: Outcome, used: nat, sent: Bytes, p: Phase, input: Bytes, auth: Credentials, room: nat,
                got: Bytes, next: Phase, reply: Bytes)
    requires Continues(whole, used, sent, p, input, auth, room)
    requires !p.Final() && |got| == p.Need() && got <= input
    requires React(p, got, auth) == Reaction(next, reply)
    ensures |reply| <= room ==>
              Continues(whole, used + |got|, sent + reply, next, input[|got|..], auth, room - |reply|)
    ensures |reply| <= room && next.Final() ==> whole == Outcome(next, used + |got|, sent + reply)
    ensures |reply| > room ==> whole == Outcome(Dead(Io), used + |got|, sent + reply[..room])
  {
    hide Parse, React, Phase.Need;
    assert input[..|got|] == got;
    ParseRead(p, input, auth, room);
    var a := Respond(p, got, auth, room);
    var rest := Parse(a.phase, input[|got|..], auth, room - |a.sent|);
    assert (sent + a.sent) + rest.sent == sent + (a.sent + rest.sent);
    if a.phase.Final() {
      ParseEnd(a.phase, input[|got|..], auth, room - |a.sent|);
      assert sent + a.sent + [] == sent + a.sent;
    }
  }

  lemma Starve(whole: Outcome, used: nat, sent: Bytes, p: Phase, input: Bytes, auth: Credentials, room: nat)
    requires Continues(whole, used, sent, p, input, auth, room)
    requires !p.Final() && |input| < p.Need()
    ensures whole == Outcome(Dead(Io), used + |input|, sent)
  {
    hide Parse, Phase.Need;
    ParseEnd(p, input, auth, room);
    assert sent + [] == sent;
  }

  /** What a finished method leaves for its caller: the rest of the negotiation, or the error that ended it. */
  ghost function Remaining<T>(r: Result<T>, next: Phase, sock: ClientSocket, auth: Credentials): Outcome
    reads sock
    requires sock.Valid()
  {
    if r.Ok? then Parse(next, sock.Unread(), auth, sock.RoomLeft()) else Outcome(Dead(r.error), 0, [])
  }

  /** The method-selection half of `socks5_handshake`. */
  method SelectMethod(sock: ClientSocket, auth: Credentials) returns (r: Result<()>)
    requires sock.Valid()
    modifies sock`pos, sock`sent
    ensures sock.Valid() && old(sock.pos) <= sock.pos && old(sock.sent) <= sock.sent
    ensures Parse(Greeting, old(sock.Unread()), auth, old(sock.RoomLeft()))
         == After(sock.pos - old(sock.pos), sock.sent[|old(sock.sent)|..], Remaining(r, AuthVersion, sock, auth))
  {
    hide Parse, Respond;
    ghost var before, room := sock.Unread(), sock.RoomLeft();
    ghost var whole := Parse(Greeting, before, auth, room);
    Opening(Greeting, before, auth, room);

    var header := new byte[2];
    var ok := sock.ReadExact(header);
    if !ok {
      Starve(whole, 0, [], Greeting, before, auth, room);
      return Err(Io);
    }
    if header[0] != 0x05 {
      Proceed(whole, 0, [], Greeting, before, auth, room, header[..], Dead(NotSocks5), []);
      return Err(NotSocks5);
    }
    var nmethods := header[1] as nat;
    Proceed(whole, 0, [], Greeting, before, auth, room, header[..], Methods(nmethods), []);
    ghost var rest := sock.Unread();
    var methods := new byte[nmethods];
    ok := sock.ReadExact(methods);
    if !ok {
      Starve(whole, 2, [], Methods(nmethods), rest, auth, room);
      return Err(Io);
    }
    if 0x02 !in methods[..] {
      Proceed(whole, 2, [], Methods(nmethods), rest, auth, room, methods[..], Dead(RefusedUserPass),
              NO_ACCEPTABLE_METHOD);
      ok := sock.WriteAll(NO_ACCEPTABLE_METHOD);
      return Err(if ok then RefusedUserPass else Io);
    }
    Proceed(whole, 2, [], Methods(nmethods), rest, auth, room, methods[..], AuthVersion, METHOD_USER_PASS);
    ok := sock.WriteAll(METHOD_USER_PASS);
    return if ok then Ok(()) else Err(Io);
  }

  /** The phase that reads the field whose length octet phase `p` reads. */
  ghost function FieldOf(p: Phase, n: nat): Phase
    requires p.UserLength? || p.PassLength?
  {
    if p.UserLength? then User(n) else Pass(p.user, n)
  }

  /** A length octet and the field it announces; the reaction to the field is the caller's. */
  method ReadCounted(sock: ClientSocket, ghost auth: Credentials, ghost whole: Outcome, ghost used: nat, ghost p: Phase)
    returns (field: Result<Bytes>)
    requires sock.Valid() && (p.UserLength? || p.PassLength?)
    requires Continues(whole, used, [], p, sock.Unread(), auth, sock.RoomLeft())
    modifies sock`pos
    ensures sock.Valid() && old(sock.pos) <= sock.pos
    ensures field.Err? ==> field.error == Io && whole == Outcome(Dead(Io), used + sock.pos - old(sock.pos), [])
    ensures field.Ok? ==> sock.pos == old(sock.pos) + 1 + |field.value|
    ensures field.Ok? ==>
              Continues(whole, used + 1, [], FieldOf(p, |field.value|), field.value + sock.Unread(), auth,
                        sock.RoomLeft())
  {
    hide Parse, Respond;
    ghost var rest, room := sock.Unread(), sock.RoomLeft();
    var ok, length := sock.ReadU8();
    if !ok {
      Starve(whole, used, [], p, rest, auth, room);
      return Err(Io);
    }
    var n := length as nat;
    Proceed(whole, used, [], p, rest, auth, room, [length], FieldOf(p, n), []);
    rest := sock.Unread();
    var buf := new byte[n];
    ok := sock.ReadExact(buf);
    if !ok {
      Starve(whole, used + 1, [], FieldOf(p, n), rest, auth, room);
      return Err(Io);
    }
    assert rest == buf[..] + sock.Unread();
    return Ok(buf[..]);
  }

  /** Checks the login just received and tells the client. */
  method Verdict(sock: ClientSocket, auth: Credentials, user: Bytes, pass: Bytes, ghost whole: Outcome, ghost used: nat)
    returns (r: Result<()>)
    requires sock.Valid()
    requires Continues(whole, used, [], Pass(user, |pass|), pass + sock.Unread(), auth, sock.RoomLeft())
    modifies sock`sent
    ensures sock.Valid() && old(sock.sent) <= sock.sent
    ensures r.Ok? <==> user == auth.user && pass == auth.pass && old(sock.RoomLeft()) >= 2
    ensures whole == After(used + |pass|, sock.sent[|old(sock.sent)|..], Remaining(r, Head, sock, auth))
  {
    hide Parse, Respond;
    ghost var room := sock.RoomLeft();
    var granted, _ := CtEq(user, auth.user);
    if granted {
      var passOk, _ := CtEq(pass, auth.pass);
      granted := passOk;
    }
    var verdict: Bytes := [0x01, if granted then 0x00 else 0x01];
    assert (pass + sock.Unread())[|pass|..] == sock.Unread();
    Proceed(whole, used, [], Pass(user, |pass|), pass + sock.Unread(), auth, room, pass,
            if granted then Head else Dead(BadCredentials), verdict);
    var ok := sock.WriteAll(verdict);
    return if !ok then Err(Io) else if granted then Ok(()) else Err(BadCredentials);
  }

  /** The username/password half of `socks5_handshake`. */
  method Subnegotiate(sock: ClientSocket, auth: Credentials) returns (r: Result<()>)
    requires sock.Valid()
    modifies sock`pos, sock`sent
    ensures sock.Valid() && old(sock.pos) <= sock.pos && old(sock.sent) <= sock.sent
    ensures Parse(AuthVersion, old(sock.Unread()), auth, old(sock.RoomLeft()))
         == After(sock.pos - old(sock.pos), sock.sent[|old(sock.sent)|..], Remaining(r, Head, sock, auth))
  {
    hide Parse, Respond;
    ghost var rest, room := sock.Unread(), sock.RoomLeft();
    ghost var whole := Parse(AuthVersion, rest, auth, room);
    Opening(AuthVersion, rest, auth, room);

    var ok, ver := sock.ReadU8();
    if !ok {
      Starve(whole, 0, [], AuthVersion, rest, auth, room);
      return Err(Io);
    }
    if ver != 0x01 {
      Proceed(whole, 0, [], AuthVersion, rest, auth, room, [ver], Dead(BadAuthVersion), []);
      return Err(BadAuthVersion);
    }
    Proceed(whole, 0, [], AuthVersion, rest, auth, room, [ver], UserLength, []);
    var user := ReadCounted(sock, auth, whole, 1, UserLength);
    if user.Err? {
      return Err(Io);
    }
    ghost var used := 2 + |user.value|;
    Proceed(whole, 2, [], User(|user.value|), user.value + sock.Unread(), auth, room, user.value,
            PassLength(user.value), []);
    assert (user.value + sock.Unread())[|user.value|..] == sock.Unread();
    var pass := ReadCounted(sock, auth, whole, used, PassLength(user.value));
    if pass.Err? {
      return Err(Io);
    }
    assert (pass.value + sock.Unread())[|pass.value|..] == sock.Unread();
    r := Verdict(sock, auth, user.value, pass.value, whole, used + 1);
  }

  /** `socks5_handshake`. */
  method Handshake(sock: ClientSocket, auth: Credentials) returns (r: Result<()>)
    requires sock.Valid()
    modifies sock`pos, sock`sent
    ensures sock.Valid() && old(sock.pos) <= sock.pos && old(sock.sent) <= sock.sent
    ensures Parse(Greeting, old(sock.Unread()), auth, old(sock.RoomLeft()))
         == After(sock.pos - old(sock.pos), sock.sent[|old(sock.sent)|..], Remaining(r, Head, sock, auth))
  {
    hide Parse;
    r := SelectMethod(sock, auth);
    if r.Ok? {
      ghost var sent := sock.sent;
      r := Subnegotiate(sock, auth);
      assert sock.sent[|old(sock.sent)|..] == sent[|old(sock.sent)|..] + sock.sent[|sent|..];
      AfterAfter(sent[|old(sock.sent)|..], sock.sent[|sent|..], Remaining(r, Head, sock, auth));
    }
  }

  lemma AfterAfter(first: Bytes, second: Bytes, o: Outcome)
    ensures first + (second + o.sent) == (first + second) + o.sent
  {
  }

  /** `socks5_read_request`: the CONNECT request and its address. */
  method ReadRequest(sock: ClientSocket, ghost auth: Credentials) returns (r: Result<Target>)
    requires sock.Valid()
    modifies sock`pos
    ensures sock.Valid() && old(sock.pos) <= sock.pos
    ensures Parse(Head, old(sock.Unread()), auth, sock.RoomLeft())
         == Outcome(if r.Ok? then Dialing(r.value) else Dead(r.error), sock.pos - old(sock.pos), [])
  {
    hide Parse, Respond;
    ghost var rest, room := sock.Unread(), sock.RoomLeft();
    ghost var whole := Parse(Head, rest, auth, room);
    Opening(Head, rest, auth, room);

    var head := new byte[4];
    var ok := sock.ReadExact(head);
    if !ok {
      Starve(whole, 0, [], Head, rest, auth, room);
      return Err(Io);
    }
    if head[0] != 0x05 || head[1] != 0x01 {
      Proceed(whole, 0, [], Head, rest, auth, room, head[..], Dead(UnsupportedRequest), []);
      return Err(UnsupportedRequest);
    }
    match head[3]
    case 0x01 =>
      Proceed(whole, 0, [], Head, rest, auth, room, head[..], IPv4Body, []);
      r := ReadIPv4(sock, auth, whole);
    case 0x03 =>
      Proceed(whole, 0, [], Head, rest, auth, room, head[..], NameLength, []);
      r := ReadName(sock, auth, whole);
    case 0x04 =>
      Proceed(whole, 0, [], Head, rest, auth, room, head[..], IPv6Body, []);
      r := ReadIPv6(sock, auth, whole);
    case _ =>
      Proceed(whole, 0, [], Head, rest, auth, room, head[..], Dead(BadAddressType), []);
      r := Err(BadAddressType);
  }

  method ReadIPv4(sock: ClientSocket, ghost auth: Credentials, ghost whole: Outcome) returns (r: Result<Target>)
    requires sock.Valid()
    requires Continues(whole, 4, [], IPv4Body, sock.Unread(), auth, sock.RoomLeft())
    modifies sock`pos
    ensures sock.Valid() && old(sock.pos) <= sock.pos
    ensures whole == Outcome(if r.Ok? then Dialing(r.value) else Dead(r.error), 4 + sock.pos - old(sock.pos), [])
  {
    hide Parse, Respond;
    ghost var rest, room := sock.Unread(), sock.RoomLeft();
    var bytes := new byte[4 + 2];
    var ok := sock.ReadExact(bytes);
    if !ok {
      Starve(whole, 4, [], IPv4Body, rest, auth, room);
      return Err(Io);
    }
    r := Ok(Target(IPv4(bytes[..4]), FromBe16(bytes[4], bytes[5])));
    Proceed(whole, 4, [], IPv4Body, rest, auth, room, bytes[..], Dialing(r.value), []);
  }

  method ReadIPv6(sock: ClientSocket, ghost auth: Credentials, ghost whole: Outcome) returns (r: Result<Target>)
    requires sock.Valid()
    requires Continues(whole, 4, [], IPv6Body, sock.Unread(), auth, sock.RoomLeft())
    modifies sock`pos
    ensures sock.Valid() && old(sock.pos) <= sock.pos
    ensures whole == Outcome(if r.Ok? then Dialing(r.value) else Dead(r.error), 4 + sock.pos - old(sock.pos), [])
  {
    hide Parse, Respond;
    ghost var rest, room := sock.Unread(), sock.RoomLeft();
    var bytes := new byte[16 + 2];
    var ok := sock.ReadExact(bytes);
    if !ok {
      Starve(whole, 4, [], IPv6Body, rest, auth, room);
      return Err(Io);
    }
    r := Ok(Target(IPv6(bytes[..16]), FromBe16(bytes[16], bytes[17])));
    Proceed(whole, 4, [], IPv6Body, rest, auth, room, bytes[..], Dialing(r.value), []);
  }

  method ReadName(sock: ClientSocket, ghost auth: Credentials, ghost whole: Outcome) returns (r: Result<Target>)
    requires sock.Valid()
    requires Continues(whole, 4, [], NameLength, sock.Unread(), auth, sock.RoomLeft())
    modifies sock`pos
    ensures sock.Valid() && old(sock.pos) <= sock.pos
    ensures whole == Outcome(if r.Ok? then Dialing(r.value) else Dead(r.error), 4 + sock.pos - old(sock.pos), [])
  {
    hide Parse, Respond;
    ghost var rest, room := sock.Unread(), sock.RoomLeft();
    var len := new byte[1];
    var ok := sock.ReadExact(len);
    if !ok {
      Starve(whole, 4, [], NameLength, rest, auth, room);
      return Err(Io);
    }
    var n := len[0] as nat;
    Proceed(whole, 4, [], NameLength, rest, auth, room, len[..], NameBody(n), []);
    rest := sock.Unread();
    var buf := new byte[n + 2];
    ok := sock.ReadExact(buf);
    if !ok {
      Starve(whole, 5, [], NameBody(n), rest, auth, room);
      return Err(Io);
    }
    if !Utf8.Valid(buf[..n]) {
      Proceed(whole, 5, [], NameBody(n), rest, auth, room, buf[..], Dead(BadHost), []);
      return Err(BadHost);
    }
    r := Ok(Target(Name(buf[..n]), FromBe16(buf[n], buf[n + 1])));
    Proceed(whole, 5, [], NameBody(n), rest, auth, room, buf[..], Dialing(r.value), []);
  }

  /**
   * `handle_socks_conn` up to the point where the two copies start: negotiate,
   * dial, report success. Whether the dial succeeds is up to the network.
   */
  method Serve(sock: ClientSocket, auth: Credentials, dialSucceeds: bool) returns (pumping: Option<Target>)
    requires sock.Valid()
    modifies sock`pos, sock`sent
    ensures sock.Valid()
    ensures var o := Parse(Greeting, old(sock.Unread()), auth, old(sock.RoomLeft()));
            && o.used <= |old(sock.Unread())|
            && (pumping.Some? <==> o.phase.Dialing? && dialSucceeds && old(sock.RoomLeft()) >= 14)
            && (pumping.Some? ==>
                  o.phase == Dialing(pumping.value) && sock.sent == old(sock.sent) + PRELUDE + REPLY_SUCCEEDED)
            && (!(o.phase.Dialing? && dialSucceeds) ==> sock.sent == old(sock.sent) + o.sent)
            && (o.phase.Dialing? && dialSucceeds && pumping.None? ==>
                  4 <= old(sock.RoomLeft())
                  && sock.sent == old(sock.sent) + PRELUDE + REPLY_SUCCEEDED[..old(sock.RoomLeft()) - 4])
            && sock.Unread() == old(sock.Unread())[o.used..]
  {
    hide Parse;
    ghost var before, room := sock.Unread(), sock.RoomLeft();
    ghost var o := Parse(Greeting, before, auth, room);
    OutputTranscript(before, auth, room);
    pumping := None;
    var greeted := Handshake(sock, auth);
    if greeted.Err? {
      assert sock.sent == old(sock.sent) + o.sent;
      return;
    }
    var target := ReadRequest(sock, auth);
    assert sock.sent == old(sock.sent) + o.sent;
    if target.Err? || !dialSucceeds {
      return;
    }
    var ok := sock.WriteAll(REPLY_SUCCEEDED);
    if ok {
      pumping := Some(target.value);
    }
  }
}
