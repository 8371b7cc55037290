/**
 * The random login that guards the local SOCKS5 hop (rust/core/src/util.rs,
 * rust/core/src/runtime.rs), and why it always opens the door it was made for.
 */
module Endpoint {
  import opened Util
  import opened Socks5
  import opened Socks5Messages

  predicate Alphanumeric(b: byte) {
    0x30 <= b <= 0x39 || 0x41 <= b <= 0x5a || 0x61 <= b <= 0x7a
  }

  /** Entry `d` of the character set: the capitals, the small letters, the digits, in ASCII. */
  function Letter(d: nat): byte
    requires d < 62
  {
    if d < 26 then (0x41 + d) as byte else if d < 52 then (0x61 + (d - 26)) as byte else (0x30 + (d - 52)) as byte
  }

  /** The alphabet is every letter and digit of ASCII, each once. */
  lemma AlphabetIsAlphanumeric(b: byte)
    ensures Alphanumeric(b) <==> exists d: nat | d < 62 :: Letter(d) == b
    ensures forall d: nat, d': nat | d < 62 && d' < 62 && Letter(d) == Letter(d') :: d == d'
  {
    if Alphanumeric(b) {
      var d: nat := if b >= 0x61 then 26 + (b as nat - 0x61) else if b >= 0x41 then b as nat - 0x41
        else 52 + (b as nat - 0x30);
      assert Letter(d) == b;
    }
  }

  predicate Draws(draws: seq<nat>, n: nat) {
    |draws| == n && forall i | 0 <= i < n :: draws[i] < 62
  }

  /** `random_password`: one letter for each draw below 62. */
  function RandomPassword(draws: seq<nat>): (p: Bytes)
    requires Draws(draws, |draws|)
    ensures |p| == |draws| && forall i | 0 <= i < |p| :: p[i] == Letter(draws[i])
  {
    seq(|draws|, i requires 0 <= i < |draws| => Letter(draws[i]))
  }

  /** No two draws give the same password: none of the randomness is lost. */
  lemma NoDrawIsLost(draws: seq<nat>, draws': seq<nat>)
    requires Draws(draws, |draws|) && Draws(draws', |draws'|)
    ensures RandomPassword(draws) == RandomPassword(draws') <==> draws == draws'
  {
    if RandomPassword(draws) == RandomPassword(draws') {
      AlphabetIsAlphanumeric(0);
      assert |draws| == |draws'|;
      forall i | 0 <= i < |draws|
        ensures draws[i] == draws'[i]
      {
        assert Letter(draws[i]) == RandomPassword(draws)[i] == RandomPassword(draws')[i] == Letter(draws'[i]);
      }
    }
  }

  /** `SocksEndpoint::new_random`, with the draws as parameters. */
  function NewRandom(user: seq<nat>, pass: seq<nat>): Credentials
    requires Draws(user, 12) && Draws(pass, 32)
  {
    Credentials(RandomPassword(user), RandomPassword(pass))
  }

  /**
   * A generated login always fits the wire format of RFC 1929, and a client that
   * sends it with any acceptable methods and target reaches the dial; a client that
   * sends any other login is turned away with the refusal and nothing more.
   */
  lemma GeneratedLoginWorks(user: seq<nat>, pass: seq<nat>, m: Message, suffix: Bytes, room: nat)
    requires Draws(user, 12) && Draws(pass, 32) && ValidMessage(m) && room >= 4
    ensures var own := NewRandom(user, pass);
            && |own.user| == 12 && |own.pass| == 32
            && ValidMessage(m.(login := own))
            && Parse(Greeting, Encode(m.(login := own)) + suffix, own, room).phase == Dialing(m.target)
            && (m.login != own ==>
                  && Parse(Greeting, Encode(m) + suffix, own, room).phase == Dead(BadCredentials)
                  && Parse(Greeting, Encode(m) + suffix, own, room).sent == [0x05, 0x02, 0x01, 0x01])
  {
    var own := NewRandom(user, pass);
    hide Parse, Encode, RandomPassword;
    RoundTrip(m.(login := own), suffix, own, room);
    RoundTrip(m, suffix, own, room);
  }

  /** Two endpoints never admit each other's clients unless every draw was the same. */
  lemma EndpointsAreSeparate(user: seq<nat>, pass: seq<nat>, user': seq<nat>, pass': seq<nat>, input: Bytes, room: nat)
    requires Draws(user, 12) && Draws(pass, 32) && Draws(user', 12) && Draws(pass', 32)
    requires Parse(Greeting, input, NewRandom(user, pass), room).phase.Dialing?
    ensures Parse(Greeting, input, NewRandom(user', pass'), room).phase.Dialing? <==> user == user' && pass == pass'
  {
    var own, other := NewRandom(user, pass), NewRandom(user', pass');
    NoDrawIsLost(user, user');
    NoDrawIsLost(pass, pass');
    hide Parse, Encode, RandomPassword;
    var m := AcceptedMessage(input, own, room);
    RoundTrip(m, input[|Encode(m)|..], other, room);
    assert input == Encode(m) + input[|Encode(m)|..];
  }
}
