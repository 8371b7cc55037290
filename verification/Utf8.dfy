/**
 * Well-formed UTF-8, as `String::from_utf8` decides it for a SOCKS host name,
 * and its independent meaning: the concatenated encodings of Unicode scalar values.
 */
module Utf8 {
  import opened Util

  type Scalar = c: int | 0 <= c < 0x11_0000 && !(0xD800 <= c < 0xE000)

  predicate Continuation(b: byte) {
    0x80 <= b < 0xC0
  }

  /** Length of the well-formed sequence at the front of `s`, or 0 when there is none. */
  function FrontLength(s: Bytes): (n: nat)
    ensures n <= |s|
  {
    if |s| >= 1 && s[0] < 0x80 then 1
    else if |s| >= 2 && 0xC2 <= s[0] < 0xE0 && Continuation(s[1]) then 2
    else if |s| >= 3 && 0xE0 <= s[0] < 0xF0 && Continuation(s[1]) && Continuation(s[2])
            && (s[0] == 0xE0 ==> s[1] >= 0xA0) && (s[0] == 0xED ==> s[1] < 0xA0) then 3
    else if |s| >= 4 && 0xF0 <= s[0] < 0xF5 && Continuation(s[1]) && Continuation(s[2]) && Continuation(s[3])
            && (s[0] == 0xF0 ==> s[1] >= 0x90) && (s[0] == 0xF4 ==> s[1] < 0x90) then 4
    else 0
  }

  predicate Valid(s: Bytes)
    decreases |s|
  {
    s == [] || (FrontLength(s) > 0 && Valid(s[FrontLength(s)..]))
  }

  function EncodeScalar(c: Scalar): (s: Bytes)
    ensures 1 <= |s| <= 4
  {
    if c < 0x80 then [c as byte]
    else if c < 0x800 then [(0xC0 + c / 64) as byte, (0x80 + c % 64) as byte]
    else if c < 0x1_0000 then
      [(0xE0 + c / 4096) as byte, (0x80 + c / 64 % 64) as byte, (0x80 + c % 64) as byte]
    else
      [(0xF0 + c / 262144) as byte, (0x80 + c / 4096 % 64) as byte, (0x80 + c / 64 % 64) as byte,
       (0x80 + c % 64) as byte]
  }

  function Encode(text: seq<Scalar>): Bytes {
    if text == [] then [] else EncodeScalar(text[0]) + Encode(text[1..])
  }

  /** Appending the six payload bits of a continuation byte, and taking them off again. */
  function Shift(high: nat, b: byte): (c: nat)
    requires Continuation(b)
    ensures c / 64 == high && 0x80 + c % 64 == b as int
    ensures 64 * high <= c < 64 * high + 64
  {
    64 * high + (b as int - 0x80)
  }

  function FrontScalar3(s: Bytes): (c: Scalar)
    requires FrontLength(s) == 3
    ensures EncodeScalar(c) == s[..3]
  {
    var high := Shift(s[0] as int - 0xE0, s[1]);
    var c := Shift(high, s[2]);
    assert c / 4096 == high / 64;
    c
  }

  function FrontScalar4(s: Bytes): (c: Scalar)
    requires FrontLength(s) == 4
    ensures EncodeScalar(c) == s[..4]
  {
    var top := Shift(s[0] as int - 0xF0, s[1]);
    var high := Shift(top, s[2]);
    var c := Shift(high, s[3]);
    assert c / 4096 == high / 64 == top;
    assert c / 262144 == top / 64;
    c
  }

  /** The scalar value whose encoding stands at the front of `s`. */
  function FrontScalar(s: Bytes): (c: Scalar)
    requires FrontLength(s) > 0
    ensures EncodeScalar(c) == s[..FrontLength(s)]
  {
    match FrontLength(s)
    case 1 => s[0] as int
    case 2 => Shift(s[0] as int - 0xC0, s[1])
    case 3 => FrontScalar3(s)
    case _ => FrontScalar4(s)
  }

  lemma FrontOfEncoding(c: Scalar, rest: Bytes)
    ensures FrontLength(EncodeScalar(c) + rest) == |EncodeScalar(c)|
  {
  }

  function Decode(s: Bytes): (text: seq<Scalar>)
    requires Valid(s)
    ensures Encode(text) == s
    decreases |s|
  {
    if s == [] then []
    else
      var n := FrontLength(s);
      assert s == s[..n] + s[n..];
      [FrontScalar(s)] + Decode(s[n..])
  }

  lemma {:induction false} EncodingIsValid(text: seq<Scalar>)
    ensures Valid(Encode(text))
  {
    if text == [] {
    } else {
      var front, rest := EncodeScalar(text[0]), Encode(text[1..]);
      FrontOfEncoding(text[0], rest);
      assert (front + rest)[|front|..] == rest;
      EncodingIsValid(text[1..]);
    }
  }

  /** The byte-level check accepts exactly the encodings of scalar-value strings. */
  lemma ValidIffEncoding(s: Bytes)
    ensures Valid(s) <==> exists text: seq<Scalar> :: Encode(text) == s
  {
    if Valid(s) {
      assert Encode(Decode(s)) == s;
    }
    forall text: seq<Scalar> | Encode(text) == s
      ensures Valid(s)
    {
      EncodingIsValid(text);
    }
  }
}
