/** Byte helpers and the comparison used for every secret (rust/core/src/util.rs). */
module Util {

  newtype byte = x: int | 0 <= x < 256

  type Bytes = seq<byte>

  datatype Option<+T> = None | Some(value: T)

  /** Bitwise exclusive or, from the lowest bit up. */
  function Xor(x: nat, y: nat): nat {
    if x == 0 && y == 0 then 0 else (if x % 2 == y % 2 then 0 else 1) + 2 * Xor(x / 2, y / 2)
  }

  /** Bitwise or, from the lowest bit up. */
  function Or(x: nat, y: nat): nat {
    if x == 0 && y == 0 then 0 else (if x % 2 == 0 && y % 2 == 0 then 0 else 1) + 2 * Or(x / 2, y / 2)
  }

  lemma {:induction false} XorZero(x: nat, y: nat)
    ensures Xor(x, y) == 0 <==> x == y
  {
    if x == 0 && y == 0 {
    } else {
      XorZero(x / 2, y / 2);
    }
  }

  lemma {:induction false} OrZero(x: nat, y: nat)
    ensures Or(x, y) == 0 <==> x == 0 && y == 0
  {
    if x == 0 && y == 0 {
    } else {
      OrZero(x / 2, y / 2);
    }
  }

  /**
   * Constant-time comparison: no early exit once the lengths agree. The ghost
   * result counts the loop iterations, which depend on the lengths only.
   */
  method CtEq(a: Bytes, b: Bytes) returns (equal: bool, ghost iterations: nat)
    ensures equal <==> a == b
    ensures iterations == if |a| == |b| then |a| else 0
  {
    iterations := 0;
    if |a| != |b| {
      return false, 0;
    }
    var diff: nat := 0;
    for i := 0 to |a|
      invariant iterations == i
      invariant diff == 0 <==> a[..i] == b[..i]
    {
      XorZero(a[i] as nat, b[i] as nat);
      OrZero(diff, Xor(a[i] as nat, b[i] as nat));
      assert a[..i + 1] == a[..i] + [a[i]];
      assert b[..i + 1] == b[..i] + [b[i]];
      diff := Or(diff, Xor(a[i] as nat, b[i] as nat));
      iterations := iterations + 1;
    }
    assert a[..|a|] == a && b[..|b|] == b;
    return diff == 0, iterations;
  }
}
