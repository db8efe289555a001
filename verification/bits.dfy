/** Python's bitwise `|` on non-negative integers, defined arithmetically and
    proved to act bit by bit. */
module Bits {

  function Pow2(k: nat): nat
  {
    if k == 0 then 1 else 2 * Pow2(k - 1)
  }

  /** Bit `i` of `n`, counting from the least significant bit. */
  function Bit(n: nat, i: nat): bool
  {
    if i == 0 then n % 2 == 1 else Bit(n / 2, i - 1)
  }

  /** `a | b` for non-negative `a` and `b`: the low bits are combined, the rest
      is the OR of the halves shifted back into place. */
  function Or(a: nat, b: nat): (r: nat)
    ensures r >= a && r >= b
    ensures r <= a + b
    decreases a + b
  {
    if a == 0 then b
    else if b == 0 then a
    else 2 * Or(a / 2, b / 2) + (if a % 2 == 1 || b % 2 == 1 then 1 else 0)
  }

  lemma {:induction false} ZeroHasNoBits(i: nat)
    ensures !Bit(0, i)
  {
    if i > 0 {
      ZeroHasNoBits(i - 1);
    }
  }

  /** The reference meaning of `|`: bit `i` of `a | b` is set exactly when it is
      set in `a` or in `b`. */
  lemma {:induction false} OrIsBitwise(a: nat, b: nat, i: nat)
    ensures Bit(Or(a, b), i) <==> Bit(a, i) || Bit(b, i)
    decreases i
  {
    if a == 0 {
      ZeroHasNoBits(i);
    } else if b == 0 {
      ZeroHasNoBits(i);
    } else if i > 0 {
      var h := Or(a / 2, b / 2);
      var low := if a % 2 == 1 || b % 2 == 1 then 1 else 0;
      assert Or(a, b) == 2 * h + low;
      assert Or(a, b) / 2 == h;
      OrIsBitwise(a / 2, b / 2, i - 1);
    }
  }

  /** When `b` lies entirely below bit `k` and `a` has no bits there, `a | b`
      is the sum `a + b`: the command prefix and a register offset below 0x20
      combine by addition. */
  lemma {:induction false} OrOfDisjointIsSum(q: nat, b: nat, k: nat)
    requires b < Pow2(k)
    ensures Or(q * Pow2(k), b) == q * Pow2(k) + b
    decreases k
  {
    if k > 0 && q != 0 && b != 0 {
      var p := Pow2(k - 1);
      var a := q * Pow2(k);
      assert a == 2 * (q * p);
      assert a / 2 == q * p && a % 2 == 0;
      OrOfDisjointIsSum(q, b / 2, k - 1);
      assert Or(a, b) == 2 * (q * p + b / 2) + b % 2;
    }
  }

  /** OR never sets a bit above the highest bit of its operands. */
  lemma {:induction false} OrStaysBelow(a: nat, b: nat, k: nat)
    requires a < Pow2(k) && b < Pow2(k)
    ensures Or(a, b) < Pow2(k)
    decreases k
  {
    if k > 0 && a != 0 && b != 0 {
      OrStaysBelow(a / 2, b / 2, k - 1);
    }
  }

  /** `a | b` of two byte values is a byte value. */
  function OrByte(a: nat, b: nat): (r: nat)
    requires a < 256 && b < 256
    ensures r < 256
    ensures r == Or(a, b)
  {
    assert Pow2(8) == 256;
    OrStaysBelow(a, b, 8);
    Or(a, b)
  }
}
