/// Word-level arithmetic of the Synacor machine: the 16-bit and 8-bit
/// unsigned integer types of the interpreter, Rust's wrapping operations on
/// them, the bitwise operators, and the reduction modulo 32768 that every
/// arithmetic opcode applies before it stores its result.
module Word16 {

  /** An unsigned 16-bit word (Rust `u16`). */
  type u16 = x: int | 0 <= x < 0x1_0000

  /** An unsigned byte (Rust `u8`). */
  type u8 = x: int | 0 <= x < 0x100

  /** Arithmetic results are reduced modulo this value; it is also where the
      register-address range of an operand starts. */
  const Modulus: nat := 32768

  /** All-ones in the low 15 bits: the mask `not` XORs with. */
  const LowMask: u16 := 0x7FFF

  function Pow2(n: nat): (r: nat)
    ensures r > 0
  {
    if n == 0 then 1 else 2 * Pow2(n - 1)
  }

  lemma Pow2Widths()
    ensures Pow2(15) == 32768 && Pow2(16) == 0x1_0000
  {
    assert Pow2(4) == 16;
    assert Pow2(8) == 256;
    assert Pow2(12) == 4096;
  }

  // ---------------------------------------------------------------------
  // Bitwise operators on naturals, bit by bit from the least significant.

  function BitAnd(a: nat, b: nat): nat
  {
    if a == 0 || b == 0 then 0
    else 2 * BitAnd(a / 2, b / 2) + (if a % 2 == 1 && b % 2 == 1 then 1 else 0)
  }

  function BitOr(a: nat, b: nat): nat
  {
    if a == 0 then b
    else if b == 0 then a
    else 2 * BitOr(a / 2, b / 2) + (if a % 2 == 1 || b % 2 == 1 then 1 else 0)
  }

  function BitXor(a: nat, b: nat): nat
  {
    if a == 0 then b
    else if b == 0 then a
    else 2 * BitXor(a / 2, b / 2) + (if a % 2 != b % 2 then 1 else 0)
  }

  /** The three bitwise operators never set a bit above the operands' width. */
  lemma {:induction false} BitwiseWithin(a: nat, b: nat, n: nat)
    requires a < Pow2(n) && b < Pow2(n)
    ensures BitAnd(a, b) < Pow2(n)
    ensures BitOr(a, b) < Pow2(n)
    ensures BitXor(a, b) < Pow2(n)
  {
    if a != 0 && b != 0 {
      assert n > 0;
      BitwiseWithin(a / 2, b / 2, n - 1);
    }
  }

  /** The bound of BitwiseWithin at the two widths the machine uses: 16 bits
      for a word, 15 bits for an arithmetic result. */
  lemma WordWidths(a: nat, b: nat)
    requires a < 0x1_0000 && b < 0x1_0000
    ensures BitAnd(a, b) < 0x1_0000 && BitOr(a, b) < 0x1_0000 && BitXor(a, b) < 0x1_0000
    ensures a < Modulus && b < Modulus ==>
              BitAnd(a, b) < Modulus && BitOr(a, b) < Modulus && BitXor(a, b) < Modulus
  {
    Pow2Widths();
    BitwiseWithin(a, b, 16);
    if a < Modulus && b < Modulus {
      BitwiseWithin(a, b, 15);
    }
  }

  /** XOR with a fixed mask undoes itself. */
  lemma {:induction false} BitXorInvolution(a: nat, k: nat)
    ensures BitXor(BitXor(a, k), k) == a
  {
    if a == 0 {
      BitXorSelf(k);
    } else if k != 0 {
      BitXorInvolution(a / 2, k / 2);
      var x := BitXor(a, k);
      var h := BitXor(a / 2, k / 2);
      assert x == 2 * h + (if a % 2 != k % 2 then 1 else 0);
      if x == 0 {
        assert h == 0 && a % 2 == k % 2;
        assert BitXor(h, k / 2) == k / 2;
      } else {
        assert x / 2 == h;
        assert x % 2 == (if a % 2 != k % 2 then 1 else 0);
      }
    }
  }

  lemma {:induction false} BitXorSelf(a: nat)
    ensures BitXor(a, a) == 0
  {
    if a != 0 {
      BitXorSelf(a / 2);
    }
  }

  /** AND keeps only bits present in both operands, so it is bounded by each. */
  lemma {:induction false} BitAndBelow(a: nat, b: nat)
    ensures BitAnd(a, b) <= a && BitAnd(a, b) <= b
  {
    if a != 0 && b != 0 {
      BitAndBelow(a / 2, b / 2);
    }
  }

  /** OR keeps every bit of both operands, so it is at least each. */
  lemma {:induction false} BitOrAbove(a: nat, b: nat)
    ensures a <= BitOr(a, b) && b <= BitOr(a, b)
  {
    if a != 0 && b != 0 {
      BitOrAbove(a / 2, b / 2);
    }
  }

  // ---------------------------------------------------------------------
  // The operations of the arithmetic and logic opcodes on 16-bit words.

  /** Rust `u16::wrapping_add`. */
  function WrappingAdd(b: u16, c: u16): (r: u16)
    ensures b + c < 0x1_0000 ==> r == b + c
    ensures b + c >= 0x1_0000 ==> r == b + c - 0x1_0000
  {
    (b + c) % 0x1_0000
  }

  /** Rust `u16::wrapping_mul`. */
  function WrappingMul(b: u16, c: u16): (r: u16)
    ensures b * c < 0x1_0000 ==> r == b * c
    ensures (b * c - r) % 0x1_0000 == 0
  {
    (b * c) % 0x1_0000
  }

  /** `add`: the wrapped sum reduced modulo 32768. */
  function WordAdd(b: u16, c: u16): (r: u16)
    ensures r == (b + c) % Modulus
  {
    WrapThenReduce(b + c);
    WrappingAdd(b, c) % Modulus
  }

  /** `mult`: the wrapped product reduced modulo 32768. */
  function WordMult(b: u16, c: u16): (r: u16)
    ensures r == (b * c) % Modulus
  {
    WrapThenReduce(b * c);
    WrappingMul(b, c) % Modulus
  }

  /** Bitwise AND of two words (Rust `&` on `u16`). */
  function WordAnd(b: u16, c: u16): (r: u16)
    ensures r <= b && r <= c
  {
    WordWidths(b, c);
    BitAndBelow(b, c);
    BitAnd(b, c)
  }

  /** Bitwise OR of two words (Rust `|` on `u16`). */
  function WordOr(b: u16, c: u16): (r: u16)
    ensures b <= r && c <= r
    ensures b < Modulus && c < Modulus ==> r < Modulus
  {
    WordWidths(b, c);
    BitOrAbove(b, c);
    BitOr(b, c)
  }

  /** `not`: the 15-bit complement `b ^ 0x7FFF`; the top bit is kept. */
  function WordNot(b: u16): (r: u16)
    ensures b < Modulus <==> r < Modulus
  {
    WordWidths(b, LowMask);
    BitXorInvolution(b, LowMask);
    var r := BitXor(b, LowMask);
    WordWidths(r, LowMask);
    r
  }

  /** Reducing modulo 65536 before reducing modulo 32768 changes nothing,
      because 32768 divides 65536. */
  lemma WrapThenReduce(x: nat)
    ensures (x % 0x1_0000) % Modulus == x % Modulus
  {
    var q := x / 0x1_0000;
    var r := x % 0x1_0000;
    assert x == 0x1_0000 * q + r;
    assert x == 32768 * (2 * q + r / 32768) + r % 32768;
  }

  /** `not` is an involution. */
  lemma WordNotInvolution(b: u16)
    ensures WordNot(WordNot(b)) == b
  {
    BitXorInvolution(b, LowMask);
  }
}
