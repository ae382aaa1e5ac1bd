/**
 * Arithmetic helpers shared by the effects: minimum, maximum and absolute
 * value, and the C++ integer operations whose meaning differs from Dafny's:
 * `%`, which truncates toward zero, the conversion of an `int` to
 * `uint32_t`, which wraps modulo 2^32, and the `uint32_t` sum, product and
 * exclusive or.
 */
module Numeric {

  function Min(a: int, b: int): int {
    if a < b then a else b
  }

  /** `std::max(a, b)`: b when a < b, else a. */
  function MaxReal(a: real, b: real): real {
    if a < b then b else a
  }

  function Abs(x: real): real {
    if x < 0.0 then -x else x
  }

  function IntAbs(x: int): nat {
    if x < 0 then -x else x
  }

  /**
   * C++ `a % b`: the remainder of the division truncated toward zero. It
   * has the sign of the dividend and is smaller in magnitude than the
   * divisor.
   */
  function CRem(a: int, b: int): (r: int)
    requires b != 0
    ensures -(IntAbs(b) as int) < r < IntAbs(b)
    ensures a >= 0 ==> r >= 0
    ensures a <= 0 ==> r <= 0
  {
    if a >= 0 then a % b else -((-a) % b)
  }

  lemma MulAtLeast(k: int, b: int)
    requires k >= 1 && b > 0
    ensures k * b >= b
  {
  }

  /** A quotient and remainder in range are the Euclidean ones. */
  lemma ModUnique(a: int, b: int, q: int, r: int)
    requires b > 0 && 0 <= r < b && a == q * b + r
    ensures a % b == r
  {
    var q0, r0 := a / b, a % b;
    assert a == q0 * b + r0;
    if q > q0 {
      assert (q - q0) * b == q * b - q0 * b;
      MulAtLeast(q - q0, b);
    } else if q < q0 {
      assert (q0 - q) * b == q0 * b - q * b;
      MulAtLeast(q0 - q, b);
    }
  }

  /** A `uint32_t` value. */
  type U32 = n: nat | n < 0x1_0000_0000

  /** `static_cast<uint32_t>(v)`: v reduced modulo 2^32. */
  function ToU32(v: int): U32 {
    v % 0x1_0000_0000
  }

  function Pow2(n: nat): (r: nat)
    ensures r >= 1
  {
    if n == 0 then 1 else 2 * Pow2(n - 1)
  }

  /** The exclusive or of the low k bits of a and b, built bit by bit from the lowest. */
  function XorBits(a: nat, b: nat, k: nat): (r: nat)
    ensures r < Pow2(k)
  {
    if k == 0 then 0
    else 2 * XorBits(a / 2, b / 2, k - 1) + (a + b) % 2
  }

  lemma {:induction false} Pow2Add(a: nat, b: nat)
    ensures Pow2(a + b) == Pow2(a) * Pow2(b)
  {
    if a > 0 {
      Pow2Add(a - 1, b);
      assert Pow2(a + b) == 2 * Pow2(a - 1 + b);
    }
  }

  lemma Pow2Of32()
    ensures Pow2(32) == 0x1_0000_0000
  {
    assert Pow2(2) == 4;
    Pow2Add(2, 2);
    Pow2Add(4, 4);
    Pow2Add(8, 8);
    Pow2Add(16, 16);
  }

  /** `a ^ b` on `uint32_t`. */
  function Xor32(a: U32, b: U32): U32 {
    Pow2Of32();
    XorBits(a, b, 32)
  }

  /** The low bits of a modulo 2p: its halved value modulo p, shifted back, and its lowest bit. */
  lemma ModDouble(a: nat, p: nat)
    requires p > 0
    ensures a % (2 * p) == 2 * ((a / 2) % p) + a % 2
  {
    var lo := (a / 2) % p;
    var q := (a / 2) / p;
    assert a / 2 == q * p + lo;
    assert a == q * (2 * p) + (2 * lo + a % 2);
    ModUnique(a, 2 * p, q, 2 * lo + a % 2);
  }

  /** A value of the form 2h + r with r a bit splits into h and r. */
  lemma HalveBit(c: nat, h: nat, r: nat)
    requires r < 2 && c == 2 * h + r
    ensures c / 2 == h && c % 2 == r
  {
    ModUnique(c, 2, h, r);
  }

  /** Adding b twice to a leaves a's lowest bit: (((a + b) % 2) + b) % 2 == a % 2. */
  lemma ParityCancel(a: nat, b: nat, h: nat)
    ensures (2 * h + (a + b) % 2 + b) % 2 == a % 2
  {
    var qa, qb := a / 2, b / 2;
    assert a == 2 * qa + a % 2 && b == 2 * qb + b % 2;
    if a % 2 == b % 2 {
      ModUnique(a + b, 2, qa + qb + a % 2, 0);
      ModUnique(2 * h + b, 2, h + qb, a % 2);
    } else {
      ModUnique(a + b, 2, qa + qb, 1);
      ModUnique(2 * h + 1 + b, 2, h + qb + b % 2, a % 2);
    }
  }

  /** Exclusive or with the same value twice gives back the low k bits. */
  lemma {:induction false} XorBitsCancel(a: nat, b: nat, k: nat)
    ensures XorBits(XorBits(a, b, k), b, k) == a % Pow2(k)
  {
    if k > 0 {
      var c := XorBits(a, b, k);
      var h := XorBits(a / 2, b / 2, k - 1);
      HalveBit(c, h, (a + b) % 2);
      XorBitsCancel(a / 2, b / 2, k - 1);
      ParityCancel(a, b, h);
      ModDouble(a, Pow2(k - 1));
    }
  }

  /** `(a ^ b) ^ b == a`. */
  lemma Xor32Cancel(a: U32, b: U32)
    ensures Xor32(Xor32(a, b), b) == a
  {
    var c := Xor32(a, b);
    assert c == XorBits(a, b, 32);
    assert Xor32(c, b) == XorBits(c, b, 32);
    XorBitsCancel(a, b, 32);
    Pow2Of32();
    ModUnique(a, Pow2(32), 0, a);
  }

  /** `a * b` on `uint32_t`: the product modulo 2^32. */
  function Mul32(a: U32, b: U32): U32 {
    (a * b) % 0x1_0000_0000
  }

  /** `a + b` on `uint32_t`: the sum modulo 2^32. */
  function Add32(a: U32, b: U32): U32 {
    (a + b) % 0x1_0000_0000
  }
}
