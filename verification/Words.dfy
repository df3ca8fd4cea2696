/** 64-bit words that wrap, and the FNV-1a hash over them (hash/fnv in Go, router/src/sim/deterministic_rng.cpp). */
module Words {
  const TWO_64: int := 0x1_0000_0000_0000_0000

  /** A 64-bit unsigned word; arithmetic wraps. */
  type Word = x: int | 0 <= x < 0x1_0000_0000_0000_0000

  type Byte = x: int | 0 <= x < 256

  function Pow2(n: nat): (p: nat)
    ensures p > 0
  {
    if n == 0 then 1 else 2 * Pow2(n - 1)
  }

  /** The exclusive or of two lowest bits. */
  function XorBit(a: nat, b: nat): (r: nat)
    ensures r <= 1
  {
    if a % 2 == b % 2 then 0 else 1
  }

  /** The exclusive or of the lowest `n` bits. */
  function XorBits(a: nat, b: nat, n: nat): (r: nat)
    ensures r < Pow2(n)
  {
    if n == 0 then 0 else XorBit(a, b) + 2 * XorBits(a / 2, b / 2, n - 1)
  }

  function Xor(a: Word, b: Word): Word {
    WordBits();
    XorBits(a, b, 64)
  }

  lemma OneMoreByte(n: nat)
    ensures Pow2(n + 8) == 256 * Pow2(n)
  {
    assert Pow2(n + 1) == 2 * Pow2(n) && Pow2(n + 2) == 2 * Pow2(n + 1);
    assert Pow2(n + 3) == 2 * Pow2(n + 2) && Pow2(n + 4) == 2 * Pow2(n + 3);
    assert Pow2(n + 5) == 2 * Pow2(n + 4) && Pow2(n + 6) == 2 * Pow2(n + 5);
    assert Pow2(n + 7) == 2 * Pow2(n + 6) && Pow2(n + 8) == 2 * Pow2(n + 7);
  }

  lemma WordBits()
    ensures Pow2(56) == 0x100_0000_0000_0000 && Pow2(64) == TWO_64
  {
    hide Pow2;
    assert Pow2(0) == 1 by { PowerZero(); }
    OneMoreByte(0);
    OneMoreByte(8);
    OneMoreByte(16);
    OneMoreByte(24);
    OneMoreByte(32);
    OneMoreByte(40);
    OneMoreByte(48);
    OneMoreByte(56);
  }

  lemma PowerZero()
    ensures Pow2(0) == 1
  {
  }

  function Add(a: Word, b: Word): Word {
    (a + b) % TWO_64
  }

  function Mul(a: Word, b: Word): Word {
    (a * b) % TWO_64
  }

  /** `x >> bits`, by its divisor. */
  function Shift(x: Word, divisor: Word): Word
    requires divisor > 0
  {
    x / divisor
  }

  /** The bytes of an ASCII text. */
  function BytesOf(text: string): (bytes: seq<Byte>)
    ensures |bytes| == |text|
  {
    seq(|text|, i requires 0 <= i < |text| => text[i] as int % 256)
  }

  // ---- FNV-1a ----

  const FNV_OFFSET_BASIS: Word := 14695981039346656037
  const FNV_PRIME: Word := 1099511628211

  function Fnv1aByte(state: Word, byte: Byte): Word {
    Mul(Xor(state, byte), FNV_PRIME)
  }

  /** FNV-1a over a byte string, from the first byte to the last. */
  function Fnv1a(state: Word, bytes: seq<Byte>): Word
    decreases |bytes|
  {
    if bytes == [] then state else Fnv1a(Fnv1aByte(state, bytes[0]), bytes[1..])
  }

  // ---- Every step can be undone ----

  lemma {:induction false} XorBitsUndo(a: nat, b: nat, n: nat)
    requires a < Pow2(n)
    ensures XorBits(XorBits(a, b, n), b, n) == a
  {
    if n > 0 {
      var r := XorBits(a, b, n);
      assert r % 2 == XorBit(a, b) && r / 2 == XorBits(a / 2, b / 2, n - 1);
      XorBitsUndo(a / 2, b / 2, n - 1);
    }
  }

  lemma {:induction false} XorBitsCommute(a: nat, b: nat, n: nat)
    ensures XorBits(a, b, n) == XorBits(b, a, n)
  {
    if n > 0 { XorBitsCommute(a / 2, b / 2, n - 1); }
  }

  lemma XorUndo(a: Word, b: Word)
    ensures Xor(Xor(a, b), b) == a && Xor(a, b) == Xor(b, a)
  {
    hide XorBits, Pow2;
    WordBits();
    XorBitsUndo(a, b, 64);
    XorBitsCommute(a, b, 64);
  }

  /** The inverse of the prime modulo 2^64. */
  const FNV_INVERSE: Word := 0xce965057aff6957b

  lemma MulUndo(x: Word)
    ensures Mul(Mul(x, FNV_PRIME), FNV_INVERSE) == x
  {
    var q, r := x * FNV_PRIME / TWO_64, x * FNV_PRIME % TWO_64;
    assert x * FNV_PRIME == q * TWO_64 + r;
    assert FNV_PRIME * FNV_INVERSE == 1 + 887285111055 * TWO_64;
    assert r * FNV_INVERSE == x + TWO_64 * (x * 887285111055 - q * FNV_INVERSE);
  }

  /** Two states stay apart when they take in the same byte, and one state splits on two different bytes. */
  lemma ByteSeparates(h: Word, k: Word, b: Byte, c: Byte)
    ensures Fnv1aByte(h, b) == Fnv1aByte(k, b) ==> h == k
    ensures Fnv1aByte(h, b) == Fnv1aByte(h, c) ==> b == c
  {
    hide Xor, Mul;
    MulUndo(Xor(h, b));
    MulUndo(Xor(k, b));
    MulUndo(Xor(h, c));
    XorUndo(h, b);
    XorUndo(k, b);
    XorUndo(b, h);
    XorUndo(c, h);
  }

  lemma {:induction false} StatesSeparate(h: Word, k: Word, bytes: seq<Byte>)
    requires Fnv1a(h, bytes) == Fnv1a(k, bytes)
    ensures h == k
    decreases |bytes|
  {
    hide Fnv1aByte;
    if bytes != [] {
      StatesSeparate(Fnv1aByte(h, bytes[0]), Fnv1aByte(k, bytes[0]), bytes[1..]);
      ByteSeparates(h, k, bytes[0], bytes[0]);
    }
  }

  lemma {:induction false} Fnv1aAppend(state: Word, u: seq<Byte>, v: seq<Byte>)
    ensures Fnv1a(state, u + v) == Fnv1a(Fnv1a(state, u), v)
    decreases |u|
  {
    hide Fnv1aByte;
    if u == [] {
      assert u + v == v;
    } else {
      assert (u + v)[1..] == u[1..] + v;
      Fnv1aAppend(Fnv1aByte(state, u[0]), u[1..], v);
    }
  }

  /** Two texts that differ in one byte, wherever it stands, never have the same hash. */
  lemma OneByteSeparates(state: Word, u: seq<Byte>, b: Byte, c: Byte, v: seq<Byte>)
    requires b != c
    ensures Fnv1a(state, u + ([b] + v)) != Fnv1a(state, u + ([c] + v))
  {
    hide Fnv1aByte;
    var h := Fnv1a(state, u);
    Fnv1aAppend(state, u, [b] + v);
    Fnv1aAppend(state, u, [c] + v);
    assert ([b] + v)[1..] == v && ([c] + v)[1..] == v;
    if Fnv1a(state, u + ([b] + v)) == Fnv1a(state, u + ([c] + v)) {
      StatesSeparate(Fnv1aByte(h, b), Fnv1aByte(h, c), v);
      ByteSeparates(h, h, b, c);
    }
  }

  // ---- The published test vectors ----

  lemma {:induction false} XorZero(a: nat, n: nat)
    requires a < Pow2(n)
    ensures XorBits(a, 0, n) == a
  {
    if n > 0 { XorZero(a / 2, n - 1); }
  }

  /** The exclusive or of two hexadecimal digits, bit by bit. */
  function XorDigit(a: nat, b: nat): nat {
    XorBit(a, b) + 2 * XorBit(a / 2, b / 2) + 4 * XorBit(a / 4, b / 4) + 8 * XorBit(a / 8, b / 8)
  }

  lemma TwoBits(a: nat, b: nat, n: nat)
    ensures XorBits(a, b, n + 2) == XorBit(a, b) + 2 * XorBit(a / 2, b / 2) + 4 * XorBits(a / 4, b / 4, n)
  {
    hide XorBit;
    assert a / 2 / 2 == a / 4 && b / 2 / 2 == b / 4;
    assert XorBits(a / 2, b / 2, n + 1) == XorBit(a / 2, b / 2) + 2 * XorBits(a / 4, b / 4, n);
  }

  lemma FourBits(a: nat, b: nat, n: nat)
    ensures XorBits(a, b, n + 4) == XorDigit(a, b) + 16 * XorBits(a / 16, b / 16, n)
  {
    hide XorBit, XorBits;
    assert a / 4 / 2 == a / 8 && b / 4 / 2 == b / 8 && a / 4 / 4 == a / 16 && b / 4 / 4 == b / 16;
    TwoBits(a, b, n + 2);
    TwoBits(a / 4, b / 4, n);
  }

  /** A byte only changes the two lowest digits. */
  lemma XorLowByte(a: Word, b: Byte)
    ensures Xor(a, b) == XorDigit(a, b) + 16 * XorDigit(a / 16, b / 16) + 256 * (a / 256)
  {
    hide XorDigit, XorBits, Pow2;
    assert a / 16 / 16 == a / 256 && b / 16 / 16 == 0;
    WordBits();
    FourBits(a, b, 60);
    FourBits(a / 16, b / 16, 56);
    XorZero(a / 256, 56);
  }

  lemma SameDigit(a: nat, d: nat, b: nat)
    requires a % 16 == d
    ensures XorDigit(a, b) == XorDigit(d, b)
  {
    hide XorBit;
    var q := a / 16;
    assert a == 2 * (8 * q) + d && a / 2 == 2 * (4 * q) + d / 2;
    assert a / 4 == 2 * (2 * q) + d / 4 && a / 8 == 2 * q + d / 8;
    SameParity(8 * q, d, b);
    SameParity(4 * q, d / 2, b / 2);
    SameParity(2 * q, d / 4, b / 4);
    SameParity(q, d / 8, b / 8);
  }

  lemma SameParity(m: nat, x: nat, b: nat)
    ensures XorBit(2 * m + x, b) == XorBit(x, b)
  {
  }

  /** The published 64-bit FNV-1a values of the empty text and of "a". */
  lemma PublishedVectors()
    ensures Fnv1a(FNV_OFFSET_BASIS, []) == 0xcbf29ce484222325
    ensures Fnv1a(FNV_OFFSET_BASIS, [0x61]) == 0xaf63dc4c8601ec8c
  {
    hide XorDigit, Xor;
    SameDigit(FNV_OFFSET_BASIS, 0x5, 0x61);
    SameDigit(FNV_OFFSET_BASIS / 16, 0x2, 0x6);
    LowDigits();
    XorLowByte(FNV_OFFSET_BASIS, 0x61);
    assert [0x61][1..] == [];
  }

  lemma LowDigits()
    ensures XorDigit(0x5, 0x61) == 0x4 && XorDigit(0x2, 0x6) == 0x4
  {
  }
}
