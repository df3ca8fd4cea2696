/** The simulator's deterministic random numbers (router/src/sim/deterministic_rng.cpp). */
module DeterministicRng {
  import opened Words

  function SplitMix64(state: Word): Word {
    var z0 := Add(state, 0x9E3779B97F4A7C15);
    var z1 := Mul(Xor(z0, Shift(z0, 0x4000_0000)), 0xBF58476D1CE4E5B9);
    var z2 := Mul(Xor(z1, Shift(z1, 0x800_0000)), 0x94D049BB133111EB);
    Xor(z2, Shift(z2, 0x8000_0000))
  }

  /** The lowest `n` bytes of a word, the lowest first. */
  function LowBytes(x: Word, n: nat): seq<Byte> {
    if n == 0 then [] else [x % 256] + LowBytes(Shift(x, 256), n - 1)
  }

  /** The final 64-bit state of a draw. */
  function Mixed(seed: Word, role: string, a: Word, b: Word, c: Word, d: Word): Word {
    var s := Fnv1a(Fnv1a(FNV_OFFSET_BASIS, BytesOf(role)), LowBytes(seed, 8));
    SplitMix64(Xor(SplitMix64(Xor(SplitMix64(Xor(SplitMix64(Xor(s, a)), b)), c)), d))
  }

  const TWO_53: real := 9007199254740992.0

  /** The value drawn for a role and its four coordinates: the top 53 bits of the state, scaled down. */
  function Drawn(seed: Word, role: string, a: Word, b: Word, c: Word, d: Word): (r: real)
    ensures 0.0 <= r < 1.0
  {
    TopBits(Mixed(seed, role, a, b, c, d))
  }

  function TopBits(state: Word): (r: real)
    ensures 0.0 <= r < 1.0
  {
    Shift(state, 2048) as real / TWO_53
  }

  /** The value drawn is the state over 2^64, cut off after 53 bits. */
  lemma TopBitsAre(state: Word)
    ensures TopBits(state) * 18446744073709551616.0 <= state as real < TopBits(state) * 18446744073709551616.0 + 2048.0
  {
    var top := Shift(state, 2048);
    assert 2048 * top <= state < 2048 * top + 2048;
  }

  /** The mixing step by step. */
  method Mix(state: Word) returns (z: Word)
    ensures z == SplitMix64(state)
  {
    hide Xor;
    z := (state + 0x9E3779B97F4A7C15) % TWO_64;
    z := (Xor(z, z / 0x4000_0000) * 0xBF58476D1CE4E5B9) % TWO_64;
    z := (Xor(z, z / 0x800_0000) * 0x94D049BB133111EB) % TWO_64;
    z := Xor(z, z / 0x8000_0000);
  }

  method Draw(seed: Word, role: string, a: Word, b: Word, c: Word, d: Word) returns (r: real)
    ensures r == Drawn(seed, role, a, b, c, d) && 0.0 <= r < 1.0
  {
    hide Fnv1aByte, SplitMix64, TopBits, Xor;
    var state := FNV_OFFSET_BASIS;
    ghost var bytes := BytesOf(role);
    for i := 0 to |role|
      invariant Fnv1a(state, bytes[i..]) == Fnv1a(FNV_OFFSET_BASIS, bytes)
    {
      state := Fnv1aByte(state, role[i] as int % 256);
      assert bytes[i..][1..] == bytes[i + 1..];
    }
    ghost var named := state;
    var rest := seed;
    for i := 0 to 8
      invariant Fnv1a(state, LowBytes(rest, 8 - i)) == Fnv1a(named, LowBytes(seed, 8))
    {
      assert LowBytes(rest, 8 - i)[1..] == LowBytes(Shift(rest, 256), 8 - i - 1);
      state := Fnv1aByte(state, rest % 256);
      rest := Shift(rest, 256);
    }
    state := Mix(Xor(state, a));
    state := Mix(Xor(state, b));
    state := Mix(Xor(state, c));
    state := Mix(Xor(state, d));
    r := TopBits(state);
  }
}
