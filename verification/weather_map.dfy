/** server/weather_map.cpp: the seed from which an aircraft's weather is drawn. */
module WeatherMaps {
  import opened Basics

  const OFFSET_BASIS: Word := 2166136261
  const PRIME := 16777619
  const SEQUENCE_MULTIPLIER := 2246822519

  // Their inverses modulo 2^32.
  const PRIME_INVERSE := 899433627
  const MULTIPLIER_INVERSE := 3066638151

  /** `^` on unsigned numbers, bit by bit. */
  function Xor(a: nat, b: nat): (x: nat)
    decreases a + b
  {
    if a + b == 0 then 0 else 2 * Xor(a / 2, b / 2) + (a % 2 + b % 2) % 2
  }

  lemma LowBit(n: nat, bit: nat)
    requires bit < 2
    ensures (2 * n + bit) / 2 == n && (2 * n + bit) % 2 == bit
  {
  }

  lemma BitCancels(p: nat, q: nat)
    requires p < 2 && q < 2
    ensures (p + (p + q) % 2) % 2 == q
  {
  }

  lemma {:induction false} ZeroXor(a: nat, b: nat)
    ensures a + Xor(a, b) == 0 ==> b == 0
    decreases a + b
  {
    if a + b > 0 {
      ZeroXor(a / 2, b / 2);
    }
  }

  /** XOR undoes itself. */
  lemma {:induction false} XorCancels(a: nat, b: nat)
    ensures Xor(a, Xor(a, b)) == b
    decreases a + b
  {
    if a + b > 0 {
      XorCancels(a / 2, b / 2);
      ZeroXor(a, b);
      XorDigits(a, b);
      XorDigits(a, Xor(a, b));
      BitCancels(a % 2, b % 2);
      hide Xor;
      assert b == 2 * (b / 2) + b % 2;
    }
  }

  lemma XorDigits(a: nat, b: nat)
    ensures a + b > 0 ==> Xor(a, b) == 2 * Xor(a / 2, b / 2) + (a % 2 + b % 2) % 2
    ensures Xor(a, b) / 2 == Xor(a / 2, b / 2) && Xor(a, b) % 2 == (a % 2 + b % 2) % 2
  {
    LowBit(Xor(a / 2, b / 2), (a % 2 + b % 2) % 2);
  }

  lemma {:induction false} XorCommutes(a: nat, b: nat)
    ensures Xor(a, b) == Xor(b, a)
    decreases a + b
  {
    if a + b > 0 {
      XorCommutes(a / 2, b / 2);
    }
  }

  lemma {:induction false} XorBound(a: nat, b: nat, width: nat)
    requires a < Power2(width) && b < Power2(width)
    ensures Xor(a, b) < Power2(width)
    decreases width
  {
    if width > 0 && a + b > 0 {
      XorBound(a / 2, b / 2, width - 1);
    }
  }

  function Power2(n: nat): (p: nat)
    ensures p > 0
  {
    if n == 0 then 1 else 2 * Power2(n - 1)
  }

  lemma WordWidth()
    ensures Power2(32) == WORD
  {
    assert Power2(8) == 256;
    assert Power2(16) == 65536;
    assert Power2(24) == 16777216;
  }

  function XorWord(a: Word, b: Word): (x: Word)
    ensures Xor(a, b) == x
  {
    WordWidth();
    XorBound(a, b, 32);
    Xor(a, b)
  }

  lemma XorInjective(a: Word, b: Word, c: Word)
    ensures XorWord(a, c) == XorWord(b, c) <==> a == b
    ensures XorWord(c, a) == XorWord(c, b) <==> a == b
  {
    XorCancels(c, a);
    XorCancels(c, b);
    XorCommutes(a, c);
    XorCommutes(b, c);
  }

  /** Bit `k` of a number. */
  function Bit(n: nat, k: nat): nat {
    if k == 0 then n % 2 else Bit(n / 2, k - 1)
  }

  /** A bit of the result is set exactly where the two differ. */
  lemma {:induction false} XorBits(a: nat, b: nat, k: nat)
    ensures Bit(Xor(a, b), k) == if Bit(a, k) == Bit(b, k) then 0 else 1
    decreases k
  {
    XorDigits(a, b);
    if k > 0 {
      XorBits(a / 2, b / 2, k - 1);
    }
    hide Xor;
  }

  // ---------------------------------------------------------------- the seed

  function Stir(seed: Word, c: Byte): Word {
    Wrap(XorWord(seed, c) * PRIME)
  }

  function SeedFrom(seed: Word, id: Text): Word {
    if id == [] then seed else Stir(SeedFrom(seed, id[..|id| - 1]), id[|id| - 1])
  }

  method AircraftSeed(id: Text) returns (seed: Word)
    ensures seed == SeedFrom(OFFSET_BASIS, id)
  {
    seed := OFFSET_BASIS;
    for i := 0 to |id|
      invariant seed == SeedFrom(OFFSET_BASIS, id[..i])
    {
      seed := XorWord(seed, id[i]);
      seed := Wrap(seed * PRIME);
      assert id[..i + 1][..i] == id[..i];
    }
    assert id[..|id|] == id;
  }

  /** The prime is odd, so it has an inverse modulo 2^32 and multiplying by it loses nothing. */
  lemma PrimeIsInvertible(a: Word)
    ensures Wrap(Wrap(a * PRIME) * PRIME_INVERSE) == a
  {
    var n := a * PRIME / WORD;
    assert Wrap(a * PRIME) == a * PRIME - n * WORD;
    assert (a * PRIME - n * WORD) * PRIME_INVERSE == a + (a * 3513497 - n * PRIME_INVERSE) * WORD;
    WholeTurns(a, a * 3513497 - n * PRIME_INVERSE);
  }

  /** One more character keeps different seeds apart, and tells different characters apart. */
  lemma StirInjective(s: Word, t: Word, c: Byte, d: Byte)
    ensures Stir(s, c) == Stir(t, c) <==> s == t
    ensures Stir(s, c) == Stir(s, d) <==> c == d
  {
    XorInjective(s, t, c);
    XorInjective(c, d, s);
    PrimeIsInvertible(XorWord(s, c));
    PrimeIsInvertible(XorWord(t, c));
    PrimeIsInvertible(XorWord(s, d));
  }

  /** A character goes in by XOR first and multiplication after it, so undoing them in reverse gives the seed back. */
  lemma StirUndone(seed: Word, c: Byte)
    ensures XorWord(Wrap(Stir(seed, c) * 899433627), c) == seed
  {
    hide Xor, Wrap;
    PrimeIsInvertible(XorWord(seed, c));
    assert PRIME_INVERSE == 899433627;
    XorCancels(c, seed);
    XorCommutes(seed, c);
    XorCommutes(c, XorWord(seed, c));
  }

  lemma {:induction false} XorZero(a: nat)
    ensures Xor(a, 0) == a
    decreases a
  {
    if a > 0 {
      XorZero(a / 2);
    }
  }

  /** Published values of the 32-bit FNV-1a hash: of nothing, and of the letter "a". */
  lemma KnownSeeds()
    ensures SeedFrom(OFFSET_BASIS, []) == 0x811C_9DC5
    ensures SeedFrom(OFFSET_BASIS, [97]) == 0xE40C_292C
  {
    StirredA();
    assert [97][..0] == [];
    assert SeedFrom(OFFSET_BASIS, [97]) == Stir(SeedFrom(OFFSET_BASIS, []), 97);
    hide *;
  }

  lemma StirredA()
    ensures Stir(0x811C_9DC5, 97) == 0xE40C_292C
  {
    XorWithA();
    hide Xor;
    var x := XorWord(0x811C_9DC5, 97);
    assert x * PRIME == 0xE40C_292C + 8461672 * WORD;
    WholeTurns(0xE40C_292C, 8461672);
    hide Wrap;
  }

  lemma XorWithA()
    ensures Xor(0x811C_9DC5, 97) == 0x811C_9DA4
  {
    hide Xor;
    XorZero(16922939);
    XorStep(33845879, 1, 16922939);
    XorStep(67691758, 3, 33845878);
    XorStep(135383516, 6, 67691757);
    XorStep(270767032, 12, 135383514);
    XorStep(541534065, 24, 270767028);
    XorStep(1083068130, 48, 541534057);
    XorStep(2166136261, 97, 1083068114);
  }

  lemma XorStep(a: nat, b: nat, half: nat)
    requires a + b > 0 && Xor(a / 2, b / 2) == half
    ensures Xor(a, b) == 2 * half + (a % 2 + b % 2) % 2
  {
    XorDigits(a, b);
    hide Xor;
  }

  lemma {:induction false} SeedFromAppend(seed: Word, a: Text, b: Text)
    ensures SeedFrom(seed, a + b) == SeedFrom(SeedFrom(seed, a), b)
    decreases |b|
  {
    if b == [] {
      assert a + b == a;
    } else {
      SeedFromAppend(seed, a, b[..|b| - 1]);
      assert (a + b)[..|a + b| - 1] == a + b[..|b| - 1];
    }
  }

  lemma {:induction false} SeedFromInjective(s: Word, t: Word, id: Text)
    ensures SeedFrom(s, id) == SeedFrom(t, id) <==> s == t
    decreases |id|
  {
    if id != [] {
      var init := id[..|id| - 1];
      SeedFromInjective(s, t, init);
      StirInjective(SeedFrom(s, init), SeedFrom(t, init), id[|id| - 1], 0);
    }
  }

  /** Changing one character of an identifier, and only that, always changes its seed. */
  lemma OneCharacterSeparates(id: Text, i: nat, c: Byte)
    requires i < |id| && c != id[i]
    ensures SeedFrom(OFFSET_BASIS, id[i := c]) != SeedFrom(OFFSET_BASIS, id)
  {
    var front, back := id[..i], id[i + 1..];
    var before := SeedFrom(OFFSET_BASIS, front);
    assert id == front + [id[i]] + back && id[i := c] == front + [c] + back;
    SeedFromAppend(OFFSET_BASIS, front + [id[i]], back);
    SeedFromAppend(OFFSET_BASIS, front + [c], back);
    SeedFromInjective(SeedFrom(OFFSET_BASIS, front + [c]), SeedFrom(OFFSET_BASIS, front + [id[i]]), back);
    assert (front + [c])[..i] == front && (front + [id[i]])[..i] == front;
    StirInjective(before, before, c, id[i]);
  }

  /** The seed of one transfer: the aircraft's, mixed with the number of the transfer. */
  function MixedSeed(id: Text, transferSequence: Word): Word {
    XorWord(SeedFrom(OFFSET_BASIS, id), Wrap(transferSequence * SEQUENCE_MULTIPLIER))
  }

  lemma MultiplierIsInvertible(a: Word)
    ensures Wrap(Wrap(a * SEQUENCE_MULTIPLIER) * MULTIPLIER_INVERSE) == a
  {
    var n := a * SEQUENCE_MULTIPLIER / WORD;
    assert Wrap(a * SEQUENCE_MULTIPLIER) == a * SEQUENCE_MULTIPLIER - n * WORD;
    assert (a * SEQUENCE_MULTIPLIER - n * WORD) * MULTIPLIER_INVERSE
        == a + (a * 1604247758 - n * MULTIPLIER_INVERSE) * WORD;
    WholeTurns(a, a * 1604247758 - n * MULTIPLIER_INVERSE);
  }

  /** For one aircraft, no two of the 2^32 transfer numbers give the same seed. */
  lemma TransfersSeparate(id: Text, m: Word, n: Word)
    ensures MixedSeed(id, m) == MixedSeed(id, n) <==> m == n
  {
    MultiplierIsInvertible(m);
    MultiplierIsInvertible(n);
    XorInjective(Wrap(m * SEQUENCE_MULTIPLIER), Wrap(n * SEQUENCE_MULTIPLIER), SeedFrom(OFFSET_BASIS, id));
  }

  /** For one transfer number, aircraft with different seeds keep different seeds. */
  lemma AircraftSeparate(a: Text, b: Text, n: Word)
    ensures MixedSeed(a, n) == MixedSeed(b, n) <==> SeedFrom(OFFSET_BASIS, a) == SeedFrom(OFFSET_BASIS, b)
  {
    XorInjective(SeedFrom(OFFSET_BASIS, a), SeedFrom(OFFSET_BASIS, b), Wrap(n * SEQUENCE_MULTIPLIER));
  }

  /** Taking the aircraft's seed out again leaves the number of the transfer, multiplied. */
  lemma MixUndone(id: Text, n: Word)
    ensures XorWord(SeedFrom(OFFSET_BASIS, id), MixedSeed(id, n)) == (n * 2246822519) % 0x1_0000_0000
  {
    XorCancels(SeedFrom(OFFSET_BASIS, id), Wrap(n * SEQUENCE_MULTIPLIER));
  }
}
