/** The seed of a synthetic stream (`streamSeed` in internal/data/data.go): seed and sequence are
    mixed on 64-bit words, wrapping around.  A word is its 64 bits, lowest first; a signed word and
    its unsigned form are the same bits.  */
module SeedMixer {
  import opened Basics

  type Word = w: seq<bool> | |w| == 64 witness seq(64, i => false)

  const Modulus := 0x1_0000_0000_0000_0000

  // ----- Bits and numbers -----

  function Pow2(n: nat): nat { if n == 0 then 1 else 2 * Pow2(n - 1) }

  function Value(bits: seq<bool>): nat {
    if bits == [] then 0 else (if bits[0] then 1 else 0) + 2 * Value(bits[1..])
  }

  function Bits(v: nat, n: nat): (bits: seq<bool>)
    ensures |bits| == n
  {
    if n == 0 then [] else [v % 2 == 1] + Bits(v / 2, n - 1)
  }

  lemma {:induction false} ValueIsBelow(bits: seq<bool>)
    ensures Value(bits) < Pow2(|bits|)
  {
    if bits != [] { ValueIsBelow(bits[1..]); }
  }

  lemma {:induction false} ValueOfBits(v: nat, n: nat)
    requires v < Pow2(n)
    ensures Value(Bits(v, n)) == v
  {
    if n > 0 { ValueOfBits(v / 2, n - 1); }
  }

  lemma {:induction false} BitsOfValue(bits: seq<bool>)
    ensures Bits(Value(bits), |bits|) == bits
  {
    if bits != [] {
      BitsOfValue(bits[1..]);
      assert bits == [bits[0]] + bits[1..];
    }
  }

  lemma WordSize()
    ensures Pow2(64) == Modulus
  {
    assert Pow2(4) == 16;
    PowAdds(4, 4);
    PowAdds(8, 8);
    PowAdds(16, 16);
    PowAdds(32, 32);
  }

  lemma {:induction false} PowAdds(a: nat, b: nat)
    ensures Pow2(a + b) == Pow2(a) * Pow2(b)
  {
    if a > 0 { PowAdds(a - 1, b); }
  }

  /** A word of a number, wrapping around. */
  function Wrapped(v: nat): Word { Bits(v % Modulus, 64) }

  lemma WrappedValue(v: nat)
    ensures Value(Wrapped(v)) == v % Modulus
  {
    hide Value, Bits;
    WordSize();
    ValueOfBits(v % Modulus, 64);
  }

  lemma SameValue(x: Word, y: Word)
    requires Value(x) % Modulus == Value(y) % Modulus
    ensures x == y
  {
    hide Value, Bits, Pow2;
    WordSize();
    ValueIsBelow(x);
    ValueIsBelow(y);
    BitsOfValue(x);
    BitsOfValue(y);
  }

  // ----- The mixer -----

  /** x ^= x >> k */
  function Folded(x: Word, k: nat): Word {
    seq(64, i requires 0 <= i < 64 => if i + k < 64 then x[i] != x[i + k] else x[i])
  }

  function Times(x: Word, factor: nat): Word { Wrapped(Value(x) * factor) }

  const Spread := 0x9E3779B97F4A7C15
  const FirstFactor := 0xBF58476D1CE4E5B9
  const SecondFactor := 0x94D049BB133111EB

  function Mixed(x: Word): Word {
    Folded(Times(Folded(Times(Folded(x, 30), FirstFactor), 27), SecondFactor), 31)
  }

  function StreamSeed(seed: Word, sequence: Word): Word {
    Mixed(Wrapped(Value(seed) * Spread + Value(sequence)))
  }

  // ----- No stage loses anything -----

  /** From the highest bit down, each bit of x is known from those above it. */
  lemma {:induction false} FoldedBit(x: Word, y: Word, k: nat, i: nat)
    requires k > 0 && Folded(x, k) == Folded(y, k) && i < 64
    ensures x[i] == y[i]
    decreases 64 - i
  {
    assert Folded(x, k)[i] == Folded(y, k)[i];
    if i + k < 64 { FoldedBit(x, y, k, i + k); }
  }

  lemma {:induction false} FoldedIsInjective(x: Word, y: Word, k: nat)
    requires k > 0 && Folded(x, k) == Folded(y, k)
    ensures x == y
  {
    forall i | 0 <= i < 64 ensures x[i] == y[i] { FoldedBit(x, y, k, i); }
  }

  /** A factor with an inverse modulo 2^64. */
  lemma FactorIsUndone(x: nat, factor: nat, inverse: nat, k: nat)
    requires factor * inverse == 1 + k * Modulus
    ensures (((x * factor) % Modulus) * inverse) % Modulus == x % Modulus
  {
    var v, m := x * factor, Modulus;
    var q, r := v / m, v % m;
    assert r * inverse == x + m * (k * x - q * inverse) by {
      assert v == m * q + r;
      assert v * inverse == x * (factor * inverse);
      assert x * (1 + k * m) == x + m * (k * x);
      assert (m * q + r) * inverse == m * (q * inverse) + r * inverse;
    }
    SameRemainder(x, k * x - q * inverse, m);
  }

  lemma SameRemainder(x: int, n: int, m: nat)
    requires m > 0
    ensures (x + m * n) % m == x % m
  {
    var q, r := x / m, x % m;
    assert x + m * n == m * (q + n) + r;
    DivisionIsUnique(m, (x + m * n) / m, (x + m * n) % m, q + n, r);
  }

  lemma {:induction false} TimesIsInjective(x: Word, y: Word, factor: nat, inverse: nat, k: nat)
    requires factor * inverse == 1 + k * Modulus && Times(x, factor) == Times(y, factor)
    ensures x == y
  {
    hide Value, Bits;
    WrappedValue(Value(x) * factor);
    WrappedValue(Value(y) * factor);
    FactorIsUndone(Value(x), factor, inverse, k);
    FactorIsUndone(Value(y), factor, inverse, k);
    SameValue(x, y);
  }

  lemma {:induction false} MixingIsInjective(x: Word, y: Word)
    requires Mixed(x) == Mixed(y)
    ensures x == y
  {
    hide Folded, Times;
    var a, b := Folded(x, 30), Folded(y, 30);
    var c, d := Times(a, FirstFactor), Times(b, FirstFactor);
    var e, f := Folded(c, 27), Folded(d, 27);
    FoldedIsInjective(Times(e, SecondFactor), Times(f, SecondFactor), 31);
    TimesIsInjective(e, f, SecondFactor, 0x319642B2D24D8EC3, 2077064247507883091);
    FoldedIsInjective(c, d, 27);
    TimesIsInjective(a, b, FirstFactor, 0x96DE1B173F119089, 8125545580553827436);
    FoldedIsInjective(x, y, 30);
  }

  // ----- Undoing the mixer -----

  /** Undoes x ^= x >> k, for shifts of a third of the word or more. */
  function Unfolded(y: Word, k: nat): Word {
    seq(64, i requires 0 <= i < 64 => (y[i] != (i + k < 64 && y[i + k])) != (i + 2 * k < 64 && y[i + 2 * k]))
  }

  lemma UnfoldsWhatWasFolded(x: Word, k: nat)
    requires 22 <= k
    ensures Unfolded(Folded(x, k), k) == x
  {
    var y := Folded(x, k);
    forall i | 0 <= i < 64 ensures Unfolded(y, k)[i] == x[i] {
      assert y[i] == (x[i] != (i + k < 64 && x[i + k]));
      if i + k < 64 { assert y[i + k] == (x[i + k] != (i + 2 * k < 64 && x[i + 2 * k])); }
      if i + 2 * k < 64 { assert y[i + 2 * k] == x[i + 2 * k]; }
    }
  }

  lemma TimesIsUndone(x: Word, factor: nat, inverse: nat, k: nat)
    requires factor * inverse == 1 + k * Modulus
    ensures Times(Times(x, factor), inverse) == x
  {
    hide Value, Bits;
    WrappedValue(Value(x) * factor);
    WrappedValue(Value(Times(x, factor)) * inverse);
    FactorIsUndone(Value(x), factor, inverse, k);
    SameValue(Times(Times(x, factor), inverse), x);
  }

  /** The last shift, the second factor, the middle shift, the first factor and the first shift, each
      undone in turn. */
  function Unmixed(y: Word): Word {
    Unfolded(Times(Unfolded(Times(Unfolded(y, 31), 0x319642B2D24D8EC3), 27), 0x96DE1B173F119089), 30)
  }

  /** The mixer loses nothing: this is where it came from. */
  lemma {:induction false} MixingIsUndone(x: Word)
    ensures Unmixed(Mixed(x)) == x
  {
    hide Folded, Unfolded, Times;
    var a := Folded(x, 30);
    var b := Times(a, FirstFactor);
    var c := Folded(b, 27);
    UnfoldsWhatWasFolded(Times(c, SecondFactor), 31);
    TimesIsUndone(c, SecondFactor, 0x319642B2D24D8EC3, 2077064247507883091);
    UnfoldsWhatWasFolded(b, 27);
    TimesIsUndone(a, FirstFactor, 0x96DE1B173F119089, 8125545580553827436);
    UnfoldsWhatWasFolded(x, 30);
  }

  /** Undoing the mixer on a stream seed gives the weighted sum of seed and sequence back. */
  lemma {:induction false} StreamSeedIsUndone(seed: Word, sequence: Word)
    ensures Value(Unmixed(StreamSeed(seed, sequence)))
         == (Value(seed) * 0x9E3779B97F4A7C15 + Value(sequence)) % 0x1_0000_0000_0000_0000
  {
    hide Value, Mixed, Unmixed, Wrapped;
    var v := Value(seed) * Spread + Value(sequence);
    MixingIsUndone(Wrapped(v));
    WrappedValue(v);
  }

  /** For one seed, different sequences get different stream seeds. */
  lemma {:induction false} SequencesDoNotCollide(seed: Word, sequence: Word, other: Word)
    requires StreamSeed(seed, sequence) == StreamSeed(seed, other)
    ensures sequence == other
  {
    hide Value, Mixed, Wrapped;
    var s := Value(seed) * Spread;
    var a, b := s + Value(sequence), s + Value(other);
    MixingIsInjective(Wrapped(a), Wrapped(b));
    WrappedValue(a);
    WrappedValue(b);
    CancelSum(s, Value(sequence), Value(other));
    SameValue(sequence, other);
  }

  lemma CancelSum(s: nat, x: nat, y: nat)
    requires (s + x) % Modulus == (s + y) % Modulus
    ensures x % Modulus == y % Modulus
  {
  }

  /** For one sequence, different seeds get different stream seeds. */
  lemma {:induction false} SeedsDoNotCollide(seed: Word, other: Word, sequence: Word)
    requires StreamSeed(seed, sequence) == StreamSeed(other, sequence)
    ensures seed == other
  {
    hide Value, Mixed, Wrapped;
    var s, t, q := Value(seed) * Spread, Value(other) * Spread, Value(sequence);
    MixingIsInjective(Wrapped(s + q), Wrapped(t + q));
    WrappedValue(s + q);
    WrappedValue(t + q);
    assert (q + s) % Modulus == (q + t) % Modulus;
    CancelSum(q, s, t);
    WrappedSame(s, t);
    SpreadIsInjective(seed, other);
  }

  lemma WrappedSame(s: nat, t: nat)
    requires s % Modulus == t % Modulus
    ensures Wrapped(s) == Wrapped(t)
  {
  }

  lemma SpreadIsInjective(seed: Word, other: Word)
    requires Wrapped(Value(seed) * Spread) == Wrapped(Value(other) * Spread)
    ensures seed == other
  {
    hide Value, Wrapped;
    TimesIsInjective(seed, other, Spread, 0xF1DE83E19937733D, 10771413168148108919);
  }
}
