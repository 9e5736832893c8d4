/** The 64-bit Mersenne Twister, which regenerates its 312 words in place, against the recurrence of
    section 26.5.3.2 of ISO C++14. */
module Twister {
  const NN := 312
  const MM := 156
  const MATRIX_A: bv64 := 0xB502_6F5A_A966_19E9
  const UPPER: bv64 := 0xFFFF_FFFF_8000_0000
  const LOWER: bv64 := 0x7FFF_FFFF

  // ----- the recurrence -----

  /** One step: the upper bits of one word and the lower bits of the next, shifted and combined with a third. */
  function Twist(first: bv64, second: bv64, middle: bv64): bv64 {
    var y := (first & UPPER) | (second & LOWER);
    middle ^ (y >> 1) ^ (if y & 1 == 1 then MATRIX_A else 0)
  }

  /** How a seed is spread over the first 312 words; all arithmetic is modulo 2 to the 64. */
  function SeedStep(previous: bv64, k: nat): bv64
    requires k < NN
  {
    6364136223846793005 * (previous ^ (previous >> 62)) + (k as bv64)
  }

  /** Element `k` of the sequence that starts from `seed`. */
  function X(seed: bv64, k: nat): bv64 {
    if k == 0 then seed
    else if k < NN then SeedStep(X(seed, k - 1), k)
    else Twist(X(seed, k - NN), X(seed, k - NN + 1), X(seed, k - NN + MM))
  }

  function Shake29(x: bv64): bv64 { x ^ ((x >> 29) & 0x5555_5555_5555_5555) }

  function Shake17(x: bv64): bv64 { x ^ ((x << 17) & 0x71D6_7FFF_EDA6_0000) }

  function Shake37(x: bv64): bv64 { x ^ ((x << 37) & 0xFFF7_EEE0_0000_0000) }

  function Shake43(x: bv64): bv64 { x ^ (x >> 43) }

  /** The output transformation. */
  function Temper(word: bv64): bv64 {
    Shake43(Shake37(Shake17(Shake29(word))))
  }

  // ----- the generator -----

  class MersenneTwister {
    const mt: array<bv64>
    var mti: nat
    ghost const seed: bv64
    /** How often `Rnd` has been called. */
    ghost var calls: nat

    /** The words are a stretch of 312 elements of the sequence, and `mti` says which one comes next. */
    ghost predicate Valid()
      reads this, mt
    {
      && mt.Length == NN && mti <= NN && mti <= NN + calls
      && forall i | 0 <= i < NN :: mt[i] == X(seed, NN + calls - mti + i)
    }

    constructor (seed: bv64, counter: bv64)
      ensures Valid() && fresh(mt) && calls == 0 && this.seed == seed + counter
    {
      this.seed := seed + counter;
      mt := new bv64[NN];
      mti := 0;
      calls := 0;
      new;
      Init(seed + counter);
    }

    method Init(start: bv64)
      requires mt.Length == NN && start == seed && calls == 0
      modifies this`mti, mt
      ensures Valid()
    {
      hide X, SeedStep;
      FirstElement(seed);
      mt[0] := start;
      mti := 1;
      while mti < NN
        invariant 1 <= mti <= NN && calls == 0
        invariant forall i | 0 <= i < mti :: mt[i] == X(seed, i)
      {
        NextElement(seed, mti);
        mt[mti] := SeedStep(mt[mti - 1], mti);
        mti := mti + 1;
      }
    }

    /** Words before `i` are of the next 312, the others still of the current ones. */
    ghost predicate Mixed(i: nat)
      reads this`calls, mt
    {
      && mt.Length == NN && i <= NN
      && (forall j | 0 <= j < i :: mt[j] == X(seed, NN + calls + j))
      && (forall j | i <= j < NN :: mt[j] == X(seed, calls + j))
    }

    /** Word `i` of the next 312: `near` and `far` are the places 1 and 156 further on, from the end back to the start. */
    method NextWord(i: nat, near: nat, far: nat) returns (word: bv64)
      requires i < NN && Mixed(i)
      requires near == (if i + 1 < NN then i + 1 else 0) && far == (if i + MM < NN then i + MM else i + MM - NN)
      ensures word == X(seed, NN + calls + i)
    {
      hide X, Twist;
      Recurrence(seed, calls + i);
      assert mt[near] == X(seed, calls + i + 1);
      assert mt[far] == X(seed, calls + i + MM);
      word := TwistWords(mt[i], mt[near], mt[far]);
    }

    method Renew(i: nat, near: nat, far: nat)
      requires i < NN && Mixed(i)
      requires near == (if i + 1 < NN then i + 1 else 0) && far == (if i + MM < NN then i + MM else i + MM - NN)
      modifies mt
      ensures Mixed(i + 1)
    {
      hide X, Twist;
      var word := NextWord(i, near, far);
      mt[i] := word;
    }

    /** Generates the next 312 words. Words before `i` are new already, the others still old: the step for
        `i` reads just the ones it needs. */
    method Regenerate()
      requires Valid() && mti == NN
      modifies this`mti, mt
      ensures Valid() && mti == 0
    {
      hide X, Twist;
      var i := 0;
      while i < NN - MM
        invariant 0 <= i <= NN - MM && Mixed(i)
        modifies mt
      {
        Renew(i, i + 1, i + MM);
        i := i + 1;
      }
      while i < NN - 1
        invariant NN - MM <= i <= NN - 1 && Mixed(i)
        modifies mt
      {
        Renew(i, i + 1, i + MM - NN);
        i := i + 1;
      }
      Renew(NN - 1, 0, MM - 1);
      mti := 0;
    }

    /** The `t`-th call, counting from 0, returns the tempered element `312 + t`. */
    method Rnd() returns (x: bv64)
      requires Valid()
      modifies this, mt
      ensures Valid() && calls == old(calls) + 1
      ensures x == Temper(X(seed, NN + old(calls)))
    {
      hide X, Shake29, Shake17, Shake37, Shake43;
      if mti >= NN { Regenerate(); }
      x := mt[mti];
      mti := mti + 1;
      calls := calls + 1;
      x := Shake29(x);
      x := Shake17(x);
      x := Shake37(x);
      x := Shake43(x);
    }
  }

  /** The combination as the code computes it, with a two-entry table. */
  method TwistWords(first: bv64, second: bv64, middle: bv64) returns (word: bv64)
    ensures word == Twist(first, second, middle)
  {
    var mag01 := [0, MATRIX_A];
    var x := (first & UPPER) | (second & LOWER);
    LowBit(x);
    word := middle ^ (x >> 1) ^ mag01[(x & 1) as int];
  }

  lemma LowBit(x: bv64)
    ensures x & 1 == 0 || x & 1 == 1
  {
  }

  lemma FirstElement(seed: bv64)
    ensures X(seed, 0) == seed
  {
  }

  lemma NextElement(seed: bv64, k: nat)
    requires 0 < k < NN
    ensures X(seed, k) == SeedStep(X(seed, k - 1), k)
  {
    hide SeedStep, Twist;
  }

  lemma Recurrence(seed: bv64, k: nat)
    ensures X(seed, k + NN) == Twist(X(seed, k), X(seed, k + 1), X(seed, k + MM))
  {
    hide Twist;
  }
}
