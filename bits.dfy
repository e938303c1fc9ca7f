/**
 * Unsigned machine words as natural numbers, and the bit operations the C code uses
 * on them: `m & (1 << k)`, `m >>= 1`, `a | b` and `m &= ~(1 << k)`.
 *
 * A `uint64_t` or `unsigned` value is the natural number it denotes; bit k of m is
 * the lowest bit of m shifted right k times. Every operation is defined by the
 * binary digits of its operands, so no operation here can wrap around: the bound
 * lemmas below show that results stay below 2^n when the operands do.
 */
module Bits {
  /** 2^k, the value of `1 << k` while it fits the type. */
  function Pow2(k: nat): (r: nat)
    ensures r >= 1
  {
    if k == 0 then 1 else 2 * Pow2(k - 1)
  }

  /** `(m >> k) & 1 == 1`. */
  predicate HasBit(m: nat, k: nat)
    decreases k
  {
    if k == 0 then m % 2 == 1 else HasBit(m / 2, k - 1)
  }

  /** `a | b`, digit by digit from the lowest. */
  function Or(a: nat, b: nat): nat
    decreases a + b
  {
    if a == 0 then b
    else if b == 0 then a
    else 2 * Or(a / 2, b / 2) + (if a % 2 == 1 || b % 2 == 1 then 1 else 0)
  }

  /** `m & ~(1 << k)`. */
  function ClearBit(m: nat, k: nat): nat {
    if HasBit(m, k) then SetBitIsAtLeast(m, k); m - Pow2(k) else m
  }

  /** A word with bit k set is at least 2^k. */
  lemma {:induction false} SetBitIsAtLeast(m: nat, k: nat)
    requires HasBit(m, k)
    ensures Pow2(k) <= m
    decreases k
  {
    if k > 0 {
      SetBitIsAtLeast(m / 2, k - 1);
    }
  }

  /** 2^j < 2^k when j < k. */
  lemma {:induction false} Pow2Increasing(j: nat, k: nat)
    requires j < k
    ensures Pow2(j) < Pow2(k)
    decreases k
  {
    if j < k - 1 {
      Pow2Increasing(j, k - 1);
    }
  }

  /** One more than the largest 64-bit unsigned value. */
  lemma Pow2Of64()
    ensures Pow2(64) == 0x1_0000_0000_0000_0000
  {
    Pow2Of32();
    Pow2Add(32, 32);
  }

  lemma Pow2Of32()
    ensures Pow2(32) == 0x1_0000_0000
  {
    Pow2Of16();
    Pow2Add(16, 16);
  }

  lemma Pow2Of16()
    ensures Pow2(16) == 0x1_0000
  {
    assert Pow2(4) == 16;
    Pow2Add(4, 4);
    Pow2Add(8, 8);
  }

  lemma {:induction false} Pow2Add(a: nat, b: nat)
    ensures Pow2(a + b) == Pow2(a) * Pow2(b)
    decreases a
  {
    if a > 0 {
      Pow2Add(a - 1, b);
    }
  }

  // ---------------------------------------------------------------------------
  // Digits

  /** The lowest digit and the rest of `a | b`. */
  lemma OrDigits(a: nat, b: nat)
    ensures Or(a, b) % 2 == (if a % 2 == 1 || b % 2 == 1 then 1 else 0)
    ensures Or(a, b) / 2 == Or(a / 2, b / 2)
  {
  }

  /** Two numbers with the same lowest digit and the same rest are equal. */
  lemma SameDigits(x: nat, y: nat)
    requires x % 2 == y % 2 && x / 2 == y / 2
    ensures x == y
  {
  }

  /** Two words with the same bits are the same word. */
  lemma {:induction false} BitsDetermine(m: nat, n: nat)
    requires forall k: nat :: HasBit(m, k) <==> HasBit(n, k)
    ensures m == n
    decreases m + n
  {
    assert HasBit(m, 0) <==> HasBit(n, 0);
    if m + n > 0 {
      forall k: nat ensures HasBit(m / 2, k) <==> HasBit(n / 2, k) {
        assert HasBit(m, k + 1) <==> HasBit(n, k + 1);
      }
      BitsDetermine(m / 2, n / 2);
    }
    SameDigits(m, n);
  }

  // ---------------------------------------------------------------------------
  // Single bits

  lemma {:induction false} NoBitOfZero(k: nat)
    ensures !HasBit(0, k)
  {
    if k > 0 {
      NoBitOfZero(k - 1);
    }
  }

  /** `1 << j` has bit k set exactly when k == j. */
  lemma {:induction false} SingleBit(j: nat, k: nat)
    ensures HasBit(Pow2(j), k) <==> j == k
    decreases k
  {
    if k > 0 {
      if j == 0 {
        NoBitOfZero(k - 1);
      } else {
        SingleBit(j - 1, k - 1);
      }
    }
  }

  /** A number below 2^n has no bit at position n or above. */
  lemma {:induction false} NoBitAbove(m: nat, n: nat, k: nat)
    requires m < Pow2(n) && n <= k
    ensures !HasBit(m, k)
    decreases k
  {
    if n == 0 {
      NoBitOfZero(k);
    } else {
      NoBitAbove(m / 2, n - 1, k - 1);
    }
  }

  // ---------------------------------------------------------------------------
  // Or

  /** Bit k of `a | b` is set exactly when it is set in a or in b. */
  lemma {:induction false} HasBitOr(a: nat, b: nat, k: nat)
    ensures HasBit(Or(a, b), k) <==> HasBit(a, k) || HasBit(b, k)
    decreases k
  {
    OrDigits(a, b);
    if k > 0 {
      HasBitOr(a / 2, b / 2, k - 1);
    }
  }

  lemma {:induction false} OrComm(a: nat, b: nat)
    ensures Or(a, b) == Or(b, a)
    decreases a + b
  {
    if a != 0 && b != 0 {
      OrComm(a / 2, b / 2);
    }
  }

  lemma {:induction false} OrAssoc(a: nat, b: nat, c: nat)
    ensures Or(Or(a, b), c) == Or(a, Or(b, c))
    decreases a + b + c
  {
    if a != 0 && b != 0 && c != 0 {
      OrDigits(a, b);
      OrDigits(b, c);
      OrDigits(Or(a, b), c);
      OrDigits(a, Or(b, c));
      OrAssoc(a / 2, b / 2, c / 2);
      SameDigits(Or(Or(a, b), c), Or(a, Or(b, c)));
    }
  }

  lemma {:induction false} OrIdempotent(a: nat)
    ensures Or(a, a) == a
    decreases a
  {
    if a != 0 {
      OrIdempotent(a / 2);
    }
  }

  /** OR-ing two words of n bits gives a word of n bits. */
  lemma {:induction false} OrBound(a: nat, b: nat, n: nat)
    requires a < Pow2(n) && b < Pow2(n)
    ensures Or(a, b) < Pow2(n)
    decreases n
  {
    if n > 0 && a != 0 && b != 0 {
      OrBound(a / 2, b / 2, n - 1);
    }
  }

  // ---------------------------------------------------------------------------
  // ClearBit

  /** Clearing bit k clears exactly that bit. */
  lemma {:induction false} HasBitClearBit(m: nat, k: nat, j: nat)
    ensures HasBit(ClearBit(m, k), j) <==> HasBit(m, j) && j != k
    decreases k
  {
    if HasBit(m, k) {
      if k == 0 {
        assert (m - 1) / 2 == m / 2;
      } else {
        assert (m - Pow2(k)) / 2 == m / 2 - Pow2(k - 1);
        assert (m - Pow2(k)) % 2 == m % 2;
        if j > 0 {
          HasBitClearBit(m / 2, k - 1, j - 1);
        }
      }
    }
  }

  /** Clearing a set bit makes the word smaller. */
  lemma ClearBitDecreases(m: nat, k: nat)
    requires HasBit(m, k)
    ensures ClearBit(m, k) < m
  {
  }
}
