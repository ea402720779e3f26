/** Binary numbers: shifts and bitwise operators, fields of equal width, and the number of ones, over the naturals. */
module Bits {
  import Sequences

  function Pow2(k: nat): (p: nat)
    ensures p > 0
  {
    if k == 0 then 1 else 2 * Pow2(k - 1)
  }

  /** `x << k`, `x >> k`, and the lowest `k` bits of `x`. */
  function Shl(x: nat, k: nat): nat { if k == 0 then x else 2 * Shl(x, k - 1) }

  function Shr(x: nat, k: nat): nat { if k == 0 then x else Shr(x / 2, k - 1) }

  function Low(x: nat, k: nat): nat { if k == 0 then 0 else 2 * Low(x / 2, k - 1) + x % 2 }

  function And(x: nat, y: nat): nat {
    if x == 0 || y == 0 then 0 else 2 * And(x / 2, y / 2) + if x % 2 == 1 && y % 2 == 1 then 1 else 0
  }

  function Xor(x: nat, y: nat): nat
    decreases x + y
  {
    if x == 0 && y == 0 then 0 else 2 * Xor(x / 2, y / 2) + if x % 2 == y % 2 then 0 else 1
  }

  /** The number of ones. */
  function Ones(n: nat): nat { if n == 0 then 0 else n % 2 + Ones(n / 2) }

  // ----- Shifts -----

  lemma {:induction false} LowBound(x: nat, k: nat)
    ensures Low(x, k) < Pow2(k)
  {
    if k > 0 {
      LowBound(x / 2, k - 1);
    }
  }

  /** A number is its low field below the rest. */
  lemma {:induction false} Split(x: nat, k: nat)
    ensures x == Low(x, k) + Shl(Shr(x, k), k)
  {
    if k > 0 {
      Split(x / 2, k - 1);
    }
  }

  /** Two numbers put together in one word come apart again. */
  lemma {:induction false} Join(low: nat, high: nat, k: nat)
    requires low < Pow2(k)
    ensures Low(low + Shl(high, k), k) == low && Shr(low + Shl(high, k), k) == high
  {
    if k > 0 {
      assert (low + Shl(high, k)) / 2 == low / 2 + Shl(high, k - 1);
      Join(low / 2, high, k - 1);
    }
  }

  lemma {:induction false} SmallShr(x: nat, k: nat)
    requires x < Pow2(k)
    ensures Shr(x, k) == 0 && Low(x, k) == x
  {
    if k > 0 {
      SmallShr(x / 2, k - 1);
    }
  }

  lemma {:induction false} ShrAdds(x: nat, a: nat, b: nat)
    ensures Shr(Shr(x, a), b) == Shr(x, a + b)
  {
    if a > 0 {
      ShrAdds(x / 2, a - 1, b);
    }
  }

  lemma {:induction false} ShlSum(x: nat, y: nat, k: nat)
    ensures Shl(x + y, k) == Shl(x, k) + Shl(y, k)
  {
    if k > 0 {
      ShlSum(x, y, k - 1);
    }
  }

  lemma {:induction false} ShlBound(x: nat, k: nat, m: nat)
    requires x < Pow2(m)
    ensures Shl(x, k) + Pow2(k) <= Pow2(k + m)
  {
    if k > 0 {
      ShlBound(x, k - 1, m);
    }
  }

  lemma {:induction false} ShrBound(x: nat, k: nat, m: nat)
    requires x < Pow2(k + m)
    ensures Shr(x, k) < Pow2(m)
  {
    if k > 0 {
      ShrBound(x / 2, k - 1, m);
    }
  }

  lemma {:induction false} LowOfLow(x: nat, k: nat, m: nat)
    ensures Low(Low(x, k + m), k) == Low(x, k) && Shr(Low(x, k + m), k) == Low(Shr(x, k), m)
  {
    if k > 0 {
      LowOfLow(x / 2, k - 1, m);
    }
  }

  lemma {:induction false} Pow2Exceeds(w: nat)
    ensures w < Pow2(w)
  {
    if w > 0 {
      Pow2Exceeds(w - 1);
    }
  }

  /** The model of the shifts agrees with multiplication and division by a power of two. */
  lemma ShiftsScale(x: nat, k: nat)
    ensures Shl(x, k) == x * Pow2(k)
    ensures Shr(x, k) == x / Pow2(k) && Low(x, k) == x % Pow2(k)
  {
    ShlScales(x, k);
    Split(x, k);
    LowBound(x, k);
    ShlScales(Shr(x, k), k);
    DivMod(Shr(x, k), Low(x, k), Pow2(k));
  }

  lemma {:induction false} ShlScales(x: nat, k: nat)
    ensures Shl(x, k) == x * Pow2(k)
  {
    if k > 0 {
      ShlScales(x, k - 1);
    }
  }

  lemma AtLeast(d: nat, b: nat)
    requires d > 0
    ensures d * b >= b
  {}

  lemma Unique(b: nat, q: nat, r: nat, q': nat, r': nat)
    requires r < b && r' < b && q * b + r == q' * b + r'
    ensures q == q' && r == r'
  {
    if q > q' {
      AtLeast(q - q', b);
    } else if q < q' {
      AtLeast(q' - q, b);
    }
  }

  lemma DivMod(q: nat, r: nat, b: nat)
    requires r < b
    ensures (r + q * b) / b == q && (r + q * b) % b == r
  {
    var x := r + q * b;
    assert x == (x / b) * b + x % b;
    Unique(b, q, r, x / b, x % b);
  }

  // ----- Conjunction -----

  lemma AndStep(x: nat, y: nat)
    ensures And(x, y) == 2 * And(x / 2, y / 2) + if x % 2 == 1 && y % 2 == 1 then 1 else 0
  {}

  lemma LowHalf(x: nat, k: nat)
    requires k > 0
    ensures Low(x, k) / 2 == Low(x / 2, k - 1) && Low(x, k) % 2 == x % 2
  {}

  /** Conjunction works on each field alone. */
  lemma {:induction false} AndSplits(x: nat, y: nat, k: nat)
    ensures And(x, y) == And(Low(x, k), Low(y, k)) + Shl(And(Shr(x, k), Shr(y, k)), k)
  {
    if k > 0 {
      AndSplits(x / 2, y / 2, k - 1);
      AndStep(x, y);
      LowHalf(x, k);
      LowHalf(y, k);
      AndStep(Low(x, k), Low(y, k));
    }
  }

  /** A mask of `k` ones keeps the lowest `k` bits. */
  lemma {:induction false} AndLowMask(x: nat, k: nat)
    ensures And(x, Pow2(k) - 1) == Low(x, k)
  {
    if k > 0 {
      AndLowMask(x / 2, k - 1);
      AndStep(x, Pow2(k) - 1);
      assert (Pow2(k) - 1) / 2 == Pow2(k - 1) - 1;
    }
  }

  lemma {:induction false} AndSelf(x: nat)
    ensures And(x, x) == x
  {
    if x > 0 {
      AndSelf(x / 2);
    }
  }

  /** The value of the lowest one. */
  function LowestOne(n: nat): nat
    requires n > 0
  {
    if n % 2 == 1 then 1 else 2 * LowestOne(n / 2)
  }

  lemma {:induction false} WithoutLowestOne(n: nat)
    requires n > 0
    ensures LowestOne(n) <= n && Ones(n - LowestOne(n)) == Ones(n) - 1
  {
    if n % 2 == 0 {
      WithoutLowestOne(n / 2);
    }
  }

  /** `n & (n - 1)` removes the lowest one and nothing else. */
  lemma {:induction false} ClearLowestOne(n: nat)
    requires n > 0
    ensures And(n, n - 1) == n - LowestOne(n)
    ensures Ones(And(n, n - 1)) == Ones(n) - 1
  {
    WithoutLowestOne(n);
    AndStep(n, n - 1);
    if n % 2 == 1 {
      assert (n - 1) / 2 == n / 2;
      AndSelf(n / 2);
    } else {
      assert (n - 1) / 2 == n / 2 - 1;
      ClearLowestOne(n / 2);
    }
  }

  // ----- Complement -----

  lemma HalfMask(k: nat)
    requires k > 0
    ensures (Pow2(k) - 1) / 2 == Pow2(k - 1) - 1 && (Pow2(k) - 1) % 2 == 1
  {}

  lemma {:induction false} XorMask(n: nat, k: nat)
    requires n < Pow2(k)
    ensures Xor(n, Pow2(k) - 1) == Pow2(k) - 1 - n
  {
    if k > 0 {
      XorMask(n / 2, k - 1);
      HalfMask(k);
    }
  }

  /** Half of what a mask leaves, and its lowest bit. */
  lemma HalfRest(n: nat, k: nat)
    requires k > 0 && n < Pow2(k)
    ensures var rest := Pow2(k) - 1 - n; rest / 2 == Pow2(k - 1) - 1 - n / 2 && rest % 2 == 1 - n % 2
  {}

  lemma {:induction false} OnesOfRest(n: nat, k: nat)
    requires n < Pow2(k)
    ensures Ones(Pow2(k) - 1 - n) == k - Ones(n)
  {
    if k > 0 {
      OnesOfRest(n / 2, k - 1);
      HalfRest(n, k);
    }
  }

  /** Toggling the lowest `k` bits turns the zeros into ones. */
  lemma Complement(n: nat, k: nat)
    requires n < Pow2(k)
    ensures Xor(n, Pow2(k) - 1) == Pow2(k) - 1 - n
    ensures Ones(Xor(n, Pow2(k) - 1)) == k - Ones(n)
  {
    XorMask(n, k);
    OnesOfRest(n, k);
  }

  // ----- Counting ones -----

  lemma {:induction false} OnesBound(n: nat, k: nat)
    requires n < Pow2(k)
    ensures Ones(n) <= k < Pow2(k)
  {
    if k > 0 {
      OnesBound(n / 2, k - 1);
    }
  }

  lemma {:induction false} OnesSplit(n: nat, k: nat)
    ensures Ones(n) == Ones(Low(n, k)) + Ones(Shr(n, k))
  {
    if k > 0 {
      OnesSplit(n / 2, k - 1);
    }
  }

  // ----- Fields -----

  /** The word whose fields of `w` bits are `ds`, lowest first. */
  function Word(ds: seq<nat>, w: nat): nat { if ds == [] then 0 else ds[0] + Shl(Word(ds[1..], w), w) }

  /** The number of ones in each of the lowest `k` fields of `w` bits of `n`. */
  function FieldOnes(n: nat, w: nat, k: nat): (ds: seq<nat>)
    ensures |ds| == k
    decreases k
  {
    if k == 0 then [] else [Ones(Low(n, w))] + FieldOnes(Shr(n, w), w, k - 1)
  }

  /** The word that counts in each of `k` fields of `w` bits the ones of that field of `n`. */
  function Counted(n: nat, w: nat, k: nat): nat { Word(FieldOnes(n, w, k), w) }

  lemma CountedStep(n: nat, w: nat, k: nat)
    requires k > 0
    ensures Counted(n, w, k) == Ones(Low(n, w)) + Shl(Counted(Shr(n, w), w, k - 1), w)
    ensures Low(Counted(n, w, k), w) == Ones(Low(n, w))
    ensures Shr(Counted(n, w, k), w) == Counted(Shr(n, w), w, k - 1)
    ensures Ones(Low(n, w)) <= w < Pow2(w)
  {
    LowBound(n, w);
    OnesBound(Low(n, w), w);
    assert FieldOnes(n, w, k)[1..] == FieldOnes(Shr(n, w), w, k - 1);
    Join(Ones(Low(n, w)), Counted(Shr(n, w), w, k - 1), w);
  }

  /** The width of `k` fields of `w` bits. */
  function Width(w: nat, k: nat): nat { if k == 0 then 0 else w + Width(w, k - 1) }

  /** Each field has room for its count. */
  lemma {:induction false} CountedBound(n: nat, w: nat, k: nat)
    ensures Counted(n, w, k) < Pow2(Width(w, k))
    decreases k
  {
    if k > 0 {
      CountedBound(Shr(n, w), w, k - 1);
      CountedStep(n, w, k);
      ShlBound(Counted(Shr(n, w), w, k - 1), w, Width(w, k - 1));
    }
  }

  lemma {:induction false} FieldOnesSum(n: nat, w: nat, k: nat)
    requires n < Pow2(Width(w, k))
    ensures Sequences.Sum(FieldOnes(n, w, k)) == Ones(n)
    decreases k
  {
    if k > 0 {
      OnesSplit(n, w);
      ShrBound(n, w, Width(w, k - 1));
      FieldOnesSum(Shr(n, w), w, k - 1);
    }
  }

  /** Casting out: a word is congruent to the sum of its fields, modulo the base less one. */
  lemma {:induction false} CastingOut(ds: seq<nat>, w: nat) returns (c: nat)
    ensures Word(ds, w) == Sequences.Sum(ds) + c * (Pow2(w) - 1)
  {
    c := 0;
    if ds != [] {
      var rest := CastingOut(ds[1..], w);
      var x := Word(ds[1..], w);
      ShlScales(x, w);
      c := rest + x;
      Distribute(rest, x, Pow2(w) - 1);
    }
  }

  lemma Distribute(a: nat, x: nat, m: nat)
    ensures (a + x) * m == a * m + x * m && x * (m + 1) == x * m + x
  {}

  /** If all ones of a word together are fewer than the base less one, then the remainder of the word that counts
      them field by field is their number. */
  lemma CountedRemainder(n: nat, w: nat, k: nat)
    requires n < Pow2(Width(w, k)) && Ones(n) < Pow2(w) - 1
    ensures Counted(n, w, k) % (Pow2(w) - 1) == Ones(n)
  {
    FieldOnesSum(n, w, k);
    SmallSum(FieldOnes(n, w, k), w);
  }

  lemma SmallSum(ds: seq<nat>, w: nat)
    requires Sequences.Sum(ds) < Pow2(w) - 1
    ensures Word(ds, w) % (Pow2(w) - 1) == Sequences.Sum(ds)
  {
    var c := CastingOut(ds, w);
    Remainder(Word(ds, w), c, Sequences.Sum(ds), Pow2(w) - 1);
  }

  lemma Remainder(x: nat, q: nat, r: nat, b: nat)
    requires x == r + q * b && r < b
    ensures x % b == r
  {
    DivMod(q, r, b);
  }
}
