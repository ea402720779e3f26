/** The eight population counts of 05_bit_counting/reference.cpp on 32-bit words.  A word is a natural number below
    2^32; sums and differences wrap around explicitly. */
module BitCount {
  import opened Bits

  const WORD: nat := 0x1_0000_0000

  function Add(x: nat, y: nat): nat { (x + y) % WORD }

  function Sub(x: nat, y: nat): nat { (x - y) % WORD }

  lemma {:induction false} Pow2Adds(a: nat, b: nat)
    ensures Pow2(a + b) == Pow2(a) * Pow2(b)
  {
    if a > 0 {
      Pow2Adds(a - 1, b);
    }
  }

  lemma Pow2Values()
    ensures Pow2(2) == 4 && Pow2(3) == 8 && Pow2(4) == 16 && Pow2(6) == 64 && Pow2(8) == 0x100 && Pow2(16) == 0x1_0000
    ensures Pow2(30) == 0x4000_0000 && Pow2(32) == WORD && Pow2(33) == 2 * WORD
  {}

  // ----- The loops -----

  method IteratedBitcount(word: nat) returns (count: nat)
    requires word < WORD
    ensures count == Ones(word)
  {
    count := 0;
    var n := word;
    while n != 0
      invariant count + Ones(n) == Ones(word)
    {
      AndLowMask(n, 1);
      assert Low(n, 1) == n % 2 && Shr(n, 1) == n / 2;
      count := count + And(n, 1);
      n := Shr(n, 1);
    }
  }

  /** `steps` counts the iterations: one for each one. */
  method SparseOnesBitcount(word: nat) returns (count: nat, ghost steps: nat)
    requires word < WORD
    ensures count == Ones(word) && steps == Ones(word)
  {
    count, steps := 0, 0;
    var n := word;
    while n != 0
      invariant count + Ones(n) == Ones(word) && steps == count
    {
      count := count + 1;
      ClearLowestOne(n);
      n := And(n, n - 1);
      steps := steps + 1;
    }
  }

  lemma Toggled(word: nat)
    requires word < WORD
    ensures Ones(Xor(word, WORD - 1)) == 32 - Ones(word)
  {
    Pow2Values();
    Complement(word, 32);
  }

  /** `steps` counts the iterations: one for each zero. */
  method DenseOnesBitcount(word: nat) returns (count: int, ghost steps: nat)
    requires word < WORD
    ensures count == Ones(word) && steps == 32 - Ones(word)
  {
    Toggled(word);
    count, steps := 32, 0;
    var n := Xor(word, WORD - 1);
    while n != 0
      invariant count - Ones(n) == Ones(word) && steps == 32 - count
    {
      count := count - 1;
      ClearLowestOne(n);
      n := And(n, n - 1);
      steps := steps + 1;
    }
  }

  // ----- The tables -----

  newtype schar = x: int | -0x80 <= x < 0x80

  /** `bits_in_char` */
  method ComputeBitsInChar(table: array<int>)
    requires table.Length == 256
    modifies table
    ensures forall i {:trigger table[i]} :: 0 <= i < table.Length ==> table[i] == Ones(i)
  {
    for i := 0 to table.Length
      invariant forall j {:trigger table[j]} :: 0 <= j < i ==> table[j] == Ones(j)
    {
      table[i] := IteratedBitcount(i);
    }
  }

  /** `bits_in_16bits`, an array of signed chars. */
  method ComputeBitsIn16Bits(table: array<schar>)
    requires table.Length == 0x1_0000
    modifies table
    ensures forall i {:trigger table[i]} :: 0 <= i < table.Length ==> table[i] as int == Ones(i)
  {
    for i := 0 to table.Length
      invariant forall j {:trigger table[j]} :: 0 <= j < i ==> table[j] as int == Ones(j)
    {
      HalfwordFitsChar(i);
      var count := IteratedBitcount(i);
      table[i] := count as schar;
    }
  }

  lemma HalfwordFitsChar(n: nat)
    requires n < 0x1_0000
    ensures Ones(n) <= 16
  {
    Pow2Values();
    OnesBound(n, 16);
  }

  method PrecomputedBitcount(n: nat, table: array<int>) returns (count: int)
    requires n < WORD
    requires table.Length == 256 && forall i {:trigger table[i]} :: 0 <= i < table.Length ==> table[i] == Ones(i)
    ensures count == Ones(n)
  {
    Bytes(n);
    count := table[And(n, 0xff)] + table[And(Shr(n, 8), 0xff)] + table[And(Shr(n, 16), 0xff)]
             + table[And(Shr(n, 24), 0xff)];
  }

  method Precomputed16Bitcount(n: nat, table: array<schar>) returns (count: int)
    requires n < WORD
    requires table.Length == 0x1_0000
    requires forall i {:trigger table[i]} :: 0 <= i < table.Length ==> table[i] as int == Ones(i)
    ensures count == Ones(n)
  {
    Halfwords(n);
    count := table[And(n, 0xffff)] as int + table[And(Shr(n, 16), 0xffff)] as int;
  }

  lemma LowField(x: nat, k: nat)
    ensures And(x, Pow2(k) - 1) == Low(x, k) < Pow2(k)
  {}

  lemma Halfwords(n: nat)
    requires n < WORD
    ensures And(n, 0xffff) < 0x1_0000 && And(Shr(n, 16), 0xffff) < 0x1_0000
    ensures Ones(n) == Ones(And(n, 0xffff)) + Ones(And(Shr(n, 16), 0xffff))
  {
    Pow2Values();
    LowField(n, 16);
    LowField(Shr(n, 16), 16);
    OnesSplit(n, 16);
    ShrBound(n, 16, 16);
    SmallShr(Shr(n, 16), 16);
  }

  lemma Bytes(n: nat)
    requires n < WORD
    ensures And(n, 0xff) < 0x100 && And(Shr(n, 8), 0xff) < 0x100
    ensures And(Shr(n, 16), 0xff) < 0x100 && And(Shr(n, 24), 0xff) < 0x100
    ensures Ones(n) == Ones(And(n, 0xff)) + Ones(And(Shr(n, 8), 0xff)) + Ones(And(Shr(n, 16), 0xff))
                       + Ones(And(Shr(n, 24), 0xff))
  {
    Pow2Values();
    LowField(n, 8);
    LowField(Shr(n, 8), 8);
    LowField(Shr(n, 16), 8);
    LowField(Shr(n, 24), 8);
    ShrAdds(n, 8, 8);
    ShrAdds(n, 16, 8);
    OnesSplit(n, 8);
    OnesSplit(Shr(n, 8), 8);
    OnesSplit(Shr(n, 16), 8);
    ShrBound(n, 24, 8);
    SmallShr(Shr(n, 24), 8);
  }

  // ----- Masks -----

  /** The word with `k` fields of `w` bits that all hold `d`. */
  function Repeat(d: nat, w: nat, k: nat): nat { if k == 0 then 0 else d + Shl(Repeat(d, w, k - 1), w) }

  /** A mask put together of two works on the two parts of a word. */
  lemma AndJoin(x: nat, low: nat, high: nat, k: nat)
    requires low < Pow2(k)
    ensures And(x, low + Shl(high, k)) == And(Low(x, k), low) + Shl(And(Shr(x, k), high), k)
  {
    AndSplits(x, low + Shl(high, k), k);
    Join(low, high, k);
  }

  /** Such a mask selects in each field the bits of `d`. */
  lemma MaskedField(x: nat, d: nat, w: nat, k: nat)
    requires k > 0 && d < Pow2(w)
    ensures And(x, Repeat(d, w, k)) == And(Low(x, w), d) + Shl(And(Shr(x, w), Repeat(d, w, k - 1)), w)
  {
    AndJoin(x, d, Repeat(d, w, k - 1), w);
  }

  /** `((unsigned int)(-1)) / (TWO(TWO(c)) + 1u)`, for words of `width` bits. */
  function Mask(c: nat, width: nat): nat { (Pow2(width) - 1) / (Shl(1, Shl(1, c)) + 1) }

  /** The quotient has ones in every other field of `w` bits. */
  lemma AlternateFields(w: nat, k: nat)
    ensures (Pow2(Width(2 * w, k)) - 1) / (Pow2(w) + 1) == Repeat(Pow2(w) - 1, 2 * w, k)
  {
    AlternateTimes(w, k);
    DivMod(Repeat(Pow2(w) - 1, 2 * w, k), 0, Pow2(w) + 1);
  }

  lemma {:induction false} AlternateTimes(w: nat, k: nat)
    ensures Repeat(Pow2(w) - 1, 2 * w, k) * (Pow2(w) + 1) == Pow2(Width(2 * w, k)) - 1
  {
    if k > 0 {
      AlternateTimes(w, k - 1);
      var b, m, p := Pow2(w), Repeat(Pow2(w) - 1, 2 * w, k - 1), Pow2(Width(2 * w, k - 1));
      Pow2Adds(w, w);
      Pow2Adds(2 * w, Width(2 * w, k - 1));
      ShlScales(m, 2 * w);
      Telescope(b, b * b, m, p);
    }
  }

  lemma Telescope(b: nat, c: nat, m: nat, p: nat)
    requires c == b * b && m * (b + 1) == p - 1
    ensures ((b - 1) + m * c) * (b + 1) == c * p - 1
  {}

  // ----- Parallel count -----

  /** `COUNT(x, c)` on words of `width` bits. */
  function Count(x: nat, c: nat, width: nat): nat {
    (And(x, Mask(c, width)) + And(Shr(x, Shl(1, c)), Mask(c, width))) % Pow2(width)
  }

  /** The first `c` counts of the parallel count. */
  function Counts(n: nat, c: nat, width: nat): nat {
    if c == 0 then n else Count(Counts(n, c - 1, width), c - 1, width)
  }

  lemma MaskedPair(x: nat, w: nat, k: nat)
    requires k > 0
    ensures And(x, Repeat(Pow2(w) - 1, 2 * w, k)) ==
            Low(x, w) + Shl(And(Shr(x, 2 * w), Repeat(Pow2(w) - 1, 2 * w, k - 1)), 2 * w)
  {
    ShlBound(0, w, w);
    Pow2Adds(w, w);
    assert Pow2(w) <= Pow2(w) * Pow2(w);
    MaskedField(x, Pow2(w) - 1, 2 * w, k);
    AndLowMask(Low(x, 2 * w), w);
    LowOfLow(x, w, w);
  }

  /** What the two masks of one count select from a counted word, lowest pair of fields first. */
  lemma PairSelected(n: nat, w: nat, k: nat)
    requires k > 0
    ensures
      var (x, x') := (Counted(n, w, 2 * k), Counted(Shr(n, 2 * w), w, 2 * k - 2));
      var (m, m') := (Repeat(Pow2(w) - 1, 2 * w, k), Repeat(Pow2(w) - 1, 2 * w, k - 1));
      && And(x, m) == Ones(Low(n, w)) + Shl(And(x', m'), 2 * w)
      && And(Shr(x, w), m) == Ones(Low(Shr(n, w), w)) + Shl(And(Shr(x', w), m'), 2 * w)
  {
    var x := Counted(n, w, 2 * k);
    CountedStep(n, w, 2 * k);
    CountedStep(Shr(n, w), w, 2 * k - 1);
    ShrAdds(n, w, w);
    ShrAdds(x, w, w);
    MaskedPair(x, w, k);
    MaskedPair(Shr(x, w), w, k);
    ShrAdds(x, w, 2 * w);
    ShrAdds(x, 2 * w, w);
  }

  lemma PairOnes(n: nat, w: nat)
    ensures Ones(Low(n, 2 * w)) == Ones(Low(n, w)) + Ones(Low(Shr(n, w), w))
  {
    OnesSplit(Low(n, 2 * w), w);
    LowOfLow(n, w, w);
  }

  lemma WideFieldAdds(n: nat, w: nat, k: nat, a: nat, b: nat)
    requires k > 0 && a + b == Counted(Shr(n, w), w, k - 1)
    ensures Counted(n, w, k) == Ones(Low(n, w)) + Shl(a, w) + Shl(b, w)
  {
    calc {
      Counted(n, w, k);
    ==  { CountedStep(n, w, k); }
      Ones(Low(n, w)) + Shl(a + b, w);
    ==  { ShlSum(a, b, w); }
      Ones(Low(n, w)) + Shl(a, w) + Shl(b, w);
    }
  }

  lemma PairAdds(n: nat, w: nat, k: nat, a: nat, b: nat)
    requires k > 0 && a + b == Counted(Shr(n, 2 * w), 2 * w, k - 1)
    ensures Ones(Low(n, w)) + Shl(a, 2 * w) + (Ones(Low(Shr(n, w), w)) + Shl(b, 2 * w)) == Counted(n, 2 * w, k)
  {
    PairOnes(n, w);
    WideFieldAdds(n, 2 * w, k, a, b);
  }

  /** One count adds the fields two by two: from the ones in each of `2 * k` fields of `w` bits to those in each of
      `k` fields of `2 * w` bits. */
  lemma {:induction false} CountPairs(n: nat, w: nat, k: nat)
    ensures
      var (x, m) := (Counted(n, w, 2 * k), Repeat(Pow2(w) - 1, 2 * w, k));
      And(x, m) + And(Shr(x, w), m) == Counted(n, 2 * w, k)
    decreases k
  {
    if k > 0 {
      PairSelected(n, w, k);
      CountPairs(Shr(n, 2 * w), w, k - 1);
      var x', m' := Counted(Shr(n, 2 * w), w, 2 * k - 2), Repeat(Pow2(w) - 1, 2 * w, k - 1);
      PairAdds(n, w, k, And(x', m'), And(Shr(x', w), m'));
    } else {
      ShrOfZero(w);
    }
  }

  lemma {:induction false} ShrOfZero(k: nat)
    ensures Shr(0, k) == 0
  {
    if k > 0 {
      ShrOfZero(k - 1);
    }
  }

  lemma {:induction false} CountedBits(n: nat, k: nat)
    requires n < Pow2(k)
    ensures Counted(n, 1, k) == n
    decreases k
  {
    if k > 0 {
      CountedStep(n, 1, k);
      assert Shr(n, 1) == n / 2 && Low(n, 1) == n % 2;
      CountedBits(n / 2, k - 1);
    }
  }

  lemma {:induction false} WidthAdds(w: nat, j: nat, k: nat)
    ensures Width(w, j + k) == Width(w, j) + Width(w, k)
  {
    if j > 0 {
      WidthAdds(w, j - 1, k);
    }
  }

  lemma {:induction false} WidthPow2(a: nat, b: nat)
    ensures Width(Pow2(a), Pow2(b)) == Pow2(a + b)
  {
    if b > 0 {
      WidthPow2(a, b - 1);
      WidthAdds(Pow2(a), Pow2(b - 1), Pow2(b - 1));
    } else {
      assert Width(Pow2(a), 1) == Pow2(a);
    }
  }

  lemma SmallMod(x: nat, p: nat)
    requires x < p
    ensures x % p == x
  {}

  /** `TWO(c)` is the field width before count `c`. */
  lemma FieldWidth(c: nat)
    ensures Shl(1, c) == Pow2(c)
  {}

  lemma CountMask(w: nat, c: nat, k: nat)
    requires w == Pow2(c)
    ensures Mask(c, Width(2 * w, k)) == Repeat(Pow2(w) - 1, 2 * w, k)
  {
    FieldWidth(c);
    FieldWidth(w);
    AlternateFields(w, k);
  }

  lemma CountOf(x: nat, w: nat, c: nat, k: nat)
    requires w == Pow2(c)
    ensures
      var m := Repeat(Pow2(w) - 1, 2 * w, k);
      Count(x, c, Width(2 * w, k)) == (And(x, m) + And(Shr(x, w), m)) % Pow2(Width(2 * w, k))
  {
    FieldWidth(c);
    CountMask(w, c, k);
  }

  /** The sum of the two halves does not wrap around. */
  lemma CountedFits(n: nat, w: nat, k: nat)
    ensures
      var (x, m) := (Counted(n, w, 2 * k), Repeat(Pow2(w) - 1, 2 * w, k));
      (And(x, m) + And(Shr(x, w), m)) % Pow2(Width(2 * w, k)) == Counted(n, 2 * w, k)
  {
    CountPairs(n, w, k);
    CountedBound(n, 2 * w, k);
    SmallMod(Counted(n, 2 * w, k), Pow2(Width(2 * w, k)));
  }

  /** One count on words of `k` fields of `2 * w` bits. */
  lemma CountStep(n: nat, w: nat, c: nat, k: nat)
    requires w == Pow2(c)
    ensures Count(Counted(n, w, 2 * k), c, Width(2 * w, k)) == Counted(n, 2 * w, k)
  {
    CountOf(Counted(n, w, 2 * k), w, c, k);
    CountedFits(n, w, k);
  }

  /** After `c` counts every field of 2^c bits holds the number of ones of that field of the original, for words of
      2^levels bits. */
  lemma {:induction false} CountsFields(n: nat, c: nat, levels: nat)
    requires c <= levels && n < Pow2(Pow2(levels))
    ensures Counts(n, c, Pow2(levels)) == Counted(n, Pow2(c), Pow2(levels - c))
    decreases c
  {
    if c == 0 {
      CountedBits(n, Pow2(levels));
    } else {
      CountsFields(n, c - 1, levels);
      WidthPow2(c, levels - c);
      CountStep(n, Pow2(c - 1), c - 1, Pow2(levels - c));
    }
  }

  /** The parallel count is exact on words of any power-of-two width. */
  lemma ParallelAnyWidth(n: nat, levels: nat)
    requires n < Pow2(Pow2(levels))
    ensures Counts(n, levels, Pow2(levels)) == Ones(n)
  {
    CountsFields(n, levels, levels);
    CountedStep(n, Pow2(levels), 1);
    SmallShr(n, Pow2(levels));
    ShlScales(0, Pow2(levels));
  }

  // ----- The 32-bit functions -----

  /** `COUNT(x, c)` */
  function Count32(x: nat, c: nat): nat {
    var mask := (WORD - 1) / (Shl(1, Shl(1, c)) + 1);
    Add(And(x, mask), And(Shr(x, Shl(1, c)), mask))
  }

  function ParallelBitcount(n: nat): nat { Count32(Count32(Count32(Count32(Count32(n, 0), 1), 2), 3), 4) }

  function NiftyBitcount(word: nat): nat {
    var (m01, m0011, m00001111) := ((WORD - 1) / 3, (WORD - 1) / 5, (WORD - 1) / 17);
    var n := Add(And(word, m01), And(Shr(word, 1), m01));
    var n := Add(And(n, m0011), And(Shr(n, 2), m0011));
    var n := Add(And(n, m00001111), And(Shr(n, 4), m00001111));
    n % 255
  }

  lemma CountIsCount32(x: nat, c: nat)
    ensures Count32(x, c) == Count(x, c, 32)
  {
    Pow2Values();
  }

  lemma FiveLevels()
    ensures Pow2(5) == 32 && Pow2(Pow2(5)) == WORD
  {
    Pow2Values();
    assert Pow2(5) == 2 * Pow2(4);
  }

  lemma Counts32(n: nat)
    ensures Counts(n, 3, 32) == Count32(Count32(Count32(n, 0), 1), 2)
    ensures Counts(n, 5, 32) == ParallelBitcount(n)
  {
    var n1 := Count32(n, 0);
    var n2 := Count32(n1, 1);
    var n3 := Count32(n2, 2);
    var n4 := Count32(n3, 3);
    CountIsCount32(n, 0);
    CountIsCount32(n1, 1);
    CountIsCount32(n2, 2);
    CountIsCount32(n3, 3);
    CountIsCount32(n4, 4);
    assert Counts(n, 1, 32) == n1;
    assert Counts(n, 2, 32) == n2;
    assert Counts(n, 3, 32) == n3;
    assert Counts(n, 4, 32) == n4;
  }

  lemma ParallelExact(n: nat)
    requires n < WORD
    ensures ParallelBitcount(n) == Ones(n)
  {
    FiveLevels();
    ParallelAnyWidth(n, 5);
    Counts32(n);
  }

  lemma NiftyIsThreeCounts(n: nat)
    ensures NiftyBitcount(n) == Count32(Count32(Count32(n, 0), 1), 2) % 255
  {}

  /** Each byte counts its own ones; together they are at most 32, fewer than 255. */
  lemma NiftyExact(n: nat)
    requires n < WORD
    ensures NiftyBitcount(n) == Ones(n)
  {
    FiveLevels();
    Pow2Values();
    NiftyIsThreeCounts(n);
    Counts32(n);
    CountsFields(n, 3, 5);
    OnesBound(n, 32);
    assert Pow2(3) == 8 && Pow2(2) == 4;
    assert Width(8, 4) == 8 + (8 + (8 + 8));
    CountedRemainder(n, 8, 4);
  }

  /** The octal constants 033333333333, 011111111111 and 030707070707. */
  const THREES: nat := 0xDB6D_B6DB
  const ONES: nat := 0x4924_9249
  const SEVENS: nat := 0xC71C_71C7

  function MitBitcount(n: nat): nat {
    var tmp := Sub(Sub(n, And(Shr(n, 1), THREES)), And(Shr(n, 2), ONES));
    And(Add(tmp, Shr(tmp, 3)), SEVENS) % 63
  }

  lemma OctalDigit(d: nat)
    requires d < 8
    ensures Ones(d) + Shr(d, 1) + Shr(d, 2) == d
    ensures Ones(d) <= 3
  {
    assert Shr(d, 1) == d / 2;
    assert Shr(d, 2) == Shr(d / 2, 1) == d / 2 / 2;
    assert Ones(d) == d % 2 + Ones(d / 2);
    assert Ones(d / 2) == d / 2 % 2 + Ones(d / 2 / 2);
    assert Ones(d / 2 / 2) == d / 2 / 2;
  }

  /** The lowest digit of `s + t` bits of a word that is shifted by `s` bits and masked, and the rest. */
  lemma ShiftedMask(n: nat, s: nat, t: nat, k: nat)
    requires k > 0 && Pow2(t) <= Pow2(s + t)
    ensures
      var (w, d) := (s + t, Pow2(t) - 1);
      And(Shr(n, s), Repeat(d, w, k)) == Shr(Low(n, w), s) + Shl(And(Shr(Shr(n, w), s), Repeat(d, w, k - 1)), w)
  {
    var w := s + t;
    MaskedField(Shr(n, s), Pow2(t) - 1, w, k);
    AndLowMask(Low(Shr(n, s), w), t);
    LowOfLow(Shr(n, s), t, s);
    LowOfLow(n, s, t);
    ShrAdds(n, s, w);
    ShrAdds(n, w, s);
  }

  lemma OctalMasks(n: nat, k: nat)
    requires k > 0
    ensures And(Shr(n, 1), Repeat(3, 3, k)) ==
            Shr(Low(n, 3), 1) + Shl(And(Shr(Shr(n, 3), 1), Repeat(3, 3, k - 1)), 3)
    ensures And(Shr(n, 2), Repeat(1, 3, k)) ==
            Shr(Low(n, 3), 2) + Shl(And(Shr(Shr(n, 3), 2), Repeat(1, 3, k - 1)), 3)
  {
    Pow2Values();
    assert Pow2(1) == 2;
    ShiftedMask(n, 1, 2, k);
    ShiftedMask(n, 2, 1, k);
  }

  lemma LowestDigitOnes(n: nat)
    ensures Ones(Low(n, 3)) + Shr(Low(n, 3), 1) + Shr(Low(n, 3), 2) == Low(n, 3)
    ensures Ones(Low(n, 3)) <= 3
  {
    Pow2Values();
    LowBound(n, 3);
    OctalDigit(Low(n, 3));
  }

  /** The first line: 4a + 2b + c - (2a + b) - a is a + b + c in each octal digit, without borrows. */
  lemma {:induction false} OctalCounts(n: nat, k: nat)
    requires n < Pow2(Width(3, k))
    ensures Counted(n, 3, k) + And(Shr(n, 1), Repeat(3, 3, k)) + And(Shr(n, 2), Repeat(1, 3, k)) == n
    decreases k
  {
    if k > 0 {
      ShrBound(n, 3, Width(3, k - 1));
      OctalCounts(Shr(n, 3), k - 1);
      OctalStep(n, k);
    }
  }

  lemma ShlSum3(a: nat, b: nat, c: nat, k: nat)
    ensures Shl(a, k) + Shl(b, k) + Shl(c, k) == Shl(a + b + c, k)
  {
    ShlSum(a, b, k);
    ShlSum(a + b, c, k);
  }

  lemma OctalStep(n: nat, k: nat)
    requires k > 0
    requires
      var n' := Shr(n, 3);
      Counted(n', 3, k - 1) + And(Shr(n', 1), Repeat(3, 3, k - 1)) + And(Shr(n', 2), Repeat(1, 3, k - 1)) == n'
    ensures Counted(n, 3, k) + And(Shr(n, 1), Repeat(3, 3, k)) + And(Shr(n, 2), Repeat(1, 3, k)) == n
  {
    var n' := Shr(n, 3);
    OctalMasks(n, k);
    CountedStep(n, 3, k);
    LowestDigitOnes(n);
    Split(n, 3);
    var (c, x, y) := (Counted(n', 3, k - 1), And(Shr(n', 1), Repeat(3, 3, k - 1)),
                      And(Shr(n', 2), Repeat(1, 3, k - 1)));
    ShlSum3(c, x, y, 3);
  }

  /** The sum of the second line, before the mask. */
  function PairSums(n: nat, k: nat): nat { Counted(n, 3, 2 * k) + Shr(Counted(n, 3, 2 * k), 3) }

  lemma MeetingSum(d0: nat, d1: nat, x: nat, w: nat)
    ensures d0 + Shl(d1 + Shl(x, w), w) + (d1 + Shl(x, w)) ==
            d0 + d1 + Shl(d1 + Low(x, w) + Shl(x + Shr(x, w), w), w)
  {
    Split(x, w);
    ShlSum(x, Shr(x, w), w);
    ShlSum(d1 + Shl(x, w), x, w);
  }

  /** The lowest digits that meet when a word is added to itself shifted by one digit. */
  lemma MeetingDigits(d0: nat, d1: nat, x: nat, w: nat)
    requires d0 + d1 < Pow2(w) && d1 + Low(x, w) < Pow2(w)
    ensures
      var y := d0 + Shl(d1 + Shl(x, w), w) + (d1 + Shl(x, w));
      Low(y, w) == d0 + d1 && Shr(y, w + w) == x + Shr(x, w)
  {
    MeetingSum(d0, d1, x, w);
    var rest := x + Shr(x, w);
    var upper := d1 + Low(x, w) + Shl(rest, w);
    Join(d1 + Low(x, w), rest, w);
    Join(d0 + d1, upper, w);
    ShrAdds(d0 + d1 + Shl(upper, w), w, w);
  }

  /** The two lowest fields of the counts, and what is above them. */
  lemma LowestPair(n: nat, w: nat, k: nat)
    requires k > 0
    ensures
      var (d0, d1, x) := (Ones(Low(n, w)), Ones(Low(Shr(n, w), w)), Counted(Shr(n, 2 * w), w, 2 * k - 2));
      && Counted(n, w, 2 * k) == d0 + Shl(d1 + Shl(x, w), w)
      && Shr(Counted(n, w, 2 * k), w) == d1 + Shl(x, w)
      && d0 <= w && d1 <= w
  {
    var rest := Shr(n, w);
    assert Shr(rest, w) == Shr(n, 2 * w) by {
      ShrAdds(n, w, w);
    }
    CountedStep(n, w, 2 * k);
    CountedStep(rest, w, 2 * k - 1);
  }

  lemma LowestField(n: nat, w: nat, k: nat)
    ensures Low(Counted(n, w, k), w) <= w
  {
    if k > 0 {
      CountedStep(n, w, k);
    } else {
      Pow2Exceeds(w);
      SmallShr(0, w);
    }
  }

  lemma RoomForBoth(d0: nat, d1: nat, x: nat, c: nat, c': nat, w: nat)
    requires d0 <= w && d1 <= w && Low(x, w) <= w && 2 * w < Pow2(w)
    requires c == d0 + Shl(c', w) && c' == d1 + Shl(x, w)
    ensures Low(c + c', w) == d0 + d1 && Shr(c + c', w + w) == x + Shr(x, w)
  {
    MeetingDigits(d0, d1, x, w);
  }

  /** Adding the fields two by two carries nothing from one field to the next, if a field has room for both. */
  lemma PairStep(n: nat, w: nat, k: nat)
    requires k > 0 && 2 * w < Pow2(w)
    ensures
      var (x, x') := (Counted(n, w, 2 * k), Counted(Shr(n, 2 * w), w, 2 * k - 2));
      && Low(x + Shr(x, w), w) == Ones(Low(n, 2 * w))
      && Shr(x + Shr(x, w), w + w) == x' + Shr(x', w)
  {
    var d0, d1, x := Ones(Low(n, w)), Ones(Low(Shr(n, w), w)), Counted(Shr(n, 2 * w), w, 2 * k - 2);
    var c := Counted(n, w, 2 * k);
    LowestPair(n, w, k);
    PairOnes(n, w);
    LowestField(Shr(n, 2 * w), w, 2 * k - 2);
    RoomForBoth(d0, d1, x, c, Shr(c, w), w);
  }

  lemma PairSumsStep(n: nat, k: nat)
    requires k > 0
    ensures Low(PairSums(n, k), 3) == Ones(Low(n, 6))
    ensures Shr(PairSums(n, k), 6) == PairSums(Shr(n, 6), k - 1)
  {
    Pow2Values();
    PairStep(n, 3, k);
  }

  /** The second line counts the ones of each field of six bits. */
  lemma {:induction false} SixBitCounts(n: nat, k: nat)
    ensures And(PairSums(n, k), Repeat(7, 6, k)) == Counted(n, 6, k)
    decreases k
  {
    if k > 0 {
      Pow2Values();
      PairSumsStep(n, k);
      MaskedField(PairSums(n, k), 7, 6, k);
      AndLowMask(Low(PairSums(n, k), 6), 3);
      LowOfLow(PairSums(n, k), 3, 3);
      SixBitCounts(Shr(n, 6), k - 1);
      CountedStep(n, 6, k);
    }
  }

  /** A field without ones adds nothing. */
  lemma {:induction false} CountedPad(n: nat, w: nat, k: nat)
    requires n < Pow2(Width(w, k))
    ensures Counted(n, w, k + 1) == Counted(n, w, k)
    decreases k
  {
    CountedStep(n, w, k + 1);
    if k > 0 {
      CountedStep(n, w, k);
      ShrBound(n, w, Width(w, k - 1));
      CountedPad(Shr(n, w), w, k - 1);
    } else {
      Pow2Exceeds(w);
      SmallShr(n, w);
      ShlScales(0, w);
    }
  }

  lemma Scaled(d: nat, w: nat, k: nat)
    requires k > 0
    ensures Repeat(d, w, k) == d + Repeat(d, w, k - 1) * Pow2(w)
  {
    ShlScales(Repeat(d, w, k - 1), w);
  }

  lemma OctalConstants()
    ensures Repeat(3, 3, 11) == THREES && Repeat(1, 3, 11) == ONES
  {
    OctalRepeat(3);
    OctalRepeat(1);
  }

  lemma OctalRepeat(d: nat)
    ensures Repeat(d, 3, 11) == d * 0x4924_9249
  {
    Pow2Values();
    assert Repeat(d, 3, 0) == 0;
    Scaled(d, 3, 1);
    Scaled(d, 3, 2);
    Scaled(d, 3, 3);
    Scaled(d, 3, 4);
    Scaled(d, 3, 5);
    Scaled(d, 3, 6);
    Scaled(d, 3, 7);
    Scaled(d, 3, 8);
    Scaled(d, 3, 9);
    Scaled(d, 3, 10);
    Scaled(d, 3, 11);
  }

  /** `SEVENS` has a 3 where the alternating mask has its topmost 7. */
  lemma SevensConstant()
    ensures SEVENS == Repeat(7, 6, 5) + Shl(3, 30)
    ensures Repeat(7, 6, 6) == Repeat(7, 6, 5) + Shl(7, 30)
    ensures Repeat(7, 6, 5) < Pow2(30)
  {
    Pow2Values();
    assert Repeat(7, 6, 0) == 0;
    Scaled(7, 6, 1);
    Scaled(7, 6, 2);
    Scaled(7, 6, 3);
    Scaled(7, 6, 4);
    Scaled(7, 6, 5);
    Scaled(7, 6, 6);
    ShlScales(3, 30);
    ShlScales(7, 30);
  }

  lemma ThreeOrSeven(v: nat)
    requires v < 4
    ensures And(v, 3) == And(v, 7)
  {
    Pow2Values();
    AndLowMask(v, 2);
    AndLowMask(v, 3);
    SmallShr(v, 2);
    SmallShr(v, 3);
  }

  /** A word with little above bit `k` does not see whether a mask ends in a 3 or in a 7 there. */
  lemma TopMask(y: nat, three: nat, seven: nat, low: nat, k: nat)
    requires low < Pow2(k) && Shr(y, k) < 4 && three == low + Shl(3, k) && seven == low + Shl(7, k)
    ensures And(y, three) == And(y, seven)
  {
    AndJoin(y, low, 3, k);
    AndJoin(y, low, 7, k);
    ThreeOrSeven(Shr(y, k));
  }

  /** The two topmost bits of the word end up alone in the topmost field. */
  lemma TopPair(n: nat)
    requires n < WORD
    ensures Shr(PairSums(n, 6), 30) <= 2 && PairSums(n, 6) < WORD
  {
    Pow2Values();
    PairSumsStep(n, 6);
    PairSumsStep(Shr(n, 6), 5);
    PairSumsStep(Shr(n, 12), 4);
    PairSumsStep(Shr(n, 18), 3);
    PairSumsStep(Shr(n, 24), 2);
    ShrAdds(n, 6, 6);
    ShrAdds(n, 12, 6);
    ShrAdds(n, 18, 6);
    ShrAdds(n, 24, 6);
    var y := PairSums(n, 6);
    ShrAdds(y, 6, 6);
    ShrAdds(y, 12, 6);
    ShrAdds(y, 18, 6);
    ShrAdds(y, 24, 6);
    ShrBound(n, 30, 2);
    TopField(Shr(n, 30));
    Split(y, 30);
    LowBound(y, 30);
    ShlScales(Shr(y, 30), 30);
  }

  lemma TopField(v: nat)
    requires v < 4
    ensures PairSums(v, 1) <= 2
  {
    Pow2Values();
    OnesBound(v, 2);
    SmallShr(v, 3);
    assert Width(3, 1) == 3;
    CountedPad(v, 3, 1);
    CountedStep(v, 3, 1);
    ShlScales(0, 3);
    SmallShr(Ones(v), 3);
  }

  lemma ElevenDigits(n: nat)
    requires n < WORD
    ensures n < Pow2(Width(3, 11))
  {
    Pow2Values();
    assert Width(3, 11) == 33;
  }

  lemma NoBorrow(n: nat, a: nat, b: nat, rest: nat)
    requires rest + a + b == n < WORD
    ensures Sub(Sub(n, a), b) == rest
  {}

  lemma FirstLine(n: nat)
    requires n < WORD
    ensures Sub(Sub(n, And(Shr(n, 1), THREES)), And(Shr(n, 2), ONES)) == Counted(n, 3, 12)
  {
    ElevenDigits(n);
    CountedPad(n, 3, 11);
    OctalConstants();
    OctalCounts(n, 11);
    NoBorrow(n, And(Shr(n, 1), THREES), And(Shr(n, 2), ONES), Counted(n, 3, 11));
  }

  lemma SecondSum(n: nat)
    requires n < WORD
    ensures Add(Counted(n, 3, 12), Shr(Counted(n, 3, 12), 3)) == PairSums(n, 6)
  {
    TopPair(n);
  }

  lemma SecondLine(n: nat)
    requires n < WORD
    ensures And(PairSums(n, 6), SEVENS) == Counted(n, 6, 6)
  {
    TopPair(n);
    SevensConstant();
    TopMask(PairSums(n, 6), SEVENS, Repeat(7, 6, 6), Repeat(7, 6, 5), 30);
    SixBitCounts(n, 6);
  }

  lemma SixBitRemainder(n: nat)
    requires n < WORD
    ensures Counted(n, 6, 6) % 63 == Ones(n)
  {
    Pow2Values();
    OnesBound(n, 32);
    assert Width(6, 6) == 36;
    Pow2Adds(33, 3);
    CountedRemainder(n, 6, 6);
  }

  /** HAKMEM item 169 is exact on every 32-bit word. */
  lemma MitExact(n: nat)
    requires n < WORD
    ensures MitBitcount(n) == Ones(n)
  {
    FirstLine(n);
    SecondSum(n);
    SecondLine(n);
    SixBitRemainder(n);
  }
}
