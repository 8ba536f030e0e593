// Where the constants of SHA-256 come from: sections 4.2.2 and 5.3.3 of FIPS 180-4 define
// them as fractional parts of the cube and square roots of the first primes.
module Sha256Constants {
  import opened Fips180

  // ---------- The first 64 primes ----------

  function Product(d: nat, e: nat): nat { d * e }

  ghost predicate IsPrime(n: nat) { n >= 2 && forall d: nat, e: nat :: Product(d, e) == n ==> d == 1 || e == 1 }

  const PRIMES_A: seq<nat> :=
    [2, 3, 5, 7, 11, 13, 17, 19, 23, 29, 31, 37, 41, 43, 47, 53]

  const PRIMES_B: seq<nat> :=
    [59, 61, 67, 71, 73, 79, 83, 89, 97, 101, 103, 107, 109, 113, 127, 131]

  const PRIMES_C: seq<nat> :=
    [137, 139, 149, 151, 157, 163, 167, 173, 179, 181, 191, 193, 197, 199, 211, 223]

  const PRIMES_D: seq<nat> :=
    [227, 229, 233, 239, 241, 251, 257, 263, 269, 271, 277, 281, 283, 293, 307, 311]

  const PRIMES: seq<nat> := PRIMES_A + PRIMES_B + PRIMES_C + PRIMES_D

  predicate NoSmallDivisor(n: nat)
  {
    && n >= 2
    && (n <= 2 || n % 2 != 0) && (n <= 3 || n % 3 != 0) && (n <= 4 || n % 4 != 0) && (n <= 5 || n % 5 != 0)
    && (n <= 6 || n % 6 != 0) && (n <= 7 || n % 7 != 0) && (n <= 8 || n % 8 != 0) && (n <= 9 || n % 9 != 0)
    && (n <= 10 || n % 10 != 0) && (n <= 11 || n % 11 != 0) && (n <= 12 || n % 12 != 0) && (n <= 13 || n % 13 != 0)
    && (n <= 14 || n % 14 != 0) && (n <= 15 || n % 15 != 0) && (n <= 16 || n % 16 != 0) && (n <= 17 || n % 17 != 0)
  }

  // Below 18 * 18 the divisors up to 17 are enough.
  lemma SmallDivisorsSuffice(n: nat)
    requires n < 324 && NoSmallDivisor(n)
    ensures IsPrime(n)
  {
    forall d: nat, e: nat | Product(d, e) == n ensures d == 1 || e == 1 {
      FactorsOf(n, d, e);
      if 2 <= d < 18 && e >= 2 { SmallFactor(n, d, e); }
      if 2 <= e < 18 && d >= 2 { SmallFactor(n, e, d); }
    }
  }

  lemma FactorsOf(n: nat, d: nat, e: nat)
    requires 2 <= n < 324 && Product(d, e) == n
    ensures d >= 1 && e >= 1 && (d < 18 || e < 18) && Product(e, d) == n
  {
    assert d >= 18 ==> d * e >= 18 * e;
    assert d == 0 || e == 0 ==> d * e == 0;
  }

  lemma SmallFactor(n: nat, d: nat, e: nat)
    requires Product(d, e) == n && 2 <= d < 18 && e >= 2
    ensures !NoSmallDivisor(n)
  {
    assert n > d by { assert d * e >= d * 2; }
    NoRemainder(n, d, e);
    hide Product;
    if d <= 5 {
      assert d == 2 || d == 3 || d == 4 || d == 5;
    } else if d <= 9 {
      assert d == 6 || d == 7 || d == 8 || d == 9;
    } else if d <= 13 {
      assert d == 10 || d == 11 || d == 12 || d == 13;
    } else {
      assert d == 14 || d == 15 || d == 16 || d == 17;
    }
  }

  lemma NoRemainder(n: nat, d: nat, e: nat)
    requires d > 0 && Product(d, e) == n
    ensures n % d == 0
  {
    var k, r := n / d, n % d;
    assert d * e == k * d + r;
    assert e >= k + 1 ==> d * e >= (k + 1) * d;
    assert k >= e + 1 ==> k * d >= (e + 1) * d;
  }

  // A number with a smaller divisor is not prime.
  lemma DivisorOf(n: nat, d: nat)
    requires 2 <= d < n && n % d == 0
    ensures !IsPrime(n)
  {
    var e := n / d;
    assert Product(d, e) == n;
    assert e == 0 || e == 1 ==> d * e < n;
  }

  predicate HasSmallDivisor(n: nat)
  {
    || (n > 2 && n % 2 == 0) || (n > 3 && n % 3 == 0) || (n > 5 && n % 5 == 0) || (n > 7 && n % 7 == 0)
    || (n > 11 && n % 11 == 0) || (n > 13 && n % 13 == 0) || (n > 17 && n % 17 == 0)
  }

  lemma SmallDivisorIsDivisor(n: nat)
    requires HasSmallDivisor(n)
    ensures !IsPrime(n)
  {
    if n > 2 && n % 2 == 0 { DivisorOf(n, 2); }
    else if n > 3 && n % 3 == 0 { DivisorOf(n, 3); }
    else if n > 5 && n % 5 == 0 { DivisorOf(n, 5); }
    else if n > 7 && n % 7 == 0 { DivisorOf(n, 7); }
    else if n > 11 && n % 11 == 0 { DivisorOf(n, 11); }
    else if n > 13 && n % 13 == 0 { DivisorOf(n, 13); }
    else { DivisorOf(n, 17); }
  }

  // The next prime: a prime, and none between.
  ghost predicate NextPrime(p: nat, q: nat)
  {
    p < q && IsPrime(q) && forall n: nat | p < n < q :: !IsPrime(n)
  }

  predicate Adjacent(p: nat, q: nat)
  {
    p < q < 324 && NoSmallDivisor(q) && AllComposite(p, q - 1)
  }

  // From above p to n.
  predicate AllComposite(p: nat, n: nat) { n <= p || n == 0 || (HasSmallDivisor(n) && AllComposite(p, n - 1)) }

  lemma {:induction false} NoneIsPrime(p: nat, n: nat)
    requires AllComposite(p, n)
    ensures forall k: nat | p < k <= n :: !IsPrime(k)
  {
    hide IsPrime, HasSmallDivisor;
    if n > p {
      SmallDivisorIsDivisor(n);
      NoneIsPrime(p, n - 1);
    }
  }

  lemma AdjacentIsNext(p: nat, q: nat)
    requires Adjacent(p, q)
    ensures NextPrime(p, q)
  {
    SmallDivisorsSuffice(q);
    hide NoSmallDivisor, IsPrime;
    NoneIsPrime(p, q - 1);
  }

  lemma TrialA1()
    ensures Adjacent(2, 3) && Adjacent(3, 5) && Adjacent(5, 7) && Adjacent(7, 11)
    ensures Adjacent(11, 13) && Adjacent(13, 17) && Adjacent(17, 19) && Adjacent(19, 23)
  {
    hide IsPrime, NextPrime;
  }

  lemma TrialA2()
    ensures Adjacent(23, 29) && Adjacent(29, 31) && Adjacent(31, 37) && Adjacent(37, 41)
    ensures Adjacent(41, 43) && Adjacent(43, 47) && Adjacent(47, 53)
  {
    hide IsPrime, NextPrime;
  }

  lemma PrimesA(i: nat)
    requires i < 15
    ensures NextPrime(PRIMES_A[i], PRIMES_A[i + 1])
  {
    TrialA1();
    TrialA2();
    hide Adjacent, NextPrime;
    assert i == 0 || i == 1 || i == 2 || i == 3 || i == 4 || i == 5 || i == 6 || i == 7
      || i == 8 || i == 9 || i == 10 || i == 11 || i == 12 || i == 13 || i == 14;
    AdjacentIsNext(PRIMES_A[i], PRIMES_A[i + 1]);
  }

  lemma TrialB1()
    ensures Adjacent(59, 61) && Adjacent(61, 67) && Adjacent(67, 71) && Adjacent(71, 73)
    ensures Adjacent(73, 79) && Adjacent(79, 83) && Adjacent(83, 89) && Adjacent(89, 97)
  {
    hide IsPrime, NextPrime;
  }

  lemma TrialB2()
    ensures Adjacent(97, 101) && Adjacent(101, 103) && Adjacent(103, 107) && Adjacent(107, 109)
    ensures Adjacent(109, 113) && Adjacent(113, 127) && Adjacent(127, 131)
  {
    hide IsPrime, NextPrime;
  }

  lemma PrimesB(i: nat)
    requires i < 15
    ensures NextPrime(PRIMES_B[i], PRIMES_B[i + 1])
  {
    TrialB1();
    TrialB2();
    hide Adjacent, NextPrime;
    assert i == 0 || i == 1 || i == 2 || i == 3 || i == 4 || i == 5 || i == 6 || i == 7
      || i == 8 || i == 9 || i == 10 || i == 11 || i == 12 || i == 13 || i == 14;
    AdjacentIsNext(PRIMES_B[i], PRIMES_B[i + 1]);
  }

  lemma TrialC1()
    ensures Adjacent(137, 139) && Adjacent(139, 149) && Adjacent(149, 151) && Adjacent(151, 157)
    ensures Adjacent(157, 163) && Adjacent(163, 167) && Adjacent(167, 173) && Adjacent(173, 179)
  {
    hide IsPrime, NextPrime;
  }

  lemma TrialC2()
    ensures Adjacent(179, 181) && Adjacent(181, 191) && Adjacent(191, 193) && Adjacent(193, 197)
    ensures Adjacent(197, 199) && Adjacent(199, 211) && Adjacent(211, 223)
  {
    hide IsPrime, NextPrime;
  }

  lemma PrimesC(i: nat)
    requires i < 15
    ensures NextPrime(PRIMES_C[i], PRIMES_C[i + 1])
  {
    TrialC1();
    TrialC2();
    hide Adjacent, NextPrime;
    assert i == 0 || i == 1 || i == 2 || i == 3 || i == 4 || i == 5 || i == 6 || i == 7
      || i == 8 || i == 9 || i == 10 || i == 11 || i == 12 || i == 13 || i == 14;
    AdjacentIsNext(PRIMES_C[i], PRIMES_C[i + 1]);
  }

  lemma TrialD1()
    ensures Adjacent(227, 229) && Adjacent(229, 233) && Adjacent(233, 239) && Adjacent(239, 241)
    ensures Adjacent(241, 251) && Adjacent(251, 257) && Adjacent(257, 263) && Adjacent(263, 269)
  {
    hide IsPrime, NextPrime;
  }

  lemma TrialD2()
    ensures Adjacent(269, 271) && Adjacent(271, 277) && Adjacent(277, 281) && Adjacent(281, 283)
    ensures Adjacent(283, 293) && Adjacent(293, 307) && Adjacent(307, 311)
  {
    hide IsPrime, NextPrime;
  }

  lemma PrimesD(i: nat)
    requires i < 15
    ensures NextPrime(PRIMES_D[i], PRIMES_D[i + 1])
  {
    TrialD1();
    TrialD2();
    hide Adjacent, NextPrime;
    assert i == 0 || i == 1 || i == 2 || i == 3 || i == 4 || i == 5 || i == 6 || i == 7
      || i == 8 || i == 9 || i == 10 || i == 11 || i == 12 || i == 13 || i == 14;
    AdjacentIsNext(PRIMES_D[i], PRIMES_D[i + 1]);
  }

  // The list starts at 2 and leaves none out.
  lemma PrimesInOrder()
    ensures |PRIMES| == 64 && PRIMES[0] == 2 && IsPrime(2)
    ensures forall i :: 0 <= i < 63 ==> NextPrime(PRIMES[i], PRIMES[i + 1])
  {
    SmallDivisorsSuffice(2);
    assert Adjacent(53, 59) && Adjacent(131, 137) && Adjacent(223, 227);
    hide IsPrime, NextPrime, NoSmallDivisor, Adjacent;
    AdjacentIsNext(53, 59);
    AdjacentIsNext(131, 137);
    AdjacentIsNext(223, 227);
    forall i | 0 <= i < 63 ensures NextPrime(PRIMES[i], PRIMES[i + 1]) {
      if i < 15 { PrimesA(i); }
      else if 16 <= i < 31 { PrimesB(i - 16); }
      else if 32 <= i < 47 { PrimesC(i - 32); }
      else if 48 <= i { PrimesD(i - 48); }
    }
  }

  // ---------- Section 4.2.2 ----------

  function Cube(x: nat): nat { x * x * x }

  const TWO_32: nat := 0x1_0000_0000
  const TWO_96: nat := 0x1_0000_0000_0000_0000_0000_0000

  // The word is the first 32 bits of the fraction of the cube root of p, whose whole part is n.
  predicate CubeRootOf(n: nat, word: Word, p: nat)
  {
    Cube(n * TWO_32 + word) <= p * TWO_96 < Cube(n * TWO_32 + word + 1)
  }

  lemma CubeTrialA1()
    ensures CubeRootOf(1, 0x428a2f98, 2) && CubeRootOf(1, 0x71374491, 3)
    ensures CubeRootOf(1, 0xb5c0fbcf, 5) && CubeRootOf(1, 0xe9b5dba5, 7)
    ensures CubeRootOf(2, 0x3956c25b, 11) && CubeRootOf(2, 0x59f111f1, 13)
    ensures CubeRootOf(2, 0x923f82a4, 17) && CubeRootOf(2, 0xab1c5ed5, 19)
  {
  }

  lemma CubeTrialA2()
    ensures CubeRootOf(2, 0xd807aa98, 23) && CubeRootOf(3, 0x12835b01, 29)
    ensures CubeRootOf(3, 0x243185be, 31) && CubeRootOf(3, 0x550c7dc3, 37)
    ensures CubeRootOf(3, 0x72be5d74, 41) && CubeRootOf(3, 0x80deb1fe, 43)
    ensures CubeRootOf(3, 0x9bdc06a7, 47) && CubeRootOf(3, 0xc19bf174, 53)
  {
  }

  lemma CubeRootsA(i: nat) returns (n: nat)
    requires i < 16
    ensures CubeRootOf(n, RoundConstantsA()[i], PRIMES_A[i])
  {
    CubeTrialA1();
    CubeTrialA2();
    hide CubeRootOf;
    assert i == 0 || i == 1 || i == 2 || i == 3 || i == 4 || i == 5 || i == 6 || i == 7
      || i == 8 || i == 9 || i == 10 || i == 11 || i == 12 || i == 13 || i == 14 || i == 15;
    n := if i < 4 then 1 else if i < 9 then 2 else 3;
  }

  lemma CubeTrialB1()
    ensures CubeRootOf(3, 0xe49b69c1, 59) && CubeRootOf(3, 0xefbe4786, 61)
    ensures CubeRootOf(4, 0x0fc19dc6, 67) && CubeRootOf(4, 0x240ca1cc, 71)
    ensures CubeRootOf(4, 0x2de92c6f, 73) && CubeRootOf(4, 0x4a7484aa, 79)
    ensures CubeRootOf(4, 0x5cb0a9dc, 83) && CubeRootOf(4, 0x76f988da, 89)
  {
  }

  lemma CubeTrialB2()
    ensures CubeRootOf(4, 0x983e5152, 97) && CubeRootOf(4, 0xa831c66d, 101)
    ensures CubeRootOf(4, 0xb00327c8, 103) && CubeRootOf(4, 0xbf597fc7, 107)
    ensures CubeRootOf(4, 0xc6e00bf3, 109) && CubeRootOf(4, 0xd5a79147, 113)
    ensures CubeRootOf(5, 0x06ca6351, 127) && CubeRootOf(5, 0x14292967, 131)
  {
  }

  lemma CubeRootsB(i: nat) returns (n: nat)
    requires i < 16
    ensures CubeRootOf(n, RoundConstantsB()[i], PRIMES_B[i])
  {
    CubeTrialB1();
    CubeTrialB2();
    hide CubeRootOf;
    assert i == 0 || i == 1 || i == 2 || i == 3 || i == 4 || i == 5 || i == 6 || i == 7
      || i == 8 || i == 9 || i == 10 || i == 11 || i == 12 || i == 13 || i == 14 || i == 15;
    n := if i < 2 then 3 else if i < 14 then 4 else 5;
  }

  lemma CubeTrialC1()
    ensures CubeRootOf(5, 0x27b70a85, 137) && CubeRootOf(5, 0x2e1b2138, 139)
    ensures CubeRootOf(5, 0x4d2c6dfc, 149) && CubeRootOf(5, 0x53380d13, 151)
    ensures CubeRootOf(5, 0x650a7354, 157) && CubeRootOf(5, 0x766a0abb, 163)
    ensures CubeRootOf(5, 0x81c2c92e, 167) && CubeRootOf(5, 0x92722c85, 173)
  {
  }

  lemma CubeTrialC2()
    ensures CubeRootOf(5, 0xa2bfe8a1, 179) && CubeRootOf(5, 0xa81a664b, 181)
    ensures CubeRootOf(5, 0xc24b8b70, 191) && CubeRootOf(5, 0xc76c51a3, 193)
    ensures CubeRootOf(5, 0xd192e819, 197) && CubeRootOf(5, 0xd6990624, 199)
    ensures CubeRootOf(5, 0xf40e3585, 211) && CubeRootOf(6, 0x106aa070, 223)
  {
  }

  lemma CubeRootsC(i: nat) returns (n: nat)
    requires i < 16
    ensures CubeRootOf(n, RoundConstantsC()[i], PRIMES_C[i])
  {
    CubeTrialC1();
    CubeTrialC2();
    hide CubeRootOf;
    assert i == 0 || i == 1 || i == 2 || i == 3 || i == 4 || i == 5 || i == 6 || i == 7
      || i == 8 || i == 9 || i == 10 || i == 11 || i == 12 || i == 13 || i == 14 || i == 15;
    n := if i < 15 then 5 else 6;
  }

  lemma CubeTrialD1()
    ensures CubeRootOf(6, 0x19a4c116, 227) && CubeRootOf(6, 0x1e376c08, 229)
    ensures CubeRootOf(6, 0x2748774c, 233) && CubeRootOf(6, 0x34b0bcb5, 239)
    ensures CubeRootOf(6, 0x391c0cb3, 241) && CubeRootOf(6, 0x4ed8aa4a, 251)
    ensures CubeRootOf(6, 0x5b9cca4f, 257) && CubeRootOf(6, 0x682e6ff3, 263)
  {
  }

  lemma CubeTrialD2()
    ensures CubeRootOf(6, 0x748f82ee, 269) && CubeRootOf(6, 0x78a5636f, 271)
    ensures CubeRootOf(6, 0x84c87814, 277) && CubeRootOf(6, 0x8cc70208, 281)
    ensures CubeRootOf(6, 0x90befffa, 283) && CubeRootOf(6, 0xa4506ceb, 293)
    ensures CubeRootOf(6, 0xbef9a3f7, 307) && CubeRootOf(6, 0xc67178f2, 311)
  {
  }

  lemma CubeRootsD(i: nat) returns (n: nat)
    requires i < 16
    ensures CubeRootOf(n, RoundConstantsD()[i], PRIMES_D[i])
  {
    CubeTrialD1();
    CubeTrialD2();
    hide CubeRootOf;
    assert i == 0 || i == 1 || i == 2 || i == 3 || i == 4 || i == 5 || i == 6 || i == 7
      || i == 8 || i == 9 || i == 10 || i == 11 || i == 12 || i == 13 || i == 14 || i == 15;
    n := 6;
  }

  lemma RoundConstantsAreCubeRoots(i: nat) returns (n: nat)
    requires i < 64
    ensures CubeRootOf(n, RoundConstants()[i], PRIMES[i])
  {
    hide CubeRootOf;
    if i < 16 { n := CubeRootsA(i); } else if i < 32 { n := CubeRootsB(i - 16); }
    else if i < 48 { n := CubeRootsC(i - 32); } else { n := CubeRootsD(i - 48); }
  }

  // ---------- Section 5.3.3 ----------

  function Square(x: nat): nat { x * x }

  const TWO_64: nat := 0x1_0000_0000_0000_0000

  predicate SquareRootOf(n: nat, word: Word, p: nat)
  {
    Square(n * TWO_32 + word) <= p * TWO_64 < Square(n * TWO_32 + word + 1)
  }

  lemma InitialHashIsSquareRoots(i: nat) returns (n: nat)
    requires i < 8
    ensures SquareRootOf(n, InitialHash()[i], PRIMES[i])
  {
    n := if i < 2 then 1 else if i < 4 then 2 else if i < 6 then 3 else 4;
    var h := InitialHash();
    assert PRIMES[..8] == [2, 3, 5, 7, 11, 13, 17, 19];
    assert SquareRootOf(1, h[0], 2) && SquareRootOf(1, h[1], 3) && SquareRootOf(2, h[2], 5) && SquareRootOf(2, h[3], 7);
    assert SquareRootOf(3, h[4], 11) && SquareRootOf(3, h[5], 13) && SquareRootOf(4, h[6], 17)
      && SquareRootOf(4, h[7], 19);
    hide SquareRootOf;
    assert PRIMES[i] == PRIMES[..8][i];
    assert i == 0 || i == 1 || i == 2 || i == 3 || i == 4 || i == 5 || i == 6 || i == 7;
  }
}
