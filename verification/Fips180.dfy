// SHA-256 as FIPS 180-4 defines it: the functions of section 4.1.2, the padding of
// section 5.1.1, the initial value of section 5.3.3 and the computation of
// section 6.2.2, over bytes.
module Fips180 {
  import opened Bytes

  // A 32-bit word, as an integer; the bitwise operations go through bv32.
  type Word = w: int | 0 <= w < 0x1_0000_0000

  // ---------- Section 3.2: operations on words ----------

  function And(x: Word, y: Word): Word { AndBits(x as bv32, y as bv32) as int }
  function Xor(x: Word, y: Word): Word { XorBits(x as bv32, y as bv32) as int }
  function Not(x: Word): Word { NotBits(x as bv32) as int }

  function AndBits(a: bv32, b: bv32): bv32 { a & b }
  function XorBits(a: bv32, b: bv32): bv32 { a ^ b }
  function NotBits(a: bv32): bv32 { !a }

  // Each by the others.
  lemma AndByOr(a: bv32, b: bv32)
    ensures AndBits(a, b) == !(!a | !b)
  {
  }

  lemma XorByAnd(a: bv32, b: bv32)
    ensures XorBits(a, b) == (a | b) & !(a & b)
  {
  }

  lemma NotByXor(a: bv32)
    ensures NotBits(a) == a ^ 0xFFFF_FFFF
  {
  }

  function Shr(n: nat, x: Word): Word
    requires n < 32
  {
    ((x as bv32) >> n) as int
  }

  function Rotr(n: nat, x: Word): Word
    requires 0 < n < 32
  {
    RotateBits(n, x as bv32) as int
  }

  function RotateBits(n: nat, b: bv32): bv32
    requires 0 < n < 32
  {
    (b >> n) | (b << (32 - n))
  }

  // The rotations and shifts that are used, as rotations and as divisions.
  lemma Rotations(b: bv32)
    ensures RotateBits(2, b) == b.RotateRight(2) && RotateBits(6, b) == b.RotateRight(6)
    ensures RotateBits(7, b) == b.RotateRight(7) && RotateBits(11, b) == b.RotateRight(11)
    ensures RotateBits(13, b) == b.RotateRight(13) && RotateBits(17, b) == b.RotateRight(17)
    ensures RotateBits(18, b) == b.RotateRight(18) && RotateBits(19, b) == b.RotateRight(19)
    ensures RotateBits(22, b) == b.RotateRight(22) && RotateBits(25, b) == b.RotateRight(25)
    ensures b >> 3 == b / 8 && b >> 10 == b / 1024
  {
  }

  // Addition modulo 2^32.
  function Add(x: Word, y: Word): Word { Wrap(x + y) }

  function Wrap(n: nat): Word { n % 0x1_0000_0000 }

  // ---------- Section 4.1.2 ----------

  function Ch(x: Word, y: Word, z: Word): Word { Xor(And(x, y), And(Not(x), z)) }
  function Maj(x: Word, y: Word, z: Word): Word { Xor(Xor(And(x, y), And(x, z)), And(y, z)) }
  function BigSigma0(x: Word): Word { Xor(Xor(Rotr(2, x), Rotr(13, x)), Rotr(22, x)) }
  function BigSigma1(x: Word): Word { Xor(Xor(Rotr(6, x), Rotr(11, x)), Rotr(25, x)) }
  function SmallSigma0(x: Word): Word { Xor(Xor(Rotr(7, x), Rotr(18, x)), Shr(3, x)) }
  function SmallSigma1(x: Word): Word { Xor(Xor(Rotr(17, x), Rotr(19, x)), Shr(10, x)) }

  function RoundConstantsA(): (r: seq<Word>)
    ensures |r| == 16
  {
    [
      0x428a2f98, 0x71374491, 0xb5c0fbcf, 0xe9b5dba5, 0x3956c25b, 0x59f111f1, 0x923f82a4, 0xab1c5ed5,
      0xd807aa98, 0x12835b01, 0x243185be, 0x550c7dc3, 0x72be5d74, 0x80deb1fe, 0x9bdc06a7, 0xc19bf174
    ]
  }

  function RoundConstantsB(): (r: seq<Word>)
    ensures |r| == 16
  {
    [
      0xe49b69c1, 0xefbe4786, 0x0fc19dc6, 0x240ca1cc, 0x2de92c6f, 0x4a7484aa, 0x5cb0a9dc, 0x76f988da,
      0x983e5152, 0xa831c66d, 0xb00327c8, 0xbf597fc7, 0xc6e00bf3, 0xd5a79147, 0x06ca6351, 0x14292967
    ]
  }

  function RoundConstantsC(): (r: seq<Word>)
    ensures |r| == 16
  {
    [
      0x27b70a85, 0x2e1b2138, 0x4d2c6dfc, 0x53380d13, 0x650a7354, 0x766a0abb, 0x81c2c92e, 0x92722c85,
      0xa2bfe8a1, 0xa81a664b, 0xc24b8b70, 0xc76c51a3, 0xd192e819, 0xd6990624, 0xf40e3585, 0x106aa070
    ]
  }

  function RoundConstantsD(): (r: seq<Word>)
    ensures |r| == 16
  {
    [
      0x19a4c116, 0x1e376c08, 0x2748774c, 0x34b0bcb5, 0x391c0cb3, 0x4ed8aa4a, 0x5b9cca4f, 0x682e6ff3,
      0x748f82ee, 0x78a5636f, 0x84c87814, 0x8cc70208, 0x90befffa, 0xa4506ceb, 0xbef9a3f7, 0xc67178f2
    ]
  }

  function RoundConstants(): (r: seq<Word>)
    ensures |r| == 64
  {
    RoundConstantsA() + RoundConstantsB() + RoundConstantsC() + RoundConstantsD()
  }

  // ---------- Section 6.2.2 ----------

  function WordAt(block: seq<Byte>, t: nat): Word
    requires |block| == 64 && t < 16
  {
    Widths();
    FromBe(block[4 * t..4 * t + 4])
  }

  // Step 1: the message schedule.
  function Schedule(block: seq<Byte>, t: nat): Word
    requires |block| == 64 && t < 64
  {
    if t < 16 then WordAt(block, t)
    else ScheduleWord(Schedule(block, t - 2), Schedule(block, t - 7), Schedule(block, t - 15), Schedule(block, t - 16))
  }

  function ScheduleWord(w2: Word, w7: Word, w15: Word, w16: Word): Word
  {
    Add(Add(Add(SmallSigma1(w2), w7), SmallSigma0(w15)), w16)
  }

  datatype Working = Working(a: Word, b: Word, c: Word, d: Word, e: Word, f: Word, g: Word, h: Word)

  // Step 3: one round.
  function Round(v: Working, k: Word, w: Word): Working
  {
    var t1 := Add(Add(Add(Add(v.h, BigSigma1(v.e)), Ch(v.e, v.f, v.g)), k), w);
    var t2 := Add(BigSigma0(v.a), Maj(v.a, v.b, v.c));
    Working(Add(t1, t2), v.a, v.b, v.c, Add(v.d, t1), v.e, v.f, v.g)
  }

  function Rounds(block: seq<Byte>, t: nat, start: Working): Working
    requires |block| == 64 && t <= 64
  {
    if t == 0 then start else Round(Rounds(block, t - 1, start), RoundConstants()[t - 1], Schedule(block, t - 1))
  }

  function Load(h: seq<Word>): Working
    requires |h| == 8
  {
    Working(h[0], h[1], h[2], h[3], h[4], h[5], h[6], h[7])
  }

  // Steps 2 to 4: the next intermediate hash value.
  function Compress(h: seq<Word>, block: seq<Byte>): (r: seq<Word>)
    requires |h| == 8 && |block| == 64
    ensures |r| == 8
  {
    var v := Rounds(block, 64, Load(h));
    [Add(h[0], v.a), Add(h[1], v.b), Add(h[2], v.c), Add(h[3], v.d),
     Add(h[4], v.e), Add(h[5], v.f), Add(h[6], v.g), Add(h[7], v.h)]
  }

  // The intermediate hash value after whole blocks.
  function Absorb(h: seq<Word>, data: seq<Byte>): (r: seq<Word>)
    requires |h| == 8 && |data| % 64 == 0
    ensures |r| == 8
  {
    if data == [] then h else Compress(Absorb(h, data[..|data| - 64]), data[|data| - 64..])
  }

  function InitialHash(): (r: seq<Word>)
    ensures |r| == 8
  {
    [0x6a09e667, 0xbb67ae85, 0x3c6ef372, 0xa54ff53a, 0x510e527f, 0x9b05688c, 0x1f83d9ab, 0x5be0cd19]
  }

  function WordBytes(w: Word): (r: seq<Byte>)
    ensures |r| == 4
  {
    Be(w, 4)
  }

  function Concatenate(h: seq<Word>): (r: seq<Byte>)
    ensures |r| == 4 * |h|
  {
    if h == [] then [] else Concatenate(h[..|h| - 1]) + WordBytes(h[|h| - 1])
  }

  // ---------- Section 5.1.1 ----------

  function Zeros(n: nat): (r: seq<Byte>)
    ensures |r| == n && forall k :: 0 <= k < n ==> r[k] == 0
  {
    seq(n, i => 0)
  }

  // Zero bytes after the byte 0x80 for a message of `n` bytes.
  function ZeroBytes(n: nat): (r: nat)
    ensures (n + 1 + r + 8) % 64 == 0
  {
    (119 - n % 64) % 64
  }

  // The zero bits of section 5.1.1, seven of which are in the byte 0x80: the
  // least number that leaves 64 bits free in the last block.
  lemma ZeroBytesAreLeast(n: nat, zeros: nat)
    ensures (8 * n + 1 + (7 + 8 * ZeroBytes(n))) % 512 == 448
    ensures (8 * n + 1 + zeros) % 512 == 448 ==> zeros >= 7 + 8 * ZeroBytes(n)
  {
    var a, m := n / 64, n % 64;
    var k := if m <= 55 then 55 - m else 119 - m;
    assert ZeroBytes(n) == k;
    assert 8 * n + 1 + (7 + 8 * k) == 512 * (if m <= 55 then a else a + 1) + 448;
  }

  function Pad(message: seq<Byte>, bitLength: nat): (r: seq<Byte>)
    ensures |r| % 64 == 0
  {
    message + [0x80] + Zeros(ZeroBytes(|message|)) + Be(bitLength, 8)
  }

  function HashWithLength(message: seq<Byte>, bitLength: nat): (r: seq<Byte>)
    ensures |r| == 32
  {
    Concatenate(Absorb(InitialHash(), Pad(message, bitLength)))
  }

  // SHA-256, for the messages the standard covers.
  function Sha256(message: seq<Byte>): (r: seq<Byte>)
    requires 8 * |message| < 0x1_0000_0000_0000_0000
    ensures |r| == 32
  {
    HashWithLength(message, 8 * |message|)
  }

  lemma AbsorbBlock(h: seq<Word>, data: seq<Byte>, block: seq<Byte>)
    requires |h| == 8 && |data| % 64 == 0 && |block| == 64
    ensures |data + block| % 64 == 0 && Absorb(h, data + block) == Compress(Absorb(h, data), block)
  {
    hide Compress;
    var all := data + block;
    assert all[..|all| - 64] == data && all[|all| - 64..] == block;
  }
}
