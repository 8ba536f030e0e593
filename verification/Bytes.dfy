// Bytes, big-endian integers, length-prefixed texts and the "this text occurs here"
// relation that the byte-level codecs share.
module Bytes {
  type Byte = b: int | 0 <= b < 256

  function Octet(x: int): Byte
    requires 0 <= x < 256
  {
    x
  }

  // ---------- Occurrence of a piece of text at a position ----------

  ghost predicate At(input: seq<Byte>, pos: nat, part: seq<Byte>)
  {
    pos + |part| <= |input| && input[pos..pos + |part|] == part
  }

  lemma AtConcat(input: seq<Byte>, pos: nat, a: seq<Byte>, b: seq<Byte>)
    ensures At(input, pos, a + b) <==> At(input, pos, a) && At(input, pos + |a|, b)
  {
    if pos + |a + b| <= |input| {
      var whole := input[pos..pos + |a + b|];
      assert whole == a + b ==> whole[..|a|] == a && whole[|a|..] == b;
      assert input[pos..pos + |a|] == whole[..|a|];
      assert input[pos + |a|..pos + |a| + |b|] == whole[|a|..];
      assert input[pos..pos + |a + b|] == input[pos..pos + |a|] + input[pos + |a|..pos + |a| + |b|];
    }
  }

  lemma AtConcat3(input: seq<Byte>, pos: nat, a: seq<Byte>, b: seq<Byte>, c: seq<Byte>)
    ensures At(input, pos, a + (b + c)) <==>
      At(input, pos, a) && At(input, pos + |a|, b) && At(input, pos + |a| + |b|, c)
  {
    hide At;
    AtConcat(input, pos, a, b + c);
    AtConcat(input, pos + |a|, b, c);
  }

  lemma AtConcat4(input: seq<Byte>, pos: nat, a: seq<Byte>, b: seq<Byte>, c: seq<Byte>, d: seq<Byte>)
    ensures At(input, pos, a + (b + (c + d))) <==>
      && At(input, pos, a) && At(input, pos + |a|, b) && At(input, pos + |a| + |b|, c)
      && At(input, pos + |a| + |b| + |c|, d)
  {
    hide At;
    AtConcat(input, pos, a, b + (c + d));
    AtConcat3(input, pos + |a|, b, c, d);
  }

  lemma AtConcat6(input: seq<Byte>, pos: nat, a: seq<Byte>, b: seq<Byte>, c: seq<Byte>, d: seq<Byte>, e: seq<Byte>,
    f: seq<Byte>)
    ensures At(input, pos, a + (b + (c + (d + (e + f))))) <==>
      && At(input, pos, a) && At(input, pos + |a|, b) && At(input, pos + |a| + |b|, c)
      && At(input, pos + |a| + |b| + |c|, d) && At(input, pos + |a| + |b| + |c| + |d|, e)
      && At(input, pos + |a| + |b| + |c| + |d| + |e|, f)
  {
    hide At;
    AtConcat3(input, pos, a, b, c + (d + (e + f)));
    AtConcat4(input, pos + |a| + |b|, c, d, e, f);
  }

  lemma AtIndex(input: seq<Byte>, pos: nat, part: seq<Byte>, k: nat)
    requires At(input, pos, part) && k < |part|
    ensures pos + |part| <= |input| && input[pos + k] == part[k]
  {
    assert input[pos..pos + |part|][k] == part[k];
  }

  lemma AtBound(input: seq<Byte>, pos: nat, part: seq<Byte>)
    requires At(input, pos, part)
    ensures pos + |part| <= |input|
  {}

  lemma AtText(input: seq<Byte>, pos: nat, part: seq<Byte>)
    requires At(input, pos, part)
    ensures pos + |part| <= |input| && input[pos..pos + |part|] == part
  {}

  lemma AtSlice(input: seq<Byte>, from: nat, to: nat)
    requires from <= to <= |input|
    ensures At(input, from, input[from..to])
  {}

  lemma AtOne(input: seq<Byte>, pos: nat)
    requires pos < |input|
    ensures At(input, pos, [input[pos]])
  {}

  lemma AtTwo(input: seq<Byte>, pos: nat)
    requires pos + 1 < |input|
    ensures At(input, pos, [input[pos], input[pos + 1]])
  {}

  // ---------- Big-endian integers ----------

  function Pow256(width: nat): (r: nat)
    ensures r >= 1
  {
    if width == 0 then 1 else 256 * Pow256(width - 1)
  }

  function Be(n: nat, width: nat): (r: seq<Byte>)
    ensures |r| == width
  {
    if width == 0 then [] else Be(n / 256, width - 1) + [n % 256]
  }

  function FromBe(s: seq<Byte>): (r: nat)
    ensures r < Pow256(|s|)
  {
    if s == [] then 0 else FromBe(s[..|s| - 1]) * 256 + s[|s| - 1]
  }

  lemma {:induction false} BeRoundTrip(n: nat, width: nat)
    requires n < Pow256(width)
    ensures FromBe(Be(n, width)) == n
  {
    if width > 0 {
      BeRoundTrip(n / 256, width - 1);
      assert Be(n, width)[..width - 1] == Be(n / 256, width - 1);
    }
  }

  lemma {:induction false} FromBeRoundTrip(s: seq<Byte>)
    ensures Be(FromBe(s), |s|) == s
  {
    if s != [] {
      FromBeRoundTrip(s[..|s| - 1]);
      assert FromBe(s) / 256 == FromBe(s[..|s| - 1]);
    }
  }

  lemma Widths()
    ensures Pow256(2) == 0x1_0000
    ensures Pow256(4) == 0x1_0000_0000
    ensures Pow256(8) == 0x1_0000_0000_0000_0000
  {
    assert Pow256(1) == 256 * Pow256(0);
    assert Pow256(2) == 256 * Pow256(1);
    assert Pow256(3) == 256 * Pow256(2);
    assert Pow256(4) == 256 * Pow256(3);
    assert Pow256(5) == 256 * Pow256(4);
    assert Pow256(6) == 256 * Pow256(5);
    assert Pow256(7) == 256 * Pow256(6);
    assert Pow256(8) == 256 * Pow256(7);
  }

  // ---------- Lexicographic order, and hexadecimal ----------

  predicate TextLess(a: seq<int>, b: seq<int>)
  {
    if b == [] then false
    else if a == [] then true
    else a[0] < b[0] || (a[0] == b[0] && TextLess(a[1..], b[1..]))
  }

  lemma {:induction false} TextOrder(a: seq<int>, b: seq<int>)
    ensures a == b || TextLess(a, b) || TextLess(b, a)
    ensures TextLess(a, b) ==> a != b && !TextLess(b, a)
  {
    if a != [] && b != [] {
      TextOrder(a[1..], b[1..]);
      assert a == [a[0]] + a[1..] && b == [b[0]] + b[1..];
    }
  }

  lemma {:induction false} TextLessIsTransitive(a: seq<int>, b: seq<int>, c: seq<int>)
    requires TextLess(a, b) && TextLess(b, c)
    ensures TextLess(a, c)
  {
    if a != [] && a[0] == b[0] && b[0] == c[0] { TextLessIsTransitive(a[1..], b[1..], c[1..]); }
  }

  // The first place where a differs from b, and is less or at its end.
  predicate FirstDifference(a: seq<int>, b: seq<int>, k: nat)
  {
    && k <= |a| && k < |b| && a[..k] == b[..k]
    && (k == |a| || a[k] < b[k])
  }

  lemma {:induction false} TextLessMeans(a: seq<int>, b: seq<int>)
    ensures TextLess(a, b) <==> exists k: nat :: FirstDifference(a, b, k)
  {
    if a == [] {
      if b != [] { assert FirstDifference(a, b, 0); }
    } else if b != [] {
      TextLessMeans(a[1..], b[1..]);
      if a[0] < b[0] {
        assert FirstDifference(a, b, 0);
      } else if a[0] == b[0] {
        if k: nat :| FirstDifference(a[1..], b[1..], k) {
          assert a[..k + 1] == [a[0]] + a[1..][..k] && b[..k + 1] == [b[0]] + b[1..][..k];
          assert FirstDifference(a, b, k + 1);
        }
      }
      if k: nat :| FirstDifference(a, b, k) {
        if k > 0 {
          assert a[0] == a[..k][0] == b[..k][0] == b[0];
          assert a[1..][..k - 1] == a[..k][1..] && b[1..][..k - 1] == b[..k][1..];
          assert FirstDifference(a[1..], b[1..], k - 1);
        }
      }
    }
  }

  function HexDigit(v: nat): Byte
    requires v < 16
  {
    if v < 10 then 0x30 + v else 0x61 + v - 10
  }

  // ---------- Texts and digests ----------

  // A text's length is a 64-bit count.
  type Text = s: seq<Byte> | |s| < 0x1_0000_0000_0000_0000

  type Digest = d: seq<Byte> | |d| == 32 witness seq(32, _ => 0)

  function Ascii(s: string): (r: seq<Byte>)
    ensures |r| == |s|
  {
    seq(|s|, i requires 0 <= i < |s| => Octet(s[i] as int % 128))
  }

  function LengthAndText(t: Text): seq<Byte> { Be(|t|, 8) + t }

  lemma Cut(a: seq<Byte>, x: seq<Byte>, b: seq<Byte>, y: seq<Byte>)
    requires a + x == b + y && |a| == |b|
    ensures a == b && x == y
  {
    assert (a + x)[..|a|] == a && (b + y)[..|b|] == b;
    assert (a + x)[|a|..] == x && (b + y)[|b|..] == y;
  }

  // A length-prefixed text ends where its length says.
  lemma TextCut(s: Text, x: seq<Byte>, t: Text, y: seq<Byte>)
    requires LengthAndText(s) + x == LengthAndText(t) + y
    ensures s == t && x == y
  {
    var m, n := Be(|s|, 8), Be(|t|, 8);
    assert LengthAndText(s) + x == m + (s + x);
    assert LengthAndText(t) + y == n + (t + y);
    Cut(m, s + x, n, t + y);
    Widths();
    BeRoundTrip(|s|, 8);
    BeRoundTrip(|t|, 8);
    Cut(s, x, t, y);
  }
}
