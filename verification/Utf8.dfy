// UTF-8: the encoder of section 3 of RFC 3629 and the byte-range recogniser of
// its section 4, which is what Rust's `String::from_utf8` decides.
module Utf8 {
  import opened Wrappers
  import opened Bytes

  predicate IsScalar(c: int) { 0 <= c <= 0x10FFFF && !(0xD800 <= c <= 0xDFFF) }

  type Scalar = c: int | 0 <= c <= 0x10FFFF && !(0xD800 <= c <= 0xDFFF)

  function Encode(c: Scalar): (r: seq<Byte>)
    ensures 1 <= |r| <= 4
  {
    var (q, low) := (c / 64, Octet(0x80 + c % 64));
    if c < 0x80 then [Octet(c)]
    else if c < 0x800 then [Octet(0xC0 + q), low]
    else if c < 0x1_0000 then [Octet(0xE0 + q / 64), Octet(0x80 + q % 64), low]
    else [Octet(0xF0 + q / 64 / 64), Octet(0x80 + q / 64 % 64), Octet(0x80 + q % 64), low]
  }

  function EncodeAll(s: seq<Scalar>): seq<Byte>
  {
    if s == [] then [] else Encode(s[0]) + EncodeAll(s[1..])
  }

  function Two(a: int, b: int): int { (a - 0xC0) * 64 + (b - 0x80) }
  function Three(a: int, b: int, c: int): int { (a - 0xE0) * 4096 + (b - 0x80) * 64 + (c - 0x80) }
  function Four(a: int, b: int, c: int, d: int): int {
    (a - 0xF0) * 262144 + (b - 0x80) * 4096 + (c - 0x80) * 64 + (d - 0x80)
  }

  predicate Tail(b: Byte) { 0x80 <= b < 0xC0 }

  // The scalar that starts at `i`, if the bytes there are one of the sequences
  // RFC 3629 section 4 allows.
  function DecodeAt(s: seq<Byte>, i: nat): (r: Option<Scalar>)
    requires i <= |s|
  {
    if i == |s| then None
    else if s[i] < 0x80 then Some(s[i])
    else if i + 1 < |s| && 0xC2 <= s[i] < 0xE0 && Tail(s[i + 1]) then
      Some(Two(s[i], s[i + 1]))
    else if i + 2 < |s| && 0xE0 <= s[i] < 0xF0 && Tail(s[i + 1]) && Tail(s[i + 2])
         && (s[i] == 0xE0 ==> s[i + 1] >= 0xA0) && (s[i] == 0xED ==> s[i + 1] < 0xA0) then
      Some(Three(s[i], s[i + 1], s[i + 2]))
    else if i + 3 < |s| && 0xF0 <= s[i] < 0xF5 && Tail(s[i + 1]) && Tail(s[i + 2]) && Tail(s[i + 3])
         && (s[i] == 0xF0 ==> s[i + 1] >= 0x90) && (s[i] == 0xF4 ==> s[i + 1] < 0x90) then
      Some(Four(s[i], s[i + 1], s[i + 2], s[i + 3]))
    else None
  }

  predicate IsUtf8From(s: seq<Byte>, i: nat)
    requires i <= |s|
    decreases |s| - i
  {
    i == |s| ||
    var c := DecodeAt(s, i);
    c.Some? && i + |Encode(c.value)| <= |s| && IsUtf8From(s, i + |Encode(c.value)|)
  }

  predicate IsUtf8(s: seq<Byte>) { IsUtf8From(s, 0) }

  lemma DecodeInvertsEncode(s: seq<Byte>, i: nat, c: Scalar)
    requires At(s, i, Encode(c))
    ensures DecodeAt(s, i) == Some(c)
  {
    var e := Encode(c);
    AtIndex(s, i, e, 0);
    if c >= 0x80 { AtIndex(s, i, e, 1); }
    if c >= 0x800 { AtIndex(s, i, e, 2); }
    if c >= 0x1_0000 { AtIndex(s, i, e, 3); }
    var q := c / 64;
    assert c == q * 64 + c % 64 && q == q / 64 * 64 + q % 64;
    if c < 0x80 {
    } else if c < 0x800 {
      assert 2 <= q < 32;
    } else if c < 0x1_0000 {
      var p := q / 64;
      assert p < 16 && (p == 0 ==> q % 64 >= 32) && (p == 0xD ==> q % 64 < 32);
    } else {
      var p := q / 64;
      assert p == p / 64 * 64 + p % 64;
      assert p / 64 < 5 && (p / 64 == 0 ==> p % 64 >= 16) && (p / 64 == 4 ==> p % 64 < 16);
    }
  }

  lemma DigitsOf(high: nat, low: nat)
    requires low < 64
    ensures (high * 64 + low) / 64 == high && (high * 64 + low) % 64 == low
  {}

  lemma TwoBytes(a: Byte, b: Byte)
    requires 0xC2 <= a < 0xE0 && Tail(b)
    ensures Encode(Two(a, b)) == [a, b]
  {
    DigitsOf(a - 0xC0, b - 0x80);
  }

  lemma ThreeBytes(a: Byte, b: Byte, c: Byte)
    requires 0xE0 <= a < 0xF0 && Tail(b) && Tail(c) && (a == 0xE0 ==> b >= 0xA0) && (a == 0xED ==> b < 0xA0)
    ensures IsScalar(Three(a, b, c)) && Encode(Three(a, b, c)) == [a, b, c]
  {
    var q: nat := (a - 0xE0) as int * 64 + (b - 0x80);
    DigitsOf(a - 0xE0, b - 0x80);
    DigitsOf(q, c - 0x80);
  }

  lemma FourBytes(a: Byte, b: Byte, c: Byte, d: Byte)
    requires 0xF0 <= a < 0xF5 && Tail(b) && Tail(c) && Tail(d) && (a == 0xF0 ==> b >= 0x90) && (a == 0xF4 ==> b < 0x90)
    ensures IsScalar(Four(a, b, c, d)) && Encode(Four(a, b, c, d)) == [a, b, c, d]
  {
    var p: nat := (a - 0xF0) as int * 64 + (b - 0x80);
    var q: nat := p * 64 + (c - 0x80);
    DigitsOf(a - 0xF0, b - 0x80);
    DigitsOf(p, c - 0x80);
    DigitsOf(q, d - 0x80);
  }

  lemma EncodeInvertsDecode(s: seq<Byte>, i: nat)
    requires i <= |s| && DecodeAt(s, i).Some?
    ensures At(s, i, Encode(DecodeAt(s, i).value))
  {
    hide Encode;
    if s[i] < 0x80 {
      OneByte(s[i]);
      assert s[i..i + 1] == [s[i]];
    } else if s[i] < 0xE0 {
      TwoBytes(s[i], s[i + 1]);
      assert s[i..i + 2] == [s[i], s[i + 1]];
    } else if s[i] < 0xF0 {
      ThreeBytes(s[i], s[i + 1], s[i + 2]);
      assert s[i..i + 3] == [s[i], s[i + 1], s[i + 2]];
    } else {
      FourBytes(s[i], s[i + 1], s[i + 2], s[i + 3]);
      assert s[i..i + 4] == [s[i], s[i + 1], s[i + 2], s[i + 3]];
    }
  }

  lemma OneByte(a: Byte)
    requires a < 0x80
    ensures Encode(a) == [a]
  {}

  // The recogniser accepts exactly the encodings of scalar sequences.
  lemma {:induction false} AcceptsEncoding(s: seq<Byte>, i: nat, text: seq<Scalar>)
    requires i <= |s| && s[i..] == EncodeAll(text)
    ensures IsUtf8From(s, i)
    decreases |text|
  {
    if text != [] {
      var e := Encode(text[0]);
      assert s[i..i + |e|] == s[i..][..|e|] == e;
      DecodeInvertsEncode(s, i, text[0]);
      assert s[i + |e|..] == s[i..][|e|..] == EncodeAll(text[1..]);
      AcceptsEncoding(s, i + |e|, text[1..]);
    }
  }

  lemma {:induction false} AcceptedIsEncoding(s: seq<Byte>, i: nat) returns (text: seq<Scalar>)
    requires i <= |s| && IsUtf8From(s, i)
    ensures s[i..] == EncodeAll(text)
    decreases |s| - i
  {
    if i == |s| {
      text := [];
    } else {
      var c := DecodeAt(s, i).value;
      EncodeInvertsDecode(s, i);
      var rest := AcceptedIsEncoding(s, i + |Encode(c)|);
      text := [c] + rest;
      assert text[1..] == rest;
      assert s[i..] == s[i..i + |Encode(c)|] + s[i + |Encode(c)|..];
    }
  }

  lemma RecogniserIsExact(s: seq<Byte>)
    ensures IsUtf8(s) <==> exists text: seq<Scalar> :: EncodeAll(text) == s
  {
    if IsUtf8(s) {
      var text := AcceptedIsEncoding(s, 0);
      assert s[0..] == s;
    } else if exists text: seq<Scalar> :: EncodeAll(text) == s {
      var text: seq<Scalar> :| EncodeAll(text) == s;
      assert s[0..] == s;
      AcceptsEncoding(s, 0, text);
    }
  }

  lemma AppendAssoc(a: seq<Byte>, b: seq<Byte>, c: seq<Byte>)
    ensures a + (b + c) == (a + b) + c
  {}

  lemma {:induction false} EncodeAllConcat(a: seq<Scalar>, b: seq<Scalar>)
    ensures EncodeAll(a + b) == EncodeAll(a) + EncodeAll(b)
  {
    if a == [] {
      assert a + b == b;
    } else {
      EncodeAllConcat(a[1..], b);
      assert (a + b)[1..] == a[1..] + b && (a + b)[0] == a[0];
      AppendAssoc(Encode(a[0]), EncodeAll(a[1..]), EncodeAll(b));
    }
  }

  // Distinct scalar sequences have distinct encodings.
  lemma {:induction false} EncodeAllInjective(a: seq<Scalar>, b: seq<Scalar>)
    requires EncodeAll(a) == EncodeAll(b)
    ensures a == b
  {
    hide At;
    if a != [] && b != [] {
      var s := EncodeAll(a);
      assert s[0..|Encode(a[0])|] == Encode(a[0]);
      assert s[0..|Encode(b[0])|] == Encode(b[0]);
      DecodeInvertsEncode(s, 0, a[0]);
      DecodeInvertsEncode(s, 0, b[0]);
      assert EncodeAll(a[1..]) == s[|Encode(a[0])|..] == EncodeAll(b[1..]);
      EncodeAllInjective(a[1..], b[1..]);
    }
  }

  // In valid text a byte that is not a continuation byte starts a scalar.
  lemma {:induction false} ScalarStarts(s: seq<Byte>, from: nat, i: nat)
    requires from <= i < |s| && IsUtf8From(s, from) && !Tail(s[i])
    ensures IsUtf8From(s, i)
    decreases |s| - from
  {
    if from < i {
      var e := Encode(DecodeAt(s, from).value);
      EncodeInvertsDecode(s, from);
      if i < from + |e| {
        AtIndex(s, from, e, i - from);
        assert false;
      } else {
        ScalarStarts(s, from + |e|, i);
      }
    }
  }

  // In valid text the byte before a continuation byte is never ASCII.
  lemma {:induction false} AsciiEndsScalar(s: seq<Byte>, from: nat, i: nat)
    requires from <= i < |s| && IsUtf8From(s, from) && s[i] < 0x80
    ensures IsUtf8From(s, i + 1)
    decreases |s| - from
  {
    ScalarStarts(s, from, i);
  }

  lemma {:induction false} AsciiIsUtf8(s: seq<Byte>, i: nat)
    requires i <= |s| && forall k :: i <= k < |s| ==> s[k] < 0x80
    ensures IsUtf8From(s, i)
    decreases |s| - i
  {
    if i < |s| { AsciiIsUtf8(s, i + 1); }
  }
}
