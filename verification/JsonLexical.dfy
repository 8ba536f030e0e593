// The lexical functions of the parser against sections 6 and 7 of RFC 8259:
// each accepts every yield of its production, and what it accepts is a yield.
module JsonLexical {
  import opened Wrappers
  import opened Bytes
  import opened Utf8
  import opened JsonGrammar
  import opened JsonSpec

  // ---------- White space and digits ----------

  lemma {:induction false} SkipWsOver(s: seq<Byte>, i: nat, ws: seq<Byte>)
    requires At(s, i, ws) && Ws(ws)
    requires i + |ws| == |s| || !IsWs(s[i + |ws|])
    ensures SkipWs(s, i) == i + |ws|
    decreases |ws|
  {
    if ws != [] {
      AtConcat(s, i, [ws[0]], ws[1..]);
      assert ws == [ws[0]] + ws[1..];
      AtIndex(s, i, ws, 0);
      SkipWsOver(s, i + 1, ws[1..]);
    }
  }

  lemma {:induction false} SkipWsTakes(s: seq<Byte>, i: nat)
    requires i <= |s|
    ensures var j := SkipWs(s, i); Ws(s[i..j]) && (j == |s| || !IsWs(s[j]))
    decreases |s| - i
  {
    if i < |s| && IsWs(s[i]) {
      SkipWsTakes(s, i + 1);
      var j := SkipWs(s, i + 1);
      assert s[i..j] == [s[i]] + s[i + 1..j];
    }
  }

  lemma {:induction false} SkipDigitsOver(s: seq<Byte>, i: nat, digits: seq<Byte>)
    requires At(s, i, digits) && DigitRun(digits)
    requires i + |digits| == |s| || !IsDigit(s[i + |digits|])
    ensures SkipDigits(s, i) == i + |digits|
    decreases |digits|
  {
    if digits != [] {
      AtConcat(s, i, [digits[0]], digits[1..]);
      assert digits == [digits[0]] + digits[1..];
      AtIndex(s, i, digits, 0);
      SkipDigitsOver(s, i + 1, digits[1..]);
    }
  }

  lemma {:induction false} SkipDigitsTakes(s: seq<Byte>, i: nat)
    requires i <= |s|
    ensures DigitRun(s[i..SkipDigits(s, i)])
    decreases |s| - i
  {
    if i < |s| && IsDigit(s[i]) {
      SkipDigitsTakes(s, i + 1);
      var j := SkipDigits(s, i + 1);
      assert s[i..j] == [s[i]] + s[i + 1..j];
    }
  }

  lemma ConsumeOver(s: seq<Byte>, i: nat, gap: seq<Byte>, b: Byte)
    requires At(s, i, gap) && Ws(gap) && At(s, i + |gap|, [b]) && !IsWs(b)
    ensures Consume(s, i, b) == Done((), i + |gap| + 1)
  {
    AtIndex(s, i + |gap|, [b], 0);
    SkipWsOver(s, i, gap);
  }

  lemma ConsumeTakes(s: seq<Byte>, i: nat, b: Byte) returns (gap: seq<Byte>)
    requires i <= |s| && Consume(s, i, b).Done?
    ensures Ws(gap) && At(s, i, gap) && At(s, i + |gap|, [b])
    ensures Consume(s, i, b).pos == i + |gap| + 1
  {
    SkipWsTakes(s, i);
    var j := SkipWs(s, i);
    gap := s[i..j];
    assert s[j..j + 1] == [b];
  }

  // ---------- Escapes ----------

  lemma HexStep(s: seq<Byte>, i: nat, count: nat, value: nat)
    requires i < |s| && count > 0 && value < 0x1000
    ensures HexDigits(s, i, count, value) ==
      if IsHex(s[i]) then HexDigits(s, i + 1, count - 1, value * 16 + HexValue(s[i])) else Fail(BadHex, i + 1)
  {
    if IsHex(s[i]) {
      assert (value * 16 + HexValue(s[i])) % 0x1_0000 == value * 16 + HexValue(s[i]);
    }
  }

  lemma HexQuadReads(s: seq<Byte>, i: nat)
    requires i + 4 <= |s|
    ensures var q := Quad(s[i], s[i + 1], s[i + 2], s[i + 3]);
      if QuadOk(q) then HexQuad(s, i) == Done(QuadValue(q), i + 4) else HexQuad(s, i).Fail?
  {
    hide HexDigits;
    HexStep(s, i, 4, 0);
    if IsHex(s[i]) {
      var v: nat := HexValue(s[i]);
      HexStep(s, i + 1, 3, v);
      if IsHex(s[i + 1]) {
        v := v * 16 + HexValue(s[i + 1]);
        HexStep(s, i + 2, 2, v);
        if IsHex(s[i + 2]) {
          v := v * 16 + HexValue(s[i + 2]);
          HexStep(s, i + 3, 1, v);
          if IsHex(s[i + 3]) {
            HexEnd(s, i + 4, v * 16 + HexValue(s[i + 3]));
          }
        }
      }
    }
  }

  lemma HexEnd(s: seq<Byte>, i: nat, value: nat)
    requires i <= |s|
    ensures HexDigits(s, i, 0, value) == Done(value, i)
  {}

  lemma HexQuadOver(s: seq<Byte>, i: nat, q: Quad)
    requires At(s, i, QuadYield(q)) && QuadOk(q)
    ensures HexQuad(s, i) == Done(QuadValue(q), i + 4)
  {
    AtIndex(s, i, QuadYield(q), 0);
    AtIndex(s, i, QuadYield(q), 1);
    AtIndex(s, i, QuadYield(q), 2);
    AtIndex(s, i, QuadYield(q), 3);
    HexQuadReads(s, i);
  }

  lemma HexQuadTakes(s: seq<Byte>, i: nat) returns (q: Quad)
    requires i <= |s| && HexQuad(s, i).Done?
    ensures QuadOk(q) && At(s, i, QuadYield(q)) && HexQuad(s, i) == Done(QuadValue(q), i + 4)
  {
    q := Quad(s[i], s[i + 1], s[i + 2], s[i + 3]);
    HexQuadReads(s, i);
    assert s[i..i + 4] == QuadYield(q);
  }

  // Valid surrogate pairs and the supplementary planes correspond one to one.
  lemma SurrogatesCoverSupplementaryPlanes(high: int, low: int, v: int)
    ensures HighSurrogate(high) && LowSurrogate(low) && Combine(high, low) == v <==>
      0x1_0000 <= v <= 0x10FFFF && high == 0xD800 + (v - 0x1_0000) / 1024 && low == 0xDC00 + (v - 0x1_0000) % 1024
  {
    if HighSurrogate(high) && LowSurrogate(low) && Combine(high, low) == v {
      assert v - 0x1_0000 == (high - 0xD800) * 1024 + (low - 0xDC00);
    }
  }

  // The low half of a pair, from its gap on.
  lemma LowHalfOver(s: seq<Byte>, i: nat, high: nat, gap1: seq<Byte>, gap2: seq<Byte>, l: Quad)
    requires Ws(gap1) && Ws(gap2) && QuadOk(l) && LowSurrogate(QuadValue(l))
    requires At(s, i, gap1) && At(s, i + |gap1|, [BACKSLASH])
    requires At(s, i + |gap1| + 1, gap2) && At(s, i + |gap1| + 1 + |gap2|, [LOWER_U])
    requires At(s, i + |gap1| + 1 + |gap2| + 1, QuadYield(l))
    ensures i <= |s| && LowHalf(s, i, high) == Done(Combine(high, QuadValue(l)), i + |gap1| + |gap2| + 6)
  {
    hide At, Consume, HexQuad, QuadYield, QuadValue;
    AtBound(s, i, gap1);
    ConsumeOver(s, i, gap1, BACKSLASH);
    ConsumeOver(s, i + |gap1| + 1, gap2, LOWER_U);
    HexQuadOver(s, i + |gap1| + 1 + |gap2| + 1, l);
  }

  lemma PairOver(s: seq<Byte>, i: nat, item: Item)
    requires item.Pair? && ItemOk(item) && At(s, i, ItemYield(item))
    ensures Escape(s, i + 1) == Done(Encode(ItemScalar(item)), i + |ItemYield(item)|)
  {
    hide At, HexQuad, LowHalf, QuadValue, Encode, Ws;
    var Pair(h, gap1, gap2, l) := item;
    PairPieces(s, i, item);
    AtIndex(s, i, [BACKSLASH, LOWER_U], 1);
    HexQuadOver(s, i + 2, h);
    LowHalfOver(s, i + 6, QuadValue(h), gap1, gap2, l);
  }

  lemma PairPieces(s: seq<Byte>, i: nat, item: Item)
    requires item.Pair?
    ensures var Pair(h, gap1, gap2, l) := item;
      && |QuadYield(h)| == |QuadYield(l)| == 4 && |ItemYield(item)| == 12 + |gap1| + |gap2|
      && var p := i + 6 + |gap1|;
      && (At(s, i, ItemYield(item)) <==>
          && At(s, i, [BACKSLASH, LOWER_U]) && At(s, i + 2, QuadYield(h)) && At(s, i + 6, gap1) && At(s, p, [BACKSLASH])
          && At(s, p + 1, gap2) && At(s, p + 1 + |gap2|, [LOWER_U]) && At(s, p + 1 + |gap2| + 1, QuadYield(l)))
  {
    hide At;
    var Pair(h, gap1, gap2, l) := item;
    var last := [LOWER_U] + QuadYield(l);
    AtConcat6(s, i, [BACKSLASH, LOWER_U], QuadYield(h), gap1, [BACKSLASH], gap2, last);
    AtConcat(s, i + 6 + |gap1| + 1 + |gap2|, [LOWER_U], QuadYield(l));
  }

  lemma EscapeOver(s: seq<Byte>, i: nat, item: Item)
    requires !item.Raw? && ItemOk(item) && At(s, i, ItemYield(item))
    ensures At(s, i, [BACKSLASH])
    ensures Escape(s, i + 1) == Done(Encode(ItemScalar(item)), i + |ItemYield(item)|)
  {
    hide At, HexQuad, QuadValue, Ws;
    AtIndex(s, i, ItemYield(item), 0);
    AtIndex(s, i, ItemYield(item), 1);
    AtOne(s, i);
    match item
    case Short(_) =>
    case Unit(q) =>
      AtConcat(s, i, [BACKSLASH, LOWER_U], QuadYield(q));
      HexQuadOver(s, i + 2, q);
    case Pair(_, _, _, _) =>
      PairOver(s, i, item);
  }

  lemma PairTakes(s: seq<Byte>, i: nat, h: Quad) returns (item: Item)
    requires i + 1 < |s| && s[i] == BACKSLASH && s[i + 1] == LOWER_U
    requires QuadOk(h) && At(s, i + 2, QuadYield(h)) && HighSurrogate(QuadValue(h))
    requires LowHalf(s, i + 6, QuadValue(h)).Done?
    ensures item.Pair? && ItemOk(item) && At(s, i, ItemYield(item))
    ensures LowHalf(s, i + 6, QuadValue(h)) == Done(ItemScalar(item) as int, i + |ItemYield(item)|)
    ensures s[i + |ItemYield(item)| - 1] < 0x80
  {
    hide At, Consume, HexQuad, QuadYield, QuadValue, ItemYield;
    var gap1 := ConsumeTakes(s, i + 6, BACKSLASH);
    var p := i + 7 + |gap1|;
    var gap2 := ConsumeTakes(s, p, LOWER_U);
    var l := HexQuadTakes(s, p + |gap2| + 1);
    item := Pair(h, gap1, gap2, l);
    AtTwo(s, i);
    PairPieces(s, i, item);
    QuadEnd(s, p + |gap2| + 1, l);
  }

  lemma QuadEnd(s: seq<Byte>, i: nat, q: Quad)
    requires QuadOk(q) && At(s, i, QuadYield(q))
    ensures i + 4 <= |s| && s[i + 3] < 0x80
  {
    hide At;
    AtIndex(s, i, QuadYield(q), 3);
  }

  // The invalid-scalar error of an escape is unreachable, and an accepted escape
  // is the yield of an escape production that ends in an ASCII byte.
  lemma EscapeTakes(s: seq<Byte>, i: nat) returns (item: Item)
    requires i < |s| && s[i] == BACKSLASH
    ensures Escape(s, i + 1).Fail? ==> Escape(s, i + 1).detail !in {BadScalar, StringNotUtf8, NumberNotUtf8}
    ensures Escape(s, i + 1).Done? ==>
      && !item.Raw? && ItemOk(item) && At(s, i, ItemYield(item))
      && Escape(s, i + 1) == Done(Encode(ItemScalar(item)), i + |ItemYield(item)|)
      && s[i + |ItemYield(item)| - 1] < 0x80
  {
    hide *;
    EscapeCases(s, i);
    item := Short(QUOTE);
    if i + 1 < |s| {
      if ShortEscape(s[i + 1]).Some? {
        item := Short(s[i + 1]);
        ShortTakes(s, i);
      } else if s[i + 1] == LOWER_U {
        item := UnicodeTakes(s, i);
      }
    }
  }

  lemma EscapeCases(s: seq<Byte>, i: nat)
    requires i < |s|
    ensures Escape(s, i + 1) ==
      if i + 1 == |s| then Fail(UnterminatedEscape, i + 1)
      else if ShortEscape(s[i + 1]).Some? then Done([ShortEscape(s[i + 1]).value], i + 2)
      else if s[i + 1] == LOWER_U then UnicodeEscape(s, i + 2)
      else Fail(BadEscape, i + 2)
  {
    hide UnicodeEscape;
  }

  lemma ShortTakes(s: seq<Byte>, i: nat)
    requires i + 1 < |s| && s[i] == BACKSLASH && ShortEscape(s[i + 1]).Some?
    ensures var item := Short(s[i + 1]);
      && ItemOk(item) && At(s, i, ItemYield(item)) && |ItemYield(item)| == 2 && s[i + 1] < 0x80
      && Encode(ItemScalar(item)) == [ShortEscape(s[i + 1]).value]
  {
    hide At;
    AtTwo(s, i);
  }

  lemma UnicodeTakes(s: seq<Byte>, i: nat) returns (item: Item)
    requires i + 1 < |s| && s[i] == BACKSLASH && s[i + 1] == LOWER_U
    ensures var r := UnicodeEscape(s, i + 2);
      if r.Fail? then r.detail !in {BadScalar, StringNotUtf8, NumberNotUtf8}
      else
        && !item.Raw? && ItemOk(item) && At(s, i, ItemYield(item))
        && r == Done(Encode(ItemScalar(item)), i + |ItemYield(item)|)
        && s[i + |ItemYield(item)| - 1] < 0x80
  {
    hide At, HexQuad, LowHalf, Encode, QuadValue, Ws;
    item := Short(QUOTE);
    if HexQuad(s, i + 2).Done? {
      var q := HexQuadTakes(s, i + 2);
      if HighSurrogate(QuadValue(q)) {
        if LowHalf(s, i + 6, QuadValue(q)).Done? {
          item := PairTakes(s, i, q);
        }
      } else if !LowSurrogate(QuadValue(q)) {
        item := Unit(q);
        AtTwo(s, i);
        AtConcat(s, i, [BACKSLASH, LOWER_U], QuadYield(q));
        QuadEnd(s, i + 2, q);
      }
    }
    DetailsOf(s, i, if HexQuad(s, i + 2).Done? then HexQuad(s, i + 2).value else 0);
  }

  // None of the reading steps reports an encoding error.
  lemma DetailsOf(s: seq<Byte>, i: nat, high: nat)
    requires i + 1 < |s|
    ensures var r := HexQuad(s, i + 2); r.Fail? ==> r.detail == BadHex
    ensures i + 6 <= |s| && LowHalf(s, i + 6, high).Fail? ==>
      LowHalf(s, i + 6, high).detail in {BadHex, BadLowSurrogate, ExpectedByte(BACKSLASH), ExpectedByte(LOWER_U)}
  {
    forall j: nat | j <= |s| ensures HexQuad(s, j).Fail? ==> HexQuad(s, j).detail == BadHex {
      if HexQuad(s, j).Fail? { HexFailure(s, j, 4, 0); }
    }
  }

  lemma {:induction false} HexFailure(s: seq<Byte>, i: nat, count: nat, value: nat)
    requires i <= |s| && HexDigits(s, i, count, value).Fail?
    ensures HexDigits(s, i, count, value).detail == BadHex
    decreases count
  {
    if i < |s| && IsHex(s[i]) { HexFailure(s, i + 1, count - 1, (value * 16 + HexValue(s[i])) % 0x1_0000); }
  }

  // ---------- Strings ----------

  predicate Plain(b: Byte) { b >= 0x20 && b != QUOTE && b != BACKSLASH }

  lemma {:induction false} PlainRun(s: seq<Byte>, i: nat, run: seq<Byte>, output: seq<Byte>)
    requires At(s, i, run) && forall k :: 0 <= k < |run| ==> Plain(run[k])
    ensures StringBody(s, i, output) == StringBody(s, i + |run|, output + run)
    decreases |run|
  {
    if run == [] {
      assert output + run == output;
    } else {
      AtIndex(s, i, run, 0);
      AtConcat(s, i, [run[0]], run[1..]);
      assert run == [run[0]] + run[1..];
      PlainRun(s, i + 1, run[1..], output + [run[0]]);
      assert (output + [run[0]]) + run[1..] == output + run;
    }
  }

  lemma RawIsPlain(c: Scalar)
    requires ItemOk(Raw(c))
    ensures forall k :: 0 <= k < |Encode(c)| ==> Plain(Encode(c)[k])
  {}

  lemma ItemStep(s: seq<Byte>, i: nat, item: Item, output: seq<Byte>)
    requires ItemOk(item) && At(s, i, ItemYield(item))
    ensures StringBody(s, i, output) == StringBody(s, i + |ItemYield(item)|, output + Encode(ItemScalar(item)))
  {
    hide At, Encode, Escape;
    if item.Raw? {
      assert ItemYield(item) == Encode(item.c);
      RawIsPlain(item.c);
      PlainRun(s, i, Encode(item.c), output);
    } else {
      EscapeOver(s, i, item);
      AtIndex(s, i, [BACKSLASH], 0);
    }
  }

  lemma {:induction false} StringOver(s: seq<Byte>, i: nat, items: seq<Item>, before: seq<Scalar>)
    requires ItemsOk(items) && At(s, i, ItemsYield(items))
    ensures StringBody(s, i, EncodeAll(before)) ==
      Done(EncodeAll(before + ItemsText(items)), i + |ItemsYield(items)|)
    decreases |items|
  {
    hide At, Encode, ItemYield, Escape;
    if items == [] {
      AtIndex(s, i, [QUOTE], 0);
      RecogniserIsExact(EncodeAll(before));
      assert before + ItemsText(items) == before;
    } else {
      var c := ItemScalar(items[0]);
      AtConcat(s, i, ItemYield(items[0]), ItemsYield(items[1..]));
      ItemStep(s, i, items[0], EncodeAll(before));
      ExtendEncoding(before, c);
      StringOver(s, i + |ItemYield(items[0])|, items[1..], before + [c]);
      assert before + [c] + ItemsText(items[1..]) == before + ItemsText(items);
    }
  }

  lemma SingleEncoding(c: Scalar)
    ensures EncodeAll([c]) == Encode(c)
  {
    assert EncodeAll([c]) == Encode(c) + EncodeAll([]);
  }

  lemma PlainTakes(s: seq<Byte>, i: nat) returns (item: Item)
    requires i < |s| && IsUtf8From(s, i) && Plain(s[i])
    ensures item.Raw? && ItemOk(item) && At(s, i, ItemYield(item))
    ensures i + |ItemYield(item)| <= |s| && IsUtf8From(s, i + |ItemYield(item)|)
  {
    hide At;
    EncodeInvertsDecode(s, i);
    item := Raw(DecodeAt(s, i).value);
  }

  // One accepted character of a string body, in valid UTF-8 input.
  lemma ItemTakes(s: seq<Byte>, i: nat, output: seq<Byte>) returns (item: Item)
    requires i < |s| && IsUtf8(s) && IsUtf8From(s, i)
    requires if s[i] == BACKSLASH then Escape(s, i + 1).Done? else Plain(s[i])
    ensures ItemOk(item) && At(s, i, ItemYield(item))
    ensures i + |ItemYield(item)| <= |s| && IsUtf8From(s, i + |ItemYield(item)|) && |ItemYield(item)| > 0
    ensures StringBody(s, i, output) == StringBody(s, i + |ItemYield(item)|, output + Encode(ItemScalar(item)))
  {
    hide At, Escape, Encode, ItemScalar;
    if s[i] == BACKSLASH {
      item := EscapeTakes(s, i);
      AtBound(s, i, ItemYield(item));
      AsciiEndsScalar(s, 0, i + |ItemYield(item)| - 1);
    } else {
      EncodeInvertsDecode(s, i);
      item := PlainTakes(s, i);
    }
    ItemStep(s, i, item, output);
  }

  // On valid UTF-8 input the output is always valid UTF-8, so the two encoding
  // errors of a string cannot occur, and the body is a sequence of characters.
  lemma {:induction false} StringTakes(s: seq<Byte>, i: nat, before: seq<Scalar>) returns (items: seq<Item>)
    requires i <= |s| && IsUtf8(s) && IsUtf8From(s, i)
    ensures var r := StringBody(s, i, EncodeAll(before));
      if r.Done? then ItemsOk(items) && At(s, i, ItemsYield(items)) && r.pos == i + |ItemsYield(items)|
      else r.detail !in {StringNotUtf8, BadScalar, NumberNotUtf8}
    decreases |s| - i
  {
    hide At, Escape, IsUtf8From, Encode, ItemYield, ItemScalar, IsUtf8;
    items := [];
    if i < |s| {
      if s[i] == QUOTE {
        RecogniserIsExact(EncodeAll(before));
        AtOne(s, i);
      } else if s[i] == BACKSLASH && Escape(s, i + 1).Fail? {
        var _ := EscapeTakes(s, i);
      } else if s[i] == BACKSLASH || Plain(s[i]) {
        var item := ItemTakes(s, i, EncodeAll(before));
        ExtendEncoding(before, ItemScalar(item));
        var rest := StringTakes(s, i + |ItemYield(item)|, before + [ItemScalar(item)]);
        items := [item] + rest;
        assert items[1..] == rest;
        if StringBody(s, i, EncodeAll(before)).Done? {
          AtConcat(s, i, ItemYield(item), ItemsYield(rest));
        }
      }
    }
  }

  lemma ExtendEncoding(before: seq<Scalar>, c: Scalar)
    ensures EncodeAll(before + [c]) == EncodeAll(before) + Encode(c)
  {
    EncodeAllConcat(before, [c]);
    SingleEncoding(c);
  }

  // ---------- Numbers ----------

  // What may follow a value in a derivation.
  predicate Follow(s: seq<Byte>, i: nat)
  {
    i == |s| || (i < |s| && (IsWs(s[i]) || s[i] == 0x2C || s[i] == 0x5D || s[i] == 0x7D))
  }

  lemma DigitsOver(s: seq<Byte>, i: nat, digits: seq<Byte>)
    requires At(s, i, digits) && AllDigits(digits)
    requires i + |digits| == |s| || !IsDigit(s[i + |digits|])
    ensures PeekDigit(s, i) && s[i] == digits[0] && SkipDigits(s, i) == i + |digits|
      && SkipDigits(s, i + 1) == i + |digits|
  {
    AtIndex(s, i, digits, 0);
    SkipDigitsOver(s, i, digits);
  }

  lemma ExponentOver(s: seq<Byte>, i: nat, e: Option<Exponent>)
    requires At(s, i, ExponentYield(e)) && (e.Some? ==> ExponentOk(e.value)) && Follow(s, i + |ExponentYield(e)|)
    ensures ExponentPart(s, i) == Done((), i + |ExponentYield(e)|)
    ensures i < |s| ==> !IsDigit(s[i]) && s[i] != 0x2E
  {
    hide At, SkipDigits, AllDigits, DigitRun;
    AtBound(s, i, ExponentYield(e));
    if e.Some? {
      var Exponent(letter, sign, digits) := e.value;
      AtConcat3(s, i, [letter], sign, digits);
      AtIndex(s, i, [letter], 0);
      AtBound(s, i + 1 + |sign|, digits);
      DigitsOver(s, i + 1 + |sign|, digits);
      if sign != [] { AtIndex(s, i + 1, sign, 0); }
    }
  }

  lemma FractionOver(s: seq<Byte>, i: nat, f: Option<seq<Byte>>)
    requires At(s, i, FractionYield(f)) && (f.Some? ==> AllDigits(f.value))
    requires var j := i + |FractionYield(f)|; j < |s| ==> !IsDigit(s[j]) && s[j] != 0x2E
    ensures FractionPart(s, i) == Done((), i + |FractionYield(f)|)
    ensures i < |s| ==> !IsDigit(s[i])
  {
    hide At;
    if f.Some? {
      AtConcat(s, i, [0x2E], f.value);
      AtIndex(s, i, [0x2E], 0);
      AtBound(s, i + 1, f.value);
      DigitsOver(s, i + 1, f.value);
    }
  }

  predicate NumberByte(b: Byte) { IsDigit(b) || b in {0x2B, 0x2D, 0x2E, 0x45, 0x65} }

  lemma NumberIsAscii(n: NumberParts)
    requires NumberOk(n)
    ensures forall k :: 0 <= k < |NumberYield(n)| ==> NumberByte(NumberYield(n)[k])
  {
    var y := NumberYield(n);
    var sign: seq<Byte> := if n.minus then [0x2D] else [];
    assert forall k :: 0 <= k < |n.whole| ==> NumberByte(n.whole[k]);
    assert forall k :: 0 <= k < |FractionYield(n.fraction)| ==> NumberByte(FractionYield(n.fraction)[k]);
    assert forall k :: 0 <= k < |ExponentYield(n.exponent)| ==> NumberByte(ExponentYield(n.exponent)[k]);
  }

  lemma WholeOver(s: seq<Byte>, i: nat, whole: seq<Byte>)
    requires At(s, i, whole) && AllDigits(whole) && (whole[0] == 0x30 ==> |whole| == 1)
    requires i + |whole| == |s| || !IsDigit(s[i + |whole|])
    ensures IntegerPart(s, i) == Done((), i + |whole|) && IsDigit(s[i])
  {
    hide At;
    AtBound(s, i, whole);
    DigitsOver(s, i, whole);
  }

  lemma NumberOver(s: seq<Byte>, i: nat, n: NumberParts)
    requires NumberOk(n) && At(s, i, NumberYield(n)) && Follow(s, i + |NumberYield(n)|)
    ensures NumberText(s, i) == Done(NumberYield(n), i + |NumberYield(n)|)
    ensures s[i] == 0x2D || IsDigit(s[i])
  {
    hide At, IntegerPart, FractionPart, ExponentPart, FractionYield, ExponentYield, AllDigits, ExponentOk, IsUtf8;
    var f := NumberPieces(s, i, n);
    var w := i + if n.minus then 1 else 0;
    ExponentOver(s, f + |FractionYield(n.fraction)|, n.exponent);
    FractionOver(s, f, n.fraction);
    WholeOver(s, w, n.whole);
    NumberSliceIsUtf8(s, i, n);
  }

  lemma NumberPieces(s: seq<Byte>, i: nat, n: NumberParts) returns (f: nat)
    requires NumberOk(n) && At(s, i, NumberYield(n))
    ensures var w := i + if n.minus then 1 else 0;
      && f == w + |n.whole| && w < |s| && At(s, w, n.whole) && At(s, f, FractionYield(n.fraction))
      && At(s, f + |FractionYield(n.fraction)|, ExponentYield(n.exponent))
      && |NumberYield(n)| == f - i + |FractionYield(n.fraction)| + |ExponentYield(n.exponent)|
      && i + |NumberYield(n)| <= |s| && (n.minus <==> Peek(s, i, 0x2D))
  {
    hide At, FractionYield, ExponentYield;
    var sign: seq<Byte> := if n.minus then [0x2D] else [];
    AtBound(s, i, NumberYield(n));
    AtConcat4(s, i, sign, n.whole, FractionYield(n.fraction), ExponentYield(n.exponent));
    f := i + |sign| + |n.whole|;
    if n.minus { AtIndex(s, i, sign, 0); }
    AtIndex(s, i + |sign|, n.whole, 0);
  }

  lemma NumberSliceIsUtf8(s: seq<Byte>, i: nat, n: NumberParts)
    requires NumberOk(n) && At(s, i, NumberYield(n))
    ensures i + |NumberYield(n)| <= |s| && s[i..i + |NumberYield(n)|] == NumberYield(n) && IsUtf8(NumberYield(n))
  {
    AtText(s, i, NumberYield(n));
    NumberIsAscii(n);
    AsciiIsUtf8(NumberYield(n), 0);
  }

  lemma DigitsTake(s: seq<Byte>, i: nat)
    requires PeekDigit(s, i)
    ensures var j := SkipDigits(s, i + 1); AllDigits(s[i..j]) && At(s, i, s[i..j]) && j == SkipDigits(s, i)
  {
    SkipDigitsTakes(s, i);
    var j := SkipDigits(s, i + 1);
    assert j == SkipDigits(s, i);
    assert |s[i..j]| > 0;
  }

  // Where the exponent's digits start.
  function ExponentDigits(s: seq<Byte>, i: nat): nat
    requires i < |s|
  {
    if Peek(s, i + 1, 0x2B) || Peek(s, i + 1, 0x2D) then i + 2 else i + 1
  }

  lemma ExponentLead(s: seq<Byte>, i: nat)
    requires i < |s| && (Peek(s, i, 0x65) || Peek(s, i, 0x45))
    ensures var j := ExponentDigits(s, i);
      && i + 1 <= j <= |s|
      && (s[i] == 0x65 || s[i] == 0x45)
      && (s[i + 1..j] == [] || s[i + 1..j] == [0x2B] || s[i + 1..j] == [0x2D])
  {
    if ExponentDigits(s, i) == i + 2 { assert s[i + 1..i + 2] == [s[i + 1]]; }
  }

  lemma ExponentTakes(s: seq<Byte>, i: nat) returns (e: Option<Exponent>)
    requires i <= |s| && ExponentPart(s, i).Done?
    ensures (e.Some? ==> ExponentOk(e.value)) && At(s, i, ExponentYield(e))
    ensures ExponentPart(s, i).pos == i + |ExponentYield(e)|
  {
    if Peek(s, i, 0x65) || Peek(s, i, 0x45) {
      var j := ExponentDigits(s, i);
      ExponentLead(s, i);
      DigitsTake(s, j);
      hide At, Peek, AllDigits;
      var end := SkipDigits(s, j);
      e := Some(Exponent(s[i], s[i + 1..j], s[j..end]));
      AtOne(s, i);
      AtSlice(s, i + 1, j);
      AtSlice(s, j, end);
      AtConcat3(s, i, [s[i]], s[i + 1..j], s[j..end]);
    } else {
      hide At;
      e := None;
      AtSlice(s, i, i);
    }
  }

  lemma FractionTakes(s: seq<Byte>, i: nat) returns (f: Option<seq<Byte>>)
    requires i <= |s| && FractionPart(s, i).Done?
    ensures (f.Some? ==> AllDigits(f.value)) && At(s, i, FractionYield(f))
    ensures FractionPart(s, i).pos == i + |FractionYield(f)|
  {
    hide At;
    if Peek(s, i, 0x2E) {
      DigitsTake(s, i + 1);
      var end := SkipDigits(s, i + 1);
      f := Some(s[i + 1..end]);
      AtOne(s, i);
      AtSlice(s, i + 1, end);
      AtConcat(s, i, [0x2E], s[i + 1..end]);
    } else {
      f := None;
      AtSlice(s, i, i);
    }
  }

  lemma WholeTakes(s: seq<Byte>, i: nat) returns (whole: seq<Byte>)
    requires i <= |s| && IntegerPart(s, i).Done?
    ensures AllDigits(whole) && (whole[0] == 0x30 ==> |whole| == 1) && At(s, i, whole)
    ensures IntegerPart(s, i).pos == i + |whole|
  {
    if Peek(s, i, 0x30) {
      whole := [0x30];
      assert s[i..i + 1] == whole;
    } else {
      DigitsTake(s, i);
      whole := s[i..SkipDigits(s, i + 1)];
    }
  }

  lemma PartsTake(s: seq<Byte>, i: nat) returns (n: NumberParts)
    requires i <= |s| && IntegerPart(s, i).Done? && FractionPart(s, IntegerPart(s, i).pos).Done?
    requires ExponentPart(s, FractionPart(s, IntegerPart(s, i).pos).pos).Done?
    ensures NumberOk(n) && !n.minus && At(s, i, NumberYield(n))
    ensures ExponentPart(s, FractionPart(s, IntegerPart(s, i).pos).pos).pos == i + |NumberYield(n)|
  {
    hide At, IntegerPart, FractionPart, ExponentPart;
    var whole := WholeTakes(s, i);
    var f := FractionTakes(s, i + |whole|);
    var e := ExponentTakes(s, i + |whole| + |FractionYield(f)|);
    n := NumberParts(false, whole, f, e);
    AtConcat3(s, i, whole, FractionYield(f), ExponentYield(e));
    assert NumberYield(n) == whole + (FractionYield(f) + ExponentYield(e));
  }

  lemma MinusBefore(s: seq<Byte>, i: nat, n: NumberParts)
    requires Peek(s, i, 0x2D) && !n.minus && At(s, i + 1, NumberYield(n))
    ensures NumberYield(n.(minus := true)) == [0x2D] + NumberYield(n)
    ensures At(s, i, NumberYield(n.(minus := true)))
  {
    hide At;
    var tail := n.whole + (FractionYield(n.fraction) + ExponentYield(n.exponent));
    assert NumberYield(n) == [] + tail == tail;
    AtOne(s, i);
    AtConcat(s, i, [0x2D], NumberYield(n));
  }

  // No part of a number reports an encoding error.
  lemma DetailsOfNumber(s: seq<Byte>, i: nat)
    requires i <= |s|
    ensures forall j: nat :: j <= |s| && IntegerPart(s, j).Fail? ==>
      IntegerPart(s, j).detail in {LeadingZero, BadIntegerPart}
    ensures forall j: nat :: j <= |s| && FractionPart(s, j).Fail? ==> FractionPart(s, j).detail == MissingFraction
    ensures forall j: nat :: j <= |s| && ExponentPart(s, j).Fail? ==> ExponentPart(s, j).detail == MissingExponent
  {}

  // An accepted number is the yield of a number production; its text is ASCII,
  // so the UTF-8 error of a number cannot occur.
  lemma NumberTakes(s: seq<Byte>, i: nat) returns (n: NumberParts)
    requires i <= |s|
    ensures NumberText(s, i).Fail? ==> NumberText(s, i).detail !in {NumberNotUtf8, StringNotUtf8, BadScalar}
    ensures NumberText(s, i).Done? ==>
      NumberOk(n) && At(s, i, NumberYield(n)) && NumberText(s, i).pos == i + |NumberYield(n)|
  {
    hide At, IsUtf8, NumberYield, IntegerPart, FractionPart, ExponentPart;
    n := NumberParts(false, [], None, None);
    DetailsOfNumber(s, i);
    var w := if Peek(s, i, 0x2D) then i + 1 else i;
    if IntegerPart(s, w).Done? && FractionPart(s, IntegerPart(s, w).pos).Done?
      && ExponentPart(s, FractionPart(s, IntegerPart(s, w).pos).pos).Done? {
      n := PartsTake(s, w);
      if Peek(s, i, 0x2D) {
        MinusBefore(s, i, n);
        n := n.(minus := true);
      }
      NumberSliceIsUtf8(s, i, n);
    }
  }
}
