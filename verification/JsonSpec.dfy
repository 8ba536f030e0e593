// What each method of the strict parser computes, as functions of the input
// and the cursor.  `JsonParser` proves the methods equal to these functions and
// `JsonTheorems` relates the functions to the grammar.
module JsonSpec {
  import opened Bytes
  import opened Utf8
  import opened JsonGrammar

  const MAX_JSON_DEPTH := 128
  const MAX_JSON_NODES := 100_000

  datatype Detail =
    | TrailingContent
    | NestingLimit
    | NodeLimit
    | ExpectedValue
    | ExpectedByte(expected: Byte)
    | BadLiteral
    | DuplicateKey(key: seq<Byte>)
    | UnterminatedString
    | StringNotUtf8
    | ControlByte
    | UnterminatedEscape
    | BadEscape
    | BadHex
    | BadLowSurrogate
    | LoneLowSurrogate
    | BadScalar
    | LeadingZero
    | BadIntegerPart
    | MissingFraction
    | MissingExponent
    | NumberNotUtf8

  // A scan either yields a value and the next position or an error and the
  // position the message reports.
  datatype Scan<+T> = Done(value: T, pos: nat) | Fail(detail: Detail, at: nat)

  // A scan of a JSON value also threads the node counter.
  datatype Parse<+T> = Parsed(value: T, pos: nat, nodes: nat) | Rejected(detail: Detail, at: nat)

  // ---------- Lexical level ----------

  function SkipWs(s: seq<Byte>, i: nat): (r: nat)
    requires i <= |s|
    ensures i <= r <= |s|
    decreases |s| - i
  {
    if i < |s| && IsWs(s[i]) then SkipWs(s, i + 1) else i
  }

  function SkipDigits(s: seq<Byte>, i: nat): (r: nat)
    requires i <= |s|
    ensures i <= r <= |s|
    decreases |s| - i
  {
    if i < |s| && IsDigit(s[i]) then SkipDigits(s, i + 1) else i
  }

  predicate Peek(s: seq<Byte>, i: nat, b: Byte) { i < |s| && s[i] == b }

  predicate PeekDigit(s: seq<Byte>, i: nat) { i < |s| && IsDigit(s[i]) }

  function Literal(s: seq<Byte>, i: nat, text: seq<Byte>): (r: Scan<()>)
    requires i <= |s|
    ensures r.Done? ==> r.pos == i + |text| <= |s|
  {
    if i + |text| <= |s| && s[i..i + |text|] == text then Done((), i + |text|) else Fail(BadLiteral, i)
  }

  function Consume(s: seq<Byte>, i: nat, b: Byte): (r: Scan<()>)
    requires i <= |s|
    ensures r.Done? ==> i < r.pos <= |s|
  {
    var j := SkipWs(s, i);
    if Peek(s, j, b) then Done((), j + 1) else Fail(ExpectedByte(b), j)
  }

  function HexDigits(s: seq<Byte>, i: nat, count: nat, value: nat): (r: Scan<nat>)
    requires i <= |s|
    ensures r.Done? ==> r.pos == i + count <= |s|
    decreases count
  {
    if count == 0 then Done(value, i)
    else if i == |s| then Fail(BadHex, i)
    else if !IsHex(s[i]) then Fail(BadHex, i + 1)
    else HexDigits(s, i + 1, count - 1, (value * 16 + HexValue(s[i])) % 0x1_0000)
  }

  function HexQuad(s: seq<Byte>, i: nat): (r: Scan<nat>)
    requires i <= |s|
    ensures r.Done? ==> r.pos == i + 4 <= |s|
  {
    HexDigits(s, i, 4, 0)
  }

  function LowHalf(s: seq<Byte>, i: nat, high: nat): (r: Scan<int>)
    requires i <= |s|
    ensures r.Done? ==> i < r.pos <= |s|
  {
    var slash := Consume(s, i, BACKSLASH);
    if slash.Fail? then Fail(slash.detail, slash.at) else
    var letter := Consume(s, slash.pos, LOWER_U);
    if letter.Fail? then Fail(letter.detail, letter.at) else
    var low := HexQuad(s, letter.pos);
    if low.Fail? then Fail(low.detail, low.at)
    else if !LowSurrogate(low.value) then Fail(BadLowSurrogate, low.pos)
    else Done(Combine(high, low.value), low.pos)
  }

  function UnicodeEscape(s: seq<Byte>, i: nat): (r: Scan<seq<Byte>>)
    requires i <= |s|
    ensures r.Done? ==> i < r.pos <= |s|
  {
    var first := HexQuad(s, i);
    if first.Fail? then Fail(first.detail, first.at) else
    if LowSurrogate(first.value) then Fail(LoneLowSurrogate, first.pos) else
    var scalar := if HighSurrogate(first.value) then LowHalf(s, first.pos, first.value)
      else Done(first.value, first.pos);
    if scalar.Fail? then Fail(scalar.detail, scalar.at)
    else if !IsScalar(scalar.value) then Fail(BadScalar, scalar.pos)
    else Done(Encode(scalar.value), scalar.pos)
  }

  // The bytes one escape adds to the output; `i` is just after the backslash.
  function Escape(s: seq<Byte>, i: nat): (r: Scan<seq<Byte>>)
    requires i <= |s|
    ensures r.Done? ==> i < r.pos <= |s|
  {
    if i == |s| then Fail(UnterminatedEscape, i)
    else if ShortEscape(s[i]).Some? then Done([ShortEscape(s[i]).value], i + 1)
    else if s[i] == LOWER_U then UnicodeEscape(s, i + 1)
    else Fail(BadEscape, i + 1)
  }

  function StringBody(s: seq<Byte>, i: nat, output: seq<Byte>): (r: Scan<seq<Byte>>)
    requires i <= |s|
    ensures r.Done? ==> i < r.pos <= |s|
    decreases |s| - i
  {
    if i == |s| then Fail(UnterminatedString, i)
    else if s[i] == QUOTE then
      if IsUtf8(output) then Done(output, i + 1) else Fail(StringNotUtf8, i + 1)
    else if s[i] == BACKSLASH then
      var escape := Escape(s, i + 1);
      if escape.Fail? then Fail(escape.detail, escape.at) else StringBody(s, escape.pos, output + escape.value)
    else if s[i] < 0x20 then Fail(ControlByte, i + 1)
    else StringBody(s, i + 1, output + [s[i]])
  }

  function String(s: seq<Byte>, i: nat): (r: Scan<seq<Byte>>)
    requires i <= |s|
    ensures r.Done? ==> i < r.pos <= |s|
  {
    var open := Consume(s, i, QUOTE);
    if open.Fail? then Fail(open.detail, open.at) else StringBody(s, open.pos, [])
  }

  function IntegerPart(s: seq<Byte>, i: nat): (r: Scan<()>)
    requires i <= |s|
    ensures r.Done? ==> i < r.pos <= |s|
  {
    if Peek(s, i, 0x30) then
      if PeekDigit(s, i + 1) then Fail(LeadingZero, i + 1) else Done((), i + 1)
    else if PeekDigit(s, i) then Done((), SkipDigits(s, i + 1))
    else Fail(BadIntegerPart, i)
  }

  function FractionPart(s: seq<Byte>, i: nat): (r: Scan<()>)
    requires i <= |s|
    ensures r.Done? ==> i <= r.pos <= |s|
  {
    if !Peek(s, i, 0x2E) then Done((), i)
    else if PeekDigit(s, i + 1) then Done((), SkipDigits(s, i + 1))
    else Fail(MissingFraction, i + 1)
  }

  function ExponentPart(s: seq<Byte>, i: nat): (r: Scan<()>)
    requires i <= |s|
    ensures r.Done? ==> i <= r.pos <= |s|
  {
    if !(Peek(s, i, 0x65) || Peek(s, i, 0x45)) then Done((), i)
    else
      var j := if Peek(s, i + 1, 0x2B) || Peek(s, i + 1, 0x2D) then i + 2 else i + 1;
      if PeekDigit(s, j) then Done((), SkipDigits(s, j)) else Fail(MissingExponent, j)
  }

  function NumberText(s: seq<Byte>, i: nat): (r: Scan<seq<Byte>>)
    requires i <= |s|
    ensures r.Done? ==> i < r.pos <= |s|
  {
    var digits := if Peek(s, i, 0x2D) then i + 1 else i;
    var whole := IntegerPart(s, digits);
    if whole.Fail? then Fail(whole.detail, whole.at) else
    var fraction := FractionPart(s, whole.pos);
    if fraction.Fail? then Fail(fraction.detail, fraction.at) else
    var exponent := ExponentPart(s, fraction.pos);
    if exponent.Fail? then Fail(exponent.detail, exponent.at)
    else if !IsUtf8(s[i..exponent.pos]) then Fail(NumberNotUtf8, exponent.pos)
    else Done(s[i..exponent.pos], exponent.pos)
  }

  // ---------- Values ----------

  // What follows a contained value: the closing bracket (true) or a comma (false).
  function Separator(s: seq<Byte>, i: nat, close: Byte): (r: Scan<bool>)
    requires i <= |s|
    ensures r.Done? ==> i < r.pos <= |s|
  {
    var j := SkipWs(s, i);
    if Peek(s, j, close) then Done(true, j + 1) else
    var comma := Consume(s, j, 0x2C);
    if comma.Fail? then Fail(comma.detail, comma.at) else Done(false, comma.pos)
  }

  function Lift<T>(r: Scan<T>, value: Json, nodes: nat): Parse<Json>
  {
    if r.Done? then Parsed(value, r.pos, nodes) else Rejected(r.detail, r.at)
  }

  function ParseValue(s: seq<Byte>, i: nat, nodes: nat, depth: nat): (r: Parse<Json>)
    requires i <= |s|
    ensures r.Parsed? ==> i < r.pos <= |s|
    decreases |s| - i, 2
  {
    if depth > MAX_JSON_DEPTH then Rejected(NestingLimit, i)
    else if nodes + 1 > MAX_JSON_NODES then Rejected(NodeLimit, i)
    else
      var n := nodes + 1;
      var j := SkipWs(s, i);
      if j == |s| then Rejected(ExpectedValue, j)
      else if s[j] == 0x6E then Lift(Literal(s, j, NULL_TEXT), Null, n)
      else if s[j] == 0x74 then Lift(Literal(s, j, TRUE_TEXT), Bool(true), n)
      else if s[j] == 0x66 then Lift(Literal(s, j, FALSE_TEXT), Bool(false), n)
      else if s[j] == QUOTE then
        var text := String(s, j);
        if text.Done? then Parsed(Str(text.value), text.pos, n) else Rejected(text.detail, text.at)
      else if s[j] == 0x5B then
        ParseArray(s, j, n, depth)
      else if s[j] == 0x7B then
        ParseObject(s, j, n, depth)
      else if s[j] == 0x2D || IsDigit(s[j]) then
        var number := NumberText(s, j);
        if number.Done? then Parsed(Number(number.value), number.pos, n) else Rejected(number.detail, number.at)
      else Rejected(ExpectedValue, j)
  }

  function ParseArray(s: seq<Byte>, j: nat, nodes: nat, depth: nat): (r: Parse<Json>)
    requires Peek(s, j, 0x5B)
    ensures r.Parsed? ==> j < r.pos <= |s|
    decreases |s| - j, 1
  {
    var k := SkipWs(s, j + 1);
    if Peek(s, k, 0x5D) then Parsed(Arr([]), k + 1, nodes) else ParseElems(s, k, nodes, depth, [])
  }

  function ParseObject(s: seq<Byte>, j: nat, nodes: nat, depth: nat): (r: Parse<Json>)
    requires Peek(s, j, 0x7B)
    ensures r.Parsed? ==> j < r.pos <= |s|
    decreases |s| - j, 1
  {
    var k := SkipWs(s, j + 1);
    if Peek(s, k, 0x7D) then Parsed(Obj(map[]), k + 1, nodes) else ParseMembers(s, k, nodes, depth, map[])
  }

  function ParseElems(s: seq<Byte>, i: nat, nodes: nat, depth: nat, values: seq<Json>): (r: Parse<Json>)
    requires i <= |s|
    ensures r.Parsed? ==> i < r.pos <= |s|
    decreases |s| - i, 3
  {
    var v := ParseValue(s, i, nodes, depth + 1);
    if v.Rejected? then v else
    var next := Separator(s, v.pos, 0x5D);
    if next.Fail? then Rejected(next.detail, next.at)
    else if next.value then Parsed(Arr(values + [v.value]), next.pos, v.nodes)
    else ParseElems(s, next.pos, v.nodes, depth, values + [v.value])
  }

  function ParseMembers(s: seq<Byte>, i: nat, nodes: nat, depth: nat, fields: map<seq<Byte>, Json>): (r: Parse<Json>)
    requires i <= |s|
    ensures r.Parsed? ==> i < r.pos <= |s|
    decreases |s| - i, 3
  {
    var key := String(s, SkipWs(s, i));
    if key.Fail? then Rejected(key.detail, key.at)
    else if key.value in fields then Rejected(DuplicateKey(key.value), key.pos) else
    var colon := Consume(s, SkipWs(s, key.pos), 0x3A);
    if colon.Fail? then Rejected(colon.detail, colon.at) else
    var v := ParseValue(s, colon.pos, nodes, depth + 1);
    if v.Rejected? then v else
    var next := Separator(s, v.pos, 0x7D);
    if next.Fail? then Rejected(next.detail, next.at)
    else if next.value then Parsed(Obj(fields[key.value := v.value]), next.pos, v.nodes)
    else ParseMembers(s, next.pos, v.nodes, depth, fields[key.value := v.value])
  }

  function ParseText(s: seq<Byte>): Parse<Json>
  {
    var v := ParseValue(s, SkipWs(s, 0), 0, 0);
    if v.Rejected? then v else
    var end := SkipWs(s, v.pos);
    if end == |s| then Parsed(v.value, end, v.nodes) else Rejected(TrailingContent, end)
  }
}
