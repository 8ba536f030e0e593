// The recursive-descent parser: a cursor and a node counter that its methods
// advance.  Every method is proved equal to its function in `JsonSpec`, error
// positions included.
module JsonParser {
  import opened Bytes
  import opened Utf8
  import opened JsonGrammar
  import opened JsonSpec

  class Parser {
    const input: seq<Byte>
    var position: nat
    var nodes: nat

    ghost predicate Valid()
      reads this
    {
      position <= |input|
    }

    // The cursor agrees with the outcome of a scan that leaves `nodes` alone.
    ghost predicate After<T(!new)>(r: Scan<T>)
      reads this
    {
      position == (if r.Done? then r.pos else r.at)
    }

    ghost predicate AfterParse<T(!new)>(r: Parse<T>)
      reads this
    {
      if r.Parsed? then position == r.pos && nodes == r.nodes else position == r.at
    }

    constructor (text: seq<Byte>)
      ensures Valid() && input == text && position == 0 && nodes == 0
    {
      input, position, nodes := text, 0, 0;
    }

    method SkipWhitespace()
      requires Valid()
      modifies this`position
      ensures Valid() && position == SkipWs(input, old(position))
    {
      while position < |input| && IsWs(input[position])
        invariant Valid() && SkipWs(input, position) == SkipWs(input, old(position))
        decreases |input| - position
      {
        position := position + 1;
      }
    }

    method ConsumeDigits()
      requires Valid()
      modifies this`position
      ensures Valid() && position == SkipDigits(input, old(position))
    {
      while position < |input| && IsDigit(input[position])
        invariant Valid() && SkipDigits(input, position) == SkipDigits(input, old(position))
        decreases |input| - position
      {
        position := position + 1;
      }
    }

    method TakeIf(expected: Byte) returns (taken: bool)
      requires Valid()
      modifies this`position
      ensures Valid() && taken == Peek(input, old(position), expected)
      ensures position == old(position) + (if taken then 1 else 0)
    {
      taken := position < |input| && input[position] == expected;
      if taken { position := position + 1; }
    }

    method ConsumeByte(expected: Byte) returns (r: Scan<()>)
      requires Valid()
      modifies this`position
      ensures Valid() && r == Consume(input, old(position), expected) && After(r)
    {
      SkipWhitespace();
      var taken := TakeIf(expected);
      r := if taken then Done((), position) else Fail(ExpectedByte(expected), position);
    }

    method TakeLiteral(text: seq<Byte>) returns (r: Scan<()>)
      requires Valid()
      modifies this`position
      ensures Valid() && r == Literal(input, old(position), text) && After(r)
    {
      if position + |text| <= |input| && input[position..position + |text|] == text {
        position := position + |text|;
        r := Done((), position);
      } else {
        r := Fail(BadLiteral, position);
      }
    }

    method ReadHexQuad() returns (r: Scan<nat>)
      requires Valid()
      modifies this`position
      ensures Valid() && r == HexQuad(input, old(position)) && After(r)
    {
      var value: nat := 0;
      for read := 0 to 4
        invariant Valid() && HexDigits(input, position, 4 - read, value) == HexQuad(input, old(position))
      {
        if position == |input| {
          return Fail(BadHex, position);
        }
        var digit := input[position];
        position := position + 1;
        if !IsHex(digit) {
          return Fail(BadHex, position);
        }
        value := (value * 16 + HexValue(digit)) % 0x1_0000;
      }
      r := Done(value, position);
    }

    // Appends what one escape denotes; the cursor stands after the backslash.
    method ParseEscape(output: seq<Byte>) returns (r: Scan<()>, extended: seq<Byte>)
      requires Valid()
      modifies this`position
      ensures Valid() && After(r)
      ensures var spec := Escape(input, old(position));
        if spec.Done? then r == Done((), spec.pos) && extended == output + spec.value
        else r == Fail(spec.detail, spec.at)
    {
      extended := output;
      if position == |input| {
        return Fail(UnterminatedEscape, position), extended;
      }
      var escaped := input[position];
      position := position + 1;
      if ShortEscape(escaped).Some? {
        return Done((), position), output + [ShortEscape(escaped).value];
      }
      if escaped != LOWER_U {
        return Fail(BadEscape, position), extended;
      }
      var first := ReadHexQuad();
      if first.Fail? {
        return Fail(first.detail, first.at), extended;
      }
      var scalar: int := first.value;
      if HighSurrogate(first.value) {
        var slash := ConsumeByte(BACKSLASH);
        if slash.Fail? { return slash, extended; }
        var letter := ConsumeByte(LOWER_U);
        if letter.Fail? { return letter, extended; }
        var second := ReadHexQuad();
        if second.Fail? { return Fail(second.detail, second.at), extended; }
        if !LowSurrogate(second.value) { return Fail(BadLowSurrogate, position), extended; }
        scalar := Combine(first.value, second.value);
      } else if LowSurrogate(first.value) {
        return Fail(LoneLowSurrogate, position), extended;
      }
      if !IsScalar(scalar) {
        return Fail(BadScalar, position), extended;
      }
      return Done((), position), output + Encode(scalar);
    }

    method ParseString() returns (r: Scan<seq<Byte>>)
      requires Valid()
      modifies this`position
      ensures Valid() && r == String(input, old(position)) && After(r)
    {
      var open := ConsumeByte(QUOTE);
      if open.Fail? { return Fail(open.detail, open.at); }
      var output := [];
      while true
        invariant Valid() && StringBody(input, position, output) == String(input, old(position))
        decreases |input| - position
      {
        if position == |input| { return Fail(UnterminatedString, position); }
        var byte := input[position];
        position := position + 1;
        if byte == QUOTE {
          if IsUtf8(output) { return Done(output, position); }
          return Fail(StringNotUtf8, position);
        } else if byte == BACKSLASH {
          var escape;
          escape, output := ParseEscape(output);
          if escape.Fail? { return Fail(escape.detail, escape.at); }
        } else if byte < 0x20 {
          return Fail(ControlByte, position);
        } else {
          output := output + [byte];
        }
      }
    }

    method TakeInteger() returns (r: Scan<()>)
      requires Valid()
      modifies this`position
      ensures Valid() && r == IntegerPart(input, old(position)) && After(r)
    {
      if position < |input| && input[position] == 0x30 {
        position := position + 1;
        if position < |input| && IsDigit(input[position]) { return Fail(LeadingZero, position); }
      } else if position < |input| && IsDigit(input[position]) {
        ConsumeDigits();
      } else {
        return Fail(BadIntegerPart, position);
      }
      return Done((), position);
    }

    method TakeFraction() returns (r: Scan<()>)
      requires Valid()
      modifies this`position
      ensures Valid() && r == FractionPart(input, old(position)) && After(r)
    {
      var dot := TakeIf(0x2E);
      if dot {
        if !(position < |input| && IsDigit(input[position])) { return Fail(MissingFraction, position); }
        ConsumeDigits();
      }
      return Done((), position);
    }

    method TakeExponent() returns (r: Scan<()>)
      requires Valid()
      modifies this`position
      ensures Valid() && r == ExponentPart(input, old(position)) && After(r)
    {
      if position < |input| && (input[position] == 0x65 || input[position] == 0x45) {
        position := position + 1;
        if position < |input| && (input[position] == 0x2B || input[position] == 0x2D) { position := position + 1; }
        if !(position < |input| && IsDigit(input[position])) { return Fail(MissingExponent, position); }
        ConsumeDigits();
      }
      return Done((), position);
    }

    method ParseNumber() returns (r: Scan<seq<Byte>>)
      requires Valid()
      modifies this`position
      ensures Valid() && r == NumberText(input, old(position)) && After(r)
    {
      var start := position;
      var _ := TakeIf(0x2D);
      var whole := TakeInteger();
      if whole.Fail? { return Fail(whole.detail, whole.at); }
      var fraction := TakeFraction();
      if fraction.Fail? { return Fail(fraction.detail, fraction.at); }
      var exponent := TakeExponent();
      if exponent.Fail? { return Fail(exponent.detail, exponent.at); }
      var lexical := input[start..position];
      if !IsUtf8(lexical) { return Fail(NumberNotUtf8, position); }
      return Done(lexical, position);
    }

    method TakeSeparator(close: Byte) returns (r: Scan<bool>)
      requires Valid()
      modifies this`position
      ensures Valid() && r == Separator(input, old(position), close) && After(r)
    {
      SkipWhitespace();
      var closed := TakeIf(close);
      if closed { return Done(true, position); }
      var comma := ConsumeByte(0x2C);
      r := if comma.Fail? then Fail(comma.detail, comma.at) else Done(false, position);
    }

    method ParseArray(depth: nat) returns (r: Parse<Json>)
      requires Valid() && Peek(input, position, 0x5B)
      modifies this
      ensures Valid() && r == JsonSpec.ParseArray(input, old(position), old(nodes), depth) && AfterParse(r)
      decreases |input| - position, 1
    {
      var _ := ConsumeByte(0x5B);
      SkipWhitespace();
      var values := [];
      var start := position;
      var empty := TakeIf(0x5D);
      if empty { return Parsed(Arr(values), position, nodes); }
      while true
        invariant Valid() && old(position) < position
        invariant ParseElems(input, position, nodes, depth, values) == ParseElems(input, start, old(nodes), depth, [])
        decreases |input| - position
      {
        var value := ParseOne(depth + 1);
        if value.Rejected? { return value; }
        values := values + [value.value];
        var next := TakeSeparator(0x5D);
        if next.Fail? { return Rejected(next.detail, next.at); }
        if next.value { return Parsed(Arr(values), position, nodes); }
      }
    }

    method ParseObject(depth: nat) returns (r: Parse<Json>)
      requires Valid() && Peek(input, position, 0x7B)
      modifies this
      ensures Valid() && r == JsonSpec.ParseObject(input, old(position), old(nodes), depth) && AfterParse(r)
      decreases |input| - position, 1
    {
      var _ := ConsumeByte(0x7B);
      SkipWhitespace();
      var values := map[];
      var start := position;
      var empty := TakeIf(0x7D);
      if empty { return Parsed(Obj(values), position, nodes); }
      while true
        invariant Valid() && old(position) < position
        invariant ParseMembers(input, position, nodes, depth, values)
          == ParseMembers(input, start, old(nodes), depth, map[])
        decreases |input| - position
      {
        SkipWhitespace();
        var key := ParseString();
        if key.Fail? { return Rejected(key.detail, key.at); }
        if key.value in values { return Rejected(DuplicateKey(key.value), position); }
        SkipWhitespace();
        var colon := ConsumeByte(0x3A);
        if colon.Fail? { return Rejected(colon.detail, colon.at); }
        var value := ParseOne(depth + 1);
        if value.Rejected? { return value; }
        values := values[key.value := value.value];
        var next := TakeSeparator(0x7D);
        if next.Fail? { return Rejected(next.detail, next.at); }
        if next.value { return Parsed(Obj(values), position, nodes); }
      }
    }

    // `parse_value`
    method ParseOne(depth: nat) returns (r: Parse<Json>)
      requires Valid()
      modifies this
      ensures Valid() && r == ParseValue(input, old(position), old(nodes), depth) && AfterParse(r)
      decreases |input| - position, 2
    {
      if depth > MAX_JSON_DEPTH { return Rejected(NestingLimit, position); }
      nodes := nodes + 1;
      if nodes > MAX_JSON_NODES { return Rejected(NodeLimit, position); }
      SkipWhitespace();
      if position == |input| { return Rejected(ExpectedValue, position); }
      var first := input[position];
      if first == 0x6E {
        var word := TakeLiteral(NULL_TEXT);
        r := Lift(word, Null, nodes);
      } else if first == 0x74 {
        var word := TakeLiteral(TRUE_TEXT);
        r := Lift(word, Bool(true), nodes);
      } else if first == 0x66 {
        var word := TakeLiteral(FALSE_TEXT);
        r := Lift(word, Bool(false), nodes);
      } else if first == QUOTE {
        var text := ParseString();
        r := if text.Done? then Parsed(Str(text.value), position, nodes) else Rejected(text.detail, text.at);
      } else if first == 0x5B {
        r := ParseArray(depth);
      } else if first == 0x7B {
        r := ParseObject(depth);
      } else if first == 0x2D || IsDigit(first) {
        var number := ParseNumber();
        r := if number.Done? then Parsed(Number(number.value), position, nodes) else Rejected(number.detail, number.at);
      } else {
        r := Rejected(ExpectedValue, position);
      }
    }
  }

  method ParseStrictJson(text: seq<Byte>) returns (r: Parse<Json>)
    ensures r == ParseText(text)
  {
    var parser := new Parser(text);
    parser.SkipWhitespace();
    var value := parser.ParseOne(0);
    if value.Rejected? { return value; }
    parser.SkipWhitespace();
    if parser.position != |parser.input| { return Rejected(TrailingContent, parser.position); }
    return Parsed(value.value, parser.position, value.nodes);
  }
}
