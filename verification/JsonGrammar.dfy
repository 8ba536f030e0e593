// The grammar of sections 2 to 7 of RFC 8259, as derivation trees with a yield.
// One production is wider than the RFC's: white space may stand between the two
// halves of a surrogate pair, because the parser's `consume` skips it there.
module JsonGrammar {
  import opened Wrappers
  import opened Bytes
  import opened Utf8

  datatype Json =
    | Null
    | Bool(b: bool)
    | Number(lexeme: seq<Byte>)
    | Str(text: seq<Byte>)
    | Arr(items: seq<Json>)
    | Obj(fields: map<seq<Byte>, Json>)

  // ---------- Characters ----------

  const QUOTE: Byte := 0x22
  const BACKSLASH: Byte := 0x5C
  const LOWER_U: Byte := 0x75

  predicate IsWs(b: Byte) { b == 0x20 || b == 0x0A || b == 0x0D || b == 0x09 }
  predicate IsDigit(b: Byte) { 0x30 <= b <= 0x39 }

  ghost predicate Ws(s: seq<Byte>) { forall k :: 0 <= k < |s| ==> IsWs(s[k]) }
  ghost predicate DigitRun(s: seq<Byte>) { forall k :: 0 <= k < |s| ==> IsDigit(s[k]) }
  ghost predicate AllDigits(s: seq<Byte>) { |s| > 0 && DigitRun(s) }

  // ---------- Section 7: strings ----------

  datatype Quad = Quad(a: Byte, b: Byte, c: Byte, d: Byte)

  predicate IsHex(b: Byte) { IsDigit(b) || 0x61 <= b <= 0x66 || 0x41 <= b <= 0x46 }

  function HexValue(b: Byte): (r: int)
    requires IsHex(b)
    ensures 0 <= r < 16
  {
    if IsDigit(b) then b - 0x30 else if b >= 0x61 then b - 0x61 + 10 else b - 0x41 + 10
  }

  predicate QuadOk(q: Quad) { IsHex(q.a) && IsHex(q.b) && IsHex(q.c) && IsHex(q.d) }

  function QuadValue(q: Quad): (r: int)
    requires QuadOk(q)
    ensures 0 <= r < 0x1_0000
  {
    HexValue(q.a) * 4096 + HexValue(q.b) * 256 + HexValue(q.c) * 16 + HexValue(q.d)
  }

  function QuadYield(q: Quad): seq<Byte> { [q.a, q.b, q.c, q.d] }

  predicate HighSurrogate(v: int) { 0xD800 <= v <= 0xDBFF }
  predicate LowSurrogate(v: int) { 0xDC00 <= v <= 0xDFFF }

  function Combine(high: int, low: int): int
  {
    0x1_0000 + (high - 0xD800) * 1024 + (low - 0xDC00)
  }

  // The two-character escapes, by letter.
  function ShortEscape(letter: Byte): Option<Byte>
  {
    if letter == QUOTE || letter == BACKSLASH || letter == 0x2F then Some(letter)
    else if letter == 0x62 then Some(0x08)
    else if letter == 0x66 then Some(0x0C)
    else if letter == 0x6E then Some(0x0A)
    else if letter == 0x72 then Some(0x0D)
    else if letter == 0x74 then Some(0x09)
    else None
  }

  datatype Item =
    | Raw(c: Scalar)
    | Short(letter: Byte)
    | Unit(quad: Quad)
    | Pair(high: Quad, gap1: seq<Byte>, gap2: seq<Byte>, low: Quad)

  ghost predicate ItemOk(item: Item)
  {
    match item
    case Raw(c) => c >= 0x20 && c != QUOTE && c != BACKSLASH
    case Short(letter) => ShortEscape(letter).Some?
    case Unit(q) => QuadOk(q) && IsScalar(QuadValue(q))
    case Pair(h, gap1, gap2, l) =>
      QuadOk(h) && QuadOk(l) && HighSurrogate(QuadValue(h)) && LowSurrogate(QuadValue(l)) && Ws(gap1) && Ws(gap2)
  }

  function ItemYield(item: Item): seq<Byte>
  {
    match item
    case Raw(c) => Encode(c)
    case Short(letter) => [BACKSLASH, letter]
    case Unit(q) => [BACKSLASH, LOWER_U] + QuadYield(q)
    case Pair(h, gap1, gap2, l) =>
      [BACKSLASH, LOWER_U] + (QuadYield(h) + (gap1 + ([BACKSLASH] + (gap2 + ([LOWER_U] + QuadYield(l))))))
  }

  ghost function ItemScalar(item: Item): Scalar
    requires ItemOk(item)
  {
    match item
    case Raw(c) => c
    case Short(letter) => ShortEscape(letter).value
    case Unit(q) => QuadValue(q)
    case Pair(h, _, _, l) => Combine(QuadValue(h), QuadValue(l))
  }

  ghost predicate ItemsOk(items: seq<Item>) { forall k :: 0 <= k < |items| ==> ItemOk(items[k]) }

  // The yield of the characters and the closing quotation mark.
  function ItemsYield(items: seq<Item>): seq<Byte>
  {
    if items == [] then [QUOTE] else ItemYield(items[0]) + ItemsYield(items[1..])
  }

  ghost function ItemsText(items: seq<Item>): seq<Scalar>
    requires ItemsOk(items)
  {
    if items == [] then [] else [ItemScalar(items[0])] + ItemsText(items[1..])
  }

  // ---------- Section 6: numbers ----------

  datatype Exponent = Exponent(letter: Byte, sign: seq<Byte>, digits: seq<Byte>)

  datatype NumberParts = NumberParts(minus: bool, whole: seq<Byte>, fraction: Option<seq<Byte>>,
    exponent: Option<Exponent>)

  ghost predicate ExponentOk(e: Exponent)
  {
    (e.letter == 0x65 || e.letter == 0x45) && (e.sign == [] || e.sign == [0x2B] || e.sign == [0x2D])
      && AllDigits(e.digits)
  }

  ghost predicate NumberOk(n: NumberParts)
  {
    && AllDigits(n.whole) && (n.whole[0] == 0x30 ==> |n.whole| == 1)
    && (n.fraction.Some? ==> AllDigits(n.fraction.value))
    && (n.exponent.Some? ==> ExponentOk(n.exponent.value))
  }

  function FractionYield(f: Option<seq<Byte>>): seq<Byte> { if f.Some? then [0x2E] + f.value else [] }

  function ExponentYield(e: Option<Exponent>): seq<Byte>
  {
    if e.Some? then [e.value.letter] + (e.value.sign + e.value.digits) else []
  }

  function NumberYield(n: NumberParts): seq<Byte>
  {
    (if n.minus then [0x2D] else []) + (n.whole + (FractionYield(n.fraction) + ExponentYield(n.exponent)))
  }

  // ---------- Sections 2 to 5: values ----------

  datatype Cst =
    | CNull
    | CTrue
    | CFalse
    | CNum(parts: NumberParts)
    | CStr(items: seq<Item>)
    | CArr(blank: seq<Byte>, elems: Elems)
    | CObj(blank: seq<Byte>, members: Members)

  datatype Elems = ENil | ECons(lead: seq<Byte>, value: Cst, trail: seq<Byte>, rest: Elems)

  datatype Members =
    | MNil
    | MCons(lead: seq<Byte>, key: seq<Item>, afterKey: seq<Byte>, beforeValue: seq<Byte>,
            value: Cst, trail: seq<Byte>, rest: Members)

  const NULL_TEXT: seq<Byte> := [0x6E, 0x75, 0x6C, 0x6C]
  const TRUE_TEXT: seq<Byte> := [0x74, 0x72, 0x75, 0x65]
  const FALSE_TEXT: seq<Byte> := [0x66, 0x61, 0x6C, 0x73, 0x65]

  function Yield(c: Cst): seq<Byte>
  {
    match c
    case CNull => NULL_TEXT
    case CTrue => TRUE_TEXT
    case CFalse => FALSE_TEXT
    case CNum(n) => NumberYield(n)
    case CStr(items) => [QUOTE] + ItemsYield(items)
    case CArr(blank, elems) => [0x5B] + (if elems.ENil? then blank + [0x5D] else ElemsYield(elems))
    case CObj(blank, members) => [0x7B] + (if members.MNil? then blank + [0x7D] else MembersYield(members))
  }

  function ElemsYield(e: Elems): seq<Byte>
    requires e.ECons?
    decreases e, 1
  {
    e.lead + ElemsBody(e)
  }

  // The yield after the leading white space, closing bracket included.
  function ElemsBody(e: Elems): seq<Byte>
    requires e.ECons?
    decreases e, 0
  {
    Yield(e.value) + (e.trail + (if e.rest.ENil? then [0x5D] else [0x2C] + ElemsYield(e.rest)))
  }

  function MembersYield(m: Members): seq<Byte>
    requires m.MCons?
    decreases m, 2
  {
    m.lead + MembersBody(m)
  }

  function MembersBody(m: Members): seq<Byte>
    requires m.MCons?
    decreases m, 1
  {
    [QUOTE] + (ItemsYield(m.key) + (m.afterKey + ([0x3A] + (m.beforeValue + MemberRest(m)))))
  }

  // The yield from the member's value on.
  function MemberRest(m: Members): seq<Byte>
    requires m.MCons?
    decreases m, 0
  {
    Yield(m.value) + (m.trail + (if m.rest.MNil? then [0x7D] else [0x2C] + MembersYield(m.rest)))
  }

  ghost predicate Grammatical(c: Cst)
  {
    match c
    case CNull => true
    case CTrue => true
    case CFalse => true
    case CNum(n) => NumberOk(n)
    case CStr(items) => ItemsOk(items)
    case CArr(blank, elems) => Ws(blank) && ElemsOk(elems)
    case CObj(blank, members) => Ws(blank) && MembersOk(members)
  }

  ghost predicate ElemsOk(e: Elems)
  {
    e.ECons? ==> Ws(e.lead) && Grammatical(e.value) && Ws(e.trail) && ElemsOk(e.rest)
  }

  ghost predicate MembersOk(m: Members)
  {
    m.MCons? ==>
      Ws(m.lead) && ItemsOk(m.key) && Ws(m.afterKey) && Ws(m.beforeValue) && Grammatical(m.value) && Ws(m.trail)
      && MembersOk(m.rest)
  }

  // ---------- Meaning, size and admissibility of a derivation ----------

  ghost function Value(c: Cst): Json
    requires Grammatical(c)
  {
    match c
    case CNull => Null
    case CTrue => Bool(true)
    case CFalse => Bool(false)
    case CNum(n) => Number(NumberYield(n))
    case CStr(items) => Str(EncodeAll(ItemsText(items)))
    case CArr(_, elems) => Arr(ElemValues(elems))
    case CObj(_, members) => Obj(MemberValues(members))
  }

  ghost function ElemValues(e: Elems): seq<Json>
    requires ElemsOk(e)
  {
    if e.ENil? then [] else [Value(e.value)] + ElemValues(e.rest)
  }

  ghost function KeyOf(m: Members): seq<Byte>
    requires m.MCons? && MembersOk(m)
  {
    EncodeAll(ItemsText(m.key))
  }

  ghost function MemberValues(m: Members): map<seq<Byte>, Json>
    requires MembersOk(m)
  {
    if m.MNil? then map[] else map[KeyOf(m) := Value(m.value)] + MemberValues(m.rest)
  }

  // Number of JSON values, the value itself included.
  function Count(c: Cst): (r: nat)
    ensures r >= 1
  {
    match c
    case CArr(_, elems) => 1 + ElemsCount(elems)
    case CObj(_, members) => 1 + MembersCount(members)
    case _ => 1
  }

  function ElemsCount(e: Elems): nat { if e.ENil? then 0 else Count(e.value) + ElemsCount(e.rest) }

  function MembersCount(m: Members): nat { if m.MNil? then 0 else Count(m.value) + MembersCount(m.rest) }

  // Every container level inside `c` stays within `room` more levels.
  predicate Fits(c: Cst, room: int)
  {
    room >= 0 &&
    match c
    case CArr(_, elems) => ElemsFit(elems, room - 1)
    case CObj(_, members) => MembersFit(members, room - 1)
    case _ => true
  }

  predicate ElemsFit(e: Elems, room: int) { e.ECons? ==> Fits(e.value, room) && ElemsFit(e.rest, room) }

  predicate MembersFit(m: Members, room: int) { m.MCons? ==> Fits(m.value, room) && MembersFit(m.rest, room) }

  // No object in `c` repeats a decoded key.
  ghost predicate DistinctKeys(c: Cst)
    requires Grammatical(c)
  {
    match c
    case CArr(_, elems) => ElemsDistinct(elems)
    case CObj(_, members) => MembersDistinct(members)
    case _ => true
  }

  ghost predicate ElemsDistinct(e: Elems)
    requires ElemsOk(e)
  {
    e.ECons? ==> DistinctKeys(e.value) && ElemsDistinct(e.rest)
  }

  ghost predicate MembersDistinct(m: Members)
    requires MembersOk(m)
  {
    m.MCons? ==> DistinctKeys(m.value) && KeyOf(m) !in MemberValues(m.rest) && MembersDistinct(m.rest)
  }

  // Section 2: a JSON text is a value between white space.
  ghost predicate JsonText(text: seq<Byte>, before: seq<Byte>, c: Cst, after: seq<Byte>)
  {
    Ws(before) && Grammatical(c) && Ws(after) && text == before + (Yield(c) + after)
  }
}
