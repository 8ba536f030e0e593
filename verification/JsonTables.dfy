// The tables of RFC 8259 by the characters they are about, and the printer's choice among
// the spellings they allow.
module JsonTables {
  import opened Wrappers
  import opened Bytes
  import opened Utf8
  import opened JsonGrammar
  import opened JsonSpec
  import opened JsonTheorems
  import opened DiagnosticJson

  // Section 2: space, tab, line feed, carriage return.
  lemma WhiteSpace(b: Byte)
    ensures IsWs(b) <==> b == ' ' as int || b == '\t' as int || b == '\n' as int || b == '\r' as int
  {
  }

  // Section 7: what a letter after a backslash stands for.
  const ESCAPES: map<int, int> := map[
    '"' as int := '"' as int,
    '\\' as int := '\\' as int,
    '/' as int := '/' as int,
    'b' as int := '\U{0008}' as int,
    'f' as int := '\U{000C}' as int,
    'n' as int := '\n' as int,
    'r' as int := '\r' as int,
    't' as int := '\t' as int]

  lemma ShortEscapes(letter: Byte)
    ensures ShortEscape(letter).Some? <==> letter in ESCAPES
    ensures letter in ESCAPES ==> ShortEscape(letter) == Some(ESCAPES[letter])
  {
  }

  // Hexadecimal digits, in either case.
  lemma HexDigits(b: Byte)
    ensures IsHex(b) <==>
      ('0' as int <= b <= '9' as int) || ('a' as int <= b <= 'f' as int) || ('A' as int <= b <= 'F' as int)
    ensures 'a' as int <= b <= 'f' as int ==> HexValue(b) == HexValue(b - 32) && HexDigit(HexValue(b)) == b
    ensures '0' as int <= b <= '9' as int ==> HexDigit(HexValue(b)) == b
  {
  }

  lemma Literals()
    ensures NULL_TEXT == Ascii("null") && TRUE_TEXT == Ascii("true") && FALSE_TEXT == Ascii("false")
    ensures CODE == Ascii("code") && SEVERITY == Ascii("severity") && MESSAGE == Ascii("message")
    ensures EVIDENCE == Ascii("evidence")
  {
  }

  // ---------- The shortest spelling ----------

  lemma ItemForIsShortest(item: Item)
    requires ItemOk(item)
    ensures |ItemYield(ItemFor(ItemScalar(item)))| <= |ItemYield(item)|
  {
    if item.Pair? { assert ItemScalar(item) >= 0x1_0000; }
  }

  // Of all spellings of a text, the printer's is as short as any.
  lemma {:induction false} PrintedIsShortest(items: seq<Item>)
    requires ItemsOk(items)
    ensures |ItemsYield(Items(ItemsText(items)))| <= |ItemsYield(items)|
  {
    if items != [] {
      ItemForIsShortest(items[0]);
      PrintedIsShortest(items[1..]);
      var text := ItemsText(items);
      assert text[1..] == ItemsText(items[1..]);
      ItemsYieldStep(text);
      hide ItemFor, ItemYield, ItemOk, ItemScalar;
    }
  }

  // ---------- The limits ----------

  // The most arrays and objects that any value within this one lies in.
  function Depth(c: Cst): nat
  {
    match c
    case CArr(_, elems) => if elems.ENil? then 0 else 1 + ElemsDepth(elems)
    case CObj(_, members) => if members.MNil? then 0 else 1 + MembersDepth(members)
    case _ => 0
  }

  function Max(a: nat, b: nat): nat { if a < b then b else a }

  function ElemsDepth(e: Elems): nat
  {
    if e.ENil? then 0 else Max(Depth(e.value), ElemsDepth(e.rest))
  }

  function MembersDepth(m: Members): nat
  {
    if m.MNil? then 0 else Max(Depth(m.value), MembersDepth(m.rest))
  }

  lemma {:induction false} FitsMeans(c: Cst, room: int)
    ensures Fits(c, room) <==> Depth(c) <= room
  {
    match c
    case CArr(_, elems) => ElemsFitMeans(elems, room - 1);
    case CObj(_, members) => MembersFitMeans(members, room - 1);
    case _ =>
  }

  lemma {:induction false} ElemsFitMeans(e: Elems, room: int)
    ensures ElemsFit(e, room) <==> e.ENil? || ElemsDepth(e) <= room
  {
    if e.ECons? {
      FitsMeans(e.value, room);
      ElemsFitMeans(e.rest, room);
    }
  }

  lemma {:induction false} MembersFitMeans(m: Members, room: int)
    ensures MembersFit(m, room) <==> m.MNil? || MembersDepth(m) <= room
  {
    if m.MCons? {
      FitsMeans(m.value, room);
      MembersFitMeans(m.rest, room);
    }
  }

  // The parser returns a value exactly for the texts that derive one with no repeated key,
  // nothing inside more than 128 arrays and objects, and no more than 100,000 values.
  lemma ParsesExactly(text: seq<Byte>)
    requires IsUtf8(text)
    ensures ParseText(text).Parsed? <==>
      exists before, c, after ::
        JsonText(text, before, c, after) && DistinctKeys(c) && Depth(c) <= 128 && Count(c) <= 100_000
  {
    ParserIsExact(text);
    forall before, c, after | JsonText(text, before, c, after)
      ensures Accepted(c) <==> DistinctKeys(c) && Depth(c) <= 128 && Count(c) <= 100_000
    {
      FitsMeans(c, 128);
      hide IsUtf8, ParseText, JsonText;
    }
  }
}
