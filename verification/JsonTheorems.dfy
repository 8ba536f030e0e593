// The parser accepts exactly the derivable texts whose derivation is admissible
// (nesting, node count, distinct decoded keys), and returns the derivation's
// value and node count.
module JsonTheorems {
  import opened Bytes
  import opened Utf8
  import opened JsonGrammar
  import opened JsonSpec
  import opened JsonLexical

  // A value at nesting `depth`, with `nodes` values already counted.
  ghost predicate Admissible(c: Cst, nodes: nat, depth: nat)
    requires Grammatical(c)
  {
    Fits(c, MAX_JSON_DEPTH - depth) && DistinctKeys(c) && nodes + Count(c) <= MAX_JSON_NODES
  }

  ghost predicate ElemsAdmissible(e: Elems, nodes: nat, depth: nat)
    requires ElemsOk(e)
  {
    ElemsFit(e, MAX_JSON_DEPTH - depth - 1) && ElemsDistinct(e) && nodes + ElemsCount(e) <= MAX_JSON_NODES
  }

  ghost predicate MembersAdmissible(m: Members, nodes: nat, depth: nat, taken: set<seq<Byte>>)
    requires MembersOk(m)
  {
    MembersFit(m, MAX_JSON_DEPTH - depth - 1) && MembersDistinct(m) && nodes + MembersCount(m) <= MAX_JSON_NODES
    && MemberValues(m).Keys !! taken
  }

  const NO_FIELDS: map<seq<Byte>, Json> := map[]

  lemma ArrayUnfold(c: Cst, nodes: nat, depth: nat)
    requires c.CArr? && Grammatical(c) && nodes + 1 <= MAX_JSON_NODES && depth <= MAX_JSON_DEPTH
    ensures ElemsOk(c.elems)
    ensures Admissible(c, nodes, depth) <==> (c.elems.ECons? ==> ElemsAdmissible(c.elems, nodes + 1, depth))
    ensures Value(c) == Arr(if c.elems.ENil? then [] else ElemValues(c.elems))
    ensures Count(c) == 1 + (if c.elems.ENil? then 0 else ElemsCount(c.elems))
  {
    hide Yield, ItemsOk, ItemsText, NumberOk, NumberYield, EncodeAll;
    assert Fits(c, MAX_JSON_DEPTH - depth) <==> ElemsFit(c.elems, MAX_JSON_DEPTH - depth - 1);
    assert DistinctKeys(c) <==> ElemsDistinct(c.elems);
    assert Count(c) == 1 + ElemsCount(c.elems);
    if c.elems.ENil? {
      assert ElemsFit(c.elems, MAX_JSON_DEPTH - depth - 1) && ElemsDistinct(c.elems) && ElemsCount(c.elems) == 0;
    }
  }

  lemma ElemsUnfold(e: Elems, nodes: nat, depth: nat)
    requires e.ECons? && ElemsOk(e) && nodes <= MAX_JSON_NODES
    ensures ElemsOk(e.rest) && (Admissible(e.value, nodes, depth + 1) ==> nodes + Count(e.value) <= MAX_JSON_NODES)
    ensures ElemsAdmissible(e, nodes, depth) <==>
      Admissible(e.value, nodes, depth + 1)
        && (e.rest.ECons? ==> ElemsAdmissible(e.rest, nodes + Count(e.value), depth))
    ensures ElemValues(e) == [Value(e.value)] + (if e.rest.ENil? then [] else ElemValues(e.rest))
    ensures ElemsCount(e) == Count(e.value) + (if e.rest.ENil? then 0 else ElemsCount(e.rest))
  {
    hide Yield, ItemsOk, ItemsText, NumberOk, NumberYield, EncodeAll;
    var room := MAX_JSON_DEPTH - depth - 1;
    assert ElemsFit(e, room) <==> Fits(e.value, room) && ElemsFit(e.rest, room);
    assert ElemsDistinct(e) <==> DistinctKeys(e.value) && ElemsDistinct(e.rest);
    assert ElemsCount(e) == Count(e.value) + ElemsCount(e.rest);
    if e.rest.ENil? {
      assert ElemsFit(e.rest, room) && ElemsDistinct(e.rest) && ElemsCount(e.rest) == 0;
    }
  }

  lemma ObjectUnfold(c: Cst, nodes: nat, depth: nat)
    requires c.CObj? && Grammatical(c) && nodes + 1 <= MAX_JSON_NODES && depth <= MAX_JSON_DEPTH
    ensures MembersOk(c.members)
    ensures Admissible(c, nodes, depth) <==>
      (c.members.MCons? ==> MembersAdmissible(c.members, nodes + 1, depth, NO_FIELDS.Keys))
    ensures Value(c) == Obj(if c.members.MNil? then NO_FIELDS else MemberValues(c.members))
    ensures Count(c) == 1 + (if c.members.MNil? then 0 else MembersCount(c.members))
  {
    hide Yield, ItemsOk, ItemsText, NumberOk, NumberYield, EncodeAll;
    assert Fits(c, MAX_JSON_DEPTH - depth) <==> MembersFit(c.members, MAX_JSON_DEPTH - depth - 1);
    assert DistinctKeys(c) <==> MembersDistinct(c.members);
    assert Count(c) == 1 + MembersCount(c.members);
    if c.members.MNil? {
      assert MembersFit(c.members, MAX_JSON_DEPTH - depth - 1) && MembersDistinct(c.members)
        && MembersCount(c.members) == 0;
    }
  }

  lemma MembersUnfold(m: Members, nodes: nat, depth: nat, taken: set<seq<Byte>>)
    requires m.MCons? && MembersOk(m) && nodes <= MAX_JSON_NODES
    ensures MembersOk(m.rest) && (Admissible(m.value, nodes, depth + 1) ==> nodes + Count(m.value) <= MAX_JSON_NODES)
    ensures MembersAdmissible(m, nodes, depth, taken) <==>
      && KeyOf(m) !in taken && Admissible(m.value, nodes, depth + 1)
      && (m.rest.MCons? ==> MembersAdmissible(m.rest, nodes + Count(m.value), depth, taken + {KeyOf(m)}))
    ensures MemberValues(m) == map[KeyOf(m) := Value(m.value)] + (if m.rest.MNil? then map[] else MemberValues(m.rest))
    ensures MembersCount(m) == Count(m.value) + (if m.rest.MNil? then 0 else MembersCount(m.rest))
    ensures m.rest.MCons? && MembersAdmissible(m.rest, nodes + Count(m.value), depth, taken + {KeyOf(m)}) ==>
      KeyOf(m) !in MemberValues(m.rest)
  {
    hide Yield, ItemsOk, ItemsText, NumberOk, NumberYield, EncodeAll;
    var room := MAX_JSON_DEPTH - depth - 1;
    assert MembersFit(m, room) <==> Fits(m.value, room) && MembersFit(m.rest, room);
    assert MembersDistinct(m) <==>
      DistinctKeys(m.value) && KeyOf(m) !in MemberValues(m.rest) && MembersDistinct(m.rest);
    assert MembersCount(m) == Count(m.value) + MembersCount(m.rest);
    assert MemberValues(m).Keys == MemberValues(m.rest).Keys + {KeyOf(m)};
    if m.rest.MNil? {
      assert MembersFit(m.rest, room) && MembersDistinct(m.rest) && MembersCount(m.rest) == 0
        && MemberValues(m.rest) == map[];
    }
  }

  // ---------- Completeness, with every rejection ----------

  // A separator after a value: white space, then the closing bracket or a comma.
  lemma SeparatorOver(s: seq<Byte>, i: nat, trail: seq<Byte>, close: Byte, mark: Byte)
    requires At(s, i, trail) && Ws(trail) && At(s, i + |trail|, [mark])
    requires (mark == close || mark == 0x2C) && (close == 0x5D || close == 0x7D)
    ensures Separator(s, i, close) == Done(mark == close, i + |trail| + 1)
    ensures Follow(s, i)
  {
    AtIndex(s, i + |trail|, [mark], 0);
    SkipWsOver(s, i, trail);
    SkipWsStays(s, i + |trail|);
    if trail != [] { AtIndex(s, i, trail, 0); }
  }

  lemma SkipWsStays(s: seq<Byte>, i: nat)
    requires i <= |s| && (i < |s| ==> !IsWs(s[i]))
    ensures SkipWs(s, i) == i
  {}

  // The first byte of a value's yield selects its production.
  lemma FirstByte(s: seq<Byte>, i: nat, c: Cst)
    requires Grammatical(c) && At(s, i, Yield(c))
    ensures i < |s| && !IsWs(s[i])
    ensures s[i] == match c
      case CNull => 0x6E case CTrue => 0x74 case CFalse => 0x66
      case CNum(n) => s[i] case CStr(_) => QUOTE case CArr(_, _) => 0x5B case CObj(_, _) => 0x7B
    ensures c.CNum? ==> s[i] == 0x2D || IsDigit(s[i])
  {
    hide At;
    if c.CNum? {
      AtIndex(s, i, Yield(c), 0);
    } else {
      AtIndex(s, i, Yield(c), 0);
    }
  }

  // A value with a bracket, after the limits and the white space.
  lemma ContainerStep(s: seq<Byte>, i: nat, nodes: nat, depth: nat)
    requires i <= |s| && depth <= MAX_JSON_DEPTH && nodes + 1 <= MAX_JSON_NODES
    ensures var j := SkipWs(s, i);
      && (Peek(s, j, 0x5B) ==> ParseValue(s, i, nodes, depth) == ParseArray(s, j, nodes + 1, depth))
      && (Peek(s, j, 0x7B) ==> ParseValue(s, i, nodes, depth) == ParseObject(s, j, nodes + 1, depth))
  {
    hide SkipWs, ParseArray, ParseObject;
  }

  lemma WordOver(s: seq<Byte>, i: nat, c: Cst, nodes: nat, depth: nat)
    requires c.CNull? || c.CTrue? || c.CFalse?
    requires i <= |s| && At(s, SkipWs(s, i), Yield(c)) && depth <= MAX_JSON_DEPTH && nodes + 1 <= MAX_JSON_NODES
    ensures ParseValue(s, i, nodes, depth) == Parsed(Value(c), SkipWs(s, i) + |Yield(c)|, nodes + 1)
  {
    hide At, SkipWs;
    AtText(s, SkipWs(s, i), Yield(c));
    AtIndex(s, SkipWs(s, i), Yield(c), 0);
  }

  // A string or a number, after the limits and the white space.
  lemma LexemeStep(s: seq<Byte>, i: nat, nodes: nat, depth: nat)
    requires i <= |s| && depth <= MAX_JSON_DEPTH && nodes + 1 <= MAX_JSON_NODES
    ensures var j := SkipWs(s, i);
      Peek(s, j, QUOTE) && String(s, j).Done? ==>
        ParseValue(s, i, nodes, depth) == Parsed(Str(String(s, j).value), String(s, j).pos, nodes + 1)
    ensures var j := SkipWs(s, i);
      j < |s| && (s[j] == 0x2D || IsDigit(s[j])) && NumberText(s, j).Done? ==>
        ParseValue(s, i, nodes, depth) == Parsed(Number(NumberText(s, j).value), NumberText(s, j).pos, nodes + 1)
  {
    hide SkipWs, String, NumberText, ParseArray, ParseObject;
  }

  lemma LexemeValue(c: Cst)
    requires Grammatical(c) && (c.CNum? || c.CStr?)
    ensures c.CNum? ==>
      NumberOk(c.parts) && Yield(c) == NumberYield(c.parts) && Value(c) == Number(NumberYield(c.parts))
    ensures c.CStr? ==>
      && ItemsOk(c.items) && Yield(c) == [QUOTE] + ItemsYield(c.items)
      && Value(c) == Str(EncodeAll(ItemsText(c.items)))
  {
    hide ItemsYield, NumberYield, EncodeAll;
  }

  lemma ScalarOver(s: seq<Byte>, i: nat, c: Cst, nodes: nat, depth: nat)
    requires Grammatical(c) && !c.CArr? && !c.CObj?
    requires i <= |s| && At(s, SkipWs(s, i), Yield(c)) && (c.CNum? ==> Follow(s, SkipWs(s, i) + |Yield(c)|))
    requires depth <= MAX_JSON_DEPTH && nodes + 1 <= MAX_JSON_NODES
    ensures ParseValue(s, i, nodes, depth) == Parsed(Value(c), SkipWs(s, i) + |Yield(c)|, nodes + 1)
  {
    hide *;
    var j := SkipWs(s, i);
    if c.CNum? {
      LexemeValue(c);
      NumberOver(s, j, c.parts);
      LexemeStep(s, i, nodes, depth);
    } else if c.CStr? {
      LexemeValue(c);
      AtEmpty(s, j);
      StartsString(s, j, c.items);
      TextOver(s, j, [], c.items);
      LexemeStep(s, i, nodes, depth);
    } else {
      WordOver(s, i, c, nodes, depth);
    }
  }

  lemma StartsString(s: seq<Byte>, j: nat, items: seq<Item>)
    requires At(s, j, [QUOTE] + ItemsYield(items))
    ensures Peek(s, j, QUOTE)
  {
    hide At;
    AtIndex(s, j, [QUOTE] + ItemsYield(items), 0);
  }

  lemma OverLimit(s: seq<Byte>, i: nat, c: Cst, nodes: nat, depth: nat)
    requires Grammatical(c) && i <= |s|
    ensures depth > MAX_JSON_DEPTH || nodes + 1 > MAX_JSON_NODES ==>
      !Admissible(c, nodes, depth) && ParseValue(s, i, nodes, depth).Rejected?
    ensures depth <= MAX_JSON_DEPTH && nodes + 1 <= MAX_JSON_NODES && !c.CArr? && !c.CObj? ==>
      Admissible(c, nodes, depth) && Count(c) == 1
  {}

  // Every derivation decides the parse: an admissible one is accepted with its
  // value and count, an inadmissible one is rejected.
  lemma {:induction false} ValueOver(s: seq<Byte>, i: nat, lead: seq<Byte>, c: Cst, nodes: nat, depth: nat)
    requires Grammatical(c) && Ws(lead) && At(s, i, lead) && At(s, i + |lead|, Yield(c))
    requires c.CNum? ==> Follow(s, i + |lead| + |Yield(c)|)
    ensures i <= |s|
    ensures if Admissible(c, nodes, depth)
      then ParseValue(s, i, nodes, depth) == Parsed(Value(c), i + |lead| + |Yield(c)|, nodes + Count(c))
      else ParseValue(s, i, nodes, depth).Rejected?
    decreases c, 1
  {
    hide *;
    AtBound(s, i, lead);
    OverLimit(s, i, c, nodes, depth);
    if depth <= MAX_JSON_DEPTH && nodes + 1 <= MAX_JSON_NODES {
      FirstByte(s, i + |lead|, c);
      SkipWsOver(s, i, lead);
      match c
      case CArr(_, _) =>
        ArrayOver(s, i + |lead|, c, nodes + 1, depth);
        ContainerStep(s, i, nodes, depth);
      case CObj(_, _) =>
        ObjectOver(s, i + |lead|, c, nodes + 1, depth);
        ContainerStep(s, i, nodes, depth);
      case _ =>
        ScalarOver(s, i, c, nodes, depth);
    }
  }

  lemma TextOver(s: seq<Byte>, i: nat, lead: seq<Byte>, items: seq<Item>)
    requires ItemsOk(items) && Ws(lead) && At(s, i, lead) && At(s, i + |lead|, [QUOTE] + ItemsYield(items))
    ensures i <= |s|
    ensures String(s, i) == Done(EncodeAll(ItemsText(items)), i + |lead| + 1 + |ItemsYield(items)|)
  {
    hide At;
    AtBound(s, i, lead);
    AtConcat(s, i + |lead|, [QUOTE], ItemsYield(items));
    ConsumeOver(s, i, lead, QUOTE);
    StringOver(s, i + |lead| + 1, items, []);
    assert [] + ItemsText(items) == ItemsText(items);
  }

  lemma StartsArray(s: seq<Byte>, k: nat, e: Elems)
    requires e.ECons? && ElemsOk(e) && At(s, k, ElemsBody(e))
    ensures k < |s| && !IsWs(s[k]) && s[k] != 0x5D && !Peek(s, k, 0x5D)
  {
    hide At;
    AtConcat(s, k, Yield(e.value), e.trail + (if e.rest.ENil? then [0x5D] else [0x2C] + ElemsYield(e.rest)));
    FirstByte(s, k, e.value);
  }

  lemma StartsObject(s: seq<Byte>, k: nat, m: Members)
    requires m.MCons? && MembersOk(m) && At(s, k, MembersBody(m))
    ensures k < |s| && s[k] == QUOTE && !Peek(s, k, 0x7D) && !IsWs(s[k])
  {
    hide At;
    AtIndex(s, k, MembersBody(m), 0);
  }

  lemma ArrayStep(s: seq<Byte>, j: nat, n: nat, depth: nat)
    requires Peek(s, j, 0x5B)
    ensures var k := SkipWs(s, j + 1);
      ParseArray(s, j, n, depth) ==
      if Peek(s, k, 0x5D) then Parsed(Arr([]), k + 1, n) else ParseElems(s, k, n, depth, [])
  {
    hide SkipWs, ParseElems;
  }

  lemma ObjectStep(s: seq<Byte>, j: nat, n: nat, depth: nat)
    requires Peek(s, j, 0x7B)
    ensures var k := SkipWs(s, j + 1);
      ParseObject(s, j, n, depth) ==
      if Peek(s, k, 0x7D) then Parsed(Obj(NO_FIELDS), k + 1, n) else ParseMembers(s, k, n, depth, NO_FIELDS)
    ensures NO_FIELDS == map[]
  {
    hide SkipWs, ParseMembers;
  }

  lemma BracketAt(s: seq<Byte>, j: nat, b: Byte)
    requires j < |s| && b > 0x39
    ensures Peek(s, j, b) <==> s[j] == b
    ensures !IsWs(b)
  {}

  lemma ArrayShape(c: Cst)
    requires c.CArr? && Grammatical(c)
    ensures Ws(c.blank) && (c.elems.ENil? ==> Yield(c) == [0x5B] + (c.blank + [0x5D]))
    ensures !c.elems.ENil? ==> Ws(c.elems.lead) && Yield(c) == [0x5B] + (c.elems.lead + ElemsBody(c.elems))
    ensures ElemsOk(c.elems)
  {
    hide ElemsBody;
  }

  // The bracket and white space that open a container.
  lemma OpenArray(s: seq<Byte>, j: nat, c: Cst)
    requires c.CArr? && Grammatical(c) && At(s, j, Yield(c))
    ensures Peek(s, j, 0x5B)
    ensures var k := SkipWs(s, j + 1);
      if c.elems.ENil? then Peek(s, k, 0x5D) && k + 1 == j + |Yield(c)|
      else
        && !Peek(s, k, 0x5D) && k == j + 1 + |c.elems.lead|
        && At(s, k, ElemsBody(c.elems)) && k + |ElemsBody(c.elems)| == j + |Yield(c)|
  {
    hide *;
    ArrayShape(c);
    AtIndex(s, j, Yield(c), 0);
    BracketAt(s, j, 0x5B);
    if c.elems.ENil? {
      AtConcat(s, j, [0x5B], c.blank + [0x5D]);
      AtConcat(s, j + 1, c.blank, [0x5D]);
      AtIndex(s, j + 1 + |c.blank|, [0x5D], 0);
      BracketAt(s, j + 1 + |c.blank|, 0x5D);
      SkipWsOver(s, j + 1, c.blank);
    } else {
      AtConcat(s, j, [0x5B], c.elems.lead + ElemsBody(c.elems));
      AtConcat(s, j + 1, c.elems.lead, ElemsBody(c.elems));
      StartsArray(s, j + 1 + |c.elems.lead|, c.elems);
      SkipWsOver(s, j + 1, c.elems.lead);
    }
  }

  lemma {:induction false} ArrayOver(s: seq<Byte>, j: nat, c: Cst, n: nat, depth: nat)
    requires c.CArr? && Grammatical(c) && At(s, j, Yield(c)) && 1 <= n <= MAX_JSON_NODES && depth <= MAX_JSON_DEPTH
    ensures Peek(s, j, 0x5B)
    ensures var r := ParseArray(s, j, n, depth);
      if Admissible(c, n - 1, depth) then r == Parsed(Value(c), j + |Yield(c)|, n - 1 + Count(c)) else r.Rejected?
    decreases c, 0
  {
    hide *;
    ArrayUnfold(c, n - 1, depth);
    OpenArray(s, j, c);
    ArrayStep(s, j, n, depth);
    if c.elems.ECons? {
      var k := j + 1 + |c.elems.lead|;
      AtEmpty(s, k);
      ElemsOver(s, k, [], c.elems, n, depth, []);
      assert [] + ElemValues(c.elems) == ElemValues(c.elems);
    }
  }

  lemma AtEmpty(s: seq<Byte>, i: nat)
    requires i <= |s|
    ensures At(s, i, []) && Ws([])
  {}

  lemma {:induction false} ElemsOver(s: seq<Byte>, i: nat, lead: seq<Byte>, e: Elems, nodes: nat, depth: nat,
    values: seq<Json>)
    requires e.ECons? && ElemsOk(e) && Ws(lead) && At(s, i, lead) && At(s, i + |lead|, ElemsBody(e))
    requires nodes <= MAX_JSON_NODES
    ensures i <= |s|
    ensures var r := ParseElems(s, i, nodes, depth, values);
      if ElemsAdmissible(e, nodes, depth)
      then r == Parsed(Arr(values + ElemValues(e)), i + |lead| + |ElemsBody(e)|, nodes + ElemsCount(e))
      else r.Rejected?
    decreases e, 0
  {
    hide At, Admissible, ElemsAdmissible, MembersAdmissible, Value, ElemValues, MemberValues, Count, ElemsCount;
    hide MembersCount, ParseValue, Separator;
    ElemsUnfold(e, nodes, depth);
    AtBound(s, i, lead);
    var close: seq<Byte> := if e.rest.ENil? then [0x5D] else [0x2C] + ElemsYield(e.rest);
    var j := i + |lead|;
    AtConcat(s, j, Yield(e.value), e.trail + close);
    var t := j + |Yield(e.value)|;
    AtConcat(s, t, e.trail, close);
    var b := t + |e.trail|;
    if e.rest.ECons? {
      AtConcat(s, b, [0x2C], ElemsYield(e.rest));
      AtConcat(s, b + 1, e.rest.lead, ElemsBody(e.rest));
    }
    SeparatorOver(s, t, e.trail, 0x5D, close[0]);
    ValueOver(s, i, lead, e.value, nodes, depth + 1);
    if Admissible(e.value, nodes, depth + 1) {
      var all := values + [Value(e.value)];
      if e.rest.ECons? {
        ElemsOver(s, b + 1, e.rest.lead, e.rest, nodes + Count(e.value), depth, all);
        assert all + ElemValues(e.rest) == values + ElemValues(e);
      } else {
        assert values + ElemValues(e) == all;
      }
    }
  }

  lemma ObjectShape(c: Cst)
    requires c.CObj? && Grammatical(c)
    ensures Ws(c.blank) && (c.members.MNil? ==> Yield(c) == [0x7B] + (c.blank + [0x7D]))
    ensures !c.members.MNil? ==> Ws(c.members.lead) && Yield(c) == [0x7B] + (c.members.lead + MembersBody(c.members))
    ensures MembersOk(c.members)
  {
    hide MembersBody;
  }

  // The bracket and white space that open a container.
  lemma OpenObject(s: seq<Byte>, j: nat, c: Cst)
    requires c.CObj? && Grammatical(c) && At(s, j, Yield(c))
    ensures Peek(s, j, 0x7B)
    ensures var k := SkipWs(s, j + 1);
      if c.members.MNil? then Peek(s, k, 0x7D) && k + 1 == j + |Yield(c)|
      else
        && !Peek(s, k, 0x7D) && k == j + 1 + |c.members.lead|
        && At(s, k, MembersBody(c.members)) && k + |MembersBody(c.members)| == j + |Yield(c)|
  {
    hide *;
    ObjectShape(c);
    AtIndex(s, j, Yield(c), 0);
    BracketAt(s, j, 0x7B);
    if c.members.MNil? {
      AtConcat(s, j, [0x7B], c.blank + [0x7D]);
      AtConcat(s, j + 1, c.blank, [0x7D]);
      AtIndex(s, j + 1 + |c.blank|, [0x7D], 0);
      BracketAt(s, j + 1 + |c.blank|, 0x7D);
      SkipWsOver(s, j + 1, c.blank);
    } else {
      AtConcat(s, j, [0x7B], c.members.lead + MembersBody(c.members));
      AtConcat(s, j + 1, c.members.lead, MembersBody(c.members));
      StartsObject(s, j + 1 + |c.members.lead|, c.members);
      SkipWsOver(s, j + 1, c.members.lead);
    }
  }

  lemma {:induction false} ObjectOver(s: seq<Byte>, j: nat, c: Cst, n: nat, depth: nat)
    requires c.CObj? && Grammatical(c) && At(s, j, Yield(c)) && 1 <= n <= MAX_JSON_NODES && depth <= MAX_JSON_DEPTH
    ensures Peek(s, j, 0x7B)
    ensures var r := ParseObject(s, j, n, depth);
      if Admissible(c, n - 1, depth) then r == Parsed(Value(c), j + |Yield(c)|, n - 1 + Count(c)) else r.Rejected?
    decreases c, 0
  {
    hide *;
    ObjectUnfold(c, n - 1, depth);
    OpenObject(s, j, c);
    ObjectStep(s, j, n, depth);
    if c.members.MCons? {
      var k := j + 1 + |c.members.lead|;
      AtEmpty(s, k);
      MembersOver(s, k, [], c.members, n, depth, NO_FIELDS);
      assert NO_FIELDS + MemberValues(c.members) == MemberValues(c.members);
    }
  }

  lemma KeyOver(s: seq<Byte>, i: nat, lead: seq<Byte>, m: Members)
    requires m.MCons? && MembersOk(m) && Ws(lead) && At(s, i, lead) && At(s, i + |lead|, MembersBody(m))
    ensures i <= |s|
    ensures var k := i + |lead| + 1 + |ItemsYield(m.key)|;
      && String(s, SkipWs(s, i)) == Done(KeyOf(m), k) && k <= |s|
      && Ws(m.afterKey) && At(s, k, m.afterKey + ([0x3A] + (m.beforeValue + MemberRest(m))))
      && |MembersBody(m)| == 1 + |ItemsYield(m.key)| + |m.afterKey| + 1 + |m.beforeValue| + |MemberRest(m)|
  {
    hide At, MemberRest;
    AtBound(s, i, lead);
    var j := i + |lead|;
    var tail := m.afterKey + ([0x3A] + (m.beforeValue + MemberRest(m)));
    AtConcat(s, j, [QUOTE], ItemsYield(m.key) + tail);
    AtIndex(s, j, [QUOTE], 0);
    SkipWsOver(s, i, lead);
    AtConcat(s, j + 1, ItemsYield(m.key), tail);
    AtConcat(s, j, [QUOTE], ItemsYield(m.key));
    AtBound(s, j + 1 + |ItemsYield(m.key)|, tail);
    AtEmpty(s, j);
    TextOver(s, j, [], m.key);
  }

  lemma ColonOver(s: seq<Byte>, k: nat, gap: seq<Byte>, before: seq<Byte>, rest: seq<Byte>)
    requires Ws(gap) && At(s, k, gap + ([0x3A] + (before + rest)))
    ensures k <= |s| && Consume(s, SkipWs(s, k), 0x3A) == Done((), k + |gap| + 1)
    ensures At(s, k + |gap| + 1, before) && At(s, k + |gap| + 1 + |before|, rest)
  {
    hide At;
    AtBound(s, k, gap + ([0x3A] + (before + rest)));
    AtConcat(s, k, gap, [0x3A] + (before + rest));
    AtConcat(s, k + |gap|, [0x3A], before + rest);
    AtConcat(s, k + |gap| + 1, before, rest);
    AtIndex(s, k + |gap|, [0x3A], 0);
    SkipWsOver(s, k, gap);
    SkipWsStays(s, k + |gap|);
  }

  lemma MemberTail(s: seq<Byte>, j: nat, m: Members)
    requires m.MCons? && MembersOk(m) && At(s, j, MemberRest(m))
    ensures MembersOk(m.rest) && (m.rest.MCons? ==> Ws(m.rest.lead)) && Grammatical(m.value) && Ws(m.beforeValue)
    ensures At(s, j, Yield(m.value)) && Follow(s, j + |Yield(m.value)|)
    ensures var t := j + |Yield(m.value)|;
      var b := t + |m.trail|;
      && Separator(s, t, 0x7D) == Done(m.rest.MNil?, b + 1) && b + 1 <= |s| &&
      if m.rest.MNil? then |MemberRest(m)| == b + 1 - j
      else
        && At(s, b + 1, m.rest.lead) && At(s, b + 1 + |m.rest.lead|, MembersBody(m.rest))
        && |MemberRest(m)| == b + 1 - j + |m.rest.lead| + |MembersBody(m.rest)|
  {
    hide At, Separator, Yield, MembersBody;
    var close: seq<Byte> := if m.rest.MNil? then [0x7D] else [0x2C] + MembersYield(m.rest);
    AtConcat(s, j, Yield(m.value), m.trail + close);
    var t := j + |Yield(m.value)|;
    AtConcat(s, t, m.trail, close);
    var b := t + |m.trail|;
    AtBound(s, b, close);
    if m.rest.MCons? {
      AtConcat(s, b, [0x2C], MembersYield(m.rest));
      AtConcat(s, b + 1, m.rest.lead, MembersBody(m.rest));
    }
    SeparatorOver(s, t, m.trail, 0x7D, close[0]);
  }

  // One turn of the member loop, once the key and the colon are read.
  lemma MembersStep(s: seq<Byte>, i: nat, nodes: nat, depth: nat, fields: map<seq<Byte>, Json>, key: seq<Byte>,
    colon: nat)
    requires i <= |s| && String(s, SkipWs(s, i)).Done? && String(s, SkipWs(s, i)).value == key
    requires Consume(s, SkipWs(s, String(s, SkipWs(s, i)).pos), 0x3A) == Done((), colon)
    ensures colon <= |s|
    ensures var r := ParseMembers(s, i, nodes, depth, fields);
      var v := ParseValue(s, colon, nodes, depth + 1);
      if key in fields || v.Rejected? then r.Rejected?
      else
        var next := Separator(s, v.pos, 0x7D);
        if next.Fail? then r.Rejected?
        else if next.value then r == Parsed(Obj(fields[key := v.value]), next.pos, v.nodes)
        else r == ParseMembers(s, next.pos, v.nodes, depth, fields[key := v.value])
  {
    hide SkipWs, String, Consume, Separator, ParseValue;
  }

  lemma {:induction false} MembersOver(s: seq<Byte>, i: nat, lead: seq<Byte>, m: Members, nodes: nat, depth: nat,
                                       fields: map<seq<Byte>, Json>)
    requires m.MCons? && MembersOk(m) && Ws(lead) && At(s, i, lead) && At(s, i + |lead|, MembersBody(m))
    requires nodes <= MAX_JSON_NODES
    ensures i <= |s|
    ensures var r := ParseMembers(s, i, nodes, depth, fields);
      if MembersAdmissible(m, nodes, depth, fields.Keys)
      then r == Parsed(Obj(fields + MemberValues(m)), i + |lead| + |MembersBody(m)|, nodes + MembersCount(m))
      else r.Rejected?
    decreases m, 0
  {
    hide *;
    MembersUnfold(m, nodes, depth, fields.Keys);
    KeyOver(s, i, lead, m);
    ColonOver(s, i + |lead| + 1 + |ItemsYield(m.key)|, m.afterKey, m.beforeValue, MemberRest(m));
    var colon := i + |lead| + 1 + |ItemsYield(m.key)| + |m.afterKey| + 1;
    var t := colon + |m.beforeValue| + |Yield(m.value)|;
    var b := t + |m.trail|;
    MemberTail(s, colon + |m.beforeValue|, m);
    MembersStep(s, i, nodes, depth, fields, KeyOf(m), colon);
    ValueOver(s, colon, m.beforeValue, m.value, nodes, depth + 1);
    if KeyOf(m) !in fields && Admissible(m.value, nodes, depth + 1) {
      var all := fields[KeyOf(m) := Value(m.value)];
      if m.rest.MCons? {
        MembersOver(s, b + 1, m.rest.lead, m.rest, nodes + Count(m.value), depth, all);
        assert all.Keys == fields.Keys + {KeyOf(m)};
        if MembersAdmissible(m.rest, nodes + Count(m.value), depth, all.Keys) {
          assert all + MemberValues(m.rest) == fields + MemberValues(m);
        }
      } else {
        assert fields + MemberValues(m) == all;
      }
    }
  }

  // ---------- Soundness ----------

  predicate EncodingError(d: Detail) { d == StringNotUtf8 || d == BadScalar || d == NumberNotUtf8 }

  lemma StringIsYield(s: seq<Byte>, i: nat) returns (lead: seq<Byte>, items: seq<Item>)
    requires i <= |s| && IsUtf8(s)
    ensures var r := String(s, i);
      if r.Fail? then !EncodingError(r.detail)
      else
        && Ws(lead) && At(s, i, lead) && ItemsOk(items) && At(s, i + |lead|, [QUOTE] + ItemsYield(items))
        && r.pos == i + |lead| + 1 + |ItemsYield(items)|
  {
    hide At, IsUtf8From;
    lead, items := [], [];
    var open := Consume(s, i, QUOTE);
    if open.Done? {
      lead := ConsumeTakes(s, i, QUOTE);
      AtIndex(s, i + |lead|, [QUOTE], 0);
      Utf8Start(s);
      AsciiEndsScalar(s, 0, i + |lead|);
      items := StringTakes(s, open.pos, []);
      if String(s, i).Done? { AtConcat(s, i + |lead|, [QUOTE], ItemsYield(items)); }
    }
  }

  lemma Utf8Start(s: seq<Byte>)
    requires IsUtf8(s)
    ensures IsUtf8From(s, 0)
  {}

  // A parsed value is the yield of a derivation after white space, and on valid
  // UTF-8 input no parse ends in one of the three encoding errors.
  lemma {:induction false} ValueTakes(s: seq<Byte>, i: nat, nodes: nat, depth: nat) returns (lead: seq<Byte>, c: Cst)
    requires i <= |s| && IsUtf8(s)
    ensures var r := ParseValue(s, i, nodes, depth);
      if r.Rejected? then !EncodingError(r.detail)
      else
        && Ws(lead) && At(s, i, lead) && Grammatical(c) && At(s, i + |lead|, Yield(c))
        && r.pos == i + |lead| + |Yield(c)|
    decreases |s| - i, 2
  {
    hide At, IsUtf8, SkipWs, String, NumberText, ParseArray, ParseObject;
    c := CNull;
    var j := SkipWs(s, i);
    lead := s[i..j];
    SkipWsTakes(s, i);
    AtSlice(s, i, j);
    if j < |s| && depth <= MAX_JSON_DEPTH && nodes + 1 <= MAX_JSON_NODES {
      if s[j] == 0x6E {
        LiteralTakes(s, j, NULL_TEXT);
      } else if s[j] == 0x74 {
        c := CTrue;
        LiteralTakes(s, j, TRUE_TEXT);
      } else if s[j] == 0x66 {
        c := CFalse;
        LiteralTakes(s, j, FALSE_TEXT);
      } else if s[j] == QUOTE {
        c := QuotedTakes(s, j);
      } else if s[j] == 0x5B {
        c := ArrayTakes(s, j, nodes + 1, depth);
      } else if s[j] == 0x7B {
        c := ObjectTakes(s, j, nodes + 1, depth);
      } else if s[j] == 0x2D || IsDigit(s[j]) {
        var n := NumberTakes(s, j);
        c := CNum(n);
      }
    }
  }

  lemma LiteralTakes(s: seq<Byte>, j: nat, text: seq<Byte>)
    requires j <= |s|
    ensures Literal(s, j, text).Done? ==> At(s, j, text)
    ensures Literal(s, j, text).Fail? ==> !EncodingError(Literal(s, j, text).detail)
  {}

  lemma QuotedTakes(s: seq<Byte>, j: nat) returns (c: Cst)
    requires Peek(s, j, QUOTE) && IsUtf8(s)
    ensures var r := String(s, j);
      if r.Fail? then !EncodingError(r.detail)
      else Grammatical(c) && At(s, j, Yield(c)) && r.pos == j + |Yield(c)|
  {
    hide At, IsUtf8, String, Ws;
    var lead, items := StringIsYield(s, j);
    c := CStr(items);
    if String(s, j).Done? { NoLead(s, j, lead); }
  }

  lemma NoLead(s: seq<Byte>, j: nat, lead: seq<Byte>)
    requires j < |s| && !IsWs(s[j]) && Ws(lead) && At(s, j, lead)
    ensures lead == []
  {
    if lead != [] { AtIndex(s, j, lead, 0); }
  }

  // What an accepted separator read.
  lemma SeparatorTakes(s: seq<Byte>, i: nat, close: Byte) returns (trail: seq<Byte>)
    requires i <= |s|
    ensures var r := Separator(s, i, close);
      if r.Fail? then !EncodingError(r.detail)
      else
        && Ws(trail) && At(s, i, trail) && r.pos == i + |trail| + 1
        && At(s, i + |trail|, [if r.value then close else 0x2C])
  {
    hide At;
    var j := SkipWs(s, i);
    trail := s[i..j];
    SkipWsTakes(s, i);
    AtSlice(s, i, j);
    SkipWsStays(s, j);
    if j < |s| { AtOne(s, j); }
  }

  lemma {:induction false} ArrayTakes(s: seq<Byte>, j: nat, nodes: nat, depth: nat) returns (c: Cst)
    requires Peek(s, j, 0x5B) && IsUtf8(s)
    ensures var r := ParseArray(s, j, nodes, depth);
      if r.Rejected? then !EncodingError(r.detail)
      else Grammatical(c) && At(s, j, Yield(c)) && r.pos == j + |Yield(c)|
    decreases |s| - j, 1
  {
    hide At, IsUtf8, SkipWs, ParseElems, ElemsBody;
    c := CNull;
    var k := SkipWs(s, j + 1);
    var blank := s[j + 1..k];
    SkipWsTakes(s, j + 1);
    AtSlice(s, j + 1, k);
    AtOne(s, j);
    if Peek(s, k, 0x5D) {
      c := CArr(blank, ENil);
      AtOne(s, k);
      AtConcat(s, j + 1, blank, [0x5D]);
      AtConcat(s, j, [0x5B], blank + [0x5D]);
    } else {
      var e := ElemsTakes(s, k, nodes, depth, []);
      if ParseElems(s, k, nodes, depth, []).Parsed? {
        c := CArr([], WithLead(s, j + 1, blank, e));
        AtConcat(s, j, [0x5B], ElemsYield(c.elems));
      }
    }
  }

  ghost function WithLead(s: seq<Byte>, i: nat, blank: seq<Byte>, e: Elems): (r: Elems)
    requires e.ECons? && ElemsOk(e) && Ws(blank) && At(s, i, blank) && At(s, i + |blank|, ElemsYield(e))
    ensures r.ECons? && ElemsOk(r) && At(s, i, ElemsYield(r)) && |ElemsYield(r)| == |blank| + |ElemsYield(e)|
  {
    hide At, Yield;
    AtConcat(s, i + |blank|, e.lead, ElemsBody(e));
    AtConcat(s, i, blank, e.lead);
    AtConcat(s, i, blank + e.lead, ElemsBody(e));
    e.(lead := blank + e.lead)
  }

  lemma {:induction false} ElemsTakes(s: seq<Byte>, i: nat, nodes: nat, depth: nat, values: seq<Json>)
    returns (e: Elems)
    requires i <= |s| && IsUtf8(s)
    ensures var r := ParseElems(s, i, nodes, depth, values);
      if r.Rejected? then !EncodingError(r.detail)
      else e.ECons? && ElemsOk(e) && At(s, i, ElemsYield(e)) && r.pos == i + |ElemsYield(e)|
    decreases |s| - i, 3
  {
    hide At, IsUtf8, ParseValue, Separator, Yield;
    e := ENil;
    var v := ParseValue(s, i, nodes, depth + 1);
    var lead, c := ValueTakes(s, i, nodes, depth + 1);
    if v.Parsed? {
      var next := Separator(s, v.pos, 0x5D);
      var trail := SeparatorTakes(s, v.pos, 0x5D);
      if next.Done? {
        var close: seq<Byte> := [0x5D];
        if next.value {
          e := ECons(lead, c, trail, ENil);
        } else {
          var rest := ElemsTakes(s, next.pos, v.nodes, depth, values + [v.value]);
          if ParseElems(s, next.pos, v.nodes, depth, values + [v.value]).Rejected? { return; }
          e := ECons(lead, c, trail, rest);
          AtConcat(s, v.pos + |trail|, [0x2C], ElemsYield(rest));
          close := [0x2C] + ElemsYield(rest);
        }
        AtConcat(s, v.pos, trail, close);
        AtConcat(s, i + |lead|, Yield(c), trail + close);
        AtConcat(s, i, lead, ElemsBody(e));
      }
    }
  }

  lemma {:induction false} ObjectTakes(s: seq<Byte>, j: nat, nodes: nat, depth: nat) returns (c: Cst)
    requires Peek(s, j, 0x7B) && IsUtf8(s)
    ensures var r := ParseObject(s, j, nodes, depth);
      if r.Rejected? then !EncodingError(r.detail)
      else Grammatical(c) && At(s, j, Yield(c)) && r.pos == j + |Yield(c)|
    decreases |s| - j, 1
  {
    hide At, IsUtf8, SkipWs, ParseMembers, MembersBody;
    c := CNull;
    var k := SkipWs(s, j + 1);
    var blank := s[j + 1..k];
    SkipWsTakes(s, j + 1);
    AtSlice(s, j + 1, k);
    AtOne(s, j);
    if Peek(s, k, 0x7D) {
      c := CObj(blank, MNil);
      AtOne(s, k);
      AtConcat(s, j + 1, blank, [0x7D]);
      AtConcat(s, j, [0x7B], blank + [0x7D]);
    } else {
      var m := MembersTakes(s, k, nodes, depth, map[]);
      if ParseMembers(s, k, nodes, depth, map[]).Parsed? {
        c := CObj([], WithMemberLead(s, j + 1, blank, m));
        AtConcat(s, j, [0x7B], MembersYield(c.members));
      }
    }
  }

  ghost function WithMemberLead(s: seq<Byte>, i: nat, blank: seq<Byte>, m: Members): (r: Members)
    requires m.MCons? && MembersOk(m) && Ws(blank) && At(s, i, blank) && At(s, i + |blank|, MembersYield(m))
    ensures r.MCons? && MembersOk(r) && At(s, i, MembersYield(r)) && |MembersYield(r)| == |blank| + |MembersYield(m)|
  {
    MemberLeadMoves(s, i, blank, m);
    m.(lead := blank + m.lead)
  }

  lemma MemberLeadMoves(s: seq<Byte>, i: nat, blank: seq<Byte>, m: Members)
    requires m.MCons? && MembersOk(m) && Ws(blank) && At(s, i, blank) && At(s, i + |blank|, MembersYield(m))
    ensures var r := m.(lead := blank + m.lead);
      MembersOk(r) && At(s, i, MembersYield(r)) && |MembersYield(r)| == |blank| + |MembersYield(m)|
  {
    var r := m.(lead := blank + m.lead);
    MemberLeadOnly(blank, m);
    hide At, Yield, ItemsYield, MembersBody, MembersYield;
    AtConcat(s, i + |blank|, m.lead, MembersBody(m));
    AtConcat(s, i, blank, m.lead);
    AtConcat(s, i, blank + m.lead, MembersBody(m));
  }

  lemma MemberLeadOnly(blank: seq<Byte>, m: Members)
    requires m.MCons? && MembersOk(m) && Ws(blank)
    ensures var r := m.(lead := blank + m.lead);
      && MembersOk(r) && MembersBody(r) == MembersBody(m)
      && MembersYield(r) == r.lead + MembersBody(r) && MembersYield(m) == m.lead + MembersBody(m)
  {
    hide At, Yield, ItemsYield;
    var r := m.(lead := blank + m.lead);
    assert MemberRest(r) == MemberRest(m);
  }

  // Assembles the yield of a member from its pieces.
  lemma MemberAssembled(s: seq<Byte>, i: nat, m: Members, close: seq<Byte>)
    requires m.MCons? && close == (if m.rest.MNil? then [0x7D] else [0x2C] + MembersYield(m.rest))
    requires At(s, i, m.lead) && At(s, i + |m.lead|, [QUOTE] + ItemsYield(m.key))
    requires var p := i + |m.lead| + 1 + |ItemsYield(m.key)|;
      && At(s, p, m.afterKey) && At(s, p + |m.afterKey|, [0x3A])
      && var q := p + |m.afterKey| + 1;
      && At(s, q, m.beforeValue) && At(s, q + |m.beforeValue|, Yield(m.value))
      && At(s, q + |m.beforeValue| + |Yield(m.value)|, m.trail)
      && At(s, q + |m.beforeValue| + |Yield(m.value)| + |m.trail|, close)
    ensures At(s, i, MembersYield(m))
    ensures |MembersYield(m)| == |m.lead| + 1 + |ItemsYield(m.key)| + |m.afterKey| + 1 + |m.beforeValue|
      + |Yield(m.value)|
      + |m.trail| + |close|
  {
    hide At, Yield, ItemsYield;
    var p := i + |m.lead| + 1 + |ItemsYield(m.key)|;
    var q := p + |m.afterKey| + 1;
    var v := q + |m.beforeValue|;
    AtConcat3(s, v, Yield(m.value), m.trail, close);
    AtConcat(s, i + |m.lead|, [QUOTE], ItemsYield(m.key));
    AtConcat6(s, i + |m.lead|, [QUOTE], ItemsYield(m.key), m.afterKey, [0x3A], m.beforeValue, MemberRest(m));
    AtConcat(s, i, m.lead, MembersBody(m));
  }

  lemma ColonTakes(s: seq<Byte>, k: nat) returns (gap: seq<Byte>)
    requires k <= |s|
    ensures var r := Consume(s, SkipWs(s, k), 0x3A);
      if r.Fail? then !EncodingError(r.detail)
      else Ws(gap) && At(s, k, gap) && At(s, k + |gap|, [0x3A]) && r.pos == k + |gap| + 1
  {
    hide At;
    var j := SkipWs(s, k);
    gap := s[k..j];
    SkipWsTakes(s, k);
    AtSlice(s, k, j);
    SkipWsStays(s, j);
    if j < |s| { AtOne(s, j); }
  }

  lemma KeyTakes(s: seq<Byte>, i: nat) returns (lead: seq<Byte>, items: seq<Item>)
    requires i <= |s| && IsUtf8(s)
    ensures var r := String(s, SkipWs(s, i));
      if r.Fail? then !EncodingError(r.detail)
      else
        && Ws(lead) && At(s, i, lead) && ItemsOk(items) && At(s, i + |lead|, [QUOTE] + ItemsYield(items))
        && r.pos == i + |lead| + 1 + |ItemsYield(items)|
  {
    hide At, IsUtf8, String;
    var j := SkipWs(s, i);
    var gap := s[i..j];
    SkipWsTakes(s, i);
    AtSlice(s, i, j);
    lead, items := StringIsYield(s, j);
    AtConcat(s, i, gap, lead);
    lead := gap + lead;
  }

  lemma {:induction false} MembersTakes(s: seq<Byte>, i: nat, nodes: nat, depth: nat, fields: map<seq<Byte>, Json>)
    returns (m: Members)
    requires i <= |s| && IsUtf8(s)
    ensures var r := ParseMembers(s, i, nodes, depth, fields);
      if r.Rejected? then !EncodingError(r.detail)
      else m.MCons? && MembersOk(m) && At(s, i, MembersYield(m)) && r.pos == i + |MembersYield(m)|
    decreases |s| - i, 3
  {
    hide At, IsUtf8, ParseValue, Separator, String, Consume, SkipWs, MembersBody;
    m := MNil;
    var key := String(s, SkipWs(s, i));
    var lead, items := KeyTakes(s, i);
    if key.Fail? || key.value in fields { return; }
    var colon := Consume(s, SkipWs(s, key.pos), 0x3A);
    var afterKey := ColonTakes(s, key.pos);
    if colon.Fail? { return; }
    var v := ParseValue(s, colon.pos, nodes, depth + 1);
    var before, c := ValueTakes(s, colon.pos, nodes, depth + 1);
    if v.Rejected? { return; }
    var next := Separator(s, v.pos, 0x7D);
    var trail := SeparatorTakes(s, v.pos, 0x7D);
    if next.Fail? { return; }
    if next.value {
      m := MCons(lead, items, afterKey, before, c, trail, MNil);
      MemberAssembled(s, i, m, [0x7D]);
    } else {
      var all := fields[key.value := v.value];
      var rest := MembersTakes(s, next.pos, v.nodes, depth, all);
      if ParseMembers(s, next.pos, v.nodes, depth, all).Rejected? { return; }
      m := MCons(lead, items, afterKey, before, c, trail, rest);
      AtConcat(s, v.pos + |trail|, [0x2C], MembersYield(rest));
      MemberAssembled(s, i, m, [0x2C] + MembersYield(rest));
    }
  }

  // ---------- The parser against the grammar ----------

  ghost predicate Accepted(c: Cst)
    requires Grammatical(c)
  {
    Admissible(c, 0, 0)
  }

  // A derivation of the text decides the parse and gives its value and count.
  lemma DerivationDecides(text: seq<Byte>, before: seq<Byte>, c: Cst, after: seq<Byte>)
    requires JsonText(text, before, c, after)
    ensures if Accepted(c) then ParseText(text) == Parsed(Value(c), |text|, Count(c)) else ParseText(text).Rejected?
  {
    hide At, ParseValue, Yield, Admissible, SkipWs;
    AtWhole(text);
    AtConcat(text, 0, before, Yield(c) + after);
    AtConcat(text, |before|, Yield(c), after);
    FirstByte(text, |before|, c);
    SkipWsOver(text, 0, before);
    var end := |before| + |Yield(c)|;
    if after != [] { AtIndex(text, end, after, 0); }
    AtEmpty(text, |before|);
    ValueOver(text, |before|, [], c, 0, 0);
    SkipWsOver(text, end, after);
  }

  lemma AtWhole(s: seq<Byte>)
    ensures At(s, 0, s)
  {}

  // Soundness and completeness: on UTF-8 text the parser returns a value exactly
  // when some derivation of the text is admissible, and then every derivation of
  // it is, with that value and that node count.
  lemma ParserIsExact(text: seq<Byte>)
    requires IsUtf8(text)
    ensures ParseText(text).Parsed? <==> exists before, c, after :: JsonText(text, before, c, after) && Accepted(c)
    ensures forall before, c, after :: JsonText(text, before, c, after) && ParseText(text).Parsed? ==>
      ParseText(text) == Parsed(Value(c), |text|, Count(c)) && Count(c) <= MAX_JSON_NODES
    ensures ParseText(text).Rejected? ==> !EncodingError(ParseText(text).detail)
  {
    forall before, c, after | JsonText(text, before, c, after)
      ensures if Accepted(c) then ParseText(text) == Parsed(Value(c), |text|, Count(c)) else ParseText(text).Rejected?
    {
      DerivationDecides(text, before, c, after);
    }
    TextTakes(text);
  }

  lemma TextTakes(text: seq<Byte>)
    requires IsUtf8(text)
    ensures ParseText(text).Parsed? ==> exists before, c, after :: JsonText(text, before, c, after)
    ensures ParseText(text).Rejected? ==> !EncodingError(ParseText(text).detail)
  {
    hide At, IsUtf8, ParseValue, SkipWs, Yield;
    var start := SkipWs(text, 0);
    SkipWsTakes(text, 0);
    var lead, c := ValueTakes(text, start, 0, 0);
    var v := ParseValue(text, start, 0, 0);
    if v.Parsed? {
      SkipWsTakes(text, v.pos);
      if SkipWs(text, v.pos) == |text| {
        AtSlice(text, 0, start);
        AtSlice(text, v.pos, |text|);
        TextAssembled(text, text[..start], lead, c, text[v.pos..|text|]);
      }
    }
  }

  lemma TextAssembled(text: seq<Byte>, gap: seq<Byte>, lead: seq<Byte>, c: Cst, after: seq<Byte>)
    requires Ws(gap) && Ws(lead) && Grammatical(c) && Ws(after)
    requires At(text, 0, gap) && At(text, |gap|, lead) && At(text, |gap| + |lead|, Yield(c))
    requires At(text, |gap| + |lead| + |Yield(c)|, after) && |text| == |gap| + |lead| + |Yield(c)| + |after|
    ensures JsonText(text, gap + lead, c, after)
  {
    hide At, Yield, Grammatical;
    AtConcat(text, 0, gap, lead);
    AtConcat3(text, 0, gap + lead, Yield(c), after);
    AtText(text, 0, (gap + lead) + (Yield(c) + after));
    assert text[0..|text|] == text;
  }
}
