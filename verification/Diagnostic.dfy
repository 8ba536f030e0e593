// Diagnostics and their canonical JSON.  The printer is proved to write the
// yield of one derivation of the JSON grammar, so the strict parser undoes it.
module DiagnosticJson {
  import opened Bytes
  import opened Utf8
  import opened JsonGrammar
  import opened JsonSpec
  import opened JsonTheorems

  type Text = seq<Scalar>

  datatype Severity = Info | Warning | Error {
    function AsText(): Text {
      match this
      case Info => [0x69, 0x6E, 0x66, 0x6F]
      case Warning => [0x77, 0x61, 0x72, 0x6E, 0x69, 0x6E, 0x67]
      case Error => [0x65, 0x72, 0x72, 0x6F, 0x72]
    }
  }

  // `code` is the name of the diagnostic code.
  datatype Diagnostic = Diagnostic(code: Text, severity: Severity, message: Text, evidence: seq<Text>)

  const CODE: Text := [0x63, 0x6F, 0x64, 0x65]
  const SEVERITY: Text := [0x73, 0x65, 0x76, 0x65, 0x72, 0x69, 0x74, 0x79]
  const MESSAGE: Text := [0x6D, 0x65, 0x73, 0x73, 0x61, 0x67, 0x65]
  const EVIDENCE: Text := [0x65, 0x76, 0x69, 0x64, 0x65, 0x6E, 0x63, 0x65]

  // ---------- Strings ----------

  // The production `push_json_string` uses for a scalar.
  function ItemFor(c: Scalar): Item
  {
    if c == 0x22 then Short(0x22)
    else if c == 0x5C then Short(0x5C)
    else if c == 0x08 then Short(0x62)
    else if c == 0x0C then Short(0x66)
    else if c == 0x0A then Short(0x6E)
    else if c == 0x0D then Short(0x72)
    else if c == 0x09 then Short(0x74)
    else if c < 0x20 then Unit(Quad(0x30, 0x30, HexDigit(c / 16), HexDigit(c % 16)))
    else Raw(c)
  }

  function Items(text: Text): (r: seq<Item>)
    ensures |r| == |text|
  {
    if text == [] then [] else [ItemFor(text[0])] + Items(text[1..])
  }

  lemma ItemForMeans(c: Scalar)
    ensures ItemOk(ItemFor(c)) && ItemScalar(ItemFor(c)) == c
  {
    if c < 0x20 && ItemFor(c).Unit? {
      assert QuadValue(ItemFor(c).quad) == (c / 16) * 16 + c % 16;
    }
  }

  lemma {:induction false} ItemsMean(text: Text)
    ensures ItemsOk(Items(text)) && ItemsText(Items(text)) == text
  {
    hide ItemOk, ItemScalar, ItemFor;
    if text != [] {
      ItemForMeans(text[0]);
      ItemsMean(text[1..]);
      assert Items(text)[1..] == Items(text[1..]);
    }
  }

  method PushJsonString(output: seq<Byte>, value: Text) returns (extended: seq<Byte>)
    ensures extended == output + ([QUOTE] + ItemsYield(Items(value)))
  {
    hide Encode, HexDigit;
    extended := output + [QUOTE];
    for i := 0 to |value|
      invariant extended + ItemsYield(Items(value[i..])) == output + ([QUOTE] + ItemsYield(Items(value)))
    {
      var c := value[i];
      assert value[i..][1..] == value[i + 1..];
      ItemsYieldStep(value[i..]);
      ghost var rest := ItemsYield(Items(value[i + 1..]));
      ghost var before := extended;
      var piece: seq<Byte>;
      if c == 0x22 { piece := [BACKSLASH, 0x22]; }
      else if c == 0x5C { piece := [BACKSLASH, 0x5C]; }
      else if c == 0x08 { piece := [BACKSLASH, 0x62]; }
      else if c == 0x0C { piece := [BACKSLASH, 0x66]; }
      else if c == 0x0A { piece := [BACKSLASH, 0x6E]; }
      else if c == 0x0D { piece := [BACKSLASH, 0x72]; }
      else if c == 0x09 { piece := [BACKSLASH, 0x74]; }
      else if c < 0x20 { piece := [BACKSLASH, LOWER_U, 0x30, 0x30, HexDigit(c / 16), HexDigit(c % 16)]; }
      else { piece := Encode(c); }
      assert piece == ItemYield(ItemFor(c));
      extended := extended + piece;
      AppendAssoc(before, piece, rest);
    }
    extended := extended + [QUOTE];
  }

  lemma ItemsYieldStep(text: Text)
    requires text != []
    ensures ItemsYield(Items(text)) == ItemYield(ItemFor(text[0])) + ItemsYield(Items(text[1..]))
  {
    hide ItemFor, ItemYield;
    assert Items(text)[1..] == Items(text[1..]);
  }

  // A key without special characters prints as itself.
  lemma {:induction false} PlainYield(text: Text)
    requires forall k :: 0 <= k < |text| ==> 0x20 <= text[k] < 0x80 && text[k] != 0x22 && text[k] != 0x5C
    ensures ItemsYield(Items(text)) == EncodeAll(text) + [QUOTE]
    ensures |EncodeAll(text)| == |text| && forall k :: 0 <= k < |text| ==> EncodeAll(text)[k] == text[k]
  {
    if text != [] {
      PlainYield(text[1..]);
      ItemsYieldStep(text);
      AppendAssoc(Encode(text[0]), EncodeAll(text[1..]), [QUOTE]);
    }
  }

  // ---------- The object ----------

  function EvidenceElems(evidence: seq<Text>): Elems
  {
    if evidence == [] then ENil else ECons([], CStr(Items(evidence[0])), [], EvidenceElems(evidence[1..]))
  }

  function Field(key: Text, value: Cst, rest: Members): Members { MCons([], Items(key), [], [], value, [], rest) }

  function EvidenceField(d: Diagnostic): Members { Field(EVIDENCE, CArr([], EvidenceElems(d.evidence)), MNil) }
  function MessageField(d: Diagnostic): Members { Field(MESSAGE, CStr(Items(d.message)), EvidenceField(d)) }
  function SeverityField(d: Diagnostic): Members { Field(SEVERITY, CStr(Items(d.severity.AsText())), MessageField(d)) }
  function CodeField(d: Diagnostic): Members { Field(CODE, CStr(Items(d.code)), SeverityField(d)) }

  function Derivation(d: Diagnostic): Cst { CObj([], CodeField(d)) }

  function StrOf(text: Text): Json { Str(EncodeAll(text)) }

  function Texts(evidence: seq<Text>): (r: seq<Json>)
    ensures |r| == |evidence|
  {
    if evidence == [] then [] else [StrOf(evidence[0])] + Texts(evidence[1..])
  }

  function JsonOf(d: Diagnostic): Json
  {
    Obj(map[EncodeAll(CODE) := StrOf(d.code), EncodeAll(SEVERITY) := StrOf(d.severity.AsText()),
            EncodeAll(MESSAGE) := StrOf(d.message), EncodeAll(EVIDENCE) := Arr(Texts(d.evidence))])
  }

  lemma {:induction false} EvidenceMeans(evidence: seq<Text>)
    ensures var e := EvidenceElems(evidence);
      && ElemsOk(e) && ElemValues(e) == Texts(evidence) && ElemsCount(e) == |evidence|
      && ElemsDistinct(e) && forall room: nat :: ElemsFit(e, room)
  {
    hide Items, EncodeAll;
    if evidence != [] {
      EvidenceMeans(evidence[1..]);
      ItemsMean(evidence[0]);
      forall room: nat ensures ElemsFit(EvidenceElems(evidence), room) {
        assert ElemsFit(EvidenceElems(evidence[1..]), room);
      }
    }
  }

  lemma FieldMeans(key: Text, value: Cst, rest: Members)
    requires Grammatical(value) && MembersOk(rest)
    ensures var m := Field(key, value, rest);
      && MembersOk(m) && KeyOf(m) == EncodeAll(key)
      && MemberValues(m) == map[EncodeAll(key) := Value(value)] + MemberValues(rest)
      && MembersCount(m) == Count(value) + MembersCount(rest)
      && (MembersDistinct(m) <==> DistinctKeys(value) && EncodeAll(key) !in MemberValues(rest) && MembersDistinct(rest))
      && forall room :: MembersFit(m, room) <==> Fits(value, room) && MembersFit(rest, room)
  {
    hide Items, EncodeAll;
    ItemsMean(key);
    assert forall room :: MembersFit(Field(key, value, rest), room) <==> Fits(value, room) && MembersFit(rest, room);
  }

  lemma StringMeans(text: Text)
    ensures var c := CStr(Items(text));
      Grammatical(c) && Value(c) == StrOf(text) && Count(c) == 1 && DistinctKeys(c) && forall room: nat :: Fits(c, room)
  {
    ItemsMean(text);
  }

  lemma EvidenceListMeans(evidence: seq<Text>)
    ensures var c := CArr([], EvidenceElems(evidence));
      && Grammatical(c) && Value(c) == Arr(Texts(evidence)) && Count(c) == 1 + |evidence| && DistinctKeys(c)
      && forall room: nat :: room > 0 ==> Fits(c, room)
  {
    EvidenceMeans(evidence);
    var c := CArr([], EvidenceElems(evidence));
    forall room: nat | room > 0 ensures Fits(c, room) {
      assert ElemsFit(EvidenceElems(evidence), room - 1);
    }
  }

  lemma KeysDiffer()
    ensures EncodeAll(CODE) != EncodeAll(SEVERITY) && EncodeAll(CODE) != EncodeAll(MESSAGE)
    ensures EncodeAll(CODE) != EncodeAll(EVIDENCE) && EncodeAll(SEVERITY) != EncodeAll(MESSAGE)
    ensures EncodeAll(SEVERITY) != EncodeAll(EVIDENCE) && EncodeAll(MESSAGE) != EncodeAll(EVIDENCE)
  {
    hide EncodeAll, ItemsYield, Items;
    PlainYield(CODE);
    PlainYield(SEVERITY);
    PlainYield(MESSAGE);
    PlainYield(EVIDENCE);
    assert EncodeAll(SEVERITY)[0] == 0x73 && EncodeAll(EVIDENCE)[0] == 0x65;
  }

  lemma NoMembers()
    ensures MembersOk(MNil) && MemberValues(MNil) == map[] && MembersCount(MNil) == 0 && MembersDistinct(MNil)
    ensures forall room :: MembersFit(MNil, room)
  {}

  lemma FieldsMean(d: Diagnostic)
    ensures MembersOk(CodeField(d)) && MembersDistinct(CodeField(d)) && MembersCount(CodeField(d)) == 4 + |d.evidence|
    ensures Obj(MemberValues(CodeField(d))) == JsonOf(d)
    ensures MembersFit(CodeField(d), MAX_JSON_DEPTH - 1)
  {
    hide Grammatical, MembersOk, MemberValues, MembersDistinct, MembersCount, MembersFit, Fits, Items, EncodeAll;
    hide Field, KeyOf, Value, DistinctKeys, Count;
    KeysDiffer();
    NoMembers();
    EvidenceListMeans(d.evidence);
    StringMeans(d.message);
    StringMeans(d.severity.AsText());
    StringMeans(d.code);
    FieldMeans(EVIDENCE, CArr([], EvidenceElems(d.evidence)), MNil);
    FieldMeans(MESSAGE, CStr(Items(d.message)), EvidenceField(d));
    FieldMeans(SEVERITY, CStr(Items(d.severity.AsText())), MessageField(d));
    FieldMeans(CODE, CStr(Items(d.code)), SeverityField(d));
    var room := MAX_JSON_DEPTH - 1;
    assert Fits(CArr([], EvidenceElems(d.evidence)), room);
    assert MembersFit(EvidenceField(d), room);
    assert MembersFit(MessageField(d), room);
    assert MembersFit(SeverityField(d), room);
  }

  // ---------- The printer ----------

  method ToCanonicalJson(d: Diagnostic) returns (output: seq<Byte>)
    ensures output == Yield(Derivation(d))
  {
    hide *;
    Layout(d);
    output := PushJsonString(OpenKey([0x7B], CODE), d.code);
    output := PushJsonString(OpenKey(output + [0x2C], SEVERITY), d.severity.AsText());
    output := PushJsonString(OpenKey(output + [0x2C], MESSAGE), d.message);
    output := OpenKey(output + [0x2C], EVIDENCE) + [0x5B];
    ghost var opening := output;
    EvidenceTailAt(d.evidence, 0);
    for index := 0 to |d.evidence|
      invariant output + EvidenceTail(d.evidence, index) == opening + EvidenceTail(d.evidence, 0)
    {
      EvidenceTailAt(d.evidence, index);
      ghost var before := output;
      if index > 0 { output := output + [0x2C]; }
      ghost var middle := output;
      output := PushJsonString(output, d.evidence[index]);
      EvidenceTailAt(d.evidence, index + 1);
      EvidenceTurn(d.evidence, index, before, middle, output);
    }
    EvidenceTailAt(d.evidence, |d.evidence|);
    assert output + [0x5D] == opening + EvidenceTail(d.evidence, 0);
    output := output + [0x5D];
    output := output + [0x7D];
  }

  // `"key":` after a prefix.
  function OpenKey(prefix: seq<Byte>, key: Text): seq<Byte>
  {
    prefix + [QUOTE] + EncodeAll(key) + [QUOTE] + [0x3A]
  }

  // What remains to print of the evidence array before entry `index`.
  function EvidenceTail(evidence: seq<Text>, index: nat): seq<Byte>
    requires index <= |evidence|
  {
    if index == |evidence| then [0x5D] else
    var comma := if index > 0 then [0x2C] else [];
    var tail := if index + 1 == |evidence| then [0x5D] else [0x2C] + ElemsYield(EvidenceElems(evidence[index + 1..]));
    comma + ([QUOTE] + (ItemsYield(Items(evidence[index])) + tail))
  }

  lemma EvidenceTailAt(evidence: seq<Text>, index: nat)
    requires index <= |evidence|
    ensures index < |evidence| ==>
      && EvidenceElems(evidence[index..]).ECons?
      && EvidenceTail(evidence, index) == (if index > 0 then [0x2C] else [])
        + ElemsYield(EvidenceElems(evidence[index..]))
    ensures index == |evidence| ==> EvidenceTail(evidence, index) == [0x5D]
    ensures 0 < index < |evidence| ==>
      EvidenceTail(evidence, index) == [0x2C] + ElemsYield(EvidenceElems(evidence[index..]))
  {
    hide ItemsYield, Items;
    if index < |evidence| {
      var e := EvidenceElems(evidence[index..]);
      assert evidence[index..][1..] == evidence[index + 1..];
      ElementYield(evidence[index], e.rest);
    }
  }

  lemma ElementYield(text: Text, rest: Elems)
    ensures ElemsYield(ECons([], CStr(Items(text)), [], rest)) ==
      [QUOTE] + (ItemsYield(Items(text)) + (if rest.ENil? then [0x5D] else [0x2C] + ElemsYield(rest)))
  {
    hide ItemsYield, Items;
    var close: seq<Byte> := if rest.ENil? then [0x5D] else [0x2C] + ElemsYield(rest);
    var e := ECons([], CStr(Items(text)), [], rest);
    assert ElemsBody(e) == ([QUOTE] + ItemsYield(Items(text))) + ([] + close);
    assert [] + close == close;
    AppendAssoc([QUOTE], ItemsYield(Items(text)), close);
    assert ElemsYield(e) == [] + ElemsBody(e) == ElemsBody(e);
  }

  lemma EvidenceTurn(evidence: seq<Text>, index: nat, before: seq<Byte>, middle: seq<Byte>, after: seq<Byte>)
    requires index < |evidence|
    requires middle == if index > 0 then before + [0x2C] else before
    requires after == middle + ([QUOTE] + ItemsYield(Items(evidence[index])))
    ensures after + EvidenceTail(evidence, index + 1) == before + EvidenceTail(evidence, index)
  {
    hide ItemsYield, Items, ElemsYield;
    EvidenceTailAt(evidence, index + 1);
    var comma: seq<Byte> := if index > 0 then [0x2C] else [];
    RegroupTurn(before, comma, [QUOTE], ItemsYield(Items(evidence[index])), EvidenceTail(evidence, index + 1));
    assert before + [] == before;
  }

  lemma RegroupTurn(before: seq<Byte>, comma: seq<Byte>, quote: seq<Byte>, text: seq<Byte>, tail: seq<Byte>)
    ensures ((before + comma) + (quote + text)) + tail == before + (comma + (quote + (text + tail)))
  {}

  lemma FieldYield(key: Text, value: Cst, rest: Members, prefix: seq<Byte>)
    requires forall k :: 0 <= k < |key| ==> 0x20 <= key[k] < 0x80 && key[k] != 0x22 && key[k] != 0x5C
    ensures prefix + MembersYield(Field(key, value, rest)) ==
      OpenKey(prefix, key) + (Yield(value) + (if rest.MNil? then [0x7D] else [0x2C] + MembersYield(rest)))
  {
    hide Yield, ItemsYield, Items, EncodeAll;
    PlainYield(key);
    var m := Field(key, value, rest);
    var close: seq<Byte> := if rest.MNil? then [0x7D] else [0x2C] + MembersYield(rest);
    var tail := Yield(value) + close;
    assert MemberRest(m) == Yield(value) + ([] + close) == tail;
    assert MembersBody(m) == [QUOTE] + ((EncodeAll(key) + [QUOTE]) + ([] + ([0x3A] + ([] + tail))));
    assert MembersYield(m) == [] + MembersBody(m);
  }

  // The derivation's yield, read as the printer's appends.
  lemma Layout(d: Diagnostic)
    ensures var code := [QUOTE] + ItemsYield(Items(d.code));
      var severity := [QUOTE] + ItemsYield(Items(d.severity.AsText()));
      var message := [QUOTE] + ItemsYield(Items(d.message));
      var p1 := OpenKey([0x7B], CODE) + code;
      var p2 := OpenKey(p1 + [0x2C], SEVERITY) + severity;
      var p3 := OpenKey(p2 + [0x2C], MESSAGE) + message;
      var p4 := OpenKey(p3 + [0x2C], EVIDENCE) + [0x5B];
      Yield(Derivation(d)) == p4 + EvidenceTail(d.evidence, 0) + [0x7D]
  {
    hide ItemsYield, Items, EvidenceElems, EncodeAll, MembersYield, OpenKey, EvidenceTail, Field;
    var code := [QUOTE] + ItemsYield(Items(d.code));
    var severity := [QUOTE] + ItemsYield(Items(d.severity.AsText()));
    var message := [QUOTE] + ItemsYield(Items(d.message));
    var p1 := OpenKey([0x7B], CODE) + code;
    var p2 := OpenKey(p1 + [0x2C], SEVERITY) + severity;
    var p3 := OpenKey(p2 + [0x2C], MESSAGE) + message;
    EvidenceYield(d);
    var list := Yield(CArr([], EvidenceElems(d.evidence)));
    FieldYield(CODE, CStr(Items(d.code)), SeverityField(d), [0x7B]);
    FieldYield(SEVERITY, CStr(Items(d.severity.AsText())), MessageField(d), p1 + [0x2C]);
    FieldYield(MESSAGE, CStr(Items(d.message)), EvidenceField(d), p2 + [0x2C]);
    FieldYield(EVIDENCE, CArr([], EvidenceElems(d.evidence)), MNil, p3 + [0x2C]);
    FieldsAreMembers(d);
    Regroup(OpenKey([0x7B], CODE), code, MembersYield(SeverityField(d)));
    Regroup(OpenKey(p1 + [0x2C], SEVERITY), severity, MembersYield(MessageField(d)));
    Regroup(OpenKey(p2 + [0x2C], MESSAGE), message, MembersYield(EvidenceField(d)));
    assert OpenKey(p3 + [0x2C], EVIDENCE) + (list + [0x7D]) ==
      OpenKey(p3 + [0x2C], EVIDENCE) + [0x5B] + EvidenceTail(d.evidence, 0) + [0x7D];
  }

  lemma Regroup(key: seq<Byte>, value: seq<Byte>, rest: seq<Byte>)
    ensures key + (value + ([0x2C] + rest)) == (key + value + [0x2C]) + rest
  {}

  lemma FieldsAreMembers(d: Diagnostic)
    ensures CodeField(d).MCons? && SeverityField(d).MCons? && MessageField(d).MCons? && EvidenceField(d).MCons?
    ensures Yield(Derivation(d)) == [0x7B] + MembersYield(CodeField(d))
    ensures Yield(CStr(Items(d.code))) == [QUOTE] + ItemsYield(Items(d.code))
    ensures Yield(CStr(Items(d.severity.AsText()))) == [QUOTE] + ItemsYield(Items(d.severity.AsText()))
    ensures Yield(CStr(Items(d.message))) == [QUOTE] + ItemsYield(Items(d.message))
  {
    hide ItemsYield, Items, EncodeAll, MembersBody, EvidenceElems;
  }

  lemma EvidenceYield(d: Diagnostic)
    ensures Yield(CArr([], EvidenceElems(d.evidence))) == [0x5B] + EvidenceTail(d.evidence, 0)
  {
    hide ItemsYield, Items;
    EvidenceTailAt(d.evidence, 0);
    assert d.evidence[0..] == d.evidence;
    var c := CArr([], EvidenceElems(d.evidence));
    if d.evidence == [] {
      assert [] + [0x5D] == [0x5D];
    } else {
      assert [] + ElemsYield(EvidenceElems(d.evidence)) == ElemsYield(EvidenceElems(d.evidence));
    }
  }

  // ---------- Print, then parse ----------

  // The strict parser reads a printed diagnostic back exactly when it carries at
  // most 99,995 evidence strings; a longer one exceeds the node budget.
  lemma PrintThenParse(d: Diagnostic)
    ensures var printed := Yield(Derivation(d));
      if |d.evidence| <= 99_995 then ParseText(printed) == Parsed(JsonOf(d), |printed|, 5 + |d.evidence|)
      else ParseText(printed).Rejected?
  {
    hide MembersYield, CodeField, JsonOf;
    FieldsMean(d);
    var c := Derivation(d);
    assert Yield(c) == [] + (Yield(c) + []);
    DerivationFacts(d);
    DerivationDecides(Yield(c), [], c, []);
  }

  lemma DerivationFacts(d: Diagnostic)
    ensures var c := Derivation(d);
      Grammatical(c) && Value(c) == JsonOf(d) && Count(c) == 5 + |d.evidence| && Ws([])
        && (Accepted(c) <==> |d.evidence| <= 99_995)
  {
    hide CodeField, JsonOf;
    FieldsMean(d);
  }

  lemma {:induction false} TextsInjective(a: seq<Text>, b: seq<Text>)
    requires Texts(a) == Texts(b)
    ensures a == b
  {
    assert |a| == |Texts(a)| == |Texts(b)| == |b|;
    if a != [] {
      assert Texts(a)[0] == StrOf(a[0]) && Texts(b)[0] == StrOf(b[0]);
      EncodeAllInjective(a[0], b[0]);
      assert Texts(a)[1..] == Texts(a[1..]) && Texts(b)[1..] == Texts(b[1..]);
      TextsInjective(a[1..], b[1..]);
    }
  }

  // The parsed value determines the diagnostic, so nothing is lost.
  lemma JsonDeterminesDiagnostic(a: Diagnostic, b: Diagnostic)
    requires JsonOf(a) == JsonOf(b)
    ensures a == b
  {
    hide EncodeAll;
    KeysDiffer();
    var (fa, fb) := (JsonOf(a).fields, JsonOf(b).fields);
    assert fa[EncodeAll(CODE)] == fb[EncodeAll(CODE)];
    assert fa[EncodeAll(SEVERITY)] == fb[EncodeAll(SEVERITY)];
    assert fa[EncodeAll(MESSAGE)] == fb[EncodeAll(MESSAGE)];
    assert fa[EncodeAll(EVIDENCE)] == fb[EncodeAll(EVIDENCE)];
    EncodeAllInjective(a.code, b.code);
    EncodeAllInjective(a.severity.AsText(), b.severity.AsText());
    EncodeAllInjective(a.message, b.message);
    TextsInjective(a.evidence, b.evidence);
    assert a.severity.AsText()[0] == b.severity.AsText()[0];
  }
}
