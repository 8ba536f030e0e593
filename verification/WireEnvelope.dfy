// The coordinator wire envelope: a magic, a field count, and 21 numbered, length-prefixed
// fields, read by a cursor.
module WireEnvelope {
  import opened Wrappers
  import opened Bytes

  datatype Rejection =
    | OversizedEnvelope
    | InvalidMagic
    | InvalidFieldCount
    | NonCanonicalFieldOrder
    | OversizedField
    | TruncatedEnvelope
    | TrailingBytes
    | InvalidFieldValue
    | InvalidRequest
    | RequestIdentityMismatch

  const MAGIC := Ascii("leanbun-macos-coordinator-wire-v1") + [0]
  const FIELD_COUNT: nat := 21
  const MAX_FIELD_BYTES: nat := 256
  const MAX_WIRE_BYTES: nat := 4_096

  // ---------- What the encoder writes ----------

  function FieldFrame(id: nat, value: seq<Byte>): seq<Byte>
  {
    Be(id, 2) + (Be(|value|, 4) + value)
  }

  function Frames(fields: seq<seq<Byte>>, id: nat): seq<Byte>
  {
    if fields == [] then [] else FieldFrame(id, fields[0]) + Frames(fields[1..], id + 1)
  }

  function Envelope(fields: seq<seq<Byte>>): seq<Byte>
  {
    MAGIC + (Be(FIELD_COUNT, 2) + Frames(fields, 1))
  }

  predicate Fitting(fields: seq<seq<Byte>>)
  {
    forall i :: 0 <= i < |fields| ==> |fields[i]| <= MAX_FIELD_BYTES
  }

  // ---------- What the decoder reads ----------

  datatype Parsed = Parsed(fields: seq<seq<Byte>>, end: nat)

  function ReadBe(bytes: seq<Byte>, pos: nat, width: nat): nat
    requires pos + width <= |bytes|
  {
    FromBe(bytes[pos..pos + width])
  }

  function ParseFields(bytes: seq<Byte>, pos: nat, id: nat): Result<Parsed, Rejection>
    requires pos <= |bytes|
    decreases FIELD_COUNT + 1 - id
  {
    if id > FIELD_COUNT then Ok(Parsed([], pos))
    else if pos + 2 > |bytes| then Err(TruncatedEnvelope)
    else if ReadBe(bytes, pos, 2) != id then Err(NonCanonicalFieldOrder)
    else if pos + 6 > |bytes| then Err(TruncatedEnvelope)
    else
      var length := ReadBe(bytes, pos + 2, 4);
      if length > MAX_FIELD_BYTES then Err(OversizedField)
      else if pos + 6 + length > |bytes| then Err(TruncatedEnvelope)
      else
        match ParseFields(bytes, pos + 6 + length, id + 1)
        case Err(e) => Err(e)
        case Ok(rest) => Ok(Parsed([bytes[pos + 6..pos + 6 + length]] + rest.fields, rest.end))
  }

  function ParseEnvelope(bytes: seq<Byte>): Result<seq<seq<Byte>>, Rejection>
  {
    if |bytes| > MAX_WIRE_BYTES then Err(OversizedEnvelope)
    else if |MAGIC| > |bytes| then Err(TruncatedEnvelope)
    else if bytes[..|MAGIC|] != MAGIC then Err(InvalidMagic)
    else if |MAGIC| + 2 > |bytes| then Err(TruncatedEnvelope)
    else if ReadBe(bytes, |MAGIC|, 2) != FIELD_COUNT then Err(InvalidFieldCount)
    else
      match ParseFields(bytes, |MAGIC| + 2, 1)
      case Err(e) => Err(e)
      case Ok(p) => if p.end != |bytes| then Err(TrailingBytes) else Ok(p.fields)
  }

  // ---------- The two agree ----------

  lemma ReadsBe(bytes: seq<Byte>, pos: nat, n: nat, width: nat)
    requires pos + width <= |bytes|
    requires n < Pow256(width)
    ensures At(bytes, pos, Be(n, width)) <==> ReadBe(bytes, pos, width) == n
  {
    BeRoundTrip(n, width);
    FromBeRoundTrip(bytes[pos..pos + width]);
  }

  lemma FrameAt(bytes: seq<Byte>, pos: nat, id: nat, value: seq<Byte>, rest: seq<Byte>)
    ensures At(bytes, pos, FieldFrame(id, value) + rest) <==>
      && At(bytes, pos, Be(id, 2)) && At(bytes, pos + 2, Be(|value|, 4))
      && At(bytes, pos + 6, value) && At(bytes, pos + 6 + |value|, rest)
    ensures |FieldFrame(id, value)| == 6 + |value|
  {
    hide At;
    AtConcat(bytes, pos, FieldFrame(id, value), rest);
    AtConcat3(bytes, pos, Be(id, 2), Be(|value|, 4), value);
  }

  // One field read off the front.
  function Prepend(value: seq<Byte>, rest: Result<Parsed, Rejection>): Result<Parsed, Rejection>
  {
    match rest
    case Err(e) => Err(e)
    case Ok(p) => Ok(Parsed([value] + p.fields, p.end))
  }

  lemma FieldParses(bytes: seq<Byte>, pos: nat, id: nat, value: seq<Byte>)
    requires id <= FIELD_COUNT && |value| <= MAX_FIELD_BYTES
    requires At(bytes, pos, Be(id, 2)) && At(bytes, pos + 2, Be(|value|, 4)) && At(bytes, pos + 6, value)
    ensures pos + 6 + |value| <= |bytes|
    ensures ParseFields(bytes, pos, id) == Prepend(value, ParseFields(bytes, pos + 6 + |value|, id + 1))
  {
    Widths();
    AtBound(bytes, pos + 6, value);
    AtText(bytes, pos + 6, value);
    ReadsBe(bytes, pos, id, 2);
    ReadsBe(bytes, pos + 2, |value|, 4);
    hide At, Be, ReadBe, Prepend;
    HeadedField(bytes, pos, id, |value|);
  }

  lemma HeadedField(bytes: seq<Byte>, pos: nat, id: nat, length: nat)
    requires id <= FIELD_COUNT && length <= MAX_FIELD_BYTES && pos + 6 + length <= |bytes|
    requires ReadBe(bytes, pos, 2) == id && ReadBe(bytes, pos + 2, 4) == length
    ensures ParseFields(bytes, pos, id) == Prepend(bytes[pos + 6..pos + 6 + length],
      ParseFields(bytes, pos + 6 + length, id + 1))
  {
    hide ReadBe;
  }

  lemma ParsedHeader(bytes: seq<Byte>, pos: nat, id: nat)
    requires pos <= |bytes| && id <= FIELD_COUNT && ParseFields(bytes, pos, id).Ok?
    ensures pos + 6 <= |bytes| && ReadBe(bytes, pos, 2) == id
    ensures ReadBe(bytes, pos + 2, 4) <= MAX_FIELD_BYTES && pos + 6 + ReadBe(bytes, pos + 2, 4) <= |bytes|
  {
    hide ReadBe;
  }

  lemma FieldParsed(bytes: seq<Byte>, pos: nat, id: nat) returns (value: seq<Byte>)
    requires pos <= |bytes| && id <= FIELD_COUNT && ParseFields(bytes, pos, id).Ok?
    ensures |value| <= MAX_FIELD_BYTES
    ensures At(bytes, pos, Be(id, 2)) && At(bytes, pos + 2, Be(|value|, 4)) && At(bytes, pos + 6, value)
    ensures pos + 6 + |value| <= |bytes|
    ensures ParseFields(bytes, pos, id) == Prepend(value, ParseFields(bytes, pos + 6 + |value|, id + 1))
  {
    ParsedHeader(bytes, pos, id);
    hide ParseFields, At, Be, ReadBe, Prepend;
    var length := ReadBe(bytes, pos + 2, 4);
    value := bytes[pos + 6..pos + 6 + length];
    Widths();
    ReadsBe(bytes, pos, id, 2);
    ReadsBe(bytes, pos + 2, length, 4);
    AtSlice(bytes, pos + 6, pos + 6 + length);
    FieldParses(bytes, pos, id, value);
  }

  lemma NoFields(bytes: seq<Byte>, pos: nat)
    requires pos <= |bytes|
    ensures ParseFields(bytes, pos, FIELD_COUNT + 1) == Ok(Parsed([], pos))
  {
  }

  lemma FramesStep(fields: seq<seq<Byte>>, id: nat)
    ensures fields == [] ==> Frames(fields, id) == []
    ensures fields != [] ==> Frames(fields, id) == FieldFrame(id, fields[0]) + Frames(fields[1..], id + 1)
    ensures fields != [] ==> fields == [fields[0]] + fields[1..]
  {
  }

  lemma {:induction false} ParsesFrames(bytes: seq<Byte>, pos: nat, id: nat, fields: seq<seq<Byte>>)
    requires pos <= |bytes| && 1 <= id <= FIELD_COUNT + 1 && |fields| == FIELD_COUNT + 1 - id && Fitting(fields)
    requires At(bytes, pos, Frames(fields, id))
    ensures ParseFields(bytes, pos, id) == Ok(Parsed(fields, pos + |Frames(fields, id)|))
    decreases |fields|
  {
    hide At, Be, FieldFrame, Frames, ParseFields;
    FramesStep(fields, id);
    if fields == [] {
      NoFields(bytes, pos);
    } else {
      var value := fields[0];
      var rest := Frames(fields[1..], id + 1);
      FrameAt(bytes, pos, id, value, rest);
      FieldParses(bytes, pos, id, value);
      ParsesFrames(bytes, pos + 6 + |value|, id + 1, fields[1..]);
    }
  }

  lemma FramedStep(bytes: seq<Byte>, pos: nat, id: nat, value: seq<Byte>, fields: seq<seq<Byte>>)
    requires At(bytes, pos, Be(id, 2)) && At(bytes, pos + 2, Be(|value|, 4)) && At(bytes, pos + 6, value)
    requires At(bytes, pos + 6 + |value|, Frames(fields, id + 1))
    ensures At(bytes, pos, Frames([value] + fields, id))
    ensures |Frames([value] + fields, id)| == 6 + |value| + |Frames(fields, id + 1)|
  {
    FramesStep([value] + fields, id);
    assert ([value] + fields)[1..] == fields;
    hide At, Frames, FieldFrame;
    FrameAt(bytes, pos, id, value, Frames(fields, id + 1));
  }

  lemma {:induction false} ParsedIsFramed(bytes: seq<Byte>, pos: nat, id: nat)
    requires pos <= |bytes| && 1 <= id <= FIELD_COUNT + 1 && ParseFields(bytes, pos, id).Ok?
    ensures var p := ParseFields(bytes, pos, id).value;
      && |p.fields| == FIELD_COUNT + 1 - id && Fitting(p.fields)
      && At(bytes, pos, Frames(p.fields, id)) && p.end == pos + |Frames(p.fields, id)|
    decreases FIELD_COUNT + 1 - id
  {
    hide At, Be, Frames, ParseFields, ReadBe, FieldFrame;
    if id <= FIELD_COUNT {
      var value := FieldParsed(bytes, pos, id);
      var rest := ParseFields(bytes, pos + 6 + |value|, id + 1);
      PrependedOk(value, rest);
      hide Prepend, Fitting;
      ParsedIsFramed(bytes, pos + 6 + |value|, id + 1);
      FramedStep(bytes, pos, id, value, rest.value.fields);
      FittingStep(value, rest.value.fields);
    } else {
      NoFields(bytes, pos);
      FramesStep([], id);
      EmptyAt(bytes, pos);
    }
  }

  lemma PrependedOk(value: seq<Byte>, rest: Result<Parsed, Rejection>)
    requires Prepend(value, rest).Ok?
    ensures rest.Ok? && Prepend(value, rest).value == Parsed([value] + rest.value.fields, rest.value.end)
  {
  }

  lemma FittingStep(value: seq<Byte>, rest: seq<seq<Byte>>)
    requires |value| <= MAX_FIELD_BYTES && Fitting(rest)
    ensures Fitting([value] + rest)
  {
  }

  lemma EmptyAt(bytes: seq<Byte>, pos: nat)
    requires pos <= |bytes|
    ensures At(bytes, pos, [])
  {
  }

  // A field the cut falls into.
  lemma CutFieldTruncates(full: seq<Byte>, k: nat, pos: nat, id: nat, value: seq<Byte>)
    requires id <= FIELD_COUNT && |value| <= MAX_FIELD_BYTES && pos <= k < pos + 6 + |value| && k <= |full|
    requires At(full, pos, Be(id, 2)) && At(full, pos + 2, Be(|value|, 4))
    ensures ParseFields(full[..k], pos, id) == Err(TruncatedEnvelope)
  {
    var cut := full[..k];
    Widths();
    AtBound(full, pos + 2, Be(|value|, 4));
    ReadsBe(full, pos, id, 2);
    ReadsBe(full, pos + 2, |value|, 4);
    assert pos + 2 <= k ==> cut[pos..pos + 2] == full[pos..pos + 2];
    assert pos + 6 <= k ==> cut[pos + 2..pos + 2 + 4] == full[pos + 2..pos + 2 + 4];
    hide At, Be, FromBe;
  }

  lemma CutAt(full: seq<Byte>, k: nat, pos: nat, part: seq<Byte>)
    requires At(full, pos, part) && pos + |part| <= k <= |full|
    ensures At(full[..k], pos, part)
  {
    assert full[..k][pos..pos + |part|] == full[pos..pos + |part|];
  }

  // An envelope cut short inside its fields is truncated, nothing else.
  lemma {:induction false} CutFramesTruncate(full: seq<Byte>, k: nat, pos: nat, id: nat, fields: seq<seq<Byte>>)
    requires 1 <= id <= FIELD_COUNT + 1 && |fields| == FIELD_COUNT + 1 - id && Fitting(fields)
    requires At(full, pos, Frames(fields, id)) && pos <= k < pos + |Frames(fields, id)| && k <= |full|
    ensures ParseFields(full[..k], pos, id) == Err(TruncatedEnvelope)
    decreases |fields|
  {
    hide At, Be, FieldFrame, Frames, ParseFields;
    FramesStep(fields, id);
    var value := fields[0];
    var rest := Frames(fields[1..], id + 1);
    FrameAt(full, pos, id, value, rest);
    AtBound(full, pos + 6, value);
    if pos + 6 + |value| <= k {
      CutAt(full, k, pos, Be(id, 2));
      CutAt(full, k, pos + 2, Be(|value|, 4));
      CutAt(full, k, pos + 6, value);
      FieldParses(full[..k], pos, id, value);
      CutFramesTruncate(full, k, pos + 6 + |value|, id + 1, fields[1..]);
    } else {
      CutFieldTruncates(full, k, pos, id, value);
    }
  }

  // ---------- Whole envelopes ----------

  lemma EnvelopeAt(bytes: seq<Byte>, fields: seq<seq<Byte>>)
    ensures At(bytes, 0, Envelope(fields)) <==>
      At(bytes, 0, MAGIC) && At(bytes, |MAGIC|, Be(FIELD_COUNT, 2)) && At(bytes, |MAGIC| + 2, Frames(fields, 1))
    ensures |Envelope(fields)| == |MAGIC| + 2 + |Frames(fields, 1)|
  {
    hide MAGIC, At, Be, Frames;
    AtConcat3(bytes, 0, MAGIC, Be(FIELD_COUNT, 2), Frames(fields, 1));
  }

  // What the header decides, given how the fields parse.
  function AfterHeader(bytes: seq<Byte>): Result<seq<seq<Byte>>, Rejection>
    requires |MAGIC| + 2 <= |bytes|
  {
    match ParseFields(bytes, |MAGIC| + 2, 1)
    case Err(e) => Err(e)
    case Ok(p) => if p.end != |bytes| then Err(TrailingBytes) else Ok(p.fields)
  }

  lemma HeaderParses(bytes: seq<Byte>)
    requires At(bytes, 0, MAGIC) && At(bytes, |MAGIC|, Be(FIELD_COUNT, 2))
    ensures |MAGIC| + 2 <= |bytes|
    ensures ParseEnvelope(bytes) == if |bytes| > MAX_WIRE_BYTES then Err(OversizedEnvelope) else AfterHeader(bytes)
  {
    hide MAGIC;
    Widths();
    AtBound(bytes, |MAGIC|, Be(FIELD_COUNT, 2));
    ReadsBe(bytes, |MAGIC|, FIELD_COUNT, 2);
    AtText(bytes, 0, MAGIC);
    assert bytes[0..0 + |MAGIC|] == bytes[..|MAGIC|];
    hide At, Be, ReadBe, ParseFields;
  }

  lemma HeaderParsed(bytes: seq<Byte>)
    requires ParseEnvelope(bytes).Ok?
    ensures At(bytes, 0, MAGIC) && At(bytes, |MAGIC|, Be(FIELD_COUNT, 2)) && |MAGIC| + 2 <= |bytes| <= MAX_WIRE_BYTES
    ensures ParseEnvelope(bytes) == AfterHeader(bytes)
  {
    hide MAGIC;
    Widths();
    ReadsBe(bytes, |MAGIC|, FIELD_COUNT, 2);
    AtSlice(bytes, 0, |MAGIC|);
    assert bytes[0..|MAGIC|] == bytes[..|MAGIC|];
    hide At, Be, ReadBe, ParseFields;
  }

  lemma AtWhole(bytes: seq<Byte>)
    ensures At(bytes, 0, bytes)
    ensures forall part :: At(bytes, 0, part) && |part| == |bytes| ==> part == bytes
  {
  }

  // The decoder's first stage accepts exactly the envelopes of 21 fitting fields.
  lemma ParsesEnvelope(fields: seq<seq<Byte>>)
    requires |fields| == FIELD_COUNT && Fitting(fields) && |Envelope(fields)| <= MAX_WIRE_BYTES
    ensures ParseEnvelope(Envelope(fields)) == Ok(fields)
  {
    var bytes := Envelope(fields);
    hide *;
    AtWhole(bytes);
    EnvelopeAt(bytes, fields);
    HeaderParses(bytes);
    FieldsOfEnvelope(bytes, fields);
    AfterHeaderIs(bytes);
  }

  lemma AfterHeaderIs(bytes: seq<Byte>)
    requires |MAGIC| + 2 <= |bytes|
    ensures AfterHeader(bytes) == match ParseFields(bytes, |MAGIC| + 2, 1)
      case Err(e) => Err(e)
      case Ok(p) => if p.end != |bytes| then Err(TrailingBytes) else Ok(p.fields)
  {
  }

  lemma FieldsOfEnvelope(bytes: seq<Byte>, fields: seq<seq<Byte>>)
    requires |fields| == FIELD_COUNT && Fitting(fields) && |MAGIC| + 2 <= |bytes|
    requires At(bytes, |MAGIC| + 2, Frames(fields, 1))
    ensures ParseFields(bytes, |MAGIC| + 2, 1) == Ok(Parsed(fields, |MAGIC| + 2 + |Frames(fields, 1)|))
  {
    hide MAGIC, Frames, ParseFields, At;
    ParsesFrames(bytes, |MAGIC| + 2, 1, fields);
  }

  lemma ParsedIsEnvelope(bytes: seq<Byte>)
    requires ParseEnvelope(bytes).Ok?
    ensures var fields := ParseEnvelope(bytes).value;
      |fields| == FIELD_COUNT && Fitting(fields) && bytes == Envelope(fields) && |bytes| <= MAX_WIRE_BYTES
  {
    var fields := ParseEnvelope(bytes).value;
    HeaderParsed(bytes);
    AfterHeaderIs(bytes);
    hide *;
    ParsedFields(bytes, fields);
    EnvelopeAt(bytes, fields);
    AtWhole(bytes);
  }

  lemma ParsedFields(bytes: seq<Byte>, fields: seq<seq<Byte>>)
    requires |MAGIC| + 2 <= |bytes| && ParseFields(bytes, |MAGIC| + 2, 1) == Ok(Parsed(fields, |bytes|))
    ensures |fields| == FIELD_COUNT && Fitting(fields) && At(bytes, |MAGIC| + 2, Frames(fields, 1))
    ensures |bytes| == |MAGIC| + 2 + |Frames(fields, 1)|
  {
    hide MAGIC, ParseFields, At, Frames;
    ParsedIsFramed(bytes, |MAGIC| + 2, 1);
  }

  // A proper prefix of an envelope is truncated.
  lemma PrefixIsTruncated(fields: seq<seq<Byte>>, k: nat)
    requires |fields| == FIELD_COUNT && Fitting(fields) && k < |Envelope(fields)| <= MAX_WIRE_BYTES
    ensures ParseEnvelope(Envelope(fields)[..k]) == Err(TruncatedEnvelope)
  {
    var full := Envelope(fields);
    hide Envelope, MAGIC, ParseFields, At, Be, Frames;
    AtWhole(full);
    EnvelopeAt(full, fields);
    if |MAGIC| + 2 <= k {
      CutAt(full, k, 0, MAGIC);
      CutAt(full, k, |MAGIC|, Be(FIELD_COUNT, 2));
      HeaderParses(full[..k]);
      CutFramesTruncate(full, k, |MAGIC| + 2, 1, fields);
    } else if |MAGIC| <= k {
      CutAt(full, k, 0, MAGIC);
      AtText(full[..k], 0, MAGIC);
      assert full[..k][0..0 + |MAGIC|] == full[..k][..|MAGIC|];
    }
  }

  lemma ExtendAt(full: seq<Byte>, more: seq<Byte>, pos: nat, part: seq<Byte>)
    requires At(full, pos, part)
    ensures At(full + more, pos, part)
  {
    assert (full + more)[pos..pos + |part|] == full[pos..pos + |part|];
  }

  // Anything after an envelope is trailing bytes, unless it makes it too large.
  lemma ExtensionIsTrailing(fields: seq<seq<Byte>>, more: seq<Byte>)
    requires |fields| == FIELD_COUNT && Fitting(fields) && more != []
    ensures ParseEnvelope(Envelope(fields) + more) ==
      if |Envelope(fields)| + |more| > MAX_WIRE_BYTES then Err(OversizedEnvelope) else Err(TrailingBytes)
  {
    var full := Envelope(fields);
    hide Envelope, MAGIC, ParseEnvelope, ParseFields, At, Be, Frames;
    AtWhole(full);
    EnvelopeAt(full, fields);
    ExtendAt(full, more, 0, MAGIC);
    ExtendAt(full, more, |MAGIC|, Be(FIELD_COUNT, 2));
    ExtendAt(full, more, |MAGIC| + 2, Frames(fields, 1));
    HeaderParses(full + more);
    FieldsOfEnvelope(full + more, fields);
  }
}
