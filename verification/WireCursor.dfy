// The encoder's appends and the decoder's cursor, proved against the codec.
module WireCursor {
  import opened Wrappers
  import opened Bytes
  import opened WireEnvelope
  import opened WireRequest
  import opened WireCodec

  class Cursor {
    const bytes: seq<Byte>
    var position: nat

    constructor (bytes: seq<Byte>)
      ensures this.bytes == bytes && position == 0
    {
      this.bytes := bytes;
      position := 0;
    }

    ghost predicate Valid() reads this { position <= |bytes| }

    function Remaining(): nat
      requires Valid()
      reads this
    {
      |bytes| - position
    }

    method Take(length: nat) returns (r: Result<seq<Byte>, Rejection>)
      requires Valid()
      modifies this`position
      ensures Valid()
      ensures length <= old(Remaining()) ==>
        r == Ok(bytes[old(position)..old(position) + length]) && position == old(position) + length
      ensures length > old(Remaining()) ==> r == Err(TruncatedEnvelope) && position == old(position)
    {
      if position + length > |bytes| { return Err(TruncatedEnvelope); }
      r := Ok(bytes[position..position + length]);
      position := position + length;
    }

    method ReadBigEndian(width: nat) returns (r: Result<nat, Rejection>)
      requires Valid()
      modifies this`position
      ensures Valid()
      ensures width <= old(Remaining()) ==>
        r == Ok(ReadBe(bytes, old(position), width)) && position == old(position) + width
      ensures width > old(Remaining()) ==> r == Err(TruncatedEnvelope) && position == old(position)
    {
      var taken := Take(width);
      if taken.Err? { return Err(taken.error); }
      r := Ok(FromBe(taken.value));
    }
  }

  // Fields already read, put before what the rest parses to.
  function PrependAll(fields: seq<seq<Byte>>, rest: Result<Parsed, Rejection>): Result<Parsed, Rejection>
  {
    match rest
    case Err(e) => Err(e)
    case Ok(p) => Ok(Parsed(fields + p.fields, p.end))
  }

  lemma PrependOne(fields: seq<seq<Byte>>, value: seq<Byte>, rest: Result<Parsed, Rejection>)
    ensures PrependAll(fields, Prepend(value, rest)) == PrependAll(fields + [value], rest)
  {
    if rest.Ok? { assert fields + ([value] + rest.value.fields) == fields + [value] + rest.value.fields; }
  }

  lemma PrependNone(rest: Result<Parsed, Rejection>)
    ensures PrependAll([], rest) == rest
  {
    if rest.Ok? { assert [] + rest.value.fields == rest.value.fields; }
  }

  // The header, as the specification takes it.
  lemma HeaderStep(bytes: seq<Byte>)
    requires |bytes| <= MAX_WIRE_BYTES
    ensures |MAGIC| > |bytes| ==> ParseEnvelope(bytes) == Err(TruncatedEnvelope)
    ensures |MAGIC| <= |bytes| && bytes[0..0 + |MAGIC|] != MAGIC ==> ParseEnvelope(bytes) == Err(InvalidMagic)
    ensures |MAGIC| <= |bytes| < |MAGIC| + 2 && bytes[0..0 + |MAGIC|] == MAGIC ==>
      ParseEnvelope(bytes) == Err(TruncatedEnvelope)
    ensures |MAGIC| + 2 <= |bytes| && bytes[0..0 + |MAGIC|] == MAGIC ==>
      ParseEnvelope(bytes) == if ReadBe(bytes, |MAGIC|, 2) != FIELD_COUNT then Err(InvalidFieldCount)
        else AfterHeader(bytes)
  {
    hide MAGIC, ReadBe, ParseFields;
    assert |MAGIC| <= |bytes| ==> bytes[0..0 + |MAGIC|] == bytes[..|MAGIC|];
  }

  // One turn of the field loop, as the specification takes it.
  lemma ParseStep(bytes: seq<Byte>, pos: nat, id: nat)
    requires pos <= |bytes| && id <= FIELD_COUNT
    ensures pos + 2 > |bytes| ==> ParseFields(bytes, pos, id) == Err(TruncatedEnvelope)
    ensures pos + 2 <= |bytes| && ReadBe(bytes, pos, 2) != id ==>
      ParseFields(bytes, pos, id) == Err(NonCanonicalFieldOrder)
    ensures pos + 2 <= |bytes| < pos + 6 && ReadBe(bytes, pos, 2) == id ==>
      ParseFields(bytes, pos, id) == Err(TruncatedEnvelope)
    ensures pos + 6 <= |bytes| && ReadBe(bytes, pos, 2) == id ==>
      var length := ReadBe(bytes, pos + 2, 4);
      ParseFields(bytes, pos, id) ==
        if length > MAX_FIELD_BYTES then Err(OversizedField)
        else if pos + 6 + length > |bytes| then Err(TruncatedEnvelope)
        else Prepend(bytes[pos + 6..pos + 6 + length], ParseFields(bytes, pos + 6 + length, id + 1))
  {
    hide ReadBe;
  }

  method ReadFields(cursor: Cursor) returns (r: Result<Parsed, Rejection>)
    requires cursor.Valid()
    modifies cursor
    ensures cursor.Valid()
    ensures r == ParseFields(cursor.bytes, old(cursor.position), 1)
    ensures r.Ok? ==> cursor.position == r.value.end
  {
    hide ReadBe, ParseFields, PrependAll;
    ghost var bytes := cursor.bytes;
    ghost var all := ParseFields(bytes, cursor.position, 1);
    PrependNone(all);
    var fields: seq<seq<Byte>> := [];
    var id := 1;
    while id <= FIELD_COUNT
      invariant cursor.Valid() && 1 <= id <= FIELD_COUNT + 1
      invariant all == PrependAll(fields, ParseFields(bytes, cursor.position, id))
    {
      ParseStep(bytes, cursor.position, id);
      FailedRest(fields);
      var fieldId := cursor.ReadBigEndian(2);
      if fieldId.Err? { return Err(fieldId.error); }
      if fieldId.value != id { return Err(NonCanonicalFieldOrder); }
      var length := cursor.ReadBigEndian(4);
      if length.Err? { return Err(length.error); }
      if length.value > MAX_FIELD_BYTES { return Err(OversizedField); }
      var value := cursor.Take(length.value);
      if value.Err? { return Err(value.error); }
      PrependOne(fields, value.value, ParseFields(bytes, cursor.position, id + 1));
      fields := fields + [value.value];
      id := id + 1;
    }
    NoFields(bytes, cursor.position);
    LastRest(fields, cursor.position);
    r := Ok(Parsed(fields, cursor.position));
  }

  lemma LastRest(fields: seq<seq<Byte>>, end: nat)
    ensures PrependAll(fields, Ok(Parsed([], end))) == Ok(Parsed(fields, end))
  {
    assert fields + [] == fields;
  }

  method DecodeFields(bytes: seq<Byte>) returns (r: Result<seq<seq<Byte>>, Rejection>)
    ensures r == ParseEnvelope(bytes)
  {
    if |bytes| > MAX_WIRE_BYTES { return Err(OversizedEnvelope); }
    var cursor := new Cursor(bytes);
    var refused := ReadHeader(cursor);
    if refused.Some? { return Err(refused.value); }
    hide *;
    r := ReadBody(cursor);
  }

  method ReadBody(cursor: Cursor) returns (r: Result<seq<seq<Byte>>, Rejection>)
    requires cursor.Valid() && cursor.position == |MAGIC| + 2 <= |cursor.bytes|
    modifies cursor
    ensures r == AfterHeader(cursor.bytes)
  {
    AfterHeaderIs(cursor.bytes);
    hide MAGIC, AfterHeader, ParseFields;
    var parsed := ReadFields(cursor);
    if parsed.Err? { return Err(parsed.error); }
    if cursor.Remaining() != 0 { return Err(TrailingBytes); }
    r := Ok(parsed.value.fields);
  }

  method ReadHeader(cursor: Cursor) returns (refused: Option<Rejection>)
    requires cursor.Valid() && cursor.position == 0 && |cursor.bytes| <= MAX_WIRE_BYTES
    modifies cursor
    ensures cursor.Valid()
    ensures refused.Some? ==> ParseEnvelope(cursor.bytes) == Err(refused.value)
    ensures refused.None? ==>
      && cursor.position == |MAGIC| + 2 <= |cursor.bytes|
      && ParseEnvelope(cursor.bytes) == AfterHeader(cursor.bytes)
  {
    hide MAGIC, ReadBe, ParseEnvelope, AfterHeader;
    HeaderStep(cursor.bytes);
    var magic := cursor.Take(|MAGIC|);
    if magic.Err? { return Some(magic.error); }
    if magic.value != MAGIC { return Some(InvalidMagic); }
    var count := cursor.ReadBigEndian(2);
    if count.Err? { return Some(count.error); }
    if count.value != FIELD_COUNT { return Some(InvalidFieldCount); }
    refused := None;
  }

  lemma FailedRest(fields: seq<seq<Byte>>)
    ensures forall e: Rejection :: PrependAll(fields, Err(e)) == Err(e)
  {
  }

  method DecodeRequest(H: Hash, bytes: seq<Byte>) returns (r: Result<Request, Rejection>)
    ensures r == Decode(H, bytes)
  {
    hide ParseEnvelope, ReadRequest;
    var fields := DecodeFields(bytes);
    if fields.Err? { return Err(fields.error); }
    ParsedIsEnvelope(bytes);
    r := ReadRequest(H, fields.value);
  }

  // ---------- Encoding ----------

  method WriteField(output: seq<Byte>, id: nat, value: seq<Byte>) returns (r: seq<Byte>)
    ensures r == output + FieldFrame(id, value)
  {
    hide Be;
    r := output + Be(id, 2);
    r := r + Be(|value|, 4);
    r := r + value;
  }

  lemma {:induction false} GroupsAppend(groups: seq<Word32>, g: Word32)
    ensures GroupBytes(groups + [g]) == GroupBytes(groups) + Be(g, 4)
  {
    hide Be;
    if groups == [] {
      assert groups + [g] == [g];
      assert GroupBytes([]) == [];
    } else {
      assert (groups + [g])[1..] == groups[1..] + [g];
      GroupsAppend(groups[1..], g);
    }
  }

  method EncodeGroups(groups: seq<Word32>) returns (r: seq<Byte>)
    ensures r == GroupBytes(groups)
  {
    r := [];
    var i := 0;
    while i < |groups|
      invariant 0 <= i <= |groups| && r == GroupBytes(groups[..i])
    {
      hide Be, GroupBytes;
      GroupsAppend(groups[..i], groups[i]);
      assert groups[..i] + [groups[i]] == groups[..i + 1];
      r := r + Be(groups[i], 4);
      i := i + 1;
    }
    assert groups[..i] == groups;
  }

  lemma {:induction false} FramesAppend(fields: seq<seq<Byte>>, value: seq<Byte>, id: nat)
    ensures Frames(fields + [value], id) == Frames(fields, id) + FieldFrame(id + |fields|, value)
  {
    hide FieldFrame;
    if fields == [] {
      assert fields + [value] == [value];
      assert Frames([], id + 1) == [];
    } else {
      assert (fields + [value])[1..] == fields[1..] + [value];
      FramesAppend(fields[1..], value, id + 1);
      FramesStep(fields + [value], id);
      FramesStep(fields, id);
    }
  }

  method EncodeFields(fields: seq<seq<Byte>>) returns (output: seq<Byte>)
    ensures output == Envelope(fields)
  {
    hide MAGIC, Be, Frames, FieldFrame;
    output := MAGIC + Be(FIELD_COUNT, 2);
    ghost var head := output;
    var i := 0;
    FramesStep([], 1);
    while i < |fields|
      invariant 0 <= i <= |fields|
      invariant output == head + Frames(fields[..i], 1)
    {
      FramesAppend(fields[..i], fields[i], 1);
      assert fields[..i] + [fields[i]] == fields[..i + 1];
      output := WriteField(output, i + 1, fields[i]);
      i := i + 1;
    }
    assert fields[..i] == fields;
  }

  method EncodeRequest(request: Request) returns (output: seq<Byte>)
    ensures output == Encode(request)
  {
    hide OPERATION, RIGHT, Be, GroupBytes, Envelope;
    var b := request.body;
    var groups := EncodeGroups(b.threat.groups);
    var fields: seq<seq<Byte>> :=
      [ [1], OPERATION, RIGHT, b.peer.signing, b.peer.team, b.peer.requirement, Be(b.peer.uid, 4),
        Be(b.peer.session, 4),
        Be(b.threat.uid, 4), Be(b.threat.gid, 4), groups,
        b.lineage.reservation, b.lineage.intent, b.lineage.grant, b.lineage.candidate, b.lineage.proof,
        b.lineage.executable,
        b.nonce, Be(b.issued, 8), Be(b.expires, 8), request.digest ];
    assert fields == Fields(request);
    output := EncodeFields(fields);
  }
}
