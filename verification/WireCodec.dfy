// Coordinator requests on the wire: encoder, cursor and decoder, and the bijection
// between valid requests and accepted byte strings.
module WireCodec {
  import opened Wrappers
  import opened Bytes
  import opened WireEnvelope
  import opened WireRequest
  import Utf8

  function Fields(r: Request): seq<seq<Byte>>
  {
    [[1], OPERATION, RIGHT] + Values(r.body) + [r.digest]
  }

  function Encode(r: Request): seq<Byte> { Envelope(Fields(r)) }

  // ---------- Field decoders ----------

  function DigestField(bytes: seq<Byte>): Result<Digest, Rejection>
  {
    if |bytes| == 32 then Ok(bytes) else Err(InvalidFieldValue)
  }

  function Word32Field(bytes: seq<Byte>): Result<Word32, Rejection>
  {
    Widths();
    if |bytes| == 4 then Ok(FromBe(bytes)) else Err(InvalidFieldValue)
  }

  function Word64Field(bytes: seq<Byte>): Result<Word64, Rejection>
  {
    Widths();
    if |bytes| == 8 then Ok(FromBe(bytes)) else Err(InvalidFieldValue)
  }

  function Groups(bytes: seq<Byte>): seq<Word32>
    requires |bytes| % 4 == 0
  {
    Widths();
    if bytes == [] then [] else [FromBe(bytes[..4])] + Groups(bytes[4..])
  }

  function GroupField(bytes: seq<Byte>): Result<seq<Word32>, Rejection>
  {
    if |bytes| % 4 == 0 then Ok(Groups(bytes)) else Err(InvalidFieldValue)
  }

  // ---------- The second stage: 21 fields to a request ----------

  function ReadPeer(f: seq<seq<Byte>>): Result<Peer, Rejection>
    requires |f| == FIELD_COUNT
  {
    if !Utf8.IsUtf8(f[3]) || !Utf8.IsUtf8(f[4]) then Err(InvalidFieldValue)
    else if DigestField(f[5]).Err? || Word32Field(f[6]).Err? || Word32Field(f[7]).Err? then Err(InvalidFieldValue)
    else
      match PeerIdentity(f[3], f[4], DigestField(f[5]).value, Word32Field(f[6]).value, Word32Field(f[7]).value)
      case Err(_) => Err(InvalidRequest)
      case Ok(p) => Ok(p)
  }

  function ReadThreat(f: seq<seq<Byte>>): Result<Threat, Rejection>
    requires |f| == FIELD_COUNT
  {
    if Word32Field(f[8]).Err? || Word32Field(f[9]).Err? || GroupField(f[10]).Err? then Err(InvalidFieldValue)
    else
      match ThreatPrincipal(Word32Field(f[8]).value, Word32Field(f[9]).value, GroupField(f[10]).value)
      case Err(_) => Err(InvalidRequest)
      case Ok(t) => Ok(t)
  }

  function ReadLineage(f: seq<seq<Byte>>): Result<Lineage, Rejection>
    requires |f| == FIELD_COUNT
  {
    if exists i :: 11 <= i < 17 && DigestField(f[i]).Err? then Err(InvalidFieldValue)
    else
      assert DigestField(f[11]).Ok? && DigestField(f[12]).Ok? && DigestField(f[13]).Ok?;
      assert DigestField(f[14]).Ok? && DigestField(f[15]).Ok? && DigestField(f[16]).Ok?;
      Ok(Lineage(f[11], f[12], f[13], f[14], f[15], f[16]))
  }

  predicate Headed(f: seq<seq<Byte>>)
    requires |f| == FIELD_COUNT
  {
    f[0] == [1] && f[1] == OPERATION && f[2] == RIGHT
  }

  function ReadRequest(H: Hash, f: seq<seq<Byte>>): Result<Request, Rejection>
    requires |f| == FIELD_COUNT
  {
    if !Headed(f) then Err(InvalidFieldValue)
    else
      match ReadPeer(f)
      case Err(e) => Err(e)
      case Ok(peer) =>
        match ReadThreat(f)
        case Err(e) => Err(e)
        case Ok(threat) =>
          match ReadLineage(f)
          case Err(e) => Err(e)
          case Ok(lineage) => ReadRest(H, f, peer, threat, lineage)
  }

  function ReadRest(H: Hash, f: seq<seq<Byte>>, peer: Peer, threat: Threat,
    lineage: Lineage): Result<Request, Rejection>
    requires |f| == FIELD_COUNT
  {
    if DigestField(f[17]).Err? || Word64Field(f[18]).Err? || Word64Field(f[19]).Err? then Err(InvalidFieldValue)
    else
      match PrepareRequest(H, Body(peer, threat, lineage, f[17], Word64Field(f[18]).value, Word64Field(f[19]).value))
      case Err(_) => Err(InvalidRequest)
      case Ok(request) =>
        if DigestField(f[20]).Err? then Err(InvalidFieldValue)
        else if f[20] != request.digest then Err(RequestIdentityMismatch)
        else Ok(request)
  }

  function Decode(H: Hash, bytes: seq<Byte>): Result<Request, Rejection>
  {
    match ParseEnvelope(bytes)
    case Err(e) => Err(e)
    case Ok(fields) => DecodeFields(H, bytes, fields)
  }

  function DecodeFields(H: Hash, bytes: seq<Byte>, fields: seq<seq<Byte>>): Result<Request, Rejection>
    requires ParseEnvelope(bytes) == Ok(fields)
  {
    ParsedIsEnvelope(bytes);
    ReadRequest(H, fields)
  }

  // ---------- Field round trips ----------

  lemma Word32RoundTrip(n: Word32)
    ensures Word32Field(Be(n, 4)) == Ok(n)
  {
    Widths();
    BeRoundTrip(n, 4);
  }

  lemma Word64RoundTrip(n: Word64)
    ensures Word64Field(Be(n, 8)) == Ok(n)
  {
    Widths();
    BeRoundTrip(n, 8);
  }

  lemma Word32Bytes(bytes: seq<Byte>)
    requires Word32Field(bytes).Ok?
    ensures Be(Word32Field(bytes).value, 4) == bytes
  {
    FromBeRoundTrip(bytes);
  }

  lemma Word64Bytes(bytes: seq<Byte>)
    requires Word64Field(bytes).Ok?
    ensures Be(Word64Field(bytes).value, 8) == bytes
  {
    FromBeRoundTrip(bytes);
  }

  lemma {:induction false} GroupsRoundTrip(g: seq<Word32>)
    ensures GroupField(GroupBytes(g)) == Ok(g)
  {
    if g != [] {
      var x, y := Be(g[0], 4), GroupBytes(g[1..]);
      assert (x + y)[..4] == x && (x + y)[4..] == y;
      Widths();
      BeRoundTrip(g[0], 4);
      GroupsRoundTrip(g[1..]);
      hide Be, FromBe;
      assert g == [g[0]] + g[1..];
    }
  }

  lemma {:induction false} GroupsBytes(bytes: seq<Byte>)
    requires |bytes| % 4 == 0
    ensures GroupBytes(Groups(bytes)) == bytes
  {
    if bytes != [] {
      FromBeRoundTrip(bytes[..4]);
      GroupsBytes(bytes[4..]);
      hide Be, FromBe;
      var g := Groups(bytes);
      assert g[1..] == Groups(bytes[4..]);
      assert bytes == bytes[..4] + bytes[4..];
    }
  }

  // ---------- What each stage reads ----------

  predicate PeerFields(f: seq<seq<Byte>>, p: Peer)
    requires |f| == FIELD_COUNT
  {
    f[3] == p.signing && f[4] == p.team && f[5] == p.requirement && f[6] == Be(p.uid, 4) && f[7] == Be(p.session, 4)
  }

  predicate ValidPeer(p: Peer) { PeerIdentity(p.signing, p.team, p.requirement, p.uid, p.session) == Ok(p) }

  predicate ValidThreat(t: Threat) { ThreatPrincipal(t.uid, t.gid, t.groups) == Ok(t) }

  // Valid names are ASCII, so the UTF-8 check never refuses them.
  lemma NamesAreUtf8(p: Peer)
    requires ValidPeer(p)
    ensures Utf8.IsUtf8(p.signing) && Utf8.IsUtf8(p.team)
  {
    Utf8.AsciiIsUtf8(p.signing, 0);
    Utf8.AsciiIsUtf8(p.team, 0);
  }

  lemma PeerRead(f: seq<seq<Byte>>, p: Peer)
    requires |f| == FIELD_COUNT && ValidPeer(p) && PeerFields(f, p)
    ensures ReadPeer(f) == Ok(p)
  {
    NamesAreUtf8(p);
    Word32RoundTrip(p.uid);
    Word32RoundTrip(p.session);
    hide Be, Word32Field, PeerIdentity;
  }

  lemma PeerWritten(f: seq<seq<Byte>>)
    requires |f| == FIELD_COUNT && ReadPeer(f).Ok?
    ensures ValidPeer(ReadPeer(f).value) && PeerFields(f, ReadPeer(f).value)
  {
    Word32Bytes(f[6]);
    Word32Bytes(f[7]);
    hide Be, Word32Field, ValidSigning, ValidTeam;
  }

  predicate ThreatFields(f: seq<seq<Byte>>, t: Threat)
    requires |f| == FIELD_COUNT
  {
    f[8] == Be(t.uid, 4) && f[9] == Be(t.gid, 4) && f[10] == GroupBytes(t.groups)
  }

  lemma ThreatRead(f: seq<seq<Byte>>, t: Threat)
    requires |f| == FIELD_COUNT && ValidThreat(t) && ThreatFields(f, t)
    ensures ReadThreat(f) == Ok(t)
  {
    Word32RoundTrip(t.uid);
    Word32RoundTrip(t.gid);
    GroupsRoundTrip(t.groups);
    hide Be, Word32Field, GroupField, ThreatPrincipal;
  }

  lemma ThreatWritten(f: seq<seq<Byte>>)
    requires |f| == FIELD_COUNT && ReadThreat(f).Ok?
    ensures ValidThreat(ReadThreat(f).value) && ThreatFields(f, ReadThreat(f).value)
  {
    Word32Bytes(f[8]);
    Word32Bytes(f[9]);
    GroupsBytes(f[10]);
    hide Be, Word32Field, Groups, GroupBytes, Increasing;
  }

  predicate LineageFields(f: seq<seq<Byte>>, l: Lineage)
    requires |f| == FIELD_COUNT
  {
    && f[11] == l.reservation && f[12] == l.intent && f[13] == l.grant
    && f[14] == l.candidate && f[15] == l.proof && f[16] == l.executable
  }

  lemma LineageRead(f: seq<seq<Byte>>, l: Lineage)
    requires |f| == FIELD_COUNT && LineageFields(f, l)
    ensures ReadLineage(f) == Ok(l)
  {
  }

  lemma LineageWritten(f: seq<seq<Byte>>)
    requires |f| == FIELD_COUNT && ReadLineage(f).Ok?
    ensures LineageFields(f, ReadLineage(f).value)
  {
  }

  predicate RestFields(f: seq<seq<Byte>>, r: Request)
    requires |f| == FIELD_COUNT
  {
    f[17] == r.body.nonce && f[18] == Be(r.body.issued, 8) && f[19] == Be(r.body.expires, 8) && f[20] == r.digest
  }

  lemma RestRead(H: Hash, f: seq<seq<Byte>>, r: Request)
    requires |f| == FIELD_COUNT && PrepareRequest(H, r.body) == Ok(r) && RestFields(f, r)
    ensures ReadRest(H, f, r.body.peer, r.body.threat, r.body.lineage) == Ok(r)
  {
    Word64RoundTrip(r.body.issued);
    Word64RoundTrip(r.body.expires);
    hide Be, Word64Field, PrepareRequest;
  }

  lemma RestWritten(H: Hash, f: seq<seq<Byte>>, peer: Peer, threat: Threat, lineage: Lineage)
    requires |f| == FIELD_COUNT && ReadRest(H, f, peer, threat, lineage).Ok?
    ensures var r := ReadRest(H, f, peer, threat, lineage).value;
      && PrepareRequest(H, r.body) == Ok(r) && RestFields(f, r)
      && r.body.peer == peer && r.body.threat == threat && r.body.lineage == lineage
  {
    Word64Bytes(f[18]);
    Word64Bytes(f[19]);
    hide Be, Word64Field, PrepareRequest;
    PreparedBody(H, Body(peer, threat, lineage, f[17], Word64Field(f[18]).value, Word64Field(f[19]).value));
  }

  lemma PreparedBody(H: Hash, b: Body)
    ensures PrepareRequest(H, b).Ok? ==> PrepareRequest(H, b).value.body == b
  {
    hide IdentityBytes, NoneZero;
  }

  // The 21 fields of a request, one by one.
  predicate FieldsOf(f: seq<seq<Byte>>, r: Request)
    requires |f| == FIELD_COUNT
  {
    && Headed(f)
    && PeerFields(f, r.body.peer) && ThreatFields(f, r.body.threat) && LineageFields(f, r.body.lineage)
      && RestFields(f, r)
  }

  lemma FieldsAre(f: seq<seq<Byte>>, r: Request)
    requires |f| == FIELD_COUNT
    ensures |Fields(r)| == FIELD_COUNT
    ensures FieldsOf(f, r) <==> f == Fields(r)
  {
    hide Be, GroupBytes, OPERATION, RIGHT;
    var g := Fields(r);
    assert g[3..20] == Values(r.body);
    assert forall i :: 0 <= i < 17 ==> g[3 + i] == Values(r.body)[i];
    assert FieldsOf(g, r);
    if FieldsOf(f, r) {
      assert forall i :: 0 <= i < FIELD_COUNT ==> f[i] == g[i];
    }
  }

  // The second stage undoes the field list, and accepts nothing else.
  lemma ReadsFields(H: Hash, r: Request)
    requires Valid(H, r)
    ensures |Fields(r)| == FIELD_COUNT && ReadRequest(H, Fields(r)) == Ok(r)
  {
    var f := Fields(r);
    CountFields(r);
    FieldsAre(f, r);
    ValidParts(H, r);
    hide *;
    FieldsParts(f, r);
    PeerRead(f, r.body.peer);
    ThreatRead(f, r.body.threat);
    LineageRead(f, r.body.lineage);
    RestRead(H, f, r);
    ReadsInOrder(H, f, r.body.peer, r.body.threat, r.body.lineage);
  }

  lemma CountFields(r: Request)
    ensures |Fields(r)| == FIELD_COUNT
  {
    hide OPERATION, RIGHT;
  }

  lemma FieldsParts(f: seq<seq<Byte>>, r: Request)
    requires |f| == FIELD_COUNT
    ensures FieldsOf(f, r) <==>
      && Headed(f)
      && PeerFields(f, r.body.peer) && ThreatFields(f, r.body.threat) && LineageFields(f, r.body.lineage)
        && RestFields(f, r)
  {
    hide Headed;
  }

  lemma ValidParts(H: Hash, r: Request)
    ensures Valid(H, r) <==> ValidPeer(r.body.peer) && ValidThreat(r.body.threat) && PrepareRequest(H, r.body) == Ok(r)
  {
    hide PrepareRequest, PeerIdentity, ThreatPrincipal;
  }

  lemma ReadsInOrder(H: Hash, f: seq<seq<Byte>>, peer: Peer, threat: Threat, lineage: Lineage)
    requires |f| == FIELD_COUNT && Headed(f)
    requires ReadPeer(f) == Ok(peer) && ReadThreat(f) == Ok(threat) && ReadLineage(f) == Ok(lineage)
    ensures ReadRequest(H, f) == ReadRest(H, f, peer, threat, lineage)
  {
    hide Headed, ReadPeer, ReadThreat, ReadLineage, ReadRest;
  }

  lemma ReadInOrder(H: Hash, f: seq<seq<Byte>>)
    requires |f| == FIELD_COUNT && ReadRequest(H, f).Ok?
    ensures Headed(f)
    ensures ReadPeer(f).Ok? && ReadThreat(f).Ok? && ReadLineage(f).Ok?
    ensures ReadRequest(H, f) == ReadRest(H, f, ReadPeer(f).value, ReadThreat(f).value, ReadLineage(f).value)
  {
    hide Headed, ReadPeer, ReadThreat, ReadLineage, ReadRest;
  }

  lemma ReadIsFields(H: Hash, f: seq<seq<Byte>>)
    requires |f| == FIELD_COUNT && ReadRequest(H, f).Ok?
    ensures Valid(H, ReadRequest(H, f).value) && f == Fields(ReadRequest(H, f).value)
  {
    hide *;
    var r := ReadRequest(H, f).value;
    ReadInOrder(H, f);
    PeerWritten(f);
    ThreatWritten(f);
    LineageWritten(f);
    RestWritten(H, f, ReadPeer(f).value, ReadThreat(f).value, ReadLineage(f).value);
    FieldsParts(f, r);
    FieldsAre(f, r);
    ValidParts(H, r);
  }

  // ---------- Sizes ----------

  lemma FramesSize(fields: seq<seq<Byte>>, id: nat)
    ensures |Frames(fields, id)| == 6 * |fields| + Total(fields)
  {
    if fields != [] { FramesSize(fields[1..], id + 1); }
  }

  function Total(fields: seq<seq<Byte>>): nat
  {
    if fields == [] then 0 else |fields[0]| + Total(fields[1..])
  }

  lemma {:induction false} TotalConcat(a: seq<seq<Byte>>, b: seq<seq<Byte>>)
    ensures Total(a + b) == Total(a) + Total(b)
  {
    if a == [] {
      assert a + b == b;
    } else {
      assert (a + b)[1..] == a[1..] + b;
      TotalConcat(a[1..], b);
    }
  }

  function SuffixTotal(v: seq<seq<Byte>>, i: nat): nat
    requires i <= |v|
  {
    Total(v[i..])
  }

  lemma SuffixStep(v: seq<seq<Byte>>, i: nat)
    requires i < |v|
    ensures SuffixTotal(v, i) == |v[i]| + SuffixTotal(v, i + 1)
  {
    assert v[i..][1..] == v[i + 1..];
  }

  lemma Total5(v: seq<seq<Byte>>, i: nat)
    requires i + 5 <= |v|
    ensures SuffixTotal(v, i) == |v[i]| + |v[i + 1]| + |v[i + 2]| + |v[i + 3]| + |v[i + 4]| + SuffixTotal(v, i + 5)
  {
    hide SuffixTotal;
    SuffixStep(v, i);
    SuffixStep(v, i + 1);
    SuffixStep(v, i + 2);
    SuffixStep(v, i + 3);
    SuffixStep(v, i + 4);
  }

  lemma ValuesTotal(b: Body)
    requires |b.peer.team| == TEAM_BYTES
    ensures Total(Values(b)) == |b.peer.signing| + 4 * |b.threat.groups| + 298
  {
    var v := Values(b);
    assert v[0..] == v;
    assert SuffixTotal(v, 17) == 0;
    Total5(v, 0);
    Total5(v, 5);
    Total5(v, 10);
    SuffixStep(v, 15);
    SuffixStep(v, 16);
    hide Be, GroupBytes;
  }

  // The length of every valid encoding: at most 819 bytes, within the 1,024 reserved for
  // it and the 4,096 a decoder reads.
  lemma EncodedSize(H: Hash, r: Request)
    requires Valid(H, r)
    ensures |Encode(r)| == 563 + |r.body.peer.signing| + 4 * |r.body.threat.groups|
    ensures |Encode(r)| <= 819
  {
    hide *;
    ValidSizes(H, r);
    ValuesTotal(r.body);
    FieldsTotal(r);
    CountFields(r);
    MagicSize();
    EncodeIs(r);
    EnvelopeAt([], Fields(r));
    FramesSize(Fields(r), 1);
    Limits();
  }

  lemma Limits()
    ensures FIELD_COUNT == 21 && TEAM_BYTES == 10 && MAX_SIGNING_BYTES == 128 && MAX_GROUPS == 32
      && MAX_WIRE_BYTES == 4_096 && MAX_FIELD_BYTES == 256
  {
  }

  lemma EncodeIs(r: Request)
    ensures Encode(r) == Envelope(Fields(r))
  {
  }

  lemma MagicSize()
    ensures |MAGIC| == 34
  {
  }

  lemma FieldsTotal(r: Request)
    ensures Total(Fields(r)) == 1 + 29 + 41 + Total(Values(r.body)) + 32
  {
    OperationSize();
    hide OPERATION, RIGHT, Values;
    TotalConcat([[1], OPERATION, RIGHT] + Values(r.body), [r.digest]);
    TotalConcat([[1], OPERATION, RIGHT], Values(r.body));
    HeadTotal(OPERATION, RIGHT);
    assert Total([r.digest]) == 32;
  }

  lemma HeadTotal(a: seq<Byte>, b: seq<Byte>)
    ensures Total([[1], a, b]) == 1 + |a| + |b|
  {
    var v := [[1], a, b];
    assert v[1..] == [a, b] && v[1..][1..] == [b];
    assert Total([b]) == |b|;
    assert Total([a, b]) == |a| + Total([b]);
  }

  lemma ValidFits(H: Hash, r: Request)
    requires Valid(H, r)
    ensures |Fields(r)| == FIELD_COUNT && Fitting(Fields(r)) && |Envelope(Fields(r))| <= MAX_WIRE_BYTES
  {
    hide *;
    EncodedSize(H, r);
    ValidSizes(H, r);
    ValuesAreShort(r.body);
    OperationSize();
    CountFields(r);
    EncodeIs(r);
    Limits();
    FieldsFit(r);
  }

  lemma FieldsFit(r: Request)
    requires Fitting(Values(r.body))
    ensures Fitting(Fields(r))
  {
    OperationSize();
    hide OPERATION, RIGHT, Values;
    FitsTogether(OPERATION, RIGHT, Values(r.body), r.digest);
  }

  lemma FitsTogether(a: seq<Byte>, b: seq<Byte>, values: seq<seq<Byte>>, d: seq<Byte>)
    requires |a| <= MAX_FIELD_BYTES && |b| <= MAX_FIELD_BYTES && |d| <= MAX_FIELD_BYTES && Fitting(values)
    ensures Fitting([[1], a, b] + values + [d])
  {
  }

  // ---------- The bijection ----------

  // Decoding the encoding of a valid request gives it back.
  lemma DecodeInvertsEncode(H: Hash, r: Request)
    requires Valid(H, r)
    ensures Decode(H, Encode(r)) == Ok(r)
  {
    hide Valid, Fields, Envelope, ParseEnvelope, ReadRequest;
    ValidFits(H, r);
    ParsesEnvelope(Fields(r));
    ReadsFields(H, r);
  }

  // Every accepted byte string is the encoding of the valid request it decodes to.
  lemma EncodeInvertsDecode(H: Hash, bytes: seq<Byte>)
    requires Decode(H, bytes).Ok?
    ensures var r := Decode(H, bytes).value; Valid(H, r) && Encode(r) == bytes
  {
    hide Valid, Fields, Envelope, ParseEnvelope, ReadRequest;
    ParsedIsEnvelope(bytes);
    ReadIsFields(H, ParseEnvelope(bytes).value);
  }

  // A proper prefix of an encoding is refused as truncated.
  lemma PrefixRefused(H: Hash, r: Request, k: nat)
    requires Valid(H, r) && k < |Encode(r)|
    ensures Decode(H, Encode(r)[..k]) == Err(TruncatedEnvelope)
  {
    hide Valid, Fields, Envelope, ParseEnvelope, ReadRequest;
    ValidFits(H, r);
    PrefixIsTruncated(Fields(r), k);
  }

  // An extension is refused for its trailing bytes or its size.
  lemma ExtensionRefused(H: Hash, r: Request, more: seq<Byte>)
    requires Valid(H, r) && more != []
    ensures Decode(H, Encode(r) + more) == Err(if |Encode(r)| + |more| > MAX_WIRE_BYTES then OversizedEnvelope
      else TrailingBytes)
  {
    hide Valid, Fields, Envelope, ParseEnvelope, ReadRequest;
    ValidFits(H, r);
    ExtensionIsTrailing(Fields(r), more);
  }
}
