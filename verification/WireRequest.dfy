// Coordinator requests: the validating constructors and the request's identity.
module WireRequest {
  import opened Wrappers
  import opened Bytes
  import opened WireEnvelope

  type Word32 = n: nat | n < 0x1_0000_0000
  type Word64 = n: nat | n < 0x1_0000_0000_0000_0000
  type Hash = seq<Byte> -> Digest

  const OPERATION := Ascii("execute-reserved-lake-command")
  const RIGHT := Ascii("com.leanbun.execute-reserved-lake-command")
  const MAX_LIFETIME_MS := 60_000
  const MAX_SIGNING_BYTES := 128
  const TEAM_BYTES := 10
  const MAX_GROUPS := 32

  datatype Peer = Peer(signing: seq<Byte>, team: seq<Byte>, requirement: Digest, uid: Word32, session: Word32)

  datatype Threat = Threat(uid: Word32, gid: Word32, groups: seq<Word32>)

  datatype Lineage = Lineage(
    reservation: Digest, intent: Digest, grant: Digest, candidate: Digest, proof: Digest, executable: Digest)

  datatype Body = Body(peer: Peer, threat: Threat, lineage: Lineage, nonce: Digest, issued: Word64, expires: Word64)

  datatype Request = Request(body: Body, digest: Digest)

  datatype Fault =
    | InvalidPeerIdentity
    | InvalidThreatPrincipal
    | InvalidSupplementaryGroups
    | PeerPrincipalMismatch
    | InvalidLineage
    | InvalidNonce
    | InvalidTimeWindow

  // ---------- Validation ----------

  predicate Upper(b: Byte) { 65 <= b <= 90 }
  predicate Digit(b: Byte) { 48 <= b <= 57 }
  predicate Alnum(b: Byte) { Upper(b) || Digit(b) || 97 <= b <= 122 }

  predicate ValidSigning(s: seq<Byte>)
  {
    && s != [] && |s| <= MAX_SIGNING_BYTES
    && Alnum(s[0]) && Alnum(s[|s| - 1])
    && (forall i :: 0 <= i < |s| ==> Alnum(s[i]) || s[i] == 46 || s[i] == 45)
    && (forall i :: 0 <= i < |s| - 1 ==> !(s[i] == 46 && s[i + 1] == 46))
  }

  predicate ValidTeam(s: seq<Byte>)
  {
    |s| == TEAM_BYTES && forall i :: 0 <= i < |s| ==> Upper(s[i]) || Digit(s[i])
  }

  predicate Zero(d: Digest) { forall i :: 0 <= i < |d| ==> d[i] == 0 }

  predicate Increasing(g: seq<Word32>) { forall i :: 0 <= i < |g| - 1 ==> g[i] < g[i + 1] }

  function PeerIdentity(signing: seq<Byte>, team: seq<Byte>, requirement: Digest, uid: Word32,
    session: Word32): Result<Peer, Fault>
  {
    if !ValidSigning(signing) || !ValidTeam(team) || Zero(requirement) || uid == 0 then Err(InvalidPeerIdentity)
    else Ok(Peer(signing, team, requirement, uid, session))
  }

  function ThreatPrincipal(uid: Word32, gid: Word32, groups: seq<Word32>): Result<Threat, Fault>
  {
    if uid == 0 then Err(InvalidThreatPrincipal)
    else if |groups| > MAX_GROUPS || !Increasing(groups) || gid in groups then Err(InvalidSupplementaryGroups)
    else Ok(Threat(uid, gid, groups))
  }

  predicate NoneZero(l: Lineage)
  {
    !Zero(l.reservation) && !Zero(l.intent) && !Zero(l.grant) && !Zero(l.candidate) && !Zero(l.proof)
      && !Zero(l.executable)
  }

  function PrepareRequest(H: Hash, b: Body): Result<Request, Fault>
  {
    if b.peer.uid != b.threat.uid then Err(PeerPrincipalMismatch)
    else if !NoneZero(b.lineage) then Err(InvalidLineage)
    else if Zero(b.nonce) then Err(InvalidNonce)
    else if !(b.issued < b.expires <= b.issued + MAX_LIFETIME_MS) then Err(InvalidTimeWindow)
    else Ok(Request(b, H(IdentityBytes(b))))
  }

  // What the constructors let through.
  predicate Valid(H: Hash, r: Request)
  {
    && PeerIdentity(r.body.peer.signing, r.body.peer.team, r.body.peer.requirement, r.body.peer.uid,
      r.body.peer.session) == Ok(r.body.peer)
    && ThreatPrincipal(r.body.threat.uid, r.body.threat.gid, r.body.threat.groups) == Ok(r.body.threat)
    && PrepareRequest(H, r.body) == Ok(r)
  }

  // ---------- The values, in wire order ----------

  function GroupBytes(groups: seq<Word32>): (r: seq<Byte>)
    ensures |r| == 4 * |groups|
  {
    if groups == [] then [] else Be(groups[0], 4) + GroupBytes(groups[1..])
  }

  function Values(b: Body): seq<seq<Byte>>
  {
    [ b.peer.signing, b.peer.team, b.peer.requirement, Be(b.peer.uid, 4), Be(b.peer.session, 4),
      Be(b.threat.uid, 4), Be(b.threat.gid, 4), GroupBytes(b.threat.groups),
      b.lineage.reservation, b.lineage.intent, b.lineage.grant, b.lineage.candidate, b.lineage.proof,
      b.lineage.executable,
      b.nonce, Be(b.issued, 8), Be(b.expires, 8) ]
  }

  lemma BeInjective(m: nat, n: nat, width: nat)
    requires m < Pow256(width) && n < Pow256(width) && Be(m, width) == Be(n, width)
    ensures m == n
  {
    BeRoundTrip(m, width);
    BeRoundTrip(n, width);
  }

  lemma {:induction false} GroupsInjective(a: seq<Word32>, b: seq<Word32>)
    requires GroupBytes(a) == GroupBytes(b)
    ensures a == b
  {
    assert |a| == |b|;
    if a != [] {
      Widths();
      var x, y := Be(a[0], 4), Be(b[0], 4);
      assert (x + GroupBytes(a[1..]))[..4] == x && (y + GroupBytes(b[1..]))[..4] == y;
      assert (x + GroupBytes(a[1..]))[4..] == GroupBytes(a[1..]) && (y + GroupBytes(b[1..]))[4..] == GroupBytes(b[1..]);
      hide Be;
      BeInjective(a[0], b[0], 4);
      GroupsInjective(a[1..], b[1..]);
      assert a == [a[0]] + a[1..] && b == [b[0]] + b[1..];
    }
  }

  lemma ValuesInjective(a: Body, b: Body)
    requires Values(a) == Values(b)
    ensures a == b
  {
    hide Be, GroupBytes;
    Widths();
    var v, w := Values(a), Values(b);
    assert v[0] == w[0] && v[1] == w[1] && v[2] == w[2] && v[8] == w[8] && v[9] == w[9] && v[10] == w[10]
      && v[11] == w[11];
    assert v[12] == w[12] && v[13] == w[13] && v[14] == w[14];
    assert v[3] == w[3] && v[4] == w[4] && v[5] == w[5] && v[6] == w[6] && v[7] == w[7] && v[15] == w[15]
      && v[16] == w[16];
    BeInjective(a.peer.uid, b.peer.uid, 4);
    BeInjective(a.peer.session, b.peer.session, 4);
    BeInjective(a.threat.uid, b.threat.uid, 4);
    BeInjective(a.threat.gid, b.threat.gid, 4);
    BeInjective(a.issued, b.issued, 8);
    BeInjective(a.expires, b.expires, 8);
    GroupsInjective(a.threat.groups, b.threat.groups);
  }

  // ---------- The identity ----------

  const IDENTITY_PREFIX := Ascii("leanbun-macos-coordinator-request-v1") + [0]

  const NAMES: seq<string> :=
    [ "operation", "authorizationRight",
      "peerSigningIdentifier", "peerTeamIdentifier", "peerCodeRequirementSha256", "peerEffectiveUid",
      "peerAuditSessionId",
      "threatUid", "threatPrimaryGid", "threatSupplementaryGroups",
      "reservationSha256", "intentSha256", "grantSha256", "candidateSha256", "proofSha256", "executableSha256",
      "nonceSha256", "issuedAtUnixMs", "expiresAtUnixMs" ]

  function IdentityField(name: string, value: seq<Byte>): seq<Byte>
  {
    Be(|name|, 8) + (Ascii(name) + (Be(|value|, 8) + value))
  }

  function IdentityFields(names: seq<string>, values: seq<seq<Byte>>): seq<Byte>
    requires |names| == |values|
  {
    if names == [] then [] else IdentityField(names[0], values[0]) + IdentityFields(names[1..], values[1..])
  }

  function IdentityBytes(b: Body): seq<Byte>
  {
    NameCount();
    IDENTITY_PREFIX + IdentityFields(NAMES, AllValues(b))
  }

  function AllValues(b: Body): (r: seq<seq<Byte>>)
    ensures |r| == 19 && r[2..] == Values(b)
  {
    [OPERATION, RIGHT] + Values(b)
  }

  lemma NameCount()
    ensures |NAMES| == 19
  {
  }

  lemma AllValuesShort(b: Body)
    requires Fitting(Values(b))
    ensures Short(AllValues(b))
  {
    OperationSize();
    hide OPERATION, RIGHT, Values;
  }

  lemma OperationSize()
    ensures |OPERATION| == 29 && |RIGHT| == 41
  {
  }

  predicate Short(values: seq<seq<Byte>>) { forall i :: 0 <= i < |values| ==> |values[i]| < 0x1_0000_0000 }

  lemma FieldCut(name: string, v: seq<Byte>, x: seq<Byte>, w: seq<Byte>, y: seq<Byte>)
    requires IdentityField(name, v) + x == IdentityField(name, w) + y
    requires |v| < 0x1_0000_0000 && |w| < 0x1_0000_0000
    ensures v == w && x == y
  {
    hide Be, Ascii;
    var head := Be(|name|, 8) + Ascii(name);
    assert IdentityField(name, v) + x == head + (Be(|v|, 8) + (v + x));
    assert IdentityField(name, w) + y == head + (Be(|w|, 8) + (w + y));
    Cut(head, Be(|v|, 8) + (v + x), head, Be(|w|, 8) + (w + y));
    Cut(Be(|v|, 8), v + x, Be(|w|, 8), w + y);
    Widths();
    BeInjective(|v|, |w|, 8);
    Cut(v, x, w, y);
  }

  lemma {:induction false} IdentityFieldsInjective(names: seq<string>, v: seq<seq<Byte>>, w: seq<seq<Byte>>)
    requires |names| == |v| == |w| && Short(v) && Short(w)
    requires IdentityFields(names, v) == IdentityFields(names, w)
    ensures v == w
  {
    if names != [] {
      hide IdentityField;
      FieldCut(names[0], v[0], IdentityFields(names[1..], v[1..]), w[0], IdentityFields(names[1..], w[1..]));
      IdentityFieldsInjective(names[1..], v[1..], w[1..]);
      assert v == [v[0]] + v[1..] && w == [w[0]] + w[1..];
    }
  }

  lemma ValuesAreShort(b: Body)
    requires |b.peer.signing| <= MAX_SIGNING_BYTES && |b.peer.team| == TEAM_BYTES && |b.threat.groups| <= MAX_GROUPS
    ensures Fitting(Values(b)) && |Values(b)| == 17
  {
    hide Be, GroupBytes;
  }

  // Without a collision, two valid requests with one identity are the same request.
  lemma IdentityDeterminesRequest(H: Hash, a: Request, b: Request)
    requires Valid(H, a) && Valid(H, b) && a.digest == b.digest
    requires H(IdentityBytes(a.body)) == H(IdentityBytes(b.body)) ==> IdentityBytes(a.body) == IdentityBytes(b.body)
    ensures a == b
  {
    hide *;
    ValidSizes(H, a);
    ValidSizes(H, b);
    ValuesAreShort(a.body);
    ValuesAreShort(b.body);
    IdentityBytesInjective(a.body, b.body);
  }

  lemma ValidSizes(H: Hash, r: Request)
    requires Valid(H, r)
    ensures |r.body.peer.signing| <= MAX_SIGNING_BYTES && |r.body.peer.team| == TEAM_BYTES
      && |r.body.threat.groups| <= MAX_GROUPS
    ensures r.digest == H(IdentityBytes(r.body))
  {
    hide IdentityBytes;
  }

  lemma IdentityBytesInjective(a: Body, b: Body)
    requires Fitting(Values(a)) && Fitting(Values(b)) && IdentityBytes(a) == IdentityBytes(b)
    ensures a == b
  {
    hide *;
    NameCount();
    var v, w := AllValues(a), AllValues(b);
    AllValuesShort(a);
    AllValuesShort(b);
    IdentityBytesAre(a);
    IdentityBytesAre(b);
    Cut(IDENTITY_PREFIX, IdentityFields(NAMES, v), IDENTITY_PREFIX, IdentityFields(NAMES, w));
    IdentityFieldsInjective(NAMES, v, w);
    ValuesInjective(a, b);
  }

  lemma IdentityBytesAre(b: Body)
    ensures |NAMES| == |AllValues(b)| && IdentityBytes(b) == IDENTITY_PREFIX + IdentityFields(NAMES, AllValues(b))
  {
    NameCount();
    hide NAMES, IDENTITY_PREFIX, AllValues, IdentityFields;
  }
}
