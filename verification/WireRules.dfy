// Acceptable coordinator requests, said of their own fields, and the byte strings that are
// accepted: their encodings and nothing else.
module WireRules {
  import opened Wrappers
  import opened Bytes
  import opened WireEnvelope
  import opened WireRequest
  import opened WireCodec

  predicate Capital(c: Byte) { 'A' as int <= c <= 'Z' as int }
  predicate Small(c: Byte) { 'a' as int <= c <= 'z' as int }
  predicate Decimal(c: Byte) { '0' as int <= c <= '9' as int }
  predicate LetterOrDigit(c: Byte) { Capital(c) || Small(c) || Decimal(c) }

  // Letters and digits, with dots and dashes inside and no two dots together.
  predicate GoodSigning(s: seq<Byte>)
  {
    && 1 <= |s| <= 128
    && (forall c :: c in s ==> LetterOrDigit(c) || c == '.' as int || c == '-' as int)
    && LetterOrDigit(s[0]) && LetterOrDigit(s[|s| - 1])
    && (forall i :: 0 < i < |s| ==> [s[i - 1], s[i]] != Ascii(".."))
  }

  predicate GoodTeam(s: seq<Byte>) { |s| == 10 && forall c :: c in s ==> Capital(c) || Decimal(c) }

  predicate SomeBit(d: Digest) { exists i :: 0 <= i < 32 && d[i] > 0 }

  // At most 32 others than the primary one, in strictly increasing order.
  predicate GoodGroups(g: seq<Word32>, gid: Word32)
  {
    |g| <= 32 && (forall i, j :: 0 <= i < j < |g| ==> g[i] < g[j]) && (forall x :: x in g ==> x != gid)
  }

  predicate GoodBody(b: Body)
  {
    && b.peer.uid == b.threat.uid && b.peer.uid > 0
    && GoodSigning(b.peer.signing) && GoodTeam(b.peer.team) && SomeBit(b.peer.requirement)
    && GoodGroups(b.threat.groups, b.threat.gid)
    && SomeBit(b.lineage.reservation) && SomeBit(b.lineage.intent) && SomeBit(b.lineage.grant)
    && SomeBit(b.lineage.candidate) && SomeBit(b.lineage.proof) && SomeBit(b.lineage.executable)
    && SomeBit(b.nonce)
    && b.issued < b.expires && b.expires - b.issued <= 60_000
  }

  // ---------- The constructors accept exactly these ----------

  lemma SigningExactly(s: seq<Byte>)
    ensures ValidSigning(s) <==> GoodSigning(s)
  {
    assert Ascii("..") == [46, 46];
    forall i | 0 < i < |s| && ValidSigning(s) ensures [s[i - 1], s[i]] != [46, 46] {
      assert !(s[i - 1] == 46 && s[i - 1 + 1] == 46);
    }
    forall i | 0 <= i < |s| - 1 && GoodSigning(s) ensures !(s[i] == 46 && s[i + 1] == 46) {
      assert [s[i + 1 - 1], s[i + 1]] != [46, 46];
    }
    forall i | 0 <= i < |s| && GoodSigning(s) ensures Alnum(s[i]) || s[i] == 46 || s[i] == 45 { assert s[i] in s; }
  }

  lemma TeamExactly(s: seq<Byte>)
    ensures ValidTeam(s) <==> GoodTeam(s)
  {
    forall i | 0 <= i < |s| && GoodTeam(s) ensures Upper(s[i]) || Digit(s[i]) { assert s[i] in s; }
  }

  lemma GroupsExactly(g: seq<Word32>, gid: Word32)
    ensures |g| <= MAX_GROUPS && Increasing(g) && gid !in g <==> GoodGroups(g, gid)
  {
    if Increasing(g) { IncreasingApart(g); }
    if GoodGroups(g, gid) {
      forall i | 0 <= i < |g| - 1 ensures g[i] < g[i + 1] {}
    }
  }

  lemma {:induction false} IncreasingApart(g: seq<Word32>)
    requires Increasing(g)
    ensures forall i, j :: 0 <= i < j < |g| ==> g[i] < g[j]
  {
    if g != [] {
      var n := |g| - 1;
      var front := g[..n];
      forall i | 0 <= i < |front| - 1 ensures front[i] < front[i + 1] { assert g[i] < g[i + 1]; }
      IncreasingApart(front);
      forall i, j | 0 <= i < j < |g| ensures g[i] < g[j] {
        assert i < n && g[i] == front[i];
        if j < n { assert g[j] == front[j]; } else if i < n - 1 { assert front[i] < front[n - 1] == g[n - 1] < g[n]; }
      }
    }
  }

  lemma ValidExactly(H: Hash, r: Request)
    ensures Valid(H, r) <==> GoodBody(r.body) && r.digest == H(IdentityBytes(r.body))
  {
    SigningExactly(r.body.peer.signing);
    TeamExactly(r.body.peer.team);
    GroupsExactly(r.body.threat.groups, r.body.threat.gid);
    hide ValidSigning, GoodSigning, ValidTeam, GoodTeam, GoodGroups, Increasing, IdentityBytes;
  }

  // ---------- The decoder accepts exactly their encodings ----------

  lemma AcceptedExactly(H: Hash, bytes: seq<Byte>, r: Request)
    ensures Decode(H, bytes) == Ok(r) <==>
      bytes == Encode(r) && GoodBody(r.body) && r.digest == H(IdentityBytes(r.body))
  {
    ValidExactly(H, r);
    hide *;
    if Valid(H, r) { DecodeInvertsEncode(H, r); }
    if Decode(H, bytes).Ok? { EncodeInvertsDecode(H, bytes); }
  }

  // Which check refuses a body made of good parts, in order.
  lemma RefusedExactly(H: Hash, b: Body)
    ensures PrepareRequest(H, b) ==
      if b.peer.uid < b.threat.uid || b.peer.uid > b.threat.uid then Err(PeerPrincipalMismatch)
      else if !(SomeBit(b.lineage.reservation) && SomeBit(b.lineage.intent) && SomeBit(b.lineage.grant)
        && SomeBit(b.lineage.candidate) && SomeBit(b.lineage.proof) && SomeBit(b.lineage.executable))
      then Err(InvalidLineage)
      else if !SomeBit(b.nonce) then Err(InvalidNonce)
      else if b.expires <= b.issued || b.expires - b.issued > 60_000 then Err(InvalidTimeWindow)
      else Ok(Request(b, H(IdentityBytes(b))))
  {
    hide IdentityBytes;
  }

  // ---------- Every value under its name ----------

  predicate Names(b: Body, i: nat, name: string, value: seq<Byte>)
  {
    i < 19 && |NAMES| == 19 && NAMES[i] == name && AllValues(b)[i] == value
  }

  lemma IdentityNames(b: Body)
    ensures |NAMES| == 19 && |AllValues(b)| == 19
    ensures Names(b, 0, "operation", Ascii("execute-reserved-lake-command"))
    ensures Names(b, 1, "authorizationRight", Ascii("com.leanbun.execute-reserved-lake-command"))
    ensures Names(b, 2, "peerSigningIdentifier", b.peer.signing) && Names(b, 3, "peerTeamIdentifier", b.peer.team)
    ensures Names(b, 4, "peerCodeRequirementSha256", b.peer.requirement)
    ensures Names(b, 5, "peerEffectiveUid", Be(b.peer.uid, 4))
      && Names(b, 6, "peerAuditSessionId", Be(b.peer.session, 4))
    ensures Names(b, 7, "threatUid", Be(b.threat.uid, 4)) && Names(b, 8, "threatPrimaryGid", Be(b.threat.gid, 4))
    ensures Names(b, 9, "threatSupplementaryGroups", GroupBytes(b.threat.groups))
    ensures Names(b, 10, "reservationSha256", b.lineage.reservation) && Names(b, 11, "intentSha256", b.lineage.intent)
    ensures Names(b, 12, "grantSha256", b.lineage.grant) && Names(b, 13, "candidateSha256", b.lineage.candidate)
    ensures Names(b, 14, "proofSha256", b.lineage.proof) && Names(b, 15, "executableSha256", b.lineage.executable)
    ensures Names(b, 16, "nonceSha256", b.nonce)
    ensures Names(b, 17, "issuedAtUnixMs", Be(b.issued, 8)) && Names(b, 18, "expiresAtUnixMs", Be(b.expires, 8))
  {
    hide Be, Ascii, GroupBytes;
  }
}
