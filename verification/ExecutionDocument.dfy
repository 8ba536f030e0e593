// Whole execution records: the fields fixed when the record is begun, the status, and for
// a terminal record its finish time and outcome.
module ExecutionDocument {
  import opened Wrappers
  import opened Bytes
  import opened ExecutionText
  import opened ExecutionRecord
  import opened ExecutionRoundTrip
  import opened ExecutionWriters

  const ROOT_FIELDS: set<Name> :=
    { Name.AttestationSha256, BindingSha256, BuildLockKey, CoordinatorPid, DependencyArtifactBefore, ExecutionId,
      FinishedAt, ImageId, OutcomeField, ProfileSha256, ProjectId, ProjectPath, ProjectProtectedBefore,
      ProjectProtectedRecordCount, RecordType, ReusePolicySha256, SchemaVersion, StartedAt, StatusField, Target }

  datatype Head = Head(
    execution: Uuid,
    projectId: Digest,
    path: seq<Unit16>,
    target: seq<Unit16>,
    image: Digest,
    binding: Digest,
    attestation: Digest,
    profile: Option<Digest>,
    reusePolicy: Option<Digest>,
    dependency: Digest,
    lockKey: Option<Digest>,
    pid: Option<int>,
    protectedBefore: Option<Digest>,
    protectedCount: Option<int>,
    started: Moment)

  datatype Document = Document(head: Head, status: Status, finished: Option<Moment>, outcome: Option<Outcome>)

  // The digest that names a project by its path.
  type ProjectHash = seq<Unit16> -> Digest

  // ---------- Writing ----------

  function Hashed(d: Option<Digest>): Option<Json> { if d.Some? then Some(HashText(d.value)) else None }

  function RootValue(d: Document, n: Name): Option<Json>
  {
    match n
    case SchemaVersion => Some(Number(1))
    case RecordType => Some(String(RECORD_TYPE))
    case ExecutionId => Some(String(d.head.execution))
    case StatusField => Some(StatusText(d.status))
    case ProjectId => Some(HashText(d.head.projectId))
    case ProjectPath => Some(String(d.head.path))
    case Target => Some(String(d.head.target))
    case ImageId => Some(HashText(d.head.image))
    case BindingSha256 => Some(HashText(d.head.binding))
    case AttestationSha256 => Some(HashText(d.head.attestation))
    case DependencyArtifactBefore => Some(HashText(d.head.dependency))
    case ProfileSha256 => Hashed(d.head.profile)
    case ReusePolicySha256 => Hashed(d.head.reusePolicy)
    case BuildLockKey => Hashed(d.head.lockKey)
    case CoordinatorPid => Numbered(d.head.pid)
    case ProjectProtectedBefore => Hashed(d.head.protectedBefore)
    case ProjectProtectedRecordCount => Numbered(d.head.protectedCount)
    case StartedAt => Some(TimeText(d.head.started))
    case FinishedAt => Some(if d.finished.Some? then TimeText(d.finished.value) else Null)
    case OutcomeField => Some(if d.outcome.Some? then Object(EncodeOutcome(d.outcome.value)) else Null)
    case _ => None
  }

  function EncodeDocument(d: Document): map<Name, Json>
  {
    map n | n in ROOT_FIELDS && RootValue(d, n).Some? :: RootValue(d, n).value
  }

  // ---------- Reading ----------

  predicate IsHash(j: Option<Json>) { ReadHash(j).Present? }

  const NO_DIGEST: Digest := Be(0, 32)

  function DigestIn(j: Option<Json>): Digest { if IsHash(j) then ReadHash(j).value else NO_DIGEST }

  predicate NamesMalformed(m: map<Name, Json>)
  {
    || !(m.Keys <= ROOT_FIELDS)
    || Lookup(m, SchemaVersion) != Some(Number(1))
    || Lookup(m, RecordType) != Some(String(RECORD_TYPE))
    || !ReadUuid(Lookup(m, ExecutionId)).Present?
    || !ReadStatus(Lookup(m, StatusField)).Present?
    || !ReadString(Lookup(m, ProjectPath)).Present?
    || !ReadString(Lookup(m, Target)).Present?
    || !ReadTime(Lookup(m, StartedAt)).Present?
  }

  predicate DigestsMalformed(m: map<Name, Json>)
  {
    || !IsHash(Lookup(m, ProjectId))
    || !IsHash(Lookup(m, ImageId))
    || !IsHash(Lookup(m, BindingSha256))
    || !IsHash(Lookup(m, Name.AttestationSha256))
    || !IsHash(Lookup(m, DependencyArtifactBefore))
    || ReadHash(Lookup(m, ProfileSha256)).Malformed?
    || ReadHash(Lookup(m, ReusePolicySha256)).Malformed?
    || ReadHash(Lookup(m, BuildLockKey)).Malformed?
    || ReadInteger(Lookup(m, CoordinatorPid), 1).Malformed?
    || ReadHash(Lookup(m, ProjectProtectedBefore)).Malformed?
    || ReadInteger(Lookup(m, ProjectProtectedRecordCount), 0).Malformed?
  }

  function HeadOf(m: map<Name, Json>): Head
    requires !NamesMalformed(m)
  {
    Head(
      ReadUuid(Lookup(m, ExecutionId)).value,
      DigestIn(Lookup(m, ProjectId)),
      ReadString(Lookup(m, ProjectPath)).value,
      ReadString(Lookup(m, Target)).value,
      DigestIn(Lookup(m, ImageId)),
      DigestIn(Lookup(m, BindingSha256)),
      DigestIn(Lookup(m, Name.AttestationSha256)),
      Kept(ReadHash(Lookup(m, ProfileSha256))),
      Kept(ReadHash(Lookup(m, ReusePolicySha256))),
      DigestIn(Lookup(m, DependencyArtifactBefore)),
      Kept(ReadHash(Lookup(m, BuildLockKey))),
      Kept(ReadInteger(Lookup(m, CoordinatorPid), 1)),
      Kept(ReadHash(Lookup(m, ProjectProtectedBefore))),
      Kept(ReadInteger(Lookup(m, ProjectProtectedRecordCount), 0)),
      ReadTime(Lookup(m, StartedAt)).value)
  }

  function StatusIn(m: map<Name, Json>): Status
    requires !NamesMalformed(m)
  {
    ReadStatus(Lookup(m, StatusField)).value
  }

  predicate LegalPath(u: seq<Unit16>) { 0 < |u| && Utf8Size(u) <= MAX_PATH_BYTES && CanonicalPath(u) }

  predicate LegalTarget(u: seq<Unit16>) { Utf8Size(u) <= MAX_TARGET_BYTES && ValidTarget(u) }

  predicate LegalHead(projectIdOf: ProjectHash, h: Head, status: Status, requested: Uuid)
  {
    && h.execution == requested
    && LegalPath(h.path) && projectIdOf(h.path) == h.projectId && LegalTarget(h.target)
    && (h.profile.Some? <==> h.reusePolicy.None?)
    && (status == Completed ==> h.profile.Some?)
    && (status == Reused ==> h.reusePolicy.Some?)
    && (h.pid.Some? <==> h.protectedBefore.Some?) && (h.pid.Some? <==> h.protectedCount.Some?)
  }

  function DecodeDocument(projectIdOf: ProjectHash, m: map<Name, Json>, requested: Uuid): Option<Document>
  {
    if NamesMalformed(m) || DigestsMalformed(m) then None
    else
      var status := StatusIn(m);
      var head := HeadOf(m);
      if !LegalHead(projectIdOf, head, status, requested) then None
      else DecodeEnd(m, head, status)
  }

  function DecodeEnd(m: map<Name, Json>, head: Head, status: Status): Option<Document>
  {
    var finished := Lookup(m, FinishedAt);
    var outcome := Lookup(m, OutcomeField);
    if status == Running then
      if finished == Some(Null) && outcome == Some(Null) then Some(Document(head, status, None, None)) else None
    else if !ReadTime(finished).Present? || TextLess(finished.value.units, MomentText(head.started)) then None
    else if outcome.None? || !outcome.value.Object? then None
    else
      var o := DecodeOutcome(outcome.value.fields, status);
      if o.None? then None else Some(Document(head, status, Some(ReadTime(finished).value), o))
  }

  // ---------- The round trip ----------

  predicate HeadInRange(h: Head) { Safe(h.pid, 1) && Safe(h.protectedCount, 0) }

  predicate LegalEnd(d: Document)
  {
    if d.status == Running then d.finished.None? && d.outcome.None?
    else
      && d.finished.Some? && Instant(d.head.started) <= Instant(d.finished.value)
      && d.outcome.Some? && d.outcome.value.build == d.status && InRange(d.outcome.value)
        && Legal(d.outcome.value, d.status)
  }

  ghost predicate Shown(m: map<Name, Json>, d: Document) { forall n: Name :: Lookup(m, n) == RootValue(d, n) }

  lemma DocumentShown(d: Document)
    ensures Shown(EncodeDocument(d), d) && EncodeDocument(d).Keys <= ROOT_FIELDS
  {
    hide EncodeOutcome;
  }

  lemma ShowsNames(m: map<Name, Json>, d: Document)
    requires Shown(m, d) && m.Keys <= ROOT_FIELDS
    ensures !NamesMalformed(m)
    ensures ReadUuid(Lookup(m, ExecutionId)).value == d.head.execution
      && ReadString(Lookup(m, ProjectPath)).value == d.head.path && ReadString(Lookup(m, Target)).value == d.head.target
    ensures ReadTime(Lookup(m, StartedAt)).value == d.head.started && StatusIn(m) == d.status
  {
    hide ROOT_FIELDS, EncodeOutcome, Hashed, RECORD_TYPE, IsUuid, InCalendar, Hex, MomentText;
    assert Lookup(m, ExecutionId) == Some(String(d.head.execution));
    assert Lookup(m, ProjectPath) == Some(String(d.head.path));
    assert Lookup(m, Target) == Some(String(d.head.target));
    assert Lookup(m, StartedAt) == Some(TimeText(d.head.started));
    assert Lookup(m, StatusField) == Some(StatusText(d.status));
    assert Lookup(m, SchemaVersion) == Some(Number(1));
    assert Lookup(m, RecordType) == Some(String(RECORD_TYPE));
    hide Shown, RootValue;
  }

  lemma ShowsDigests(m: map<Name, Json>, d: Document)
    requires Shown(m, d)
    ensures DigestsMalformed(m) <==> !HeadInRange(d.head)
    ensures !NamesMalformed(m) && HeadInRange(d.head) ==>
      HeadOf(m) == d.head.(execution := HeadOf(m).execution, path := HeadOf(m).path, target := HeadOf(m).target,
        started := HeadOf(m).started)
  {
    RequiredShown(m, d);
    OptionalShown(m, d);
    ReadsNumber(d.head.pid, 1);
    ReadsNumber(d.head.protectedCount, 0);
    hide Shown, RootValue, NamesMalformed, Lookup, ReadInteger, Numbered, Safe;
  }

  lemma RequiredShown(m: map<Name, Json>, d: Document)
    requires Shown(m, d)
    ensures Lookup(m, ProjectId) == Some(HashText(d.head.projectId))
      && Lookup(m, ImageId) == Some(HashText(d.head.image))
    ensures Lookup(m, BindingSha256) == Some(HashText(d.head.binding))
    ensures Lookup(m, Name.AttestationSha256) == Some(HashText(d.head.attestation))
    ensures Lookup(m, DependencyArtifactBefore) == Some(HashText(d.head.dependency))
  {
    hide Lookup, EncodeOutcome;
  }

  lemma OptionalShown(m: map<Name, Json>, d: Document)
    requires Shown(m, d)
    ensures Lookup(m, ProfileSha256) == Hashed(d.head.profile)
      && Lookup(m, ReusePolicySha256) == Hashed(d.head.reusePolicy)
    ensures Lookup(m, BuildLockKey) == Hashed(d.head.lockKey)
      && Lookup(m, ProjectProtectedBefore) == Hashed(d.head.protectedBefore)
    ensures Lookup(m, CoordinatorPid) == Numbered(d.head.pid)
    ensures Lookup(m, ProjectProtectedRecordCount) == Numbered(d.head.protectedCount)
  {
    hide Lookup, EncodeOutcome, Hashed, Numbered;
  }

  lemma ShowsEnd(m: map<Name, Json>, d: Document)
    requires Shown(m, d)
    ensures Lookup(m, FinishedAt) == Some(if d.finished.Some? then TimeText(d.finished.value) else Null)
    ensures Lookup(m, OutcomeField) == Some(if d.outcome.Some? then Object(EncodeOutcome(d.outcome.value)) else Null)
  {
    hide Lookup, EncodeOutcome;
  }

  // The reader takes back exactly the documents that obey its rules.
  lemma DocumentRoundTrip(projectIdOf: ProjectHash, d: Document, requested: Uuid)
    ensures DecodeDocument(projectIdOf, EncodeDocument(d), requested) ==
      if HeadInRange(d.head) && LegalHead(projectIdOf, d.head, d.status, requested) && LegalEnd(d) then Some(d)
        else None
  {
    var m := EncodeDocument(d);
    DocumentShown(d);
    ShowsNames(m, d);
    ShowsDigests(m, d);
    EndRoundTrip(m, d);
    if HeadInRange(d.head) {
      HeadIs(m, d);
      DecodesAs(projectIdOf, m, requested);
    } else {
      DecodesNot(projectIdOf, m, requested);
    }
    hide *;
  }

  lemma EndRoundTrip(m: map<Name, Json>, d: Document)
    requires Shown(m, d)
    ensures DecodeEnd(m, d.head, d.status) == if LegalEnd(d) then Some(d) else None
  {
    ShowsEnd(m, d);
    if d.outcome.Some? { OutcomeRoundTrip(d.outcome.value, d.status); }
    if d.finished.Some? {
      TimeReads(d.finished.value);
      TextOrderIsClockOrder(d.finished.value, d.head.started);
    }
    hide Shown, EncodeOutcome, DecodeOutcome, Legal, InRange, Lookup, ReadTime, MomentText, Instant, TextLess;
  }

  lemma TimeReads(m: Moment)
    ensures ReadTime(Some(TimeText(m))) == Present(m)
  {
    assert ParseMoment(MomentText(m)) == Some(m);
  }

  lemma HeadIs(m: map<Name, Json>, d: Document)
    requires Shown(m, d) && m.Keys <= ROOT_FIELDS && HeadInRange(d.head) && !NamesMalformed(m)
    ensures HeadOf(m) == d.head
  {
    ShowsNames(m, d);
    ShowsDigests(m, d);
    HeadNames(m);
    hide HeadOf, Shown, NamesMalformed, DigestsMalformed, HeadInRange;
  }

  lemma HeadNames(m: map<Name, Json>)
    requires !NamesMalformed(m)
    ensures HeadOf(m).execution == ReadUuid(Lookup(m, ExecutionId)).value
      && HeadOf(m).path == ReadString(Lookup(m, ProjectPath)).value
    ensures HeadOf(m).target == ReadString(Lookup(m, Target)).value
      && HeadOf(m).started == ReadTime(Lookup(m, StartedAt)).value
  {
  }

  // ---------- Nothing else is accepted ----------

  // The same document with an exit code of -0 spelled 0.
  function CanonicalDocument(m: map<Name, Json>): map<Name, Json>
  {
    if OutcomeField in m && m[OutcomeField].Object? then m[OutcomeField := Object(Canonical(m[OutcomeField].fields))]
      else m
  }

  lemma CanonicalFields(m: map<Name, Json>)
    ensures CanonicalDocument(m).Keys == m.Keys
    ensures forall n: Name :: n != OutcomeField ==> Lookup(CanonicalDocument(m), n) == Lookup(m, n)
    ensures Lookup(m, OutcomeField).Some? && Lookup(m, OutcomeField).value.Object? ==>
      Lookup(CanonicalDocument(m), OutcomeField) == Some(Object(Canonical(Lookup(m, OutcomeField).value.fields)))
    ensures !(Lookup(m, OutcomeField).Some? && Lookup(m, OutcomeField).value.Object?) ==> CanonicalDocument(m) == m
  {
    hide Canonical;
  }

  // Objects that agree outside the outcome read alike there.
  ghost predicate SameRoot(c: map<Name, Json>, m: map<Name, Json>)
  {
    c.Keys == m.Keys && forall n: Name :: n != OutcomeField ==> Lookup(c, n) == Lookup(m, n)
  }

  lemma SameNames(c: map<Name, Json>, m: map<Name, Json>)
    requires SameRoot(c, m)
    ensures NamesMalformed(c) <==> NamesMalformed(m)
  {
    hide Lookup, ReadUuid, ReadString, ROOT_FIELDS;
  }

  lemma SameDigests(c: map<Name, Json>, m: map<Name, Json>)
    requires SameRoot(c, m)
    ensures DigestsMalformed(c) <==> DigestsMalformed(m)
  {
    hide Lookup, IsHash, ReadHash, ReadInteger;
  }

  lemma SameHead(c: map<Name, Json>, m: map<Name, Json>)
    requires SameRoot(c, m) && !NamesMalformed(m) && !NamesMalformed(c)
    ensures HeadOf(c) == HeadOf(m) && StatusIn(c) == StatusIn(m)
  {
    assert Lookup(c, ExecutionId) == Lookup(m, ExecutionId) && Lookup(c, ProjectPath) == Lookup(m, ProjectPath);
    assert Lookup(c, Target) == Lookup(m, Target) && Lookup(c, StartedAt) == Lookup(m, StartedAt);
    assert Lookup(c, StatusField) == Lookup(m, StatusField);
    SameDigestFields(c, m);
    HeadNames(c);
    HeadNames(m);
    hide SameRoot, NamesMalformed, HeadOf;
  }

  lemma SameDigestFields(c: map<Name, Json>, m: map<Name, Json>)
    requires SameRoot(c, m) && !NamesMalformed(m) && !NamesMalformed(c)
    ensures HeadOf(c) ==
      HeadOf(m).(execution := HeadOf(c).execution, path := HeadOf(c).path, target := HeadOf(c).target,
        started := HeadOf(c).started)
  {
    hide Lookup, NamesMalformed, DigestIn, ReadHash, ReadInteger, Kept;
  }

  lemma DocumentSpellingIrrelevant(projectIdOf: ProjectHash, m: map<Name, Json>, requested: Uuid)
    ensures DecodeDocument(projectIdOf, CanonicalDocument(m), requested) == DecodeDocument(projectIdOf, m, requested)
  {
    var c := CanonicalDocument(m);
    CanonicalFields(m);
    assert SameRoot(c, m);
    SameNames(c, m);
    SameDigests(c, m);
    if !NamesMalformed(m) && !DigestsMalformed(m) {
      SameHead(c, m);
      SameEnd(m, HeadOf(m), StatusIn(m));
      DecodesAs(projectIdOf, m, requested);
      DecodesAs(projectIdOf, c, requested);
    }
    hide *;
    if NamesMalformed(m) || DigestsMalformed(m) {
      DecodesNot(projectIdOf, m, requested);
      DecodesNot(projectIdOf, c, requested);
    }
  }

  lemma DecodesAs(projectIdOf: ProjectHash, m: map<Name, Json>, requested: Uuid)
    requires !NamesMalformed(m) && !DigestsMalformed(m)
    ensures DecodeDocument(projectIdOf, m, requested) ==
      if LegalHead(projectIdOf, HeadOf(m), StatusIn(m), requested) then DecodeEnd(m, HeadOf(m), StatusIn(m)) else None
  {
    hide DigestsMalformed, HeadOf, LegalHead, DecodeEnd;
  }

  lemma DecodesNot(projectIdOf: ProjectHash, m: map<Name, Json>, requested: Uuid)
    requires NamesMalformed(m) || DigestsMalformed(m)
    ensures DecodeDocument(projectIdOf, m, requested).None?
  {
    hide NamesMalformed, DigestsMalformed, HeadOf, LegalHead, DecodeEnd;
  }

  lemma SameEnd(m: map<Name, Json>, head: Head, status: Status)
    ensures DecodeEnd(CanonicalDocument(m), head, status) == DecodeEnd(m, head, status)
  {
    CanonicalFields(m);
    var outcome := Lookup(m, OutcomeField);
    if outcome.Some? && outcome.value.Object? { SpellingIrrelevant(outcome.value.fields, status); }
    assert Lookup(CanonicalDocument(m), FinishedAt) == Lookup(m, FinishedAt);
    hide CanonicalDocument, Canonical, DecodeOutcome, Lookup;
  }

  // Field by field, what was read is what is there.
  lemma StringWritten(j: Option<Json>)
    requires ReadString(j).Present?
    ensures j == Some(String(ReadString(j).value))
  {
  }

  lemma UuidWritten(j: Option<Json>)
    requires ReadUuid(j).Present?
    ensures j == Some(String(ReadUuid(j).value))
  {
  }

  lemma StatusWritten(j: Option<Json>)
    requires ReadStatus(j).Present?
    ensures j == Some(StatusText(ReadStatus(j).value))
  {
  }

  lemma TimeWritten(j: Option<Json>)
    requires ReadTime(j).Present?
    ensures j == Some(TimeText(ReadTime(j).value))
  {
  }

  lemma DigestWritten(j: Option<Json>)
    requires IsHash(j)
    ensures j == Some(HashText(DigestIn(j)))
  {
    HashWritten(j);
    hide HashText, ReadHash;
  }

  lemma OptionalDigestWritten(j: Option<Json>)
    requires !ReadHash(j).Malformed?
    ensures j == Hashed(Kept(ReadHash(j)))
  {
    HashWritten(j);
    hide HashText, ReadHash;
  }

  lemma NamesWritten(m: map<Name, Json>, d: Document, n: Name)
    requires !NamesMalformed(m) && d.head == HeadOf(m) && d.status == StatusIn(m)
    requires n == SchemaVersion || n == RecordType || n == ExecutionId || n == StatusField || n == ProjectPath
      || n == Target || n == StartedAt
    ensures Lookup(m, n) == RootValue(d, n)
  {
    HeadNames(m);
    NamesRead(m);
    RootNames(d);
    hide *;
  }

  lemma NamesRead(m: map<Name, Json>)
    requires !NamesMalformed(m)
    ensures Lookup(m, SchemaVersion) == Some(Number(1)) && Lookup(m, RecordType) == Some(String(RECORD_TYPE))
    ensures Lookup(m, ExecutionId) == Some(String(ReadUuid(Lookup(m, ExecutionId)).value))
    ensures Lookup(m, ProjectPath) == Some(String(ReadString(Lookup(m, ProjectPath)).value))
    ensures Lookup(m, Target) == Some(String(ReadString(Lookup(m, Target)).value))
    ensures Lookup(m, StartedAt) == Some(TimeText(ReadTime(Lookup(m, StartedAt)).value))
    ensures Lookup(m, StatusField) == Some(StatusText(StatusIn(m)))
  {
    hide ROOT_FIELDS, Lookup, ReadString, ReadUuid, ReadStatus, ReadTime, StatusText, TimeText, RECORD_TYPE;
    StringWritten(Lookup(m, ProjectPath));
    StringWritten(Lookup(m, Target));
    UuidWritten(Lookup(m, ExecutionId));
    StatusWritten(Lookup(m, StatusField));
    TimeWritten(Lookup(m, StartedAt));
  }

  lemma RootNames(d: Document)
    ensures RootValue(d, SchemaVersion) == Some(Number(1)) && RootValue(d, RecordType) == Some(String(RECORD_TYPE))
    ensures RootValue(d, ExecutionId) == Some(String(d.head.execution))
    ensures RootValue(d, ProjectPath) == Some(String(d.head.path))
      && RootValue(d, Target) == Some(String(d.head.target))
    ensures RootValue(d, StartedAt) == Some(TimeText(d.head.started))
      && RootValue(d, StatusField) == Some(StatusText(d.status))
  {
    hide EncodeOutcome, Hashed, HashText, TimeText, StatusText, RECORD_TYPE, Numbered, IsUuid, InCalendar;
  }

  lemma RequiredWritten(m: map<Name, Json>, d: Document, n: Name)
    requires !NamesMalformed(m) && !DigestsMalformed(m) && d.head == HeadOf(m)
    requires n == ProjectId || n == ImageId || n == BindingSha256 || n == Name.AttestationSha256
      || n == DependencyArtifactBefore
    ensures Lookup(m, n) == RootValue(d, n)
  {
    HeadDigests(m);
    DigestsRead(m);
    RootDigests(d);
    hide *;
    DigestWritten(Lookup(m, n));
  }

  // What the digests and numbers of a head are read from.
  lemma HeadDigests(m: map<Name, Json>)
    requires !NamesMalformed(m)
    ensures var h := HeadOf(m);
      && h.projectId == DigestIn(Lookup(m, ProjectId)) && h.image == DigestIn(Lookup(m, ImageId))
      && h.binding == DigestIn(Lookup(m, BindingSha256)) && h.attestation == DigestIn(Lookup(m, Name.AttestationSha256))
      && h.dependency == DigestIn(Lookup(m, DependencyArtifactBefore))
      && h.profile == Kept(ReadHash(Lookup(m, ProfileSha256)))
        && h.reusePolicy == Kept(ReadHash(Lookup(m, ReusePolicySha256)))
      && h.lockKey == Kept(ReadHash(Lookup(m, BuildLockKey)))
      && h.protectedBefore == Kept(ReadHash(Lookup(m, ProjectProtectedBefore)))
      && h.pid == Kept(ReadInteger(Lookup(m, CoordinatorPid), 1))
      && h.protectedCount == Kept(ReadInteger(Lookup(m, ProjectProtectedRecordCount), 0))
  {
    hide NamesMalformed, Lookup, DigestIn, ReadHash, ReadInteger, Kept;
  }

  lemma DigestsRead(m: map<Name, Json>)
    requires !DigestsMalformed(m)
    ensures IsHash(Lookup(m, ProjectId)) && IsHash(Lookup(m, ImageId)) && IsHash(Lookup(m, BindingSha256))
    ensures IsHash(Lookup(m, Name.AttestationSha256)) && IsHash(Lookup(m, DependencyArtifactBefore))
    ensures !ReadHash(Lookup(m, ProfileSha256)).Malformed? && !ReadHash(Lookup(m, ReusePolicySha256)).Malformed?
    ensures !ReadHash(Lookup(m, BuildLockKey)).Malformed? && !ReadHash(Lookup(m, ProjectProtectedBefore)).Malformed?
    ensures !ReadInteger(Lookup(m, CoordinatorPid), 1).Malformed?
    ensures !ReadInteger(Lookup(m, ProjectProtectedRecordCount), 0).Malformed?
  {
    hide Lookup, IsHash, ReadHash, ReadInteger;
  }

  lemma RootDigests(d: Document)
    ensures RootValue(d, ProjectId) == Some(HashText(d.head.projectId))
      && RootValue(d, ImageId) == Some(HashText(d.head.image))
    ensures RootValue(d, BindingSha256) == Some(HashText(d.head.binding))
    ensures RootValue(d, Name.AttestationSha256) == Some(HashText(d.head.attestation))
    ensures RootValue(d, DependencyArtifactBefore) == Some(HashText(d.head.dependency))
    ensures RootValue(d, ProfileSha256) == Hashed(d.head.profile)
      && RootValue(d, ReusePolicySha256) == Hashed(d.head.reusePolicy)
    ensures RootValue(d, BuildLockKey) == Hashed(d.head.lockKey)
    ensures RootValue(d, ProjectProtectedBefore) == Hashed(d.head.protectedBefore)
    ensures RootValue(d, CoordinatorPid) == Numbered(d.head.pid)
    ensures RootValue(d, ProjectProtectedRecordCount) == Numbered(d.head.protectedCount)
  {
    hide EncodeOutcome, Hashed, HashText, TimeText, StatusText, RECORD_TYPE, Numbered;
  }

  lemma OptionalWritten(m: map<Name, Json>, d: Document, n: Name)
    requires !NamesMalformed(m) && !DigestsMalformed(m) && d.head == HeadOf(m)
    requires n == ProfileSha256 || n == ReusePolicySha256 || n == BuildLockKey || n == CoordinatorPid
      || n == ProjectProtectedBefore || n == ProjectProtectedRecordCount
    ensures Lookup(m, n) == RootValue(d, n)
  {
    HeadDigests(m);
    DigestsRead(m);
    RootDigests(d);
    hide *;
    if n == CoordinatorPid {
      CountWritten(Lookup(m, CoordinatorPid), 1);
    } else if n == ProjectProtectedRecordCount {
      CountWritten(Lookup(m, ProjectProtectedRecordCount), 0);
    } else {
      OptionalDigestWritten(Lookup(m, n));
    }
  }

  lemma EndWritten(m: map<Name, Json>, head: Head, status: Status, n: Name)
    requires DecodeEnd(m, head, status).Some? && (n == FinishedAt || n == OutcomeField)
    ensures Lookup(CanonicalDocument(m), n) == RootValue(DecodeEnd(m, head, status).value, n)
  {
    CanonicalFields(m);
    var outcome := Lookup(m, OutcomeField);
    if status != Running { OutcomeCanonical(outcome.value.fields, status); }
    assert Lookup(CanonicalDocument(m), FinishedAt) == Lookup(m, FinishedAt);
    hide CanonicalDocument, Canonical, DecodeOutcome, EncodeOutcome, Lookup;
  }

  lemma NamesOfRoot(n: Name)
    ensures n in ROOT_FIELDS <==>
      || n == SchemaVersion || n == RecordType || n == ExecutionId || n == StatusField || n == ProjectPath
        || n == Target || n == StartedAt
      || n == ProjectId || n == ImageId || n == BindingSha256 || n == Name.AttestationSha256
        || n == DependencyArtifactBefore
      || n == ProfileSha256 || n == ReusePolicySha256 || n == BuildLockKey || n == CoordinatorPid
      || n == ProjectProtectedBefore || n == ProjectProtectedRecordCount
      || n == FinishedAt || n == OutcomeField
  {
  }

  lemma NoOtherRoot(d: Document, n: Name)
    requires n !in ROOT_FIELDS
    ensures RootValue(d, n).None?
  {
    hide EncodeOutcome;
  }

  lemma DecodedHead(projectIdOf: ProjectHash, m: map<Name, Json>, requested: Uuid)
    requires DecodeDocument(projectIdOf, m, requested).Some?
    ensures !NamesMalformed(m) && !DigestsMalformed(m) && m.Keys <= ROOT_FIELDS
    ensures DecodeDocument(projectIdOf, m, requested) == DecodeEnd(m, HeadOf(m), StatusIn(m))
    ensures var d := DecodeDocument(projectIdOf, m, requested).value; d.head == HeadOf(m) && d.status == StatusIn(m)
  {
    hide DigestsMalformed, HeadOf, LegalHead, DecodeOutcome, ROOT_FIELDS, Lookup;
  }

  // Every accepted document is the encoding of what it decodes to, up to the spelling of a
  // zero exit code.
  lemma DocumentCanonical(projectIdOf: ProjectHash, m: map<Name, Json>, requested: Uuid)
    requires DecodeDocument(projectIdOf, m, requested).Some?
    ensures CanonicalDocument(m) == EncodeDocument(DecodeDocument(projectIdOf, m, requested).value)
  {
    var d := DecodeDocument(projectIdOf, m, requested).value;
    var c := CanonicalDocument(m);
    DecodedHead(projectIdOf, m, requested);
    CanonicalFields(m);
    hide NamesMalformed, DigestsMalformed, HeadOf, DecodeDocument, EncodeDocument, CanonicalDocument, RootValue, Lookup;
    hide ROOT_FIELDS;
    DocumentShown(d);
    forall n: Name ensures Lookup(c, n) == Lookup(EncodeDocument(d), n) {
      ShownAt(EncodeDocument(d), d, n);
      DocumentField(projectIdOf, m, requested, n);
    }
    SameObject(c, EncodeDocument(d));
  }

  lemma ShownAt(m: map<Name, Json>, d: Document, n: Name)
    requires Shown(m, d)
    ensures Lookup(m, n) == RootValue(d, n)
  {
    hide RootValue, Lookup;
  }

  lemma AbsentName(m: map<Name, Json>, n: Name)
    requires m.Keys <= ROOT_FIELDS && n !in ROOT_FIELDS
    ensures Lookup(m, n).None?
  {
    hide ROOT_FIELDS;
  }

  lemma DocumentField(projectIdOf: ProjectHash, m: map<Name, Json>, requested: Uuid, n: Name)
    requires DecodeDocument(projectIdOf, m, requested).Some?
    ensures Lookup(CanonicalDocument(m), n) == RootValue(DecodeDocument(projectIdOf, m, requested).value, n)
  {
    var d := DecodeDocument(projectIdOf, m, requested).value;
    DecodedHead(projectIdOf, m, requested);
    CanonicalFields(m);
    NamesOfRoot(n);
    hide NamesMalformed, DigestsMalformed, HeadOf, DecodeDocument, CanonicalDocument, RootValue, ROOT_FIELDS, Lookup;
    if n == FinishedAt || n == OutcomeField {
      EndWritten(m, HeadOf(m), StatusIn(m), n);
    } else if n !in ROOT_FIELDS {
      AbsentName(m, n);
      NoOtherRoot(d, n);
    } else if n == ProjectId || n == ImageId || n == BindingSha256 || n == Name.AttestationSha256
      || n == DependencyArtifactBefore {
      RequiredWritten(m, d, n);
    } else if n == ProfileSha256 || n == ReusePolicySha256 || n == BuildLockKey || n == CoordinatorPid
            || n == ProjectProtectedBefore || n == ProjectProtectedRecordCount {
      OptionalWritten(m, d, n);
    } else {
      NamesWritten(m, d, n);
    }
  }

  // The accepted documents, exactly.
  lemma DocumentAcceptedExactly(projectIdOf: ProjectHash, m: map<Name, Json>, requested: Uuid, d: Document)
    ensures DecodeDocument(projectIdOf, m, requested) == Some(d) <==>
      && CanonicalDocument(m) == EncodeDocument(d)
      && HeadInRange(d.head) && LegalHead(projectIdOf, d.head, d.status, requested) && LegalEnd(d)
  {
    DocumentSpellingIrrelevant(projectIdOf, m, requested);
    DocumentRoundTrip(projectIdOf, d, requested);
    hide *;
    if DecodeDocument(projectIdOf, m, requested) == Some(d) { DocumentCanonical(projectIdOf, m, requested); }
  }

  // ---------- The coordinators' records ----------

  // What a coordinator begins a record with: a directory it resolved itself, a target it
  // checked, one policy digest according to its kind, and the whole recovery identity.
  ghost predicate Begun(projectIdOf: ProjectHash, h: Head, reuse: bool)
  {
    && (exists names :: ResolvedNames(names) && h.path == PathOf(names))
    && Paired(h.path) && projectIdOf(h.path) == h.projectId && ValidTarget(h.target) && Paired(h.target)
    && (h.profile.Some? <==> !reuse) && (h.reusePolicy.Some? <==> reuse)
    && h.pid.Some? && h.protectedBefore.Some? && h.protectedCount.Some? && HeadInRange(h)
  }

  // What the reader asks of a resolved path besides.
  predicate PathReadable(u: seq<Unit16>) { NoControl(u) && Utf8Size(u) <= MAX_PATH_BYTES }

  lemma BegunIsLegal(projectIdOf: ProjectHash, h: Head, reuse: bool, status: Status)
    requires Begun(projectIdOf, h, reuse) && (status == Completed ==> !reuse) && (status == Reused ==> reuse)
    ensures LegalHead(projectIdOf, h, status, h.execution) <==> PathReadable(h.path)
  {
    var names :| ResolvedNames(names) && h.path == PathOf(names);
    ResolvedIsCanonical(names);
    hide CanonicalPath, NoControl, Paired, ResolvedNames, HeadInRange;
  }

  // The whole reader, text parser first, takes the document back.
  predicate Readable(projectIdOf: ProjectHash, d: Document)
  {
    && Paired(d.head.path) && Paired(d.head.target)
    && (d.outcome.Some? && d.outcome.value.message.Some? ==> Paired(d.outcome.value.message.value))
    && DecodeDocument(projectIdOf, EncodeDocument(d), d.head.execution) == Some(d)
  }

  // A running record is readable as soon as it is begun, exactly when no directory on its
  // project's path has a control character in its name and the path is not too long.
  lemma BegunIsReadable(projectIdOf: ProjectHash, h: Head, reuse: bool)
    requires Begun(projectIdOf, h, reuse)
    ensures Readable(projectIdOf, Document(h, Running, None, None)) <==> PathReadable(h.path)
  {
    DocumentRoundTrip(projectIdOf, Document(h, Running, None, None), h.execution);
    BegunIsLegal(projectIdOf, h, reuse, Running);
    hide Paired, DecodeDocument, EncodeDocument, HeadInRange, LegalHead, PathReadable;
  }

  // A finalised record is readable exactly when, besides, the clock did not run backwards
  // and its outcome is acceptable: builds complete under a profile, reuses under a reuse
  // policy, and either kind can fail.
  lemma FinalizedIsReadable(projectIdOf: ProjectHash, h: Head, reuse: bool, status: Status, finished: Moment,
    o: Outcome)
    requires Begun(projectIdOf, h, reuse)
    requires status == Failed || (status == Completed && !reuse) || (status == Reused && reuse)
    ensures Readable(projectIdOf, Document(h, status, Some(finished), Some(o))) <==>
      InTime(h, finished) && Accepts(o, status)
  {
    DocumentRoundTrip(projectIdOf, Document(h, status, Some(finished), Some(o)), h.execution);
    BegunIsLegal(projectIdOf, h, reuse, status);
    AcceptsExactly(o, status);
    hide Accepts, Paired, DecodeDocument, EncodeDocument, HeadInRange, InRange, Legal, LegalHead, PathReadable, Instant;
  }

  predicate InTime(h: Head, finished: Moment) { PathReadable(h.path) && Instant(h.started) <= Instant(finished) }

  // The record of a finished build.
  lemma BuildRecordIsReadable(projectIdOf: ProjectHash, h: Head, events: seq<Event>, lake: Lake, f: Facts,
    finished: Moment)
    requires Begun(projectIdOf, h, false) && lake.run == Supervise(events)
    ensures var status := if Succeeded(events, lake, f) then Completed else Failed;
      Readable(projectIdOf, Document(h, status, Some(finished), Some(BuildFinished(lake, f)))) <==>
        && InTime(h, finished)
        && SafeNumber(lake.exitCode, -MAX_SAFE) && SafeNumber(lake.group, 1) && SafeNumber(f.artifactCount, 0)
        && (Succeeded(events, lake, f) ==> TreeInRange(f.input) && TreeInRange(f.output))
  {
    hide *;
    var status := if Succeeded(events, lake, f) then Completed else Failed;
    FinalizedIsReadable(projectIdOf, h, false, status, finished, BuildFinished(lake, f));
    BuildAccepted(events, lake, f);
  }

  // The records that carry an error's own message: exactly when the cut leaves no half of
  // a surrogate pair, which for a well-formed message depends on its last kept unit.
  lemma ErrorRecordsAreReadable(projectIdOf: ProjectHash, h: Head, reuse: bool, exitCode: int, m: seq<Unit16>,
    finished: Moment)
    requires Begun(projectIdOf, h, reuse) && Paired(m)
    ensures !reuse ==>
      && (Readable(projectIdOf, Document(h, Failed, Some(finished), Some(SandboxFailure(m)))) <==>
        InTime(h, finished) && CutsWhole(m))
      && (Readable(projectIdOf, Document(h, Failed, Some(finished), Some(VerificationFailure(exitCode, m)))) <==>
            InTime(h, finished) && CutsWhole(m) && SafeNumber(exitCode, -MAX_SAFE))
    ensures reuse ==>
      (Readable(projectIdOf, Document(h, Failed, Some(finished), Some(ReuseFailure(m)))) <==>
        InTime(h, finished) && CutsWhole(m))
  {
    FinalizedIsReadable(projectIdOf, h, reuse, Failed, finished, SandboxFailure(m));
    FinalizedIsReadable(projectIdOf, h, reuse, Failed, finished, VerificationFailure(exitCode, m));
    FinalizedIsReadable(projectIdOf, h, reuse, Failed, finished, ReuseFailure(m));
    FailuresAccepted(exitCode, m);
    SliceBreaksPair(m);
    hide Readable, Accepts, Begun, SandboxFailure, VerificationFailure, ReuseFailure, InTime, CutsWhole, Paired;
  }

  // The record of a reuse that was granted.
  lemma ReuseRecordIsReadable(
    projectIdOf: ProjectHash, h: Head, artifactAfter: Digest, artifactCount: int, evidence: Evidence, source: Uuid,
    finished: Moment)
    requires Begun(projectIdOf, h, true)
    ensures Readable(projectIdOf, Document(h, Reused, Some(finished),
      Some(ReuseGranted(artifactAfter, artifactCount, evidence, source)))) <==>
      InTime(h, finished) && SafeNumber(artifactCount, 0) && EvidenceInRange(evidence)
  {
    FinalizedIsReadable(projectIdOf, h, true, Reused, finished,
      ReuseGranted(artifactAfter, artifactCount, evidence, source));
    ReuseAccepted(artifactAfter, artifactCount, evidence, source);
    hide Readable, Accepts, Begun, ReuseGranted, InTime, EvidenceInRange;
  }

  // The record of a reuse that was denied or cancelled.
  lemma DenialRecordIsReadable(projectIdOf: ProjectHash, h: Head, a: Audit, cancelled: Option<Trigger>,
    finished: Moment)
    requires Begun(projectIdOf, h, true)
    ensures var o := Audited(a, ReuseVerification, DenialMessage(cancelled));
      Readable(projectIdOf, Document(h, Failed, Some(finished), Some(o))) <==> InTime(h, finished) && CountInRange(a)
  {
    var m := DenialMessage(cancelled);
    FinalizedIsReadable(projectIdOf, h, true, Failed, finished, Audited(a, ReuseVerification, m));
    AuditedAccepted(a, ReuseVerification, m);
    DenialMessageFits(cancelled);
    hide *;
  }

  // The record of a recovered execution, whichever coordinator had begun it.
  lemma RecoveryRecordIsReadable(projectIdOf: ProjectHash, h: Head, reuse: bool, a: Audit, evidenceStable: bool,
    finished: Moment)
    requires Begun(projectIdOf, h, reuse)
    ensures var o := Audited(a, RecoveryStage, RecoveryMessage(h.pid.value, evidenceStable));
      Readable(projectIdOf, Document(h, Failed, Some(finished), Some(o))) <==> InTime(h, finished) && CountInRange(a)
  {
    var m := RecoveryMessage(h.pid.value, evidenceStable);
    FinalizedIsReadable(projectIdOf, h, reuse, Failed, finished, Audited(a, RecoveryStage, m));
    AuditedAccepted(a, RecoveryStage, m);
    RecoveryMessageFits(h.pid.value, evidenceStable);
    hide *;
  }
}
