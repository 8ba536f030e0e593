// Execution records as JSON objects: what the reader accepts, and the writer's encoding.
module ExecutionRecord {
  import opened Wrappers
  import opened Bytes
  import opened ExecutionText

  // ---------- JSON values ----------

  datatype Json =
    | Null
    | Flag(flag: bool)
    | Number(number: int)
    // -0, the one other spelling of an integer, and numbers with a fraction or exponent
    | NegativeZero
    | OtherNumber
    | String(units: seq<Unit16>)
    | Array(items: seq<Json>)
    | Object(fields: map<Name, Json>)

  // Every other name there is has a number.
  datatype Name =
    // the record
    | AttestationSha256 | BindingSha256 | BuildLockKey | CoordinatorPid | DependencyArtifactBefore | ExecutionId
    | FinishedAt | ImageId | OutcomeField | ProfileSha256 | ProjectId | ProjectPath | ProjectProtectedBefore
    | ProjectProtectedRecordCount | RecordType | ReusePolicySha256 | SchemaVersion | StartedAt | StatusField | Target
    // the outcome
    | AttestationStable | BindingStable | BuildExecution | DependencyArtifactAfter | DependencyArtifactCount
    | FailureMessage | FailureStage | InspectionStable | LakeExitCode | ProcessGroupId | ProcessGroupReaped
    | ProjectProtectedRecordsStable | ReuseEvidence | ReusedFromExecutionId | TerminationEscalated
    | TerminationReason | TriggerSignal
    // reuse evidence and its trees
    | ProjectInput | ProjectOutput | ByteCount | EntryCount | FileCount | SchemaField | TreeHash
    | Unknown(index: nat)

  const OUTCOME_FIELDS: set<Name> :=
    { AttestationStable, BindingStable, BuildExecution, DependencyArtifactAfter, DependencyArtifactCount,
      FailureMessage, FailureStage, InspectionStable, LakeExitCode, ProcessGroupId, ProcessGroupReaped,
      ProjectProtectedRecordsStable, ReuseEvidence, ReusedFromExecutionId, TerminationEscalated, TerminationReason,
      TriggerSignal }

  const TREE_FIELDS: set<Name> := {ByteCount, EntryCount, FileCount, SchemaField, TreeHash}

  const EVIDENCE_FIELDS: set<Name> := {ProjectInput, ProjectOutput, SchemaVersion}

  const MAX_SAFE := 9_007_199_254_740_991
  const MAX_MESSAGE_UNITS := 1_024

  // ---------- Values ----------

  datatype Tree = Tree(treeHash: Digest, entryCount: int, fileCount: int, byteCount: int)

  datatype Evidence = Evidence(input: Tree, output: Tree)

  datatype Outcome = Outcome(
    build: Status,
    lakeExitCode: Option<int>,
    protectedStable: Option<bool>,
    artifactAfter: Option<Digest>,
    artifactCount: Option<int>,
    bindingStable: Option<bool>,
    attestationStable: Option<bool>,
    inspectionStable: Option<bool>,
    reason: Option<Reason>,
    trigger: Option<Trigger>,
    group: Option<int>,
    escalated: Option<bool>,
    reaped: Option<bool>,
    stage: Option<Stage>,
    message: Option<seq<Unit16>>,
    evidence: Option<Evidence>,
    source: Option<Uuid>)

  // ---------- Writing ----------

  function StatusText(s: Status): Json { String(StatusWord(s)) }
  function ReasonText(r: Reason): Json { String(ReasonWord(r)) }
  function TriggerText(t: Trigger): Json { String(TriggerWord(t)) }
  function StageText(s: Stage): Json { String(StageWord(s)) }
  function SchemaText(s: Schema): Json { String(SchemaWord(s)) }
  function HashText(d: Digest): Json { String(Hex(d)) }
  function TimeText(m: Moment): Json { String(MomentText(m)) }

  function Flagged(b: Option<bool>): Option<Json> { if b.Some? then Some(Flag(b.value)) else None }
  function Numbered(n: Option<int>): Option<Json> { if n.Some? then Some(Number(n.value)) else None }

  function TreeValue(t: Tree, schema: Schema, n: Name): Option<Json>
  {
    match n
    case ByteCount => Some(Number(t.byteCount))
    case EntryCount => Some(Number(t.entryCount))
    case FileCount => Some(Number(t.fileCount))
    case SchemaField => Some(SchemaText(schema))
    case TreeHash => Some(HashText(t.treeHash))
    case _ => None
  }

  function EncodeTree(t: Tree, schema: Schema): map<Name, Json>
  {
    map n | n in TREE_FIELDS && TreeValue(t, schema, n).Some? :: TreeValue(t, schema, n).value
  }

  function EvidenceValue(e: Evidence, n: Name): Option<Json>
  {
    match n
    case SchemaVersion => Some(Number(1))
    case ProjectInput => Some(Object(EncodeTree(e.input, InputTree)))
    case ProjectOutput => Some(Object(EncodeTree(e.output, OutputTree)))
    case _ => None
  }

  function EncodeEvidence(e: Evidence): map<Name, Json>
  {
    map n | n in EVIDENCE_FIELDS && EvidenceValue(e, n).Some? :: EvidenceValue(e, n).value
  }

  // An absent field is left out of the object.
  function OutcomeValue(o: Outcome, n: Name): Option<Json>
  {
    match n
    case BuildExecution => Some(StatusText(o.build))
    case LakeExitCode => Numbered(o.lakeExitCode)
    case ProjectProtectedRecordsStable => Flagged(o.protectedStable)
    case DependencyArtifactAfter => if o.artifactAfter.Some? then Some(HashText(o.artifactAfter.value)) else None
    case DependencyArtifactCount => Numbered(o.artifactCount)
    case BindingStable => Flagged(o.bindingStable)
    case AttestationStable => Flagged(o.attestationStable)
    case InspectionStable => Flagged(o.inspectionStable)
    case TerminationReason => if o.reason.Some? then Some(ReasonText(o.reason.value)) else None
    case TriggerSignal => if o.trigger.Some? then Some(TriggerText(o.trigger.value)) else None
    case ProcessGroupId => Numbered(o.group)
    case TerminationEscalated => Flagged(o.escalated)
    case ProcessGroupReaped => Flagged(o.reaped)
    case FailureStage => if o.stage.Some? then Some(StageText(o.stage.value)) else None
    case FailureMessage => if o.message.Some? then Some(String(o.message.value)) else None
    case ReuseEvidence => if o.evidence.Some? then Some(Object(EncodeEvidence(o.evidence.value))) else None
    case ReusedFromExecutionId => if o.source.Some? then Some(String(o.source.value)) else None
    case _ => None
  }

  function EncodeOutcome(o: Outcome): map<Name, Json>
  {
    map n | n in OUTCOME_FIELDS && OutcomeValue(o, n).Some? :: OutcomeValue(o, n).value
  }

  // ---------- Reading ----------

  datatype Read<+T> = Absent | Present(value: T) | Malformed

  function Kept<T>(r: Read<T>): Option<T> { if r.Present? then Some(r.value) else None }

  function ReadFlag(j: Option<Json>): Read<bool>
  {
    if j.None? then Absent else if j.value.Flag? then Present(j.value.flag) else Malformed
  }

  function ReadInteger(j: Option<Json>, least: int): Read<int>
  {
    if j.None? then Absent
    else if j.value.NegativeZero? && least < 0 then Present(0)
    else if j.value.Number? && least <= j.value.number <= MAX_SAFE then Present(j.value.number)
    else Malformed
  }

  function ReadString(j: Option<Json>): Read<seq<Unit16>>
  {
    if j.None? then Absent else if j.value.String? then Present(j.value.units) else Malformed
  }

  function Parsed<T>(r: Option<T>): Read<T> { if r.Some? then Present(r.value) else Malformed }

  function ReadHash(j: Option<Json>): Read<Digest>
  {
    if j.None? then Absent else if j.value.String? then Parsed(ParseDigest(j.value.units)) else Malformed
  }

  function ReadUuid(j: Option<Json>): Read<Uuid>
  {
    if j.None? then Absent else if j.value.String? && IsUuid(j.value.units) then Present(j.value.units) else Malformed
  }

  function ReadStatus(j: Option<Json>): Read<Status>
  {
    if j.None? then Absent else if j.value.String? then Parsed(ParseStatus(j.value.units)) else Malformed
  }

  function ReadReason(j: Option<Json>): Read<Reason>
  {
    if j.None? then Absent else if j.value.String? then Parsed(ParseReason(j.value.units)) else Malformed
  }

  function ReadTrigger(j: Option<Json>): Read<Trigger>
  {
    if j.None? then Absent else if j.value.String? then Parsed(ParseTrigger(j.value.units)) else Malformed
  }

  function ReadStage(j: Option<Json>): Read<Stage>
  {
    if j.None? then Absent else if j.value.String? then Parsed(ParseStage(j.value.units)) else Malformed
  }

  function ReadTime(j: Option<Json>): Read<Moment>
  {
    if j.None? then Absent else if j.value.String? then Parsed(ParseMoment(j.value.units)) else Malformed
  }

  function DecodeTree(m: map<Name, Json>, schema: Schema): Option<Tree>
  {
    var entries := ReadInteger(Lookup(m, EntryCount), 0);
    var files := ReadInteger(Lookup(m, FileCount), 0);
    var bytes := ReadInteger(Lookup(m, ByteCount), 0);
    var digest := ReadHash(Lookup(m, TreeHash));
    if !(m.Keys <= TREE_FIELDS) || Lookup(m, SchemaField) != Some(SchemaText(schema)) then None
    else if !entries.Present? || !files.Present? || !bytes.Present? || !digest.Present? then None
    else if files.value > entries.value then None
    else Some(Tree(digest.value, entries.value, files.value, bytes.value))
  }

  function DecodeEvidence(m: map<Name, Json>): Option<Evidence>
  {
    if !(m.Keys <= EVIDENCE_FIELDS) || Lookup(m, SchemaVersion) != Some(Number(1)) then None
    else if ProjectInput !in m || ProjectOutput !in m || !m[ProjectInput].Object? || !m[ProjectOutput].Object? then None
    else
      var input := DecodeTree(m[ProjectInput].fields, InputTree);
      var output := DecodeTree(m[ProjectOutput].fields, OutputTree);
      if input.None? || output.None? then None else Some(Evidence(input.value, output.value))
  }

  function ReadEvidence(j: Option<Json>): Read<Evidence>
  {
    if j.None? then Absent
    else if !j.value.Object? then Malformed
    else
      var e := DecodeEvidence(j.value.fields);
      if e.None? then Malformed else Present(e.value)
  }

  // The rules across fields.
  predicate Legal(o: Outcome, status: Status)
  {
    && status != Running
    && (o.trigger.Some? <==> o.reason == Some(Signal))
    && (o.message.Some? ==> |o.message.value| <= MAX_MESSAGE_UNITS)
    && (if status == Failed then o.stage.Some? else o.stage.None? && o.message.None?)
    && (if status == Reused then
          && o.evidence.Some? && o.source.Some?
          && o.lakeExitCode.None? && o.reason.None? && o.trigger.None? && o.group.None? && o.escalated.None?
            && o.reaped.None?
        else o.source.None?)
  }

  predicate RunMalformed(m: map<Name, Json>)
  {
    || ReadInteger(Lookup(m, LakeExitCode), -MAX_SAFE).Malformed?
    || ReadReason(Lookup(m, TerminationReason)).Malformed?
    || ReadTrigger(Lookup(m, TriggerSignal)).Malformed?
    || ReadInteger(Lookup(m, ProcessGroupId), 1).Malformed?
    || ReadFlag(Lookup(m, TerminationEscalated)).Malformed?
    || ReadFlag(Lookup(m, ProcessGroupReaped)).Malformed?
  }

  predicate FactsMalformed(m: map<Name, Json>)
  {
    || ReadFlag(Lookup(m, ProjectProtectedRecordsStable)).Malformed?
    || ReadHash(Lookup(m, DependencyArtifactAfter)).Malformed?
    || ReadInteger(Lookup(m, DependencyArtifactCount), 0).Malformed?
    || ReadFlag(Lookup(m, BindingStable)).Malformed?
    || ReadFlag(Lookup(m, AttestationStable)).Malformed?
    || ReadFlag(Lookup(m, InspectionStable)).Malformed?
  }

  predicate EndMalformed(m: map<Name, Json>)
  {
    || ReadStage(Lookup(m, FailureStage)).Malformed?
    || ReadString(Lookup(m, FailureMessage)).Malformed?
    || ReadEvidence(Lookup(m, ReuseEvidence)).Malformed?
    || ReadUuid(Lookup(m, ReusedFromExecutionId)).Malformed?
  }

  predicate AnyMalformed(m: map<Name, Json>) { RunMalformed(m) || FactsMalformed(m) || EndMalformed(m) }

  function OutcomeOf(m: map<Name, Json>, status: Status): Outcome
  {
    Outcome(
      status,
      Kept(ReadInteger(Lookup(m, LakeExitCode), -MAX_SAFE)),
      Kept(ReadFlag(Lookup(m, ProjectProtectedRecordsStable))),
      Kept(ReadHash(Lookup(m, DependencyArtifactAfter))),
      Kept(ReadInteger(Lookup(m, DependencyArtifactCount), 0)),
      Kept(ReadFlag(Lookup(m, BindingStable))),
      Kept(ReadFlag(Lookup(m, AttestationStable))),
      Kept(ReadFlag(Lookup(m, InspectionStable))),
      Kept(ReadReason(Lookup(m, TerminationReason))),
      Kept(ReadTrigger(Lookup(m, TriggerSignal))),
      Kept(ReadInteger(Lookup(m, ProcessGroupId), 1)),
      Kept(ReadFlag(Lookup(m, TerminationEscalated))),
      Kept(ReadFlag(Lookup(m, ProcessGroupReaped))),
      Kept(ReadStage(Lookup(m, FailureStage))),
      Kept(ReadString(Lookup(m, FailureMessage))),
      Kept(ReadEvidence(Lookup(m, ReuseEvidence))),
      Kept(ReadUuid(Lookup(m, ReusedFromExecutionId))))
  }

  predicate NamedFor(m: map<Name, Json>, status: Status)
  {
    m.Keys <= OUTCOME_FIELDS && Lookup(m, BuildExecution) == Some(StatusText(status))
  }

  function DecodeOutcome(m: map<Name, Json>, status: Status): Option<Outcome>
  {
    if !NamedFor(m, status) then None
    else if AnyMalformed(m) then None
    else if Legal(OutcomeOf(m, status), status) then Some(OutcomeOf(m, status))
    else None
  }

  // The same object with an exit code of -0 spelled 0.
  function Canonical(m: map<Name, Json>): map<Name, Json>
  {
    if Lookup(m, LakeExitCode) == Some(NegativeZero) then m[LakeExitCode := Number(0)] else m
  }

  // ---------- Ranges ----------

  predicate Safe(n: Option<int>, least: int) { n.Some? ==> least <= n.value <= MAX_SAFE }

  predicate TreeInRange(t: Tree)
  {
    0 <= t.fileCount <= t.entryCount <= MAX_SAFE && 0 <= t.byteCount <= MAX_SAFE
  }

  predicate EvidenceInRange(e: Evidence) { TreeInRange(e.input) && TreeInRange(e.output) }

  predicate InRange(o: Outcome)
  {
    && Safe(o.lakeExitCode, -MAX_SAFE) && Safe(o.artifactCount, 0) && Safe(o.group, 1)
    && (o.evidence.Some? ==> EvidenceInRange(o.evidence.value))
  }
}
