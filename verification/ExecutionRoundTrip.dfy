// Outcomes on disk: the reader takes back exactly what the writer encodes, for exactly
// the outcomes that obey the rules, and accepts nothing else.
module ExecutionRoundTrip {
  import opened Wrappers
  import opened ExecutionText
  import opened ExecutionRecord

  // An object is determined by its lookups.
  lemma SameObject(a: map<Name, Json>, b: map<Name, Json>)
    requires forall n: Name :: Lookup(a, n) == Lookup(b, n)
    ensures a == b
  {
    forall n: Name ensures n in a <==> n in b { assert Lookup(a, n) == Lookup(b, n); }
    forall n: Name | n in a ensures a[n] == b[n] { assert Lookup(a, n) == Lookup(b, n); }
  }

  // ---------- Trees and evidence ----------

  lemma StatusTextsDiffer(s: Status, t: Status)
    requires StatusText(s) == StatusText(t)
    ensures s == t
  {
    assert ParseStatus(StatusWord(s)) == Some(s) && ParseStatus(StatusWord(t)) == Some(t);
  }

  lemma TreeLookup(t: Tree, schema: Schema, n: Name)
    ensures Lookup(EncodeTree(t, schema), n) == TreeValue(t, schema, n)
  {
  }

  lemma TreeKeys(t: Tree, schema: Schema)
    ensures EncodeTree(t, schema).Keys <= TREE_FIELDS
  {
  }

  lemma TreeShown(t: Tree, schema: Schema)
    ensures var m := EncodeTree(t, schema);
      && m.Keys <= TREE_FIELDS && Lookup(m, SchemaField) == Some(SchemaText(schema))
        && Lookup(m, TreeHash) == Some(HashText(t.treeHash))
      && Lookup(m, EntryCount) == Some(Number(t.entryCount)) && Lookup(m, FileCount) == Some(Number(t.fileCount))
      && Lookup(m, ByteCount) == Some(Number(t.byteCount))
  {
    TreeKeys(t, schema);
    TreeLookup(t, schema, SchemaField);
    TreeLookup(t, schema, TreeHash);
    TreeLookup(t, schema, EntryCount);
    TreeLookup(t, schema, FileCount);
    TreeLookup(t, schema, ByteCount);
    hide EncodeTree, TREE_FIELDS, Lookup, HashText, SchemaText;
  }

  lemma TreeRoundTrip(t: Tree, schema: Schema)
    ensures DecodeTree(EncodeTree(t, schema), schema) == if TreeInRange(t) then Some(t) else None
  {
    TreeShown(t, schema);
    hide EncodeTree, TREE_FIELDS, Lookup;
  }

  lemma TreeCanonical(m: map<Name, Json>, schema: Schema)
    requires DecodeTree(m, schema).Some?
    ensures m == EncodeTree(DecodeTree(m, schema).value, schema) && TreeInRange(DecodeTree(m, schema).value)
  {
    var t := DecodeTree(m, schema).value;
    forall n: Name ensures Lookup(m, n) == Lookup(EncodeTree(t, schema), n) {
      TreeLookup(t, schema, n);
    }
    SameObject(m, EncodeTree(t, schema));
  }

  lemma EvidenceLookup(e: Evidence, n: Name)
    ensures Lookup(EncodeEvidence(e), n) == EvidenceValue(e, n)
  {
    hide EncodeTree;
  }

  lemma EvidenceKeys(e: Evidence)
    ensures EncodeEvidence(e).Keys <= EVIDENCE_FIELDS
  {
    hide EncodeTree;
  }

  lemma EvidenceShown(e: Evidence)
    ensures var m := EncodeEvidence(e);
      && m.Keys <= EVIDENCE_FIELDS && Lookup(m, SchemaVersion) == Some(Number(1))
      && ProjectInput in m && m[ProjectInput] == Object(EncodeTree(e.input, InputTree))
      && ProjectOutput in m && m[ProjectOutput] == Object(EncodeTree(e.output, OutputTree))
  {
    EvidenceKeys(e);
    EvidenceLookup(e, SchemaVersion);
    EvidenceLookup(e, ProjectInput);
    EvidenceLookup(e, ProjectOutput);
    hide EncodeEvidence, EncodeTree, EVIDENCE_FIELDS;
  }

  lemma EvidenceRoundTrip(e: Evidence)
    ensures DecodeEvidence(EncodeEvidence(e)) == if EvidenceInRange(e) then Some(e) else None
  {
    EvidenceShown(e);
    TreeRoundTrip(e.input, InputTree);
    TreeRoundTrip(e.output, OutputTree);
    hide EncodeEvidence, EncodeTree, DecodeTree, EVIDENCE_FIELDS, TreeInRange;
  }

  lemma EvidenceCanonical(m: map<Name, Json>)
    requires DecodeEvidence(m).Some?
    ensures m == EncodeEvidence(DecodeEvidence(m).value) && EvidenceInRange(DecodeEvidence(m).value)
  {
    var e := DecodeEvidence(m).value;
    TreeCanonical(m[ProjectInput].fields, InputTree);
    TreeCanonical(m[ProjectOutput].fields, OutputTree);
    hide EncodeTree, DecodeTree;
    forall n: Name ensures Lookup(m, n) == Lookup(EncodeEvidence(e), n) {
      EvidenceLookup(e, n);
    }
    SameObject(m, EncodeEvidence(e));
  }

  // ---------- Outcomes ----------

  lemma OutcomeLookup(o: Outcome, n: Name)
    ensures Lookup(EncodeOutcome(o), n) == OutcomeValue(o, n)
  {
    hide EncodeEvidence;
  }

  lemma OutcomeKeys(o: Outcome)
    ensures EncodeOutcome(o).Keys <= OUTCOME_FIELDS
  {
    hide EncodeEvidence, OUTCOME_FIELDS, OutcomeValue;
  }

  lemma ReadsNumber(n: Option<int>, least: int)
    ensures ReadInteger(Numbered(n), least) == if n.None? then Absent else if Safe(n, least) then Present(n.value)
      else Malformed
  {
  }

  lemma ReadsEvidence(o: Outcome)
    ensures ReadEvidence(OutcomeValue(o, ReuseEvidence)) ==
      if o.evidence.None? then Absent else if EvidenceInRange(o.evidence.value) then Present(o.evidence.value)
        else Malformed
  {
    EvidenceField(o);
    hide OutcomeValue, EncodeEvidence, DecodeEvidence, EvidenceInRange;
    if o.evidence.Some? { EvidenceRoundTrip(o.evidence.value); }
  }

  lemma EvidenceField(o: Outcome)
    ensures OutcomeValue(o, ReuseEvidence) ==
      if o.evidence.Some? then Some(Object(EncodeEvidence(o.evidence.value))) else None
  {
    hide EncodeEvidence, HashText, StatusText, ReasonText, TriggerText, StageText, Flagged, Numbered, IsUuid;
  }

  // What the reader sees of an encoded outcome: the numbers and the evidence decide
  // whether a field is malformed, and every other field reads back as written.
  ghost predicate Shows(m: map<Name, Json>, o: Outcome) { forall n: Name :: Lookup(m, n) == OutcomeValue(o, n) }

  lemma ReadsRun(m: map<Name, Json>, o: Outcome)
    requires Shows(m, o)
    ensures RunMalformed(m) <==> !(Safe(o.lakeExitCode, -MAX_SAFE) && Safe(o.group, 1))
    ensures !RunMalformed(m) ==>
      && Kept(ReadInteger(Lookup(m, LakeExitCode), -MAX_SAFE)) == o.lakeExitCode
      && Kept(ReadReason(Lookup(m, TerminationReason))) == o.reason
      && Kept(ReadTrigger(Lookup(m, TriggerSignal))) == o.trigger
      && Kept(ReadInteger(Lookup(m, ProcessGroupId), 1)) == o.group
      && Kept(ReadFlag(Lookup(m, TerminationEscalated))) == o.escalated
      && Kept(ReadFlag(Lookup(m, ProcessGroupReaped))) == o.reaped
  {
    RunShown(m, o);
    ReadsNumber(o.lakeExitCode, -MAX_SAFE);
    ReadsNumber(o.group, 1);
    hide ReadInteger, Numbered, Lookup, Shows, OutcomeValue;
  }

  lemma RunShown(m: map<Name, Json>, o: Outcome)
    requires Shows(m, o)
    ensures Lookup(m, LakeExitCode) == Numbered(o.lakeExitCode) && Lookup(m, ProcessGroupId) == Numbered(o.group)
    ensures Lookup(m, TerminationReason) == (if o.reason.Some? then Some(ReasonText(o.reason.value)) else None)
    ensures Lookup(m, TriggerSignal) == (if o.trigger.Some? then Some(TriggerText(o.trigger.value)) else None)
    ensures Lookup(m, TerminationEscalated) == Flagged(o.escalated)
      && Lookup(m, ProcessGroupReaped) == Flagged(o.reaped)
  {
    hide Lookup, Numbered, Flagged, EncodeEvidence, HashText, StatusText, ReasonText, TriggerText, StageText;
  }

  lemma ReadsFacts(m: map<Name, Json>, o: Outcome)
    requires Shows(m, o)
    ensures FactsMalformed(m) <==> !Safe(o.artifactCount, 0)
    ensures !FactsMalformed(m) ==>
      && Kept(ReadFlag(Lookup(m, ProjectProtectedRecordsStable))) == o.protectedStable
      && Kept(ReadHash(Lookup(m, DependencyArtifactAfter))) == o.artifactAfter
      && Kept(ReadInteger(Lookup(m, DependencyArtifactCount), 0)) == o.artifactCount
      && Kept(ReadFlag(Lookup(m, BindingStable))) == o.bindingStable
      && Kept(ReadFlag(Lookup(m, AttestationStable))) == o.attestationStable
      && Kept(ReadFlag(Lookup(m, InspectionStable))) == o.inspectionStable
  {
    FactsShown(m, o);
    ReadsNumber(o.artifactCount, 0);
    hide ReadInteger, Numbered, Lookup, Shows, OutcomeValue;
  }

  lemma FactsShown(m: map<Name, Json>, o: Outcome)
    requires Shows(m, o)
    ensures Lookup(m, ProjectProtectedRecordsStable) == Flagged(o.protectedStable)
      && Lookup(m, BindingStable) == Flagged(o.bindingStable)
    ensures Lookup(m, AttestationStable) == Flagged(o.attestationStable)
      && Lookup(m, InspectionStable) == Flagged(o.inspectionStable)
    ensures Lookup(m, DependencyArtifactAfter)
      == (if o.artifactAfter.Some? then Some(HashText(o.artifactAfter.value)) else None)
    ensures Lookup(m, DependencyArtifactCount) == Numbered(o.artifactCount)
  {
    hide Lookup, Numbered, Flagged, EncodeEvidence, HashText, StatusText, ReasonText, TriggerText, StageText;
  }

  lemma ReadsEnd(m: map<Name, Json>, o: Outcome)
    requires Shows(m, o)
    ensures EndMalformed(m) <==> !(o.evidence.Some? ==> EvidenceInRange(o.evidence.value))
    ensures !EndMalformed(m) ==>
      && Kept(ReadStage(Lookup(m, FailureStage))) == o.stage
      && Kept(ReadString(Lookup(m, FailureMessage))) == o.message
      && Kept(ReadEvidence(Lookup(m, ReuseEvidence))) == o.evidence
      && Kept(ReadUuid(Lookup(m, ReusedFromExecutionId))) == o.source
  {
    ReadsEvidence(o);
    hide ReadEvidence, EvidenceInRange, Lookup, EncodeEvidence, HashText, ReasonText, TriggerText, Flagged, Numbered;
  }

  lemma ReadsOutcome(m: map<Name, Json>, o: Outcome)
    requires Shows(m, o)
    ensures AnyMalformed(m) <==> !InRange(o)
    ensures InRange(o) ==> OutcomeOf(m, o.build) == o
  {
    ReadsRun(m, o);
    ReadsFacts(m, o);
    ReadsEnd(m, o);
    hide RunMalformed, FactsMalformed, EndMalformed, Shows, Lookup, Kept, ReadInteger, ReadFlag, ReadReason;
    hide ReadTrigger, ReadHash, ReadStage, ReadString, ReadEvidence, ReadUuid, Safe, EvidenceInRange;
  }

  // The reader takes back exactly what is written, for exactly the outcomes in range that
  // obey the rules.
  lemma OutcomeRoundTrip(o: Outcome, status: Status)
    ensures DecodeOutcome(EncodeOutcome(o), status) == if o.build == status && InRange(o) && Legal(o, status)
      then Some(o) else None
  {
    var m := EncodeOutcome(o);
    OutcomeKeys(o);
    forall n: Name ensures Lookup(m, n) == OutcomeValue(o, n) { OutcomeLookup(o, n); }
    assert Shows(m, o);
    ReadsOutcome(m, o);
    assert Lookup(m, BuildExecution) == Some(StatusText(o.build)) by { hide StatusText, Lookup, EncodeOutcome; }
    hide EncodeOutcome, OutcomeValue, AnyMalformed, InRange, OutcomeOf, Legal, OUTCOME_FIELDS, StatusText, Lookup;
    if StatusText(o.build) == StatusText(status) { StatusTextsDiffer(o.build, status); }
  }

  // ---------- Nothing else is accepted ----------

  lemma NumberWritten(j: Option<Json>, least: int)
    requires !ReadInteger(j, least).Malformed? && j != Some(NegativeZero)
    ensures Numbered(Kept(ReadInteger(j, least))) == j && Safe(Kept(ReadInteger(j, least)), least)
  {
  }

  lemma CountWritten(j: Option<Json>, least: nat)
    requires !ReadInteger(j, least).Malformed?
    ensures Numbered(Kept(ReadInteger(j, least))) == j && Safe(Kept(ReadInteger(j, least)), least)
  {
  }

  lemma HashWritten(j: Option<Json>)
    requires !ReadHash(j).Malformed?
    ensures j == var d := Kept(ReadHash(j)); if d.Some? then Some(HashText(d.value)) else None
  {
  }

  lemma EvidenceWritten(j: Option<Json>)
    requires !ReadEvidence(j).Malformed?
    ensures var e := Kept(ReadEvidence(j));
      && j == (if e.Some? then Some(Object(EncodeEvidence(e.value))) else None)
      && (e.Some? ==> EvidenceInRange(e.value))
  {
    if j.Some? && j.value.Object? && DecodeEvidence(j.value.fields).Some? { EvidenceCanonical(j.value.fields); }
    hide EncodeEvidence, DecodeEvidence, EvidenceInRange;
  }

  lemma RunWritten(m: map<Name, Json>, status: Status, n: Name)
    requires !RunMalformed(m) && Lookup(m, LakeExitCode) != Some(NegativeZero)
    requires n == LakeExitCode || n == TerminationReason || n == TriggerSignal || n == ProcessGroupId
      || n == TerminationEscalated || n == ProcessGroupReaped
    ensures Lookup(m, n) == OutcomeValue(OutcomeOf(m, status), n)
  {
    NumberWritten(Lookup(m, LakeExitCode), -MAX_SAFE);
    CountWritten(Lookup(m, ProcessGroupId), 1);
    hide ReadInteger, Numbered, Lookup, ReadEvidence;
  }

  lemma FactWritten(m: map<Name, Json>, status: Status, n: Name)
    requires !FactsMalformed(m)
    requires n == ProjectProtectedRecordsStable || n == DependencyArtifactAfter || n == DependencyArtifactCount
      || n == BindingStable || n == AttestationStable || n == InspectionStable
    ensures Lookup(m, n) == OutcomeValue(OutcomeOf(m, status), n)
  {
    CountWritten(Lookup(m, DependencyArtifactCount), 0);
    HashWritten(Lookup(m, DependencyArtifactAfter));
    hide ReadInteger, ReadHash, Numbered, Lookup, ReadEvidence, HashText, StatusText, ReasonText, TriggerText;
    hide StageText, EncodeEvidence, ReadReason, ReadTrigger, ReadStage, ReadString, ReadUuid, IsUuid;
  }

  lemma EndWritten(m: map<Name, Json>, status: Status, n: Name)
    requires !EndMalformed(m)
    requires n == FailureStage || n == FailureMessage || n == ReuseEvidence || n == ReusedFromExecutionId
    ensures Lookup(m, n) == OutcomeValue(OutcomeOf(m, status), n)
  {
    EvidenceWritten(Lookup(m, ReuseEvidence));
    hide ReadInteger, Lookup, ReadEvidence, EncodeEvidence;
  }

  lemma NamesOfOutcome(n: Name)
    ensures n in OUTCOME_FIELDS <==>
      || n == BuildExecution
      || n == LakeExitCode || n == TerminationReason || n == TriggerSignal || n == ProcessGroupId
        || n == TerminationEscalated || n == ProcessGroupReaped
      || n == ProjectProtectedRecordsStable || n == DependencyArtifactAfter || n == DependencyArtifactCount
      || n == BindingStable || n == AttestationStable || n == InspectionStable
      || n == FailureStage || n == FailureMessage || n == ReuseEvidence || n == ReusedFromExecutionId
  {
  }

  lemma NoOtherValue(o: Outcome, n: Name)
    requires n !in OUTCOME_FIELDS
    ensures OutcomeValue(o, n).None?
  {
    hide EncodeEvidence;
  }

  lemma FieldWritten(m: map<Name, Json>, status: Status, n: Name)
    requires Lookup(m, LakeExitCode) != Some(NegativeZero)
    requires !AnyMalformed(m) && m.Keys <= OUTCOME_FIELDS && Lookup(m, BuildExecution) == Some(StatusText(status))
    ensures Lookup(m, n) == OutcomeValue(OutcomeOf(m, status), n)
  {
    NamesOfOutcome(n);
    hide OUTCOME_FIELDS, RunMalformed, FactsMalformed, EndMalformed;
    if n == BuildExecution {
      assert OutcomeOf(m, status).build == status;
    } else {
      hide OutcomeOf, OutcomeValue;
      if n !in OUTCOME_FIELDS {
        NoOtherValue(OutcomeOf(m, status), n);
      } else if n == FailureStage || n == FailureMessage || n == ReuseEvidence || n == ReusedFromExecutionId {
        EndWritten(m, status, n);
      } else if n == LakeExitCode || n == TerminationReason || n == TriggerSignal || n == ProcessGroupId
        || n == TerminationEscalated || n == ProcessGroupReaped {
        RunWritten(m, status, n);
      } else {
        FactWritten(m, status, n);
      }
    }
  }

  // The spelling of a zero exit code is the one freedom the reader leaves.
  lemma SpellingIrrelevant(m: map<Name, Json>, status: Status)
    ensures DecodeOutcome(Canonical(m), status) == DecodeOutcome(m, status)
  {
    var c := Canonical(m);
    if c != m {
      assert Lookup(c, LakeExitCode) == Some(Number(0)) && Lookup(m, LakeExitCode) == Some(NegativeZero);
      assert c.Keys == m.Keys;
      forall n: Name | n != LakeExitCode ensures Lookup(c, n) == Lookup(m, n) {}
      assert ReadInteger(Lookup(c, LakeExitCode), -MAX_SAFE) == ReadInteger(Lookup(m, LakeExitCode), -MAX_SAFE);
      SameReadings(c, m, status);
    }
  }

  ghost predicate SameFields(c: map<Name, Json>, m: map<Name, Json>)
  {
    && c.Keys == m.Keys
    && (forall n: Name :: n != LakeExitCode ==> Lookup(c, n) == Lookup(m, n))
    && ReadInteger(Lookup(c, LakeExitCode), -MAX_SAFE) == ReadInteger(Lookup(m, LakeExitCode), -MAX_SAFE)
  }

  lemma SameMalformed(c: map<Name, Json>, m: map<Name, Json>)
    requires SameFields(c, m)
    ensures AnyMalformed(c) <==> AnyMalformed(m)
  {
    hide ReadInteger, Lookup, ReadEvidence, ReadFlag, ReadReason, ReadTrigger, ReadHash, ReadStage, ReadString,
      ReadUuid;
  }

  lemma SameOutcome(c: map<Name, Json>, m: map<Name, Json>, status: Status)
    requires SameFields(c, m)
    ensures OutcomeOf(c, status) == OutcomeOf(m, status)
  {
    hide ReadInteger, Lookup, ReadEvidence, Kept, ReadFlag, ReadReason, ReadTrigger, ReadHash, ReadStage, ReadString;
    hide ReadUuid;
  }

  lemma SameReadings(c: map<Name, Json>, m: map<Name, Json>, status: Status)
    requires SameFields(c, m)
    ensures DecodeOutcome(c, status) == DecodeOutcome(m, status)
  {
    SameMalformed(c, m);
    SameOutcome(c, m, status);
    SameNames(c, m, status);
    hide OutcomeOf, AnyMalformed, Legal, NamedFor, SameFields;
  }

  lemma SameNames(c: map<Name, Json>, m: map<Name, Json>, status: Status)
    requires SameFields(c, m)
    ensures NamedFor(c, status) <==> NamedFor(m, status)
  {
    assert Lookup(c, BuildExecution) == Lookup(m, BuildExecution);
    hide OUTCOME_FIELDS, Lookup, ReadInteger;
  }

  // Every accepted object is the encoding of the outcome it decodes to.
  lemma OutcomeCanonical(m: map<Name, Json>, status: Status)
    requires DecodeOutcome(m, status).Some?
    ensures Canonical(m) == EncodeOutcome(DecodeOutcome(m, status).value)
  {
    var o := DecodeOutcome(m, status).value;
    var c := Canonical(m);
    SpellingIrrelevant(m, status);
    assert Lookup(c, LakeExitCode) != Some(NegativeZero);
    hide AnyMalformed, OutcomeOf, Legal, OutcomeValue, EncodeOutcome, OUTCOME_FIELDS, Canonical;
    forall n: Name ensures Lookup(c, n) == Lookup(EncodeOutcome(o), n) {
      FieldWritten(c, status, n);
      OutcomeLookup(o, n);
    }
    SameObject(c, EncodeOutcome(o));
  }

  // The accepted objects, exactly: the encodings of outcomes in range that obey the rules,
  // up to the spelling of a zero exit code.
  lemma OutcomeAcceptedExactly(m: map<Name, Json>, status: Status, o: Outcome)
    ensures DecodeOutcome(m, status) == Some(o) <==>
      Canonical(m) == EncodeOutcome(o) && o.build == status && InRange(o) && Legal(o, status)
  {
    SpellingIrrelevant(m, status);
    OutcomeRoundTrip(o, status);
    hide *;
    if DecodeOutcome(m, status) == Some(o) { OutcomeCanonical(m, status); }
  }
}
