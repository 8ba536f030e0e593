// The terminal records the build, reuse and recovery coordinators write, and when the
// reader accepts them.
module ExecutionWriters {
  import opened Wrappers
  import opened Bytes
  import opened ExecutionText
  import opened ExecutionRecord
  import opened ExecutionRoundTrip

  // ---------- Failure messages ----------

  // message.slice(0, 1024)
  function Sliced(m: seq<Unit16>): (r: seq<Unit16>)
    ensures |r| <= MAX_MESSAGE_UNITS
  {
    if |m| <= MAX_MESSAGE_UNITS then m else m[..MAX_MESSAGE_UNITS]
  }

  predicate CutsWhole(m: seq<Unit16>) { |m| <= MAX_MESSAGE_UNITS || !High(m[MAX_MESSAGE_UNITS - 1]) }

  // The cut breaks a well-formed message exactly when it falls between two halves.
  lemma SliceBreaksPair(m: seq<Unit16>)
    requires Paired(m)
    ensures Paired(Sliced(m)) <==> CutsWhole(m)
  {
    var r := Sliced(m);
    if |m| > MAX_MESSAGE_UNITS {
      var last := MAX_MESSAGE_UNITS - 1;
      forall i | 0 <= i < |r| ensures PairedAt(r, i) <==> i < last || !High(m[last]) {
        assert PairedAt(m, i) && r[i] == m[i];
        assert 0 < i ==> r[i - 1] == m[i - 1];
        assert i < last ==> r[i + 1] == m[i + 1];
      }
      assert PairedAt(r, last) <==> !High(m[last]);
    }
  }

  // ---------- Messages the coordinators compose ----------

  function Digits(n: nat): (r: seq<Unit16>)
    ensures |r| >= 1 && AllDigits(r)
    ensures forall w: nat :: w >= 1 && n < Pow10(w) ==> |r| <= w
  {
    if n < 10 then [0x30 + n] else Digits(n / 10) + [0x30 + n % 10]
  }

  function RecoveryMessage(pid: nat, evidenceStable: bool): seq<Unit16>
  {
    Ascii("explicit recovery after coordinator pid ") + Digits(pid) + Ascii(" was absent; evidence=")
    + (if evidenceStable then Ascii("stable") else Ascii("drifted"))
  }

  function DenialMessage(cancelled: Option<Trigger>): seq<Unit16>
  {
    if cancelled.Some? then Ascii("reuse transaction cancelled by ") + TriggerWord(cancelled.value)
    else Ascii("lock-held reuse evidence did not satisfy every authorization and snapshot condition")
  }

  predicate Fitting(m: seq<Unit16>) { Paired(m) && |m| <= MAX_MESSAGE_UNITS }

  predicate Plain(m: seq<Unit16>) { forall i :: 0 <= i < |m| ==> m[i] < 0x80 }

  lemma AsciiIsPlain(s: string)
    ensures Plain(Ascii(s)) && |Ascii(s)| == |s|
  {
  }

  lemma PlainConcat(a: seq<Unit16>, b: seq<Unit16>)
    requires Plain(a) && Plain(b)
    ensures Plain(a + b)
  {
  }

  lemma PlainFits(m: seq<Unit16>)
    requires Plain(m) && |m| <= MAX_MESSAGE_UNITS
    ensures Fitting(m)
  {
  }

  lemma DigitsFit(n: nat)
    requires n <= MAX_SAFE
    ensures Plain(Digits(n)) && |Digits(n)| <= 16
  {
    assert Pow10(8) == 100_000_000 && Pow10(16) == 10_000_000_000_000_000;
  }

  lemma RecoveryMessageFits(pid: nat, evidenceStable: bool)
    requires pid <= MAX_SAFE
    ensures Fitting(RecoveryMessage(pid, evidenceStable))
  {
    var head, tail := Ascii("explicit recovery after coordinator pid "), Ascii(" was absent; evidence=");
    var last := if evidenceStable then Ascii("stable") else Ascii("drifted");
    AsciiIsPlain("explicit recovery after coordinator pid ");
    AsciiIsPlain(" was absent; evidence=");
    AsciiIsPlain("stable");
    AsciiIsPlain("drifted");
    DigitsFit(pid);
    assert RecoveryMessage(pid, evidenceStable) == head + Digits(pid) + tail + last;
    hide Plain, Fitting, RecoveryMessage, Ascii, Digits;
    PlainConcat(head, Digits(pid));
    PlainConcat(head + Digits(pid), tail);
    PlainConcat(head + Digits(pid) + tail, last);
    PlainFits(head + Digits(pid) + tail + last);
  }

  lemma DenialMessageFits(cancelled: Option<Trigger>)
    ensures Fitting(DenialMessage(cancelled))
  {
    AsciiIsPlain("reuse transaction cancelled by ");
    AsciiIsPlain("lock-held reuse evidence did not satisfy every authorization and snapshot condition");
    if cancelled.Some? { TriggerIsPlain(cancelled.value); }
    hide Plain, Fitting, Ascii, TriggerWord;
    if cancelled.Some? { PlainConcat(Ascii("reuse transaction cancelled by "), TriggerWord(cancelled.value)); }
    PlainFits(DenialMessage(cancelled));
  }

  lemma TriggerIsPlain(t: Trigger)
    ensures Plain(TriggerWord(t)) && |TriggerWord(t)| <= 7
  {
    hide Ascii;
    AsciiIsPlain("SIGINT");
    AsciiIsPlain("SIGTERM");
    AsciiIsPlain("ABORT");
  }

  // What the whole reader, text parser first, makes of an outcome.
  predicate Accepts(o: Outcome, status: Status)
  {
    (o.message.Some? ==> Paired(o.message.value)) && DecodeOutcome(EncodeOutcome(o), status) == Some(o)
  }

  lemma AcceptsExactly(o: Outcome, status: Status)
    ensures Accepts(o, status) <==>
      (o.message.Some? ==> Paired(o.message.value)) && o.build == status && InRange(o) && Legal(o, status)
  {
    OutcomeRoundTrip(o, status);
    hide DecodeOutcome, EncodeOutcome, Legal, InRange;
  }

  // ---------- The supervised process ----------

  // The deadline, an abort with its origin, or the end of the process.
  datatype Event = Deadline | Aborted(origin: Trigger) | Ended

  datatype Run = Run(reason: Reason, trigger: Option<Trigger>, ended: bool)

  // Only the first request to terminate counts, and none after the end.
  function Terminate(r: Run, reason: Reason, origin: Option<Trigger>): Run
  {
    if r.reason != Exit || r.ended then r else r.(reason := reason, trigger := origin)
  }

  function Supervise(events: seq<Event>): Run
  {
    if events == [] then Run(Exit, None, false)
    else
      var r := Supervise(events[..|events| - 1]);
      match events[|events| - 1]
      case Deadline => Terminate(r, Timeout, None)
      case Aborted(origin) => Terminate(r, Signal, Some(origin))
      case Ended => r.(ended := true)
  }

  // Whatever happens in whatever order, a trigger is recorded exactly for a signal.
  lemma {:induction false} TriggerExactlyForSignal(events: seq<Event>)
    ensures Supervise(events).trigger.Some? <==> Supervise(events).reason == Signal
  {
    if events != [] { TriggerExactlyForSignal(events[..|events| - 1]); }
  }

  // The first event decides how the run ended; later ones change nothing.
  predicate EndedBy(r: Run, events: seq<Event>)
  {
    if events == [] || events[0] == Ended then r.reason == Exit && r.trigger.None?
    else if events[0] == Deadline then r.reason == Timeout && r.trigger.None?
    else r.reason == Signal && r.trigger == Some(events[0].origin)
  }

  lemma {:induction false} FirstEventDecides(events: seq<Event>)
    ensures EndedBy(Supervise(events), events)
    ensures Supervise(events).ended ==> Ended in events
    ensures events != [] && events[0] == Ended ==> Supervise(events).ended
  {
    if events != [] { FirstEventDecides(events[..|events| - 1]); }
  }

  // ---------- What the coordinators write ----------

  function Blank(build: Status): Outcome
  {
    Outcome(build, None, None, None, None, None, None, None, None, None, None, None, None, None, None, None, None)
  }

  // The sandboxed process could not be run.
  function SandboxFailure(m: seq<Unit16>): Outcome
  {
    Blank(Failed).(stage := Some(SandboxExecution), message := Some(Sliced(m)))
  }

  // The process ran and the verification after it could not be completed.
  function VerificationFailure(exitCode: int, m: seq<Unit16>): Outcome
  {
    Blank(Failed).(lakeExitCode := Some(exitCode), stage := Some(PostBuildVerification), message := Some(Sliced(m)))
  }

  // The reuse verification could not be completed.
  function ReuseFailure(m: seq<Unit16>): Outcome
  {
    Blank(Failed).(stage := Some(ReuseVerification), message := Some(Sliced(m)))
  }

  datatype Lake = Lake(exitCode: int, run: Run, group: int, escalated: bool)

  datatype Facts = Facts(
    protectedStable: bool,
    artifactsStable: bool,
    bindingStable: bool,
    attestationStable: bool,
    inspectionStable: bool,
    inputStable: bool,
    outputObserved: bool,
    artifactAfter: Digest,
    artifactCount: int,
    input: Tree,
    output: Tree)

  // controlledBuildPassed
  predicate Passed(lake: Lake, f: Facts)
  {
    && lake.exitCode == 0 && lake.run.reason == Exit
    && f.protectedStable && f.artifactsStable && f.bindingStable && f.attestationStable && f.inspectionStable
    && f.inputStable && f.outputObserved
  }

  function BuildStatus(lake: Lake, f: Facts): Status { if Passed(lake, f) then Completed else Failed }

  // A build whose process group is known to be gone.
  function BuildFinished(lake: Lake, f: Facts): Outcome
  {
    Outcome(
      BuildStatus(lake, f),
      Some(lake.exitCode),
      Some(f.protectedStable),
      Some(f.artifactAfter),
      Some(f.artifactCount),
      Some(f.bindingStable),
      Some(f.attestationStable),
      Some(f.inspectionStable),
      Some(lake.run.reason),
      lake.run.trigger,
      Some(lake.group),
      Some(lake.escalated),
      Some(true),
      if Passed(lake, f) then None
        else Some(if lake.run.reason == Exit then PostBuildVerification else SandboxExecution),
      None,
      if Passed(lake, f) then Some(Evidence(f.input, f.output)) else None,
      None)
  }

  // The dependency artifacts as observed, when they were.
  datatype Audit = Audit(artifacts: Option<(Digest, int)>, protectedStable: bool, bindingStable: bool,
    attestationStable: bool, inspectionStable: bool)

  function Audited(a: Audit, stage: Stage, m: seq<Unit16>): Outcome
  {
    Blank(Failed).(
      protectedStable := Some(a.protectedStable),
      artifactAfter := if a.artifacts.Some? then Some(a.artifacts.value.0) else None,
      artifactCount := if a.artifacts.Some? then Some(a.artifacts.value.1) else None,
      bindingStable := Some(a.bindingStable),
      attestationStable := Some(a.attestationStable),
      inspectionStable := Some(a.inspectionStable),
      stage := Some(stage),
      message := Some(m))
  }

  // A reuse that verified its source: the source's evidence, unchanged.
  function ReuseGranted(artifactAfter: Digest, artifactCount: int, evidence: Evidence, source: Uuid): Outcome
  {
    Blank(Reused).(
      protectedStable := Some(true),
      artifactAfter := Some(artifactAfter),
      artifactCount := Some(artifactCount),
      bindingStable := Some(true),
      attestationStable := Some(true),
      inspectionStable := Some(true),
      evidence := Some(evidence),
      source := Some(source))
  }

  // What the reuse coordinator finds under the lock: the artifacts are there when the
  // image evidence was complete, and the candidate has evidence when its record does.
  datatype ReuseFacts = ReuseFacts(
    cancelled: Option<Trigger>,
    preflightApproved: bool,
    artifacts: Option<(Digest, int)>,
    bindingStable: bool,
    attestationStable: bool,
    protectedStable: bool,
    eligible: bool,
    candidate: Option<(Uuid, Option<Evidence>)>)

  predicate ReuseApproved(f: ReuseFacts)
  {
    && f.cancelled.None? && f.preflightApproved && f.artifacts.Some?
    && f.bindingStable && f.attestationStable && f.protectedStable && f.eligible
    && f.candidate.Some? && f.candidate.value.1.Some?
  }

  function ReuseFinished(f: ReuseFacts): Outcome
  {
    if ReuseApproved(f)
    then ReuseGranted(f.artifacts.value.0, f.artifacts.value.1, f.candidate.value.1.value, f.candidate.value.0)
    else
      Audited(
        Audit(f.artifacts, f.protectedStable, f.bindingStable, f.attestationStable, f.preflightApproved),
        ReuseVerification, DenialMessage(f.cancelled))
  }

  // The terminal outcome of a recovery, whatever its audit finds.
  function RecoveryFinished(pid: nat, a: Audit, artifactsStable: bool): Outcome
  {
    var stable := a.protectedStable && artifactsStable && a.bindingStable && a.attestationStable && a.inspectionStable;
    Audited(a, RecoveryStage, RecoveryMessage(pid, stable))
  }

  // A successful build: Lake exited with 0 on its own, nothing it may not touch changed, and
  // its output was seen.
  predicate Succeeded(events: seq<Event>, lake: Lake, f: Facts)
  {
    && OnItsOwn(events) && lake.exitCode == 0
    && f.protectedStable && f.artifactsStable && f.bindingStable && f.attestationStable && f.inspectionStable
    && f.inputStable && f.outputObserved
  }

  predicate OnItsOwn(events: seq<Event>) { events == [] || events[0] == Ended }

  // A finished build is recorded as completed exactly when Lake exited with 0 on its own
  // and every observation holds; only then does it carry evidence, and only otherwise a
  // failure stage, which tells whether the process ended on its own.
  lemma CompletedExactly(events: seq<Event>, lake: Lake, f: Facts)
    requires lake.run == Supervise(events)
    ensures var o := BuildFinished(lake, f);
      var good := Succeeded(events, lake, f);
      && o.build == (if good then Completed else Failed)
      && o.evidence == (if good then Some(Evidence(f.input, f.output)) else None)
      && o.stage == (if good then None else Some(if OnItsOwn(events) then PostBuildVerification else SandboxExecution))
      && o.message.None? && o.source.None?
    ensures Observed(BuildFinished(lake, f),
      Audit(Some((f.artifactAfter, f.artifactCount)), f.protectedStable, f.bindingStable, f.attestationStable,
        f.inspectionStable))
    ensures var o := BuildFinished(lake, f);
      && o.lakeExitCode == Some(lake.exitCode) && o.group == Some(lake.group) && o.escalated == Some(lake.escalated)
      && o.reaped == Some(true) && EndedBy(Run(o.reason.value, o.trigger, true), events)
  {
    FirstEventDecides(events);
    hide Supervise;
  }

  // An outcome tells what was observed, field by field.
  predicate Observed(o: Outcome, a: Audit)
  {
    && o.protectedStable == Some(a.protectedStable) && o.bindingStable == Some(a.bindingStable)
    && o.attestationStable == Some(a.attestationStable) && o.inspectionStable == Some(a.inspectionStable)
    && o.artifactAfter == (if a.artifacts.Some? then Some(a.artifacts.value.0) else None)
    && o.artifactCount == (if a.artifacts.Some? then Some(a.artifacts.value.1) else None)
  }

  // Nothing was observed after the process.
  predicate Unobserved(o: Outcome)
  {
    && o.protectedStable.None? && o.bindingStable.None? && o.attestationStable.None? && o.inspectionStable.None?
    && o.artifactAfter.None? && o.artifactCount.None?
  }

  // The process has no end to tell of.
  predicate NeverRan(o: Outcome)
  {
    o.reason.None? && o.trigger.None? && o.group.None? && o.escalated.None? && o.reaped.None?
  }

  // An outcome that could not be determined tells its stage, its message and, after Lake
  // has run, the exit code; nothing else.
  lemma FailuresTell(exitCode: int, m: seq<Unit16>)
    ensures forall o :: o == SandboxFailure(m) || o == VerificationFailure(exitCode, m) || o == ReuseFailure(m) ==>
      && o.build == Failed && Unobserved(o) && NeverRan(o) && o.evidence.None? && o.source.None?
      && o.message.Some? && o.message.value <= m && |o.message.value| == (if |m| > 1024 then 1024 else |m|)
    ensures SandboxFailure(m).stage == Some(SandboxExecution) && SandboxFailure(m).lakeExitCode.None?
    ensures ReuseFailure(m).stage == Some(ReuseVerification) && ReuseFailure(m).lakeExitCode.None?
    ensures VerificationFailure(exitCode, m).stage == Some(PostBuildVerification)
    ensures VerificationFailure(exitCode, m).lakeExitCode == Some(exitCode)
  {
  }

  // A recovery always records a failure, and in its message whether all that it observed
  // is as the execution left it.
  lemma RecoveryTells(pid: nat, a: Audit, artifactsStable: bool)
    ensures var o := RecoveryFinished(pid, a, artifactsStable);
      var all := artifactsStable && a == Audit(a.artifacts, true, true, true, true);
      && o.build == Failed && Observed(o, a) && NeverRan(o) && o.lakeExitCode.None? && o.evidence.None?
        && o.source.None?
      && o.stage == Some(RecoveryStage) && o.message == Some(RecoveryMessage(pid, all))
  {
  }

  // A reuse is granted exactly when nothing interrupted it, every check passed and the
  // candidate has evidence; then it repeats that evidence and names that candidate.
  lemma ReusedExactly(f: ReuseFacts)
    ensures var o := ReuseFinished(f);
      var good := f.cancelled == None && f.preflightApproved && f.artifacts != None && f.bindingStable
        && f.attestationStable && f.protectedStable && f.eligible && f.candidate != None && f.candidate.value.1 != None;
      && o.build == (if good then Reused else Failed)
      && o.evidence == (if good then f.candidate.value.1 else None)
      && o.source == (if good then Some(f.candidate.value.0) else None)
      && o.stage == (if good then None else Some(ReuseVerification))
      && o.message == (if good then None else Some(DenialMessage(f.cancelled)))
      && NeverRan(o) && o.lakeExitCode.None?
      && Observed(o, Audit(f.artifacts, f.protectedStable, f.bindingStable, f.attestationStable, f.preflightApproved))
  {
    hide DenialMessage;
  }

  // ---------- When they are accepted ----------

  predicate SafeNumber(n: int, least: int) { least <= n <= MAX_SAFE }

  // Records with an error's own message: exactly when the cut leaves no half pair.
  lemma FailuresAccepted(exitCode: int, m: seq<Unit16>)
    ensures Accepts(SandboxFailure(m), Failed) <==> Paired(Sliced(m))
    ensures Accepts(ReuseFailure(m), Failed) <==> Paired(Sliced(m))
    ensures Accepts(VerificationFailure(exitCode, m), Failed) <==> Paired(Sliced(m)) && SafeNumber(exitCode, -MAX_SAFE)
  {
    AcceptsExactly(SandboxFailure(m), Failed);
    AcceptsExactly(ReuseFailure(m), Failed);
    AcceptsExactly(VerificationFailure(exitCode, m), Failed);
    hide Accepts, Paired;
  }

  // The record of a finished build, whatever became of its process: exactly when its
  // numbers are in range and, for a completed one, no tree counts more files than
  // entries.
  lemma BuildAccepted(events: seq<Event>, lake: Lake, f: Facts)
    requires lake.run == Supervise(events)
    ensures Accepts(BuildFinished(lake, f), if Succeeded(events, lake, f) then Completed else Failed) <==>
      && SafeNumber(lake.exitCode, -MAX_SAFE) && SafeNumber(lake.group, 1) && SafeNumber(f.artifactCount, 0)
      && (Succeeded(events, lake, f) ==> TreeInRange(f.input) && TreeInRange(f.output))
  {
    TriggerExactlyForSignal(events);
    FirstEventDecides(events);
    AcceptsExactly(BuildFinished(lake, f), BuildStatus(lake, f));
    hide Accepts, Supervise, TreeInRange;
  }

  predicate CountInRange(a: Audit) { a.artifacts.Some? ==> SafeNumber(a.artifacts.value.1, 0) }

  // Denied reuse and recovery carry a message the coordinator composed itself.
  lemma AuditedAccepted(a: Audit, stage: Stage, m: seq<Unit16>)
    ensures Accepts(Audited(a, stage, m), Failed) <==>
      Fitting(m) && CountInRange(a)
  {
    AcceptsExactly(Audited(a, stage, m), Failed);
    hide Accepts, Paired;
  }

  lemma ReuseAccepted(artifactAfter: Digest, artifactCount: int, evidence: Evidence, source: Uuid)
    ensures Accepts(ReuseGranted(artifactAfter, artifactCount, evidence, source), Reused) <==>
      SafeNumber(artifactCount, 0) && EvidenceInRange(evidence)
  {
    AcceptsExactly(ReuseGranted(artifactAfter, artifactCount, evidence, source), Reused);
    hide Accepts, EvidenceInRange;
  }

  // The evidence of an accepted completed build is accepted again in every record that
  // reuses it.
  lemma ReusedEvidenceAccepted(events: seq<Event>, lake: Lake, f: Facts, artifactAfter: Digest, artifactCount: int,
    source: Uuid)
    requires lake.run == Supervise(events) && Succeeded(events, lake, f) && Accepts(BuildFinished(lake, f), Completed)
    requires SafeNumber(artifactCount, 0)
    ensures BuildFinished(lake, f).evidence.Some?
    ensures Accepts(ReuseGranted(artifactAfter, artifactCount, BuildFinished(lake, f).evidence.value, source), Reused)
  {
    BuildAccepted(events, lake, f);
    CompletedExactly(events, lake, f);
    ReuseAccepted(artifactAfter, artifactCount, BuildFinished(lake, f).evidence.value, source);
    hide Accepts, Supervise, BuildFinished, Succeeded;
  }
}
