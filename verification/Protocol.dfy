// Build, reuse and recovery coordinators over one project/image key.  Every file
// system call is one step, processes interleave freely and may stop anywhere.
//
// Lock files are created exclusively; records are published by renaming over the
// target while the record's own transition lock (`<id>.lock`) is held.
module Protocol {
  import opened Wrappers

  type ExecId = nat
  type ProcId = nat

  datatype Kind = Build | Reuse
  datatype Role = Coordinator | Recovery
  datatype Status = Running | Completed | Failed | Reused

  // What a reuse source must share besides the project and the image.
  datatype Identity = Identity(path: int, target: int, binding: int, attestation: int)

  datatype Outcome = Outcome(evidence: Option<int>, source: Option<ExecId>)

  datatype Decision = Decision(status: Status, finishedAt: nat, outcome: Outcome)

  // `kind`, `identity` and `owner` are fixed when the record is begun.
  datatype Record = Record(kind: Kind, identity: Identity, owner: ProcId, status: Status, finishedAt: nat,
    outcome: Outcome)

  const NO_OUTCOME := Outcome(None, None)

  function Terminal(running: Record, d: Decision): Record
  {
    running.(status := d.status, finishedAt := d.finishedAt, outcome := d.outcome)
  }

  // `written` is false between the exclusive create and the write.
  datatype LockFile = LockFile(owner: ExecId, written: bool)

  datatype Pc =
    // acquireBuildLock
    | Start
    | LockCreated
    | LockWritten
    // beginExecutionRecord
    | Acquired
    | BeginLocked
    | BeginChecked
    | BeginPublished
    | BeginCleanup
    // the work under the lock
    | Working
    // finalizeExecutionRecord
    | Finalize(decision: Decision)
    | FinalLocked(decision: Decision)
    | FinalRead(decision: Decision, running: Record)
    | FinalPublished
    | FinalCleanup
    // releaseBuildLock: load and compare, then unlink
    | ReleaseLoad
    | ReleaseUnlink
    // recoverStaleExecution
    | RecoverStart
    | RecoverLock(seen: Record)
    | RecoverCheck(seen: Record, lockSeen: bool)
    | RecoverAudited(seen: Record, lockSeen: bool)

  datatype Proc = Proc(role: Role, exec: ExecId, kind: Kind, identity: Identity, pc: Pc)

  // `held` is history: executions acquired and not yet released on their behalf.
  datatype State = State(
    lock: Option<LockFile>,
    records: map<ExecId, Record>,
    transitions: map<ExecId, ProcId>,
    procs: map<ProcId, Proc>,
    spawned: set<ProcId>,
    used: set<ExecId>,
    held: set<ExecId>)

  const INITIAL := State(None, map[], map[], map[], {}, {}, {})

  // The part of the state one process can change: itself, the project lock, and the
  // record, the transition lock and the history of its execution.
  datatype View = View(
    proc: Option<Proc>,
    lock: Option<LockFile>,
    record: Option<Record>,
    transition: Option<ProcId>,
    held: bool)

  // Leaving a transition goes on when its lock file cannot be unlinked; whoever would end
  // there anyway has then stopped.
  datatype Action =
    | Spawn(p: ProcId, exec: ExecId, kind: Kind, identity: Identity)
    | SpawnRecovery(p: ProcId, exec: ExecId)
    | Stop(p: ProcId)
    | CreateLock(p: ProcId)
    | WriteLock(p: ProcId)
    | ConfirmLock(p: ProcId)
    | AbandonLock(p: ProcId)
    | OpenBegin(p: ProcId)
    | CheckTarget(p: ProcId)
    | FailBegin(p: ProcId)
    | PublishRunning(p: ProcId)
    | FailAfterPublish(p: ProcId)
    | CloseBegin(p: ProcId, unlinked: bool)
    | CleanBegin(p: ProcId, unlinked: bool)
    | Decide(p: ProcId, decision: Decision)
    | SelectSource(p: ProcId, source: ExecId, evidence: Option<int>, finishedAt: nat)
    | OpenFinal(p: ProcId)
    | ReadRunning(p: ProcId)
    | FailFinal(p: ProcId)
    | PublishTerminal(p: ProcId)
    | CloseFinal(p: ProcId, unlinked: bool)
    | CleanFinal(p: ProcId)
    | LoadForRelease(p: ProcId)
    | UnlinkLock(p: ProcId)
    | RecoverLoad(p: ProcId)
    | RecoverMatch(p: ProcId)
    | RecoverAbsent(p: ProcId)
    | RecoverBranch(p: ProcId, finishedAt: nat)

  // ---------- Reuse sources ----------

  predicate Compatible(r: Record, identity: Identity)
  {
    r.status == Completed && r.identity == identity && r.outcome.evidence.Some?
  }

  // Finish time first, then execution id.
  predicate Before(records: map<ExecId, Record>, a: ExecId, b: ExecId)
    requires a in records && b in records
  {
    records[a].finishedAt < records[b].finishedAt || (records[a].finishedAt == records[b].finishedAt && a < b)
  }

  ghost predicate BestSource(records: map<ExecId, Record>, identity: Identity, c: ExecId)
  {
    && c in records && Compatible(records[c], identity)
    && forall d :: d in records && Compatible(records[d], identity) && d != c ==> Before(records, d, c)
  }

  // ---------- Views ----------

  function ExecOf(s: State, a: Action): ExecId
  {
    if a.Spawn? || a.SpawnRecovery? then a.exec
    else if a.p in s.procs then s.procs[a.p].exec else 0
  }

  function ViewOf(s: State, p: ProcId, e: ExecId): View
  {
    View(Lookup(s.procs, p), s.lock, Lookup(s.records, e), Lookup(s.transitions, e), e in s.held)
  }

  function Update(s: State, p: ProcId, e: ExecId, v: View): State
  {
    State(
      v.lock,
      Put(s.records, e, v.record),
      Put(s.transitions, e, v.transition),
      Put(s.procs, p, v.proc),
      s.spawned + {p},
      if v.proc.Some? && v.proc.value.role == Coordinator then s.used + {e} else s.used,
      if v.held then s.held + {e} else s.held - {e})
  }

  // ---------- Steps ----------

  predicate AtPc(v: View, pc: Pc) { v.proc.Some? && v.proc.value.pc == pc }

  function Go(v: View, pc: Pc): View
    requires v.proc.Some?
  {
    v.(proc := Some(v.proc.value.(pc := pc)))
  }

  // Out of a transition, with its lock file unlinked or left behind.
  function Left(v: View, unlinked: bool): View { if unlinked then v.(transition := None) else v }

  // The file protocol a step belongs to.
  datatype Phase = Life | Locking | Begin | Work | Final | Release | Recover

  function PhaseOf(a: Action): Phase
  {
    match a
    case Spawn(_, _, _, _) => Life
    case SpawnRecovery(_, _) => Life
    case Stop(_) => Life
    case CreateLock(_) => Locking
    case WriteLock(_) => Locking
    case ConfirmLock(_) => Locking
    case AbandonLock(_) => Locking
    case OpenBegin(_) => Begin
    case CheckTarget(_) => Begin
    case FailBegin(_) => Begin
    case PublishRunning(_) => Begin
    case FailAfterPublish(_) => Begin
    case CloseBegin(_, _) => Begin
    case CleanBegin(_, _) => Begin
    case Decide(_, _) => Work
    case SelectSource(_, _, _, _) => Work
    case OpenFinal(_) => Final
    case ReadRunning(_) => Final
    case FailFinal(_) => Final
    case PublishTerminal(_) => Final
    case CloseFinal(_, _) => Final
    case CleanFinal(_) => Final
    case LoadForRelease(_) => Release
    case UnlinkLock(_) => Release
    case RecoverLoad(_) => Recover
    case RecoverMatch(_) => Recover
    case RecoverAbsent(_) => Recover
    case RecoverBranch(_, _) => Recover
  }

  // Processes appear and stop.
  predicate LifeReady(v: View, a: Action)
    requires PhaseOf(a) == Life
  {
    match a
    case Spawn(_, _, _, _) => v.proc.None?
    case SpawnRecovery(_, _) => v.proc.None?
    case Stop(_) => v.proc.Some?
  }

  function LifeNext(v: View, a: Action): View
    requires PhaseOf(a) == Life && LifeReady(v, a)
  {
    match a
    case Spawn(_, exec, kind, identity) => v.(proc := Some(Proc(Coordinator, exec, kind, identity, Start)))
    case SpawnRecovery(_, exec) => v.(proc := Some(Proc(Recovery, exec, Build, Identity(0, 0, 0, 0), RecoverStart)))
    case Stop(_) => v.(proc := None)
  }

  // acquireBuildLock
  predicate LockingReady(v: View, a: Action)
    requires PhaseOf(a) == Locking
  {
    match a
    case CreateLock(_) => AtPc(v, Start) && v.lock.None?
    case WriteLock(_) => AtPc(v, LockCreated)
    case ConfirmLock(_) => AtPc(v, LockWritten) && v.lock == Some(LockFile(v.proc.value.exec, true))
    case AbandonLock(_) => AtPc(v, LockCreated) || AtPc(v, LockWritten)
  }

  function LockingNext(v: View, a: Action): View
    requires PhaseOf(a) == Locking && LockingReady(v, a)
  {
    match a
    case CreateLock(_) => Go(v, LockCreated).(lock := Some(LockFile(v.proc.value.exec, false)))
    case WriteLock(_) =>
      // The handle writes its own file, which may no longer be the one at the path.
      var e := v.proc.value.exec;
      Go(v, LockWritten).(lock := if v.lock == Some(LockFile(e, false)) then Some(LockFile(e, true)) else v.lock)
    case ConfirmLock(_) => Go(v, Acquired).(held := true)
    case AbandonLock(_) => v.(proc := None, lock := None)
  }

  // beginExecutionRecord
  predicate BeginReady(v: View, a: Action)
    requires PhaseOf(a) == Begin
  {
    match a
    case OpenBegin(_) => AtPc(v, Acquired)
    case CheckTarget(_) => AtPc(v, BeginLocked)
    case FailBegin(_) => AtPc(v, Acquired) || AtPc(v, BeginLocked) || AtPc(v, BeginChecked)
    case PublishRunning(_) => AtPc(v, BeginChecked)
    case FailAfterPublish(_) => AtPc(v, BeginPublished)
    case CloseBegin(_, _) => AtPc(v, BeginPublished)
    case CleanBegin(_, _) => AtPc(v, BeginCleanup)
  }

  function BeginNext(v: View, a: Action): View
    requires PhaseOf(a) == Begin && BeginReady(v, a)
  {
    match a
    case OpenBegin(p) =>
      if v.transition.Some? then Go(v, ReleaseLoad) else Go(v, BeginLocked).(transition := Some(p))
    case CheckTarget(_) => Go(v, if v.record.Some? then BeginCleanup else BeginChecked)
    case FailBegin(_) => Go(v, if v.proc.value.pc == Acquired then ReleaseLoad else BeginCleanup)
    case PublishRunning(p) =>
      var q := v.proc.value;
      Go(v, BeginPublished).(record := Some(Record(q.kind, q.identity, p, Running, 0, NO_OUTCOME)))
    case FailAfterPublish(_) => Go(v, BeginCleanup)
    case CloseBegin(_, unlinked) => Left(Go(v, Working), unlinked)
    case CleanBegin(_, unlinked) => Left(Go(v, ReleaseLoad), unlinked)
  }

  // The work under the lock and its decision.
  predicate WorkReady(v: View, a: Action)
    requires PhaseOf(a) == Work
  {
    match a
    case Decide(_, d) =>
      AtPc(v, Working) && d.outcome.source.None? &&
      ((d.status == Failed && d.outcome.evidence.None?)
        || (d.status == Completed && v.proc.value.kind == Build && d.outcome.evidence.Some?))
    case SelectSource(_, _, _, _) => AtPc(v, Working) && v.proc.value.kind == Reuse
  }

  function WorkNext(v: View, a: Action): View
    requires PhaseOf(a) == Work && WorkReady(v, a)
  {
    match a
    case Decide(_, d) => Go(v, Finalize(d))
    case SelectSource(_, c, evidence, finishedAt) => Go(v,
      Finalize(Decision(Reused, finishedAt, Outcome(evidence, Some(c)))))
  }

  // finalizeExecutionRecord
  predicate FinalReady(v: View, a: Action)
    requires PhaseOf(a) == Final
  {
    match a
    case OpenFinal(_) => v.proc.Some? && v.proc.value.pc.Finalize?
    case ReadRunning(_) => v.proc.Some? && v.proc.value.pc.FinalLocked?
    case FailFinal(_) =>
      v.proc.Some? && (v.proc.value.pc.FinalLocked? || v.proc.value.pc.FinalRead? || v.proc.value.pc.FinalPublished?)
    case PublishTerminal(_) => v.proc.Some? && v.proc.value.pc.FinalRead?
    case CloseFinal(_, _) => AtPc(v, FinalPublished)
    case CleanFinal(_) => AtPc(v, FinalCleanup)
  }

  function FinalNext(v: View, a: Action): View
    requires PhaseOf(a) == Final && FinalReady(v, a)
  {
    match a
    case OpenFinal(p) =>
      if v.transition.Some? then v.(proc := None)
        else Go(v, FinalLocked(v.proc.value.pc.decision)).(transition := Some(p))
    case ReadRunning(_) =>
      if v.record.Some? && v.record.value.status == Running
        then Go(v, FinalRead(v.proc.value.pc.decision, v.record.value))
      else Go(v, FinalCleanup)
    case FailFinal(_) => Go(v, FinalCleanup)
    case PublishTerminal(_) =>
      Go(v, FinalPublished).(record := Some(Terminal(v.proc.value.pc.running, v.proc.value.pc.decision)))
    case CloseFinal(_, unlinked) => Left(Go(v, ReleaseLoad), unlinked)
    case CleanFinal(_) => v.(proc := None, transition := None)
  }

  // releaseBuildLock
  predicate ReleaseReady(v: View, a: Action)
    requires PhaseOf(a) == Release
  {
    match a
    case LoadForRelease(_) => AtPc(v, ReleaseLoad)
    case UnlinkLock(_) => AtPc(v, ReleaseUnlink)
  }

  function ReleaseNext(v: View, a: Action): View
    requires PhaseOf(a) == Release && ReleaseReady(v, a)
  {
    match a
    case LoadForRelease(_) =>
      if v.lock == Some(LockFile(v.proc.value.exec, true)) then Go(v, ReleaseUnlink) else v.(proc := None)
    case UnlinkLock(_) => v.(proc := None, lock := None, held := false)
  }

  // recoverStaleExecution
  predicate RecoverReady(v: View, a: Action)
    requires PhaseOf(a) == Recover
  {
    match a
    case RecoverLoad(_) => AtPc(v, RecoverStart) && v.record.Some?
    case RecoverMatch(_) =>
      v.proc.Some? && v.proc.value.pc.RecoverLock?
        && (v.lock.None? || v.lock == Some(LockFile(v.proc.value.exec, true)))
    case RecoverAbsent(_) => v.proc.Some? && v.proc.value.pc.RecoverCheck?
    case RecoverBranch(_, _) =>
      v.proc.Some? && v.proc.value.pc.RecoverAudited?
        && (v.proc.value.pc.seen.status == Running ==> v.proc.value.pc.lockSeen)
  }

  function RecoverNext(v: View, a: Action): View
    requires PhaseOf(a) == Recover && RecoverReady(v, a)
  {
    match a
    case RecoverLoad(_) => Go(v, RecoverLock(v.record.value))
    case RecoverMatch(_) => Go(v, RecoverCheck(v.proc.value.pc.seen, v.lock.Some?))
    case RecoverAbsent(_) => Go(v, RecoverAudited(v.proc.value.pc.seen, v.proc.value.pc.lockSeen))
    case RecoverBranch(_, finishedAt) =>
      if v.proc.value.pc.seen.status != Running then Go(v, ReleaseLoad)
      else Go(v, Finalize(Decision(Failed, finishedAt, NO_OUTCOME)))
  }

  // What a process must see to take a step.
  predicate Ready(v: View, a: Action)
  {
    match PhaseOf(a)
    case Life => LifeReady(v, a)
    case Locking => LockingReady(v, a)
    case Begin => BeginReady(v, a)
    case Work => WorkReady(v, a)
    case Final => FinalReady(v, a)
    case Release => ReleaseReady(v, a)
    case Recover => RecoverReady(v, a)
  }

  // What the step makes of the view.
  function Next(v: View, a: Action): View
    requires Ready(v, a)
  {
    match PhaseOf(a)
    case Life => LifeNext(v, a)
    case Locking => LockingNext(v, a)
    case Begin => BeginNext(v, a)
    case Work => WorkNext(v, a)
    case Final => FinalNext(v, a)
    case Release => ReleaseNext(v, a)
    case Recover => RecoverNext(v, a)
  }

  // What a step needs beyond the view: fresh identifiers, the best source in the
  // store, an absent coordinator.
  ghost predicate Permitted(s: State, a: Action)
  {
    match a
    case Spawn(p, exec, _, _) => p !in s.spawned && exec !in s.used
    case SpawnRecovery(p, _) => p !in s.spawned
    case SelectSource(p, c, evidence, _) =>
      p in s.procs && BestSource(s.records, s.procs[p].identity, c) && evidence == s.records[c].outcome.evidence
    case RecoverAbsent(p) => p in s.procs && s.procs[p].pc.RecoverCheck? && s.procs[p].pc.seen.owner !in s.procs
    case _ => true
  }

  ghost predicate Enabled(s: State, a: Action)
  {
    Permitted(s, a) && Ready(ViewOf(s, a.p, ExecOf(s, a)), a)
  }

  ghost function Apply(s: State, a: Action): State
    requires Enabled(s, a)
  {
    Update(s, a.p, ExecOf(s, a), Next(ViewOf(s, a.p, ExecOf(s, a)), a))
  }

  // ---------- Runs ----------

  // A release compares and then unlinks.  No two of one execution do so at once.
  predicate Disjoint(s: State, a: Action)
  {
    a.LoadForRelease? && a.p in s.procs ==>
      forall q :: q in s.procs && q != a.p && s.procs[q].exec == s.procs[a.p].exec ==> s.procs[q].pc != ReleaseUnlink
  }

  // What the steps of a run keep to: releases of one execution that do not overlap, and
  // no begin that fails after its own rename.
  datatype Policy = Policy(disjoint: bool, timely: bool)

  const ANYHOW := Policy(false, false)
  const DISJOINT := Policy(true, false)
  const SOUND := Policy(true, true)

  predicate Follows(s: State, a: Action, policy: Policy)
  {
    (policy.disjoint ==> Disjoint(s, a)) && (policy.timely ==> !a.FailAfterPublish?)
  }

  // `actions` lead from `s0` to `t`, every step within the policy.
  ghost predicate Reaches(s0: State, actions: seq<Action>, t: State, policy: Policy)
  {
    if actions == [] then t == s0
    else
      var n := |actions| - 1;
      exists s ::
        && Reaches(s0, actions[..n], s, policy)
        && Enabled(s, actions[n])
        && Follows(s, actions[n], policy)
        && t == Apply(s, actions[n])
  }

  lemma Extend(s0: State, actions: seq<Action>, s: State, a: Action, policy: Policy)
    requires Reaches(s0, actions, s, policy) && Enabled(s, a) && Follows(s, a, policy)
    ensures Reaches(s0, actions + [a], Apply(s, a), policy)
  {
    hide Enabled, Apply, Follows;
    var all := actions + [a];
    assert all[..|all| - 1] == actions && all[|all| - 1] == a;
  }

  // A run within a policy is a run.
  lemma {:induction false} AnyPolicy(s0: State, actions: seq<Action>, t: State, policy: Policy)
    requires Reaches(s0, actions, t, policy)
    ensures Reaches(s0, actions, t, ANYHOW)
  {
    if actions != [] {
      var n := |actions| - 1;
      var s :| Reaches(s0, actions[..n], s, policy) && Enabled(s, actions[n]) && Follows(s, actions[n], policy)
        && t == Apply(s, actions[n]);
      hide Enabled, Apply;
      AnyPolicy(s0, actions[..n], s, policy);
    }
  }
}
