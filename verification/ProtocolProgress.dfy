// What the protocol achieves: records are finished as decided, abandoned ones are recovered,
// and the lock comes free.
module ProtocolProgress {
  import opened Wrappers
  import opened Protocol
  import opened ProtocolSafety
  import opened ProtocolMutex
  import opened ProtocolSteps
  import opened ProtocolLimits

  // Nobody else of the process's execution is about to unlink the lock.
  predicate Alone(s: State, p: ProcId)
    requires p in s.procs
  {
    forall q :: q in s.procs && q != p && s.procs[q].exec == s.procs[p].exec ==> s.procs[q].pc != ReleaseUnlink
  }

  // A live process that may act on its execution, whose lock stands.
  predicate Acting(s: State, p: ProcId)
  {
    && p in s.procs && p in s.spawned && Alone(s, p)
    && s.procs[p].exec in s.used
    && s.lock == Some(LockFile(s.procs[p].exec, true))
  }

  // ---------- From a decision to a free lock ----------

  lemma OpensFinal(r: State, s: State, p: ProcId, d: Decision, policy: Policy) returns (t: State)
    requires CanReach(r, s, policy) && Acting(s, p) && s.procs[p].pc == Finalize(d)
    requires Runs(s, s.procs[p].exec) && s.procs[p].exec !in s.transitions
    ensures var e := s.procs[p].exec;
      && CanReach(r, t, policy)
      && t == At(s, p, FinalRead(d, s.records[e])).(transitions := s.transitions[e := p])
  {
    hide LifeReady, LifeNext, LockingReady, LockingNext, BeginReady, BeginNext, WorkReady, WorkNext, ReleaseReady;
    hide ReleaseNext, RecoverReady, RecoverNext, Reaches, CanReach, Apply, Update, Enabled;
    var e := s.procs[p].exec;
    var v := ViewOf(s, p, e).(transition := Some(p));
    var s1 := Move(r, s, OpenFinal(p), Go(v, FinalLocked(d)), policy);
    t := Move(r, s1, ReadRunning(p), Go(v, FinalRead(d, s.records[e])), policy);
  }

  lemma RecordsDecision(r: State, s: State, p: ProcId, d: Decision, policy: Policy) returns (t: State)
    requires CanReach(r, s, policy) && p in s.procs && p in s.spawned && s.procs[p].exec in s.used
    requires s.procs[p].exec in s.records && s.procs[p].pc == FinalRead(d, s.records[s.procs[p].exec])
    ensures var e := s.procs[p].exec;
      CanReach(r, t, policy) && t == At(s, p, FinalPublished).(records := s.records[e := Terminal(s.records[e], d)])
  {
    hide LifeReady, LifeNext, LockingReady, LockingNext, BeginReady, BeginNext, WorkReady, WorkNext, ReleaseReady;
    hide ReleaseNext, RecoverReady, RecoverNext, Reaches, CanReach, Apply, Update, Enabled;
    var e := s.procs[p].exec;
    var v := ViewOf(s, p, e).(record := Some(Terminal(s.records[e], d)));
    t := Move(r, s, PublishTerminal(p), Go(v, FinalPublished), policy);
  }

  lemma LeavesFinal(r: State, s: State, p: ProcId, policy: Policy) returns (t: State)
    requires CanReach(r, s, policy) && p in s.procs && p in s.spawned && s.procs[p].exec in s.used
    requires s.procs[p].pc == FinalPublished
    ensures CanReach(r, t, policy) && t == At(s, p, ReleaseLoad).(transitions := s.transitions - {s.procs[p].exec})
  {
    hide LifeReady, LifeNext, LockingReady, LockingNext, BeginReady, BeginNext, WorkReady, WorkNext, ReleaseReady;
    hide ReleaseNext, RecoverReady, RecoverNext, Reaches, CanReach, Apply, Update, Enabled;
    t := Move(r, s, CloseFinal(p, true), Go(ViewOf(s, p, s.procs[p].exec), ReleaseLoad).(transition := None), policy);
  }

  lemma PublishesFinal(r: State, s: State, p: ProcId, d: Decision, policy: Policy) returns (t: State)
    requires CanReach(r, s, policy) && Acting(s, p) && s.procs[p].pc == Finalize(d)
    requires Runs(s, s.procs[p].exec) && s.procs[p].exec !in s.transitions
    ensures var e := s.procs[p].exec;
      && CanReach(r, t, policy)
      && t == At(s, p, ReleaseLoad).(records := s.records[e := Terminal(s.records[e], d)])
  {
    var s1 := OpensFinal(r, s, p, d, policy);
    FinalStates(s, p, d);
    hide CanReach, Terminal;
    var s2 := RecordsDecision(r, s1, p, d, policy);
    t := LeavesFinal(r, s2, p, policy);
  }

  // The states in between, written out.
  lemma FinalStates(s: State, p: ProcId, d: Decision)
    requires p in s.procs && s.procs[p].exec in s.records && s.procs[p].exec !in s.transitions
    ensures var e := s.procs[p].exec;
      var s1 := At(s, p, FinalRead(d, s.records[e])).(transitions := s.transitions[e := p]);
      var s2 := At(s1, p, FinalPublished).(records := s1.records[e := Terminal(s1.records[e], d)]);
      At(s2, p, ReleaseLoad).(transitions := s2.transitions - {e})
        == At(s, p, ReleaseLoad).(records := s.records[e := Terminal(s.records[e], d)])
  {
    var e := s.procs[p].exec;
    assert s.transitions[e := p] - {e} == s.transitions;
    hide Terminal;
  }

  lemma Releases(r: State, s: State, p: ProcId, policy: Policy) returns (t: State)
    requires CanReach(r, s, policy) && Acting(s, p) && s.procs[p].pc == ReleaseLoad
    ensures CanReach(r, t, policy)
    ensures t == s.(procs := s.procs - {p}, lock := None, held := s.held - {s.procs[p].exec})
  {
    hide LifeReady, LifeNext, LockingReady, LockingNext, BeginReady, BeginNext, WorkReady, WorkNext, FinalReady;
    hide FinalNext, RecoverReady, RecoverNext, Reaches, CanReach, Apply, Update, Enabled;
    var s1 := Move(r, s, LoadForRelease(p), Go(ViewOf(s, p, s.procs[p].exec), ReleaseUnlink), policy);
    t := Unlinks(r, s1, p, policy);
    assert s1.procs - {p} == s.procs - {p};
  }

  // Whoever decides can record its decision and free the lock.
  lemma Finishes(r: State, s: State, p: ProcId, d: Decision, policy: Policy) returns (t: State)
    requires CanReach(r, s, policy) && Acting(s, p) && s.procs[p].pc == Finalize(d)
    requires Runs(s, s.procs[p].exec) && s.procs[p].exec !in s.transitions
    ensures var e := s.procs[p].exec;
      && CanReach(r, t, policy)
      && t == s.(
        records := s.records[e := Terminal(s.records[e], d)],
        procs := s.procs - {p},
        lock := None,
        held := s.held - {e})
  {
    var s1 := PublishesFinal(r, s, p, d, policy);
    hide CanReach, Terminal;
    FinalActs(s, s1, p, d);
    hide Acting;
    t := Releases(r, s1, p, policy);
  }

  lemma FinalActs(s: State, t: State, p: ProcId, d: Decision)
    requires Acting(s, p) && s.procs[p].exec in s.records
    requires var e := s.procs[p].exec;
      t == At(s, p, ReleaseLoad).(records := s.records[e := Terminal(s.records[e], d)])
    ensures Acting(t, p) && t.procs[p].pc == ReleaseLoad && t.procs[p].exec == s.procs[p].exec
    ensures t.procs - {p} == s.procs - {p}
  {
    hide Terminal;
  }

  // ---------- Recovery ----------

  // With its coordinator gone, no other process of a running execution is about to unlink.
  lemma OthersWait(s: State, e: ExecId, timely: bool)
    requires Locked(s, timely) && Runs(s, e) && s.records[e].owner !in s.procs
    ensures forall q :: q in s.procs && s.procs[q].exec == e ==> s.procs[q].pc != ReleaseUnlink
  {
    forall q | q in s.procs && s.procs[q].exec == e ensures s.procs[q].pc != ReleaseUnlink {
      assert BaseProc(s, q) && LockProc(s, q, timely);
    }
  }

  lemma Recovers(r: State, s: State, e: ExecId, finishedAt: nat, timely: bool) returns (t: State, p: ProcId)
    requires CanReach(r, s, SOUND) && Locked(s, timely) && Runs(s, e) && s.lock == Some(LockFile(e, true))
    requires s.records[e].owner !in s.procs && e !in s.transitions
    ensures CanReach(r, t, SOUND)
    ensures t == s.(
      records := s.records[e := s.records[e].(status := Failed, finishedAt := finishedAt,
        outcome := Outcome(None, None))],
      lock := None,
      held := s.held - {e},
      spawned := s.spawned + {p})
  {
    OthersWait(s, e, timely);
    ProcsAreSpawned(s);
    assert s.records[e].owner in s.spawned && e in s.used;
    p := FreshIdentifier(s.spawned);
    hide Locked, CanReach, Base;
    t := FindsAndFails(r, s, p, e, finishedAt);
  }

  lemma FindsAndFails(r: State, s: State, p: ProcId, e: ExecId, finishedAt: nat) returns (t: State)
    requires CanReach(r, s, SOUND) && p !in s.spawned && p !in s.procs && s.lock == Some(LockFile(e, true))
    requires Runs(s, e) && s.records[e].owner !in s.procs && s.records[e].owner != p
    requires e in s.used && e !in s.transitions
    requires forall q :: q in s.procs && s.procs[q].exec == e ==> s.procs[q].pc != ReleaseUnlink
    ensures CanReach(r, t, SOUND)
    ensures t == s.(
      records := s.records[e := s.records[e].(status := Failed, finishedAt := finishedAt,
        outcome := Outcome(None, None))],
      lock := None,
      held := s.held - {e},
      spawned := s.spawned + {p})
  {
    hide CanReach;
    var s1 := FindsAbsent(r, s, p, e, SOUND);
    var s2 := DecidesToFail(r, s1, p, e, finishedAt);
    t := Finishes(r, s2, p, Decision(Failed, finishedAt, NO_OUTCOME), SOUND);
    assert s2.procs - {p} == s.procs;
  }

  lemma DecidesToFail(r: State, s: State, p: ProcId, e: ExecId, finishedAt: nat) returns (t: State)
    requires CanReach(r, s, SOUND) && p in s.procs && p in s.spawned && e in s.records && s.records[e].status == Running
    requires s.procs[p] == Recoverer(e, RecoverAudited(s.records[e], true))
    ensures CanReach(r, t, SOUND) && t == At(s, p, Finalize(Decision(Failed, finishedAt, NO_OUTCOME)))
  {
    hide LifeReady, LifeNext, LockingReady, LockingNext, BeginReady, BeginNext, WorkReady, WorkNext, FinalReady;
    hide FinalNext, ReleaseReady, ReleaseNext, Reaches, CanReach, Apply, Update, Enabled;
    t := Move(r, s, RecoverBranch(p, finishedAt),
      Go(ViewOf(s, p, e), Finalize(Decision(Failed, finishedAt, NO_OUTCOME))),
      SOUND);
  }

  // In every run whose releases do not overlap: a record left running behind its lock, with
  // its coordinator gone and its transition free, can be recovered.  Then it has failed at
  // the recovery's time, the lock is free and nothing else has changed.
  lemma RecoveryRecovers(before: seq<Action>, s: State, e: ExecId, finishedAt: nat, policy: Policy)
    returns (t: State, p: ProcId)
    requires policy.disjoint && Reaches(INITIAL, before, s, policy)
    requires Runs(s, e) && s.lock == Some(LockFile(e, true)) && s.records[e].owner !in s.procs && e !in s.transitions
    ensures CanReach(s, t, SOUND)
    ensures t == s.(
      records := s.records[e := s.records[e].(status := Failed, finishedAt := finishedAt,
        outcome := Outcome(None, None))],
      lock := None,
      held := s.held - {e},
      spawned := s.spawned + {p})
  {
    RunIsLocked(before, s, policy);
    StaysPut(s, SOUND);
    hide Reaches, Locked, CanReach;
    t, p := Recovers(s, s, e, finishedAt, policy.timely);
  }

  // ---------- A coordinator's record runs until it is finished ----------

  predicate Unfinished(q: Proc)
  {
    q.role == Coordinator && (q.pc.BeginPublished? || q.pc.Working? || Finalizing(q.pc))
  }

  ghost predicate WorkersRun(s: State)
  {
    forall p :: p in s.procs && Unfinished(s.procs[p]) ==> Runs(s, s.procs[p].exec)
  }

  predicate WorkerView(v: View) { v.proc.Some? && Unfinished(v.proc.value) ==> RunningView(v) }

  predicate WorkerFacts(v: View, w: View)
  {
    && WorkerView(w)
    && (RunningView(v) && w.record != v.record ==> v.proc.Some? && v.proc.value.pc.FinalRead?)
  }

  lemma BeginWorks(v: View, a: Action)
    requires PhaseOf(a) == Begin && CanTake(v, a) && WorkerView(v)
    ensures WorkerFacts(v, Next(v, a))
  {
    hide LifeReady, LifeNext, LockingReady, LockingNext, WorkReady, WorkNext;
    hide FinalReady, FinalNext, ReleaseReady, ReleaseNext, RecoverReady, RecoverNext;
  }

  lemma FinalWorks(v: View, a: Action)
    requires PhaseOf(a) == Final && CanTake(v, a) && WorkerView(v)
    ensures WorkerFacts(v, Next(v, a))
  {
    hide LifeReady, LifeNext, LockingReady, LockingNext, BeginReady, BeginNext;
    hide WorkReady, WorkNext, ReleaseReady, ReleaseNext, RecoverReady, RecoverNext;
  }

  lemma OtherWorks(v: View, a: Action)
    requires PhaseOf(a) != Begin && PhaseOf(a) != Final && CanTake(v, a) && WorkerView(v)
    ensures WorkerFacts(v, Next(v, a))
  {
    hide BeginReady, BeginNext, FinalReady, FinalNext;
  }

  lemma ViewWorks(v: View, a: Action)
    requires CanTake(v, a) && WorkerView(v)
    ensures WorkerFacts(v, Next(v, a))
  {
    hide Ready, Next, BaseView, WorkerFacts, WorkerView;
    match PhaseOf(a)
    case Begin => BeginWorks(v, a);
    case Final => FinalWorks(v, a);
    case _ => OtherWorks(v, a);
  }

  lemma WorkersStep(s: State, a: Action, timely: bool)
    requires Locked(s, timely) && WorkersRun(s) && Enabled(s, a)
    ensures WorkersRun(Apply(s, a))
  {
    var t := Apply(s, a);
    var e := ExecOf(s, a);
    var v := ViewOf(s, a.p, e);
    ViewOfActor(s, a);
    BaseSteps(s, a);
    assert CanTake(v, a) && WorkerView(v) by { hide Ready, BaseView; }
    ViewWorks(v, a);
    ApplyFrame(s, a) by { assert a.p in s.procs ==> BaseProc(s, a.p); }
    hide Ready, Next, BaseView, Enabled, Apply, Locked;
    forall p | p in t.procs && Unfinished(t.procs[p]) ensures Runs(t, t.procs[p].exec) {
      if p == a.p { ActorRuns(s, a, t); } else { BystanderRuns(s, a, t, p, timely); }
    }
  }

  lemma ActorRuns(s: State, a: Action, t: State)
    requires Steps(s, a, t) && a.p in t.procs && Unfinished(t.procs[a.p])
    requires WorkerView(ViewOf(t, a.p, ExecOf(s, a)))
    ensures Runs(t, t.procs[a.p].exec)
  {
    hide BaseView, Disturbs;
  }

  lemma NobodyElseFinishes(s: State, p: ProcId, q: ProcId, timely: bool)
    requires Locked(s, timely) && p in s.procs && q in s.procs && p != q && s.procs[p].exec == s.procs[q].exec
    requires Unfinished(s.procs[p])
    ensures !InTransition(s.procs[q].pc) && !s.procs[q].pc.FinalRead?
  {
    assert BaseProc(s, p) && BaseProc(s, q) && LockProc(s, q, timely) && OwnExecution(s);
  }

  lemma BystanderRuns(s: State, a: Action, t: State, p: ProcId, timely: bool)
    requires Locked(s, timely) && WorkersRun(s) && Steps(s, a, t) && p != a.p && p in t.procs && Unfinished(t.procs[p])
    requires WorkerFacts(ViewOf(s, a.p, ExecOf(s, a)), ViewOf(t, a.p, ExecOf(s, a)))
    ensures Runs(t, t.procs[p].exec)
  {
    StepsElsewhere(s, a, t, p);
    var e := s.procs[p].exec;
    assert Runs(s, e) && BaseProc(s, p);
    if e != ExecOf(s, a) {
      assert Lookup(t.records, e) == Lookup(s.records, e) by { hide StepFacts; }
    } else {
      if a.p in s.procs { NobodyElseFinishes(s, p, a.p, timely) by { hide StepFacts; } }
      assert Lookup(t.records, e) == Lookup(s.records, e) by { hide StepFacts, BaseView, Locked; }
    }
    hide StepFacts, Frame, WorkerFacts;
  }

  lemma {:induction false} RunKeepsWorkers(actions: seq<Action>, t: State, policy: Policy)
    requires policy.disjoint && Reaches(INITIAL, actions, t, policy)
    ensures WorkersRun(t)
  {
    if actions != [] {
      var n := |actions| - 1;
      var s :| Reaches(INITIAL, actions[..n], s, policy) && Enabled(s, actions[n]) && t == Apply(s, actions[n]);
      RunIsLocked(actions[..n], s, policy);
      hide Enabled, Apply, WorkersRun, Locked;
      RunKeepsWorkers(actions[..n], s, policy);
      WorkersStep(s, actions[n], policy.timely);
    }
  }

  // ---------- The coordinator ----------

  predicate IsDecision(a: Action) { a.Decide? || a.SelectSource? }

  // What a decision comes to.
  function DecisionOf(a: Action): Decision
    requires IsDecision(a)
  {
    if a.Decide? then a.decision else Decision(Reused, a.finishedAt, Outcome(a.evidence, Some(a.source)))
  }

  lemma DecidesNow(r: State, s: State, a: Action, policy: Policy) returns (t: State)
    requires CanReach(r, s, policy) && IsDecision(a) && Enabled(s, a) && a.p in s.spawned
    requires a.p in s.procs && s.procs[a.p].exec in s.used
    ensures CanReach(r, t, policy) && t == At(s, a.p, Finalize(DecisionOf(a)))
  {
    hide LifeReady, LifeNext, LockingReady, LockingNext, BeginReady, BeginNext, FinalReady, FinalNext, ReleaseReady;
    hide ReleaseNext, RecoverReady, RecoverNext, Reaches, CanReach, Apply, Update;
    t := Move(r, s, a, Go(ViewOf(s, a.p, s.procs[a.p].exec), Finalize(DecisionOf(a))), policy);
  }

  lemma WorkerActs(s: State, p: ProcId, timely: bool)
    requires Locked(s, timely) && p in s.procs && s.procs[p].role == Coordinator && s.procs[p].pc == Working
    ensures Acting(s, p)
    ensures Runs(s, s.procs[p].exec) && !Stranded(s, s.procs[p].exec) ==> s.procs[p].exec !in s.transitions
  {
    var e := s.procs[p].exec;
    assert BaseProc(s, p) && LockProc(s, p, timely);
    forall q | q in s.procs && q != p && s.procs[q].exec == e ensures s.procs[q].pc != ReleaseUnlink {
      assert BaseProc(s, q) && LockProc(s, q, timely) && OwnExecution(s);
    }
    if e in s.transitions && Holds(s, s.transitions[e], e) {
      var q := s.transitions[e];
      if q != p { NobodyElseFinishes(s, p, q, timely); }
    }
  }

  // In every run whose releases do not overlap, whatever a working coordinator may decide it
  // can carry through, unless its transition lock was left behind: the record ends with
  // exactly that status, time and outcome, the lock is free and nothing else has changed.
  lemma DecisionIsRecorded(before: seq<Action>, s: State, a: Action, policy: Policy) returns (t: State)
    requires policy.disjoint && Reaches(INITIAL, before, s, policy) && IsDecision(a) && Enabled(s, a)
    requires a.p in s.procs && !Stranded(s, s.procs[a.p].exec)
    ensures s.procs[a.p].exec in s.records
    ensures CanReach(s, t, SOUND) && t == Recorded(s, a.p, DecisionOf(a))
  {
    RunIsLocked(before, s, policy);
    RunKeepsWorkers(before, s, policy);
    AtWork(s, a);
    WorkerActs(s, a.p, policy.timely);
    assert Runs(s, s.procs[a.p].exec);
    StaysPut(s, SOUND);
    hide *;
    t := CarriesThrough(s, s, a);
  }

  // The state with a process's decision in its record, and its process and lock gone.
  function Recorded(s: State, p: ProcId, d: Decision): State
    requires p in s.procs && s.procs[p].exec in s.records
  {
    var e := s.procs[p].exec;
    var record := s.records[e].(status := d.status, finishedAt := d.finishedAt, outcome := d.outcome);
    s.(records := s.records[e := record], lock := None, procs := s.procs - {p}, held := s.held - {e})
  }

  lemma CarriesThrough(r: State, s: State, a: Action) returns (t: State)
    requires CanReach(r, s, SOUND) && IsDecision(a) && Enabled(s, a) && Acting(s, a.p)
    requires Runs(s, s.procs[a.p].exec) && s.procs[a.p].exec !in s.transitions
    ensures CanReach(r, t, SOUND) && t == Recorded(s, a.p, DecisionOf(a))
  {
    hide CanReach, Enabled;
    var s1 := DecidesNow(r, s, a, SOUND);
    t := Finishes(r, s1, a.p, DecisionOf(a), SOUND);
    assert s1.procs - {a.p} == s.procs - {a.p};
  }

  lemma AtWork(s: State, a: Action)
    requires Base(s) && IsDecision(a) && Enabled(s, a) && a.p in s.procs
    ensures s.procs[a.p].role == Coordinator && s.procs[a.p].pc == Working
  {
    assert BaseProc(s, a.p);
  }

  // ---------- When a record can still be finished ----------

  lemma LockedAlong(r: State, s: State)
    requires Locked(r, true) && CanReach(r, s, SOUND)
    ensures Locked(s, true)
  {
    var actions: seq<Action> :| Reaches(r, actions, s, SOUND);
    hide Reaches, Locked;
    RunKeepsLocked(r, actions, s, SOUND);
  }

  // Where the holder of a running record's transition lock can be.
  lemma HolderAt(s: State, e: ExecId)
    requires Locked(s, true) && Runs(s, e) && e in s.transitions && !Stranded(s, e)
    ensures var p := s.transitions[e];
      && p in s.procs && p in s.spawned && s.procs[p].exec == e && e in s.used
      && (s.procs[p].pc.BeginPublished? || s.procs[p].pc.FinalLocked? || s.procs[p].pc.FinalRead?
        || s.procs[p].pc.FinalCleanup?)
  {
    var p := s.transitions[e];
    assert BaseProc(s, p) && LockProc(s, p, true);
  }

  lemma GivesUp(r: State, s: State, p: ProcId) returns (t: State)
    requires CanReach(r, s, SOUND) && p in s.procs && p in s.spawned && s.procs[p].exec in s.used
    requires s.procs[p].pc.FinalLocked? || s.procs[p].pc.FinalRead?
    ensures CanReach(r, t, SOUND) && t == At(s, p, FinalCleanup)
  {
    hide LifeReady, LifeNext, LockingReady, LockingNext, BeginReady, BeginNext, WorkReady, WorkNext, ReleaseReady;
    hide ReleaseNext, RecoverReady, RecoverNext, Reaches, CanReach, Apply, Update, Enabled;
    t := Move(r, s, FailFinal(p), Go(ViewOf(s, p, s.procs[p].exec), FinalCleanup), SOUND);
  }

  lemma CleansFinal(r: State, s: State, p: ProcId) returns (t: State)
    requires CanReach(r, s, SOUND) && p in s.procs && p in s.spawned && s.procs[p].exec in s.used
    requires s.procs[p].pc == FinalCleanup
    ensures CanReach(r, t, SOUND)
    ensures t == s.(procs := s.procs - {p}, transitions := s.transitions - {s.procs[p].exec})
  {
    hide LifeReady, LifeNext, LockingReady, LockingNext, BeginReady, BeginNext, WorkReady, WorkNext, ReleaseReady;
    hide ReleaseNext, RecoverReady, RecoverNext, Reaches, CanReach, Apply, Update, Enabled;
    t := Move(r, s, CleanFinal(p), ViewOf(s, p, s.procs[p].exec).(proc := None, transition := None), SOUND);
  }

  lemma ClosesBegin(r: State, s: State, p: ProcId) returns (t: State)
    requires CanReach(r, s, SOUND) && p in s.procs && p in s.spawned && s.procs[p].exec in s.used
    requires s.procs[p].pc == BeginPublished
    ensures CanReach(r, t, SOUND) && t == At(s, p, Working).(transitions := s.transitions - {s.procs[p].exec})
  {
    hide LifeReady, LifeNext, LockingReady, LockingNext, WorkReady, WorkNext, FinalReady, FinalNext, ReleaseReady;
    hide ReleaseNext, RecoverReady, RecoverNext, Reaches, CanReach, Apply, Update, Enabled;
    t := Move(r, s, CloseBegin(p, true), Go(ViewOf(s, p, s.procs[p].exec), Working).(transition := None), SOUND);
  }

  // A live holder can leave the transition.
  lemma FreesTransition(r: State, s: State, e: ExecId) returns (t: State)
    requires CanReach(r, s, SOUND) && Locked(s, true) && Runs(s, e) && !Stranded(s, e)
    ensures CanReach(r, t, SOUND) && t.records == s.records && t.lock == s.lock && e !in t.transitions
  {
    t := s;
    if e in s.transitions {
      HolderAt(s, e);
      var p := s.transitions[e];
      hide Locked, CanReach, Stranded;
      if s.procs[p].pc.BeginPublished? {
        t := ClosesBegin(r, s, p);
      } else {
        if !s.procs[p].pc.FinalCleanup? { t := GivesUp(r, s, p); }
        t := CleansFinal(r, t, p);
      }
    }
  }

  lemma Stops(r: State, s: State, p: ProcId) returns (t: State)
    requires CanReach(r, s, SOUND) && p in s.spawned
    ensures CanReach(r, t, SOUND)
    ensures t == s.(procs := s.procs - {p})
  {
    t := s;
    if p in s.procs {
      hide LockingReady, LockingNext, BeginReady, BeginNext, WorkReady, WorkNext, FinalReady, FinalNext, ReleaseReady;
      hide ReleaseNext, RecoverReady, RecoverNext, Reaches, CanReach, Apply, Update, Enabled;
      t := Move(r, s, Stop(p), ViewOf(s, p, s.procs[p].exec).(proc := None), SOUND);
    }
    assert p !in s.procs ==> s.procs - {p} == s.procs;
  }

  lemma OwnerOf(s: State, e: ExecId)
    requires Base(s) && e in s.records
    ensures s.records[e].owner in s.spawned && e in s.used
  {
  }

  // From any sound state a running record that is not stranded can be recovered.
  lemma Salvages(s: State, e: ExecId, finishedAt: nat) returns (t: State)
    requires Locked(s, true) && Runs(s, e) && !Stranded(s, e)
    ensures CanReach(s, t, SOUND) && t.lock.None?
    ensures e in t.records && t.records[e].status == Failed && t.records[e].finishedAt == finishedAt
  {
    StaysPut(s, SOUND);
    var s1 := FreesTransition(s, s, e);
    LockedAlong(s, s1);
    OwnerOf(s1, e);
    hide Stranded, CanReach;
    var s2 := Stops(s, s1, s1.records[e].owner);
    LockedAlong(s, s2);
    assert s2.lock == Some(LockFile(e, true)) by { assert Held(s2, e, true); }
    hide Locked;
    var p: ProcId;
    t, p := Recovers(s, s2, e, finishedAt, true);
  }

  // In every run without overlaps and late begin failures: a running record can still be
  // finished exactly when its transition lock has not been left behind.
  lemma FinishableExactly(before: seq<Action>, s: State, e: ExecId)
    requires Reaches(INITIAL, before, s, SOUND) && Runs(s, e)
    ensures !Stranded(s, e) <==> exists t :: CanReach(s, t, SOUND) && e in t.records && t.records[e].status != Running
  {
    RunIsLocked(before, s, SOUND);
    hide Reaches, Locked, CanReach, Stranded;
    if !Stranded(s, e) {
      var t := Salvages(s, e, 0);
      assert t.records[e].status != Running;
    }
    if t :| CanReach(s, t, SOUND) && e in t.records && t.records[e].status != Running {
      if Stranded(s, e) { StaysStranded(before, s, t, e); }
    }
  }

  lemma StaysStranded(before: seq<Action>, s: State, t: State, e: ExecId)
    requires Reaches(INITIAL, before, s, SOUND) && Stranded(s, e) && CanReach(s, t, SOUND)
    ensures Runs(t, e)
  {
    var after: seq<Action> :| Reaches(s, after, t, SOUND);
    AnyPolicy(INITIAL, before, s, SOUND);
    AnyPolicy(s, after, t, SOUND);
    StrandedForever(before, s, after, t, e);
    hide Reaches;
    StrandedRuns(t, e);
  }

  // ---------- Finished records and failed begins ----------

  // A recovery of a finished execution only frees its lock.
  lemma FreesFinished(r: State, s: State, e: ExecId, timely: bool) returns (t: State, p: ProcId)
    requires CanReach(r, s, SOUND) && Locked(s, timely) && s.lock == Some(LockFile(e, true))
    requires e in s.records && s.records[e].status != Running && s.records[e].owner !in s.procs
    requires forall q :: q in s.procs && s.procs[q].exec == e ==> s.procs[q].pc != ReleaseUnlink
    ensures CanReach(r, t, SOUND)
    ensures t == s.(lock := None, held := s.held - {e}, spawned := s.spawned + {p})
  {
    ProcsAreSpawned(s);
    OwnerOf(s, e);
    p := FreshIdentifier(s.spawned);
    hide Locked, CanReach, Base;
    t := FreesFor(r, s, p, e);
  }

  lemma FreesFor(r: State, s: State, p: ProcId, e: ExecId) returns (t: State)
    requires CanReach(r, s, SOUND) && s.lock == Some(LockFile(e, true)) && p !in s.spawned && p !in s.procs
    requires e in s.records && s.records[e].status != Running && e in s.used
    requires s.records[e].owner !in s.procs && s.records[e].owner != p
    requires forall q :: q in s.procs && s.procs[q].exec == e ==> s.procs[q].pc != ReleaseUnlink
    ensures CanReach(r, t, SOUND)
    ensures t == s.(lock := None, held := s.held - {e}, spawned := s.spawned + {p})
  {
    hide CanReach;
    var s1 := DecidesToRelease(r, s, p, e, SOUND);
    t := Releases(r, s1, p, SOUND);
    assert s1.procs - {p} == s.procs;
  }

  // A finished record left behind its lock, with its coordinator gone and nobody about to
  // unlink, is released and otherwise left alone.
  lemma RecoveryReleases(before: seq<Action>, s: State, e: ExecId, policy: Policy) returns (t: State, p: ProcId)
    requires policy.disjoint && Reaches(INITIAL, before, s, policy) && s.lock == Some(LockFile(e, true))
    requires e in s.records && s.records[e].status != Running && s.records[e].owner !in s.procs
    requires forall q :: q in s.procs && s.procs[q].exec == e ==> s.procs[q].pc != ReleaseUnlink
    ensures CanReach(s, t, SOUND) && t == s.(lock := None, held := s.held - {e}, spawned := s.spawned + {p})
  {
    RunIsLocked(before, s, policy);
    StaysPut(s, SOUND);
    hide Reaches, Locked, CanReach;
    t, p := FreesFinished(s, s, e, policy.timely);
  }

  lemma FailsBegin(r: State, s: State, p: ProcId) returns (t: State)
    requires CanReach(r, s, SOUND) && p in s.procs && p in s.spawned && s.procs[p].exec in s.used
    requires s.procs[p].pc.BeginLocked? || s.procs[p].pc.BeginChecked?
    ensures CanReach(r, t, SOUND) && t == At(s, p, BeginCleanup)
  {
    hide LifeReady, LifeNext, LockingReady, LockingNext, WorkReady, WorkNext, FinalReady, FinalNext, ReleaseReady;
    hide ReleaseNext, RecoverReady, RecoverNext, Reaches, CanReach, Apply, Update, Enabled;
    t := Move(r, s, FailBegin(p), Go(ViewOf(s, p, s.procs[p].exec), BeginCleanup), SOUND);
  }

  lemma FailsEarly(r: State, s: State, p: ProcId) returns (t: State)
    requires CanReach(r, s, SOUND) && p in s.procs && p in s.spawned && s.procs[p].exec in s.used
    requires s.procs[p].pc == Acquired
    ensures CanReach(r, t, SOUND) && t == At(s, p, ReleaseLoad)
  {
    hide LifeReady, LifeNext, LockingReady, LockingNext, WorkReady, WorkNext, FinalReady, FinalNext, ReleaseReady;
    hide ReleaseNext, RecoverReady, RecoverNext, Reaches, CanReach, Apply, Update, Enabled;
    t := Move(r, s, FailBegin(p), Go(ViewOf(s, p, s.procs[p].exec), ReleaseLoad), SOUND);
  }

  predicate BeforeRecord(pc: Pc) { pc.Acquired? || pc.BeginLocked? || pc.BeginChecked? || pc.BeginCleanup? }

  // A coordinator whose begin fails before its rename cleans up and frees its lock.
  lemma Withdraws(r: State, s: State, p: ProcId) returns (t: State)
    requires CanReach(r, s, SOUND) && Acting(s, p) && BeforeRecord(s.procs[p].pc)
    ensures CanReach(r, t, SOUND)
    ensures var e := s.procs[p].exec;
      t == s.(
        procs := s.procs - {p},
        lock := None,
        held := s.held - {e},
        transitions := if s.procs[p].pc == Acquired then s.transitions else s.transitions - {e})
  {
    t := s;
    hide CanReach;
    if s.procs[p].pc == Acquired {
      t := FailsEarly(r, s, p);
    } else {
      if !s.procs[p].pc.BeginCleanup? { t := FailsBegin(r, s, p); }
      t := CleansUp(r, t, p, SOUND);
    }
    t := Releases(r, t, p, SOUND);
    assert t.procs == s.procs - {p};
  }

  // Before its record a coordinator has its execution to itself.
  lemma BeginnerActs(s: State, p: ProcId, timely: bool)
    requires Locked(s, timely) && p in s.procs && s.procs[p].role == Coordinator && s.procs[p].exec !in s.records
    requires Owning(s.procs[p].pc)
    ensures Acting(s, p) && (BeforeRecord(s.procs[p].pc) || Releasing(s.procs[p].pc))
  {
    assert BaseProc(s, p) && LockProc(s, p, timely);
    forall q | q in s.procs && q != p && s.procs[q].exec == s.procs[p].exec ensures s.procs[q].pc != ReleaseUnlink {
      assert BaseProc(s, q) && OwnExecution(s);
    }
  }

  lemma FailedBeginReleases(before: seq<Action>, s: State, p: ProcId, policy: Policy) returns (t: State)
    requires policy.disjoint && Reaches(INITIAL, before, s, policy)
    requires p in s.procs && BeforeRecord(s.procs[p].pc) && s.procs[p].exec !in s.records
    ensures CanReach(s, t, SOUND)
    ensures t.lock.None? && t.records == s.records && t.procs == s.procs - {p} && t.held == s.held - {s.procs[p].exec}
  {
    RunIsLocked(before, s, policy);
    assert s.procs[p].role == Coordinator by { assert BaseProc(s, p); }
    BeginnerActs(s, p, policy.timely);
    StaysPut(s, SOUND);
    hide Reaches, Locked, CanReach;
    t := Withdraws(s, s, p);
  }
}
