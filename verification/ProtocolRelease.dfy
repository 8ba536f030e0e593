// Exactly which project locks can still come free.
module ProtocolRelease {
  import opened Wrappers
  import opened Protocol
  import opened ProtocolSafety
  import opened ProtocolMutex
  import opened ProtocolSteps
  import opened ProtocolLimits
  import opened ProtocolProgress

  // ---------- Whose lock it is ----------

  // A lock file names an execution whose coordinator has begun to acquire; an unwritten one,
  // an execution without a record.
  ghost predicate Named(s: State)
  {
    && (s.lock.Some? ==> s.lock.value.owner in s.used)
    && (s.lock.Some? && !s.lock.value.written ==> s.lock.value.owner !in s.records)
    && forall p :: p in s.procs && s.procs[p].role == Coordinator && s.procs[p].pc == Start ==>
         s.lock.None? || s.lock.value.owner != s.procs[p].exec
  }

  // What a step may do to the lock file and the start of a coordinator.
  predicate NamesFacts(v: View, a: Action, w: View, e: ExecId)
  {
    && (w.lock.None? || w.lock == v.lock || (w.lock.value.owner == e && w.proc.Some? && w.proc.value.pc != Start))
    && (w.lock.Some? && w.lock != v.lock ==>
      v.proc.Some? && v.proc.value.role == Coordinator && (v.proc.value.pc.Start? || v.proc.value.pc.LockCreated?))
    && (w.proc.Some? && w.proc.value.pc == Start && w.proc.value.role == Coordinator ==> a.Spawn? && w.lock == v.lock)
    && (v.record.None? && w.record.Some? ==> v.proc.Some? && v.proc.value.pc.BeginChecked? && w.lock == v.lock)
  }

  lemma LifeNames(v: View, a: Action, e: ExecId)
    requires PhaseOf(a) == Life && CanTake(v, a) && (v.proc.Some? ==> v.proc.value.exec == e)
    ensures NamesFacts(v, a, Next(v, a), e)
  {
    hide LockingReady, LockingNext, BeginReady, BeginNext, WorkReady, WorkNext;
    hide FinalReady, FinalNext, ReleaseReady, ReleaseNext, RecoverReady, RecoverNext;
  }

  lemma LockingNames(v: View, a: Action, e: ExecId)
    requires PhaseOf(a) == Locking && CanTake(v, a) && (v.proc.Some? ==> v.proc.value.exec == e)
    ensures NamesFacts(v, a, Next(v, a), e)
  {
    hide LifeReady, LifeNext, BeginReady, BeginNext, WorkReady, WorkNext;
    hide FinalReady, FinalNext, ReleaseReady, ReleaseNext, RecoverReady, RecoverNext;
  }

  lemma BeginNames(v: View, a: Action, e: ExecId)
    requires PhaseOf(a) == Begin && CanTake(v, a) && (v.proc.Some? ==> v.proc.value.exec == e)
    ensures NamesFacts(v, a, Next(v, a), e)
  {
    hide LifeReady, LifeNext, LockingReady, LockingNext, WorkReady, WorkNext;
    hide FinalReady, FinalNext, ReleaseReady, ReleaseNext, RecoverReady, RecoverNext;
  }

  lemma RestNames(v: View, a: Action, e: ExecId)
    requires PhaseOf(a) != Life && PhaseOf(a) != Locking && PhaseOf(a) != Begin
    requires CanTake(v, a) && (v.proc.Some? ==> v.proc.value.exec == e)
    ensures NamesFacts(v, a, Next(v, a), e)
  {
    hide LifeReady, LifeNext, LockingReady, LockingNext, BeginReady, BeginNext;
  }

  lemma StepNames(v: View, a: Action, e: ExecId)
    requires CanTake(v, a) && (v.proc.Some? ==> v.proc.value.exec == e)
    ensures NamesFacts(v, a, Next(v, a), e)
  {
    hide Ready, Next, BaseView, NamesFacts;
    match PhaseOf(a)
    case Life => LifeNames(v, a, e);
    case Locking => LockingNames(v, a, e);
    case Begin => BeginNames(v, a, e);
    case _ => RestNames(v, a, e);
  }

  lemma NamedStep(s: State, a: Action, timely: bool)
    requires Locked(s, timely) && Named(s) && Enabled(s, a)
    ensures Named(Apply(s, a))
  {
    var t := Apply(s, a);
    NamesHere(s, a, timely);
    hide *;
    NamedOwner(s, a, t, timely);
    NamedUnwritten(s, a, t, timely);
    forall p | p in t.procs && t.procs[p].role == Coordinator && t.procs[p].pc == Start
      ensures t.lock.None? || t.lock.value.owner != t.procs[p].exec
    {
      NamedStart(s, a, t, p, timely);
    }
    NamedFromParts(t);
  }

  lemma NamedFromParts(t: State)
    requires t.lock.Some? ==> t.lock.value.owner in t.used
    requires t.lock.Some? && !t.lock.value.written ==> t.lock.value.owner !in t.records
    requires forall p :: p in t.procs && t.procs[p].role == Coordinator && t.procs[p].pc == Start ==>
      t.lock.None? || t.lock.value.owner != t.procs[p].exec
    ensures Named(t)
  {
  }

  lemma NamesHere(s: State, a: Action, timely: bool)
    requires Locked(s, timely) && Named(s) && Enabled(s, a)
    ensures NamedSteps(s, a, Apply(s, a), timely)
  {
    var x := ExecOf(s, a);
    ViewOfActor(s, a);
    BaseSteps(s, a);
    ApplyFrame(s, a) by { assert a.p in s.procs ==> BaseProc(s, a.p); }
    StepNames(ViewOf(s, a.p, x), a, x) by { hide Enabled, Apply, BaseView, Locked, Steps, NamesFacts; }
    hide Ready, Next, Enabled, Apply, BaseView, Locked, Steps, NamesFacts, Named;
  }

  ghost predicate NamedSteps(s: State, a: Action, t: State, timely: bool)
  {
    && Locked(s, timely) && Named(s) && Steps(s, a, t) && (a.Spawn? ==> a.exec !in s.used)
    && NamesFacts(ViewOf(s, a.p, ExecOf(s, a)), a, ViewOf(t, a.p, ExecOf(s, a)), ExecOf(s, a))
  }

  lemma NamedOwner(s: State, a: Action, t: State, timely: bool)
    requires NamedSteps(s, a, t, timely)
    ensures t.lock.Some? ==> t.lock.value.owner in t.used
  {
    if a.p in s.procs { assert BaseProc(s, a.p); }
    hide BaseView, StepFacts;
  }

  lemma NamedUnwritten(s: State, a: Action, t: State, timely: bool)
    requires NamedSteps(s, a, t, timely)
    ensures t.lock.Some? && !t.lock.value.written ==> t.lock.value.owner !in t.records
  {
    var x := ExecOf(s, a);
    if a.p in s.procs { assert BaseProc(s, a.p) && LockProc(s, a.p, timely); }
    if t.lock.Some? && t.lock.value.owner != x {
      assert Lookup(t.records, t.lock.value.owner) == Lookup(s.records, t.lock.value.owner);
    }
    hide StepFacts;
  }

  lemma NamedStart(s: State, a: Action, t: State, p: ProcId, timely: bool)
    requires NamedSteps(s, a, t, timely) && p in t.procs && t.procs[p].role == Coordinator && t.procs[p].pc == Start
    ensures t.lock.None? || t.lock.value.owner != t.procs[p].exec
  {
    if p != a.p {
      StepsElsewhere(s, a, t, p);
      assert BaseProc(s, p) && OwnExecution(s);
    }
    if a.p in s.procs { assert BaseProc(s, a.p); }
    hide BaseView, Disturbs;
  }

  lemma {:induction false} RunKeepsNamed(s0: State, actions: seq<Action>, t: State, policy: Policy)
    requires policy.disjoint && Locked(s0, policy.timely) && Named(s0) && Reaches(s0, actions, t, policy)
    ensures Named(t) && Locked(t, policy.timely)
  {
    RunKeepsLocked(s0, actions, t, policy);
    if actions != [] {
      var n := |actions| - 1;
      var s :| Reaches(s0, actions[..n], s, policy) && Enabled(s, actions[n]) && t == Apply(s, actions[n]);
      hide Enabled, Apply, Named, Locked;
      RunKeepsNamed(s0, actions[..n], s, policy);
      NamedStep(s, actions[n], policy.timely);
    }
  }

  lemma RunIsNamed(actions: seq<Action>, t: State, policy: Policy)
    requires policy.disjoint && Reaches(INITIAL, actions, t, policy)
    ensures Named(t) && Locked(t, policy.timely)
  {
    InitiallyLocked(policy.timely);
    hide Locked, Reaches;
    RunKeepsNamed(INITIAL, actions, t, policy);
  }

  // ---------- Locks that stay ----------

  // No record, and no coordinator to make one.
  predicate Deserted(s: State, e: ExecId)
  {
    && s.lock.Some? && s.lock.value.owner == e && e !in s.records
    && forall p :: p in s.procs && s.procs[p].exec == e ==> s.procs[p].role == Recovery
  }

  // The lock of an execution that nobody can finish or release.
  predicate Lasting(s: State, e: ExecId)
  {
    Stranded(s, e) || Deserted(s, e)
  }

  lemma DesertedView(v: View, a: Action)
    requires Ready(v, a) && (v.proc.Some? ==> BaseView(v, a.p) && v.proc.value.role == Recovery) && v.record.None?
    ensures var w := Next(v, a); !a.Spawn? ==> w.lock == v.lock && w.record.None?
  {
  }

  lemma DesertedStep(s: State, a: Action, e: ExecId, timely: bool)
    requires Locked(s, timely) && Named(s) && Deserted(s, e) && Enabled(s, a) && Follows(s, a, Policy(true, timely))
    ensures Deserted(Apply(s, a), e) && Apply(s, a).lock == s.lock
  {
    var t := Apply(s, a);
    ViewOfActor(s, a);
    LockedSteps(s, a, timely);
    ApplyFrame(s, a) by { assert a.p in s.procs ==> BaseProc(s, a.p); }
    BaseSteps(s, a);
    if e == ExecOf(s, a) { DesertedView(ViewOf(s, a.p, e), a) by { hide Ready, BaseView; } }
    hide Ready, Next, Enabled, Apply, BaseView, Locked, LockView, StepFacts, Disturbs;
    DesertedKept(s, a, t, e);
  }

  lemma DesertedKept(s: State, a: Action, t: State, e: ExecId)
    requires Deserted(s, e) && Named(s) && Steps(s, a, t) && (a.Spawn? ==> a.exec !in s.used)
    requires LockMoves(ViewOf(s, a.p, ExecOf(s, a)), ViewOf(t, a.p, ExecOf(s, a)), ExecOf(s, a))
    requires e == ExecOf(s, a) ==> !a.Spawn? ==> t.lock == s.lock && Lookup(t.records, e).None?
    ensures Deserted(t, e) && t.lock == s.lock
  {
    assert e != ExecOf(s, a) ==> Lookup(t.records, e) == Lookup(s.records, e);
    forall p | p in t.procs && t.procs[p].exec == e ensures t.procs[p].role == Recovery {
      if p != a.p { StepsElsewhere(s, a, t, p); }
    }
    hide BaseView, Disturbs;
  }

  // Such a lock is never released.
  lemma {:induction false} DesertedForever(before: seq<Action>, s: State, after: seq<Action>, t: State, e: ExecId,
    policy: Policy)
    requires policy.disjoint && Reaches(INITIAL, before, s, policy) && Deserted(s, e) && Reaches(s, after, t, policy)
    ensures Deserted(t, e) && t.lock == s.lock
  {
    if after != [] {
      var n := |after| - 1;
      var m :| Reaches(s, after[..n], m, policy) && Enabled(m, after[n]) && Follows(m, after[n], policy)
        && t == Apply(m, after[n]);
      RunIsNamed(before, s, policy);
      RunKeepsNamed(s, after[..n], m, policy);
      hide Enabled, Apply, Named, Locked, Deserted, Follows;
      DesertedForever(before, s, after[..n], m, e, policy);
      DesertedStep(m, after[n], e, policy.timely) by { AsPolicy(m, after[n], policy); }
    }
  }

  lemma AsPolicy(s: State, a: Action, policy: Policy)
    requires policy.disjoint && Follows(s, a, policy)
    ensures Follows(s, a, Policy(true, policy.timely))
  {
  }

  // ---------- Locks that can come free ----------

  lemma Abandons(r: State, s: State, p: ProcId) returns (t: State)
    requires CanReach(r, s, SOUND) && p in s.procs && p in s.spawned
    requires s.procs[p].pc == LockCreated || s.procs[p].pc == LockWritten
    ensures CanReach(r, t, SOUND) && t == s.(procs := s.procs - {p}, lock := None)
  {
    hide LifeReady, LifeNext, BeginReady, BeginNext, WorkReady, WorkNext, FinalReady, FinalNext, ReleaseReady;
    hide ReleaseNext, Reaches, CanReach, Apply, Update, Enabled, RecoverReady, RecoverNext;
    t := Move(r, s, AbandonLock(p), ViewOf(s, p, s.procs[p].exec).(proc := None, lock := None), SOUND);
  }

  // A coordinator without a record lets go of its lock.
  lemma LetsGo(s: State, p: ProcId) returns (t: State)
    requires Locked(s, true) && Named(s) && p in s.procs && s.procs[p].role == Coordinator
    requires s.procs[p].exec !in s.records && s.lock.Some? && s.lock.value.owner == s.procs[p].exec
    ensures CanReach(s, t, SOUND) && t.lock.None?
  {
    StaysPut(s, SOUND);
    assert BaseProc(s, p);
    if Owning(s.procs[p].pc) { BeginnerActs(s, p, true); }
    hide Locked, CanReach, BaseView;
    if s.procs[p].pc == LockCreated || s.procs[p].pc == LockWritten {
      t := Abandons(s, s, p);
    } else if BeforeRecord(s.procs[p].pc) {
      t := Withdraws(s, s, p);
    } else if s.procs[p].pc == ReleaseLoad {
      t := Releases(s, s, p, SOUND);
    } else {
      t := Unlinks(s, s, p, SOUND) by { CoordinatorAt(s, p); }
    }
  }

  lemma CoordinatorAt(s: State, p: ProcId)
    requires p in s.procs && s.procs[p].role == Coordinator && BaseProc(s, p)
    ensures var pc := s.procs[p].pc; pc.Start? || pc.LockCreated? || pc.LockWritten? || Owning(pc)
  {
  }

  // The lock of a finished record.
  lemma FreesTerminal(s: State, e: ExecId) returns (t: State)
    requires Locked(s, true) && e in s.records && s.records[e].status != Running && s.lock == Some(LockFile(e, true))
    ensures CanReach(s, t, SOUND) && t.lock.None?
  {
    StaysPut(s, SOUND);
    OwnerOf(s, e);
    hide Locked, CanReach;
    var s1 := Stops(s, s, s.records[e].owner);
    LockedAlong(s, s1);
    if q :| q in s1.procs && s1.procs[q].exec == e && s1.procs[q].pc == ReleaseUnlink {
      t := Unlinks(s, s1, q, SOUND) by { Known(s1, q, true); }
    } else {
      var p: ProcId;
      t, p := FreesFinished(s, s1, e, true);
    }
  }

  lemma Known(s: State, p: ProcId, timely: bool)
    requires Locked(s, timely) && p in s.procs
    ensures p in s.spawned && (s.procs[p].role == Coordinator ==> s.procs[p].exec in s.used)
  {
    assert BaseProc(s, p);
  }

  lemma Frees(s: State, e: ExecId) returns (t: State)
    requires Locked(s, true) && Named(s) && s.lock.Some? && s.lock.value.owner == e && !Lasting(s, e)
    ensures CanReach(s, t, SOUND) && t.lock.None?
  {
    if e !in s.records {
      var p :| p in s.procs && s.procs[p].exec == e && s.procs[p].role != Recovery;
      hide Locked, CanReach;
      t := LetsGo(s, p);
    } else if Runs(s, e) {
      hide Locked, CanReach, Stranded;
      t := Salvages(s, e, 0);
    } else {
      hide Locked, CanReach;
      t := FreesTerminal(s, e);
    }
  }

  // In every run without overlaps and late begin failures, exactly these locks never come
  // free again: those of a running record whose transition lock was left behind, and those
  // of a coordinator that is gone and left no record.
  lemma LockFreesExactly(before: seq<Action>, s: State)
    requires Reaches(INITIAL, before, s, SOUND) && s.lock.Some?
    ensures !Lasting(s, s.lock.value.owner) <==> exists t :: CanReach(s, t, SOUND) && t.lock.None?
  {
    var e := s.lock.value.owner;
    RunIsNamed(before, s, SOUND);
    hide Reaches, Locked, CanReach, Lasting, Named;
    if !Lasting(s, e) { var t := Frees(s, e); }
    if t :| CanReach(s, t, SOUND) && t.lock.None? {
      if Lasting(s, e) { Lasts(before, s, t, e); }
    }
  }

  lemma Lasts(before: seq<Action>, s: State, t: State, e: ExecId)
    requires Reaches(INITIAL, before, s, SOUND) && s.lock.Some? && Lasting(s, e) && CanReach(s, t, SOUND)
    ensures t.lock.Some?
  {
    var after: seq<Action> :| Reaches(s, after, t, SOUND);
    hide Reaches;
    if Stranded(s, e) {
      StrandedBlocksEveryone(before, s, after, t, e);
    } else {
      DesertedForever(before, s, after, t, e, SOUND);
    }
  }

  // ---------- A running record that has lost its lock ----------

  predicate Looking(q: Proc)
  {
    && q.role == Recovery
    && (q.pc.RecoverStart? || q.pc.RecoverLock? || ((q.pc.RecoverCheck? || q.pc.RecoverAudited?) && !q.pc.lockSeen))
  }

  // Its coordinator is gone, no lock names it, and its recoveries have seen none.
  predicate Lost(s: State, e: ExecId)
  {
    && Runs(s, e) && (s.lock.Some? ==> s.lock.value.owner != e)
    && forall p :: p in s.procs && s.procs[p].exec == e ==> Looking(s.procs[p])
  }

  predicate LostView(v: View, e: ExecId)
  {
    RunningView(v) && (v.lock.Some? ==> v.lock.value.owner != e) && (v.proc.Some? ==> Looking(v.proc.value))
  }

  lemma LostStepView(v: View, a: Action, e: ExecId)
    requires CanTake(v, a) && LostView(v, e) && !a.Spawn? && (v.proc.Some? ==> v.proc.value.exec == e)
    ensures LostView(Next(v, a), e) && Next(v, a).record == v.record
  {
  }

  lemma LostStep(s: State, a: Action, e: ExecId)
    requires Base(s) && Lost(s, e) && Enabled(s, a)
    ensures Lost(Apply(s, a), e) && Apply(s, a).records[e] == s.records[e]
  {
    var t := Apply(s, a);
    var x := ExecOf(s, a);
    var v := ViewOf(s, a.p, x);
    ViewOfActor(s, a);
    BaseSteps(s, a);
    assert a.Spawn? ==> x != e;
    ApplyFrame(s, a) by { assert a.p in s.procs ==> BaseProc(s, a.p); }
    hide Enabled, Apply, Base, BaseView, Ready, Next;
    if x == e { LostStepView(v, a, e); } else { StepNames(v, a, x); }
    hide StepFacts, Looking;
    LostKept(s, a, t, e);
  }

  lemma LostKept(s: State, a: Action, t: State, e: ExecId)
    requires Lost(s, e) && Steps(s, a, t)
    requires ExecOf(s, a) == e ==>
      LostView(ViewOf(t, a.p, e), e) && Lookup(t.records, e) == Lookup(s.records, e)
    requires ExecOf(s, a) != e ==>
      NamesFacts(ViewOf(s, a.p, ExecOf(s, a)), a, ViewOf(t, a.p, ExecOf(s, a)), ExecOf(s, a))
    ensures Lost(t, e) && t.records[e] == s.records[e]
  {
    var x := ExecOf(s, a);
    assert e != x ==> Lookup(t.records, e) == Lookup(s.records, e);
    forall p | p in t.procs && t.procs[p].exec == e ensures Looking(t.procs[p]) {
      if p != a.p { StepsElsewhere(s, a, t, p); }
    }
    hide BaseView, Disturbs, Looking;
  }

  // In every run: such a record runs forever, since a recovery finishes only what it has
  // seen locked.
  lemma {:induction false} LostForever(before: seq<Action>, s: State, after: seq<Action>, t: State, e: ExecId)
    requires Reaches(INITIAL, before, s, ANYHOW) && Lost(s, e) && Reaches(s, after, t, ANYHOW)
    ensures Lost(t, e) && e in t.records && t.records[e] == s.records[e]
  {
    if after != [] {
      var n := |after| - 1;
      var m :| Reaches(s, after[..n], m, ANYHOW) && Enabled(m, after[n]) && t == Apply(m, after[n]);
      RunKeepsBase(INITIAL, before, s, ANYHOW);
      RunKeepsBase(s, after[..n], m, ANYHOW);
      LostForever(before, s, after[..n], m, e);
      hide Base, Enabled, Apply, Reaches;
      LostStep(m, after[n], e);
    }
  }
}
