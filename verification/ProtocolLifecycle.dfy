// Whole executions: a free lock is enough to carry one through, and exactly which locks can
// still come free.
module ProtocolLifecycle {
  import opened Wrappers
  import opened Protocol
  import opened ProtocolSafety
  import opened ProtocolMutex
  import opened ProtocolSteps
  import opened ProtocolLimits
  import opened ProtocolProgress

  // ---------- One execution from its beginning ----------

  function Beginner(e: ExecId, kind: Kind, identity: Identity, pc: Pc): Proc
  {
    Proc(Coordinator, e, kind, identity, pc)
  }

  lemma Enters(r: State, s: State, p: ProcId, e: ExecId, kind: Kind, identity: Identity) returns (t: State)
    requires CanReach(r, s, SOUND) && s.lock.None? && p !in s.spawned && e !in s.used && p !in s.procs
    ensures CanReach(r, t, SOUND)
    ensures t == s.(
      lock := Some(LockFile(e, false)),
      procs := s.procs[p := Beginner(e, kind, identity, LockCreated)],
      spawned := s.spawned + {p},
      used := s.used + {e})
  {
    hide BeginReady, BeginNext, WorkReady, WorkNext, FinalReady, FinalNext, ReleaseReady, ReleaseNext;
    hide Reaches, CanReach, Apply, Update, RecoverReady, RecoverNext;
    var v := ViewOf(s, p, e).(proc := Some(Beginner(e, kind, identity, Start)));
    var s1 := Step(r, s, Spawn(p, e, kind, identity), v, SOUND);
    hide Enabled;
    t := Move(r, s1, CreateLock(p), Go(v, LockCreated).(lock := Some(LockFile(e, false))), SOUND);
  }

  lemma Confirms(r: State, s: State, p: ProcId) returns (t: State)
    requires CanReach(r, s, SOUND) && p in s.procs && p in s.spawned && s.procs[p].exec in s.used
    requires s.procs[p].pc == LockCreated && s.lock == Some(LockFile(s.procs[p].exec, false))
    ensures CanReach(r, t, SOUND)
    ensures var e := s.procs[p].exec; t == At(s, p, Acquired).(lock := Some(LockFile(e, true)), held := s.held + {e})
  {
    hide LifeReady, LifeNext, BeginReady, BeginNext, WorkReady, WorkNext, FinalReady, FinalNext, ReleaseReady;
    hide ReleaseNext, Reaches, CanReach, Apply, Update, Enabled, RecoverReady, RecoverNext;
    var e := s.procs[p].exec;
    var v := ViewOf(s, p, e).(lock := Some(LockFile(e, true)));
    var s1 := Move(r, s, WriteLock(p), Go(v, LockWritten), SOUND);
    t := Move(r, s1, ConfirmLock(p), Go(v, Acquired).(held := true), SOUND);
    if e in s.held { assert s.held + {e} == s.held; }
  }

  lemma OpensRecord(r: State, s: State, p: ProcId) returns (t: State)
    requires CanReach(r, s, SOUND) && p in s.procs && p in s.spawned && s.procs[p].exec in s.used
    requires s.procs[p].pc == Acquired && s.procs[p].exec !in s.records && s.procs[p].exec !in s.transitions
    ensures CanReach(r, t, SOUND)
    ensures t == At(s, p, BeginChecked).(transitions := s.transitions[s.procs[p].exec := p])
  {
    hide LifeReady, LifeNext, LockingReady, LockingNext, WorkReady, WorkNext, FinalReady, FinalNext, ReleaseReady;
    hide ReleaseNext, Reaches, CanReach, Apply, Update, Enabled, RecoverReady, RecoverNext;
    var e := s.procs[p].exec;
    var v := ViewOf(s, p, e).(transition := Some(p));
    var s1 := Move(r, s, OpenBegin(p), Go(v, BeginLocked), SOUND);
    t := Move(r, s1, CheckTarget(p), Go(v, BeginChecked), SOUND);
  }

  function Beginning(q: Proc, p: ProcId): Record { Record(q.kind, q.identity, p, Running, 0, Outcome(None, None)) }

  lemma WritesRecord(r: State, s: State, p: ProcId) returns (t: State)
    requires CanReach(r, s, SOUND) && p in s.procs && p in s.spawned && s.procs[p].exec in s.used
    requires s.procs[p].pc == BeginChecked && s.procs[p].exec !in s.records
    ensures CanReach(r, t, SOUND)
    ensures var e := s.procs[p].exec;
      t == At(s, p, BeginPublished).(records := s.records[e := Beginning(s.procs[p], p)])
  {
    hide LifeReady, LifeNext, LockingReady, LockingNext, WorkReady, WorkNext, FinalReady, FinalNext, ReleaseReady;
    hide ReleaseNext, Reaches, CanReach, Apply, Update, Enabled, RecoverReady, RecoverNext;
    var v := ViewOf(s, p, s.procs[p].exec);
    t := Move(r, s, PublishRunning(p), Go(v, BeginPublished).(record := Some(Beginning(s.procs[p], p))), SOUND);
  }

  // An acquired coordinator can come to work, with its running record in place.
  lemma ComesToWork(r: State, s: State, p: ProcId) returns (t: State)
    requires CanReach(r, s, SOUND) && p in s.procs && p in s.spawned && s.procs[p].exec in s.used
    requires s.procs[p].pc == Acquired && s.procs[p].exec !in s.records && s.procs[p].exec !in s.transitions
    ensures CanReach(r, t, SOUND)
    ensures var e := s.procs[p].exec; t == At(s, p, Working).(records := s.records[e := Beginning(s.procs[p], p)])
  {
    var e := s.procs[p].exec;
    BeginStates(s, p);
    hide CanReach, Beginning;
    var s1 := OpensRecord(r, s, p);
    var s2 := WritesRecord(r, s1, p);
    t := ClosesBegin(r, s2, p);
  }

  // The states in between, written out.
  lemma BeginStates(s: State, p: ProcId)
    requires p in s.procs && s.procs[p].exec !in s.transitions
    ensures var e := s.procs[p].exec;
      var s1 := At(s, p, BeginChecked).(transitions := s.transitions[e := p]);
      var s2 := At(s1, p, BeginPublished).(records := s1.records[e := Beginning(s1.procs[p], p)]);
      At(s2, p, Working).(transitions := s2.transitions - {e})
        == At(s, p, Working).(records := s.records[e := Beginning(s.procs[p], p)])
  {
    var e := s.procs[p].exec;
    assert s.transitions[e := p] - {e} == s.transitions;
  }

  lemma Starts(r: State, s: State, p: ProcId, e: ExecId, kind: Kind, identity: Identity) returns (t: State)
    requires CanReach(r, s, SOUND) && s.lock.None? && p !in s.spawned && e !in s.used && p !in s.procs
    requires e !in s.held && e !in s.records && e !in s.transitions
    ensures CanReach(r, t, SOUND)
    ensures t == s.(
      lock := Some(LockFile(e, true)),
      records := s.records[e := Record(kind, identity, p, Running, 0, Outcome(None, None))],
      procs := s.procs[p := Beginner(e, kind, identity, Working)],
      spawned := s.spawned + {p},
      used := s.used + {e},
      held := s.held + {e})
  {
    hide CanReach;
    var s1 := Enters(r, s, p, e, kind, identity);
    var s2 := Confirms(r, s1, p);
    t := ComesToWork(r, s2, p);
  }

  // What a coordinator of this kind may decide: to fail; a build, to complete with evidence;
  // a reuse, to repeat the evidence of the best source there is.
  ghost predicate Decidable(kind: Kind, identity: Identity, records: map<ExecId, Record>, d: Decision)
  {
    match d.status
    case Running => false
    case Failed => d.outcome == Outcome(None, None)
    case Completed => kind == Build && d.outcome.evidence.Some? && d.outcome.source.None?
    case Reused =>
      && kind == Reuse && d.outcome.source.Some? && BestSource(records, identity, d.outcome.source.value)
      && d.outcome.evidence == records[d.outcome.source.value].outcome.evidence
  }

  function ActionFor(p: ProcId, d: Decision): Action
  {
    if d.status == Reused && d.outcome.source.Some?
    then SelectSource(p, d.outcome.source.value, d.outcome.evidence, d.finishedAt) else Decide(p, d)
  }

  // A record that has only begun changes no choice of a source.
  lemma SourceStays(records: map<ExecId, Record>, identity: Identity, c: ExecId, e: ExecId, begun: Record)
    requires BestSource(records, identity, c) && e !in records && begun.status == Running
    ensures BestSource(records[e := begun], identity, c)
  {
  }

  lemma DecisionEnabled(s: State, p: ProcId, d: Decision)
    requires p in s.procs && s.procs[p].pc == Working && Decidable(s.procs[p].kind, s.procs[p].identity, s.records, d)
    ensures Enabled(s, ActionFor(p, d)) && IsDecision(ActionFor(p, d)) && DecisionOf(ActionFor(p, d)) == d
    ensures ActionFor(p, d).p == p
  {
    hide BestSource;
  }

  // Carried through from work.
  lemma Completes(r: State, s: State, p: ProcId, d: Decision) returns (t: State)
    requires CanReach(r, s, SOUND) && Acting(s, p) && s.procs[p].pc == Working
    requires Runs(s, s.procs[p].exec) && s.procs[p].exec !in s.transitions
    requires Decidable(s.procs[p].kind, s.procs[p].identity, s.records, d)
    ensures CanReach(r, t, SOUND) && t == Recorded(s, p, d)
  {
    DecisionEnabled(s, p, d);
    hide CanReach, Enabled, Decidable, DecisionOf, IsDecision;
    t := CarriesThrough(r, s, ActionFor(p, d));
  }

  lemma FreshExecution(s: State) returns (e: ExecId)
    requires Base(s)
    ensures e !in s.used && e !in s.held && e !in s.records && e !in s.transitions
    ensures forall q :: q in s.procs && s.procs[q].exec == e ==> s.procs[q].pc == RecoverStart
  {
    e := FreshIdentifier(s.used + s.transitions.Keys);
    forall q | q in s.procs && s.procs[q].exec == e ensures s.procs[q].pc == RecoverStart { assert BaseProc(s, q); }
  }

  lemma Carries(s: State, p: ProcId, e: ExecId, kind: Kind, identity: Identity, d: Decision) returns (t: State)
    requires s.lock.None? && p !in s.spawned && p !in s.procs && Decidable(kind, identity, s.records, d)
    requires e !in s.used && e !in s.held && e !in s.records && e !in s.transitions
    requires forall q :: q in s.procs && s.procs[q].exec == e ==> s.procs[q].pc == RecoverStart
    ensures CanReach(s, t, SOUND)
    ensures t == s.(
      records := s.records[e := Record(kind, identity, p, d.status, d.finishedAt, d.outcome)],
      spawned := s.spawned + {p},
      used := s.used + {e})
  {
    StaysPut(s, SOUND);
    var begun := Record(kind, identity, p, Running, 0, Outcome(None, None));
    if d.status == Reused { SourceStays(s.records, identity, d.outcome.source.value, e, begun); }
    assert Decidable(kind, identity, s.records[e := begun], d) by { hide BestSource; }
    hide CanReach, Decidable, BestSource;
    var s1 := Starts(s, s, p, e, kind, identity);
    StartedActs(s, s1, p, e, kind, identity);
    t := Completes(s, s1, p, d);
    Ended(s, s1, p, e, kind, identity, d);
  }

  predicate Started(s: State, t: State, p: ProcId, e: ExecId, kind: Kind, identity: Identity)
  {
    t == s.(
      lock := Some(LockFile(e, true)),
      records := s.records[e := Record(kind, identity, p, Running, 0, Outcome(None, None))],
      procs := s.procs[p := Beginner(e, kind, identity, Working)],
      spawned := s.spawned + {p},
      used := s.used + {e},
      held := s.held + {e})
  }

  lemma StartedActs(s: State, t: State, p: ProcId, e: ExecId, kind: Kind, identity: Identity)
    requires Started(s, t, p, e, kind, identity) && p !in s.procs
    requires forall q :: q in s.procs && s.procs[q].exec == e ==> s.procs[q].pc == RecoverStart
    ensures Acting(t, p) && t.procs[p] == Beginner(e, kind, identity, Working) && Runs(t, e)
  {
  }

  lemma Ended(s: State, t: State, p: ProcId, e: ExecId, kind: Kind, identity: Identity, d: Decision)
    requires Started(s, t, p, e, kind, identity) && p !in s.procs && e !in s.held && s.lock.None?
    ensures Recorded(t, p, d) == s.(
      records := s.records[e := Record(kind, identity, p, d.status, d.finishedAt, d.outcome)],
      spawned := s.spawned + {p},
      used := s.used + {e})
  {
    var u := Recorded(t, p, d);
    assert u.records == s.records[e := Record(kind, identity, p, d.status, d.finishedAt, d.outcome)];
    assert u.procs == s.procs && s.held + {e} - {e} == s.held;
  }

  // In every run, whatever has stopped or failed: once the lock is free a new execution of
  // either kind can be carried through to any decision its coordinator may take, and leaves
  // exactly its record behind.
  lemma ExecutionCompletes(before: seq<Action>, s: State, kind: Kind, identity: Identity, d: Decision)
    returns (t: State, p: ProcId, e: ExecId)
    requires Reaches(INITIAL, before, s, ANYHOW) && s.lock.None? && Decidable(kind, identity, s.records, d)
    ensures p !in s.spawned && e !in s.used && CanReach(s, t, SOUND)
    ensures t == s.(
      records := s.records[e := Record(kind, identity, p, d.status, d.finishedAt, d.outcome)],
      spawned := s.spawned + {p},
      used := s.used + {e})
  {
    RunKeepsBase(INITIAL, before, s, ANYHOW);
    hide Reaches, Decidable, CanReach;
    ProcsAreSpawned(s);
    p := FreshIdentifier(s.spawned);
    e := FreshExecution(s);
    hide Base;
    t := Carries(s, p, e, kind, identity, d);
  }

  // ---------- Statuses and kinds ----------

  // What a finished record says fits what it was begun as.
  predicate Fits(r: Record)
  {
    match r.status
    case Running => true
    case Failed => r.outcome.source.None? && r.outcome.evidence.None?
    case Completed => r.kind == Build && r.outcome.source.None? && r.outcome.evidence.Some?
    case Reused => r.kind == Reuse && r.outcome.source.Some? && r.outcome.evidence.Some?
  }

  predicate DecisionFits(q: Proc)
  {
    Finalizing(q.pc) ==>
      var d := q.pc.decision;
      if q.role == Recovery then d.status == Failed && d.outcome == NO_OUTCOME
      else d.status != Running && Fits(Record(q.kind, q.identity, 0, d.status, d.finishedAt, d.outcome))
  }

  predicate FitView(v: View)
  {
    (v.proc.Some? ==> DecisionFits(v.proc.value)) && (v.record.Some? ==> Fits(v.record.value))
  }

  lemma WorkFits(v: View, a: Action)
    requires PhaseOf(a) == Work && CanTake(v, a) && FitView(v) && (a.SelectSource? ==> a.evidence.Some?)
    ensures FitView(Next(v, a))
  {
    hide LifeReady, LifeNext, LockingReady, LockingNext, BeginReady, BeginNext;
    hide FinalReady, FinalNext, ReleaseReady, ReleaseNext, RecoverReady, RecoverNext;
  }

  lemma FinalFits(v: View, a: Action)
    requires PhaseOf(a) == Final && CanTake(v, a) && FitView(v)
    ensures FitView(Next(v, a))
  {
    hide LifeReady, LifeNext, LockingReady, LockingNext, BeginReady, BeginNext;
    hide WorkReady, WorkNext, ReleaseReady, ReleaseNext, RecoverReady, RecoverNext;
  }

  lemma BeginFits(v: View, a: Action)
    requires PhaseOf(a) == Begin && CanTake(v, a) && FitView(v)
    ensures FitView(Next(v, a))
  {
    hide LifeReady, LifeNext, LockingReady, LockingNext, FinalReady, FinalNext;
    hide WorkReady, WorkNext, ReleaseReady, ReleaseNext, RecoverReady, RecoverNext, BaseView;
  }

  lemma OtherFits(v: View, a: Action)
    requires PhaseOf(a) != Work && PhaseOf(a) != Final && PhaseOf(a) != Begin && CanTake(v, a) && FitView(v)
    ensures FitView(Next(v, a))
  {
    hide BeginReady, BeginNext, FinalReady, FinalNext, WorkReady, WorkNext, BaseView;
  }

  lemma ViewFits(v: View, a: Action)
    requires CanTake(v, a) && FitView(v) && (a.SelectSource? ==> a.evidence.Some?)
    ensures FitView(Next(v, a))
  {
    hide Ready, Next, BaseView, FitView;
    match PhaseOf(a)
    case Work => WorkFits(v, a);
    case Final => FinalFits(v, a);
    case Begin => BeginFits(v, a);
    case _ => OtherFits(v, a);
  }

  ghost predicate AllFit(s: State)
  {
    && (forall p :: p in s.procs ==> DecisionFits(s.procs[p]))
    && (forall e :: e in s.records ==> Fits(s.records[e]))
  }

  lemma SourceHasEvidence(s: State, a: Action)
    requires Enabled(s, a) && a.SelectSource?
    ensures a.evidence.Some?
  {
  }

  lemma FitStep(s: State, a: Action)
    requires Base(s) && AllFit(s) && Enabled(s, a)
    ensures AllFit(Apply(s, a))
  {
    var t := Apply(s, a);
    var x := ExecOf(s, a);
    var v := ViewOf(s, a.p, x);
    ViewOfActor(s, a);
    if a.SelectSource? { SourceHasEvidence(s, a); }
    assert FitView(v) && CanTake(v, a) by { hide Ready, BaseView, Fits, DecisionFits; }
    ViewFits(v, a);
    ApplyFrame(s, a) by { assert a.p in s.procs ==> BaseProc(s, a.p); }
    hide Ready, Next, BaseView, Enabled, Apply, Base, Fits, DecisionFits, AllFit, FitView, Frame;
    FitKept(s, a, t);
  }

  lemma FitKept(s: State, a: Action, t: State)
    requires AllFit(s) && Frame(s, a, t) && FitView(ViewOf(t, a.p, ExecOf(s, a)))
    ensures AllFit(t)
  {
    hide Fits, DecisionFits;
    forall p | p in t.procs ensures DecisionFits(t.procs[p]) {
      assert p != a.p ==> Lookup(t.procs, p) == Lookup(s.procs, p);
    }
    forall e | e in t.records ensures Fits(t.records[e]) {
      assert e != ExecOf(s, a) ==> Lookup(t.records, e) == Lookup(s.records, e);
    }
  }

  // In every run: only builds complete, with evidence of their own; only reuses repeat, and
  // name their source; a failure has neither.
  lemma {:induction false} StatusesFit(actions: seq<Action>, t: State)
    requires Reaches(INITIAL, actions, t, ANYHOW)
    ensures AllFit(t)
  {
    if actions != [] {
      var n := |actions| - 1;
      var s :| Reaches(INITIAL, actions[..n], s, ANYHOW) && Enabled(s, actions[n]) && t == Apply(s, actions[n]);
      RunKeepsBase(INITIAL, actions[..n], s, ANYHOW);
      hide Base, Enabled, Apply, AllFit;
      StatusesFit(actions[..n], s);
      FitStep(s, actions[n]);
    }
  }

  // ---------- What a begin finds ----------

  predicate Entering(q: Proc)
  {
    q.role == Coordinator && (q.pc.Start? || q.pc.LockCreated? || q.pc.LockWritten? || q.pc.Acquired?)
  }

  // Transition locks belong to executions that have come further.
  ghost predicate Unopened(s: State)
  {
    && (forall e :: e in s.transitions ==> e in s.used)
    && forall p :: p in s.procs && Entering(s.procs[p]) ==> s.procs[p].exec !in s.transitions
  }

  predicate OpensFacts(v: View, a: Action, w: View)
  {
    && (w.transition.Some? && v.transition.None? ==>
      v.proc.Some?
        && ((v.proc.value.pc == Acquired && w.proc.Some? && !Entering(w.proc.value)) || v.proc.value.pc.Finalize?))
    && (w.proc.Some? && Entering(w.proc.value) ==>
      w.transition == v.transition && if v.proc.Some? then Entering(v.proc.value) else a.Spawn?)
  }

  lemma LifeOpens(v: View, a: Action)
    requires PhaseOf(a) == Life && CanTake(v, a)
    ensures OpensFacts(v, a, Next(v, a))
  {
  }

  lemma BeginOpens(v: View, a: Action)
    requires PhaseOf(a) == Begin && CanTake(v, a)
    ensures OpensFacts(v, a, Next(v, a))
  {
    hide LifeReady, LifeNext, LockingReady, LockingNext, WorkReady, WorkNext;
    hide FinalReady, FinalNext, ReleaseReady, ReleaseNext, RecoverReady, RecoverNext, BaseView;
  }

  lemma OtherOpens(v: View, a: Action)
    requires PhaseOf(a) != Life && PhaseOf(a) != Begin && CanTake(v, a)
    ensures OpensFacts(v, a, Next(v, a))
  {
    hide LifeReady, LifeNext, BeginReady, BeginNext, BaseView;
  }

  lemma ViewOpens(v: View, a: Action)
    requires CanTake(v, a)
    ensures OpensFacts(v, a, Next(v, a))
  {
    hide Ready, Next, BaseView, OpensFacts;
    match PhaseOf(a)
    case Life => LifeOpens(v, a);
    case Begin => BeginOpens(v, a);
    case _ => OtherOpens(v, a);
  }

  lemma UnopenedStep(s: State, a: Action)
    requires Base(s) && Unopened(s) && Enabled(s, a)
    ensures Unopened(Apply(s, a))
  {
    var t := Apply(s, a);
    ViewOfActor(s, a);
    ViewOpens(ViewOf(s, a.p, ExecOf(s, a)), a);
    BaseSteps(s, a);
    ApplyFrame(s, a) by { assert a.p in s.procs ==> BaseProc(s, a.p); }
    hide Ready, Next, Enabled, Apply, BaseView, Steps, OpensFacts, Base, Unopened;
    UnopenedKept(s, a, t);
  }

  lemma UnopenedKept(s: State, a: Action, t: State)
    requires OpensSteps(s, a, t)
    ensures Unopened(t)
  {
    hide OpensSteps, Entering;
    forall e | e in t.transitions ensures e in t.used { TransitionUsed(s, a, t, e); }
    forall p | p in t.procs && Entering(t.procs[p]) ensures t.procs[p].exec !in t.transitions {
      StillUnopened(s, a, t, p);
    }
  }

  ghost predicate OpensSteps(s: State, a: Action, t: State)
  {
    && Base(s) && Unopened(s) && Steps(s, a, t) && (a.Spawn? ==> a.exec !in s.used)
    && OpensFacts(ViewOf(s, a.p, ExecOf(s, a)), a, ViewOf(t, a.p, ExecOf(s, a)))
  }

  lemma TransitionUsed(s: State, a: Action, t: State, e: ExecId)
    requires OpensSteps(s, a, t) && e in t.transitions
    ensures e in t.used
  {
    assert e != ExecOf(s, a) ==> Lookup(t.transitions, e) == Lookup(s.transitions, e);
    if a.p in s.procs { assert BaseProc(s, a.p); }
    hide StepFacts, Entering;
  }

  lemma StillUnopened(s: State, a: Action, t: State, p: ProcId)
    requires OpensSteps(s, a, t) && p in t.procs && Entering(t.procs[p])
    ensures t.procs[p].exec !in t.transitions
  {
    var e := t.procs[p].exec;
    if p != a.p {
      StepsElsewhere(s, a, t, p);
      assert BaseProc(s, p);
      if e == ExecOf(s, a) && a.p in s.procs { assert BaseProc(s, a.p) && OwnExecution(s); }
    }
    assert e != ExecOf(s, a) ==> Lookup(t.transitions, e) == Lookup(s.transitions, e);
    hide Disturbs;
  }

  lemma {:induction false} RunKeepsUnopened(actions: seq<Action>, t: State)
    requires Reaches(INITIAL, actions, t, ANYHOW)
    ensures Unopened(t)
  {
    if actions != [] {
      var n := |actions| - 1;
      var s :| Reaches(INITIAL, actions[..n], s, ANYHOW) && Enabled(s, actions[n]) && t == Apply(s, actions[n]);
      RunKeepsBase(INITIAL, actions[..n], s, ANYHOW);
      hide Base, Enabled, Apply, Unopened;
      RunKeepsUnopened(actions[..n], s);
      UnopenedStep(s, actions[n]);
    }
  }

  // In every run a coordinator that begins finds neither a record nor a transition lock of
  // its execution: its refusals of both never happen.
  lemma BeginFindsNothing(actions: seq<Action>, t: State, p: ProcId)
    requires Reaches(INITIAL, actions, t, ANYHOW) && p in t.procs
    ensures t.procs[p].pc == Acquired ==> t.procs[p].exec !in t.transitions && t.procs[p].exec !in t.records
    ensures t.procs[p].pc == BeginLocked ==> t.procs[p].exec !in t.records
  {
    RunKeepsBase(INITIAL, actions, t, ANYHOW);
    RunKeepsUnopened(actions, t);
    assert BaseProc(t, p);
  }
}
