// Invariants of every run of the protocol.
module ProtocolSafety {
  import opened Wrappers
  import opened Protocol

  // ---------- Program points ----------

  predicate BeforePublish(pc: Pc)
  {
    pc.Start? || pc.LockCreated? || pc.LockWritten? || pc.Acquired? || pc.BeginLocked? || pc.BeginChecked?
  }

  predicate Beginning(pc: Pc) { BeforePublish(pc) || pc.BeginPublished? || pc.BeginCleanup? }

  predicate Finalizing(pc: Pc) { pc.Finalize? || pc.FinalLocked? || pc.FinalRead? }

  predicate Finishing(pc: Pc) { Finalizing(pc) || pc.FinalPublished? || pc.FinalCleanup? }

  predicate Releasing(pc: Pc) { pc.ReleaseLoad? || pc.ReleaseUnlink? }

  predicate Recovering(pc: Pc) { pc.RecoverStart? || Audited(pc) }

  // Holding a snapshot of the record.
  predicate Audited(pc: Pc) { pc.RecoverLock? || pc.RecoverCheck? || pc.RecoverAudited? }

  // Holding the transition lock of the process's execution.
  predicate InTransition(pc: Pc)
  {
    pc.BeginLocked? || pc.BeginChecked? || pc.BeginPublished? || pc.BeginCleanup? || pc.FinalLocked? || pc.FinalRead?
    || pc.FinalPublished? || pc.FinalCleanup?
  }

  predicate SameBeginning(a: Record, b: Record) { a.kind == b.kind && a.identity == b.identity && a.owner == b.owner }

  // A record may appear, and a running record may become terminal; nothing else.
  predicate Evolves(a: Option<Record>, b: Option<Record>)
  {
    a.Some? ==>
      && b.Some?
      && SameBeginning(a.value, b.value)
      && (b == a || (a.value.status == Running && b.value.status != Running))
  }

  // ---------- What one process's view satisfies, in every run ----------

  predicate CoordinatorView(v: View, p: ProcId)
    requires v.proc.Some?
  {
    var q := v.proc.value;
    && !Recovering(q.pc)
    && (BeforePublish(q.pc) ==> v.record.None?)
    && (q.pc.BeginPublished? || q.pc.Working? || Finishing(q.pc) ==> v.record.Some?)
    && (q.pc.BeginPublished? ==> v.record.value.status == Running)
    && (v.record.Some? ==>
      v.record.value.owner == p && v.record.value.identity == q.identity && v.record.value.kind == q.kind)
  }

  predicate RecoveryView(v: View)
    requires v.proc.Some?
  {
    var q := v.proc.value;
    && !Beginning(q.pc)
    && !q.pc.Working?
    && (!q.pc.RecoverStart? ==> v.record.Some?)
    && (Finalizing(q.pc) ==> q.pc.decision.status == Failed)
    && (Audited(q.pc) ==>
      SameBeginning(q.pc.seen, v.record.value) && (q.pc.seen.status != Running ==> v.record.value == q.pc.seen))
  }

  predicate FinalView(v: View, p: ProcId)
    requires v.proc.Some?
  {
    var q := v.proc.value;
    && (Finalizing(q.pc) ==> q.pc.decision.status != Running)
    && (InTransition(q.pc) ==> v.transition == Some(p))
    && (q.pc.FinalRead? ==> v.record == Some(q.pc.running) && q.pc.running.status == Running)
    && (q.pc.FinalPublished? ==> v.record.Some? && v.record.value.status != Running)
  }

  predicate BaseView(v: View, p: ProcId)
    requires v.proc.Some?
  {
    && (if v.proc.value.role == Coordinator then CoordinatorView(v, p) else RecoveryView(v))
    && FinalView(v, p)
  }

  predicate CanTake(v: View, a: Action)
  {
    && Ready(v, a)
    && (v.proc.Some? ==> BaseView(v, a.p))
    && (a.Spawn? ==> v.record.None?)
  }

  // What another process may do to the shared part of the view.
  predicate Disturbs(v: View, w: View, a: Action)
  {
    && Evolves(v.record, w.record)
    && (w.record == v.record || v.transition == Some(a.p))
    && (v.record.None? && w.record.Some? ==> v.proc.Some? && v.proc.value.role == Coordinator)
    && (w.transition == v.transition || v.transition.None? || v.transition == Some(a.p))
  }

  // A process keeps its role, its execution and its request.
  predicate SameProcess(q: Proc, r: Proc)
  {
    q.role == r.role && q.exec == r.exec && q.kind == r.kind && q.identity == r.identity
  }

  predicate NewProcess(a: Action, r: Proc)
  {
    && (a.Spawn? || a.SpawnRecovery?)
    && r.exec == a.exec
    && (r.role == Coordinator <==> a.Spawn?)
  }

  // Processes keep who they are, and only a confirmed lock is held.
  predicate KeepsIdentity(v: View, a: Action, w: View)
  {
    && (v.proc.Some? && w.proc.Some? ==> SameProcess(v.proc.value, w.proc.value))
    && (v.proc.None? ==> w.proc.Some? && NewProcess(a, w.proc.value))
    && (w.held && !v.held ==> v.proc.Some? && v.proc.value.pc.LockWritten?)
  }

  // What a step makes of its process's own view: it keeps it, moves the record forward,
  // and disturbs others within bounds.
  predicate StepFacts(v: View, a: Action, w: View)
  {
    && Disturbs(v, w, a)
    && (w.proc.Some? ==> BaseView(w, a.p))
    && (if v.proc.Some? then Evolves(v.record, w.record) else w.record == v.record)
    && KeepsIdentity(v, a, w)
    && (w.record.Some? ==> w.record.value.owner == if v.record.Some? then v.record.value.owner else a.p)
    && (w.transition.Some? ==> w.transition == v.transition || w.transition == Some(a.p))
  }

  lemma LifeStep(v: View, a: Action)
    requires PhaseOf(a) == Life && CanTake(v, a)
    ensures StepFacts(v, a, Next(v, a))
  {
    hide LockingReady, LockingNext, BeginReady, BeginNext, WorkReady, WorkNext;
    hide FinalReady, FinalNext, ReleaseReady, ReleaseNext, RecoverReady, RecoverNext;
  }

  lemma LockingStep(v: View, a: Action)
    requires PhaseOf(a) == Locking && CanTake(v, a)
    ensures StepFacts(v, a, Next(v, a))
  {
    hide LifeReady, LifeNext, BeginReady, BeginNext, WorkReady, WorkNext;
    hide FinalReady, FinalNext, ReleaseReady, ReleaseNext, RecoverReady, RecoverNext;
  }

  lemma BeginStep(v: View, a: Action)
    requires PhaseOf(a) == Begin && CanTake(v, a)
    ensures StepFacts(v, a, Next(v, a))
  {
    hide LifeReady, LifeNext, LockingReady, LockingNext, WorkReady, WorkNext;
    hide FinalReady, FinalNext, ReleaseReady, ReleaseNext, RecoverReady, RecoverNext;
  }

  lemma WorkStep(v: View, a: Action)
    requires PhaseOf(a) == Work && CanTake(v, a)
    ensures StepFacts(v, a, Next(v, a))
  {
    hide LifeReady, LifeNext, LockingReady, LockingNext, BeginReady, BeginNext;
    hide FinalReady, FinalNext, ReleaseReady, ReleaseNext, RecoverReady, RecoverNext;
  }

  lemma FinalStep(v: View, a: Action)
    requires PhaseOf(a) == Final && CanTake(v, a)
    ensures StepFacts(v, a, Next(v, a))
  {
    hide LifeReady, LifeNext, LockingReady, LockingNext, BeginReady, BeginNext;
    hide WorkReady, WorkNext, ReleaseReady, ReleaseNext, RecoverReady, RecoverNext;
  }

  lemma ReleaseStep(v: View, a: Action)
    requires PhaseOf(a) == Release && CanTake(v, a)
    ensures StepFacts(v, a, Next(v, a))
  {
    hide LifeReady, LifeNext, LockingReady, LockingNext, BeginReady, BeginNext;
    hide WorkReady, WorkNext, FinalReady, FinalNext, RecoverReady, RecoverNext;
  }

  lemma RecoverStep(v: View, a: Action)
    requires PhaseOf(a) == Recover && CanTake(v, a)
    ensures StepFacts(v, a, Next(v, a))
  {
    hide LifeReady, LifeNext, LockingReady, LockingNext, BeginReady, BeginNext;
    hide WorkReady, WorkNext, FinalReady, FinalNext, ReleaseReady, ReleaseNext;
  }

  lemma ViewSteps(v: View, a: Action)
    requires CanTake(v, a)
    ensures StepFacts(v, a, Next(v, a))
  {
    hide Ready, Next, BaseView, StepFacts;
    match PhaseOf(a)
    case Life => LifeStep(v, a);
    case Locking => LockingStep(v, a);
    case Begin => BeginStep(v, a);
    case Work => WorkStep(v, a);
    case Final => FinalStep(v, a);
    case Release => ReleaseStep(v, a);
    case Recover => RecoverStep(v, a);
  }

  // Another process's step on the same execution keeps it.
  lemma NeighbourView(u: View, v: View, w: View, p: ProcId, a: Action)
    requires u.proc.Some? && BaseView(u, p) && p != a.p
    requires u.record == v.record && u.transition == v.transition
    requires Disturbs(v, w, a)
    requires u.proc.value.role == Coordinator ==> v.proc.None? || v.proc.value.role == Recovery
    ensures BaseView(u.(lock := w.lock, record := w.record, transition := w.transition, held := w.held), p)
  {
  }

  // ---------- What every reachable state satisfies ----------

  function MyView(s: State, p: ProcId): View
    requires p in s.procs
  {
    ViewOf(s, p, s.procs[p].exec)
  }

  ghost predicate BaseProc(s: State, p: ProcId)
    requires p in s.procs
  {
    && p in s.spawned
    && (s.procs[p].role == Coordinator ==> s.procs[p].exec in s.used)
    && BaseView(MyView(s, p), p)
  }

  // Two coordinators never share an execution.
  ghost predicate OwnExecution(s: State)
  {
    forall p, q ::
      && p in s.procs && q in s.procs && p != q
      && s.procs[p].role == Coordinator && s.procs[q].role == Coordinator
      ==> s.procs[p].exec != s.procs[q].exec
  }

  ghost predicate Base(s: State)
  {
    && (forall p :: p in s.procs ==> BaseProc(s, p))
    && OwnExecution(s)
    && (forall e :: e in s.records ==> e in s.used && s.records[e].owner in s.spawned)
    && (forall e :: e in s.held ==> e in s.used)
    && (forall e :: e in s.transitions ==> s.transitions[e] in s.spawned)
  }

  ghost predicate RecordsEvolve(s: State, t: State)
  {
    forall e :: e in s.records ==> Evolves(Lookup(s.records, e), Lookup(t.records, e))
  }

  // What a step leaves alone.
  ghost predicate Frame(s: State, a: Action, t: State)
  {
    && var e := ExecOf(s, a);
    && var v := ViewOf(s, a.p, e);
    && var w := ViewOf(t, a.p, e);
    && t.lock == w.lock
    && (forall p :: p != a.p ==> Lookup(t.procs, p) == Lookup(s.procs, p))
    && (forall d :: d != e ==> Lookup(t.records, d) == Lookup(s.records, d))
    && (forall d :: d != e ==> Lookup(t.transitions, d) == Lookup(s.transitions, d))
    && (forall d :: d != e ==> (d in t.held <==> d in s.held))
    && s.spawned <= t.spawned && a.p in t.spawned
    && s.used <= t.used
    && (w.proc.Some? && w.proc.value.role == Coordinator ==> e in t.used)
    && (a.p in s.procs ==> s.procs[a.p].exec == e)
  }

  lemma UpdateFrame(s: State, a: Action, v: View)
    requires a.p in s.procs ==> s.procs[a.p].exec == ExecOf(s, a)
    requires ViewOf(Update(s, a.p, ExecOf(s, a), v), a.p, ExecOf(s, a)) == v
    ensures Frame(s, a, Update(s, a.p, ExecOf(s, a), v))
  {
  }

  lemma UpdateView(s: State, p: ProcId, e: ExecId, v: View)
    ensures ViewOf(Update(s, p, e, v), p, e) == v
  {
  }

  lemma ApplyFrame(s: State, a: Action)
    requires Enabled(s, a) && (a.p in s.procs ==> a.p in s.spawned)
    ensures var t := Apply(s, a);
      && Frame(s, a, t)
      && ViewOf(t, a.p, ExecOf(s, a)) == Next(ViewOf(s, a.p, ExecOf(s, a)), a)
  {
    var e := ExecOf(s, a);
    assert a.p in s.procs ==> s.procs[a.p].exec == e;
    var v := ViewOf(s, a.p, e);
    hide Ready, Next;
    UpdateView(s, a.p, e, Next(v, a));
    UpdateFrame(s, a, Next(v, a));
  }

  // ---------- One step ----------

  lemma ViewOfActor(s: State, a: Action)
    requires Base(s) && Enabled(s, a)
    ensures var v := ViewOf(s, a.p, ExecOf(s, a));
      && Ready(v, a)
      && (v.proc.Some? ==> a.p in s.procs && v == MyView(s, a.p) && BaseView(v, a.p))
      && (a.Spawn? ==> v.record.None?)
  {
  }

  // The facts about a step that the invariants need, with the machine itself hidden.
  ghost predicate Steps(s: State, a: Action, t: State)
  {
    Frame(s, a, t) && StepFacts(ViewOf(s, a.p, ExecOf(s, a)), a, ViewOf(t, a.p, ExecOf(s, a)))
  }

  lemma BaseSteps(s: State, a: Action)
    requires Base(s) && Enabled(s, a)
    ensures Steps(s, a, Apply(s, a))
    ensures a.Spawn? ==> a.exec !in s.used
  {
    ViewOfActor(s, a);
    var v := ViewOf(s, a.p, ExecOf(s, a));
    assert a.p in s.procs ==> BaseProc(s, a.p);
    assert a.Spawn? ==> a.exec !in s.used;
    hide Base, Enabled, Apply, Ready, Next, BaseView, Frame, StepFacts;
    ViewSteps(v, a);
    ApplyFrame(s, a);
  }

  // A process that does not move.
  lemma BystanderKept(s: State, a: Action, t: State, p: ProcId)
    requires Base(s) && Steps(s, a, t) && p in s.procs && p != a.p
    ensures p in t.procs && t.procs[p] == s.procs[p] && BaseProc(t, p)
  {
    var e := ExecOf(s, a);
    var u := MyView(s, p);
    var v := ViewOf(s, a.p, e);
    var w := ViewOf(t, a.p, e);
    assert BaseProc(s, p);
    assert Lookup(t.procs, p) == Lookup(s.procs, p);
    hide Disturbs, BaseView;
    if s.procs[p].exec == e {
      assert OwnExecution(s);
      NeighbourView(u, v, w, p, a);
      assert MyView(t, p) == u.(lock := w.lock, record := w.record, transition := w.transition, held := w.held);
    } else {
      assert MyView(t, p) == u.(lock := t.lock);
      LockIrrelevant(u, t.lock, p);
    }
  }

  lemma LockIrrelevant(u: View, lock: Option<LockFile>, p: ProcId)
    requires u.proc.Some? && BaseView(u, p)
    ensures BaseView(u.(lock := lock), p)
  {
  }

  lemma ActorKept(s: State, a: Action, t: State)
    requires Base(s) && Steps(s, a, t) && a.p in t.procs
    ensures BaseProc(t, a.p)
  {
    hide BaseView, Disturbs;
    if a.p in s.procs { assert BaseProc(s, a.p); }
  }

  // Where a coordinator of the new state was before the step, or that it is new.
  lemma CoordinatorBefore(s: State, a: Action, t: State, p: ProcId)
    requires Base(s) && Steps(s, a, t) && (a.Spawn? ==> a.exec !in s.used)
    requires p in t.procs && t.procs[p].role == Coordinator
    ensures if p in s.procs then s.procs[p].role == Coordinator && s.procs[p].exec == t.procs[p].exec
      && s.procs[p].exec in s.used
      else p == a.p && t.procs[p].exec !in s.used
  {
    if p in s.procs { assert BaseProc(s, p); }
    if p != a.p { StepsElsewhere(s, a, t, p); }
    hide Base, BaseView, Disturbs, CoordinatorView;
  }

  lemma OwnExecutionKept(s: State, a: Action, t: State)
    requires Base(s) && Steps(s, a, t) && (a.Spawn? ==> a.exec !in s.used)
    ensures OwnExecution(t)
  {
    assert OwnExecution(s);
    hide Base, Steps, OwnExecution;
    forall p, q | p in t.procs && q in t.procs && t.procs[p].role == Coordinator && t.procs[q].role == Coordinator
      && p != q
      ensures t.procs[p].exec != t.procs[q].exec
    {
      CoordinatorBefore(s, a, t, p);
      CoordinatorBefore(s, a, t, q);
      if p in s.procs && q in s.procs { OwnExecutions(s, p, q); }
    }
    AllOwnExecutions(t);
  }

  lemma OwnExecutions(s: State, p: ProcId, q: ProcId)
    requires OwnExecution(s) && p in s.procs && q in s.procs && p != q
    requires s.procs[p].role == Coordinator && s.procs[q].role == Coordinator
    ensures s.procs[p].exec != s.procs[q].exec
  {
  }

  lemma AllOwnExecutions(s: State)
    requires forall p, q ::
      && p in s.procs && q in s.procs && p != q
      && s.procs[p].role == Coordinator && s.procs[q].role == Coordinator
      ==> s.procs[p].exec != s.procs[q].exec
    ensures OwnExecution(s)
  {
  }

  lemma HistoriesKept(s: State, a: Action, t: State)
    requires Base(s) && Steps(s, a, t)
    ensures forall e :: e in t.records ==> e in t.used && t.records[e].owner in t.spawned
    ensures forall e :: e in t.held ==> e in t.used
    ensures forall e :: e in t.transitions ==> t.transitions[e] in t.spawned
    ensures RecordsEvolve(s, t)
  {
    var x := ExecOf(s, a);
    assert a.p in s.procs ==> BaseProc(s, a.p);
    assert x in t.records && x !in s.records ==> a.p in s.procs && s.procs[a.p].role == Coordinator;
    hide Disturbs;
    forall e | e in t.records ensures e in t.used && t.records[e].owner in t.spawned {
      if e != x { assert Lookup(t.records, e) == Lookup(s.records, e); }
    }
    forall e | e in t.transitions ensures t.transitions[e] in t.spawned {
      assert e != x ==> Lookup(t.transitions, e) == Lookup(s.transitions, e);
    }
    forall e | e in s.records ensures Evolves(Lookup(s.records, e), Lookup(t.records, e)) {
      if e != x { assert Lookup(t.records, e) == Lookup(s.records, e); }
    }
  }

  // Every step keeps the invariant and only finishes records.
  lemma BaseStep(s: State, a: Action)
    requires Base(s) && Enabled(s, a)
    ensures Base(Apply(s, a)) && RecordsEvolve(s, Apply(s, a))
  {
    BaseSteps(s, a);
    var t := Apply(s, a);
    hide Enabled, Apply, BaseProc, OwnExecution, Steps;
    forall p | p in t.procs ensures BaseProc(t, p) {
      if p == a.p { ActorKept(s, a, t); }
      else { assert p in s.procs by { StepsElsewhere(s, a, t, p); } BystanderKept(s, a, t, p); }
    }
    OwnExecutionKept(s, a, t);
    HistoriesKept(s, a, t);
  }

  lemma StepsElsewhere(s: State, a: Action, t: State, p: ProcId)
    requires Steps(s, a, t) && p != a.p
    ensures Lookup(t.procs, p) == Lookup(s.procs, p)
  {
  }

  // ---------- Runs ----------

  lemma {:induction false} RunKeepsBase(s0: State, actions: seq<Action>, t: State, policy: Policy)
    requires Base(s0) && Reaches(s0, actions, t, policy)
    ensures Base(t) && RecordsEvolve(s0, t)
  {
    if actions != [] {
      var n := |actions| - 1;
      var s :| Reaches(s0, actions[..n], s, policy) && Enabled(s, actions[n]) && t == Apply(s, actions[n]);
      hide Base, Enabled, Apply, RecordsEvolve, Follows;
      RunKeepsBase(s0, actions[..n], s, policy);
      BaseStep(s, actions[n]);
      EvolutionIsTransitive(s0, s, t);
    }
  }

  lemma EvolutionIsTransitive(r: State, s: State, t: State)
    requires RecordsEvolve(r, s) && RecordsEvolve(s, t)
    ensures RecordsEvolve(r, t)
  {
    forall e | e in r.records ensures Evolves(Lookup(r.records, e), Lookup(t.records, e)) {
      assert Evolves(Lookup(r.records, e), Lookup(s.records, e));
      assert Evolves(Lookup(s.records, e), Lookup(t.records, e));
    }
  }

  // From any point of any run on, a record keeps what it was begun with, becomes terminal
  // at most once, and never changes again.
  lemma RecordFinality(before: seq<Action>, s: State, after: seq<Action>, t: State, e: ExecId)
    requires Reaches(INITIAL, before, s, ANYHOW) && Reaches(s, after, t, ANYHOW)
    requires e in s.records
    ensures e in t.records && SameBeginning(s.records[e], t.records[e])
    ensures s.records[e].status != Running ==> t.records[e] == s.records[e]
    ensures t.records[e].status == Running ==> t.records[e] == s.records[e]
  {
    RunKeepsBase(INITIAL, before, s, ANYHOW);
    RunKeepsBase(s, after, t, ANYHOW);
    assert Evolves(Lookup(s.records, e), Lookup(t.records, e));
  }
}
