// Mutual exclusion: while releases of one execution do not overlap, one execution at most
// is between acquire and release, and the project lock names it.  A running record keeps
// its lock when, besides, no begin fails after its own rename (`timely`).
module ProtocolMutex {
  import opened Wrappers
  import opened Protocol
  import opened ProtocolSafety

  predicate Owning(pc: Pc)
  {
    pc.Acquired? || pc.BeginLocked? || pc.BeginChecked? || pc.BeginPublished? || pc.BeginCleanup? || pc.Working?
      || Finishing(pc)
    || Releasing(pc)
  }

  // A recovery that has found the coordinator absent.
  predicate Committed(pc: Pc) { pc.RecoverAudited? || Finishing(pc) || Releasing(pc) }

  predicate LockView(v: View, timely: bool)
    requires v.proc.Some?
  {
    var q := v.proc.value;
    if q.role == Coordinator then
      && (q.pc.Start? ==> !v.held)
      && (q.pc.LockCreated? ==> v.lock == Some(LockFile(q.exec, false)) && !v.held)
      && (q.pc.LockWritten? ==> v.lock == Some(LockFile(q.exec, true)) && !v.held)
      && (Owning(q.pc) ==> v.lock == Some(LockFile(q.exec, true)) && v.held)
      && (timely && q.pc.BeginCleanup? ==> v.record.None?)
      && (timely && Releasing(q.pc) && v.record.Some? ==> v.record.value.status != Running)
    else
      && (Releasing(q.pc) ==> v.record.Some? && v.record.value.status != Running)
      && (q.pc.ReleaseUnlink? ==> v.lock == Some(LockFile(q.exec, true)))
  }

  // An execution that is held has its lock in place; so has one whose record runs.
  predicate ExecLocked(v: View, e: ExecId, timely: bool)
  {
    v.held || (timely && v.record.Some? && v.record.value.status == Running) ==> v.lock == Some(LockFile(e, true))
  }

  // The lock is taken when free and otherwise changed only on behalf of its owner.
  predicate LockMoves(v: View, w: View, e: ExecId)
  {
    w.lock == v.lock || v.lock.None? || v.lock.value.owner == e
  }

  // Only the coordinator, or a recovery that compared and is about to unlink, touches the
  // lock or the history of an execution.
  predicate Quiet(v: View, w: View)
  {
    w.lock != v.lock || w.held != v.held ==>
      v.proc.Some? && (v.proc.value.role == Coordinator || v.proc.value.pc == ReleaseUnlink)
  }

  predicate CommittedView(v: View) { v.proc.Some? && v.proc.value.role == Recovery && Committed(v.proc.value.pc) }

  // The point where a recovery commits is the one where its coordinator is absent.
  predicate CommitsAfter(v: View, a: Action, w: View)
  {
    CommittedView(w) ==>
      && v.proc.Some? && v.proc.value.role == Recovery && v.record.Some?
      && (|| Committed(v.proc.value.pc)
          || (a.RecoverAbsent? && v.proc.value.pc.RecoverCheck? && v.proc.value.pc.seen.owner == v.record.value.owner))
  }

  // Whoever is about to unlink has just compared.
  predicate Compares(v: View, a: Action, w: View)
  {
    w.proc.Some? && w.proc.value.pc == ReleaseUnlink ==> a.LoadForRelease? && v.proc.Some?
  }

  predicate LockStepKeeps(v: View, a: Action, e: ExecId, timely: bool)
    requires Ready(v, a)
  {
    var w := Next(v, a);
    && (w.proc.Some? ==> LockView(w, timely))
    && ExecLocked(w, e, timely)
    && LockMoves(v, w, e)
    && Quiet(v, w)
    && Compares(v, a, w)
    && CommitsAfter(v, a, w)
  }

  predicate LockReady(v: View, a: Action, e: ExecId, timely: bool)
  {
    && Ready(v, a)
    && (timely ==> !a.FailAfterPublish?)
    && ExecLocked(v, e, timely)
    && (v.proc.Some? ==> v.proc.value.exec == e && BaseView(v, a.p) && LockView(v, timely))
  }

  lemma LifeKeepsLock(v: View, a: Action, e: ExecId, timely: bool)
    requires PhaseOf(a) == Life && LockReady(v, a, e, timely) && (a.Spawn? ==> !v.held)
    ensures LockStepKeeps(v, a, e, timely)
  {
    hide LockingReady, LockingNext, BeginReady, BeginNext, WorkReady, WorkNext;
    hide FinalReady, FinalNext, ReleaseReady, ReleaseNext, RecoverReady, RecoverNext;
  }

  lemma LockingKeepsLock(v: View, a: Action, e: ExecId, timely: bool)
    requires PhaseOf(a) == Locking && LockReady(v, a, e, timely) && (a.Spawn? ==> !v.held)
    ensures LockStepKeeps(v, a, e, timely)
  {
    hide LifeReady, LifeNext, BeginReady, BeginNext, WorkReady, WorkNext;
    hide FinalReady, FinalNext, ReleaseReady, ReleaseNext, RecoverReady, RecoverNext;
  }

  lemma BeginKeepsLock(v: View, a: Action, e: ExecId, timely: bool)
    requires PhaseOf(a) == Begin && LockReady(v, a, e, timely) && (a.Spawn? ==> !v.held)
    ensures LockStepKeeps(v, a, e, timely)
  {
    hide LifeReady, LifeNext, LockingReady, LockingNext, WorkReady, WorkNext;
    hide FinalReady, FinalNext, ReleaseReady, ReleaseNext, RecoverReady, RecoverNext;
  }

  lemma WorkKeepsLock(v: View, a: Action, e: ExecId, timely: bool)
    requires PhaseOf(a) == Work && LockReady(v, a, e, timely) && (a.Spawn? ==> !v.held)
    ensures LockStepKeeps(v, a, e, timely)
  {
    hide LifeReady, LifeNext, LockingReady, LockingNext, BeginReady, BeginNext;
    hide FinalReady, FinalNext, ReleaseReady, ReleaseNext, RecoverReady, RecoverNext;
  }

  lemma FinalKeepsLock(v: View, a: Action, e: ExecId, timely: bool)
    requires PhaseOf(a) == Final && LockReady(v, a, e, timely) && (a.Spawn? ==> !v.held)
    ensures LockStepKeeps(v, a, e, timely)
  {
    hide LifeReady, LifeNext, LockingReady, LockingNext, BeginReady, BeginNext;
    hide WorkReady, WorkNext, ReleaseReady, ReleaseNext, RecoverReady, RecoverNext;
  }

  lemma ReleaseKeepsLock(v: View, a: Action, e: ExecId, timely: bool)
    requires PhaseOf(a) == Release && LockReady(v, a, e, timely) && (a.Spawn? ==> !v.held)
    ensures LockStepKeeps(v, a, e, timely)
  {
    hide LifeReady, LifeNext, LockingReady, LockingNext, BeginReady, BeginNext;
    hide WorkReady, WorkNext, FinalReady, FinalNext, RecoverReady, RecoverNext;
  }

  lemma RecoverKeepsLock(v: View, a: Action, e: ExecId, timely: bool)
    requires PhaseOf(a) == Recover && LockReady(v, a, e, timely) && (a.Spawn? ==> !v.held)
    ensures LockStepKeeps(v, a, e, timely)
  {
    hide LifeReady, LifeNext, LockingReady, LockingNext, BeginReady, BeginNext;
    hide WorkReady, WorkNext, FinalReady, FinalNext, ReleaseReady, ReleaseNext;
  }

  lemma LockActor(v: View, a: Action, e: ExecId, timely: bool)
    requires LockReady(v, a, e, timely) && (a.Spawn? ==> !v.held)
    ensures LockStepKeeps(v, a, e, timely)
  {
    hide LockReady, LockStepKeeps;
    match PhaseOf(a)
    case Life => LifeKeepsLock(v, a, e, timely);
    case Locking => LockingKeepsLock(v, a, e, timely);
    case Begin => BeginKeepsLock(v, a, e, timely);
    case Work => WorkKeepsLock(v, a, e, timely);
    case Final => FinalKeepsLock(v, a, e, timely);
    case Release => ReleaseKeepsLock(v, a, e, timely);
    case Recover => RecoverKeepsLock(v, a, e, timely);
  }

  // ---------- The invariant ----------

  // One process of an execution at most is between comparing and unlinking.
  ghost predicate Solo(s: State)
  {
    forall p, q ::
      && p in s.procs && q in s.procs && p != q
      && s.procs[p].pc == ReleaseUnlink && s.procs[q].pc == ReleaseUnlink
      ==> s.procs[p].exec != s.procs[q].exec
  }

  ghost predicate OwnerGone(s: State, p: ProcId)
    requires p in s.procs
  {
    var q := s.procs[p];
    q.role == Recovery && Committed(q.pc) ==> q.exec in s.records && s.records[q.exec].owner !in s.procs
  }

  ghost predicate LockProc(s: State, p: ProcId, timely: bool)
    requires p in s.procs
  {
    LockView(MyView(s, p), timely) && OwnerGone(s, p)
  }

  ghost predicate Held(s: State, e: ExecId, timely: bool)
  {
    e in s.held || (timely && e in s.records && s.records[e].status == Running)
  }

  ghost predicate Locked(s: State, timely: bool)
  {
    && Base(s)
    && Solo(s)
    && (forall p :: p in s.procs ==> LockProc(s, p, timely))
    && (forall e :: Held(s, e, timely) ==> s.lock == Some(LockFile(e, true)))
  }

  ghost predicate LockedStep(s: State, a: Action, t: State, timely: bool)
  {
    && Steps(s, a, t)
    && var e := ExecOf(s, a);
    && var v := ViewOf(s, a.p, e);
    && var w := ViewOf(t, a.p, e);
    && (w.proc.Some? ==> LockView(w, timely))
    && ExecLocked(w, e, timely)
    && LockMoves(v, w, e)
    && Quiet(v, w)
    && Compares(v, a, w)
  }

  lemma LockReadyHere(s: State, a: Action, timely: bool)
    requires Locked(s, timely) && Enabled(s, a) && Follows(s, a, Policy(true, timely))
    ensures LockReady(ViewOf(s, a.p, ExecOf(s, a)), a, ExecOf(s, a), timely)
    ensures a.Spawn? ==> ExecOf(s, a) !in s.held
  {
    var e := ExecOf(s, a);
    var v := ViewOf(s, a.p, e);
    ViewOfActor(s, a);
    assert a.p in s.procs ==> LockProc(s, a.p, timely);
    assert ExecLocked(v, e, timely) by { assert Held(s, e, timely) ==> s.lock == Some(LockFile(e, true)); }
    assert a.Spawn? ==> e !in s.held;
    hide BaseView, LockView, Ready, BestSource, Base, ExecLocked, Enabled, Locked;
  }

  lemma LockedSteps(s: State, a: Action, timely: bool)
    requires Locked(s, timely) && Enabled(s, a) && Follows(s, a, Policy(true, timely))
    ensures LockedStep(s, a, Apply(s, a), timely)
  {
    var e := ExecOf(s, a);
    var v := ViewOf(s, a.p, e);
    LockReadyHere(s, a, timely);
    ApplyFrame(s, a) by { assert a.p in s.procs ==> BaseProc(s, a.p); }
    BaseSteps(s, a);
    hide BaseView, LockView, Next, Apply, Enabled, Locked, ExecLocked, Quiet, LockMoves, Steps, Ready;
    LockActor(v, a, e, timely);
  }

  // ---------- Processes that do not move ----------

  // Same execution: a recovery moves, or a coordinator moves while only recoveries look on.
  lemma LockNeighbour(u: View, v: View, w: View, p: ProcId, a: Action, e: ExecId, timely: bool)
    requires u.proc.Some? && u.proc.value.exec == e && BaseView(u, p) && LockView(u, timely)
    requires u.record == v.record && u.lock == v.lock && u.held == v.held
    requires Disturbs(v, w, a) && Quiet(v, w)
    requires v.proc.Some? ==> BaseView(v, a.p) && (u.proc.value.role == Coordinator ==> v.proc.value.role == Recovery)
    requires v.proc.Some? && v.proc.value.pc == ReleaseUnlink ==> u.proc.value.pc != ReleaseUnlink
    requires v.proc.Some? && v.proc.value.role == Recovery && Committed(v.proc.value.pc) ==>
      v.record.Some? && v.record.value.owner != p
    requires u.proc.value.role == Recovery && Committed(u.proc.value.pc) ==>
      u.record.Some? && u.record.value.owner != a.p
    ensures LockView(u.(lock := w.lock, record := w.record, transition := w.transition, held := w.held), timely)
  {
  }

  lemma LockElsewhere(u: View, w: View, e: ExecId, timely: bool)
    requires u.proc.Some? && u.proc.value.exec != e && LockView(u, timely)
    requires LockMoves(u, w, e)
    ensures LockView(u.(lock := w.lock), timely)
  {
  }

  lemma BystanderLocked(s: State, a: Action, t: State, p: ProcId, timely: bool)
    requires Locked(s, timely) && LockedStep(s, a, t, timely) && p in s.procs && p != a.p
    requires p in t.procs && t.procs[p] == s.procs[p]
    requires a.p !in s.procs ==> a.p !in s.spawned
    ensures LockProc(t, p, timely)
  {
    var e := ExecOf(s, a);
    var u := MyView(s, p);
    var v := ViewOf(s, a.p, e);
    var w := ViewOf(t, a.p, e);
    assert LockProc(s, p, timely) && BaseProc(s, p);
    assert a.p in s.procs ==> LockProc(s, a.p, timely) && BaseProc(s, a.p);
    OwnerStaysGone(s, a, t, p, timely);
    hide Disturbs, BaseView, LockView, ExecLocked, Quiet, LockMoves;
    if s.procs[p].exec == e {
      assert OwnExecution(s) && Solo(s);
      NeighbourOwners(s, a, p, timely);
      LockNeighbour(u, v, w, p, a, e, timely);
      assert MyView(t, p) == u.(lock := w.lock, record := w.record, transition := w.transition, held := w.held);
    } else {
      assert MyView(t, p) == u.(lock := w.lock);
      assert LockMoves(u, w, e) by { MovesAnywhere(u, v, w, e); }
      LockElsewhere(u, w, e, timely);
    }
  }

  lemma MovesAnywhere(u: View, v: View, w: View, e: ExecId)
    requires LockMoves(v, w, e) && u.lock == v.lock
    ensures LockMoves(u, w, e)
  {
  }

  lemma NeighbourOwners(s: State, a: Action, p: ProcId, timely: bool)
    requires Locked(s, timely) && p in s.procs && p != a.p && s.procs[p].exec == ExecOf(s, a)
    requires if a.p in s.procs then s.procs[a.p].exec == ExecOf(s, a) else a.p !in s.spawned
    ensures var r := Lookup(s.records, ExecOf(s, a));
      && (a.p in s.procs && s.procs[a.p].role == Recovery && Committed(s.procs[a.p].pc) ==>
        r.Some? && r.value.owner != p)
      && (s.procs[p].role == Recovery && Committed(s.procs[p].pc) ==> r.Some? && r.value.owner != a.p)
  {
    assert LockProc(s, p, timely);
    assert a.p in s.procs ==> LockProc(s, a.p, timely) && BaseProc(s, a.p);
    hide BaseProc, LockView;
  }

  // Process identifiers are fresh, so an absent coordinator never comes back.
  lemma OwnerStaysGone(s: State, a: Action, t: State, p: ProcId, timely: bool)
    requires Locked(s, timely) && Steps(s, a, t) && p in s.procs && p != a.p
    requires p in t.procs && t.procs[p] == s.procs[p]
    requires a.p !in s.procs ==> a.p !in s.spawned
    ensures OwnerGone(t, p)
  {
    var e := s.procs[p].exec;
    assert LockProc(s, p, timely) && BaseProc(s, p);
    if s.procs[p].role == Recovery && Committed(s.procs[p].pc) {
      OwnerKept(s, a, t, e);
      var o := s.records[e].owner;
      assert o !in t.procs by { StepsElsewhere(s, a, t, o); }
    }
  }

  lemma OwnerKept(s: State, a: Action, t: State, e: ExecId)
    requires Base(s) && Steps(s, a, t) && e in s.records
    ensures e in t.records && t.records[e].owner == s.records[e].owner && s.records[e].owner in s.spawned
  {
    HistoriesKept(s, a, t);
    assert Evolves(Lookup(s.records, e), Lookup(t.records, e));
  }

  // ---------- Every step ----------

  lemma ActorOwnerGone(s: State, a: Action, timely: bool)
    requires Locked(s, timely) && Enabled(s, a) && Follows(s, a, Policy(true, timely))
    requires CommittedView(Next(ViewOf(s, a.p, ExecOf(s, a)), a))
    ensures a.p in s.procs && ExecOf(s, a) in s.records && s.records[ExecOf(s, a)].owner !in s.procs
  {
    var v := ViewOf(s, a.p, ExecOf(s, a));
    ViewOfActor(s, a);
    LockReadyHere(s, a, timely);
    LockActor(v, a, ExecOf(s, a), timely);
    assert a.p in s.procs ==> LockProc(s, a.p, timely);
    hide Ready, Next, BaseView, LockView, LockMoves, Quiet, ExecLocked, BestSource;
  }

  lemma ActorLocked(s: State, a: Action, t: State, timely: bool)
    requires Base(s) && LockedStep(s, a, t, timely) && a.p in t.procs
    requires var e := ExecOf(s, a);
      CommittedView(ViewOf(t, a.p, e)) ==> a.p in s.procs && e in s.records && s.records[e].owner !in s.procs
    ensures LockProc(t, a.p, timely)
  {
    var e := ExecOf(s, a);
    assert t.procs[a.p].exec == e;
    assert MyView(t, a.p) == ViewOf(t, a.p, e);
    hide LockView, BaseView, Disturbs, Quiet, LockMoves, ExecLocked;
    if CommittedView(ViewOf(t, a.p, e)) {
      OwnerKept(s, a, t, e);
      var o := s.records[e].owner;
      StepsElsewhere(s, a, t, o);
    }
  }

  lemma SoloKept(s: State, a: Action, t: State, timely: bool)
    requires Solo(s) && LockedStep(s, a, t, timely) && Disjoint(s, a)
    ensures Solo(t)
  {
    hide BaseView, Disturbs, LockView, ExecLocked, LockMoves, Quiet;
    forall p, q | p in t.procs && q in t.procs && p != q && t.procs[p].pc == ReleaseUnlink
      && t.procs[q].pc == ReleaseUnlink
      ensures t.procs[p].exec != t.procs[q].exec
    {
      if p != a.p { StepsElsewhere(s, a, t, p); }
      if q != a.p { StepsElsewhere(s, a, t, q); }
    }
  }

  lemma HeldLocked(s: State, a: Action, t: State, e: ExecId, timely: bool)
    requires Locked(s, timely) && LockedStep(s, a, t, timely) && Held(t, e, timely)
    ensures t.lock == Some(LockFile(e, true))
  {
    var x := ExecOf(s, a);
    hide BaseView, LockView, Disturbs;
    if e != x {
      assert Lookup(t.records, e) == Lookup(s.records, e);
      assert e in t.held <==> e in s.held;
      assert Held(s, e, timely);
    }
  }

  lemma LockedStepKept(s: State, a: Action, timely: bool)
    requires Locked(s, timely) && Enabled(s, a) && Follows(s, a, Policy(true, timely))
    ensures Locked(Apply(s, a), timely)
  {
    var t := Apply(s, a);
    LockedSteps(s, a, timely);
    BaseStep(s, a);
    ApplyFrame(s, a);
    assert a.p !in s.procs ==> a.p !in s.spawned by { FreshActor(s, a); }
    if CommittedView(ViewOf(t, a.p, ExecOf(s, a))) { ActorOwnerGone(s, a, timely); }
    SoloKept(s, a, t, timely);
    assert Steps(s, a, t);
    hide *;
    forall p | p in t.procs ensures LockProc(t, p, timely) {
      if p == a.p {
        ActorLocked(s, a, t, timely);
      } else {
        StepsElsewhere(s, a, t, p);
        BystanderLocked(s, a, t, p, timely);
      }
    }
    forall e | Held(t, e, timely) ensures t.lock == Some(LockFile(e, true)) { HeldLocked(s, a, t, e, timely); }
    LockedFromParts(t, timely);
  }

  lemma LockedFromParts(t: State, timely: bool)
    requires Base(t) && Solo(t) && forall p :: p in t.procs ==> LockProc(t, p, timely)
    requires forall e :: Held(t, e, timely) ==> t.lock == Some(LockFile(e, true))
    ensures Locked(t, timely)
  {
    hide Base, Solo, LockProc, Held;
  }

  lemma FreshActor(s: State, a: Action)
    requires Enabled(s, a)
    ensures a.p !in s.procs ==> a.p !in s.spawned
  {
    hide BestSource;
  }

  // ---------- Runs ----------

  lemma {:induction false} RunKeepsLocked(s0: State, actions: seq<Action>, t: State, policy: Policy)
    requires Locked(s0, policy.timely) && policy.disjoint && Reaches(s0, actions, t, policy)
    ensures Locked(t, policy.timely)
  {
    if actions != [] {
      var n := |actions| - 1;
      var s :| Reaches(s0, actions[..n], s, policy) && Enabled(s, actions[n]) && Follows(s, actions[n], policy)
        && t == Apply(s, actions[n]);
      hide Locked, Enabled, Apply, Follows;
      RunKeepsLocked(s0, actions[..n], s, policy);
      assert policy == Policy(true, policy.timely);
      LockedStepKept(s, actions[n], policy.timely);
    }
  }

  lemma RunIsLocked(actions: seq<Action>, t: State, policy: Policy)
    requires policy.disjoint && Reaches(INITIAL, actions, t, policy)
    ensures Locked(t, policy.timely)
  {
    InitiallyLocked(policy.timely);
    hide Locked, Reaches;
    RunKeepsLocked(INITIAL, actions, t, policy);
  }

  lemma InitiallyLocked(timely: bool)
    ensures Locked(INITIAL, timely)
  {
  }

  // While releases of one execution do not overlap, one execution at most is between
  // acquire and release, and the lock names it.
  lemma MutualExclusion(actions: seq<Action>, t: State, d: ExecId, e: ExecId)
    requires Reaches(INITIAL, actions, t, DISJOINT)
    ensures d in t.held && e in t.held ==> d == e
    ensures e in t.held ==> t.lock == Some(LockFile(e, true))
    ensures forall p :: p in t.procs && t.procs[p].role == Coordinator && Owning(t.procs[p].pc) ==>
      t.procs[p].exec in t.held
  {
    RunIsLocked(actions, t, DISJOINT);
    hide Reaches;
    assert Held(t, d, false) <==> d in t.held;
    assert Held(t, e, false) <==> e in t.held;
    forall p | p in t.procs && t.procs[p].role == Coordinator && Owning(t.procs[p].pc)
      ensures t.procs[p].exec in t.held {
      assert LockProc(t, p, false);
    }
  }

  predicate Runs(s: State, e: ExecId) { e in s.records && s.records[e].status == Running }

  // When, besides, no begin fails after its own rename, a running record keeps its lock.
  lemma RunningKeepsLock(actions: seq<Action>, t: State, e: ExecId)
    requires Reaches(INITIAL, actions, t, SOUND)
    ensures Runs(t, e) ==> t.lock == Some(LockFile(e, true))
  {
    RunIsLocked(actions, t, SOUND);
    hide Reaches;
    assert Runs(t, e) ==> Held(t, e, true);
  }

  lemma OnlyReleaseUnlinks(v: View, a: Action, o: ExecId, timely: bool)
    requires Ready(v, a) && (v.proc.Some? ==> BaseView(v, a.p) && LockView(v, timely))
    requires v.lock == Some(LockFile(o, true)) && Next(v, a).lock != v.lock
    requires v.proc.Some? && v.proc.value.exec == o ==> v.held
    ensures a.UnlinkLock? && v.proc.value.exec == o
    ensures v.record.Some? && (timely || v.proc.value.role == Recovery) ==> v.record.value.status != Running
    ensures v.proc.value.role == Recovery ==> Committed(v.proc.value.pc)
  {
    ChangesLock(v, a);
    hide Ready, Next, BaseView;
  }

  // The steps that change the lock file, and where they are taken.
  lemma ChangesLock(v: View, a: Action)
    requires Ready(v, a) && Next(v, a).lock != v.lock
    ensures v.proc.Some?
    ensures match v.proc.value.pc
      case Start => v.lock.None?
      case LockCreated => true
      case LockWritten => true
      case ReleaseUnlink => a.UnlinkLock?
      case _ => false
  {
  }

  // While releases of one execution do not overlap, the only step that removes a held
  // execution's lock is its own release; a recovery takes it only with the record terminal
  // and the coordinator absent; and when no begin fails late nobody takes it from a
  // running record.
  lemma ReleaseIsFinal(actions: seq<Action>, s: State, a: Action, policy: Policy)
    requires policy.disjoint && Reaches(INITIAL, actions, s, policy) && Enabled(s, a)
    requires s.lock.Some? && s.lock.value.owner in s.held && Apply(s, a).lock != s.lock
    ensures var o := s.lock.value.owner;
      && a.UnlinkLock? && a.p in s.procs && s.procs[a.p].exec == o
      && (s.procs[a.p].role == Recovery ==> o in s.records && s.records[o].owner !in s.procs && !Runs(s, o))
      && (policy.timely ==> !Runs(s, o))
  {
    var o := s.lock.value.owner;
    var v := ViewOf(s, a.p, ExecOf(s, a));
    RunIsLocked(actions, s, policy);
    assert Held(s, o, policy.timely);
    ViewOfActor(s, a);
    if a.p in s.procs { assert LockProc(s, a.p, policy.timely); }
    hide Ready, Next, BaseView, LockView, Base, Reaches;
    OnlyReleaseUnlinks(v, a, o, policy.timely);
  }
}
