// Where the protocol's guarantees end: what an overlap of two releases, a begin that fails
// after its rename, and a transition lock left behind lead to from any state.
module ProtocolLimits {
  import opened Wrappers
  import opened Protocol
  import opened ProtocolSafety
  import opened ProtocolMutex
  import opened ProtocolSteps

  // Fresh identifiers never run out.
  lemma FreshIdentifier(taken: set<nat>) returns (n: nat)
    ensures n !in taken && forall m :: m in taken ==> m < n
  {
    if taken == {} {
      n := 0;
    } else {
      var x :| x in taken;
      var m := FreshIdentifier(taken - {x});
      n := if x < m then m else x + 1;
      forall y | y in taken ensures y < n { assert y == x || y in taken - {x}; }
    }
  }

  // ---------- Two releases of one execution that overlap ----------

  predicate Unlinking(s: State, p: ProcId) { p in s.procs && s.procs[p].pc == ReleaseUnlink }

  // A new build takes the lock that an unlink has just freed.
  lemma Slips(r: State, s: State, p: ProcId, policy: Policy) returns (t: State, b: ProcId, e: ExecId)
    requires CanReach(r, s, policy) && Base(s) && Unlinking(s, p)
    ensures CanReach(r, t, policy)
    ensures b !in s.spawned && e !in s.used && e !in s.transitions
    ensures t == s.(
      lock := Some(LockFile(e, true)),
      procs := (s.procs - {p})[b := Builder(e, Acquired)],
      spawned := s.spawned + {b},
      used := s.used + {e},
      held := s.held - {s.procs[p].exec} + {e})
  {
    assert BaseProc(s, p);
    assert s.procs.Keys <= s.spawned by { ProcsAreSpawned(s); }
    var s1 := Unlinks(r, s, p, policy);
    b := FreshIdentifier(s.spawned);
    e := FreshIdentifier(s.used + s.transitions.Keys);
    assert e !in s.held;
    hide Base, CanReach;
    t := Acquires(r, s1, b, e, policy);
  }

  lemma ProcsAreSpawned(s: State)
    requires Base(s)
    ensures s.procs.Keys <= s.spawned
  {
    forall p | p in s.procs ensures p in s.spawned { assert BaseProc(s, p); }
  }

  // Then the second unlink frees the new build's lock.
  lemma SlipsTwice(r: State, s: State, p: ProcId, q: ProcId, policy: Policy) returns (t: State, b: ProcId, d: ExecId)
    requires CanReach(r, s, policy) && Base(s) && Unlinking(s, p) && Unlinking(s, q) && p != q
      && s.procs[p].exec == s.procs[q].exec
    ensures CanReach(r, t, policy) && t.lock.None? && d in t.held && d in t.used && b in t.spawned
    ensures t.procs.Keys <= t.spawned && t.held <= t.used
  {
    assert BaseProc(s, q) && BaseProc(s, p);
    ProcsAreSpawned(s);
    assert s.held <= s.used;
    t, b, d := Slips(r, s, p, policy);
    hide Base, BaseProc, CanReach;
    t := Unlinks(r, t, q, policy);
  }

  // From any state with two releases of one execution between compare and unlink, two
  // executions can come to be held.
  lemma OverlapLosesExclusion(s: State, p: ProcId, q: ProcId, policy: Policy) returns (t: State, d: ExecId, e: ExecId)
    requires Base(s) && Unlinking(s, p) && Unlinking(s, q) && p != q && s.procs[p].exec == s.procs[q].exec
    ensures CanReach(s, t, policy) && d in t.held && e in t.held && d != e
  {
    StaysPut(s, policy);
    hide Base, CanReach;
    var b: ProcId;
    t, b, d := SlipsTwice(s, s, p, q, policy);
    var c := FreshIdentifier(t.spawned);
    e := FreshIdentifier(t.used);
    t := Acquires(s, t, c, e, policy);
  }

  // And a running record can come to lose its lock.
  lemma OverlapLosesLock(s: State, p: ProcId, q: ProcId, policy: Policy) returns (t: State, e: ExecId)
    requires Base(s) && Unlinking(s, p) && Unlinking(s, q) && p != q && s.procs[p].exec == s.procs[q].exec
    ensures CanReach(s, t, policy) && Runs(t, e) && t.lock.None?
  {
    StaysPut(s, policy);
    assert BaseProc(s, q);
    assert forall x :: x in s.records ==> x in s.used;
    hide Base, BaseProc, CanReach;
    var b: ProcId;
    t, b, e := Slips(s, s, p, policy);
    t := Begins(s, t, b, e, policy);
    t := Unlinks(s, t, q, policy);
  }

  // No continuation that keeps releases apart ever holds two executions.
  ghost predicate AlwaysApart(u: State)
  {
    forall after, t, d, e :: Reaches(u, after, t, DISJOINT) && d in t.held && e in t.held ==> d == e
  }

  // While releases have not overlapped, the next step keeps them apart exactly when no
  // continuation that keeps them apart ever holds two executions.
  lemma ExclusionExactly(before: seq<Action>, s: State, a: Action)
    requires Reaches(INITIAL, before, s, DISJOINT) && Enabled(s, a)
    ensures Disjoint(s, a) <==> AlwaysApart(Apply(s, a))
  {
    RunIsLocked(before, s, DISJOINT);
    hide *;
    if Disjoint(s, a) {
      ApartFromHere(s, a);
    } else {
      LosesExclusion(s, a);
    }
  }

  lemma ApartFromHere(s: State, a: Action)
    requires Locked(s, DISJOINT.timely) && Enabled(s, a) && Disjoint(s, a)
    ensures AlwaysApart(Apply(s, a))
  {
    var u := Apply(s, a);
    LockedStepKept(s, a, false);
    hide Reaches, Enabled, Apply, Disjoint, Locked;
    forall after, t, d, e | Reaches(u, after, t, DISJOINT) && d in t.held && e in t.held ensures d == e {
      RunKeepsLocked(u, after, t, DISJOINT);
      OneHeld(t, d, e, false);
    }
  }

  lemma OneHeld(t: State, d: ExecId, e: ExecId, timely: bool)
    requires Locked(t, timely) && Held(t, d, timely) && Held(t, e, timely)
    ensures d == e && t.lock == Some(LockFile(e, true))
  {
    hide Base, Solo, LockProc;
  }

  lemma LosesExclusion(s: State, a: Action)
    requires Locked(s, DISJOINT.timely) && Enabled(s, a) && !Disjoint(s, a)
    ensures !AlwaysApart(Apply(s, a))
  {
    var u := Apply(s, a);
    var q := Overlaps(s, a, false);
    BaseStep(s, a);
    hide Base, Enabled, Apply, Locked, Disjoint, Reaches;
    var t, d, e := OverlapLosesExclusion(u, a.p, q, DISJOINT);
    var after :| Reaches(u, after, t, DISJOINT);
  }

  // A compare that overlaps another release passes it.
  lemma Overlaps(s: State, a: Action, timely: bool) returns (q: ProcId)
    requires Locked(s, timely) && Enabled(s, a) && !Disjoint(s, a)
    ensures var u := Apply(s, a);
      Unlinking(u, a.p) && Unlinking(u, q) && q != a.p && u.procs[q].exec == u.procs[a.p].exec
  {
    q := Overlapping(s, a, timely);
    hide Locked, BaseProc;
    ApplyFrame(s, a);
    var v := ViewOf(s, a.p, ExecOf(s, a));
    ComparePasses(v, a) by { hide Ready, Next, Apply, Frame; }
    hide Enabled, Apply, Ready, Next, Disjoint;
    assert Lookup(Apply(s, a).procs, q) == Lookup(s.procs, q);
    assert Lookup(Apply(s, a).procs, a.p) == Next(v, a).proc;
  }

  // The other release, which has just compared.
  lemma Overlapping(s: State, a: Action, timely: bool) returns (q: ProcId)
    requires Locked(s, timely) && !Disjoint(s, a)
    ensures a.LoadForRelease? && a.p in s.procs && a.p in s.spawned && q in s.procs && q != a.p
    ensures s.procs[q].exec == s.procs[a.p].exec && s.procs[q].pc == ReleaseUnlink
    ensures s.lock == Some(LockFile(s.procs[q].exec, true))
  {
    q :| q in s.procs && q != a.p && s.procs[q].exec == s.procs[a.p].exec && s.procs[q].pc == ReleaseUnlink;
    assert LockProc(s, q, timely) && BaseProc(s, a.p);
    hide BaseView, Solo, Base;
  }

  lemma ComparePasses(v: View, a: Action)
    requires Ready(v, a) && a.LoadForRelease? && v.lock == Some(LockFile(v.proc.value.exec, true))
    ensures Next(v, a).proc == Some(v.proc.value.(pc := ReleaseUnlink))
  {
  }

  // ---------- A begin that fails after its rename ----------

  // It cleans up and releases the lock, and its record still runs.
  lemma LateLosesLock(r: State, s: State, p: ProcId, policy: Policy) returns (t: State)
    requires CanReach(r, s, policy) && Base(s) && p in s.procs && s.procs[p].role == Coordinator
      && s.procs[p].pc == BeginCleanup
    requires s.lock == Some(LockFile(s.procs[p].exec, true)) && Runs(s, s.procs[p].exec)
    requires forall q :: q in s.procs && q != p && s.procs[q].exec == s.procs[p].exec ==> s.procs[q].pc != ReleaseUnlink
    ensures CanReach(r, t, policy) && Runs(t, s.procs[p].exec) && t.lock.None?
  {
    assert BaseProc(s, p);
    hide Base, BaseProc, CanReach;
    t := CleansUp(r, s, p, policy);
    t := PassesCompare(r, t, p, policy);
    t := Unlinks(r, t, p, policy);
  }

  // No continuation that keeps to both ever leaves a running record without its lock.
  ghost predicate AlwaysLocked(u: State)
  {
    forall after, t, e :: Reaches(u, after, t, SOUND) && Runs(t, e) ==> t.lock == Some(LockFile(e, true))
  }

  // While releases have not overlapped and no begin has failed late, the next step keeps to
  // both exactly when no continuation that keeps to both ever leaves a running record
  // without its lock.
  lemma RunningKeepsLockExactly(before: seq<Action>, s: State, a: Action)
    requires Reaches(INITIAL, before, s, SOUND) && Enabled(s, a)
    ensures Follows(s, a, SOUND) <==> AlwaysLocked(Apply(s, a))
  {
    RunIsLocked(before, s, SOUND);
    hide *;
    if Follows(s, a, SOUND) {
      LockFromHere(s, a);
    } else {
      LosesLock(s, a);
    }
  }

  lemma LockFromHere(s: State, a: Action)
    requires Locked(s, SOUND.timely) && Enabled(s, a) && Follows(s, a, SOUND)
    ensures AlwaysLocked(Apply(s, a))
  {
    var u := Apply(s, a);
    LockedStepKept(s, a, true);
    hide Reaches, Enabled, Apply, Follows, Locked;
    forall after, t, e | Reaches(u, after, t, SOUND) && Runs(t, e) ensures t.lock == Some(LockFile(e, true)) {
      RunKeepsLocked(u, after, t, SOUND);
      OneHeld(t, e, e, true);
    }
  }

  lemma Unlocked(u: State, t: State, e: ExecId)
    requires CanReach(u, t, SOUND) && Runs(t, e) && t.lock.None?
    ensures !AlwaysLocked(u)
  {
    hide Reaches;
    var after :| Reaches(u, after, t, SOUND);
  }

  lemma LosesLock(s: State, a: Action)
    requires Locked(s, SOUND.timely) && Enabled(s, a) && !Follows(s, a, SOUND)
    ensures !AlwaysLocked(Apply(s, a))
  {
    var u := Apply(s, a);
    BaseStep(s, a);
    if !Disjoint(s, a) {
      var q := Overlaps(s, a, true);
      hide *;
      var t, e := OverlapLosesLock(u, a.p, q, SOUND);
      Unlocked(u, t, e);
    } else {
      FailsWithLock(s, a);
      hide *;
      StaysPut(u, SOUND);
      var t := LateLosesLock(u, u, a.p, SOUND);
      Unlocked(u, t, u.procs[a.p].exec);
    }
  }

  // Right after the failure the record runs, the lock stands, and nobody else is about to
  // unlink it, since the coordinator is alive.
  lemma FailsWithLock(s: State, a: Action)
    requires Locked(s, true) && Enabled(s, a) && a.FailAfterPublish?
    ensures var u := Apply(s, a);
      && a.p in u.procs && u.procs[a.p].role == Coordinator && u.procs[a.p].pc == BeginCleanup
      && u.lock == Some(LockFile(u.procs[a.p].exec, true)) && Runs(u, u.procs[a.p].exec)
      && forall q :: q in u.procs && q != a.p && u.procs[q].exec == u.procs[a.p].exec ==> u.procs[q].pc != ReleaseUnlink
  {
    var u := Apply(s, a);
    var e := s.procs[a.p].exec;
    assert BaseProc(s, a.p) && LockProc(s, a.p, true);
    ApplyFrame(s, a);
    assert Lookup(u.procs, a.p) == Next(ViewOf(s, a.p, e), a).proc;
    assert Lookup(u.records, e) == Lookup(s.records, e);
    forall q | q in u.procs && q != a.p && u.procs[q].exec == e ensures u.procs[q].pc != ReleaseUnlink {
      assert Lookup(u.procs, q) == Lookup(s.procs, q);
      assert BaseProc(s, q) && LockProc(s, q, true) && OwnExecution(s);
    }
  }

  // ---------- A transition lock left behind ----------

  predicate Holds(s: State, p: ProcId, e: ExecId)
  {
    p in s.procs && s.procs[p].exec == e && InTransition(s.procs[p].pc)
  }

  // The record runs, and whoever took its transition lock has left it behind.
  predicate Stranded(s: State, e: ExecId)
  {
    Runs(s, e) && e in s.transitions && !Holds(s, s.transitions[e], e)
  }

  // The steps that leave a transition and not its lock.
  predicate Abandons(a: Action) { a.Stop? || ((a.CloseBegin? || a.CleanBegin?) && !a.unlinked) }

  predicate RunningView(v: View) { v.record.Some? && v.record.value.status == Running }

  predicate HoldsView(v: View) { v.proc.Some? && InTransition(v.proc.value.pc) }

  predicate StrandedView(v: View, p: ProcId) { RunningView(v) && v.transition == Some(p) && !HoldsView(v) }

  // What a step makes of its process's own transition lock, or of a free one: the record is
  // stranded exactly when it was, or when the process leaves the transition and not the lock.
  predicate StrandFacts(v: View, a: Action, w: View)
  {
    && (StrandedView(w, a.p) <==> StrandedView(v, a.p) || (RunningView(v) && HoldsView(v) && Abandons(a)))
    && (StrandedView(v, a.p) ==> w.record == v.record)
  }

  predicate CanStrand(v: View, a: Action)
  {
    && Ready(v, a) && (v.proc.Some? ==> BaseView(v, a.p))
    && (v.transition == Some(a.p) || v.transition.None?)
    && (v.transition == Some(a.p) && v.proc.None? ==> !a.Spawn? && !a.SpawnRecovery?)
  }

  lemma LifeStrands(v: View, a: Action)
    requires PhaseOf(a) == Life && CanStrand(v, a)
    ensures StrandFacts(v, a, Next(v, a))
  {
    hide LockingReady, LockingNext, BeginReady, BeginNext, WorkReady, WorkNext;
    hide FinalReady, FinalNext, ReleaseReady, ReleaseNext, RecoverReady, RecoverNext;
  }

  lemma BeginStrands(v: View, a: Action)
    requires PhaseOf(a) == Begin && CanStrand(v, a)
    ensures StrandFacts(v, a, Next(v, a))
  {
    hide LifeReady, LifeNext, LockingReady, LockingNext, WorkReady, WorkNext;
    hide FinalReady, FinalNext, ReleaseReady, ReleaseNext, RecoverReady, RecoverNext;
  }

  lemma FinalStrands(v: View, a: Action)
    requires PhaseOf(a) == Final && CanStrand(v, a)
    ensures StrandFacts(v, a, Next(v, a))
  {
    hide LifeReady, LifeNext, LockingReady, LockingNext, BeginReady, BeginNext;
    hide WorkReady, WorkNext, ReleaseReady, ReleaseNext, RecoverReady, RecoverNext;
  }

  // The other steps are outside any transition.
  lemma OutsideStrands(v: View, a: Action)
    requires PhaseOf(a) != Life && PhaseOf(a) != Begin && PhaseOf(a) != Final && CanStrand(v, a)
    ensures StrandFacts(v, a, Next(v, a))
  {
    hide LifeReady, LifeNext, BeginReady, BeginNext, FinalReady, FinalNext;
    hide BaseView;
  }

  lemma StrandsView(v: View, a: Action)
    requires CanStrand(v, a)
    ensures StrandFacts(v, a, Next(v, a))
  {
    hide Ready, Next, BaseView, StrandFacts;
    match PhaseOf(a)
    case Life => LifeStrands(v, a);
    case Begin => BeginStrands(v, a);
    case Final => FinalStrands(v, a);
    case _ => OutsideStrands(v, a);
  }

  // A step strands a running record exactly when its process leaves the transition and
  // not the lock; and once stranded a record stays so, unchanged.
  lemma StrandsExactly(s: State, a: Action, e: ExecId)
    requires Base(s) && Enabled(s, a)
    ensures Stranded(Apply(s, a), e) <==> Stranded(s, e) || (Runs(s, e) && Holds(s, a.p, e) && Abandons(a))
    ensures Stranded(s, e) ==> Apply(s, a).records[e] == s.records[e]
  {
    var t := Apply(s, a);
    var x := ExecOf(s, a);
    var v := ViewOf(s, a.p, x);
    ViewOfActor(s, a);
    FreshActor(s, a);
    BaseSteps(s, a);
    ApplyFrame(s, a) by { assert a.p in s.procs ==> BaseProc(s, a.p); }
    assert e in s.transitions ==> s.transitions[e] in s.spawned;
    hide *;
    if e != x { StrandsNot(s, a, t, e); }
    else if v.transition.Some? && v.transition != Some(a.p) { StrandsOther(s, a, t); }
    else { StrandsView(v, a) by { CanStrandHere(s, a); } StrandsOwn(s, a, t); }
  }

  // A step on another execution.
  lemma StrandsNot(s: State, a: Action, t: State, e: ExecId)
    requires Steps(s, a, t) && e != ExecOf(s, a)
    ensures Stranded(t, e) <==> Stranded(s, e)
    ensures !Holds(s, a.p, e) && (Stranded(s, e) ==> t.records[e] == s.records[e])
  {
    assert Lookup(t.records, e) == Lookup(s.records, e) && Lookup(t.transitions, e) == Lookup(s.transitions, e);
    assert a.p in t.procs ==> t.procs[a.p].exec == ExecOf(s, a);
    if e in s.transitions && s.transitions[e] != a.p { StepsElsewhere(s, a, t, s.transitions[e]); }
    hide BaseView, Disturbs, InTransition, Evolves;
  }

  // A step of a process that did not take the transition lock.
  lemma StrandsOther(s: State, a: Action, t: State)
    requires Steps(s, a, t) && (a.p in s.procs ==> BaseProc(s, a.p))
    requires ExecOf(s, a) in s.transitions && s.transitions[ExecOf(s, a)] != a.p
    ensures Stranded(t, ExecOf(s, a)) <==> Stranded(s, ExecOf(s, a))
    ensures !Holds(s, a.p, ExecOf(s, a))
    ensures Stranded(s, ExecOf(s, a)) ==> t.records[ExecOf(s, a)] == s.records[ExecOf(s, a)]
  {
    var e := ExecOf(s, a);
    assert ViewOf(t, a.p, e).record == ViewOf(s, a.p, e).record
      && ViewOf(t, a.p, e).transition == ViewOf(s, a.p, e).transition;
    assert Lookup(t.transitions, e) == Lookup(s.transitions, e) && Lookup(t.records, e) == Lookup(s.records, e);
    StepsElsewhere(s, a, t, s.transitions[e]);
    hide CoordinatorView, RecoveryView, Steps;
  }

  // A step of the process that took it, or that finds it free.
  lemma StrandsOwn(s: State, a: Action, t: State)
    requires Steps(s, a, t) && Lookup(s.transitions, ExecOf(s, a)) in {None, Some(a.p)}
    requires StrandFacts(ViewOf(s, a.p, ExecOf(s, a)), a, ViewOf(t, a.p, ExecOf(s, a)))
    ensures var e := ExecOf(s, a);
      && (Stranded(t, e) <==> Stranded(s, e) || (Runs(s, e) && Holds(s, a.p, e) && Abandons(a)))
      && (Stranded(s, e) ==> t.records[e] == s.records[e])
  {
    hide BaseView, Disturbs, InTransition, Evolves, Abandons;
  }

  lemma CanStrandHere(s: State, a: Action)
    requires Base(s) && Enabled(s, a) && Lookup(s.transitions, ExecOf(s, a)) in {None, Some(a.p)}
    ensures CanStrand(ViewOf(s, a.p, ExecOf(s, a)), a)
  {
    ViewOfActor(s, a);
    FreshActor(s, a);
    hide BaseView, Ready;
  }

  lemma CanLeave(s: State, p: ProcId)
    requires p in s.procs
    ensures Enabled(s, Stop(p)) && (s.procs[p].pc == BeginPublished ==> Enabled(s, CloseBegin(p, false)))
  {
  }

  // From then on the record runs forever: no recovery ever finalises it.
  lemma {:induction false} StrandedForever(before: seq<Action>, s: State, after: seq<Action>, t: State, e: ExecId)
    requires Reaches(INITIAL, before, s, ANYHOW) && Stranded(s, e) && Reaches(s, after, t, ANYHOW)
    ensures Stranded(t, e) && t.records[e] == s.records[e]
  {
    if after != [] {
      var n := |after| - 1;
      var m :| Reaches(s, after[..n], m, ANYHOW) && Enabled(m, after[n]) && t == Apply(m, after[n]);
      RunKeepsBase(INITIAL, before, s, ANYHOW);
      RunKeepsBase(s, after[..n], m, ANYHOW);
      hide Base, Enabled, Apply, Stranded, Follows;
      StrandedForever(before, s, after[..n], m, e);
      StrandsExactly(m, after[n], e);
      assert Runs(m, e) by { StrandedRuns(m, e); }
    }
  }

  lemma StrandedRuns(s: State, e: ExecId)
    requires Stranded(s, e)
    ensures Runs(s, e)
  {
  }

  // And in every sound run its lock stays too, so no other execution is ever held.
  lemma StrandedBlocksEveryone(before: seq<Action>, s: State, after: seq<Action>, t: State, e: ExecId)
    requires Reaches(INITIAL, before, s, SOUND) && Stranded(s, e) && Reaches(s, after, t, SOUND)
    ensures t.lock == Some(LockFile(e, true)) && forall d :: d in t.held ==> d == e
  {
    AnyPolicy(INITIAL, before, s, SOUND);
    AnyPolicy(s, after, t, SOUND);
    StrandedForever(before, s, after, t, e);
    StrandedRuns(t, e);
    RunIsLocked(before, s, SOUND);
    RunKeepsLocked(s, after, t, SOUND);
    hide Reaches, Base, Stranded;
    assert Held(t, e, true);
    forall d | d in t.held ensures d == e { assert Held(t, d, true); }
  }

  // Any process inside a transition of a running record can stop there, and a coordinator
  // that has begun its record can go on with the lock left behind.
  lemma TransitionsCanStrand(before: seq<Action>, s: State, p: ProcId)
    requires Reaches(INITIAL, before, s, ANYHOW) && p in s.procs && InTransition(s.procs[p].pc)
      && Runs(s, s.procs[p].exec)
    ensures Enabled(s, Stop(p)) && Stranded(Apply(s, Stop(p)), s.procs[p].exec)
    ensures s.procs[p].pc == BeginPublished ==>
      Enabled(s, CloseBegin(p, false)) && Stranded(Apply(s, CloseBegin(p, false)), s.procs[p].exec)
  {
    RunKeepsBase(INITIAL, before, s, ANYHOW);
    CanLeave(s, p);
    hide Base, Enabled, Apply, InTransition, Reaches, Stranded;
    StrandsExactly(s, Stop(p), s.procs[p].exec);
    if s.procs[p].pc == BeginPublished { StrandsExactly(s, CloseBegin(p, false), s.procs[p].exec); }
  }

  // ---------- Concrete runs ----------

  // Two recoveries of one terminal execution: the second unlinks the lock a later build
  // has taken meanwhile, and then two executions are held at once.
  lemma TwoRecoveriesBreakExclusion() returns (t: State)
    ensures CanReach(INITIAL, t, Policy(false, true))
    ensures 1 in t.held && 2 in t.held
    ensures 3 in t.procs && t.procs[3] == Builder(1, Acquired)
    ensures 4 in t.procs && t.procs[4] == Builder(2, Acquired)
  {
    var timely := Policy(false, true);
    Initially(timely);
    hide CanReach, Reaches;
    var s := Acquires(INITIAL, INITIAL, 0, 0, timely);
    s := Begins(INITIAL, s, 0, 0, timely);
    s := CompletesAndStops(INITIAL, s, 0, 0, timely);
    s := Audits(INITIAL, s, 1, 0, timely);
    s := Audits(INITIAL, s, 2, 0, timely);
    s := Unlinks(INITIAL, s, 1, timely);
    s := Acquires(INITIAL, s, 3, 1, timely);
    s := Unlinks(INITIAL, s, 2, timely);
    t := Acquires(INITIAL, s, 4, 2, timely);
  }

  // A build whose begin fails after its rename: the lock is released, the record runs.
  lemma LateBeginFailureLeavesRunning() returns (t: State)
    ensures CanReach(INITIAL, t, DISJOINT) && Runs(t, 0) && t.lock.None?
  {
    Initially(DISJOINT);
    hide CanReach, Reaches;
    var s := Acquires(INITIAL, INITIAL, 0, 0, DISJOINT);
    s := Begins(INITIAL, s, 0, 0, DISJOINT);
    s := FailsPublished(INITIAL, s, 0, DISJOINT);
    ReachedBase(s, DISJOINT);
    hide Base;
    t := LateLosesLock(INITIAL, s, 0, DISJOINT);
  }

  lemma ReachedBase(s: State, policy: Policy)
    requires CanReach(INITIAL, s, policy)
    ensures Base(s)
  {
    var actions :| Reaches(INITIAL, actions, s, policy);
    RunKeepsBase(INITIAL, actions, s, policy);
  }
}
