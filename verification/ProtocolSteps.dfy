// Stretches of runs, with the states they lead to written out.
module ProtocolSteps {
  import opened Wrappers
  import opened Protocol

  const ANY := Identity(0, 0, 0, 0)

  // The state after a step, naming only what the step changed.
  function Changed(s: State, p: ProcId, e: ExecId, w: View): State
  {
    var v := ViewOf(s, p, e);
    State(
      w.lock,
      if w.record == v.record then s.records else Put(s.records, e, w.record),
      if w.transition == v.transition then s.transitions else Put(s.transitions, e, w.transition),
      Put(s.procs, p, w.proc),
      s.spawned + {p},
      if w.proc.Some? && w.proc.value.role == Coordinator then s.used + {e} else s.used,
      if w.held == v.held then s.held else if w.held then s.held + {e} else s.held - {e})
  }

  lemma ChangedIsUpdate(s: State, p: ProcId, e: ExecId, w: View)
    ensures Update(s, p, e, w) == Changed(s, p, e, w)
  {
    var t := Update(s, p, e, w);
    var u := Changed(s, p, e, w);
    assert t.records == u.records;
    assert t.transitions == u.transitions;
    assert t.held == u.held;
  }

  ghost predicate CanReach(s: State, t: State, policy: Policy)
  {
    exists actions: seq<Action> :: Reaches(s, actions, t, policy)
  }

  lemma Step(r: State, s: State, a: Action, w: View, policy: Policy) returns (t: State)
    requires CanReach(r, s, policy) && Follows(s, a, policy)
    requires Enabled(s, a) && w == Next(ViewOf(s, a.p, ExecOf(s, a)), a)
    ensures CanReach(r, t, policy) && t == Apply(s, a)
    ensures t == Changed(s, a.p, ExecOf(s, a), w)
  {
    t := Apply(s, a);
    assert t == Update(s, a.p, ExecOf(s, a), w);
    ChangedIsUpdate(s, a.p, ExecOf(s, a), w);
    hide Enabled, Apply, Next, Changed, Update, Reaches, Follows;
    var actions: seq<Action> :| Reaches(r, actions, s, policy);
    Extend(r, actions, s, a, policy);
  }

  // One step of a live process, on its own view.
  lemma Move(r: State, s: State, a: Action, w: View, policy: Policy) returns (t: State)
    requires CanReach(r, s, policy) && Follows(s, a, policy)
    requires a.p in s.procs && !a.Spawn? && !a.SpawnRecovery? && Permitted(s, a)
    requires var v := ViewOf(s, a.p, s.procs[a.p].exec); Ready(v, a) && w == Next(v, a)
    ensures CanReach(r, t, policy) && t == Changed(s, a.p, s.procs[a.p].exec, w)
  {
    t := Step(r, s, a, w, policy);
  }

  function At(s: State, p: ProcId, pc: Pc): State
    requires p in s.procs
  {
    s.(procs := s.procs[p := s.procs[p].(pc := pc)])
  }

  function Builder(e: ExecId, pc: Pc): Proc { Proc(Coordinator, e, Build, ANY, pc) }

  lemma Spawns(r: State, s: State, p: ProcId, e: ExecId, policy: Policy) returns (t: State)
    requires CanReach(r, s, policy) && p !in s.spawned && e !in s.used && p !in s.procs
    ensures CanReach(r, t, policy)
    ensures t == s.(procs := s.procs[p := Builder(e, Start)], spawned := s.spawned + {p}, used := s.used + {e})
  {
    hide LockingReady, LockingNext, BeginReady, BeginNext, WorkReady, WorkNext, FinalReady, FinalNext;
    hide ReleaseReady, ReleaseNext;
    hide Reaches, CanReach, Apply, Update, RecoverReady, RecoverNext;
    t := Step(r, s, Spawn(p, e, Build, ANY), ViewOf(s, p, e).(proc := Some(Builder(e, Start))), policy);
  }

  // A new build coordinator creates its lock file.
  lemma Creates(r: State, s: State, p: ProcId, e: ExecId, policy: Policy) returns (t: State)
    requires CanReach(r, s, policy) && s.lock.None? && p !in s.spawned && e !in s.used && p !in s.procs
    ensures CanReach(r, t, policy)
    ensures t == s.(
      lock := Some(LockFile(e, false)),
      procs := s.procs[p := Builder(e, LockCreated)],
      spawned := s.spawned + {p},
      used := s.used + {e})
  {
    hide LifeReady, LifeNext, BeginReady, BeginNext, WorkReady, WorkNext, FinalReady, FinalNext, ReleaseReady;
    hide ReleaseNext;
    hide Reaches, CanReach, Apply, Update, Enabled, RecoverReady, RecoverNext;
    var s1 := Spawns(r, s, p, e, policy);
    t := Move(r, s1, CreateLock(p), ViewOf(s1, p, e).(proc := Some(Builder(e, LockCreated)),
      lock := Some(LockFile(e, false))), policy);
  }

  // A new build coordinator takes a free lock.
  lemma Acquires(r: State, s: State, p: ProcId, e: ExecId, policy: Policy) returns (t: State)
    requires CanReach(r, s, policy) && s.lock.None? && p !in s.spawned && e !in s.used && p !in s.procs && e !in s.held
    ensures CanReach(r, t, policy)
    ensures t == s.(
      lock := Some(LockFile(e, true)),
      procs := s.procs[p := Builder(e, Acquired)],
      spawned := s.spawned + {p},
      used := s.used + {e},
      held := s.held + {e})
  {
    hide LifeReady, LifeNext, BeginReady, BeginNext, WorkReady, WorkNext, FinalReady, FinalNext, ReleaseReady;
    hide ReleaseNext;
    hide Reaches, CanReach, Apply, Update, Enabled, RecoverReady, RecoverNext;
    var s2 := Creates(r, s, p, e, policy);
    var v := ViewOf(s2, p, e).(lock := Some(LockFile(e, true)));
    var s3 := Move(r, s2, WriteLock(p), Go(v, LockWritten), policy);
    t := Move(r, s3, ConfirmLock(p), Go(v, Acquired).(held := true), policy);
  }

  // An acquired build finds no record of its execution.
  lemma ChecksTarget(r: State, s: State, p: ProcId, e: ExecId, policy: Policy) returns (t: State)
    requires CanReach(r, s, policy) && p in s.procs && s.procs[p] == Builder(e, Acquired)
    requires e in s.used && p in s.spawned && e !in s.records && e !in s.transitions
    ensures CanReach(r, t, policy)
    ensures t == At(s, p, BeginChecked).(transitions := s.transitions[e := p])
  {
    hide LifeReady, LifeNext, LockingReady, LockingNext, WorkReady, WorkNext, FinalReady, FinalNext, ReleaseReady;
    hide ReleaseNext;
    hide Reaches, CanReach, Apply, Update, Enabled, RecoverReady, RecoverNext;
    var v := ViewOf(s, p, e).(transition := Some(p));
    var s1 := Move(r, s, OpenBegin(p), Go(v, BeginLocked), policy);
    t := Move(r, s1, CheckTarget(p), Go(v, BeginChecked), policy);
  }

  function Began(p: ProcId): Record { Record(Build, ANY, p, Running, 0, NO_OUTCOME) }

  // An acquired build publishes its running record.
  lemma Begins(r: State, s: State, p: ProcId, e: ExecId, policy: Policy) returns (t: State)
    requires CanReach(r, s, policy) && p in s.procs && s.procs[p] == Builder(e, Acquired)
    requires e in s.used && p in s.spawned && e !in s.records && e !in s.transitions
    ensures CanReach(r, t, policy)
    ensures t == At(s, p, BeginPublished).(records := s.records[e := Began(p)], transitions := s.transitions[e := p])
  {
    hide LifeReady, LifeNext, LockingReady, LockingNext, WorkReady, WorkNext, FinalReady, FinalNext, ReleaseReady;
    hide ReleaseNext;
    hide Reaches, CanReach, Apply, Update, Enabled, RecoverReady, RecoverNext;
    var s2 := ChecksTarget(r, s, p, e, policy);
    t := Move(r, s2, PublishRunning(p), Go(ViewOf(s2, p, e), BeginPublished).(record := Some(Began(p))), policy);
  }

  const DONE := Decision(Completed, 1, Outcome(Some(0), None))

  lemma StartsWork(r: State, s: State, p: ProcId, e: ExecId, policy: Policy) returns (t: State)
    requires CanReach(r, s, policy) && p in s.procs && s.procs[p] == Builder(e, BeginPublished)
    requires e in s.used && p in s.spawned
    ensures CanReach(r, t, policy)
    ensures t == At(s, p, Working).(transitions := s.transitions - {e})
  {
    hide LifeReady, LifeNext, LockingReady, LockingNext, WorkReady, WorkNext, FinalReady, FinalNext, ReleaseReady;
    hide ReleaseNext;
    hide Reaches, CanReach, Apply, Update, Enabled, RecoverReady, RecoverNext;
    t := Move(r, s, CloseBegin(p, true), Go(ViewOf(s, p, e), Working).(transition := None), policy);
  }

  // The build decides to complete.
  lemma Decides(r: State, s: State, p: ProcId, e: ExecId, policy: Policy) returns (t: State)
    requires CanReach(r, s, policy) && p in s.procs && s.procs[p] == Builder(e, BeginPublished)
    requires e in s.used && p in s.spawned
    ensures CanReach(r, t, policy)
    ensures t == At(s, p, Finalize(DONE)).(transitions := s.transitions - {e})
  {
    hide LifeReady, LifeNext, LockingReady, LockingNext, BeginReady, BeginNext, FinalReady, FinalNext;
    hide ReleaseReady, ReleaseNext;
    hide Reaches, CanReach, Apply, Update, Enabled, RecoverReady, RecoverNext;
    var s1 := StartsWork(r, s, p, e, policy);
    t := Move(r, s1, Decide(p, DONE), Go(ViewOf(s1, p, e), Finalize(DONE)), policy);
  }

  lemma ReadsRunning(r: State, s: State, p: ProcId, e: ExecId, policy: Policy) returns (t: State)
    requires CanReach(r, s, policy) && p in s.procs && s.procs[p] == Builder(e, Finalize(DONE))
    requires e in s.used && p in s.spawned && e in s.records && s.records[e] == Began(p) && e !in s.transitions
    ensures CanReach(r, t, policy)
    ensures t == At(s, p, FinalRead(DONE, Began(p))).(transitions := s.transitions[e := p])
  {
    hide LifeReady, LifeNext, LockingReady, LockingNext, BeginReady, BeginNext, WorkReady, WorkNext, ReleaseReady;
    hide ReleaseNext, RecoverReady, RecoverNext;
    hide Reaches, CanReach, Apply, Update, Enabled;
    var v := ViewOf(s, p, e).(transition := Some(p));
    var s3 := Move(r, s, OpenFinal(p), Go(v, FinalLocked(DONE)), policy);
    t := Move(r, s3, ReadRunning(p), Go(v, FinalRead(DONE, Began(p))), policy);
  }

  // The build completes its record and stops before it leaves the transition.
  lemma CompletesAndStops(r: State, s: State, p: ProcId, e: ExecId, policy: Policy) returns (t: State)
    requires CanReach(r, s, policy) && p in s.procs && s.procs[p] == Builder(e, BeginPublished)
    requires e in s.used && p in s.spawned && e in s.records && s.records[e] == Began(p) && e in s.transitions
      && s.transitions[e] == p
    ensures CanReach(r, t, policy)
    ensures t == s.(procs := s.procs - {p}, records := s.records[e := Terminal(Began(p), DONE)])
  {
    hide LockingReady, LockingNext, BeginReady, BeginNext, WorkReady, WorkNext, ReleaseReady, ReleaseNext;
    hide RecoverReady, RecoverNext;
    hide Reaches, CanReach, Apply, Update, Enabled;
    var v := ViewOf(s, p, e);
    var s2 := Decides(r, s, p, e, policy);
    var s4 := ReadsRunning(r, s2, p, e, policy);
    var w := v.(record := Some(Terminal(Began(p), DONE)));
    var s5 := Move(r, s4, PublishTerminal(p), Go(w, FinalPublished), policy);
    t := Move(r, s5, Stop(p), w.(proc := None), policy);
    assert t.procs == s.procs - {p};
    assert t.transitions == s.transitions;
  }

  function Recoverer(e: ExecId, pc: Pc): Proc { Proc(Recovery, e, Build, ANY, pc) }

  lemma StartsRecovery(r: State, s: State, p: ProcId, e: ExecId, policy: Policy) returns (t: State)
    requires CanReach(r, s, policy) && p !in s.spawned && p !in s.procs && e in s.records
    ensures CanReach(r, t, policy)
    ensures t == s.(procs := s.procs[p := Recoverer(e, RecoverLock(s.records[e]))], spawned := s.spawned + {p})
  {
    hide LockingReady, LockingNext, BeginReady, BeginNext, WorkReady, WorkNext, FinalReady, FinalNext;
    hide ReleaseReady, ReleaseNext;
    hide Reaches, CanReach, Apply, Update;
    var v := ViewOf(s, p, e).(proc := Some(Recoverer(e, RecoverStart)));
    var s1 := Step(r, s, SpawnRecovery(p, e), v, policy);
    hide Enabled;
    t := Move(r, s1, RecoverLoad(p), Go(v, RecoverLock(s.records[e])), policy);
  }

  // A recovery of a terminal execution finds its coordinator absent.
  lemma FindsAbsent(r: State, s: State, p: ProcId, e: ExecId, policy: Policy) returns (t: State)
    requires CanReach(r, s, policy) && p !in s.spawned && p !in s.procs && s.lock == Some(LockFile(e, true))
    requires e in s.records && s.records[e].owner !in s.procs && s.records[e].owner != p
    ensures CanReach(r, t, policy)
    ensures t == s.(procs := s.procs[p := Recoverer(e, RecoverAudited(s.records[e], true))], spawned := s.spawned + {p})
  {
    hide LifeReady, LifeNext, LockingReady, LockingNext, BeginReady, BeginNext, WorkReady, WorkNext, FinalReady;
    hide FinalNext, ReleaseReady, ReleaseNext;
    hide Reaches, CanReach, Apply, Update, Enabled;
    var seen := s.records[e];
    var v := ViewOf(s, p, e).(proc := Some(Recoverer(e, RecoverStart)));
    var s2 := StartsRecovery(r, s, p, e, policy);
    var s3 := Move(r, s2, RecoverMatch(p), Go(v, RecoverCheck(seen, true)), policy);
    t := Move(r, s3, RecoverAbsent(p), Go(v, RecoverAudited(seen, true)), policy);
  }

  // A recovery of a terminal execution decides to release.
  lemma DecidesToRelease(r: State, s: State, p: ProcId, e: ExecId, policy: Policy) returns (t: State)
    requires CanReach(r, s, policy) && p !in s.spawned && p !in s.procs && s.lock == Some(LockFile(e, true))
    requires e in s.records && s.records[e].status != Running && s.records[e].owner !in s.procs
      && s.records[e].owner != p
    ensures CanReach(r, t, policy)
    ensures t == s.(procs := s.procs[p := Recoverer(e, ReleaseLoad)], spawned := s.spawned + {p})
  {
    hide LifeReady, LifeNext, LockingReady, LockingNext, BeginReady, BeginNext, WorkReady, WorkNext, FinalReady;
    hide FinalNext, ReleaseReady, ReleaseNext, Reaches, CanReach, Apply, Update, Enabled;
    var s4 := FindsAbsent(r, s, p, e, policy);
    t := Move(r, s4, RecoverBranch(p, 0), Go(ViewOf(s4, p, e), ReleaseLoad), policy);
  }

  // A recovery of a terminal execution comes up to its unlink.
  lemma Audits(r: State, s: State, p: ProcId, e: ExecId, policy: Policy) returns (t: State)
    requires !policy.disjoint && CanReach(r, s, policy) && p !in s.spawned && p !in s.procs
      && s.lock == Some(LockFile(e, true))
    requires e in s.records && s.records[e].status != Running && s.records[e].owner !in s.procs
      && s.records[e].owner != p
    ensures CanReach(r, t, policy)
    ensures t == s.(procs := s.procs[p := Recoverer(e, ReleaseUnlink)], spawned := s.spawned + {p})
  {
    hide LifeReady, LifeNext, LockingReady, LockingNext, BeginReady, BeginNext, WorkReady, WorkNext, FinalReady;
    hide FinalNext, RecoverReady, RecoverNext, Reaches, CanReach, Apply, Update, Enabled;
    var s5 := DecidesToRelease(r, s, p, e, policy);
    t := Move(r, s5, LoadForRelease(p), Go(ViewOf(s5, p, e), ReleaseUnlink), policy);
  }

  lemma Unlinks(r: State, s: State, p: ProcId, policy: Policy) returns (t: State)
    requires CanReach(r, s, policy) && p in s.procs && s.procs[p].pc == ReleaseUnlink && p in s.spawned
    requires s.procs[p].role == Coordinator ==> s.procs[p].exec in s.used
    ensures CanReach(r, t, policy)
    ensures t == s.(procs := s.procs - {p}, lock := None, held := s.held - {s.procs[p].exec})
  {
    hide LifeReady, LifeNext, LockingReady, LockingNext, BeginReady, BeginNext, WorkReady, WorkNext, FinalReady;
    hide FinalNext, RecoverReady, RecoverNext;
    t := Move(r, s, UnlinkLock(p), ViewOf(s, p, s.procs[p].exec).(proc := None, lock := None, held := false), policy);
    assert t.held == s.held - {s.procs[p].exec};
  }

  lemma Initially(policy: Policy)
    ensures CanReach(INITIAL, INITIAL, policy)
  {
    StaysPut(INITIAL, policy);
  }

  lemma StaysPut(s: State, policy: Policy)
    ensures CanReach(s, s, policy)
  {
    assert Reaches(s, [], s, policy);
  }

  // A begin that fails after its own rename.
  lemma FailsPublished(r: State, s: State, p: ProcId, policy: Policy) returns (t: State)
    requires CanReach(r, s, policy) && !policy.timely && p in s.procs && s.procs[p].pc == BeginPublished
    requires p in s.spawned && s.procs[p].exec in s.used
    ensures CanReach(r, t, policy) && t == At(s, p, BeginCleanup)
  {
    hide LifeReady, LifeNext, LockingReady, LockingNext, WorkReady, WorkNext, FinalReady, FinalNext, ReleaseReady;
    hide ReleaseNext, RecoverReady, RecoverNext, Reaches, CanReach, Apply, Update, Enabled;
    t := Move(r, s, FailAfterPublish(p), Go(ViewOf(s, p, s.procs[p].exec), BeginCleanup), policy);
  }

  lemma CleansUp(r: State, s: State, p: ProcId, policy: Policy) returns (t: State)
    requires CanReach(r, s, policy) && p in s.procs && s.procs[p].pc == BeginCleanup
    requires p in s.spawned && s.procs[p].exec in s.used
    ensures CanReach(r, t, policy) && t == At(s, p, ReleaseLoad).(transitions := s.transitions - {s.procs[p].exec})
  {
    hide LifeReady, LifeNext, LockingReady, LockingNext, WorkReady, WorkNext, FinalReady, FinalNext, ReleaseReady;
    hide ReleaseNext, RecoverReady, RecoverNext, Reaches, CanReach, Apply, Update, Enabled;
    t := Move(r, s, CleanBegin(p, true), Go(ViewOf(s, p, s.procs[p].exec), ReleaseLoad).(transition := None), policy);
  }

  // A release whose comparison succeeds while nobody else is about to unlink.
  lemma PassesCompare(r: State, s: State, p: ProcId, policy: Policy) returns (t: State)
    requires CanReach(r, s, policy) && p in s.procs && s.procs[p].pc == ReleaseLoad && p in s.spawned
      && s.procs[p].exec in s.used
    requires s.lock == Some(LockFile(s.procs[p].exec, true))
    requires forall q :: q in s.procs && q != p && s.procs[q].exec == s.procs[p].exec ==> s.procs[q].pc != ReleaseUnlink
    ensures CanReach(r, t, policy) && t == At(s, p, ReleaseUnlink)
  {
    hide LifeReady, LifeNext, LockingReady, LockingNext, BeginReady, BeginNext, WorkReady, WorkNext, FinalReady;
    hide FinalNext, RecoverReady, RecoverNext, Reaches, CanReach, Apply, Update, Enabled;
    t := Move(r, s, LoadForRelease(p), Go(ViewOf(s, p, s.procs[p].exec), ReleaseUnlink), policy);
  }
}
