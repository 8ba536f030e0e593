// Where reused records come from: always one completed build, and the best one at the
// moment the record is published.
module ProtocolReuse {
  import opened Wrappers
  import opened Protocol
  import opened ProtocolSafety
  import opened ProtocolMutex
  import opened ReuseCandidate

  // About to publish a reused record.
  predicate Reusing(q: Proc) { Finalizing(q.pc) && q.pc.decision.status == Reused }

  // The outcome repeats the evidence of a completed record of the same identity.
  predicate ReusesFrom(records: map<ExecId, Record>, identity: Identity, o: Outcome)
  {
    && o.source.Some?
    && o.source.value in records
    && Compatible(records[o.source.value], identity)
    && o.evidence == records[o.source.value].outcome.evidence
  }

  ghost predicate Lineage(s: State)
  {
    && (forall p :: p in s.procs && Reusing(s.procs[p]) ==>
      ReusesFrom(s.records, s.procs[p].identity, s.procs[p].pc.decision.outcome))
    && (forall e :: e in s.records && s.records[e].status == Reused ==>
      ReusesFrom(s.records, s.records[e].identity, s.records[e].outcome))
  }

  // ---------- What a step does to a view ----------

  predicate Selects(v: View, a: Action, w: View)
  {
    && a.SelectSource?
    && w.proc.Some? && v.proc.Some?
    && w.proc.value.identity == v.proc.value.identity
    && w.proc.value.pc == Finalize(Decision(Reused, a.finishedAt, Outcome(a.evidence, Some(a.source))))
  }

  predicate StillReusing(v: View, w: View)
  {
    && v.proc.Some? && w.proc.Some?
    && Reusing(v.proc.value) && Reusing(w.proc.value)
    && w.proc.value.identity == v.proc.value.identity
    && w.proc.value.pc.decision == v.proc.value.pc.decision
  }

  predicate RecordFromDecision(v: View, w: View)
  {
    && v.proc.Some? && v.proc.value.role == Coordinator
    && w.record.Some?
    && Finalizing(v.proc.value.pc)
    && w.record.value.status == v.proc.value.pc.decision.status
    && w.record.value.identity == v.proc.value.identity
    && w.record.value.outcome == v.proc.value.pc.decision.outcome
  }

  predicate ReuseStep(v: View, a: Action, w: View)
  {
    && (w.proc.Some? && Reusing(w.proc.value) ==> StillReusing(v, w) || Selects(v, a, w))
    && (
      && w.record != v.record && w.record.Some?
      && (w.record.value.status == Reused || w.record.value.status == Completed)
      ==> RecordFromDecision(v, w))
  }

  lemma LifeKeepsReuse(v: View, a: Action)
    requires PhaseOf(a) == Life && Ready(v, a) && (v.proc.Some? ==> BaseView(v, a.p))
    ensures ReuseStep(v, a, Next(v, a))
  {
    hide LockingReady, LockingNext, BeginReady, BeginNext, WorkReady, WorkNext;
    hide FinalReady, FinalNext, ReleaseReady, ReleaseNext, RecoverReady, RecoverNext;
  }

  lemma LockingKeepsReuse(v: View, a: Action)
    requires PhaseOf(a) == Locking && Ready(v, a) && (v.proc.Some? ==> BaseView(v, a.p))
    ensures ReuseStep(v, a, Next(v, a))
  {
    hide LifeReady, LifeNext, BeginReady, BeginNext, WorkReady, WorkNext;
    hide FinalReady, FinalNext, ReleaseReady, ReleaseNext, RecoverReady, RecoverNext;
  }

  lemma BeginKeepsReuse(v: View, a: Action)
    requires PhaseOf(a) == Begin && Ready(v, a) && (v.proc.Some? ==> BaseView(v, a.p))
    ensures ReuseStep(v, a, Next(v, a))
  {
    hide LifeReady, LifeNext, LockingReady, LockingNext, WorkReady, WorkNext;
    hide FinalReady, FinalNext, ReleaseReady, ReleaseNext, RecoverReady, RecoverNext;
  }

  lemma WorkKeepsReuse(v: View, a: Action)
    requires PhaseOf(a) == Work && Ready(v, a) && (v.proc.Some? ==> BaseView(v, a.p))
    ensures ReuseStep(v, a, Next(v, a))
  {
    hide LifeReady, LifeNext, LockingReady, LockingNext, BeginReady, BeginNext;
    hide FinalReady, FinalNext, ReleaseReady, ReleaseNext, RecoverReady, RecoverNext;
  }

  lemma FinalKeepsReuse(v: View, a: Action)
    requires PhaseOf(a) == Final && Ready(v, a) && (v.proc.Some? ==> BaseView(v, a.p))
    ensures ReuseStep(v, a, Next(v, a))
  {
    hide LifeReady, LifeNext, LockingReady, LockingNext, BeginReady, BeginNext;
    hide WorkReady, WorkNext, ReleaseReady, ReleaseNext, RecoverReady, RecoverNext;
  }

  lemma ReleaseKeepsReuse(v: View, a: Action)
    requires PhaseOf(a) == Release && Ready(v, a) && (v.proc.Some? ==> BaseView(v, a.p))
    ensures ReuseStep(v, a, Next(v, a))
  {
    hide LifeReady, LifeNext, LockingReady, LockingNext, BeginReady, BeginNext;
    hide WorkReady, WorkNext, FinalReady, FinalNext, RecoverReady, RecoverNext;
  }

  lemma RecoverKeepsReuse(v: View, a: Action)
    requires PhaseOf(a) == Recover && Ready(v, a) && (v.proc.Some? ==> BaseView(v, a.p))
    ensures ReuseStep(v, a, Next(v, a))
  {
    hide LifeReady, LifeNext, LockingReady, LockingNext, BeginReady, BeginNext;
    hide WorkReady, WorkNext, FinalReady, FinalNext, ReleaseReady, ReleaseNext;
  }

  lemma ReuseView(v: View, a: Action)
    requires Ready(v, a) && (v.proc.Some? ==> BaseView(v, a.p))
    ensures ReuseStep(v, a, Next(v, a))
  {
    hide Ready, Next, BaseView, ReuseStep;
    match PhaseOf(a)
    case Life => LifeKeepsReuse(v, a);
    case Locking => LockingKeepsReuse(v, a);
    case Begin => BeginKeepsReuse(v, a);
    case Work => WorkKeepsReuse(v, a);
    case Final => FinalKeepsReuse(v, a);
    case Release => ReleaseKeepsReuse(v, a);
    case Recover => RecoverKeepsReuse(v, a);
  }

  lemma ReuseSteps(s: State, a: Action)
    requires Base(s) && Enabled(s, a)
    ensures ReuseStep(ViewOf(s, a.p, ExecOf(s, a)), a, ViewOf(Apply(s, a), a.p, ExecOf(s, a)))
    ensures a.SelectSource? ==>
      && a.p in s.procs
      && BestSource(s.records, s.procs[a.p].identity, a.source)
      && a.evidence == s.records[a.source].outcome.evidence
  {
    var v := ViewOf(s, a.p, ExecOf(s, a));
    ViewOfActor(s, a);
    assert a.p in s.procs ==> BaseProc(s, a.p);
    ApplyFrame(s, a);
    hide BaseView, BestSource, Next, Ready, Apply, ReuseStep;
    ReuseView(v, a);
  }

  // ---------- Lineage, in every run ----------

  lemma SourceStays(s: State, t: State, identity: Identity, o: Outcome)
    requires RecordsEvolve(s, t) && ReusesFrom(s.records, identity, o)
    ensures ReusesFrom(t.records, identity, o)
  {
    assert Evolves(Lookup(s.records, o.source.value), Lookup(t.records, o.source.value));
  }

  predicate SameRequest(q: Proc, r: Proc)
  {
    Reusing(q) && Reusing(r) && r.identity == q.identity && r.pc.decision == q.pc.decision
  }

  predicate SelectedBy(q: Proc, a: Action, r: Proc)
  {
    && a.SelectSource? && q.pc.Working? && Reusing(r) && r.identity == q.identity
    && r.pc.decision.outcome == Outcome(a.evidence, Some(a.source))
  }

  // The acting process either was about to reuse before or selected its source just now.
  lemma ActorReusing(s: State, a: Action, v: View, w: View)
    requires ReuseStep(v, a, w) && v == ViewOf(s, a.p, ExecOf(s, a)) && w.proc.Some? && Reusing(w.proc.value)
    requires a.SelectSource? ==> a.p in s.procs && s.procs[a.p].pc.Working?
    ensures a.p in s.procs
    ensures SameRequest(s.procs[a.p], w.proc.value) || SelectedBy(s.procs[a.p], a, w.proc.value)
  {
  }

  // Whoever is about to reuse either was so before or selected its source just now.
  lemma ReusingBefore(s: State, a: Action, p: ProcId)
    requires Base(s) && Enabled(s, a) && p in Apply(s, a).procs && Reusing(Apply(s, a).procs[p])
    ensures p in s.procs
    ensures SameRequest(s.procs[p], Apply(s, a).procs[p])
      || (p == a.p && SelectedBy(s.procs[p], a, Apply(s, a).procs[p]))
  {
    var t := Apply(s, a);
    hide Enabled, Apply, Base, BestSource, ReuseStep, Steps;
    if p != a.p {
      BaseSteps(s, a);
      StepsElsewhere(s, a, t, p);
    } else {
      ReuseSteps(s, a);
      SelectsAtWork(s, a);
      ActorReusing(s, a, ViewOf(s, a.p, ExecOf(s, a)), ViewOf(t, a.p, ExecOf(s, a)));
    }
  }

  lemma SelectsAtWork(s: State, a: Action)
    requires Enabled(s, a)
    ensures a.SelectSource? ==> a.p in s.procs && s.procs[a.p].pc.Working?
  {
    hide BestSource, Next;
  }

  lemma ProcLineage(s: State, a: Action, t: State, p: ProcId)
    requires Base(s) && Lineage(s) && Enabled(s, a) && t == Apply(s, a) && RecordsEvolve(s, t)
    requires p in t.procs && Reusing(t.procs[p])
    ensures ReusesFrom(t.records, t.procs[p].identity, t.procs[p].pc.decision.outcome)
  {
    var o := t.procs[p].pc.decision.outcome;
    ReusingBefore(s, a, p);
    ReuseSteps(s, a);
    assert a.SelectSource? ==> a.source in s.records && Compatible(s.records[a.source], s.procs[a.p].identity);
    hide Enabled, Apply, Base, BestSource, RecordsEvolve, Compatible, ReuseStep;
    assert ReusesFrom(s.records, t.procs[p].identity, o);
    SourceStays(s, t, t.procs[p].identity, o);
  }

  lemma RecordLineage(s: State, a: Action, t: State, e: ExecId)
    requires Base(s) && Lineage(s) && Enabled(s, a) && t == Apply(s, a) && RecordsEvolve(s, t)
    requires e in t.records && t.records[e].status == Reused
    ensures ReusesFrom(t.records, t.records[e].identity, t.records[e].outcome)
  {
    BaseSteps(s, a);
    ReuseSteps(s, a);
    var x := ExecOf(s, a);
    assert e != x ==> Lookup(t.records, e) == Lookup(s.records, e);
    hide Steps, Enabled, Apply, Base, RecordsEvolve;
    assert ReusesFrom(s.records, t.records[e].identity, t.records[e].outcome);
    SourceStays(s, t, t.records[e].identity, t.records[e].outcome);
  }

  lemma LineageStep(s: State, a: Action)
    requires Base(s) && Lineage(s) && Enabled(s, a)
    ensures Lineage(Apply(s, a))
  {
    var t := Apply(s, a);
    BaseStep(s, a);
    forall p | p in t.procs && Reusing(t.procs[p])
      ensures ReusesFrom(t.records, t.procs[p].identity, t.procs[p].pc.decision.outcome) {
      ProcLineage(s, a, t, p);
    }
    forall e | e in t.records && t.records[e].status == Reused
      ensures ReusesFrom(t.records, t.records[e].identity, t.records[e].outcome) {
      RecordLineage(s, a, t, e);
    }
    hide Enabled, Apply, Base, ReusesFrom;
  }

  lemma {:induction false} RunLineage(actions: seq<Action>, t: State, policy: Policy)
    requires Reaches(INITIAL, actions, t, policy)
    ensures Lineage(t)
  {
    if actions != [] {
      var n := |actions| - 1;
      var s :| Reaches(INITIAL, actions[..n], s, policy) && Enabled(s, actions[n]) && t == Apply(s, actions[n]);
      RunKeepsBase(INITIAL, actions[..n], s, policy);
      hide Enabled, Apply, Base, Lineage, Follows;
      RunLineage(actions[..n], s, policy);
      LineageStep(s, actions[n]);
    }
  }

  // Every reused record repeats the evidence of one completed record of its identity, so
  // chains have length one.
  lemma ReuseLineage(actions: seq<Action>, t: State, e: ExecId)
    requires Reaches(INITIAL, actions, t, ANYHOW) && e in t.records && t.records[e].status == Reused
    ensures var c := t.records[e].outcome.source;
      && c.Some? && c.value in t.records
      && t.records[c.value].status == Completed
      && t.records[c.value].identity == t.records[e].identity
      && t.records[c.value].outcome.evidence == t.records[e].outcome.evidence
  {
    RunLineage(actions, t, ANYHOW);
  }

  // ---------- The best source, when releases do not overlap ----------

  ghost predicate Freshest(s: State)
  {
    forall p :: p in s.procs && Reusing(s.procs[p]) ==>
      && s.procs[p].pc.decision.outcome.source.Some?
      && BestSource(s.records, s.procs[p].identity, s.procs[p].pc.decision.outcome.source.value)
  }

  // A coordinator that will not complete its own execution.
  predicate Undecided(q: Proc) { q.role == Coordinator && (q.pc.Working? || Reusing(q)) }

  lemma OwnsLock(s: State, p: ProcId)
    requires Locked(s, false) && p in s.procs && s.procs[p].role == Coordinator && Owning(s.procs[p].pc)
    ensures s.lock == Some(LockFile(s.procs[p].exec, true))
  {
    assert LockProc(s, p, false);
  }

  lemma NoRivalOwns(s: State, p: ProcId, q: ProcId)
    requires Locked(s, false) && p in s.procs && q in s.procs && s.procs[p].role == Coordinator
      && s.procs[q].role == Coordinator
    requires Owning(s.procs[p].pc) && Owning(s.procs[q].pc)
    ensures p == q
  {
    OwnsLock(s, p);
    OwnsLock(s, q);
    assert OwnExecution(s);
  }

  // A record that completes was completed by its coordinator.
  lemma CompletedBy(s: State, a: Action, e: ExecId)
    requires Base(s) && Enabled(s, a)
    requires e in Apply(s, a).records && Apply(s, a).records[e].status == Completed
    ensures
      || (e in s.records && Apply(s, a).records[e] == s.records[e])
      || (a.p in s.procs && s.procs[a.p].role == Coordinator && Finalizing(s.procs[a.p].pc)
        && s.procs[a.p].pc.decision.status == Completed)
  {
    var t := Apply(s, a);
    var x := ExecOf(s, a);
    ReuseSteps(s, a);
    BaseSteps(s, a);
    assert e != x ==> Lookup(t.records, e) == Lookup(s.records, e);
    hide Enabled, Apply, Base, Steps, BestSource;
  }

  // While one coordinator is about to publish a reused record no other completes.
  lemma NoRivalCompletes(s: State, a: Action, p: ProcId, e: ExecId)
    requires Locked(s, false) && Enabled(s, a) && p in s.procs && Undecided(s.procs[p])
    requires e in Apply(s, a).records && Apply(s, a).records[e].status == Completed
    ensures e in s.records && Apply(s, a).records[e] == s.records[e]
  {
    CompletedBy(s, a, e);
    hide Enabled, Apply;
    if a.p in s.procs && s.procs[a.p].role == Coordinator && Finalizing(s.procs[a.p].pc) { NoRivalOwns(s, p, a.p); }
  }

  lemma UndecidedBefore(s: State, a: Action, p: ProcId)
    requires Locked(s, false) && Freshest(s) && Enabled(s, a) && p in Apply(s, a).procs && Reusing(Apply(s, a).procs[p])
    ensures p in s.procs && Undecided(s.procs[p])
    ensures var q := Apply(s, a).procs[p];
      q.pc.decision.outcome.source.Some? && BestSource(s.records, q.identity, q.pc.decision.outcome.source.value)
  {
    ReusingBefore(s, a, p);
    ReuseSteps(s, a);
    assert BaseProc(s, p);
    hide Enabled, Apply, Locked, BestSource, ReuseStep;
  }

  lemma BestSourceStays(s: State, t: State, identity: Identity, c: ExecId)
    requires BestSource(s.records, identity, c) && RecordsEvolve(s, t)
    requires forall e :: e in t.records && t.records[e].status == Completed ==>
      e in s.records && t.records[e] == s.records[e]
    ensures BestSource(t.records, identity, c)
  {
    assert Evolves(Lookup(s.records, c), Lookup(t.records, c));
  }

  lemma FreshestStep(s: State, a: Action)
    requires Locked(s, false) && Freshest(s) && Enabled(s, a)
    ensures Freshest(Apply(s, a))
  {
    var t := Apply(s, a);
    BaseStep(s, a);
    hide Enabled, Apply, Locked, Base, BestSource, RecordsEvolve;
    forall p | p in t.procs && Reusing(t.procs[p])
      ensures t.procs[p].pc.decision.outcome.source.Some?
      ensures BestSource(t.records, t.procs[p].identity, t.procs[p].pc.decision.outcome.source.value)
    {
      UndecidedBefore(s, a, p);
      forall e | e in t.records && t.records[e].status == Completed
        ensures e in s.records && t.records[e] == s.records[e] {
        NoRivalCompletes(s, a, p, e);
      }
      BestSourceStays(s, t, t.procs[p].identity, t.procs[p].pc.decision.outcome.source.value);
    }
  }

  lemma {:induction false} RunIsFreshest(actions: seq<Action>, t: State)
    requires Reaches(INITIAL, actions, t, DISJOINT)
    ensures Freshest(t)
  {
    if actions != [] {
      var n := |actions| - 1;
      var s :| Reaches(INITIAL, actions[..n], s, DISJOINT) && Enabled(s, actions[n]) && t == Apply(s, actions[n]);
      hide Enabled, Apply, Locked, Freshest;
      RunIsFreshest(actions[..n], s);
      RunIsLocked(actions[..n], s, DISJOINT);
      FreshestStep(s, actions[n]);
    }
  }

  // The rename that publishes a reused record finds its source still the best one.
  lemma ReuseIsBest(actions: seq<Action>, s: State, a: Action)
    requires Reaches(INITIAL, actions, s, DISJOINT) && Enabled(s, a)
    requires a.PublishTerminal? && a.p in s.procs && Reusing(s.procs[a.p])
    ensures var q := s.procs[a.p];
      var r := Apply(s, a).records[q.exec];
      && r.status == Reused && r.identity == q.identity && r.outcome.source.Some?
      && Newest(s.records, r.identity, r.outcome.source.value)
      && r.outcome.evidence == s.records[r.outcome.source.value].outcome.evidence
  {
    var v := ViewOf(s, a.p, ExecOf(s, a));
    RunIsFreshest(actions, s);
    RunLineage(actions, s, DISJOINT);
    RunKeepsBase(INITIAL, actions, s, DISJOINT);
    ViewOfActor(s, a);
    PublishedRecord(v, a);
    ApplyFrame(s, a) by { assert BaseProc(s, a.p); }
    assert Lookup(Apply(s, a).records, s.procs[a.p].exec) == Next(v, a).record;
    BestIsNewest(s.records, s.procs[a.p].identity, s.procs[a.p].pc.decision.outcome.source.value);
    hide Reaches, Ready, Next, Apply, Base, BaseView, BestSource, Newest, Frame;
  }

  lemma PublishedRecord(v: View, a: Action)
    requires Ready(v, a) && a.PublishTerminal? && BaseView(v, a.p) && Reusing(v.proc.value)
    ensures var r := Next(v, a).record;
      r.Some? && r.value.status == Reused && r.value.identity == v.proc.value.identity
        && r.value.outcome == v.proc.value.pc.decision.outcome
  {
  }
}
