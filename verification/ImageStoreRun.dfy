// Runs of the racing image store in which a candidate changes while it is published.
module ImageStoreRun {
  import opened Wrappers
  import opened ImageStoreRace

  ghost predicate CanReach(good: Good, t: State)
  {
    exists actions: seq<Action> :: Reaches(good, INITIAL, actions, t, false)
  }

  lemma Take(good: Good, s: State, a: Action) returns (t: State)
    requires CanReach(good, s) && Enabled(good, s, a)
    ensures CanReach(good, t) && t == Apply(good, s, a)
  {
    t := Apply(good, s, a);
    hide Enabled, Apply;
    var actions: seq<Action> :| Reaches(good, INITIAL, actions, s, false);
    var all := actions + [a];
    assert all[..|all| - 1] == actions && all[|all| - 1] == a;
    assert Reaches(good, INITIAL, all, t, false);
  }

  // A publisher, process 0, and perhaps a recovery, process 1.
  function Procs(first: Pc, second: Option<Pc>): map<ProcId, Pc>
  {
    if second.Some? then map[0 := first, 1 := second.value] else map[0 := first]
  }

  function Pair(files: Files, first: Pc, second: Option<Pc>): State
  {
    State(files, Procs(first, second), if second.Some? then {0, 1} else {0})
  }

  lemma ApplyIs(good: Good, s: State, a: Action)
    requires Enabled(good, s, a)
    ensures var o := Next(good, s.files, PcOf(s, a.p), a);
      Apply(good, s, a) == State(o.files, if o.pc.Some? then s.procs[a.p := o.pc.value]
        else s.procs - {a.p}, s.spawned + {a.p})
  {
  }

  // One step of the publisher.
  lemma First(good: Good, f: Files, pc: Pc, second: Option<Pc>, a: Action, g: Files, qc: Pc)
    requires CanReach(good, Pair(f, pc, second)) && a.p == 0 && !a.SpawnPublisher? && !a.SpawnRecovery?
    requires CanStep(good, f, Some(pc), a) && Next(good, f, Some(pc), a) == Outcome(g, Some(qc))
    ensures CanReach(good, Pair(g, qc, second))
  {
    var s := Pair(f, pc, second);
    hide CanStep, Next, CanReach;
    assert PcOf(s, 0) == Some(pc);
    assert Enabled(good, s, a);
    ApplyIs(good, s, a);
    hide Apply, Enabled;
    var t := Take(good, s, a);
    assert t.procs == Procs(qc, second) && t.spawned == s.spawned;
  }

  // One step of the recovery.
  lemma Second(good: Good, f: Files, first: Pc, pc: Pc, a: Action, g: Files, qc: Pc)
    requires CanReach(good, Pair(f, first, Some(pc))) && a.p == 1 && !a.SpawnPublisher? && !a.SpawnRecovery?
    requires CanStep(good, f, Some(pc), a) && Next(good, f, Some(pc), a) == Outcome(g, Some(qc))
    ensures CanReach(good, Pair(g, first, Some(qc)))
  {
    var s := Pair(f, first, Some(pc));
    hide CanStep, Next, CanReach;
    assert PcOf(s, 1) == Some(pc);
    assert Enabled(good, s, a);
    ApplyIs(good, s, a);
    hide Apply, Enabled;
    var t := Take(good, s, a);
    assert t.procs == Procs(first, Some(qc)) && t.spawned == s.spawned;
  }

  lemma StartsAlone(good: Good)
    ensures CanReach(good, Pair(INITIAL.files, Start, None))
  {
    assert Reaches(good, INITIAL, [], INITIAL, false);
    var t := Take(good, INITIAL, SpawnPublisher(0));
    assert t == Pair(INITIAL.files, Start, None);
  }

  function Staging(lock: bool, c: Option<Content>, meta: Meta): Files
  {
    Files(lock, Some(0), None, map[0 := Dir(c, meta)], 1)
  }

  function Stored(lock: bool, c: Content): Files { Files(lock, None, Some(0), map[0 := Dir(Some(c), Full)], 1) }

  // The publisher alone, until part of its copy, or all that there is of it, is written.
  lemma StagesAlone(good: Good, c: Content)
    ensures CanReach(good, Pair(Staging(true, Some(c), Absent), Copying(0), None))
  {
    StartsAlone(good);
    hide CanReach, Pair;
    var f := INITIAL.files;
    First(good, f, Start, None, HashCandidate(0), f, Hashed);
    First(good, f, Hashed, None, LookForObject(0), f, NoObject);
    var g := f.(lock := true);
    First(good, f, NoObject, None, TakeLock(0), g, Locked);
    First(good, g, Locked, None, LookForStaging(0), g, NoStaging);
    var h := Staging(true, None, Absent);
    First(good, g, NoStaging, None, MakeStaging(0), h, Made(0));
    assert WithArtifact(h, 0, c) == Staging(true, Some(c), Absent);
    First(good, h, Made(0), None, OpenCopy(0, c), Staging(true, Some(c), Absent), Copying(0));
  }

  // ---------- The candidate changes between hashing and copying ----------

  lemma WritesMetaAlone(good: Good, c: Content)
    ensures CanReach(good, Pair(Staging(true, Some(c), Full), MetaDone(false), None))
  {
    StagesAlone(good, c);
    hide CanReach, Pair;
    var f := Staging(true, Some(c), Absent);
    assert WithArtifact(f, 0, c) == f;
    First(good, f, Copying(0), None, FinishCopy(0, c), f, Copied);
    assert WithMeta(f, 0, Part) == Staging(true, Some(c), Part);
    First(good, f, Copied, None, CreateMeta(0), Staging(true, Some(c), Part), MetaOpen(0, false));
    assert WithMeta(Staging(true, Some(c), Part), 0, Full) == Staging(true, Some(c), Full);
    First(good, Staging(true, Some(c), Part), MetaOpen(0, false), None, WriteMeta(0), Staging(true, Some(c), Full),
      MetaDone(false));
  }

  // A lone publisher reports success for an object whose bytes do not match its record:
  // publishing does not hash again.
  lemma UnstableCandidateIsPublished(good: Good, c: Content) returns (t: State)
    requires !good(c)
    ensures CanReach(good, t) && t.procs == map[0 := Done]
    ensures t.files == Stored(false, c)
  {
    WritesMetaAlone(good, c);
    t := Pair(Stored(false, c), Done, None);
    assert t.procs == map[0 := Done] && t.files == Stored(false, c);
    hide CanReach, Pair;
    First(good, Staging(true, Some(c), Full), MetaDone(false), None, Rename(0), Stored(true, c), Renamed(false));
    First(good, Stored(true, c), Renamed(false), None, RemoveLock(0), Stored(false, c), Unlocked(false));
    First(good, Stored(false, c), Unlocked(false), None, VerifyRecord(0), Stored(false, c), Done);
  }

  // ---------- The candidate grows while it is copied ----------

  lemma RecoveryJoins(good: Good, f: Files, first: Pc)
    requires CanReach(good, Pair(f, first, None))
    ensures CanReach(good, Pair(f, first, Some(RecoverStart)))
  {
    var t := Take(good, Pair(f, first, None), SpawnRecovery(1));
    hide CanReach;
    assert t == Pair(f, first, Some(RecoverStart));
  }

  // A recovery finds the staging good while its publisher is still copying.
  lemma RecoveryRehashes(good: Good, b: Content)
    requires good(b)
    ensures CanReach(good, Pair(Staging(true, Some(b), Absent), Copying(0), Some(Rehashed)))
  {
    StagesAlone(good, b);
    hide CanReach, Pair;
    var f := Staging(true, Some(b), Absent);
    RecoveryJoins(good, f, Copying(0));
    Second(good, f, Copying(0), RecoverStart, RecoverLook(1), f, RecoverNoObject);
    Second(good, f, Copying(0), RecoverNoObject, RecoverNeedsLock(1), f, RecoverLocked);
    Second(good, f, Copying(0), RecoverLocked, RecoverLookForStaging(1), f, RecoverStaging);
    Second(good, f, Copying(0), RecoverStaging, Rehash(1), f, Rehashed);
  }

  lemma RecoveryRenames(good: Good, b: Content)
    requires good(b)
    ensures CanReach(good, Pair(Stored(true, b), Copying(0), Some(Renamed(true))))
  {
    RecoveryRehashes(good, b);
    hide CanReach, Pair;
    var f := Staging(true, Some(b), Absent);
    assert WithMeta(f, 0, Part) == Staging(true, Some(b), Part);
    Second(good, f, Copying(0), Rehashed, CreateMeta(1), Staging(true, Some(b), Part), MetaOpen(0, true));
    assert WithMeta(Staging(true, Some(b), Part), 0, Full) == Staging(true, Some(b), Full);
    Second(good, Staging(true, Some(b), Part), Copying(0), MetaOpen(0, true), WriteMeta(1),
      Staging(true, Some(b), Full), MetaDone(true));
    Second(good, Staging(true, Some(b), Full), Copying(0), MetaDone(true), Rename(1), Stored(true, b), Renamed(true));
  }

  // It publishes and verifies the object; then the publisher's open file writes on, and
  // the verified object changes.
  lemma LiveCopyRewritesObject(good: Good, b: Content, c: Content) returns (s: State, t: State)
    requires good(b)
    ensures CanReach(good, s) && s.files == Stored(false, b) && s.procs == map[0 := Copying(0), 1 := Done]
    ensures CanReach(good, t) && t.files == Stored(false, c) && Enabled(good, s, CopySome(0, c))
      && t == Apply(good, s, CopySome(0, c))
  {
    RecoveryRenames(good, b);
    s := Pair(Stored(false, b), Copying(0), Some(Done));
    assert CanReach(good, s) by {
      hide CanReach, Pair;
      Second(good, Stored(true, b), Copying(0), Renamed(true), RemoveLock(1), Stored(false, b), Unlocked(true));
      Second(good, Stored(false, b), Copying(0), Unlocked(true), VerifyObject(1), Stored(false, b), Done);
    }
    hide CanReach;
    assert WithArtifact(Stored(false, b), 0, c) == Stored(false, c);
    t := Take(good, s, CopySome(0, c));
  }
}
