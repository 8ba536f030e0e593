// What a publisher or a recovery of the racing image store achieves when nobody interferes,
// from any files it may find.
module ImageStoreProgress {
  import opened Wrappers
  import opened ImageStoreRace
  import opened ImageStoreSafety

  ghost predicate CanReach(good: Good, r: State, t: State)
  {
    exists actions: seq<Action> :: Reaches(good, r, actions, t, false)
  }

  // A process alone with the files.
  function Alone(f: Files, p: ProcId, pc: Pc, spawned: set<ProcId>): State { State(f, map[p := pc], spawned + {p}) }

  lemma Spawns(good: Good, f: Files, spawned: set<ProcId>, p: ProcId, recovery: bool)
    requires p !in spawned
    ensures CanReach(good, State(f, map[], spawned), Alone(f, p, if recovery then RecoverStart else Start, spawned))
  {
    var s := State(f, map[], spawned);
    var a := if recovery then SpawnRecovery(p) else SpawnPublisher(p);
    assert Enabled(good, s, a);
    OneMore(good, s, [], s, a);
    assert Apply(good, s, a) == Alone(f, p, if recovery then RecoverStart else Start, spawned);
  }

  lemma OneMore(good: Good, r: State, actions: seq<Action>, s: State, a: Action)
    requires Reaches(good, r, actions, s, false) && Enabled(good, s, a)
    ensures CanReach(good, r, Apply(good, s, a))
  {
    hide Enabled, Apply;
    var all := actions + [a];
    assert all[..|all| - 1] == actions && all[|all| - 1] == a;
    assert Reaches(good, r, all, Apply(good, s, a), false);
  }

  lemma Moves(good: Good, r: State, f: Files, p: ProcId, pc: Pc, spawned: set<ProcId>, a: Action, g: Files, next: Pc)
    requires CanReach(good, r, Alone(f, p, pc, spawned)) && a.p == p && !a.SpawnPublisher? && !a.SpawnRecovery?
    requires CanStep(good, f, Some(pc), a) && Next(good, f, Some(pc), a) == Outcome(g, Some(next))
    ensures CanReach(good, r, Alone(g, p, next, spawned))
  {
    var s := Alone(f, p, pc, spawned);
    var actions: seq<Action> :| Reaches(good, r, actions, s, false);
    assert PcOf(s, p) == Some(pc);
    ApplyIs(good, s, a);
    hide CanStep, Next, Reaches, Apply;
    assert Enabled(good, s, a);
    OneMore(good, r, actions, s, a);
    assert Apply(good, s, a) == Alone(g, p, next, spawned);
  }

  // ---------- Publishing ----------

  function Published(f: Files, c: Content): Files
  {
    Files(false, None, Some(f.next), f.dirs[f.next := Dir(Some(c), Full)], f.next + 1)
  }

  lemma Enters(good: Good, f: Files, spawned: set<ProcId>, p: ProcId)
    requires !f.lock && f.staging.None? && f.stored.None? && p !in spawned
    ensures CanReach(good, State(f, map[], spawned), Alone(f.(lock := true), p, NoStaging, spawned))
  {
    var r := State(f, map[], spawned);
    Spawns(good, f, spawned, p, false);
    hide CanReach, Alone;
    Moves(good, r, f, p, Start, spawned, HashCandidate(p), f, Hashed);
    Moves(good, r, f, p, Hashed, spawned, LookForObject(p), f, NoObject);
    Moves(good, r, f, p, NoObject, spawned, TakeLock(p), f.(lock := true), Locked);
    Moves(good, r, f.(lock := true), p, Locked, spawned, LookForStaging(p), f.(lock := true), NoStaging);
  }

  lemma Leaves(good: Good, r: State, f: Files, p: ProcId, spawned: set<ProcId>, recovery: bool)
    requires CanReach(good, r, Alone(f, p, Renamed(recovery), spawned)) && Recorded(f)
    requires recovery ==> Artifact(f, f.stored.value, good)
    ensures CanReach(good, r, Alone(f.(lock := false), p, Done, spawned))
  {
    hide CanReach, Alone;
    var g := f.(lock := false);
    Moves(good, r, f, p, Renamed(recovery), spawned, RemoveLock(p), g, Unlocked(recovery));
    var a := if recovery then VerifyObject(p) else VerifyRecord(p);
    Moves(good, r, g, p, Unlocked(recovery), spawned, a, g, Done);
  }

  // With nothing in its way, a publisher puts exactly what it copied under a complete record,
  // and leaves no lock and no staging.
  lemma PublisherCompletes(good: Good, f: Files, spawned: set<ProcId>, p: ProcId, c: Content)
    requires !f.lock && f.staging.None? && f.stored.None? && p !in spawned
    ensures CanReach(good, State(f, map[], spawned), Alone(Published(f, c), p, Done, spawned))
  {
    var r := State(f, map[], spawned);
    var g := f.(lock := true);
    Enters(good, f, spawned, p);
    hide CanReach, Alone;
    Copies(good, r, g, p, spawned, c);
    var d := f.next;
    var copied := g.(staging := Some(d), dirs := g.dirs[d := Dir(Some(c), Absent)], next := d + 1);
    Seals(good, r, copied, p, spawned, false, Copied);
    Leaves(good, r, Renames(copied, d), p, spawned, false);
    assert copied.dirs[d := Dir(Some(c), Full)] == f.dirs[d := Dir(Some(c), Full)];
    assert Renames(copied, d).(lock := false) == Published(f, c);
  }

  function Renames(f: Files, d: DirId): Files
    requires d in f.dirs
  {
    f.(stored := Some(d), staging := None, dirs := f.dirs[d := f.dirs[d].(meta := Full)])
  }

  lemma Copies(good: Good, r: State, f: Files, p: ProcId, spawned: set<ProcId>, c: Content)
    requires f.staging.None? && CanReach(good, r, Alone(f, p, NoStaging, spawned))
    ensures CanReach(good, r,
      Alone(f.(staging := Some(f.next), dirs := f.dirs[f.next := Dir(Some(c), Absent)], next := f.next + 1), p, Copied,
        spawned))
  {
    hide CanReach, Alone;
    var d := f.next;
    var g := f.(staging := Some(d), dirs := f.dirs[d := Dir(None, Absent)], next := d + 1);
    Moves(good, r, f, p, NoStaging, spawned, MakeStaging(p), g, Made(d));
    var h := g.(dirs := f.dirs[d := Dir(Some(c), Absent)]);
    assert WithArtifact(g, d, c) == h by { assert g.dirs[d := Dir(Some(c), Absent)] == h.dirs; }
    Moves(good, r, g, p, Made(d), spawned, OpenCopy(p, c), h, Copying(d));
    assert WithArtifact(h, d, c) == h by { assert h.dirs[d := h.dirs[d]] == h.dirs; }
    Moves(good, r, h, p, Copying(d), spawned, FinishCopy(p, c), h, Copied);
  }

  // From a copied or rehashed staging without metadata to the renamed object.
  lemma Seals(good: Good, r: State, f: Files, p: ProcId, spawned: set<ProcId>, recovery: bool, pc: Pc)
    requires Staged(f) && f.stored.None? && f.dirs[f.staging.value].meta == Absent
    requires pc == (if recovery then Rehashed else Copied) && CanReach(good, r, Alone(f, p, pc, spawned))
    ensures CanReach(good, r, Alone(Renames(f, f.staging.value), p, Renamed(recovery), spawned))
  {
    hide CanReach, Alone;
    var d := f.staging.value;
    var g := WithMeta(f, d, Part);
    Moves(good, r, f, p, pc, spawned, CreateMeta(p), g, MetaOpen(d, recovery));
    var h := WithMeta(f, d, Full);
    assert WithMeta(g, d, Full) == h by { assert g.dirs[d := g.dirs[d].(meta := Full)] == h.dirs; }
    Moves(good, r, g, p, MetaOpen(d, recovery), spawned, WriteMeta(p), h, MetaDone(recovery));
    Moves(good, r, h, p, MetaDone(recovery), spawned, Rename(p), Renames(f, d), Renamed(recovery));
  }

  // ---------- Recovering ----------

  // A publisher that finds a recorded object takes it as it is.
  lemma PublisherReuses(good: Good, f: Files, spawned: set<ProcId>, p: ProcId)
    requires Recorded(f) && p !in spawned
    ensures CanReach(good, State(f, map[], spawned), Alone(f, p, Done, spawned))
  {
    var r := State(f, map[], spawned);
    Spawns(good, f, spawned, p, false);
    hide CanReach, Alone;
    Moves(good, r, f, p, Start, spawned, HashCandidate(p), f, Hashed);
    Moves(good, r, f, p, Hashed, spawned, LookForObject(p), f, Unlocked(false));
    Moves(good, r, f, p, Unlocked(false), spawned, VerifyRecord(p), f, Done);
  }

  // A recovery that finds a good object only takes the lock away.
  lemma RecoveryReuses(good: Good, f: Files, spawned: set<ProcId>, p: ProcId)
    requires Recorded(f) && Artifact(f, f.stored.value, good) && p !in spawned
    ensures CanReach(good, State(f, map[], spawned), Alone(f.(lock := false), p, Done, spawned))
  {
    var r := State(f, map[], spawned);
    Spawns(good, f, spawned, p, true);
    hide CanReach, Alone;
    Moves(good, r, f, p, RecoverStart, spawned, RecoverLook(p), f, Found);
    Moves(good, r, f, p, Found, spawned, VerifyObject(p), f, FoundGood);
    Moves(good, r, f, p, FoundGood, spawned, RemoveLock(p), f.(lock := false), Done);
  }

  lemma SeesNoObject(good: Good, f: Files, spawned: set<ProcId>, p: ProcId)
    requires f.stored.None? && f.lock && p !in spawned
    ensures CanReach(good, State(f, map[], spawned),
      Alone(f, p, if f.staging.None? then Aborting else RecoverStaging, spawned))
  {
    var r := State(f, map[], spawned);
    Spawns(good, f, spawned, p, true);
    hide CanReach, Alone;
    Moves(good, r, f, p, RecoverStart, spawned, RecoverLook(p), f, RecoverNoObject);
    Moves(good, r, f, p, RecoverNoObject, spawned, RecoverNeedsLock(p), f, RecoverLocked);
    Moves(good, r, f, p, RecoverLocked, spawned, RecoverLookForStaging(p), f,
      if f.staging.None? then Aborting else RecoverStaging);
  }

  // Without staging it aborts: the lock goes, and nothing else changes.
  lemma RecoveryAborts(good: Good, f: Files, spawned: set<ProcId>, p: ProcId)
    requires f.stored.None? && f.lock && f.staging.None? && p !in spawned
    ensures CanReach(good, State(f, map[], spawned), Alone(f.(lock := false), p, Done, spawned))
  {
    SeesNoObject(good, f, spawned, p);
    hide CanReach, Alone;
    Moves(good, State(f, map[], spawned), f, p, Aborting, spawned, RemoveLock(p), f.(lock := false), Done);
  }

  // With good staging, and its metadata whole or not yet there, it publishes that staging.
  lemma RecoveryCompletes(good: Good, f: Files, spawned: set<ProcId>, p: ProcId)
    requires f.stored.None? && f.lock && Staged(f) && Artifact(f, f.staging.value, good) && p !in spawned
    requires f.dirs[f.staging.value].meta != Part
    ensures CanReach(good, State(f, map[], spawned),
      Alone(Renames(f, f.staging.value).(lock := false), p, Done, spawned))
  {
    var r := State(f, map[], spawned);
    var d := f.staging.value;
    SeesNoObject(good, f, spawned, p);
    hide CanReach, Alone;
    Moves(good, r, f, p, RecoverStaging, spawned, Rehash(p), f, Rehashed);
    if f.dirs[d].meta == Absent {
      Seals(good, r, f, p, spawned, true, Rehashed);
    } else {
      Moves(good, r, f, p, Rehashed, spawned, AcceptMeta(p), f, MetaDone(true));
      assert f.dirs[d := f.dirs[d].(meta := Full)] == f.dirs;
      Moves(good, r, f, p, MetaDone(true), spawned, Rename(p), Renames(f, d), Renamed(true));
    }
    Leaves(good, r, Renames(f, d), p, spawned, true);
  }

  // ---------- Refusals ----------

  // Where a process stands, and what it needs of the files to go on.
  predicate MayGoOn(good: Good, f: Files, pc: Pc)
  {
    match pc
    case Start => true
    case Hashed => true
    // The lock file is created exclusively, then the staging directory.
    case NoObject => !f.lock
    case Locked => f.staging == None
    case NoStaging => f.staging == None
    case Made(_) => Staged(f)
    case Copying(d) => d in f.dirs
    case Copied => Staged(f) && f.dirs[f.staging.value].meta == Absent
    case RecoverStart => true
    case Found => Recorded(f) && Artifact(f, f.stored.value, good)
    case FoundGood => true
    case RecoverNoObject => f.lock
    case RecoverLocked => true
    case Aborting => true
    case RecoverStaging => Staged(f) && Artifact(f, f.staging.value, good)
    // Metadata that is there must be the whole record.
    case Rehashed => Staged(f) && f.dirs[f.staging.value].meta != Part
    case MetaOpen(d, _) => d in f.dirs
    case MetaDone(_) => Staged(f) && f.stored == None
    case Renamed(_) => true
    case Unlocked(recovery) => Recorded(f) && (recovery ==> Artifact(f, f.stored.value, good))
    case Done => false
  }

  function StepFor(f: Files, pc: Pc, p: ProcId): Action
  {
    match pc
    case Start => HashCandidate(p)
    case Hashed => LookForObject(p)
    case NoObject => TakeLock(p)
    case Locked => LookForStaging(p)
    case NoStaging => MakeStaging(p)
    case Made(_) => OpenCopy(p, 0)
    case Copying(_) => FinishCopy(p, 0)
    case Copied => CreateMeta(p)
    case RecoverStart => RecoverLook(p)
    case Found => VerifyObject(p)
    case FoundGood => RemoveLock(p)
    case RecoverNoObject => RecoverNeedsLock(p)
    case RecoverLocked => RecoverLookForStaging(p)
    case Aborting => RemoveLock(p)
    case RecoverStaging => Rehash(p)
    case Rehashed => if Staged(f) && f.dirs[f.staging.value].meta == Full then AcceptMeta(p) else CreateMeta(p)
    case MetaOpen(_, _) => WriteMeta(p)
    case MetaDone(_) => Rename(p)
    case Renamed(_) => RemoveLock(p)
    case Unlocked(recovery) => if recovery then VerifyObject(p) else VerifyRecord(p)
    case Done => Stop(p)
  }

  // Every step but a stop is refused exactly when the files are not as needed.
  lemma GoesOnExactly(good: Good, f: Files, pc: Pc, p: ProcId)
    ensures MayGoOn(good, f, pc) <==> exists a: Action :: a.p == p && !a.Stop? && CanStep(good, f, Some(pc), a)
  {
    if MayGoOn(good, f, pc) { assert CanStep(good, f, Some(pc), StepFor(f, pc, p)); }
  }
}
