// The build image store under competing publishers and recoveries of one image, each
// file system call a step, each process able to stop anywhere.
//
// Directories have identities: a rename moves a directory, and a process that holds an
// open file keeps writing to it wherever its directory has gone.
module ImageStoreRace {
  import opened Wrappers

  type ProcId = nat
  type DirId = nat
  type Content = int

  // Whether bytes hash to the image's recorded digest.
  type Good = Content -> bool

  // `Part` is a metadata file created and not yet written.
  datatype Meta = Absent | Part | Full

  datatype Dir = Dir(artifact: Option<Content>, meta: Meta)

  datatype Files = Files(lock: bool, staging: Option<DirId>, stored: Option<DirId>, dirs: map<DirId, Dir>, next: DirId)

  // `recovery` tells the two callers of the shared tail apart.
  datatype Pc =
    // publish_or_reuse
    | Start
    | Hashed
    | NoObject
    | Locked
    | NoStaging
    | Made(dir: DirId)
    | Copying(dir: DirId)
    | Copied
    // recover
    | RecoverStart
    | Found
    | FoundGood
    | RecoverNoObject
    | RecoverLocked
    | Aborting
    | RecoverStaging
    | Rehashed
    // shared tail: metadata, rename, unlock
    | MetaOpen(dir: DirId, recovery: bool)
    | MetaDone(recovery: bool)
    | Renamed(recovery: bool)
    | Unlocked(recovery: bool)
    | Done

  datatype State = State(files: Files, procs: map<ProcId, Pc>, spawned: set<ProcId>)

  const INITIAL := State(Files(false, None, None, map[], 0), map[], {})

  datatype Action =
    | SpawnPublisher(p: ProcId)
    | SpawnRecovery(p: ProcId)
    | Stop(p: ProcId)
    | HashCandidate(p: ProcId)
    | LookForObject(p: ProcId)
    | TakeLock(p: ProcId)
    | LookForStaging(p: ProcId)
    | MakeStaging(p: ProcId)
    | OpenCopy(p: ProcId, content: Content)
    | CopySome(p: ProcId, content: Content)
    | FinishCopy(p: ProcId, content: Content)
    | RecoverLook(p: ProcId)
    | RecoverNeedsLock(p: ProcId)
    | RecoverLookForStaging(p: ProcId)
    | Rehash(p: ProcId)
    | AcceptMeta(p: ProcId)
    | CreateMeta(p: ProcId)
    | WriteMeta(p: ProcId)
    | Rename(p: ProcId)
    | RemoveLock(p: ProcId)
    | VerifyRecord(p: ProcId)
    | VerifyObject(p: ProcId)

  // ---------- Steps ----------

  predicate Staged(f: Files) { f.staging.Some? && f.staging.value in f.dirs }

  predicate Artifact(f: Files, d: DirId, good: Good)
  {
    d in f.dirs && f.dirs[d].artifact.Some? && good(f.dirs[d].artifact.value)
  }

  predicate Recorded(f: Files) { f.stored.Some? && f.stored.value in f.dirs && f.dirs[f.stored.value].meta == Full }

  // A step that fails, or finds nothing to do, is a stop.
  predicate CanStep(good: Good, f: Files, pc: Option<Pc>, a: Action)
  {
    match a
    case SpawnPublisher(_) => pc.None?
    case SpawnRecovery(_) => pc.None?
    case Stop(_) => pc.Some?
    case HashCandidate(_) => pc == Some(Start)
    case LookForObject(_) => pc == Some(Hashed)
    case TakeLock(_) => pc == Some(NoObject) && !f.lock
    case LookForStaging(_) => pc == Some(Locked) && f.staging.None?
    case MakeStaging(_) => pc == Some(NoStaging) && f.staging.None?
    case OpenCopy(_, _) => pc.Some? && pc.value.Made? && Staged(f)
    case CopySome(_, _) => pc.Some? && pc.value.Copying? && pc.value.dir in f.dirs
    case FinishCopy(_, _) => pc.Some? && pc.value.Copying? && pc.value.dir in f.dirs
    case RecoverLook(_) => pc == Some(RecoverStart)
    case RecoverNeedsLock(_) => pc == Some(RecoverNoObject) && f.lock
    case RecoverLookForStaging(_) => pc == Some(RecoverLocked)
    case Rehash(_) => pc == Some(RecoverStaging) && Staged(f) && Artifact(f, f.staging.value, good)
    case AcceptMeta(_) => pc == Some(Rehashed) && Staged(f) && f.dirs[f.staging.value].meta == Full
    // The metadata file is created exclusively.
    case CreateMeta(_) => (pc == Some(Copied) || pc == Some(Rehashed)) && Staged(f)
      && f.dirs[f.staging.value].meta == Absent
    case WriteMeta(_) => pc.Some? && pc.value.MetaOpen? && pc.value.dir in f.dirs
    // A rename onto an existing object directory fails.
    case Rename(_) => pc.Some? && pc.value.MetaDone? && Staged(f) && f.stored.None?
    case RemoveLock(_) => pc.Some? && (pc.value.Renamed? || pc.value.FoundGood? || pc.value.Aborting?)
    // A publisher checks the record, a recovery the bytes as well.
    case VerifyRecord(_) => pc == Some(Unlocked(false)) && Recorded(f)
    case VerifyObject(_) =>
      (pc == Some(Found) || pc == Some(Unlocked(true))) && Recorded(f) && Artifact(f, f.stored.value, good)
  }

  datatype Outcome = Outcome(files: Files, pc: Option<Pc>)

  function Next(good: Good, f: Files, pc: Option<Pc>, a: Action): Outcome
    requires CanStep(good, f, pc, a)
  {
    match a
    case SpawnPublisher(_) => Outcome(f, Some(Start))
    case SpawnRecovery(_) => Outcome(f, Some(RecoverStart))
    case Stop(_) => Outcome(f, None)
    case HashCandidate(_) => Outcome(f, Some(Hashed))
    case LookForObject(_) => Outcome(f, Some(if f.stored.Some? then Unlocked(false) else NoObject))
    case TakeLock(_) => Outcome(f.(lock := true), Some(Locked))
    case LookForStaging(_) => Outcome(f, Some(NoStaging))
    case MakeStaging(_) =>
      Outcome(f.(staging := Some(f.next), dirs := f.dirs[f.next := Dir(None, Absent)], next := f.next + 1),
        Some(Made(f.next)))
    case OpenCopy(_, c) => Outcome(WithArtifact(f, f.staging.value, c), Some(Copying(f.staging.value)))
    case CopySome(_, c) => Outcome(WithArtifact(f, pc.value.dir, c), pc)
    case FinishCopy(_, c) => Outcome(WithArtifact(f, pc.value.dir, c), Some(Copied))
    case RecoverLook(_) => Outcome(f, Some(if f.stored.Some? then Found else RecoverNoObject))
    case RecoverNeedsLock(_) => Outcome(f, Some(RecoverLocked))
    case RecoverLookForStaging(_) => Outcome(f, Some(if f.staging.None? then Aborting else RecoverStaging))
    case Rehash(_) => Outcome(f, Some(Rehashed))
    case AcceptMeta(_) => Outcome(f, Some(MetaDone(true)))
    case CreateMeta(_) => Outcome(WithMeta(f, f.staging.value, Part),
      Some(MetaOpen(f.staging.value, pc == Some(Rehashed))))
    case WriteMeta(_) => Outcome(WithMeta(f, pc.value.dir, Full), Some(MetaDone(pc.value.recovery)))
    case Rename(_) => Outcome(f.(stored := f.staging, staging := None), Some(Renamed(pc.value.recovery)))
    case RemoveLock(_) => Outcome(f.(lock := false),
      Some(if pc.value.Renamed? then Unlocked(pc.value.recovery) else Done))
    case VerifyRecord(_) => Outcome(f, Some(Done))
    case VerifyObject(_) => Outcome(f, Some(if pc == Some(Found) then FoundGood else Done))
  }

  function WithArtifact(f: Files, d: DirId, c: Content): Files
    requires d in f.dirs
  {
    f.(dirs := f.dirs[d := f.dirs[d].(artifact := Some(c))])
  }

  function WithMeta(f: Files, d: DirId, m: Meta): Files
    requires d in f.dirs
  {
    f.(dirs := f.dirs[d := f.dirs[d].(meta := m)])
  }

  // A stable candidate: a finished copy holds the bytes that were hashed, and bytes cut
  // short do not hash to the same digest.
  predicate StableCopy(good: Good, a: Action)
  {
    && (a.OpenCopy? || a.CopySome? ==> !good(a.content))
    && (a.FinishCopy? ==> good(a.content))
  }

  function PcOf(s: State, p: ProcId): Option<Pc> { if p in s.procs then Some(s.procs[p]) else None }

  ghost predicate Enabled(good: Good, s: State, a: Action)
  {
    CanStep(good, s.files, PcOf(s, a.p), a) && (a.SpawnPublisher? || a.SpawnRecovery? ==> a.p !in s.spawned)
  }

  ghost function Apply(good: Good, s: State, a: Action): State
    requires Enabled(good, s, a)
  {
    var o := Next(good, s.files, PcOf(s, a.p), a);
    State(o.files, if o.pc.Some? then s.procs[a.p := o.pc.value] else s.procs - {a.p}, s.spawned + {a.p})
  }

  ghost predicate Reaches(good: Good, s0: State, actions: seq<Action>, t: State, stable: bool)
  {
    if actions == [] then t == s0
    else
      var n := |actions| - 1;
      exists s ::
        && Reaches(good, s0, actions[..n], s, stable)
        && Enabled(good, s, actions[n])
        && (stable ==> StableCopy(good, actions[n]))
        && t == Apply(good, s, actions[n])
  }
}
