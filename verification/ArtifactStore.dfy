// The publish-once store for one package build key: any number of publishers, readers
// and materialisers, each file system call a step, each process able to stop anywhere.
//
// A publisher stages privately in a slot, takes the lease, and renames its staged
// directory to the object path.  The lease is a file lock, so it ends with its holder.
module ArtifactStore {
  import opened Wrappers

  type ProcId = nat
  type Slot = nat
  type Content = int
  type Digest = int
  type Hash = Content -> Digest

  // A slot keeps whatever its last user left in it.
  datatype Staged = Staged(content: Content, record: Option<Digest>)

  // `publisher` is history.
  datatype Object = Object(content: Content, record: Option<Digest>, sealed: bool, publisher: ProcId)

  datatype Pc =
    | Start
    | Hashed(digest: Digest)
    // the object was there: take and drop the lease, then verify
    | Reusing(digest: Digest)
    | ReuseHolding(digest: Digest)
    // private staging
    | Staging(digest: Digest, slot: Slot)
    | Ready(digest: Digest, slot: Slot)
    // under the lease
    | Holding(digest: Digest, slot: Slot)
    | Clear(digest: Digest, slot: Slot)
    | Discarded(digest: Digest)
    | Renamed(digest: Digest)
    | Sealed(digest: Digest)
    // verify_expected: record, tree, modes
    | Verifying(expected: Option<Digest>)
    | RecordRead(digest: Digest)
    | TreeHashed(digest: Digest)
    | Verified(digest: Digest)
    // materialize: copy out, hash the copy, rename it into place
    | CopiedOut(digest: Digest, copy: Content)

  // `hashed`, `renames` and `delivered` are history: the digest each publisher computed of
  // its candidate, the renames into place, and the copies handed out.
  datatype State = State(
    lease: Option<ProcId>,
    published: Option<Object>,
    slots: map<Slot, Staged>,
    procs: map<ProcId, Pc>,
    spawned: set<ProcId>,
    hashed: map<ProcId, Digest>,
    renames: nat,
    delivered: set<Content>)

  const INITIAL := State(None, None, map[], map[], {}, map[], 0, {})

  datatype Action =
    | SpawnPublisher(p: ProcId)
    | SpawnReader(p: ProcId)
    | Stop(p: ProcId)
    | HashCandidate(p: ProcId, digest: Digest)
    | LookForObject(p: ProcId, slot: Slot)
    | Copy(p: ProcId, content: Content)
    | WriteRecord(p: ProcId)
    | TakeLease(p: ProcId)
    | LookAgain(p: ProcId)
    | Rename(p: ProcId)
    | Seal(p: ProcId)
    | DropLease(p: ProcId)
    | ReadRecord(p: ProcId)
    | HashTree(p: ProcId)
    | CheckModes(p: ProcId)
    | CopyOut(p: ProcId, copy: Content)
    | Deliver(p: ProcId)

  predicate HasSlot(pc: Pc) { pc.Staging? || pc.Ready? || pc.Holding? || pc.Clear? }

  // ---------- Views ----------

  // What one process can see and change.
  datatype View = View(
    pc: Option<Pc>,
    lease: Option<ProcId>,
    published: Option<Object>,
    staged: Option<Staged>,
    hashed: Option<Digest>,
    renames: nat,
    delivered: set<Content>)

  function SlotOf(s: State, a: Action): Slot
  {
    if a.LookForObject? then a.slot
    else if a.p in s.procs && HasSlot(s.procs[a.p]) then s.procs[a.p].slot
    else 0
  }

  function ViewOf(s: State, p: ProcId, n: Slot): View
  {
    View(Lookup(s.procs, p), s.lease, s.published, Lookup(s.slots, n), Lookup(s.hashed, p), s.renames, s.delivered)
  }

  function Update(s: State, p: ProcId, n: Slot, v: View): State
  {
    State(
      v.lease, v.published, Put(s.slots, n, v.staged), Put(s.procs, p, v.pc), s.spawned + {p},
      Put(s.hashed, p, v.hashed), v.renames, v.delivered)
  }

  // ---------- Steps ----------

  predicate AtPc(v: View, pc: Pc) { v.pc == Some(pc) }

  predicate CanStep(H: Hash, v: View, a: Action)
  {
    match a
    case SpawnPublisher(_) => v.pc.None?
    case SpawnReader(_) => v.pc.None?
    case Stop(_) => v.pc.Some?
    case HashCandidate(_, _) => AtPc(v, Start)
    case LookForObject(_, _) => v.pc.Some? && v.pc.value.Hashed?
    case Copy(_, _) => v.pc.Some? && v.pc.value.Staging?
    // The record file is created exclusively.
    case WriteRecord(_) => v.pc.Some? && v.pc.value.Staging? && v.staged.Some? && v.staged.value.record.None?
    case TakeLease(_) => v.pc.Some? && (v.pc.value.Ready? || v.pc.value.Reusing?) && v.lease.None?
    case LookAgain(_) => v.pc.Some? && v.pc.value.Holding?
    // A rename onto an existing object fails.
    case Rename(_) => v.pc.Some? && v.pc.value.Clear? && v.published.None? && v.staged.Some?
    case Seal(_) => v.pc.Some? && v.pc.value.Renamed? && v.published.Some?
    case DropLease(_) => v.pc.Some? && (v.pc.value.ReuseHolding? || v.pc.value.Discarded? || v.pc.value.Sealed?)
    case ReadRecord(_) =>
      && v.pc.Some? && v.pc.value.Verifying?
      && v.published.Some? && v.published.value.record.Some?
      && (v.pc.value.expected.Some? ==> v.pc.value.expected == v.published.value.record)
    case HashTree(_) => v.pc.Some? && v.pc.value.RecordRead? && v.published.Some?
      && H(v.published.value.content) == v.pc.value.digest
    case CheckModes(_) => v.pc.Some? && v.pc.value.TreeHashed? && v.published.Some? && v.published.value.sealed
    case CopyOut(_, _) => v.pc.Some? && v.pc.value.Verified?
    case Deliver(_) => v.pc.Some? && v.pc.value.CopiedOut? && H(v.pc.value.copy) == v.pc.value.digest
  }

  function Go(v: View, pc: Pc): View { v.(pc := Some(pc)) }

  function Next(H: Hash, v: View, a: Action): View
    requires CanStep(H, v, a)
  {
    match a
    case SpawnPublisher(_) => Go(v, Start).(hashed := None)
    case SpawnReader(_) => Go(v, Verifying(None)).(hashed := None)
    case Stop(p) => v.(pc := None, lease := if v.lease == Some(p) then None else v.lease)
    // Whatever the candidate holds at this moment.
    case HashCandidate(_, d) => Go(v, Hashed(d)).(hashed := Some(d))
    case LookForObject(_, n) =>
      if v.published.Some? then Go(v, Reusing(v.pc.value.digest))
      else Go(v, Staging(v.pc.value.digest, n)).(staged := if v.staged.Some? then v.staged else Some(Staged(0, None)))
    // Whatever ends up in the slot: part of a copy, a candidate that changed, or a
    // mixture with what an earlier user of the slot left.
    case Copy(_, c) => v.(staged := Some(Staged(c, if v.staged.Some? then v.staged.value.record else None)))
    case WriteRecord(_) =>
      var staged := v.staged.value.(record := Some(v.pc.value.digest));
      Go(v, Ready(v.pc.value.digest, v.pc.value.slot)).(staged := Some(staged))
    case TakeLease(p) =>
      var pc := v.pc.value;
      Go(v, if pc.Ready? then Holding(pc.digest, pc.slot) else ReuseHolding(pc.digest)).(lease := Some(p))
    case LookAgain(_) =>
      var pc := v.pc.value;
      if v.published.Some? then Go(v, Discarded(pc.digest)).(staged := None) else Go(v, Clear(pc.digest, pc.slot))
    case Rename(p) =>
      Go(v, Renamed(v.pc.value.digest)).(
        published := Some(Object(v.staged.value.content, v.staged.value.record, false, p)), staged := None,
        renames := v.renames + 1)
    case Seal(_) => Go(v, Sealed(v.pc.value.digest)).(published := Some(v.published.value.(sealed := true)))
    case DropLease(_) => Go(v, Verifying(Some(v.pc.value.digest))).(lease := None)
    case ReadRecord(_) => Go(v, RecordRead(v.published.value.record.value))
    case HashTree(_) => Go(v, TreeHashed(v.pc.value.digest))
    case CheckModes(_) => Go(v, Verified(v.pc.value.digest))
    case CopyOut(_, c) => Go(v, CopiedOut(v.pc.value.digest, c))
    case Deliver(_) => v.(pc := None, delivered := v.delivered + {v.pc.value.copy})
  }

  // Process numbers are never used twice; a slot name is, once its user is gone.
  ghost predicate Enabled(H: Hash, s: State, a: Action)
  {
    && CanStep(H, ViewOf(s, a.p, SlotOf(s, a)), a)
    && (a.SpawnPublisher? || a.SpawnReader? ==> a.p !in s.spawned)
    && (a.LookForObject? ==> forall q :: q in s.procs && HasSlot(s.procs[q]) ==> s.procs[q].slot != a.slot)
  }

  ghost function Apply(H: Hash, s: State, a: Action): State
    requires Enabled(H, s, a)
  {
    Update(s, a.p, SlotOf(s, a), Next(H, ViewOf(s, a.p, SlotOf(s, a)), a))
  }

  ghost predicate Reaches(H: Hash, s0: State, actions: seq<Action>, t: State)
  {
    if actions == [] then t == s0
    else
      var n := |actions| - 1;
      exists s :: Reaches(H, s0, actions[..n], s) && Enabled(H, s, actions[n]) && t == Apply(H, s, actions[n])
  }
}
