// What every run of the publish-once store keeps.
module ArtifactStoreSafety {
  import opened Wrappers
  import opened ArtifactStore

  predicate UnderLease(pc: Pc)
  {
    pc.ReuseHolding? || pc.Holding? || pc.Clear? || pc.Discarded? || pc.Renamed? || pc.Sealed?
  }

  // Verified, up to the point reached.
  predicate Checked(H: Hash, pc: Pc, o: Option<Object>)
  {
    && (pc.RecordRead? || pc.TreeHashed? || pc.Verified? || pc.CopiedOut? ==>
      o.Some? && o.value.record == Some(pc.digest))
    && (pc.TreeHashed? || pc.Verified? || pc.CopiedOut? ==> H(o.value.content) == pc.digest)
    && (pc.Verified? || pc.CopiedOut? ==> o.value.sealed)
  }

  predicate ProcView(H: Hash, v: View, p: ProcId)
    requires v.pc.Some?
  {
    var pc := v.pc.value;
    && (UnderLease(pc) <==> v.lease == Some(p))
    && (pc.Clear? ==> v.published.None?)
    && (pc.Ready? || pc.Holding? || pc.Clear? ==> v.staged.Some? && v.staged.value.record == Some(pc.digest))
    && (pc.Renamed? ==> v.published.Some? && !v.published.value.sealed && v.published.value.publisher == p)
    && (pc.Sealed? ==> v.published.Some? && v.published.value.sealed)
    && Checked(H, pc, v.published)
    && OwnDigest(pc, v.hashed)
  }

  // A publisher goes by the digest it hashed; a reader has none.
  predicate OwnDigest(pc: Pc, hashed: Option<Digest>)
  {
    match pc
    case Start => hashed.None?
    case Verifying(expected) => expected == hashed
    case RecordRead(d) => hashed.None? || hashed == Some(d)
    case TreeHashed(d) => hashed.None? || hashed == Some(d)
    case Verified(d) => hashed.None? || hashed == Some(d)
    case CopiedOut(d, _) => hashed.None? || hashed == Some(d)
    case _ => hashed == Some(pc.digest)
  }

  // One rename per object; a complete record in it; deliveries match it.
  predicate StoreView(H: Hash, v: View)
  {
    && v.renames == (if v.published.Some? then 1 else 0)
    && (v.published.Some? ==> v.published.value.record.Some?)
    && (forall c :: c in v.delivered ==>
      v.published.Some? && v.published.value.sealed && v.published.value.record == Some(H(c)))
  }

  // An object is published once, then only sealed.
  predicate Forward(a: Option<Object>, b: Option<Object>)
  {
    a.Some? ==> b == a || b == Some(a.value.(sealed := true))
  }

  lemma StoreStep(H: Hash, v: View, a: Action)
    requires CanStep(H, v, a) && StoreView(H, v) && (v.pc.Some? ==> ProcView(H, v, a.p))
    ensures StoreView(H, Next(H, v, a)) && Forward(v.published, Next(H, v, a).published)
  {
  }

  lemma ActorStep(H: Hash, v: View, a: Action)
    requires CanStep(H, v, a) && if v.pc.Some? then ProcView(H, v, a.p) else v.lease != Some(a.p)
    ensures var w := Next(H, v, a); w.pc.Some? ==> ProcView(H, w, a.p)
  {
  }

  // What a step may do to the lease and the object.
  predicate Disturbs(v: View, w: View, a: Action)
  {
    && Forward(v.published, w.published)
    && (w.lease == v.lease || v.lease.None? || v.lease == Some(a.p))
    && (w.lease == v.lease || w.lease.None? || w.lease == Some(a.p))
    && (w.published == v.published || (v.pc.Some? && UnderLease(v.pc.value)))
    && (v.published.None? && w.published.Some? ==> v.pc.Some? && v.pc.value.Clear?)
  }

  lemma StepDisturbs(H: Hash, v: View, a: Action)
    requires CanStep(H, v, a) && (v.pc.Some? ==> ProcView(H, v, a.p))
    ensures Disturbs(v, Next(H, v, a), a)
  {
  }

  lemma NeighbourStep(H: Hash, u: View, v: View, w: View, p: ProcId, a: Action)
    requires u.pc.Some? && ProcView(H, u, p) && p != a.p && (v.pc.Some? ==> ProcView(H, v, a.p))
    requires u.lease == v.lease && u.published == v.published && Disturbs(v, w, a)
    ensures ProcView(H, u.(lease := w.lease, published := w.published, renames := w.renames, delivered := w.delivered),
      p)
  {
  }

  // ---------- Every reachable state ----------

  function SlotFor(pc: Pc): Slot { if HasSlot(pc) then pc.slot else 0 }

  function MyView(s: State, p: ProcId): View
    requires p in s.procs
  {
    ViewOf(s, p, SlotFor(s.procs[p]))
  }

  // Live processes stage in different slots.
  ghost predicate OwnSlots(s: State)
  {
    forall p, q :: p in s.procs && q in s.procs && p != q && HasSlot(s.procs[p]) && HasSlot(s.procs[q]) ==>
      s.procs[p].slot != s.procs[q].slot
  }

  ghost predicate ProcSafe(H: Hash, s: State, p: ProcId)
    requires p in s.procs
  {
    p in s.spawned && ProcView(H, MyView(s, p), p)
  }

  ghost predicate Safe(H: Hash, s: State)
  {
    && (forall p :: p in s.procs ==> ProcSafe(H, s, p))
    && OwnSlots(s)
    && StoreView(H, ViewOf(s, 0, 0))
    && (s.published.Some? ==> s.published.value.publisher in s.spawned)
    && (s.lease.Some? ==> s.lease.value in s.procs)
  }

  ghost predicate Frame(s: State, a: Action, t: State)
  {
    && var n := SlotOf(s, a);
    && var w := ViewOf(t, a.p, n);
    && (forall p :: p != a.p ==> Lookup(t.procs, p) == Lookup(s.procs, p) && Lookup(t.hashed, p) == Lookup(s.hashed, p))
    && (forall m :: m != n ==> Lookup(t.slots, m) == Lookup(s.slots, m))
    && t.spawned == s.spawned + {a.p}
  }

  lemma ApplyFrame(H: Hash, s: State, a: Action)
    requires Enabled(H, s, a)
    ensures Frame(s, a, Apply(H, s, a))
    ensures ViewOf(Apply(H, s, a), a.p, SlotOf(s, a)) == Next(H, ViewOf(s, a.p, SlotOf(s, a)), a)
  {
    hide CanStep, Next;
  }

  // The slot a step leaves its process with is the one it acted on.
  lemma StepSlot(H: Hash, v: View, a: Action)
    requires CanStep(H, v, a)
    ensures var w := Next(H, v, a);
      w.pc.Some? && HasSlot(w.pc.value) ==>
        if a.LookForObject? then w.pc.value.slot == a.slot
        else v.pc.Some? && HasSlot(v.pc.value) && w.pc.value.slot == v.pc.value.slot
    ensures var w := Next(H, v, a); w.staged != v.staged ==> a.LookForObject? || (v.pc.Some? && HasSlot(v.pc.value))
    ensures var w := Next(H, v, a); w.published.Some? && v.published.None? ==> w.published.value.publisher == a.p
  {
  }

  lemma ActorKept(H: Hash, s: State, a: Action)
    requires Safe(H, s) && Enabled(H, s, a) && a.p in Apply(H, s, a).procs
    ensures ProcSafe(H, Apply(H, s, a), a.p)
  {
    var n := SlotOf(s, a);
    var v := ViewOf(s, a.p, n);
    var t := Apply(H, s, a);
    assert a.p in s.procs ==> ProcSafe(H, s, a.p);
    assert a.p in s.procs ==> MyView(s, a.p) == v || !HasSlot(s.procs[a.p]);
    ActorViewAnywhere(H, s, a);
    ActorStep(H, v, a);
    ApplyFrame(H, s, a);
    StepSlot(H, v, a);
    hide CanStep, Next, Enabled, Apply;
    var w := ViewOf(t, a.p, n);
    SlotIrrelevant(H, w, MyView(t, a.p), a.p);
  }

  // A process without a slot has no claim on any.
  lemma SlotIrrelevant(H: Hash, u: View, v: View, p: ProcId)
    requires u.pc.Some? && ProcView(H, u, p)
    requires v == u || (!HasSlot(u.pc.value) && v == u.(staged := v.staged))
    ensures ProcView(H, v, p)
  {
  }

  lemma ActorViewAnywhere(H: Hash, s: State, a: Action)
    requires Safe(H, s) && Enabled(H, s, a)
    ensures a.p in s.procs ==> ProcView(H, ViewOf(s, a.p, SlotOf(s, a)), a.p)
  {
    if a.p in s.procs {
      assert ProcSafe(H, s, a.p);
      var v := ViewOf(s, a.p, SlotOf(s, a));
      assert a.LookForObject? ==> !HasSlot(s.procs[a.p]);
      SlotIrrelevant(H, MyView(s, a.p), v, a.p);
    }
  }

  lemma BystanderKept(H: Hash, s: State, a: Action, p: ProcId)
    requires Safe(H, s) && Enabled(H, s, a) && p in s.procs && p != a.p
    ensures p in Apply(H, s, a).procs && Apply(H, s, a).procs[p] == s.procs[p] && ProcSafe(H, Apply(H, s, a), p)
  {
    var n := SlotOf(s, a);
    var v := ViewOf(s, a.p, n);
    var w := Next(H, v, a);
    var t := Apply(H, s, a);
    assert ProcSafe(H, s, p);
    if HasSlot(s.procs[p]) && s.procs[p].slot == n { OtherSlot(H, s, a, p); }
    ActorViewAnywhere(H, s, a);
    StepDisturbs(H, v, a);
    ApplyFrame(H, s, a);
    hide CanStep, Next, Enabled, Apply, Safe, ProcView, Disturbs;
    assert Lookup(t.procs, p) == Lookup(s.procs, p) && Lookup(t.hashed, p) == Lookup(s.hashed, p);
    var u := MyView(s, p);
    var kept := u.(lease := w.lease, published := w.published, renames := w.renames, delivered := w.delivered);
    NeighbourStep(H, u, v, w, p, a);
    assert SlotFor(s.procs[p]) != n ==> Lookup(t.slots, SlotFor(s.procs[p])) == Lookup(s.slots, SlotFor(s.procs[p]));
    SlotIrrelevant(H, kept, MyView(t, p), p);
  }

  lemma OtherSlot(H: Hash, s: State, a: Action, p: ProcId)
    requires Safe(H, s) && Enabled(H, s, a) && p in s.procs && p != a.p && HasSlot(s.procs[p])
      && s.procs[p].slot == SlotOf(s, a)
    ensures Next(H, ViewOf(s, a.p, SlotOf(s, a)), a).staged == ViewOf(s, a.p, SlotOf(s, a)).staged
  {
    StepSlot(H, ViewOf(s, a.p, SlotOf(s, a)), a);
    hide Next, CanStep;
    assert OwnSlots(s);
  }

  lemma OwnSlotsKept(H: Hash, s: State, a: Action)
    requires Safe(H, s) && Enabled(H, s, a)
    ensures OwnSlots(Apply(H, s, a))
  {
    var t := Apply(H, s, a);
    ApplyFrame(H, s, a);
    StepSlot(H, ViewOf(s, a.p, SlotOf(s, a)), a);
    hide CanStep, Next, Apply, ProcView, StoreView;
    forall p, q | p in t.procs && q in t.procs && p != q && HasSlot(t.procs[p]) && HasSlot(t.procs[q])
      ensures t.procs[p].slot != t.procs[q].slot
    {
      assert p != a.p ==> Lookup(t.procs, p) == Lookup(s.procs, p);
      assert q != a.p ==> Lookup(t.procs, q) == Lookup(s.procs, q);
    }
  }

  lemma PublisherStep(H: Hash, v: View, a: Action)
    requires CanStep(H, v, a)
    ensures var w := Next(H, v, a);
      v.published.None? && w.published.Some? ==> w.published.value.publisher == a.p && v.pc.Some?
  {
  }

  lemma StoreKept(H: Hash, s: State, a: Action)
    requires Safe(H, s) && Enabled(H, s, a)
    ensures StoreView(H, ViewOf(Apply(H, s, a), 0, 0)) && Forward(s.published, Apply(H, s, a).published)
    ensures var t := Apply(H, s, a); t.published.Some? ==> t.published.value.publisher in t.spawned
  {
    var n := SlotOf(s, a);
    var v := ViewOf(s, a.p, n);
    ActorViewAnywhere(H, s, a);
    assert StoreView(H, v) && CanStep(H, v, a);
    StoreStep(H, v, a) by { hide CanStep, Next, ProcView, StoreView; }
    PublisherStep(H, v, a);
    ApplyFrame(H, s, a);
    hide CanStep, Next, ProcView, Enabled, Apply;
    assert StoreView(H, ViewOf(Apply(H, s, a), a.p, n));
  }

  // The lease ends with its holder.
  lemma LeaseStep(H: Hash, v: View, a: Action)
    requires CanStep(H, v, a) && (v.pc.Some? ==> ProcView(H, v, a.p))
    ensures var w := Next(H, v, a); w.lease == v.lease || w.lease == Some(a.p) || w.lease.None?
    ensures var w := Next(H, v, a); w.lease == Some(a.p) ==> w.pc.Some? || v.pc.None?
  {
  }

  lemma LeaseKept(H: Hash, s: State, a: Action)
    requires Safe(H, s) && Enabled(H, s, a)
    ensures var t := Apply(H, s, a); t.lease.Some? ==> t.lease.value in t.procs
  {
    var t := Apply(H, s, a);
    var v := ViewOf(s, a.p, SlotOf(s, a));
    ActorViewAnywhere(H, s, a);
    LeaseStep(H, v, a);
    ApplyFrame(H, s, a);
    assert ViewOf(t, a.p, SlotOf(s, a)).lease == t.lease && v.lease == s.lease;
    hide CanStep, Next, Enabled, Apply, ProcView, StoreView;
    if t.lease.Some? && t.lease.value != a.p {
      assert Lookup(t.procs, t.lease.value) == Lookup(s.procs, t.lease.value);
    }
  }

  lemma SafeStep(H: Hash, s: State, a: Action)
    requires Safe(H, s) && Enabled(H, s, a)
    ensures Safe(H, Apply(H, s, a)) && Forward(s.published, Apply(H, s, a).published)
  {
    var t := Apply(H, s, a);
    ApplyFrame(H, s, a);
    OwnSlotsKept(H, s, a);
    StoreKept(H, s, a);
    LeaseKept(H, s, a);
    hide Enabled, Apply, ProcSafe, OwnSlots, StoreView;
    forall p | p in t.procs ensures ProcSafe(H, t, p) {
      if p == a.p {
        ActorKept(H, s, a);
      } else {
        assert Lookup(t.procs, p) == Lookup(s.procs, p);
        BystanderKept(H, s, a, p);
      }
    }
  }

  lemma {:induction false} RunIsSafe(H: Hash, s0: State, actions: seq<Action>, t: State)
    requires Safe(H, s0) && Reaches(H, s0, actions, t)
    ensures Safe(H, t) && Forward(s0.published, t.published)
  {
    if actions != [] {
      var n := |actions| - 1;
      var s :| Reaches(H, s0, actions[..n], s) && Enabled(H, s, actions[n]) && t == Apply(H, s, actions[n]);
      hide Safe, Enabled, Apply;
      RunIsSafe(H, s0, actions[..n], s);
      SafeStep(H, s, actions[n]);
    }
  }

  lemma RunFromInitial(H: Hash, actions: seq<Action>, t: State)
    requires Reaches(H, INITIAL, actions, t)
    ensures Safe(H, t)
  {
    RunIsSafe(H, INITIAL, actions, t);
  }

  // ---------- What it means ----------

  // At most one rename into place ever succeeds, and once there the object's contents
  // and record never change.
  lemma PublishedOnce(H: Hash, before: seq<Action>, s: State, after: seq<Action>, t: State)
    requires Reaches(H, INITIAL, before, s) && Reaches(H, s, after, t)
    ensures t.renames <= 1
    ensures s.published.Some? ==>
      && t.published.Some?
      && t.published.value.content == s.published.value.content
      && t.published.value.record == s.published.value.record
      && (s.published.value.sealed ==> t.published == s.published)
  {
    RunFromInitial(H, before, s);
    RunIsSafe(H, s, after, t);
    hide Reaches, ProcSafe, OwnSlots;
  }

  // A publisher past its second look always finds the path free, and what it publishes
  // is its own completed staging: its copy and the digest it computed.
  lemma RenameFindsFreePath(H: Hash, actions: seq<Action>, s: State, p: ProcId)
    requires Reaches(H, INITIAL, actions, s) && p in s.procs && s.procs[p].Clear?
    ensures Enabled(H, s, Rename(p)) && s.lease == Some(p)
    ensures var n := s.procs[p].slot;
      && n in s.slots
      && Apply(H, s, Rename(p)).published == Some(Object(s.slots[n].content, Some(s.procs[p].digest), false, p))
      && forall q :: q in s.procs && q != p && HasSlot(s.procs[q]) ==> s.procs[q].slot != n
  {
    RunFromInitial(H, actions, s);
    assert ProcSafe(H, s, p);
  }

  // Nothing but the rename of a live lease holder makes an object visible.
  lemma OnlyRenamePublishes(H: Hash, actions: seq<Action>, s: State, a: Action)
    requires Reaches(H, INITIAL, actions, s) && Enabled(H, s, a)
    requires s.published.None? && Apply(H, s, a).published.Some?
    ensures a.Rename? && a.p in s.procs && s.procs[a.p].Clear? && s.lease == Some(a.p)
  {
    RunFromInitial(H, actions, s);
    ActorViewAnywhere(H, s, a);
    hide Safe, Reaches, ProcView, StoreView;
  }

  // Every success, by a publisher, a reader or a materialiser, is about bytes that match
  // the recorded digest, in a sealed object; every delivered copy matches it too.
  lemma SuccessMatchesRecord(H: Hash, actions: seq<Action>, s: State)
    requires Reaches(H, INITIAL, actions, s)
    ensures forall p :: p in s.procs && s.procs[p].Verified? ==>
      s.published.Some? && s.published.value.sealed && s.published.value.record == Some(s.procs[p].digest)
      && H(s.published.value.content) == s.procs[p].digest
    ensures forall c :: c in s.delivered ==> s.published.Some? && s.published.value.record == Some(H(c))
  {
    RunFromInitial(H, actions, s);
    forall p | p in s.procs && s.procs[p].Verified?
      ensures s.published.Some? && s.published.value.sealed && s.published.value.record == Some(s.procs[p].digest)
      ensures H(s.published.value.content) == s.procs[p].digest
    {
      assert ProcSafe(H, s, p);
    }
  }

  // ---------- A stop between the rename and the chmod ----------

  // Renamed but never sealed, and its publisher is gone.
  ghost predicate Orphaned(s: State)
  {
    s.published.Some? && !s.published.value.sealed && s.published.value.publisher !in s.procs
  }

  lemma OrphanedStep(H: Hash, s: State, a: Action)
    requires Safe(H, s) && Orphaned(s) && Enabled(H, s, a)
    ensures Orphaned(Apply(H, s, a)) && Apply(H, s, a).published == s.published
    ensures !a.CheckModes?
  {
    ApplyFrame(H, s, a);
    ActorViewAnywhere(H, s, a);
    var p := s.published.value.publisher;
    assert p != a.p ==> Lookup(Apply(H, s, a).procs, p) == Lookup(s.procs, p);
  }

  // From then on nothing changes the object and no verification ever succeeds.
  lemma {:induction false} OrphanIsRefusedForever(H: Hash, before: seq<Action>, s: State, after: seq<Action>, t: State)
    requires Reaches(H, INITIAL, before, s) && Orphaned(s) && Reaches(H, s, after, t)
    ensures t.published == s.published && Orphaned(t)
    ensures forall i :: 0 <= i < |after| ==> !after[i].CheckModes?
    ensures forall p :: p in t.procs ==> !t.procs[p].Verified?
  {
    hide Safe, Orphaned, Enabled, Apply;
    RunFromInitial(H, before, s);
    RunIsSafe(H, s, after, t);
    if after != [] {
      var n := |after| - 1;
      var m :| Reaches(H, s, after[..n], m) && Enabled(H, m, after[n]) && t == Apply(H, m, after[n]);
      RunIsSafe(H, s, after[..n], m);
      OrphanIsRefusedForever(H, before, s, after[..n], m);
      OrphanedStep(H, m, after[n]);
    }
    OrphanUnverified(H, t);
  }

  lemma OrphanUnverified(H: Hash, t: State)
    requires Safe(H, t) && Orphaned(t)
    ensures forall p :: p in t.procs ==> !t.procs[p].Verified?
  {
    forall p | p in t.procs ensures !t.procs[p].Verified? { assert ProcSafe(H, t, p); }
  }

  // The stop itself is possible in every run that has just renamed.
  lemma StopAfterRenameOrphans(H: Hash, actions: seq<Action>, s: State, p: ProcId)
    requires Reaches(H, INITIAL, actions, s) && p in s.procs && s.procs[p].Renamed?
    ensures Enabled(H, s, Stop(p)) && Orphaned(Apply(H, s, Stop(p)))
  {
    RunFromInitial(H, actions, s);
    assert ProcSafe(H, s, p);
  }

  // A sealed object whose bytes match its record is accepted at every later point, by
  // whoever expects nothing in particular or the recorded digest, and by nobody else.
  lemma SealedMatchAlwaysVerifies(H: Hash, before: seq<Action>, s: State, after: seq<Action>, t: State, p: ProcId)
    requires Reaches(H, INITIAL, before, s) && Reaches(H, s, after, t)
    requires s.published.Some? && s.published.value.sealed
      && s.published.value.record == Some(H(s.published.value.content))
    requires p in t.procs
    ensures t.procs[p].Verifying? ==>
      (Enabled(H, t, ReadRecord(p)) <==> t.procs[p].expected.None? || t.procs[p].expected == s.published.value.record)
    ensures t.procs[p].RecordRead? ==> Enabled(H, t, HashTree(p))
    ensures t.procs[p].TreeHashed? ==> Enabled(H, t, CheckModes(p))
  {
    hide Safe, Enabled;
    RunFromInitial(H, before, s);
    RunIsSafe(H, s, after, t);
    MatchVerifies(H, t, p);
  }

  lemma MatchVerifies(H: Hash, t: State, p: ProcId)
    requires Safe(H, t) && p in t.procs
    requires t.published.Some? && t.published.value.sealed
      && t.published.value.record == Some(H(t.published.value.content))
    ensures t.procs[p].Verifying? ==>
      (Enabled(H, t, ReadRecord(p)) <==> t.procs[p].expected.None? || t.procs[p].expected == t.published.value.record)
    ensures t.procs[p].RecordRead? ==> Enabled(H, t, HashTree(p))
    ensures t.procs[p].TreeHashed? ==> Enabled(H, t, CheckModes(p))
  {
    assert ProcSafe(H, t, p);
  }
}
