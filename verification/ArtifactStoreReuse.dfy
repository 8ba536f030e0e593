// What a publisher's success says about its own candidate, in every run of the
// publish-once store, and when a publisher that finds the object there succeeds.
module ArtifactStoreReuse {
  import opened Wrappers
  import opened ArtifactStore
  import opened ArtifactStoreSafety
  import opened ArtifactStoreRun

  // A publisher succeeds only for the digest it hashed, whoever published the object; and
  // so does a copy that it hands out.
  lemma PublisherGetsItsOwn(H: Hash, actions: seq<Action>, s: State, p: ProcId)
    requires Reaches(H, INITIAL, actions, s) && p in s.procs && p in s.hashed
    ensures s.procs[p].Verified? ==>
      && s.procs[p].digest == s.hashed[p]
      && s.published.Some? && s.published.value.sealed && H(s.published.value.content) == s.hashed[p]
    ensures s.procs[p].CopiedOut? && Enabled(H, s, Deliver(p)) ==> H(s.procs[p].copy) == s.hashed[p]
  {
    RunFromInitial(H, actions, s);
    assert ProcSafe(H, s, p);
    hide Reaches, Safe, Apply, Next;
  }

  // ---------- The digest stays ----------

  predicate KeepsDigest(s: State, t: State, p: ProcId)
  {
    p in t.procs ==> p in t.hashed && p in s.hashed && t.hashed[p] == s.hashed[p]
  }

  lemma HashedOnce(H: Hash, v: View, a: Action)
    requires CanStep(H, v, a) && v.hashed.Some? && v.pc.Some? && ProcView(H, v, a.p)
    ensures Next(H, v, a).hashed == v.hashed
  {
  }

  lemma DigestStep(H: Hash, r: State, s: State, a: Action, p: ProcId)
    requires Safe(H, s) && Enabled(H, s, a) && p in s.spawned && p in r.hashed && KeepsDigest(r, s, p)
    ensures KeepsDigest(r, Apply(H, s, a), p) && p in Apply(H, s, a).spawned
  {
    var t := Apply(H, s, a);
    ApplyFrame(H, s, a);
    ActorViewAnywhere(H, s, a);
    if a.p == p && p in s.procs { HashedOnce(H, ViewOf(s, p, SlotOf(s, a)), a); }
    if a.p !in s.procs { Revives(H, s, a); }
    hide CanStep, Next, Safe, ProcView;
    assert p != a.p ==> Lookup(t.procs, p) == Lookup(s.procs, p) && Lookup(t.hashed, p) == Lookup(s.hashed, p);
    assert p == a.p ==> Lookup(t.hashed, p) == ViewOf(t, p, SlotOf(s, a)).hashed;
  }

  lemma Revives(H: Hash, s: State, a: Action)
    requires Enabled(H, s, a) && a.p !in s.procs
    ensures a.p !in s.spawned
  {
  }

  lemma {:induction false} RunKeepsDigest(H: Hash, r: State, actions: seq<Action>, t: State, p: ProcId)
    requires Safe(H, r) && p in r.spawned && p in r.hashed && Reaches(H, r, actions, t)
    ensures KeepsDigest(r, t, p) && p in t.spawned
  {
    if actions != [] {
      var n := |actions| - 1;
      var s :| Reaches(H, r, actions[..n], s) && Enabled(H, s, actions[n]) && t == Apply(H, s, actions[n]);
      hide Safe, Enabled, Apply;
      RunIsSafe(H, r, actions[..n], s);
      RunKeepsDigest(H, r, actions[..n], s, p);
      DigestStep(H, r, s, actions[n], p);
    }
  }

  // ---------- Finding the object there ----------

  ghost predicate Matching(H: Hash, s: State)
  {
    s.published.Some? && s.published.value.sealed && s.published.value.record == Some(H(s.published.value.content))
  }

  // Where a publisher that has hashed is still to find out, or has found, that the object
  // is there.
  predicate Finding(pc: Pc)
  {
    pc.Hashed? || pc.Reusing? || pc.ReuseHolding? || pc.Ready? || pc.Holding? || pc.Discarded? || pc.Verifying?
    || pc.RecordRead? || pc.TreeHashed? || pc.Verified?
  }

  // One step of a live process, as it sees it.
  lemma Moves(H: Hash, r: State, s: State, a: Action, w: View) returns (t: State)
    requires CanReach(H, r, s) && Safe(H, s) && Enabled(H, s, a) && a.p in s.procs
    requires w == Next(H, ViewOf(s, a.p, SlotOf(s, a)), a)
    ensures CanReach(H, r, t) && Safe(H, t) && t == Apply(H, s, a)
    ensures t.lease == w.lease && t.published == w.published && Lookup(t.procs, a.p) == w.pc
    ensures forall q :: q != a.p ==> Lookup(t.procs, q) == Lookup(s.procs, q)
    ensures forall q :: q != a.p ==> Lookup(t.hashed, q) == Lookup(s.hashed, q)
    ensures Lookup(t.hashed, a.p) == w.hashed
  {
    t := Take(H, r, s, a);
    SafeStep(H, s, a);
    ApplyFrame(H, s, a);
    var n := SlotOf(s, a);
    assert ViewOf(t, a.p, n) == w;
    hide CanStep, Next, Safe, CanReach, Enabled, Apply;
  }

  // The holder of the lease can stop, and frees it.
  lemma FreesLease(H: Hash, r: State, s: State, p: ProcId) returns (t: State)
    requires CanReach(H, r, s) && Safe(H, s) && p in s.procs && s.lease != Some(p)
    ensures CanReach(H, r, t) && Safe(H, t) && t.lease.None? && t.published == s.published
    ensures p in t.procs && t.procs[p] == s.procs[p] && Lookup(t.hashed, p) == Lookup(s.hashed, p)
  {
    t := s;
    if s.lease.Some? {
      var q := s.lease.value;
      var v := ViewOf(s, q, SlotOf(s, Stop(q)));
      t := Moves(H, r, s, Stop(q), v.(pc := None, lease := None));
      assert Lookup(t.procs, p) == Lookup(s.procs, p);
    }
  }

  // A publisher that finds the object, now or at its next look, with the digest it hashed.
  ghost predicate Arrives(H: Hash, r: State, s: State, p: ProcId, pc: Pc, o: Object, d: Digest)
  {
    && CanReach(H, r, s) && Safe(H, s) && p in s.procs && s.procs[p] == pc
    && s.published == Some(o) && o.sealed && o.record == Some(H(o.content)) && H(o.content) == d
    && Lookup(s.hashed, p) == Some(d)
  }

  lemma Arrived(H: Hash, r: State, s: State, p: ProcId, pc: Pc, o: Object, d: Digest, a: Action, next: Pc)
    returns (t: State)
    requires Arrives(H, r, s, p, pc, o, d) && Enabled(H, s, a) && a.p == p
    requires var w := Next(H, ViewOf(s, p, SlotOf(s, a)), a);
      w.pc == Some(next) && w.published == Some(o) && w.hashed == Some(d)
    ensures Arrives(H, r, t, p, next, o, d) && t.lease == Next(H, ViewOf(s, p, SlotOf(s, a)), a).lease
  {
    t := Moves(H, r, s, a, Next(H, ViewOf(s, p, SlotOf(s, a)), a));
    hide Safe, CanReach, CanStep, Next, Apply, Enabled;
  }

  lemma Verifies(H: Hash, r: State, s: State, p: ProcId, o: Object, d: Digest) returns (t: State)
    requires Arrives(H, r, s, p, Verifying(Some(d)), o, d)
    ensures Arrives(H, r, t, p, Verified(d), o, d)
  {
    hide Safe, CanReach, Apply;
    t := Arrived(H, r, s, p, Verifying(Some(d)), o, d, ReadRecord(p), RecordRead(d));
    t := Arrived(H, r, t, p, RecordRead(d), o, d, HashTree(p), TreeHashed(d));
    t := Arrived(H, r, t, p, TreeHashed(d), o, d, CheckModes(p), Verified(d));
  }

  lemma DropsLease(H: Hash, r: State, s: State, p: ProcId, pc: Pc, o: Object, d: Digest) returns (t: State)
    requires Arrives(H, r, s, p, pc, o, d) && (pc == ReuseHolding(d) || pc == Discarded(d))
    ensures Arrives(H, r, t, p, Verified(d), o, d)
  {
    hide Safe, CanReach, Apply;
    t := Arrived(H, r, s, p, pc, o, d, DropLease(p), Verifying(Some(d)));
    t := Verifies(H, r, t, p, o, d);
  }

  // From the first look, or waiting for the lease.
  lemma Waits(H: Hash, r: State, s: State, p: ProcId, o: Object, d: Digest) returns (t: State)
    requires Arrives(H, r, s, p, Reusing(d), o, d)
    ensures Arrives(H, r, t, p, Verified(d), o, d)
  {
    t := FreesLease(H, r, s, p) by { assert ProcSafe(H, s, p); }
    hide Safe, CanReach, Apply;
    t := Arrived(H, r, t, p, Reusing(d), o, d, TakeLease(p), ReuseHolding(d));
    t := DropsLease(H, r, t, p, ReuseHolding(d), o, d);
  }

  lemma FreshSlot(used: set<Slot>) returns (n: Slot)
    ensures n !in used && forall m :: m in used ==> m < n
  {
    if used == {} {
      n := 0;
    } else {
      var x :| x in used;
      var m := FreshSlot(used - {x});
      n := if x < m then m else x + 1;
      forall y | y in used ensures y < n { assert y == x || y in used - {x}; }
    }
  }

  lemma Looks(H: Hash, r: State, s: State, p: ProcId, o: Object, d: Digest) returns (t: State)
    requires Arrives(H, r, s, p, Hashed(d), o, d)
    ensures Arrives(H, r, t, p, Verified(d), o, d)
  {
    var used := set q | q in s.procs && HasSlot(s.procs[q]) :: s.procs[q].slot;
    var n := FreshSlot(used);
    forall q | q in s.procs && HasSlot(s.procs[q]) ensures s.procs[q].slot != n { assert s.procs[q].slot in used; }
    hide Safe, CanReach, Apply;
    t := Arrived(H, r, s, p, Hashed(d), o, d, LookForObject(p, n), Reusing(d));
    t := Waits(H, r, t, p, o, d);
  }

  // From its own staging, at the second look.
  lemma LooksAgain(H: Hash, r: State, s: State, p: ProcId, n: Slot, o: Object, d: Digest) returns (t: State)
    requires Arrives(H, r, s, p, Holding(d, n), o, d)
    ensures Arrives(H, r, t, p, Verified(d), o, d)
  {
    hide Safe, CanReach, Apply;
    t := Arrived(H, r, s, p, Holding(d, n), o, d, LookAgain(p), Discarded(d));
    t := DropsLease(H, r, t, p, Discarded(d), o, d);
  }

  lemma Discards(H: Hash, r: State, s: State, p: ProcId, n: Slot, o: Object, d: Digest) returns (t: State)
    requires Arrives(H, r, s, p, Ready(d, n), o, d)
    ensures Arrives(H, r, t, p, Verified(d), o, d)
  {
    t := FreesLease(H, r, s, p) by { assert ProcSafe(H, s, p); }
    hide Safe, CanReach, Apply;
    t := Arrived(H, r, t, p, Ready(d, n), o, d, TakeLease(p), Holding(d, n));
    t := LooksAgain(H, r, t, p, n, o, d);
  }

  lemma Succeeds(H: Hash, s: State, p: ProcId) returns (t: State)
    requires Safe(H, s) && Matching(H, s) && p in s.procs && p in s.hashed && Finding(s.procs[p])
    requires Some(s.hashed[p]) == s.published.value.record
    ensures CanReach(H, s, t) && p in t.procs && t.procs[p] == Verified(s.hashed[p])
  {
    StaysPut(H, s);
    assert ProcSafe(H, s, p);
    var o, d, pc := s.published.value, s.hashed[p], s.procs[p];
    assert Arrives(H, s, s, p, pc, o, d);
    hide Safe, CanReach, Arrives;
    match pc {
      case Hashed(_) => t := Looks(H, s, s, p, o, d);
      case Reusing(_) => t := Waits(H, s, s, p, o, d);
      case Ready(_, n) => t := Discards(H, s, s, p, n, o, d);
      case Holding(_, n) => t := LooksAgain(H, s, s, p, n, o, d);
      case ReuseHolding(_) => t := DropsLease(H, s, s, p, pc, o, d);
      case Discarded(_) => t := DropsLease(H, s, s, p, pc, o, d);
      case Verifying(_) => t := Verifies(H, s, s, p, o, d);
      case _ => t := Finishes(H, s, s, p, o, d);
    }
    assert p in t.procs && t.procs[p] == Verified(d) by { ArrivesAt(H, s, t, p, Verified(d), o, d); }
    assert CanReach(H, s, t) by { ArrivesAt(H, s, t, p, Verified(d), o, d); }
  }

  lemma ArrivesAt(H: Hash, r: State, s: State, p: ProcId, pc: Pc, o: Object, d: Digest)
    requires Arrives(H, r, s, p, pc, o, d)
    ensures CanReach(H, r, s) && p in s.procs && s.procs[p] == pc
  {
  }

  lemma Finishes(H: Hash, r: State, s: State, p: ProcId, o: Object, d: Digest) returns (t: State)
    requires p in s.procs && Arrives(H, r, s, p, s.procs[p], o, d)
    requires s.procs[p] == RecordRead(d) || s.procs[p] == TreeHashed(d) || s.procs[p] == Verified(d)
    ensures Arrives(H, r, t, p, Verified(d), o, d)
  {
    t := s;
    hide Safe, CanReach, Apply;
    if s.procs[p] == RecordRead(d) { t := Arrived(H, r, t, p, RecordRead(d), o, d, HashTree(p), TreeHashed(d)); }
    if s.procs[p] != Verified(d) { t := Arrived(H, r, t, p, TreeHashed(d), o, d, CheckModes(p), Verified(d)); }
  }

  // A publisher that finds a sealed, matching object, at either look, can come to success
  // exactly when the digest it hashed is the recorded one.
  lemma ReusesExactly(H: Hash, before: seq<Action>, s: State, p: ProcId)
    requires Reaches(H, INITIAL, before, s) && Matching(H, s) && p in s.procs && p in s.hashed && Finding(s.procs[p])
    ensures Some(s.hashed[p]) == s.published.value.record <==>
      exists t :: CanReach(H, s, t) && p in t.procs && t.procs[p].Verified?
  {
    RunFromInitial(H, before, s);
    assert p in s.spawned by { assert ProcSafe(H, s, p); }
    hide Safe, Reaches;
    if Some(s.hashed[p]) == s.published.value.record {
      var t := Succeeds(H, s, p);
      assert t.procs[p].Verified?;
    }
    if t :| CanReach(H, s, t) && p in t.procs && t.procs[p].Verified? {
      var after: seq<Action> :| Reaches(H, s, after, t);
      RunIsSafe(H, s, after, t);
      RunKeepsDigest(H, s, after, t, p);
      VerifiedDigest(H, t, p);
    }
  }

  lemma VerifiedDigest(H: Hash, t: State, p: ProcId)
    requires Safe(H, t) && p in t.procs && p in t.hashed && t.procs[p].Verified?
    ensures t.published.Some? && t.published.value.record == Some(t.hashed[p])
  {
    assert ProcSafe(H, t, p);
  }

  // Whoever has verified can hand out any copy that still hashes to the digest, and no other.
  lemma DeliversExactly(H: Hash, actions: seq<Action>, s: State, p: ProcId, copy: Content)
    requires Reaches(H, INITIAL, actions, s) && p in s.procs && s.procs[p].Verified?
    ensures Enabled(H, s, CopyOut(p, copy))
    ensures var t := Apply(H, s, CopyOut(p, copy));
      && (Enabled(H, t, Deliver(p)) <==> s.published.Some? && s.published.value.record == Some(H(copy)))
      && (Enabled(H, t, Deliver(p)) ==> Apply(H, t, Deliver(p)).delivered == s.delivered + {copy})
  {
    RunFromInitial(H, actions, s);
    assert s.published.Some? && s.published.value.record == Some(s.procs[p].digest) by { assert ProcSafe(H, s, p); }
    CopiesOut(H, s, p, copy);
    hide *;
    Delivers(H, Apply(H, s, CopyOut(p, copy)), p);
  }

  lemma CopiesOut(H: Hash, s: State, p: ProcId, copy: Content)
    requires p in s.procs && s.procs[p].Verified?
    ensures Enabled(H, s, CopyOut(p, copy))
    ensures var t := Apply(H, s, CopyOut(p, copy));
      && p in t.procs && t.procs[p] == CopiedOut(s.procs[p].digest, copy)
      && t.published == s.published && t.delivered == s.delivered
  {
    CopyView(H, ViewOf(s, p, 0), p, copy);
    hide CanStep, Next;
  }

  lemma Delivers(H: Hash, t: State, p: ProcId)
    requires p in t.procs && t.procs[p].CopiedOut?
    ensures Enabled(H, t, Deliver(p)) <==> H(t.procs[p].copy) == t.procs[p].digest
    ensures Enabled(H, t, Deliver(p)) ==> Apply(H, t, Deliver(p)).delivered == t.delivered + {t.procs[p].copy}
  {
    DeliverView(H, ViewOf(t, p, 0), p);
    hide CanStep, Next;
  }

  lemma CopyView(H: Hash, v: View, p: ProcId, copy: Content)
    requires v.pc.Some? && v.pc.value.Verified?
    ensures CanStep(H, v, CopyOut(p, copy))
    ensures Next(H, v, CopyOut(p, copy)) == v.(pc := Some(CopiedOut(v.pc.value.digest, copy)))
  {
  }

  lemma DeliverView(H: Hash, v: View, p: ProcId)
    requires v.pc.Some? && v.pc.value.CopiedOut?
    ensures CanStep(H, v, Deliver(p)) <==> H(v.pc.value.copy) == v.pc.value.digest
    ensures CanStep(H, v, Deliver(p)) ==> Next(H, v, Deliver(p)).delivered == v.delivered + {v.pc.value.copy}
  {
  }

  // A publisher that finds the object at its second look throws its own staging away, and
  // only that.
  lemma SecondLookDiscards(H: Hash, actions: seq<Action>, s: State, p: ProcId)
    requires Reaches(H, INITIAL, actions, s) && p in s.procs && s.procs[p].Holding? && s.published.Some?
    ensures Enabled(H, s, LookAgain(p))
    ensures var t := Apply(H, s, LookAgain(p));
      t.slots == s.slots - {s.procs[p].slot} && t.published == s.published && p in t.procs && t.procs[p].Discarded?
  {
    hide Reaches;
  }
}
