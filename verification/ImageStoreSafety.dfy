// What every run of the racing image store keeps.  Most of it needs nothing of the
// candidate; that the bytes match the record needs it `stable`.
module ImageStoreSafety {
  import opened Wrappers
  import opened ImageStoreRace

  // ---------- The directories ----------

  ghost predicate Complete(good: Good, f: Files, d: DirId)
  {
    Artifact(f, d, good) && f.dirs[d].meta == Full
  }

  // Until an object exists there is at most one directory, the staging one; the object
  // has its record, and is never the staging directory.
  ghost predicate Tidy(good: Good, f: Files, stable: bool)
  {
    && (forall d :: d in f.dirs ==> d < f.next)
    && (f.staging.Some? ==> f.staging.value in f.dirs)
    && (match f.stored
        case None => forall d :: d in f.dirs ==> f.staging == Some(d)
        case Some(o) =>
          o in f.dirs && f.staging != Some(o) && f.dirs[o].meta == Full && (stable ==> Artifact(f, o, good)))
  }

  predicate Making(pc: Pc) { pc.Made? || pc.Copying? }

  // The staging directory while there is no object.
  predicate Pending(f: Files, d: DirId) { f.stored.None? && f.staging == Some(d) && d in f.dirs }

  // Staging that has been copied into.
  predicate Filled(good: Good, f: Files, stable: bool)
  {
    Staged(f) && f.dirs[f.staging.value].artifact.Some? && (stable ==> Artifact(f, f.staging.value, good))
  }

  ghost predicate ProcView(good: Good, f: Files, pc: Pc, stable: bool)
  {
    && (pc.Made? ==>
      f.stored != Some(pc.dir) && (f.stored.None? ==> Pending(f, pc.dir) && f.dirs[pc.dir].artifact.None?))
    && (pc.Copying? ==>
          if f.stored.None? then Pending(f, pc.dir) && f.dirs[pc.dir].artifact.Some?
            && (stable ==> !Artifact(f, pc.dir, good))
          else stable ==> f.stored != Some(pc.dir))
    && (pc.Copied? || pc.Rehashed? || pc.MetaDone? ==> f.stored.None? ==> Filled(good, f, stable))
    && (pc.MetaDone? ==> f.stored.None? ==> Staged(f) && f.dirs[f.staging.value].meta == Full)
    && (pc.MetaOpen? ==> f.stored.None? ==> Pending(f, pc.dir) && Filled(good, f, stable))
    && (pc.Renamed? || pc.Unlocked? || pc.Found? || pc.FoundGood? ==> f.stored.Some?)
  }

  // ---------- One step ----------

  predicate Ready(good: Good, f: Files, pc: Option<Pc>, a: Action, stable: bool)
  {
    CanStep(good, f, pc, a) && (stable ==> StableCopy(good, a))
  }

  lemma FilesStep(good: Good, f: Files, pc: Option<Pc>, a: Action, stable: bool)
    requires Ready(good, f, pc, a, stable) && Tidy(good, f, stable)
      && (pc.Some? ==> ProcView(good, f, pc.value, stable))
    ensures Tidy(good, Next(good, f, pc, a).files, stable)
  {
  }

  // The object, once there, keeps its directory, and with stable candidates its bytes.
  predicate ObjectKept(f: Files, g: Files, stable: bool)
  {
    f.stored.Some? && f.stored.value in f.dirs ==>
      && g.stored == f.stored && f.stored.value in g.dirs
      && (stable ==> g.dirs[f.stored.value].artifact == f.dirs[f.stored.value].artifact)
  }

  lemma ObjectStep(good: Good, f: Files, pc: Option<Pc>, a: Action, stable: bool)
    requires Ready(good, f, pc, a, stable) && Tidy(good, f, stable)
      && (pc.Some? ==> ProcView(good, f, pc.value, stable))
    ensures ObjectKept(f, Next(good, f, pc, a).files, stable)
  {
  }

  lemma ActorStep(good: Good, f: Files, pc: Option<Pc>, a: Action, stable: bool)
    requires Ready(good, f, pc, a, stable) && Tidy(good, f, stable)
      && (pc.Some? ==> ProcView(good, f, pc.value, stable))
    ensures var o := Next(good, f, pc, a); o.pc.Some? ==> ProcView(good, o.files, o.pc.value, stable)
  {
  }

  lemma NeighbourStep(good: Good, f: Files, pc: Option<Pc>, a: Action, q: Pc, stable: bool)
    requires Ready(good, f, pc, a, stable) && Tidy(good, f, stable)
      && (pc.Some? ==> ProcView(good, f, pc.value, stable))
    requires ProcView(good, f, q, stable)
    requires f.stored.None? && Making(q) && pc.Some? ==> !Making(pc.value)
    ensures ProcView(good, Next(good, f, pc, a).files, q, stable)
  {
  }

  // A process starts making a staging directory only when nobody else is.
  lemma MakingStep(good: Good, f: Files, pc: Option<Pc>, a: Action, q: Pc, stable: bool)
    requires Ready(good, f, pc, a, stable) && Tidy(good, f, stable) && ProcView(good, f, q, stable)
    requires f.stored.None? && Making(q) && pc.Some? ==> !Making(pc.value)
    ensures var o := Next(good, f, pc, a);
      o.files.stored.None? && Making(q) && o.pc.Some? ==> !Making(o.pc.value)
    ensures Next(good, f, pc, a).files.stored.None? ==> f.stored.None?
  {
  }

  // ---------- Every reachable state ----------

  ghost predicate OneMaker(s: State)
  {
    s.files.stored.None? ==>
      forall p, q :: p in s.procs && q in s.procs && Making(s.procs[p]) && Making(s.procs[q]) ==> p == q
  }

  ghost predicate Safe(good: Good, s: State, stable: bool)
  {
    && Tidy(good, s.files, stable)
    && OneMaker(s)
    && forall p :: p in s.procs ==> ProcView(good, s.files, s.procs[p], stable)
  }

  // The facts about one enabled step, with the machine hidden.
  ghost predicate Stepped(good: Good, s: State, a: Action, t: State, stable: bool)
  {
    && Tidy(good, t.files, stable)
    && ObjectKept(s.files, t.files, stable)
    && (a.p in t.procs ==> ProcView(good, t.files, t.procs[a.p], stable))
    && (t.files.stored.None? ==> s.files.stored.None?)
    && forall q :: q in s.procs && q != a.p ==>
         && q in t.procs && t.procs[q] == s.procs[q]
         && ProcView(good, t.files, t.procs[q], stable)
         && (t.files.stored.None? && Making(s.procs[q]) && a.p in t.procs ==> !Making(t.procs[a.p]))
  }

  lemma SteppedOthers(good: Good, s: State, a: Action, q: ProcId, stable: bool)
    requires Safe(good, s, stable) && Enabled(good, s, a) && (stable ==> StableCopy(good, a)) && q in s.procs
      && q != a.p
    ensures var o := Next(good, s.files, PcOf(s, a.p), a);
      && ProcView(good, o.files, s.procs[q], stable)
      && (o.files.stored.None? && Making(s.procs[q]) && o.pc.Some? ==> !Making(o.pc.value))
  {
    hide CanStep, Next, ProcView, Tidy;
    NeighbourStep(good, s.files, PcOf(s, a.p), a, s.procs[q], stable);
    MakingStep(good, s.files, PcOf(s, a.p), a, s.procs[q], stable);
  }

  lemma SafeStepped(good: Good, s: State, a: Action, stable: bool)
    requires Safe(good, s, stable) && Enabled(good, s, a) && (stable ==> StableCopy(good, a))
    ensures Stepped(good, s, a, Apply(good, s, a), stable)
    ensures forall q :: q in Apply(good, s, a).procs && q != a.p ==> q in s.procs
  {
    var f := s.files;
    var pc := PcOf(s, a.p);
    FilesStep(good, f, pc, a, stable);
    ObjectStep(good, f, pc, a, stable);
    ActorStep(good, f, pc, a, stable);
    StoredStays(good, f, pc, a);
    forall q | q in s.procs && q != a.p
      ensures ProcView(good, Next(good, f, pc, a).files, s.procs[q], stable)
      ensures var o := Next(good, f, pc, a); o.files.stored.None? && Making(s.procs[q]) && o.pc.Some? ==>
        !Making(o.pc.value)
    {
      SteppedOthers(good, s, a, q, stable);
    }
    Assemble(good, s, a, Apply(good, s, a), Next(good, f, pc, a), stable) by { ApplyIs(good, s, a); }
    hide *;
  }

  lemma ApplyIs(good: Good, s: State, a: Action)
    requires Enabled(good, s, a)
    ensures var o := Next(good, s.files, PcOf(s, a.p), a);
      Apply(good, s, a) == State(o.files, if o.pc.Some? then s.procs[a.p := o.pc.value]
        else s.procs - {a.p}, s.spawned + {a.p})
  {
  }

  lemma Assemble(good: Good, s: State, a: Action, t: State, o: Outcome, stable: bool)
    requires t == State(o.files, if o.pc.Some? then s.procs[a.p := o.pc.value] else s.procs - {a.p}, s.spawned + {a.p})
    requires Tidy(good, o.files, stable) && ObjectKept(s.files, o.files, stable)
      && (o.pc.Some? ==> ProcView(good, o.files, o.pc.value, stable))
    requires o.files.stored.None? ==> s.files.stored.None?
    requires forall q :: q in s.procs && q != a.p ==>
      && ProcView(good, o.files, s.procs[q], stable)
      && (o.files.stored.None? && Making(s.procs[q]) && o.pc.Some? ==> !Making(o.pc.value))
    ensures Stepped(good, s, a, t, stable)
    ensures forall q :: q in t.procs && q != a.p ==> q in s.procs
  {
    hide ProcView, Tidy, ObjectKept, Making;
  }

  lemma StoredStays(good: Good, f: Files, pc: Option<Pc>, a: Action)
    requires CanStep(good, f, pc, a)
    ensures Next(good, f, pc, a).files.stored.None? ==> f.stored.None?
  {
  }

  lemma SafeStep(good: Good, s: State, a: Action, stable: bool)
    requires Safe(good, s, stable) && Enabled(good, s, a) && (stable ==> StableCopy(good, a))
    ensures Safe(good, Apply(good, s, a), stable) && ObjectKept(s.files, Apply(good, s, a).files, stable)
  {
    SafeStepped(good, s, a, stable);
    hide *;
    SafeFromStepped(good, s, a, Apply(good, s, a), stable);
  }

  lemma SafeFromStepped(good: Good, s: State, a: Action, t: State, stable: bool)
    requires Safe(good, s, stable) && Stepped(good, s, a, t, stable)
    requires forall q :: q in t.procs && q != a.p ==> q in s.procs
    ensures Safe(good, t, stable) && ObjectKept(s.files, t.files, stable)
  {
    hide ProcView, Tidy, ObjectKept, Making;
  }

  lemma {:induction false} RunIsSafe(good: Good, s0: State, actions: seq<Action>, t: State, stable: bool)
    requires Safe(good, s0, stable) && Reaches(good, s0, actions, t, stable)
    ensures Safe(good, t, stable) && ObjectKept(s0.files, t.files, stable)
  {
    if actions != [] {
      var n := |actions| - 1;
      var s :| Reaches(good, s0, actions[..n], s, stable) && Enabled(good, s, actions[n])
        && (stable ==> StableCopy(good, actions[n])) && t == Apply(good, s, actions[n]);
      hide Safe, Enabled, Apply;
      RunIsSafe(good, s0, actions[..n], s, stable);
      SafeStep(good, s, actions[n], stable);
      StoredIsThere(good, s, stable);
    }
  }

  lemma StoredIsThere(good: Good, s: State, stable: bool)
    requires Safe(good, s, stable)
    ensures s.files.stored.Some? ==> s.files.stored.value in s.files.dirs
  {
  }

  lemma RunFromInitial(good: Good, actions: seq<Action>, t: State, stable: bool)
    requires Reaches(good, INITIAL, actions, t, stable)
    ensures Safe(good, t, stable)
  {
    RunIsSafe(good, INITIAL, actions, t, stable);
  }

  // ---------- What it means ----------

  // In every run with stable candidates the object, once there, is always the same
  // directory with the same bytes, they hash to the record's digest, and the record is
  // complete.
  lemma ObjectNeverChanges(good: Good, before: seq<Action>, s: State, after: seq<Action>, t: State)
    requires Reaches(good, INITIAL, before, s, true) && Reaches(good, s, after, t, true) && s.files.stored.Some?
    ensures t.files.stored == s.files.stored
    ensures var o := s.files.stored.value;
      && Complete(good, s.files, o) && Complete(good, t.files, o)
      && t.files.dirs[o].artifact == s.files.dirs[o].artifact
  {
    RunFromInitial(good, before, s, true);
    RunIsSafe(good, s, after, t, true);
    hide Reaches, ProcView, OneMaker;
  }

  // In every run the object, once there, is always the same directory with its record.
  lemma ObjectStays(good: Good, before: seq<Action>, s: State, after: seq<Action>, t: State)
    requires Reaches(good, INITIAL, before, s, false) && Reaches(good, s, after, t, false) && s.files.stored.Some?
    ensures t.files.stored == s.files.stored && Recorded(t.files)
  {
    RunFromInitial(good, before, s, false);
    RunIsSafe(good, s, after, t, false);
    hide Reaches, ProcView, OneMaker;
  }

  // In every run a publisher that renamed or found the object finishes successfully, and
  // so does a recovery exactly when the bytes match.
  lemma FinishersSucceed(good: Good, actions: seq<Action>, s: State, p: ProcId)
    requires Reaches(good, INITIAL, actions, s, false) && p in s.procs
    ensures s.procs[p] == Unlocked(false) ==> Enabled(good, s, VerifyRecord(p))
    ensures s.procs[p] == Unlocked(true) || s.procs[p] == Found ==>
      s.files.stored.Some? && (Enabled(good, s, VerifyObject(p)) <==> Artifact(s.files, s.files.stored.value, good))
  {
    RunFromInitial(good, actions, s, false);
    assert ProcView(good, s.files, s.procs[p], false);
    if s.files.stored.Some? { StoredIsRecorded(good, s); }
    VerifyGuards(good, s.files, s.procs[p], p);
    hide Reaches, Safe, Tidy, CanStep, Recorded;
  }

  lemma VerifyGuards(good: Good, f: Files, pc: Pc, p: ProcId)
    ensures CanStep(good, f, Some(pc), VerifyRecord(p)) <==> pc == Unlocked(false) && Recorded(f)
    ensures CanStep(good, f, Some(pc), VerifyObject(p)) <==>
      (pc == Found || pc == Unlocked(true)) && Recorded(f) && Artifact(f, f.stored.value, good)
  {
  }

  // In every run what is renamed into place, by a publisher or a recovery, is the only
  // directory and has its record; with stable candidates its bytes match.
  lemma OnlyCompleteIsRenamed(good: Good, actions: seq<Action>, s: State, p: ProcId, stable: bool)
    requires Reaches(good, INITIAL, actions, s, stable) && Enabled(good, s, Rename(p))
    ensures forall d :: d in s.files.dirs ==> s.files.staging == Some(d)
    ensures Staged(s.files) && s.files.dirs[s.files.staging.value].meta == Full
    ensures stable ==> Complete(good, s.files, s.files.staging.value)
  {
    RunFromInitial(good, actions, s, stable);
    hide Reaches;
    assert ProcView(good, s.files, s.procs[p], stable);
  }

  // ---------- Exactly when the object's bytes are safe ----------

  // No live process is still copying into the directory.
  ghost predicate Settled(s: State, d: DirId)
  {
    forall q :: q in s.procs && s.procs[q].Copying? ==> s.procs[q].dir != d
  }

  predicate Holds(s: State, o: DirId, artifact: Option<Content>)
  {
    s.files.stored == Some(o) && o in s.files.dirs && s.files.dirs[o].artifact == artifact
  }

  lemma SettledStep(good: Good, s: State, a: Action, o: DirId, artifact: Option<Content>)
    requires Safe(good, s, false) && Holds(s, o, artifact) && Settled(s, o) && Enabled(good, s, a)
    ensures Holds(Apply(good, s, a), o, artifact) && Settled(Apply(good, s, a), o)
  {
    var pc := PcOf(s, a.p);
    assert s.files.staging != Some(o) && (forall d :: d in s.files.dirs ==> d < s.files.next);
    assert pc.Some? && pc.value.Copying? ==> pc.value.dir != o;
    SettledView(good, s.files, pc, a, o);
    ApplyIs(good, s, a);
    hide CanStep, Next, Safe, Enabled, Apply;
  }

  lemma SettledView(good: Good, f: Files, pc: Option<Pc>, a: Action, o: DirId)
    requires CanStep(good, f, pc, a) && f.stored == Some(o) && o in f.dirs && f.staging != Some(o) && o < f.next
    requires pc.Some? && pc.value.Copying? ==> pc.value.dir != o
    ensures var n := Next(good, f, pc, a);
      && n.files.stored == Some(o) && o in n.files.dirs && n.files.dirs[o].artifact == f.dirs[o].artifact
      && (n.pc.Some? && n.pc.value.Copying? ==> n.pc.value.dir != o)
  {
  }

  lemma {:induction false} SettledRun(good: Good, s: State, after: seq<Action>, t: State, o: DirId,
    artifact: Option<Content>)
    requires Safe(good, s, false) && Holds(s, o, artifact) && Settled(s, o) && Reaches(good, s, after, t, false)
    ensures Holds(t, o, artifact) && Settled(t, o)
  {
    if after != [] {
      var n := |after| - 1;
      var m :| Reaches(good, s, after[..n], m, false) && Enabled(good, m, after[n]) && t == Apply(good, m, after[n]);
      hide Safe, Enabled, Apply, Settled, Holds;
      RunIsSafe(good, s, after[..n], m, false);
      SettledRun(good, s, after[..n], m, o, artifact);
      SettledStep(good, m, after[n], o, artifact);
    }
  }

  // Whatever the candidates do, every continuation leaves the object's bytes alone.
  ghost predicate NeverChanges(good: Good, u: State, o: DirId)
  {
    forall after, t :: Reaches(good, u, after, t, false) ==>
      o in u.files.dirs && o in t.files.dirs && t.files.dirs[o].artifact == u.files.dirs[o].artifact
  }

  ghost predicate AlwaysComplete(good: Good, u: State, o: DirId)
  {
    forall after, t :: Reaches(good, u, after, t, false) ==> Complete(good, t.files, o)
  }

  lemma Renames(good: Good, s: State, p: ProcId)
    requires Safe(good, s, false) && Enabled(good, s, Rename(p))
    ensures var o := s.files.staging.value;
      var u := Apply(good, s, Rename(p));
      && Safe(good, u, false) && Holds(u, o, s.files.dirs[o].artifact)
      && (Settled(s, o) <==> Settled(u, o))
  {
    var o := s.files.staging.value;
    SafeStep(good, s, Rename(p), false);
    ApplyIs(good, s, Rename(p));
    hide Safe, Apply;
    var u := Apply(good, s, Rename(p));
    forall q | q in s.procs ensures q != p ==> q in u.procs && u.procs[q] == s.procs[q] {}
  }

  // The step that changes the bytes of an object some process still copies into.
  lemma Overwrites(good: Good, u: State, o: DirId, c: Content) returns (t: State)
    requires Safe(good, u, false) && u.files.stored == Some(o) && !Settled(u, o)
    ensures Reached(good, u, t) && Holds(t, o, Some(c)) && t.files.dirs[o].meta == Full
  {
    var q :| q in u.procs && u.procs[q].Copying? && u.procs[q].dir == o;
    var a := CopySome(q, c);
    t := Apply(good, u, a);
    OneStep(good, u, a);
  }

  ghost predicate Reached(good: Good, u: State, t: State)
  {
    exists after: seq<Action> :: Reaches(good, u, after, t, false)
  }

  lemma OneStep(good: Good, u: State, a: Action)
    requires Enabled(good, u, a)
    ensures Reached(good, u, Apply(good, u, a))
  {
    assert [a][..0] == [];
    assert Reaches(good, u, [], u, false);
    assert Reaches(good, u, [a], Apply(good, u, a), false);
  }

  // After the one rename, in any run: the object's bytes never change exactly when no live
  // process was still copying into its directory.
  lemma ObjectStaysExactly(good: Good, before: seq<Action>, s: State, p: ProcId)
    requires Reaches(good, INITIAL, before, s, false) && Enabled(good, s, Rename(p))
    ensures var o := s.files.staging.value;
      Settled(s, o) <==> NeverChanges(good, Apply(good, s, Rename(p)), o)
  {
    var o := s.files.staging.value;
    var u := Apply(good, s, Rename(p));
    RunFromInitial(good, before, s, false);
    Renames(good, s, p);
    hide Safe, Enabled, Apply, Reaches, Settled;
    if Settled(s, o) {
      forall after, t | Reaches(good, u, after, t, false)
        ensures o in u.files.dirs && o in t.files.dirs && t.files.dirs[o].artifact == u.files.dirs[o].artifact
      {
        SettledRun(good, u, after, t, o, u.files.dirs[o].artifact);
      }
    } else {
      var now := u.files.dirs[o].artifact;
      var c: Content := if now.Some? then now.value + 1 else 0;
      var t := Overwrites(good, u, o, c);
      var after :| Reaches(good, u, after, t, false);
    }
  }

  // And they match the record for good exactly when, besides, they match it then.
  lemma ObjectMatchesExactly(good: Good, before: seq<Action>, s: State, p: ProcId, bad: Content)
    requires Reaches(good, INITIAL, before, s, false) && Enabled(good, s, Rename(p)) && !good(bad)
    ensures var o := s.files.staging.value;
      Settled(s, o) && Artifact(s.files, o, good) <==> AlwaysComplete(good, Apply(good, s, Rename(p)), o)
  {
    var o := s.files.staging.value;
    var u := Apply(good, s, Rename(p));
    RunFromInitial(good, before, s, false);
    Renames(good, s, p);
    hide Safe, Enabled, Apply, Reaches, Settled;
    if Settled(s, o) && Artifact(s.files, o, good) {
      forall after, t | Reaches(good, u, after, t, false) ensures Complete(good, t.files, o) {
        SettledRun(good, u, after, t, o, u.files.dirs[o].artifact);
        RunIsSafe(good, u, after, t, false);
        StoredIsRecorded(good, t);
      }
    } else if !Settled(s, o) {
      var t := Overwrites(good, u, o, bad);
      var after :| Reaches(good, u, after, t, false);
    } else {
      assert Reaches(good, u, [], u, false) by { NoSteps(good, u); }
    }
  }

  lemma NoSteps(good: Good, u: State)
    ensures Reaches(good, u, [], u, false)
  {
  }

  lemma StoredIsRecorded(good: Good, t: State)
    requires Safe(good, t, false) && t.files.stored.Some?
    ensures Recorded(t.files)
  {
  }
}
