// A run of the publish-once store that succeeds, so its safety is not for want of runs.
module ArtifactStoreRun {
  import opened Wrappers
  import opened ArtifactStore

  ghost predicate CanReach(H: Hash, r: State, t: State)
  {
    exists actions: seq<Action> :: Reaches(H, r, actions, t)
  }

  lemma StaysPut(H: Hash, s: State)
    ensures CanReach(H, s, s)
  {
    assert Reaches(H, s, [], s);
  }

  lemma Take(H: Hash, r: State, s: State, a: Action) returns (t: State)
    requires CanReach(H, r, s) && Enabled(H, s, a)
    ensures CanReach(H, r, t) && t == Apply(H, s, a)
  {
    t := Apply(H, s, a);
    hide Enabled, Apply;
    var actions: seq<Action> :| Reaches(H, r, actions, s);
    var all := actions + [a];
    assert all[..|all| - 1] == actions && all[|all| - 1] == a;
    assert Reaches(H, r, all, t);
  }

  // The state of one process that stages in slot 0.
  function Lone(v: View): State
    requires v.pc.Some?
  {
    State(
      v.lease, v.published, Put(map[], 0, v.staged), map[0 := v.pc.value], {0}, Put(map[], 0, v.hashed), v.renames,
      v.delivered)
  }

  lemma LoneView(v: View)
    requires v.pc.Some?
    ensures ViewOf(Lone(v), 0, 0) == v
  {
  }

  lemma PutTwice<V>(m: map<nat, V>, before: Option<V>, now: Option<V>)
    requires m == Put(map[], 0, before)
    ensures Put(m, 0, now) == Put(map[], 0, now)
  {
  }

  lemma PutOne<V>(x: V)
    ensures Put(map[], 0, Some(x)) == map[0 := x]
  {
  }

  lemma LoneUpdate(v: View, w: View)
    requires v.pc.Some? && w.pc.Some?
    ensures Update(Lone(v), 0, 0, w) == Lone(w)
  {
    PutTwice(Lone(v).slots, v.staged, w.staged);
    PutTwice(Lone(v).hashed, v.hashed, w.hashed);
    PutTwice(Lone(v).procs, v.pc, w.pc);
    hide Put;
    assert {0} + {0} == {0};
    assert Put(map[], 0, w.pc) == map[0 := w.pc.value] by { PutOne(w.pc.value); }
  }

  lemma TakeAlone(H: Hash, v: View, a: Action, w: View)
    requires v.pc.Some? && CanReach(H, INITIAL, Lone(v)) && a.p == 0 && !a.SpawnPublisher? && !a.SpawnReader?
      && (a.LookForObject? ==> a.slot == 0)
    requires HasSlot(v.pc.value) ==> v.pc.value.slot == 0
    requires CanStep(H, v, a) && Next(H, v, a) == w && w.pc.Some?
    ensures CanReach(H, INITIAL, Lone(w))
  {
    var s := Lone(v);
    LoneView(v);
    LoneUpdate(v, w);
    assert SlotOf(s, a) == 0;
    assert a.LookForObject? ==> !HasSlot(v.pc.value) by { LooksWithoutSlot(H, v, a); }
    hide CanStep, Next, CanReach, ViewOf, Update;
    assert Enabled(H, s, a);
    var t := Take(H, INITIAL, s, a);
  }

  lemma LooksWithoutSlot(H: Hash, v: View, a: Action)
    requires CanStep(H, v, a)
    ensures a.LookForObject? ==> !HasSlot(v.pc.value)
  {
  }

  lemma StartsAlone(H: Hash)
    ensures CanReach(H, INITIAL, Lone(View(Some(Start), None, None, None, None, 0, {})))
  {
    StaysPut(H, INITIAL);
    var t := Take(H, INITIAL, INITIAL, SpawnPublisher(0));
    assert t == Lone(View(Some(Start), None, None, None, None, 0, {}));
  }

  lemma StagesAlone(H: Hash, c: Content)
    ensures CanReach(H, INITIAL, Lone(View(Some(Ready(H(c), 0)), None, None, Some(Staged(c, Some(H(c)))), Some(H(c)), 0,
      {})))
  {
    StartsAlone(H);
    hide CanReach, Lone;
    var d := H(c);
    var v := View(Some(Start), None, None, None, None, 0, {});
    var w := v.(pc := Some(Hashed(d)), hashed := Some(d));
    TakeAlone(H, v, HashCandidate(0, d), w);
    var x := w.(pc := Some(Staging(d, 0)), staged := Some(Staged(0, None)));
    TakeAlone(H, w, LookForObject(0, 0), x);
    var y := x.(staged := Some(Staged(c, None)));
    TakeAlone(H, x, Copy(0, c), y);
    TakeAlone(H, y, WriteRecord(0), y.(pc := Some(Ready(d, 0)), staged := Some(Staged(c, Some(d)))));
  }

  lemma PublishesAlone(H: Hash, c: Content)
    ensures CanReach(H, INITIAL, Lone(View(Some(Verifying(Some(H(c)))), None, Some(Object(c, Some(H(c)), true, 0)),
      None,
      Some(H(c)), 1, {})))
  {
    StagesAlone(H, c);
    hide CanReach, Lone;
    var d := H(c);
    var v := View(Some(Ready(d, 0)), None, None, Some(Staged(c, Some(d))), Some(d), 0, {});
    var w := v.(pc := Some(Holding(d, 0)), lease := Some(0));
    TakeAlone(H, v, TakeLease(0), w);
    var x := w.(pc := Some(Clear(d, 0)));
    TakeAlone(H, w, LookAgain(0), x);
    var y := View(Some(Renamed(d)), Some(0), Some(Object(c, Some(d), false, 0)), None, Some(d), 1, {});
    TakeAlone(H, x, Rename(0), y);
    var z := y.(pc := Some(Sealed(d)), published := Some(Object(c, Some(d), true, 0)));
    TakeAlone(H, y, Seal(0), z);
    TakeAlone(H, z, DropLease(0), z.(pc := Some(Verifying(Some(d))), lease := None));
  }

  // A publisher with a stable candidate, alone: it publishes and verifies its bytes.
  lemma LonePublisherSucceeds(H: Hash, c: Content) returns (t: State)
    ensures CanReach(H, INITIAL, t) && t.procs == map[0 := Verified(H(c))] && t.lease.None?
    ensures t.published == Some(Object(c, Some(H(c)), true, 0)) && t.renames == 1
  {
    PublishesAlone(H, c);
    var d := H(c);
    var v := View(Some(Verifying(Some(d))), None, Some(Object(c, Some(d), true, 0)), None, Some(d), 1, {});
    t := Lone(v.(pc := Some(Verified(d))));
    hide CanReach, Lone;
    TakeAlone(H, v, ReadRecord(0), v.(pc := Some(RecordRead(d))));
    TakeAlone(H, v.(pc := Some(RecordRead(d))), HashTree(0), v.(pc := Some(TreeHashed(d))));
    TakeAlone(H, v.(pc := Some(TreeHashed(d))), CheckModes(0), v.(pc := Some(Verified(d))));
  }
}
