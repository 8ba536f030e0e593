// The build image store, one caller at a time: publishing with a crash injected at any
// of its four points, and recovery of what the crash left.
module ImageStore {
  import opened Wrappers

  type Key = nat
  type Content = int
  type Digest = int
  type Hash = Content -> Digest

  // A metadata file spells out exactly the key and the digest of its image.
  datatype Image = Image(key: Key, digest: Digest)

  datatype Entry = Entry(artifact: Option<Content>, record: Option<Image>)

  datatype Fault = NoFault | AfterLock | AfterArtifact | AfterMetadata | AfterRename

  datatype Outcome = Published | Reused | Aborted

  datatype Error = BoundaryViolation | ArtifactDrift | RecordDrift | LockBusy | Io

  // The candidate file: whether it is a file under the root, and its bytes when it is
  // hashed and when it is copied.
  datatype Candidate = Candidate(inside: bool, hashed: Content, copied: Content)

  // Everything the store holds for one key.
  datatype Held = Held(lock: bool, staged: Option<Entry>, stored: Option<Entry>)

  predicate Matches(H: Hash, e: Entry, image: Image)
  {
    e.record == Some(image) && e.artifact.Some? && H(e.artifact.value) == image.digest
  }

  // Whether a publication has to create the object, and may.
  predicate Free(h: Held) { !h.lock && h.stored.None? }

  class Store {
    const H: Hash
    var locks: set<Key>
    var staging: map<Key, Entry>
    var objects: map<Key, Entry>

    constructor (H: Hash)
      ensures this.H == H && locks == {} && staging == map[] && objects == map[]
    {
      this.H := H;
      locks := {};
      staging := map[];
      objects := map[];
    }

    function For(key: Key): Held
      reads this
    {
      Held(
        key in locks,
        if key in staging then Some(staging[key]) else None,
        if key in objects then Some(objects[key]) else None)
    }

    twostate predicate OthersKept(key: Key)
      reads this
    {
      forall k :: k != key ==> For(k) == old(For(k))
    }

    method PublishOrReuseWithFault(image: Image, candidate: Candidate, fault: Fault) returns (r: Result<Outcome, Error>)
      modifies this
      ensures OthersKept(image.key)
      // Nothing changes unless the key is free and the candidate is what it should be.
      ensures !candidate.inside ==> r == Err(BoundaryViolation)
      ensures candidate.inside && H(candidate.hashed) != image.digest ==> r == Err(ArtifactDrift)
      ensures !candidate.inside || H(candidate.hashed) != image.digest || !Free(old(For(image.key))) ==>
        For(image.key) == old(For(image.key))
      ensures candidate.inside && H(candidate.hashed) == image.digest && old(For(image.key)).stored.Some? ==>
        r == if old(For(image.key)).stored.value.record == Some(image) then Ok(Reused) else Err(RecordDrift)
      ensures
        && candidate.inside && H(candidate.hashed) == image.digest
        && old(For(image.key)).stored.None? && old(For(image.key)).lock
        ==> r == Err(LockBusy)
      // Otherwise the fault, or staging of unknown origin, decides what is left.
      ensures candidate.inside && H(candidate.hashed) == image.digest && Free(old(For(image.key))) ==>
        && (r, For(image.key)) == if fault == AfterLock then (Err(Io), old(For(image.key)).(lock := true))
          else if old(For(image.key)).staged.Some? then (Err(RecordDrift), old(For(image.key)).(lock := true))
          else if fault == AfterArtifact then (Err(Io), Held(true, Some(Entry(Some(candidate.copied), None)), None))
          else if fault == AfterMetadata
            then (Err(Io), Held(true, Some(Entry(Some(candidate.copied), Some(image))), None))
          else if fault == AfterRename
            then (Err(Io), Held(true, None, Some(Entry(Some(candidate.copied), Some(image)))))
          else (Ok(Published), Held(false, None, Some(Entry(Some(candidate.copied), Some(image)))))
    {
      if !candidate.inside { return Err(BoundaryViolation); }
      if H(candidate.hashed) != image.digest { return Err(ArtifactDrift); }
      var key := image.key;
      if key in objects {
        return if objects[key].record == Some(image) then Ok(Reused) else Err(RecordDrift);
      }
      if key in locks { return Err(LockBusy); }
      locks := locks + {key};
      if fault == AfterLock { return Err(Io); }
      if key in staging { return Err(RecordDrift); }
      staging := staging[key := Entry(None, None)];
      staging := staging[key := Entry(Some(candidate.copied), None)];
      if fault == AfterArtifact { return Err(Io); }
      staging := staging[key := staging[key].(record := Some(image))];
      if fault == AfterMetadata { return Err(Io); }
      objects := objects[key := staging[key]];
      staging := staging - {key};
      if fault == AfterRename { return Err(Io); }
      locks := locks - {key};
      r := if objects[key].record == Some(image) then Ok(Published) else Err(RecordDrift);
    }

    method Verify(image: Image) returns (r: Result<bool, Error>)
      ensures r.Ok? <==> For(image.key).stored.Some? && Matches(H, For(image.key).stored.value, image)
    {
      var key := image.key;
      if key !in objects { return Err(Io); }
      if objects[key].record != Some(image) { return Err(RecordDrift); }
      if objects[key].artifact.None? { return Err(Io); }
      r := if H(objects[key].artifact.value) == image.digest then Ok(true) else Err(ArtifactDrift);
    }

    method Recover(image: Image) returns (r: Result<Outcome, Error>)
      modifies this
      ensures OthersKept(image.key)
      // Success leaves no lock, and a verified object or nothing at all.
      ensures r.Ok? ==> !For(image.key).lock
      ensures r.Ok? && r.value != Aborted ==>
        For(image.key).stored.Some? && Matches(H, For(image.key).stored.value, image)
      ensures r == Ok(Aborted) ==> For(image.key) == Held(false, None, None)
      // It succeeds exactly when the object is good, or the lock is there and the staging
      // is absent or good as far as it got.
      ensures r == Ok(Reused) <==>
        old(For(image.key)).stored.Some? && Matches(H, old(For(image.key)).stored.value, image)
      ensures r == Ok(Aborted) <==> old(For(image.key)) == Held(true, None, None)
      ensures r == Ok(Published) <==>
        && old(For(image.key)).stored.None? && old(For(image.key)).lock && old(For(image.key)).staged.Some?
        && Matches(H, old(For(image.key)).staged.value.(record := Some(image)), image)
        && (old(For(image.key)).staged.value.record.Some? ==> old(For(image.key)).staged.value.record == Some(image))
      // It never touches an object, and moves staging only unchanged.
      ensures old(For(image.key)).stored.Some? ==>
        For(image.key).stored == old(For(image.key)).stored && For(image.key).staged == old(For(image.key)).staged
      ensures r == Ok(Published) ==>
        For(image.key) == Held(false, None, Some(old(For(image.key)).staged.value.(record := Some(image))))
      ensures r.Err? ==> For(image.key) == old(For(image.key))
    {
      var key := image.key;
      if key in objects {
        var verified := Verify(image);
        if verified.Err? { return Err(verified.error); }
        if key in locks { locks := locks - {key}; }
        return Ok(Reused);
      }
      if key !in locks { return Err(RecordDrift); }
      if key !in staging {
        locks := locks - {key};
        return Ok(Aborted);
      }
      if staging[key].artifact.None? { return Err(Io); }
      if H(staging[key].artifact.value) != image.digest { return Err(ArtifactDrift); }
      if staging[key].record.Some? {
        if staging[key].record != Some(image) { return Err(RecordDrift); }
      } else {
        staging := staging[key := staging[key].(record := Some(image))];
      }
      objects := objects[key := staging[key]];
      staging := staging - {key};
      locks := locks - {key};
      var verified := Verify(image);
      if verified.Err? { return Err(verified.error); }
      r := Ok(Published);
    }

    // A crash at any of the four points, then recovery: no lock, no staging, and the
    // object verified unless the crash came before anything was copied.
    method CrashThenRecover(image: Image, candidate: Candidate, fault: Fault) returns (r: Result<Outcome, Error>)
      requires fault != NoFault && candidate.inside
      requires H(candidate.hashed) == image.digest && H(candidate.copied) == image.digest
      requires For(image.key) == Held(false, None, None)
      modifies this
      ensures OthersKept(image.key)
      ensures r == Ok(if fault == AfterLock then Aborted else if fault == AfterRename then Reused else Published)
      ensures !For(image.key).lock && For(image.key).staged.None?
      ensures if fault == AfterLock then For(image.key).stored.None?
        else For(image.key).stored == Some(Entry(Some(candidate.copied), Some(image)))
    {
      var crashed := PublishOrReuseWithFault(image, candidate, fault);
      r := Recover(image);
    }
  }
}
