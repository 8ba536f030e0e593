// The memoised depth-first search over a lock, proved against the search without a memo.
module PackageSearch {
  import opened Wrappers
  import opened Bytes
  import opened PackageOrder
  import opened PackageGraph
  import opened PackageKeys

  // Memoised keys hold on every path that avoids the memo; later entries only narrow
  // those paths.
  ghost predicate Known(lock: Lock, c: Context, H: Hash, resolved: map<Key, Digest>, key: Key)
    requires key in resolved
  {
    forall path: set<Key> :: path !! resolved.Keys ==>
      KeyOf(H, c, Derive(lock, ValidTexts(c), key, path)) == Ok(Some(resolved[key]))
  }

  lemma KnownGrows(lock: Lock, c: Context, H: Hash, small: map<Key, Digest>, large: map<Key, Digest>, key: Key)
    requires key in small && Known(lock, c, H, small, key)
    requires forall k :: k in small ==> k in large && large[k] == small[k]
    ensures Known(lock, c, H, large, key)
  {
    forall path: set<Key> | path !! large.Keys
      ensures KeyOf(H, c, Derive(lock, ValidTexts(c), key, path)) == Ok(Some(large[key])) {
      assert path !! small.Keys;
    }
  }

  // ---------- The loop over one dependency list ----------

  // The entries collected so far carry the keys of the first dependencies.
  ghost predicate Collected(lock: Lock, c: Context, H: Hash, keys: seq<Key>, path: set<Key>, list: seq<Entry<Digest>>)
  {
    && |list| <= |keys|
    && forall i :: 0 <= i < |list| ==>
         list[i].key == keys[i] && KeyOf(H, c, Derive(lock, ValidTexts(c), keys[i], path)) == Ok(Some(list[i].value))
  }

  lemma {:induction false} FirstNonAnswer(lock: Lock, textsOk: bool, keys: seq<Key>, path: set<Key>, n: nat)
    requires n < |keys| && !Derived(Derive(lock, textsOk, keys[n], path))
    requires forall i :: 0 <= i < n ==> Derived(Derive(lock, textsOk, keys[i], path))
    ensures var r := DeriveAll(lock, textsOk, keys, path);
      var a := Derive(lock, textsOk, keys[n], path);
      !Derived(r) && (r.Err? <==> a.Err?) && (r.Err? ==> r.error == a.error)
    decreases |keys|
  {
    hide Derive;
    if n > 0 { FirstNonAnswer(lock, textsOk, keys[1..], path, n - 1); }
  }

  lemma StopsAt(lock: Lock, c: Context, H: Hash, key: Key, path: set<Key>, list: seq<Entry<Digest>>)
    requires key !in path && key in lock && lock[key].source.Some?
    requires var keys := lock[key].dependencies;
      && |list| < |keys|
      && Collected(lock, c, H, keys, path + {key}, list)
      && !Derived(Derive(lock, ValidTexts(c), keys[|list|], path + {key}))
    ensures Derive(lock, ValidTexts(c), key, path)
      == Derive(lock, ValidTexts(c), lock[key].dependencies[|list|], path + {key})
  {
    var keys := lock[key].dependencies;
    FirstNonAnswer(lock, ValidTexts(c), keys, path + {key}, |list|);
    SameNonAnswer(lock, ValidTexts(c), key, path, keys[|list|]);
  }

  // ---------- The key of a package whose dependencies are all collected ----------

  lemma {:induction false} InsertTreeKeys(H: Hash, c: Context, x: Entry<Tree>, y: Entry<Digest>, s: seq<Entry<Tree>>,
    t: seq<Entry<Digest>>)
    requires SameKeys(H, c, [x], [y]) && SameKeys(H, c, s, t)
    ensures SameKeys(H, c, Insert(x, s), Insert(y, t))
  {
    hide TreeKey, Less;
    assert [x][0] == x && [y][0] == y;
    if !(s == [] || !Less(s[0].key, x.key)) { InsertTreeKeys(H, c, x, y, s[1..], t[1..]); }
  }

  // Entry by entry, `t` holds the keys of the trees in `s`.
  ghost predicate SameKeys(H: Hash, c: Context, s: seq<Entry<Tree>>, t: seq<Entry<Digest>>)
  {
    |s| == |t| && forall i :: 0 <= i < |s| ==> t[i].key == s[i].key && t[i].value == TreeKey(H, c, s[i].value)
  }

  lemma {:induction false} SortTreeKeys(H: Hash, c: Context, s: seq<Entry<Tree>>, t: seq<Entry<Digest>>)
    requires SameKeys(H, c, s, t)
    ensures SameKeys(H, c, Sort(s), Sort(t))
  {
    hide TreeKey;
    if s != [] {
      SortTreeKeys(H, c, s[1..], t[1..]);
      InsertTreeKeys(H, c, s[0], t[0], Sort(s[1..]), Sort(t[1..]));
    }
  }

  lemma {:induction false} KeysOfEntries(list: seq<Entry<Digest>>, keys: seq<Key>)
    requires |list| == |keys| && forall i :: 0 <= i < |list| ==> list[i].key == keys[i]
    ensures Keys(list) == keys
  {
    if list != [] { KeysOfEntries(list[1..], keys[1..]); }
  }

  lemma CompletesAt(lock: Lock, c: Context, H: Hash, key: Key, path: set<Key>, list: seq<Entry<Digest>>)
    requires key !in path && key in lock && lock[key].source.Some?
    requires |list| == |lock[key].dependencies| && Collected(lock, c, H, lock[key].dependencies, path + {key}, list)
    ensures KeyOf(H, c, Derive(lock, ValidTexts(c), key, path)) == match BuildKey(H, lock[key].source.value, c, list)
      case Ok(b) => Ok(Some(b))
      case Err(e) => Err(e)
  {
    var keys := lock[key].dependencies;
    hide Derive, Verdict, Preimage;
    var trees := CollectedTrees(lock, c, H, keys, path + {key}, list);
    KeysOfEntries(list, keys);
    var t := Tree(lock[key].source.value, Sort(trees));
    KeyFromEntries(H, c, t, trees, list);
    DerivesNode(lock, ValidTexts(c), key, path, trees);
    hide TreeKey, ValidTexts, DeriveAll;
  }

  lemma CollectedTrees(lock: Lock, c: Context, H: Hash, keys: seq<Key>, path: set<Key>, list: seq<Entry<Digest>>)
    returns (trees: seq<Entry<Tree>>)
    requires |list| == |keys| && Collected(lock, c, H, keys, path, list)
    ensures DeriveAll(lock, ValidTexts(c), keys, path) == Ok(Some(trees)) && SameKeys(H, c, trees, list)
  {
    hide Derive, TreeKey, ValidTexts;
    AllFromEach(lock, ValidTexts(c), keys, path);
    AllDerived(lock, ValidTexts(c), keys, path);
    trees := DeriveAll(lock, ValidTexts(c), keys, path).value.value;
    hide DeriveAll;
  }

  lemma DerivesNode(lock: Lock, textsOk: bool, key: Key, path: set<Key>, trees: seq<Entry<Tree>>)
    requires key !in path && key in lock && lock[key].source.Some?
    requires DeriveAll(lock, textsOk, lock[key].dependencies, path + {key}) == Ok(Some(trees))
    ensures Derive(lock, textsOk, key, path) == match Verdict(textsOk, lock[key].dependencies)
      case Some(e) => Err(e)
      case None => Ok(Some(Tree(lock[key].source.value, Sort(trees))))
  {
  }

  lemma KeyFromEntries(H: Hash, c: Context, t: Tree, trees: seq<Entry<Tree>>, list: seq<Entry<Digest>>)
    requires SameKeys(H, c, trees, list) && t.dependencies == Sort(trees)
    ensures TreeKey(H, c, t) == H(Preimage(t.source, c, Sort(list)))
  {
    SortTreeKeys(H, c, trees, list);
    assert TreeKeys(H, c, t) == Sort(list);
  }

  // ---------- The memo ----------

  ghost predicate Sound(lock: Lock, c: Context, H: Hash, resolved: map<Key, Digest>)
  {
    forall k :: k in resolved ==> Known(lock, c, H, resolved, k)
  }

  predicate Extends(small: map<Key, Digest>, large: map<Key, Digest>)
  {
    forall k :: k in small ==> k in large && large[k] == small[k]
  }

  // The entries collected so far, as the memo has them.
  predicate FromMemo(resolved: map<Key, Digest>, keys: seq<Key>, list: seq<Entry<Digest>>)
  {
    && |list| <= |keys|
    && forall i :: 0 <= i < |list| ==> keys[i] in resolved && list[i] == Entry(keys[i], resolved[keys[i]])
  }

  lemma Untouched(resolved: map<Key, Digest>, keys: seq<Key>)
    ensures Extends(resolved, resolved) && FromMemo(resolved, keys, [])
  {
  }

  lemma ExtendsThrough(a: map<Key, Digest>, b: map<Key, Digest>, c: map<Key, Digest>)
    requires Extends(a, b) && Extends(b, c)
    ensures Extends(a, c)
  {
  }

  lemma ExtendsByOne(a: map<Key, Digest>, b: map<Key, Digest>, key: Key, build: Digest)
    requires Extends(a, b) && key !in b
    ensures Extends(a, b[key := build])
  {
  }

  lemma MemoGrows(small: map<Key, Digest>, large: map<Key, Digest>, keys: seq<Key>, list: seq<Entry<Digest>>, d: Key)
    requires FromMemo(small, keys, list) && Extends(small, large)
    requires |list| < |keys| && d == keys[|list|] && d in large
    ensures FromMemo(large, keys, list + [Entry(d, large[d])])
  {
  }

  lemma CollectedFromMemo(lock: Lock, c: Context, H: Hash, resolved: map<Key, Digest>, keys: seq<Key>,
    list: seq<Entry<Digest>>, path: set<Key>)
    requires Sound(lock, c, H, resolved) && FromMemo(resolved, keys, list) && path !! resolved.Keys
    ensures Collected(lock, c, H, keys, path, list)
  {
    hide Derive;
    forall i | 0 <= i < |list|
      ensures list[i].key == keys[i]
        && KeyOf(H, c, Derive(lock, ValidTexts(c), keys[i], path)) == Ok(Some(list[i].value))
    {
      assert Known(lock, c, H, resolved, keys[i]);
    }
  }

  lemma Recalls(lock: Lock, c: Context, H: Hash, resolved: map<Key, Digest>, key: Key, path: set<Key>)
    requires Sound(lock, c, H, resolved) && key in resolved && path !! resolved.Keys
    ensures KeyOf(H, c, Derive(lock, ValidTexts(c), key, path)) == Ok(Some(resolved[key]))
  {
    assert Known(lock, c, H, resolved, key);
  }

  // The answers that need no dependency.
  lemma GivesUp(lock: Lock, c: Context, H: Hash, key: Key, path: set<Key>)
    ensures var a := KeyOf(H, c, Derive(lock, ValidTexts(c), key, path));
      if key in path then a == Err(Cycle)
      else if key !in lock then a == Err(Missing)
      else lock[key].source.None? ==> a == Ok(None)
  {
  }

  // A dependency without a key decides the answer.
  lemma Stops(lock: Lock, c: Context, H: Hash, resolved: map<Key, Digest>, key: Key, path: set<Key>,
    list: seq<Entry<Digest>>, a: Result<Option<Digest>, Error>)
    requires Sound(lock, c, H, resolved) && path + {key} !! resolved.Keys
    requires key !in path && key in lock && lock[key].source.Some?
    requires FromMemo(resolved, lock[key].dependencies, list) && |list| < |lock[key].dependencies|
    requires a == KeyOf(H, c, Derive(lock, ValidTexts(c), lock[key].dependencies[|list|], path + {key}))
      && (a.Ok? ==> a.value.None?)
    ensures KeyOf(H, c, Derive(lock, ValidTexts(c), key, path)) == a
  {
    CollectedFromMemo(lock, c, H, resolved, lock[key].dependencies, list, path + {key});
    StopsAt(lock, c, H, key, path, list);
  }

  predicate Answers(a: Result<Option<Digest>, Error>, b: Result<Digest, Error>)
  {
    match b
    case Ok(d) => a == Ok(Some(d))
    case Err(e) => a == Err(e)
  }

  // Collecting every dependency decides it too, on any path off the memo.
  lemma Completes(lock: Lock, c: Context, H: Hash, resolved: map<Key, Digest>, key: Key, path: set<Key>,
    list: seq<Entry<Digest>>)
    requires Sound(lock, c, H, resolved) && path + {key} !! resolved.Keys
    requires key !in path && key in lock && lock[key].source.Some?
    requires FromMemo(resolved, lock[key].dependencies, list) && |list| == |lock[key].dependencies|
    ensures Answers(KeyOf(H, c, Derive(lock, ValidTexts(c), key, path)), BuildKey(H, lock[key].source.value, c, list))
  {
    CollectedFromMemo(lock, c, H, resolved, lock[key].dependencies, list, path + {key});
    CompletesAt(lock, c, H, key, path, list);
  }

  // The memo stays sound when a package joins it.
  lemma Joins(lock: Lock, c: Context, H: Hash, before: map<Key, Digest>, key: Key, list: seq<Entry<Digest>>)
    requires Sound(lock, c, H, before) && key !in before
    requires key in lock && lock[key].source.Some?
    requires FromMemo(before, lock[key].dependencies, list) && |list| == |lock[key].dependencies|
    requires BuildKey(H, lock[key].source.value, c, list).Ok?
    ensures Sound(lock, c, H, before[key := BuildKey(H, lock[key].source.value, c, list).value])
  {
    hide Derive, BuildKey, KeyOf;
    var build := BuildKey(H, lock[key].source.value, c, list).value;
    var after := before[key := build];
    forall k | k in before ensures Known(lock, c, H, after, k) { KnownGrows(lock, c, H, before, after, k); }
    forall path: set<Key> | path !! after.Keys
      ensures KeyOf(H, c, Derive(lock, ValidTexts(c), key, path)) == Ok(Some(build)) {
      assert key in after;
      Completes(lock, c, H, before, key, path, list);
    }
    assert Known(lock, c, H, after, key);
  }

  // ---------- The search ----------

  class Search {
    const lock: Lock
    const context: Context
    const H: Hash
    var resolved: map<Key, Digest>
    var visiting: set<Key>

    constructor (lock: Lock, context: Context, H: Hash)
      ensures this.lock == lock && this.context == context && this.H == H
      ensures Valid() && resolved == map[] && visiting == {}
    {
      this.lock := lock;
      this.context := context;
      this.H := H;
      resolved := map[];
      visiting := {};
    }

    ghost predicate Valid()
      reads this
    {
      resolved.Keys !! visiting && Sound(lock, context, H, resolved)
    }

    // What a successful call leaves behind: the same nodes under visit, a larger memo.
    twostate predicate Kept()
      reads this
    {
      Valid() && visiting == old(visiting) && Extends(old(resolved), resolved)
    }

    ghost function Answer(key: Key): Result<Option<Digest>, Error>
      reads this
    {
      KeyOf(H, context, Derive(lock, ValidTexts(context), key, visiting))
    }

    method DerivePackageKey(key: Key) returns (r: Result<Option<Digest>, Error>)
      requires Valid()
      modifies this
      ensures r == old(Answer(key))
      ensures r.Ok? ==> Kept()
      ensures r.Ok? && r.value.Some? ==> key in resolved && resolved[key] == r.value.value
      decreases |lock.Keys - visiting|
    {
      hide Derive, KeyOf, Sound, FromMemo, Extends, BuildKey, Derived;
      Untouched(resolved, []);
      GivesUp(lock, context, H, key, visiting);
      if key in resolved {
        Recalls(lock, context, H, resolved, key, visiting);
        return Ok(Some(resolved[key]));
      }
      if key in visiting { return Err(Cycle); }
      visiting := visiting + {key};
      if key !in lock { return Err(Missing); }
      var package := lock[key];
      if package.source.None? {
        visiting := visiting - {key};
        assert visiting == old(visiting);
        return Ok(None);
      }
      ghost var path := old(visiting);
      Shrinks(lock, key, path);
      Untouched(resolved, package.dependencies);
      var dependencies: seq<Entry<Digest>> := [];
      while |dependencies| < |package.dependencies|
        invariant Valid() && visiting == path + {key} && Extends(old(resolved), resolved)
        invariant FromMemo(resolved, package.dependencies, dependencies)
        invariant |dependencies| <= |package.dependencies|
        decreases |package.dependencies| - |dependencies|
      {
        var dependency := package.dependencies[|dependencies|];
        ghost var before := resolved;
        var build := DerivePackageKey(dependency);
        if build.Err? {
          Stops(lock, context, H, before, key, path, dependencies, build);
          return Err(build.error);
        }
        if build.value.None? {
          Stops(lock, context, H, before, key, path, dependencies, build);
          visiting := visiting - {key};
          ExtendsThrough(old(resolved), before, resolved);
          assert visiting == path;
          return Ok(None);
        }
        MemoGrows(before, resolved, package.dependencies, dependencies, dependency);
        ExtendsThrough(old(resolved), before, resolved);
        dependencies := dependencies + [Entry(dependency, build.value.value)];
      }
      var build := BuildKey(H, package.source.value, context, dependencies);
      Completes(lock, context, H, resolved, key, path, dependencies);
      if build.Err? { return Err(build.error); }
      Joins(lock, context, H, resolved, key, dependencies);
      ExtendsByOne(old(resolved), resolved, key, build.value);
      visiting := visiting - {key};
      assert visiting == path;
      resolved := resolved[key := build.value];
      r := Ok(Some(build.value));
    }
  }

  // Every locked package is tried, in whatever order; the first failure ends the search.
  method PackageBuildKeys(lock: Lock, context: Context, H: Hash) returns (r: Result<map<Key, Digest>, Error>)
    ensures r.Ok? ==> forall k :: k in lock ==> Derive(lock, ValidTexts(context), k, {}).Ok?
    ensures r.Ok? ==> forall k :: k in r.value <==> k in lock && Derived(Derive(lock, ValidTexts(context), k, {}))
    ensures r.Ok? ==> forall k :: k in r.value ==>
      KeyOf(H, context, Derive(lock, ValidTexts(context), k, {})) == Ok(Some(r.value[k]))
    ensures r.Err? ==> exists k :: k in lock && Derive(lock, ValidTexts(context), k, {}) == Err(r.error)
  {
    var search := new Search(lock, context, H);
    var remaining := lock.Keys;
    while remaining != {}
      invariant fresh(search) && search.lock == lock && search.context == context && search.H == H
      invariant search.Valid() && search.visiting == {}
      invariant remaining <= lock.Keys
      invariant forall k :: k in lock && k !in remaining ==> Derive(lock, ValidTexts(context), k, {}).Ok?
      invariant forall k :: k in lock && k !in remaining && Derived(Derive(lock, ValidTexts(context), k, {})) ==>
        k in search.resolved
    {
      hide Derive;
      var key :| key in remaining;
      var build := search.DerivePackageKey(key);
      if build.Err? { return Err(build.error); }
      remaining := remaining - {key};
    }
    r := Ok(search.resolved);
    forall k | k in search.resolved
      ensures KeyOf(H, context, Derive(lock, ValidTexts(context), k, {})) == Ok(Some(search.resolved[k]))
    {
      Recalls(lock, context, H, search.resolved, k, {});
    }
  }

  // Two locks, two contexts: without a collision, equal keys mean the same context and
  // the same tree of sources and dependency names.
  lemma EqualBuildKeys(a: Lock, c: Context, k: Key, b: Lock, d: Context, l: Key, H: Hash)
    requires Derived(Derive(a, ValidTexts(c), k, {})) && Derived(Derive(b, ValidTexts(d), l, {}))
    requires var s, t := Derive(a, ValidTexts(c), k, {}).value.value, Derive(b, ValidTexts(d), l, {}).value.value;
      NoCollision(H, c, s, d, t) && TreeKey(H, c, s) == TreeKey(H, d, t)
    ensures c == d && Derive(a, ValidTexts(c), k, {}) == Derive(b, ValidTexts(d), l, {})
    ensures a[k].source == b[l].source
  {
    DerivedIsSmall(a, ValidTexts(c), k, {});
    DerivedIsSmall(b, ValidTexts(d), l, {});
    var s, t := Derive(a, ValidTexts(c), k, {}).value.value, Derive(b, ValidTexts(d), l, {}).value.value;
    SourceOfTree(a, ValidTexts(c), k);
    SourceOfTree(b, ValidTexts(d), l);
    hide Derive, TreeKey, NoCollision, Small, ValidTexts;
    EqualKeysEqualTrees(H, c, s, d, t);
  }

  lemma SourceOfTree(lock: Lock, textsOk: bool, key: Key)
    requires Derived(Derive(lock, textsOk, key, {}))
    ensures key in lock && lock[key].source == Some(Derive(lock, textsOk, key, {}).value.value.source)
  {
  }
}
