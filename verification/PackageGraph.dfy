// Which locked packages have a build key, as a plain recursive search without a memo,
// and what its answers mean in terms of dependency paths.
module PackageGraph {
  import opened Wrappers
  import opened Bytes
  import opened PackageOrder

  // `source` is absent for a package that is not globally reusable.
  datatype Package = Package(source: Option<Digest>, dependencies: seq<Key>)

  type Lock = map<Key, Package>

  datatype Error = Cycle | Missing | BadText | DuplicateDependency | TooManyDependencies

  // Everything a key stands for: the source and, in key order, each dependency's name
  // and tree.
  datatype Tree = Tree(source: Digest, dependencies: seq<Entry<Tree>>)

  const MAX_DEPENDENCIES := 4_096

  // The checks made once all dependencies are known; `textsOk` is the context's verdict.
  function Verdict(textsOk: bool, keys: seq<Key>): Option<Error>
  {
    if !textsOk then Some(BadText)
    else if !DistinctKeys(keys) then Some(DuplicateDependency)
    else if |keys| > MAX_DEPENDENCIES then Some(TooManyDependencies)
    else None
  }

  function Derive(lock: Lock, textsOk: bool, key: Key, path: set<Key>): Result<Option<Tree>, Error>
    decreases |lock.Keys - path|, 0
  {
    if key in path then Err(Cycle)
    else if key !in lock then Err(Missing)
    else if lock[key].source.None? then Ok(None)
    else
      Shrinks(lock, key, path);
      match DeriveAll(lock, textsOk, lock[key].dependencies, path + {key})
      case Err(e) => Err(e)
      case Ok(None) => Ok(None)
      case Ok(Some(list)) =>
        match Verdict(textsOk, lock[key].dependencies)
        case Some(e) => Err(e)
        case None => Ok(Some(Tree(lock[key].source.value, Sort(list))))
  }

  // In the listed order; the first dependency without a tree decides.
  function DeriveAll(lock: Lock, textsOk: bool, keys: seq<Key>, path: set<Key>): Result<Option<seq<Entry<Tree>>>, Error>
    decreases |lock.Keys - path|, |keys| + 1
  {
    if keys == [] then Ok(Some([]))
    else
      match Derive(lock, textsOk, keys[0], path)
      case Err(e) => Err(e)
      case Ok(None) => Ok(None)
      case Ok(Some(tree)) =>
        match DeriveAll(lock, textsOk, keys[1..], path)
        case Err(e) => Err(e)
        case Ok(None) => Ok(None)
        case Ok(Some(list)) => Ok(Some([Entry(keys[0], tree)] + list))
  }

  lemma Shrinks(lock: Lock, key: Key, path: set<Key>)
    requires key in lock && key !in path
    ensures |lock.Keys - (path + {key})| < |lock.Keys - path|
  {
    assert lock.Keys - (path + {key}) == (lock.Keys - path) - {key};
  }

  // ---------- The dependencies of a derived package ----------

  predicate Derived<T>(r: Result<Option<T>, Error>) { r.Ok? && r.value.Some? }

  lemma {:induction false} AllDerived(lock: Lock, textsOk: bool, keys: seq<Key>, path: set<Key>)
    requires Derived(DeriveAll(lock, textsOk, keys, path))
    ensures var list := DeriveAll(lock, textsOk, keys, path).value.value;
      |list| == |keys| &&
      forall i :: 0 <= i < |keys| ==>
        list[i].key == keys[i] && Derive(lock, textsOk, keys[i], path) == Ok(Some(list[i].value))
    decreases |keys|
  {
    hide Derive;
    if keys != [] { AllDerived(lock, textsOk, keys[1..], path); }
  }

  lemma {:induction false} AllFromEach(lock: Lock, textsOk: bool, keys: seq<Key>, path: set<Key>)
    requires forall i :: 0 <= i < |keys| ==> Derived(Derive(lock, textsOk, keys[i], path))
    ensures Derived(DeriveAll(lock, textsOk, keys, path))
    decreases |keys|
  {
    hide Derive;
    if keys != [] { AllFromEach(lock, textsOk, keys[1..], path); }
  }

  // Otherwise one dependency gives the same non-answer.
  lemma {:induction false} OneNotDerived(lock: Lock, textsOk: bool, keys: seq<Key>, path: set<Key>) returns (i: nat)
    requires !Derived(DeriveAll(lock, textsOk, keys, path))
    ensures i < |keys| && !Derived(Derive(lock, textsOk, keys[i], path))
    ensures DeriveAll(lock, textsOk, keys, path).Err? <==> Derive(lock, textsOk, keys[i], path).Err?
    ensures DeriveAll(lock, textsOk, keys, path).Err? ==>
      DeriveAll(lock, textsOk, keys, path).error == Derive(lock, textsOk, keys[i], path).error
    decreases |keys|
  {
    hide Derive;
    if Derived(Derive(lock, textsOk, keys[0], path)) {
      var j := OneNotDerived(lock, textsOk, keys[1..], path);
      i := j + 1;
    } else {
      i := 0;
    }
  }

  // A derived package is off the path, present and sourced, and so are its dependencies.
  lemma DerivedStep(lock: Lock, textsOk: bool, key: Key, path: set<Key>)
    requires Derived(Derive(lock, textsOk, key, path))
    ensures key !in path && key in lock && lock[key].source.Some? && Verdict(textsOk, lock[key].dependencies).None?
    ensures forall d :: d in lock[key].dependencies ==> Derived(Derive(lock, textsOk, d, path + {key}))
  {
    var keys := lock[key].dependencies;
    AllDerived(lock, textsOk, keys, path + {key});
    hide Derive;
    forall d | d in keys ensures Derived(Derive(lock, textsOk, d, path + {key})) {
      var i :| 0 <= i < |keys| && keys[i] == d;
    }
  }

  // ---------- Paths ----------

  predicate Path(lock: Lock, p: seq<Key>)
  {
    p != [] && forall i :: 0 <= i < |p| - 1 ==> p[i] in lock && p[i + 1] in lock[p[i]].dependencies
  }

  predicate From(lock: Lock, p: seq<Key>, key: Key) { Path(lock, p) && p[0] == key }

  function Last(p: seq<Key>): Key
    requires p != []
  {
    p[|p| - 1]
  }

  // Where the search must give up: a key met before.
  predicate Revisits(p: seq<Key>, path: set<Key>)
    requires p != []
  {
    Last(p) in path || Last(p) in p[..|p| - 1]
  }

  predicate Unsourced(lock: Lock, key: Key) { key in lock && lock[key].source.None? }

  // A path that leads the search only to packages it can build.
  predicate Clean(lock: Lock, textsOk: bool, p: seq<Key>, path: set<Key>)
    requires p != []
  {
    && !Revisits(p, path)
    && Last(p) in lock
    && !Unsourced(lock, Last(p))
    && Verdict(textsOk, lock[Last(p)].dependencies).None?
  }

  lemma Tail(lock: Lock, p: seq<Key>)
    requires Path(lock, p) && |p| > 1
    ensures From(lock, p[1..], p[1]) && p[0] in lock && p[1] in lock[p[0]].dependencies && Last(p[1..]) == Last(p)
    ensures forall path :: Revisits(p, path) <==> Revisits(p[1..], path + {p[0]})
  {
    var q := p[1..];
    assert p[0 + 1] in lock[p[0]].dependencies;
    forall i | 0 <= i < |q| - 1 ensures q[i] in lock && q[i + 1] in lock[q[i]].dependencies { assert q[i] == p[i + 1]; }
    assert p[..|p| - 1] == [p[0]] + q[..|q| - 1];
  }

  lemma Extended(lock: Lock, key: Key, q: seq<Key>)
    requires key in lock && Path(lock, q) && q[0] in lock[key].dependencies
    ensures From(lock, [key] + q, key) && ([key] + q)[1..] == q
  {
    var p := [key] + q;
    forall i | 0 <= i < |p| - 1 ensures p[i] in lock && p[i + 1] in lock[p[i]].dependencies {
      if i > 0 { assert p[i] == q[i - 1] && p[i + 1] == q[i - 1 + 1]; }
    }
  }

  // Every path from a derived package is clean.
  lemma {:induction false} DerivedPathsAreClean(lock: Lock, textsOk: bool, key: Key, path: set<Key>, p: seq<Key>)
    requires Derived(Derive(lock, textsOk, key, path)) && From(lock, p, key)
    ensures Clean(lock, textsOk, p, path)
    decreases |p|
  {
    DerivedStep(lock, textsOk, key, path);
    hide Derive;
    if |p| > 1 {
      Tail(lock, p);
      DerivedPathsAreClean(lock, textsOk, p[1], path + {key}, p[1..]);
    }
  }

  // What a path must show for each answer other than a tree.
  predicate Explains(lock: Lock, textsOk: bool, p: seq<Key>, path: set<Key>, r: Result<Option<Tree>, Error>)
    requires p != []
  {
    match r
    case Err(Cycle) => Revisits(p, path)
    case Err(Missing) => Last(p) !in lock
    case Err(e) => Last(p) in lock && Verdict(textsOk, lock[Last(p)].dependencies) == Some(e)
    case Ok(None) => Unsourced(lock, Last(p))
    case Ok(Some(_)) => false
  }

  lemma {:induction false} WhyNotDerived(lock: Lock, textsOk: bool, key: Key, path: set<Key>) returns (p: seq<Key>)
    requires !Derived(Derive(lock, textsOk, key, path))
    ensures From(lock, p, key) && Explains(lock, textsOk, p, path, Derive(lock, textsOk, key, path))
    decreases |lock.Keys - path|
  {
    p := [key];
    if key !in path && key in lock && lock[key].source.Some? {
      var keys := lock[key].dependencies;
      Shrinks(lock, key, path);
      if !Derived(DeriveAll(lock, textsOk, keys, path + {key})) {
        var i := OneNotDerived(lock, textsOk, keys, path + {key});
        var q := WhyNotDerived(lock, textsOk, keys[i], path + {key});
        SameNonAnswer(lock, textsOk, key, path, keys[i]);
        hide Derive;
        p := [key] + q;
        Extended(lock, key, q);
        Tail(lock, p);
      }
    }
  }

  lemma SameNonAnswer(lock: Lock, textsOk: bool, key: Key, path: set<Key>, d: Key)
    requires key !in path && key in lock && lock[key].source.Some?
    requires var r := DeriveAll(lock, textsOk, lock[key].dependencies, path + {key});
      var a := Derive(lock, textsOk, d, path + {key});
      !Derived(r) && !Derived(a) && (r.Err? <==> a.Err?) && (r.Err? ==> r.error == a.error)
    ensures Derive(lock, textsOk, key, path) == Derive(lock, textsOk, d, path + {key})
  {
  }

  // A package has a key exactly when every path from it is clean: no repetition, every
  // package present and sourced, every dependency list acceptable.
  lemma DerivedExactly(lock: Lock, textsOk: bool, key: Key)
    ensures Derived(Derive(lock, textsOk, key, {})) <==> forall p :: From(lock, p, key) ==> Clean(lock, textsOk, p, {})
  {
    hide Derive;
    if Derived(Derive(lock, textsOk, key, {})) {
      forall p | From(lock, p, key) ensures Clean(lock, textsOk, p, {}) {
        DerivedPathsAreClean(lock, textsOk, key, {}, p);
      }
    } else {
      var p := WhyNotDerived(lock, textsOk, key, {});
      assert !Clean(lock, textsOk, p, {});
    }
  }

  // When the search fails nowhere, the packages left out are exactly those with an
  // unsourced package somewhere below them.
  lemma EligibleExactly(lock: Lock, textsOk: bool, key: Key)
    requires Derive(lock, textsOk, key, {}).Ok?
    ensures Derived(Derive(lock, textsOk, key, {})) <==> forall p :: From(lock, p, key) ==> !Unsourced(lock, Last(p))
  {
    hide Derive;
    if Derived(Derive(lock, textsOk, key, {})) {
      forall p | From(lock, p, key) ensures !Unsourced(lock, Last(p)) {
        DerivedPathsAreClean(lock, textsOk, key, {}, p);
      }
    } else {
      var p := WhyNotDerived(lock, textsOk, key, {});
      assert Unsourced(lock, Last(p));
    }
  }

  // ---------- Only the closure matters ----------

  // Wherever a path of the first lock leads, both locks say the same up to the order of
  // the dependencies.
  ghost predicate AgreeBelow(a: Lock, b: Lock, key: Key)
  {
    forall p :: From(a, p, key) && Last(p) in a ==> SamePackage(a, b, Last(p))
  }

  ghost predicate SamePackage(a: Lock, b: Lock, key: Key)
    requires key in a
  {
    key in b && a[key].source == b[key].source && multiset(a[key].dependencies) == multiset(b[key].dependencies)
  }

  lemma AgreeAtDependency(a: Lock, b: Lock, key: Key, d: Key)
    requires AgreeBelow(a, b, key) && key in a && d in a[key].dependencies
    ensures AgreeBelow(a, b, d)
  {
    forall p | From(a, p, d) && Last(p) in a ensures SamePackage(a, b, Last(p)) {
      Extended(a, key, p);
      assert Last([key] + p) == Last(p);
    }
  }

  // Lists of the same keys in another order, with one tree per key, sort alike.
  lemma RearrangedTrees(x: seq<Entry<Tree>>, y: seq<Entry<Tree>>, k: seq<Key>, l: seq<Key>)
    requires DistinctKeys(k) && multiset(k) == multiset(l)
    requires |x| == |k| && |y| == |l|
    requires forall i :: 0 <= i < |k| ==> x[i].key == k[i]
    requires forall j :: 0 <= j < |l| ==> y[j].key == l[j]
    requires forall i, j :: 0 <= i < |k| && 0 <= j < |l| && k[i] == l[j] ==> x[i].value == y[j].value
    ensures Sort(x) == Sort(y) && DistinctKeys(l) && |l| == |k|
  {
    RearrangedDistinct(k, l);
    forall e: Entry<Tree> | e in x ensures e in y {
      var i :| 0 <= i < |x| && x[i] == e;
      assert k[i] in l;
      var j :| 0 <= j < |l| && l[j] == k[i];
      assert y[j] == e;
    }
    forall e: Entry<Tree> | e in y ensures e in x {
      var j :| 0 <= j < |y| && y[j] == e;
      assert l[j] in k;
      var i :| 0 <= i < |k| && k[i] == l[j];
      assert x[i] == e;
    }
    SortIgnoresOrder(x, y);
  }

  // A package's tree is a function of its closure: not of the rest of the lock, not of
  // the order of any dependency list.
  lemma {:induction false} OnlyClosureMatters(a: Lock, b: Lock, textsOk: bool, key: Key, path: set<Key>)
    requires Derived(Derive(a, textsOk, key, path)) && AgreeBelow(a, b, key)
    ensures Derive(b, textsOk, key, path) == Derive(a, textsOk, key, path)
    decreases |a.Keys - path|
  {
    DerivedStep(a, textsOk, key, path);
    assert From(a, [key], key) && Last([key]) == key;
    assert SamePackage(a, b, key);
    var k := a[key].dependencies;
    var l := b[key].dependencies;
    Shrinks(a, key, path);
    forall d | d in k ensures Derive(b, textsOk, d, path + {key}) == Derive(a, textsOk, d, path + {key}) {
      AgreeAtDependency(a, b, key, d);
      OnlyClosureMatters(a, b, textsOk, d, path + {key});
    }
    AllDerived(a, textsOk, k, path + {key});
    RearrangedDistinct(k, l);
    SameAnswers(a, b, textsOk, k, l, path + {key});
  }

  lemma SameAnswers(a: Lock, b: Lock, textsOk: bool, k: seq<Key>, l: seq<Key>, path: set<Key>)
    requires Derived(DeriveAll(a, textsOk, k, path))
    requires forall d :: d in k ==>
      Derived(Derive(a, textsOk, d, path)) && Derive(b, textsOk, d, path) == Derive(a, textsOk, d, path)
    requires DistinctKeys(k) && multiset(k) == multiset(l)
    ensures Derived(DeriveAll(b, textsOk, l, path))
    ensures Sort(DeriveAll(b, textsOk, l, path).value.value) == Sort(DeriveAll(a, textsOk, k, path).value.value)
    ensures Verdict(textsOk, k).None? ==> Verdict(textsOk, l).None?
  {
    hide Derive;
    RearrangedDistinct(k, l);
    AllFromEach(b, textsOk, l, path);
    AllDerived(a, textsOk, k, path);
    AllDerived(b, textsOk, l, path);
    hide DeriveAll;
    RearrangedTrees(DeriveAll(a, textsOk, k, path).value.value, DeriveAll(b, textsOk, l, path).value.value, k, l);
  }
}
