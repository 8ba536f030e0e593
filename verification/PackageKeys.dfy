// The build key of a package, and the memoised search that derives all keys of a lock.
module PackageKeys {
  import opened Wrappers
  import opened Bytes
  import opened PackageOrder
  import opened PackageGraph

  datatype Context = Context(
    toolchain: Text,
    githash: Text,
    lake: Text,
    platform: Text,
    abi: Digest,
    policy: Digest,
    facets: Digest,
    environment: Digest,
    lakeExecutable: Digest)

  type Hash = seq<Byte> -> Digest

  predicate ValidText(t: Text, maximum: nat)
  {
    t != [] && |t| <= maximum && 0 !in t && 10 !in t && 13 !in t
  }

  predicate ValidTexts(c: Context)
  {
    ValidText(c.toolchain, 512) && ValidText(c.githash, 128) && ValidText(c.lake, 128) && ValidText(c.platform, 256)
  }

  // ---------- The hashed bytes ----------

  const PREFIX := Ascii("leanbun-package-build-v1") + [0]

  function ContextBytes(c: Context, rest: seq<Byte>): seq<Byte>
  {
    LengthAndText(c.toolchain) + (LengthAndText(c.githash) + (LengthAndText(c.lake) + (LengthAndText(c.platform)
    + (c.abi + (c.policy + (c.facets + (c.environment + (c.lakeExecutable + rest))))))))
  }

  function EntryBytes(list: seq<Entry<Digest>>): seq<Byte>
  {
    if list == [] then []
    else LengthAndText(list[0].key.scope) + (LengthAndText(list[0].key.name) + (list[0].value + EntryBytes(list[1..])))
  }

  function Preimage(source: Digest, c: Context, list: seq<Entry<Digest>>): seq<Byte>
  {
    PREFIX + (source + ContextBytes(c, Be(|list|, 8) + EntryBytes(list)))
  }

  // ---------- Keys ----------

  function TreeKey(H: Hash, c: Context, t: Tree): Digest
    decreases t, 1
  {
    H(Preimage(t.source, c, TreeKeys(H, c, t)))
  }

  function TreeKeys(H: Hash, c: Context, t: Tree): (r: seq<Entry<Digest>>)
    ensures |r| == |t.dependencies|
    decreases t, 0
  {
    seq(|t.dependencies|, i requires 0 <= i < |t.dependencies| =>
      Entry(t.dependencies[i].key, TreeKey(H, c, t.dependencies[i].value)))
  }

  function Keys<V>(list: seq<Entry<V>>): seq<Key>
  {
    if list == [] then [] else [list[0].key] + Keys(list[1..])
  }

  // The key of one package, from the keys of its dependencies in any order.
  function BuildKey(H: Hash, source: Digest, c: Context, list: seq<Entry<Digest>>): Result<Digest, Error>
  {
    match Verdict(ValidTexts(c), Keys(list))
    case Some(e) => Err(e)
    case None => Ok(H(Preimage(source, c, Sort(list))))
  }

  function KeyOf(H: Hash, c: Context, r: Result<Option<Tree>, Error>): Result<Option<Digest>, Error>
  {
    match r
    case Err(e) => Err(e)
    case Ok(None) => Ok(None)
    case Ok(Some(t)) => Ok(Some(TreeKey(H, c, t)))
  }

  // ---------- Equal keys stand for equal trees ----------

  lemma DigestsCut(c: Context, x: seq<Byte>, d: Context, y: seq<Byte>)
    requires c.abi + (c.policy + (c.facets + (c.environment + (c.lakeExecutable + x))))
          == d.abi + (d.policy + (d.facets + (d.environment + (d.lakeExecutable + y))))
    ensures c.abi == d.abi && c.policy == d.policy && c.facets == d.facets && c.environment == d.environment
    ensures c.lakeExecutable == d.lakeExecutable && x == y
  {
    Cut(c.abi, c.policy + (c.facets + (c.environment + (c.lakeExecutable + x))),
        d.abi, d.policy + (d.facets + (d.environment + (d.lakeExecutable + y))));
    Cut(c.policy, c.facets + (c.environment + (c.lakeExecutable + x)), d.policy, d.facets
      + (d.environment + (d.lakeExecutable + y)));
    Cut(c.facets, c.environment + (c.lakeExecutable + x), d.facets, d.environment + (d.lakeExecutable + y));
    Cut(c.environment, c.lakeExecutable + x, d.environment, d.lakeExecutable + y);
    Cut(c.lakeExecutable, x, d.lakeExecutable, y);
  }

  lemma ContextCut(c: Context, x: seq<Byte>, d: Context, y: seq<Byte>)
    requires ContextBytes(c, x) == ContextBytes(d, y)
    ensures c == d && x == y
  {
    hide LengthAndText;
    var cd := c.abi + (c.policy + (c.facets + (c.environment + (c.lakeExecutable + x))));
    var dd := d.abi + (d.policy + (d.facets + (d.environment + (d.lakeExecutable + y))));
    TextCut(c.toolchain, LengthAndText(c.githash) + (LengthAndText(c.lake) + (LengthAndText(c.platform) + cd)),
            d.toolchain, LengthAndText(d.githash) + (LengthAndText(d.lake) + (LengthAndText(d.platform) + dd)));
    TextCut(c.githash, LengthAndText(c.lake) + (LengthAndText(c.platform) + cd), d.githash, LengthAndText(d.lake)
      + (LengthAndText(d.platform) + dd));
    TextCut(c.lake, LengthAndText(c.platform) + cd, d.lake, LengthAndText(d.platform) + dd);
    TextCut(c.platform, cd, d.platform, dd);
    DigestsCut(c, x, d, y);
  }

  lemma {:induction false} EntriesCut(a: seq<Entry<Digest>>, b: seq<Entry<Digest>>)
    requires EntryBytes(a) == EntryBytes(b) && |a| == |b|
    ensures a == b
  {
    if a != [] {
      var x, y := EntryBytes(a[1..]), EntryBytes(b[1..]);
      hide LengthAndText;
      TextCut(a[0].key.scope, LengthAndText(a[0].key.name) + (a[0].value + x), b[0].key.scope,
        LengthAndText(b[0].key.name) + (b[0].value + y));
      TextCut(a[0].key.name, a[0].value + x, b[0].key.name, b[0].value + y);
      Cut(a[0].value, x, b[0].value, y);
      EntriesCut(a[1..], b[1..]);
      assert a == [a[0]] + a[1..] && b == [b[0]] + b[1..];
    }
  }

  // The hashed bytes determine everything that went into them.
  lemma PreimageCut(s: Digest, c: Context, a: seq<Entry<Digest>>, t: Digest, d: Context, b: seq<Entry<Digest>>)
    requires Preimage(s, c, a) == Preimage(t, d, b)
    requires |a| <= MAX_DEPENDENCIES && |b| <= MAX_DEPENDENCIES
    ensures s == t && c == d && a == b
  {
    var x := Be(|a|, 8) + EntryBytes(a);
    var y := Be(|b|, 8) + EntryBytes(b);
    hide ContextBytes, EntryBytes;
    Cut(PREFIX, s + ContextBytes(c, x), PREFIX, t + ContextBytes(d, y));
    Cut(s, ContextBytes(c, x), t, ContextBytes(d, y));
    ContextCut(c, x, d, y);
    Cut(Be(|a|, 8), EntryBytes(a), Be(|b|, 8), EntryBytes(b));
    Widths();
    BeRoundTrip(|a|, 8);
    BeRoundTrip(|b|, 8);
    EntriesCut(a, b);
  }

  predicate Small(t: Tree)
  {
    |t.dependencies| <= MAX_DEPENDENCIES && forall i :: 0 <= i < |t.dependencies| ==> Small(t.dependencies[i].value)
  }

  // All the byte strings hashed on the way to a tree's key.
  ghost predicate Hashed(H: Hash, c: Context, t: Tree, bytes: seq<Byte>)
  {
    || bytes == Preimage(t.source, c, TreeKeys(H, c, t))
    || exists i :: 0 <= i < |t.dependencies| && Hashed(H, c, t.dependencies[i].value, bytes)
  }

  // No two different byte strings hashed for these two keys collide.
  ghost predicate NoCollision(H: Hash, c: Context, s: Tree, d: Context, t: Tree)
  {
    forall x, y ::
      && (Hashed(H, c, s, x) || Hashed(H, d, t, x))
      && (Hashed(H, c, s, y) || Hashed(H, d, t, y))
      && H(x) == H(y)
      ==> x == y
  }

  lemma SmallBelow(t: Tree, i: nat)
    requires Small(t) && i < |t.dependencies|
    ensures Small(t.dependencies[i].value)
  {
  }

  lemma NoCollisionBelow(H: Hash, c: Context, s: Tree, d: Context, t: Tree, i: nat)
    requires NoCollision(H, c, s, d, t) && i < |s.dependencies| && i < |t.dependencies|
    ensures NoCollision(H, c, s.dependencies[i].value, d, t.dependencies[i].value)
  {
    hide Preimage, TreeKeys;
  }

  lemma EqualRoots(H: Hash, c: Context, s: Tree, d: Context, t: Tree)
    requires Small(s) && Small(t) && NoCollision(H, c, s, d, t)
    requires TreeKey(H, c, s) == TreeKey(H, d, t)
    ensures c == d && s.source == t.source && |s.dependencies| == |t.dependencies|
    ensures forall i :: 0 <= i < |s.dependencies| ==>
      && s.dependencies[i].key == t.dependencies[i].key
      && TreeKey(H, c, s.dependencies[i].value) == TreeKey(H, d, t.dependencies[i].value)
  {
    var x, y := Preimage(s.source, c, TreeKeys(H, c, s)), Preimage(t.source, d, TreeKeys(H, d, t));
    assert Hashed(H, c, s, x) && Hashed(H, d, t, y);
    PreimageCut(s.source, c, TreeKeys(H, c, s), t.source, d, TreeKeys(H, d, t));
    hide Preimage, Hashed, NoCollision, Small;
    forall i | 0 <= i < |s.dependencies|
      ensures s.dependencies[i].key == t.dependencies[i].key
      ensures TreeKey(H, c, s.dependencies[i].value) == TreeKey(H, d, t.dependencies[i].value)
    {
      assert TreeKeys(H, c, s)[i] == TreeKeys(H, d, t)[i];
    }
  }

  // Without collisions equal keys force equal contexts and equal trees: the sources and
  // the names and trees of the dependencies, all the way down.
  lemma {:induction false} EqualKeysEqualTrees(H: Hash, c: Context, s: Tree, d: Context, t: Tree)
    requires Small(s) && Small(t) && NoCollision(H, c, s, d, t)
    requires TreeKey(H, c, s) == TreeKey(H, d, t)
    ensures c == d && s == t
    decreases s
  {
    hide *;
    EqualRoots(H, c, s, d, t);
    forall i | 0 <= i < |s.dependencies| ensures s.dependencies[i] == t.dependencies[i] {
      SmallBelow(s, i);
      SmallBelow(t, i);
      NoCollisionBelow(H, c, s, d, t, i);
      EqualKeysEqualTrees(H, c, s.dependencies[i].value, d, t.dependencies[i].value);
    }
    assert s.dependencies == t.dependencies;
  }

  // Derived trees are small.
  lemma {:induction false} DerivedIsSmall(lock: Lock, textsOk: bool, key: Key, path: set<Key>)
    requires Derived(Derive(lock, textsOk, key, path))
    ensures Small(Derive(lock, textsOk, key, path).value.value)
    decreases |lock.Keys - path|
  {
    var list := DeriveAll(lock, textsOk, lock[key].dependencies, path + {key}).value.value;
    AllDerived(lock, textsOk, lock[key].dependencies, path + {key});
    DerivedStep(lock, textsOk, key, path);
    Shrinks(lock, key, path);
    var t := Derive(lock, textsOk, key, path).value.value;
    assert t.dependencies == Sort(list);
    hide Derive, DeriveAll;
    forall i | 0 <= i < |t.dependencies| ensures Small(t.dependencies[i].value) {
      SortMember(list, t.dependencies[i]);
      var j :| 0 <= j < |list| && list[j] == t.dependencies[i];
      DerivedIsSmall(lock, textsOk, list[j].key, path + {key});
    }
    SortMembers(list);
    assert |Sort(list)| == |multiset(Sort(list))| && |list| == |multiset(list)|;
  }
}
