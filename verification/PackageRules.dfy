// Which packages have a key, said of the lock and the build context alone.
module PackageRules {
  import opened Wrappers
  import opened Bytes
  import opened PackageOrder
  import opened PackageGraph
  import opened PackageKeys

  // One to so many bytes, on one line.
  predicate GoodText(t: Text, most: nat)
  {
    1 <= |t| <= most && forall b :: b in t ==> b != 0 && b != '\n' as int && b != '\r' as int
  }

  predicate GoodContext(c: Context)
  {
    GoodText(c.toolchain, 512) && GoodText(c.githash, 128) && GoodText(c.lake, 128) && GoodText(c.platform, 256)
  }

  // A package that can be built: there, with a source of its own, and at most 4,096
  // dependencies, none listed twice.
  predicate Buildable(lock: Lock, key: Key)
  {
    && key in lock && lock[key].source != None && |lock[key].dependencies| <= 4_096
    && forall d :: d in lock[key].dependencies ==> multiset(lock[key].dependencies)[d] == 1
  }

  lemma {:induction false} Once(list: seq<Key>)
    ensures DistinctKeys(list) <==> forall d :: d in list ==> multiset(list)[d] == 1
  {
    if list != [] {
      var n := |list| - 1;
      Once(list[..n]);
      assert list == list[..n] + [list[n]];
      if DistinctKeys(list) {
        forall i | 0 <= i < n ensures list[..n][i] != list[n] { assert list[i] != list[n]; }
      } else if forall d :: d in list ==> multiset(list)[d] == 1 {
        var i, j :| 0 <= i < j < |list| && list[i] == list[j];
        Twice(list, i, j);
      }
    }
  }

  lemma Twice(list: seq<Key>, i: nat, j: nat)
    requires i < j < |list| && list[i] == list[j]
    ensures list[i] in list && multiset(list)[list[i]] >= 2
  {
    var d := list[i];
    assert list == list[..j] + list[j..];
    assert list[..j][i] == d && list[j..][0] == d;
    assert multiset(list) == multiset(list[..j]) + multiset(list[j..]);
  }

  lemma TextExactly(t: Text, most: nat)
    ensures ValidText(t, most) <==> GoodText(t, most)
  {
  }

  lemma CleanExactly(lock: Lock, textsOk: bool, p: seq<Key>)
    requires p != []
    ensures Clean(lock, textsOk, p, {}) <==> textsOk && Buildable(lock, Last(p)) && Last(p) !in p[..|p| - 1]
  {
    if Last(p) in lock { Once(lock[Last(p)].dependencies); }
  }

  // A package has a key exactly when the context is good and whatever a path from it leads
  // to can be built and was not met on the way.
  lemma HasKeyExactly(lock: Lock, c: Context, key: Key)
    ensures Derived(Derive(lock, ValidTexts(c), key, {})) <==>
      && GoodContext(c)
      && forall p :: From(lock, p, key) ==> Buildable(lock, Last(p)) && Last(p) !in p[..|p| - 1]
  {
    TextExactly(c.toolchain, 512);
    TextExactly(c.githash, 128);
    TextExactly(c.lake, 128);
    TextExactly(c.platform, 256);
    DerivedExactly(lock, ValidTexts(c), key);
    assert From(lock, [key], key);
    hide ValidText, GoodText, Derive, Buildable;
    forall p | From(lock, p, key)
      ensures Clean(lock, ValidTexts(c), p, {}) <==>
        GoodContext(c) && Buildable(lock, Last(p)) && Last(p) !in p[..|p| - 1]
    {
      CleanExactly(lock, ValidTexts(c), p);
    }
  }
}
