// The order of package keys, and sorting a dependency list by it.
module PackageOrder {
  import opened Bytes

  datatype Key = Key(scope: Text, name: Text)

  predicate Less(a: Key, b: Key)
  {
    TextLess(a.scope, b.scope) || (a.scope == b.scope && TextLess(a.name, b.name))
  }

  lemma KeyOrder(a: Key, b: Key)
    ensures a == b || Less(a, b) || Less(b, a)
    ensures Less(a, b) ==> a != b && !Less(b, a)
  {
    hide TextLess;
    TextOrder(a.scope, b.scope);
    TextOrder(a.name, b.name);
  }

  lemma LessIsTransitive(a: Key, b: Key, c: Key)
    requires Less(a, b) && Less(b, c)
    ensures Less(a, c)
  {
    hide TextLess;
    if TextLess(a.scope, b.scope) && TextLess(b.scope, c.scope) { TextLessIsTransitive(a.scope, b.scope, c.scope); }
    if TextLess(a.name, b.name) && TextLess(b.name, c.name) { TextLessIsTransitive(a.name, b.name, c.name); }
  }

  // ---------- Entries sorted by key ----------

  datatype Entry<V> = Entry(key: Key, value: V)

  function Insert<V>(x: Entry<V>, sorted: seq<Entry<V>>): seq<Entry<V>>
  {
    if sorted == [] || !Less(sorted[0].key, x.key) then [x] + sorted else [sorted[0]] + Insert(x, sorted[1..])
  }

  function Sort<V>(list: seq<Entry<V>>): seq<Entry<V>>
  {
    if list == [] then [] else Insert(list[0], Sort(list[1..]))
  }

  predicate Distinct<V>(list: seq<Entry<V>>)
  {
    forall i, j :: 0 <= i < j < |list| ==> list[i].key != list[j].key
  }

  predicate Increasing<V>(list: seq<Entry<V>>)
  {
    forall i, j :: 0 <= i < j < |list| ==> Less(list[i].key, list[j].key)
  }

  lemma {:induction false} InsertMembers<V>(x: Entry<V>, sorted: seq<Entry<V>>)
    ensures multiset(Insert(x, sorted)) == multiset{x} + multiset(sorted)
  {
    hide Less;
    if !(sorted == [] || !Less(sorted[0].key, x.key)) {
      InsertMembers(x, sorted[1..]);
      assert sorted == [sorted[0]] + sorted[1..];
    }
  }

  lemma {:induction false} SortMembers<V>(list: seq<Entry<V>>)
    ensures multiset(Sort(list)) == multiset(list)
  {
    if list != [] {
      SortMembers(list[1..]);
      InsertMembers(list[0], Sort(list[1..]));
      assert list == [list[0]] + list[1..];
    }
  }

  lemma InMultiset<V>(list: seq<Entry<V>>, x: Entry<V>)
    ensures x in list <==> x in multiset(list)
  {
  }

  lemma {:induction false} InsertIncreases<V>(x: Entry<V>, sorted: seq<Entry<V>>)
    requires Increasing(sorted) && forall i :: 0 <= i < |sorted| ==> sorted[i].key != x.key
    ensures Increasing(Insert(x, sorted))
  {
    if sorted != [] {
      KeyOrder(sorted[0].key, x.key);
      hide Less;
      if Less(sorted[0].key, x.key) {
        InsertIncreases(x, sorted[1..]);
        var rest := Insert(x, sorted[1..]);
        forall j | 0 <= j < |rest| ensures Less(sorted[0].key, rest[j].key) {
          InsertMembers(x, sorted[1..]);
          assert rest[j] in multiset(rest);
          assert rest[j] == x || rest[j] in sorted[1..];
        }
      } else {
        forall j | 0 <= j < |sorted| ensures Less(x.key, sorted[j].key) {
          if j > 0 { LessIsTransitive(x.key, sorted[0].key, sorted[j].key); }
        }
      }
    }
  }

  lemma {:induction false} SortIncreases<V>(list: seq<Entry<V>>)
    requires Distinct(list)
    ensures Increasing(Sort(list))
  {
    if list != [] {
      SortIncreases(list[1..]);
      var rest := Sort(list[1..]);
      forall i | 0 <= i < |rest| ensures rest[i].key != list[0].key {
        SortMembers(list[1..]);
        assert rest[i] in multiset(rest);
        assert rest[i] in list[1..];
      }
      InsertIncreases(list[0], rest);
    }
  }

  // Scope first, then name, each byte by byte with the shorter one first.
  ghost predicate Ascends(a: Key, b: Key)
  {
    if a.scope == b.scope then exists k: nat :: FirstDifference(a.name, b.name, k)
    else exists k: nat :: FirstDifference(a.scope, b.scope, k)
  }

  lemma LessMeans(a: Key, b: Key)
    ensures Less(a, b) <==> Ascends(a, b)
  {
    TextLessMeans(a.scope, b.scope);
    TextLessMeans(a.name, b.name);
    TextOrder(a.scope, b.scope);
    hide TextLess, FirstDifference;
  }

  // What is hashed ascends, and is what was listed.
  lemma SortAscends<V>(list: seq<Entry<V>>)
    requires Distinct(list)
    ensures multiset(Sort(list)) == multiset(list)
    ensures forall i, j :: 0 <= i < j < |list| ==>
      |Sort(list)| == |list| && Ascends(Sort(list)[i].key, Sort(list)[j].key)
  {
    SortMembers(list);
    SortIncreases(list);
    var s := Sort(list);
    assert |multiset(s)| == |s| && |multiset(list)| == |list|;
    hide Sort, Less, Ascends;
    forall i, j | 0 <= i < j < |list| ensures Ascends(s[i].key, s[j].key) { LessMeans(s[i].key, s[j].key); }
  }

  ghost predicate SameMembers<T>(a: seq<T>, b: seq<T>)
  {
    (forall x :: x in a ==> x in b) && (forall x :: x in b ==> x in a)
  }

  lemma EmptyMembers<T>(a: seq<T>, b: seq<T>)
    requires SameMembers(a, b)
    ensures a == [] <==> b == []
  {
    assert forall x :: x in a <==> x in b;
    assert a != [] ==> a[0] in b;
    assert b != [] ==> b[0] in a;
  }

  lemma TailMembers<V>(a: seq<Entry<V>>, x: Entry<V>)
    requires Increasing(a) && a != []
    ensures x in a[1..] <==> x in a && x != a[0]
    ensures x in a ==> x == a[0] || Less(a[0].key, x.key)
  {
    if x in a {
      var i :| 0 <= i < |a| && a[i] == x;
      if i > 0 {
        assert a[1..][i - 1] == x;
        KeyOrder(a[0].key, x.key);
      }
    }
    if x in a[1..] {
      var j :| 0 <= j < |a[1..]| && a[1..][j] == x;
      assert a[j + 1] == x;
      KeyOrder(a[0].key, x.key);
    }
  }

  // A strictly increasing list is determined by its members.
  lemma {:induction false} IncreasingIsUnique<V>(a: seq<Entry<V>>, b: seq<Entry<V>>)
    requires Increasing(a) && Increasing(b) && SameMembers(a, b)
    ensures a == b
  {
    EmptyMembers(a, b);
    if a != [] {
      TailMembers(a, b[0]);
      TailMembers(b, a[0]);
      KeyOrder(a[0].key, b[0].key);
      assert a[0] in b && b[0] in a;
      hide Less, Increasing;
      IncreasingTail(a);
      IncreasingTail(b);
      forall x ensures x in a[1..] <==> x in b[1..] {
        TailMembers(a, x);
        TailMembers(b, x);
      }
      IncreasingIsUnique(a[1..], b[1..]);
      assert a == [a[0]] + a[1..] && b == [b[0]] + b[1..];
    }
  }

  lemma IncreasingTail<V>(a: seq<Entry<V>>)
    requires Increasing(a) && a != []
    ensures Increasing(a[1..])
  {
    hide Less;
  }

  lemma SortIgnoresOrder<V>(a: seq<Entry<V>>, b: seq<Entry<V>>)
    requires Distinct(a) && Distinct(b) && SameMembers(a, b)
    ensures Sort(a) == Sort(b)
  {
    SortIncreases(a);
    SortIncreases(b);
    hide Sort, Increasing, Distinct;
    var s, t := Sort(a), Sort(b);
    forall x: Entry<V> | x in s ensures x in t { SortMember(a, x); SortMember(b, x); }
    forall x: Entry<V> | x in t ensures x in s { SortMember(a, x); SortMember(b, x); }
    IncreasingIsUnique(s, t);
  }

  lemma SortMember<V>(list: seq<Entry<V>>, x: Entry<V>)
    ensures x in Sort(list) <==> x in list
  {
    SortMembers(list);
    InMultiset(Sort(list), x);
    InMultiset(list, x);
  }

  // ---------- Rearranged key lists ----------

  predicate DistinctKeys(list: seq<Key>)
  {
    forall i, j :: 0 <= i < j < |list| ==> list[i] != list[j]
  }

  lemma {:induction false} DistinctCounts(a: seq<Key>)
    requires DistinctKeys(a)
    ensures forall k :: multiset(a)[k] <= 1
  {
    if a != [] {
      DistinctCounts(a[1..]);
      assert a == [a[0]] + a[1..];
      assert a[0] !in a[1..];
    }
  }

  lemma TwoPlaces(b: seq<Key>, i: nat, j: nat)
    requires i < j < |b| && b[i] == b[j]
    ensures multiset(b)[b[i]] >= 2
  {
    assert b == b[..i] + [b[i]] + b[i + 1..j] + [b[j]] + b[j + 1..];
  }

  lemma RearrangedDistinct(a: seq<Key>, b: seq<Key>)
    requires DistinctKeys(a) && multiset(a) == multiset(b)
    ensures DistinctKeys(b) && |a| == |b| && SameMembers(a, b)
  {
    DistinctCounts(a);
    forall i, j | 0 <= i < j < |b| ensures b[i] != b[j] {
      if b[i] == b[j] { TwoPlaces(b, i, j); }
    }
    assert |a| == |multiset(a)| && |b| == |multiset(b)|;
    forall k ensures k in a <==> k in b { assert k in multiset(a) <==> k in multiset(b); }
  }
}
