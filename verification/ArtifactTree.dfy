// The bytes hashed for a build artifact tree: every relative path with its kind, and for
// a file its executable bits, length and contents, in path order.
module ArtifactTree {
  import opened Bytes
  import opened PackageOrder

  type Mode = m: nat | m < 0x1_0000_0000

  type Size = n: nat | n < 0x1_0000_0000_0000_0000

  // What a file's metadata says.
  datatype Stat = Stat(mode: Mode, size: Size)

  // Children in the order the directory happens to list them.  A file's metadata is
  // inspected before and after its content is read, and may tell another size.
  datatype Node = Directory(children: seq<Child>) | File(before: Stat, content: Text, after: Stat) | Special

  datatype Child = Child(name: seq<Byte>, node: Node)

  datatype Item = Folder | Regular(before: Stat, content: Text, after: Stat)

  const SLASH: Byte := 47
  const MAX_ENTRIES := 500_000
  const MAX_FILE_BYTES := 1024 * 1024 * 1024
  const MAX_TREE_BYTES := 16 * 1024 * 1024 * 1024

  // ---------- Relative paths ----------

  // A path's length is a 64-bit count.
  predicate Fits(children: seq<Child>, prefix: seq<Byte>)
  {
    children == [] || (FitsOne(children[0], prefix) && Fits(children[1..], prefix))
  }

  predicate FitsOne(child: Child, prefix: seq<Byte>)
  {
    && |prefix| + |child.name| < 0x1_0000_0000_0000_0000
    && (child.node.Directory? ==> Fits(child.node.children, prefix + child.name + [SLASH]))
  }

  // A path sorts as the name of an unscoped key.
  function PathKey(path: Text): Key { Key([], path) }

  // What the recursive walk collects, in listing order.
  function Items(children: seq<Child>, prefix: seq<Byte>): seq<Entry<Item>>
    requires Fits(children, prefix)
  {
    if children == [] then [] else ItemsOf(children[0], prefix) + Items(children[1..], prefix)
  }

  function ItemsOf(child: Child, prefix: seq<Byte>): seq<Entry<Item>>
    requires FitsOne(child, prefix)
  {
    var path := prefix + child.name;
    match child.node
    case Directory(children) => [Entry(PathKey(path), Folder)] + Items(children, path + [SLASH])
    case File(before, content, after) => [Entry(PathKey(path), Regular(before, content, after))]
    case Special => []
  }

  predicate NoSpecial(children: seq<Child>)
  {
    forall i :: 0 <= i < |children| ==>
      !children[i].node.Special? && (children[i].node.Directory? ==> NoSpecial(children[i].node.children))
  }

  // ---------- The hashed bytes ----------

  const PREFIX := Ascii("leanbun-build-artifact-tree-v1") + [0]

  function ItemBytes(item: Item): seq<Byte>
  {
    match item
    case Folder => [1]
    case Regular(before, content, _) => [2] + (Be(before.mode, 4) + (Be(before.size, 8) + content))
  }

  // The two inspections agree.
  predicate Steady(item: Item) { item.Regular? ==> item.after == item.before }

  predicate AllSteady(list: seq<Entry<Item>>) { forall i :: 0 <= i < |list| ==> Steady(list[i].value) }

  // And the bytes read number the size they tell.
  predicate Whole(item: Item) { Steady(item) && (item.Regular? ==> |item.content| == item.before.size) }

  predicate AllWhole(list: seq<Entry<Item>>) { forall i :: 0 <= i < |list| ==> Whole(list[i].value) }

  function EntryBytes(e: Entry<Item>): seq<Byte>
  {
    LengthAndText(e.key.name) + ItemBytes(e.value)
  }

  function ListBytes(list: seq<Entry<Item>>): seq<Byte>
  {
    if list == [] then [] else EntryBytes(list[0]) + ListBytes(list[1..])
  }

  function Stream(children: seq<Child>): seq<Byte>
    requires Fits(children, [])
  {
    PREFIX + ListBytes(Sort(Items(children, [])))
  }

  // ---------- The bytes determine the list ----------

  lemma TagOf(a: Item, x: seq<Byte>)
    ensures (ItemBytes(a) + x)[0] == (if a.Folder? then 1 else 2)
  {
    hide Be;
  }

  lemma RegularBytes(item: Item, x: seq<Byte>)
    requires item.Regular? && Whole(item)
    ensures ItemBytes(item) + x == [2] + (Be(item.before.mode, 4) + (LengthAndText(item.content) + x))
  {
    hide Be;
  }

  lemma RegularCut(m: Mode, s: Text, x: seq<Byte>, n: Mode, t: Text, y: seq<Byte>)
    requires [2] + (Be(m, 4) + (LengthAndText(s) + x)) == [2] + (Be(n, 4) + (LengthAndText(t) + y))
    ensures m == n && s == t && x == y
  {
    hide Be, LengthAndText;
    Cut([2], Be(m, 4) + (LengthAndText(s) + x), [2], Be(n, 4) + (LengthAndText(t) + y));
    Cut(Be(m, 4), LengthAndText(s) + x, Be(n, 4), LengthAndText(t) + y);
    Widths();
    BeRoundTrip(m, 4);
    BeRoundTrip(n, 4);
    TextCut(s, x, t, y);
  }

  lemma ItemCut(a: Item, x: seq<Byte>, b: Item, y: seq<Byte>)
    requires ItemBytes(a) + x == ItemBytes(b) + y && Whole(a) && Whole(b)
    ensures a == b && x == y
  {
    TagOf(a, x);
    TagOf(b, y);
    if a.Folder? {
      Cut([1], x, [1], y);
    } else {
      RegularBytes(a, x);
      RegularBytes(b, y);
      hide ItemBytes, Be;
      RegularCut(a.before.mode, a.content, x, b.before.mode, b.content, y);
    }
  }

  lemma EntryCut(a: Entry<Item>, x: seq<Byte>, b: Entry<Item>, y: seq<Byte>)
    requires EntryBytes(a) + x == EntryBytes(b) + y && Whole(a.value) && Whole(b.value)
    ensures a.key.name == b.key.name && a.value == b.value && x == y
  {
    hide Be, ItemBytes;
    assert EntryBytes(a) + x == LengthAndText(a.key.name) + (ItemBytes(a.value) + x);
    assert EntryBytes(b) + y == LengthAndText(b.key.name) + (ItemBytes(b.value) + y);
    TextCut(a.key.name, ItemBytes(a.value) + x, b.key.name, ItemBytes(b.value) + y);
    ItemCut(a.value, x, b.value, y);
  }

  predicate Unscoped(list: seq<Entry<Item>>) { forall i :: 0 <= i < |list| ==> list[i].key.scope == [] }

  lemma {:induction false} ListCut(a: seq<Entry<Item>>, b: seq<Entry<Item>>)
    requires ListBytes(a) == ListBytes(b) && Unscoped(a) && Unscoped(b) && AllWhole(a) && AllWhole(b)
    ensures a == b
  {
    hide EntryBytes;
    NotEmpty(a);
    NotEmpty(b);
    if a != [] {
      EntryCut(a[0], ListBytes(a[1..]), b[0], ListBytes(b[1..]));
      ListCut(a[1..], b[1..]);
      assert a == [a[0]] + a[1..] && b == [b[0]] + b[1..];
    }
  }

  lemma NotEmpty(a: seq<Entry<Item>>)
    ensures a != [] ==> |ListBytes(a)| > 0
    ensures a == [] ==> ListBytes(a) == []
  {
    hide ItemBytes;
  }

  // ---------- Different files have different paths ----------

  predicate Plain(name: seq<Byte>) { name != [] && SLASH !in name }

  // What a file system guarantees: names without separators, each once in a directory.
  predicate WellNamed(children: seq<Child>)
  {
    && (forall i :: 0 <= i < |children| ==>
      Plain(children[i].name) && (children[i].node.Directory? ==> WellNamed(children[i].node.children)))
    && (forall i, j :: 0 <= i < j < |children| ==> children[i].name != children[j].name)
  }

  // `path` is the child's own or one below it.
  predicate Below(path: seq<Byte>, prefix: seq<Byte>, name: seq<Byte>)
  {
    var base := prefix + name;
    |path| >= |base| && path[..|base|] == base && (|path| == |base| || path[|base|] == SLASH)
  }

  lemma NameByte(path: seq<Byte>, prefix: seq<Byte>, n: seq<Byte>, k: nat)
    requires Below(path, prefix, n) && k < |n|
    ensures |prefix| + k < |path| && path[|prefix| + k] == n[k]
  {
    var base := prefix + n;
    assert path[..|base|][|prefix| + k] == base[|prefix| + k] == n[k];
  }

  lemma BelowOne(path: seq<Byte>, prefix: seq<Byte>, m: seq<Byte>, n: seq<Byte>)
    requires Below(path, prefix, m) && Below(path, prefix, n) && Plain(m) && Plain(n) && |m| <= |n|
    ensures m == n
  {
    forall k | 0 <= k < |m| ensures m[k] == n[k] {
      NameByte(path, prefix, m, k);
      NameByte(path, prefix, n, k);
    }
    if |m| < |n| { NameByte(path, prefix, n, |m|); }
  }

  lemma BelowOnce(path: seq<Byte>, prefix: seq<Byte>, m: seq<Byte>, n: seq<Byte>)
    requires Below(path, prefix, m) && Below(path, prefix, n) && Plain(m) && Plain(n)
    ensures m == n
  {
    hide Below;
    if |m| <= |n| { BelowOne(path, prefix, m, n); } else { BelowOne(path, prefix, n, m); }
  }

  lemma BelowDeeper(path: seq<Byte>, prefix: seq<Byte>, name: seq<Byte>, inner: seq<Byte>)
    requires Below(path, prefix + name + [SLASH], inner)
    ensures Below(path, prefix, name) && |path| > |prefix + name|
  {
    var base := prefix + name;
    var deep := base + [SLASH] + inner;
    assert path[..|base|] == deep[..|base|] == base;
    assert path[|base|] == deep[|base|] == SLASH;
  }

  // Every item collected under a child lies at or below it.
  lemma {:induction false} ItemsBelow(children: seq<Child>, prefix: seq<Byte>)
    requires Fits(children, prefix)
    ensures forall k :: 0 <= k < |Items(children, prefix)| ==>
      Items(children, prefix)[k].key.scope == [] &&
      exists i :: 0 <= i < |children| && Below(Items(children, prefix)[k].key.name, prefix, children[i].name)
  {
    if children != [] {
      ItemsBelowOne(children[0], prefix);
      ItemsBelow(children[1..], prefix);
      var first: seq<Entry<Item>> := ItemsOf(children[0], prefix);
      var rest: seq<Entry<Item>> := Items(children[1..], prefix);
      assert Items(children, prefix) == first + rest;
      hide Items, ItemsOf, Below;
      forall k | 0 <= k < |first + rest|
        ensures (first + rest)[k].key.scope == []
        ensures exists i :: 0 <= i < |children| && Below((first + rest)[k].key.name, prefix, children[i].name)
      {
        if k >= |first| {
          var i :| 0 <= i < |children[1..]| && Below(rest[k - |first|].key.name, prefix, children[1..][i].name);
          assert children[1..][i] == children[i + 1];
        }
      }
    }
  }

  lemma {:induction false} ItemsBelowOne(child: Child, prefix: seq<Byte>)
    requires FitsOne(child, prefix)
    ensures forall k :: 0 <= k < |ItemsOf(child, prefix)| ==>
      ItemsOf(child, prefix)[k].key.scope == [] && Below(ItemsOf(child, prefix)[k].key.name, prefix, child.name)
  {
    var path := prefix + child.name;
    if child.node.Directory? {
      var inner: seq<Entry<Item>> := Items(child.node.children, path + [SLASH]);
      ItemsBelow(child.node.children, path + [SLASH]);
      hide Items;
      forall k | 0 <= k < |inner| ensures Below(inner[k].key.name, prefix, child.name) {
        var i :| 0 <= i < |child.node.children|
          && Below(inner[k].key.name, path + [SLASH], child.node.children[i].name);
        BelowDeeper(inner[k].key.name, prefix, child.name, child.node.children[i].name);
      }
    }
  }

  lemma {:induction false} PathsDiffer(children: seq<Child>, prefix: seq<Byte>)
    requires Fits(children, prefix) && WellNamed(children)
    ensures Distinct(Items(children, prefix))
  {
    if children != [] {
      var first: seq<Entry<Item>> := ItemsOf(children[0], prefix);
      var rest: seq<Entry<Item>> := Items(children[1..], prefix);
      assert Items(children, prefix) == first + rest;
      RestWellNamed(children);
      PathsDifferOne(children[0], prefix);
      PathsDiffer(children[1..], prefix);
      ItemsBelowOne(children[0], prefix);
      ItemsBelow(children[1..], prefix);
      hide Items, ItemsOf, Below;
      forall i, j | 0 <= i < |first| && 0 <= j < |rest| ensures first[i].key != rest[j].key {
        var n :| 0 <= n < |children[1..]| && Below(rest[j].key.name, prefix, children[1..][n].name);
        assert children[1..][n] == children[n + 1];
        if first[i].key == rest[j].key { BelowOnce(rest[j].key.name, prefix, children[0].name, children[n + 1].name); }
      }
      DistinctParts(first, rest);
    }
  }

  lemma RestWellNamed(children: seq<Child>)
    requires WellNamed(children) && children != []
    ensures WellNamed(children[1..]) && Plain(children[0].name)
    ensures forall i :: 0 <= i < |children| ==>
      Plain(children[i].name) && (i > 0 ==> children[i].name != children[0].name)
    ensures children[0].node.Directory? ==> WellNamed(children[0].node.children)
  {
  }

  lemma DistinctParts(a: seq<Entry<Item>>, b: seq<Entry<Item>>)
    requires Distinct(a) && Distinct(b) && forall i, j :: 0 <= i < |a| && 0 <= j < |b| ==> a[i].key != b[j].key
    ensures Distinct(a + b)
  {
  }

  lemma {:induction false} PathsDifferOne(child: Child, prefix: seq<Byte>)
    requires FitsOne(child, prefix) && (child.node.Directory? ==> WellNamed(child.node.children))
    ensures Distinct(ItemsOf(child, prefix))
  {
    if child.node.Directory? {
      var path := prefix + child.name;
      var inner: seq<Entry<Item>> := Items(child.node.children, path + [SLASH]);
      PathsDiffer(child.node.children, path + [SLASH]);
      ItemsBelow(child.node.children, path + [SLASH]);
      hide Items;
      forall k | 0 <= k < |inner| ensures inner[k].key != PathKey(path) {
        var i :| 0 <= i < |child.node.children|
          && Below(inner[k].key.name, path + [SLASH], child.node.children[i].name);
        BelowDeeper(inner[k].key.name, prefix, child.name, child.node.children[i].name);
      }
      DistinctParts([Entry(PathKey(path), Folder)], inner);
    }
  }

  // ---------- The stream and the tree ----------

  // The same relative paths, kinds, executable bits and contents.
  ghost predicate SameFiles(a: seq<Child>, b: seq<Child>)
    requires Fits(a, []) && Fits(b, [])
  {
    SameMembers(Items(a, []), Items(b, []))
  }

  // Two trees whose files are read whole feed the hasher the same bytes exactly when they
  // hold the same files, whatever order their directories are listed in.
  lemma SameStreamSameFiles(a: seq<Child>, b: seq<Child>)
    requires Fits(a, []) && Fits(b, []) && WellNamed(a) && WellNamed(b)
    requires AllWhole(Items(a, [])) && AllWhole(Items(b, []))
    ensures Stream(a) == Stream(b) <==> SameFiles(a, b)
  {
    var x: seq<Entry<Item>> := Items(a, []);
    var y: seq<Entry<Item>> := Items(b, []);
    PathsDiffer(a, []);
    PathsDiffer(b, []);
    ItemsBelow(a, []);
    ItemsBelow(b, []);
    assert Unscoped(x) && Unscoped(y);
    hide Items, Below, WellNamed, ListBytes;
    if SameFiles(a, b) {
      SortIgnoresOrder(x, y);
    }
    if Stream(a) == Stream(b) {
      Cut(PREFIX, ListBytes(Sort(x)), PREFIX, ListBytes(Sort(y)));
      SortUnscoped(x);
      SortUnscoped(y);
      SortWhole(x);
      SortWhole(y);
      ListCut(Sort(x), Sort(y));
      SameSortSameMembers(x, y);
    }
  }

  lemma SortUnscoped(x: seq<Entry<Item>>)
    requires Unscoped(x)
    ensures Unscoped(Sort(x))
  {
    var s: seq<Entry<Item>> := Sort(x);
    hide Sort;
    forall i | 0 <= i < |s| ensures s[i].key.scope == [] { SortMember(x, s[i]); }
  }

  lemma SortSteady(x: seq<Entry<Item>>)
    ensures AllSteady(Sort(x)) <==> AllSteady(x)
  {
    var s: seq<Entry<Item>> := Sort(x);
    hide Sort;
    forall i | 0 <= i < |s| ensures s[i] in x { SortMember(x, s[i]); }
    forall i | 0 <= i < |x| ensures x[i] in s { SortMember(x, x[i]); }
  }

  lemma SortWhole(x: seq<Entry<Item>>)
    requires AllWhole(x)
    ensures AllWhole(Sort(x))
  {
    var s: seq<Entry<Item>> := Sort(x);
    hide Sort;
    forall i | 0 <= i < |s| ensures Whole(s[i].value) { SortMember(x, s[i]); }
  }

  lemma SameSortSameMembers(x: seq<Entry<Item>>, y: seq<Entry<Item>>)
    requires Sort(x) == Sort(y)
    ensures SameMembers(x, y)
  {
    hide Sort;
    forall e: Entry<Item> | e in x ensures e in y { SortMember(x, e); SortMember(y, e); }
    forall e: Entry<Item> | e in y ensures e in x { SortMember(x, e); SortMember(y, e); }
  }
}
