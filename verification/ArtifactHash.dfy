// The walk and the hashing loop over an artifact tree, proved against its byte stream.
module ArtifactHash {
  import opened Wrappers
  import opened Bytes
  import opened PackageOrder
  import opened ArtifactTree
  import Utf8

  datatype Error = PathNotUtf8 | SpecialFile | TooManyEntries | FileTooLarge | TreeTooLarge | FileChanged

  function SizeOf(item: Item): nat { if item.Regular? then item.before.size else 0 }

  function Total(list: seq<Entry<Item>>): nat
  {
    if list == [] then 0 else SizeOf(list[0].value) + Total(list[1..])
  }

  // Within the limits on files and on the whole tree.
  predicate WithinLimits(list: seq<Entry<Item>>)
  {
    (forall i :: 0 <= i < |list| ==> SizeOf(list[i].value) <= MAX_FILE_BYTES) && Total(list) <= MAX_TREE_BYTES
  }

  lemma {:induction false} ItemsConcat(a: seq<Child>, b: seq<Child>, prefix: seq<Byte>)
    requires Fits(a + b, prefix)
    ensures Fits(a, prefix) && Fits(b, prefix)
    ensures Items(a + b, prefix) == Items(a, prefix) + Items(b, prefix)
  {
    hide ItemsOf, FitsOne;
    if a == [] {
      assert a + b == b;
    } else {
      assert (a + b)[1..] == a[1..] + b;
      ItemsConcat(a[1..], b, prefix);
    }
  }

  lemma ItemsSoFar(children: seq<Child>, i: nat, prefix: seq<Byte>)
    requires i < |children| && Fits(children, prefix)
    ensures Fits(children[..i], prefix) && Fits(children[..i + 1], prefix) && FitsOne(children[i], prefix)
    ensures Items(children[..i + 1], prefix) == Items(children[..i], prefix) + ItemsOf(children[i], prefix)
    ensures |Items(children[..i + 1], prefix)| <= |Items(children, prefix)|
  {
    assert children == children[..i + 1] + children[i + 1..];
    ItemsConcat(children[..i + 1], children[i + 1..], prefix);
    assert children[..i + 1] == children[..i] + [children[i]];
    ItemsConcat(children[..i], [children[i]], prefix);
    assert Items([children[i]], prefix) == ItemsOf(children[i], prefix) + Items([], prefix);
  }

  predicate Utf8Paths(list: seq<Entry<Item>>) { forall i :: 0 <= i < |list| ==> Utf8.IsUtf8(list[i].key.name) }

  lemma Utf8Concat(a: seq<Entry<Item>>, b: seq<Entry<Item>>)
    ensures Utf8Paths(a + b) <==> Utf8Paths(a) && Utf8Paths(b)
  {
    hide Utf8.IsUtf8;
    if Utf8Paths(a + b) {
      forall i | 0 <= i < |a| ensures Utf8.IsUtf8(a[i].key.name) { assert (a + b)[i] == a[i]; }
      forall i | 0 <= i < |b| ensures Utf8.IsUtf8(b[i].key.name) { assert (a + b)[|a| + i] == b[i]; }
    }
  }

  predicate Ordinary(node: Node) { !node.Special? && (node.Directory? ==> NoSpecial(node.children)) }

  lemma OrdinaryChildren(children: seq<Child>)
    ensures NoSpecial(children) <==> forall i :: 0 <= i < |children| ==> Ordinary(children[i].node)
  {
  }

  lemma NoItemsYet(children: seq<Child>, prefix: seq<Byte>)
    ensures Fits(children[..0], prefix) && Items(children[..0], prefix) == []
  {
  }

  // Pushes every path below a directory.  It fails exactly on a path that is not UTF-8, a
  // special file or too many entries.
  method CollectEntries(children: seq<Child>, prefix: seq<Byte>, entries: seq<Entry<Item>>)
    returns (r: Result<seq<Entry<Item>>, Error>)
    requires Fits(children, prefix) && |entries| <= MAX_ENTRIES
    ensures r.Ok? <==>
      NoSpecial(children) && |entries| + |Items(children, prefix)| <= MAX_ENTRIES && Utf8Paths(Items(children, prefix))
    ensures r.Ok? ==> r.value == entries + Items(children, prefix)
    decreases children, 0
  {
    OrdinaryChildren(children);
    NoItemsYet(children, prefix);
    hide NoSpecial, Ordinary, Items, ItemsOf, Fits, FitsOne;
    var pushed := entries;
    var i := 0;
    while i < |children|
      invariant 0 <= i <= |children| && Fits(children[..i], prefix)
      invariant pushed == entries + Items(children[..i], prefix) && |pushed| <= MAX_ENTRIES
      invariant forall j :: 0 <= j < i ==> Ordinary(children[j].node)
      invariant Utf8Paths(Items(children[..i], prefix))
    {
      ItemsSoFar(children, i, prefix);
      Utf8SoFar(children, i, prefix);
      var inner := CollectChild(children[i], prefix, pushed);
      if inner.Err? { return inner; }
      pushed := inner.value;
      i := i + 1;
    }
    assert children[..i] == children;
    r := Ok(pushed);
  }

  method CollectChild(child: Child, prefix: seq<Byte>, entries: seq<Entry<Item>>)
    returns (r: Result<seq<Entry<Item>>, Error>)
    requires FitsOne(child, prefix) && |entries| <= MAX_ENTRIES
    ensures r.Ok? <==>
      Ordinary(child.node) && |entries| + |ItemsOf(child, prefix)| <= MAX_ENTRIES && Utf8Paths(ItemsOf(child, prefix))
    ensures r.Ok? ==> r.value == entries + ItemsOf(child, prefix)
    decreases child, 1
  {
    var path := prefix + child.name;
    hide Utf8.IsUtf8;
    if !Utf8.IsUtf8(path) {
      NotUtf8(child, prefix);
      return Err(PathNotUtf8);
    }
    if |entries| + 1 > MAX_ENTRIES { return Err(TooManyEntries); }
    match child.node
    case Directory(below) =>
      Utf8Concat([Entry(PathKey(path), Folder)], Items(below, path + [SLASH]));
      hide Items, Fits, NoSpecial;
      r := CollectEntries(below, path + [SLASH], entries + [Entry(PathKey(path), Folder)]);
    case File(before, content, after) =>
      r := Ok(entries + [Entry(PathKey(path), Regular(before, content, after))]);
    case Special =>
      r := Err(SpecialFile);
  }

  // The child's own path is the first of its items.
  lemma NotUtf8(child: Child, prefix: seq<Byte>)
    requires FitsOne(child, prefix) && !Utf8.IsUtf8(prefix + child.name)
    ensures !Ordinary(child.node) || !Utf8Paths(ItemsOf(child, prefix))
  {
    hide Utf8.IsUtf8, Items;
    if !child.node.Special? { assert ItemsOf(child, prefix)[0].key.name == prefix + child.name; }
  }

  // A path that is not UTF-8 anywhere in the listing shows in the listing so far, or later.
  lemma Utf8SoFar(children: seq<Child>, i: nat, prefix: seq<Byte>)
    requires i < |children| && Fits(children, prefix)
    ensures Fits(children[..i], prefix) && Fits(children[..i + 1], prefix) && FitsOne(children[i], prefix)
    ensures Utf8Paths(Items(children[..i + 1], prefix)) <==>
      Utf8Paths(Items(children[..i], prefix)) && Utf8Paths(ItemsOf(children[i], prefix))
    ensures Utf8Paths(Items(children, prefix)) ==> Utf8Paths(Items(children[..i + 1], prefix))
  {
    ItemsSoFar(children, i, prefix);
    Utf8Concat(Items(children[..i], prefix), ItemsOf(children[i], prefix));
    assert children == children[..i + 1] + children[i + 1..];
    ItemsConcat(children[..i + 1], children[i + 1..], prefix);
    Utf8Concat(Items(children[..i + 1], prefix), Items(children[i + 1..], prefix));
  }

  // ---------- The hashing loop ----------

  lemma {:induction false} InsertTotal(x: Entry<Item>, sorted: seq<Entry<Item>>)
    ensures Total(Insert(x, sorted)) == SizeOf(x.value) + Total(sorted)
  {
    hide Less;
    if !(sorted == [] || !Less(sorted[0].key, x.key)) { InsertTotal(x, sorted[1..]); }
  }

  lemma {:induction false} SortTotal(list: seq<Entry<Item>>)
    ensures Total(Sort(list)) == Total(list)
  {
    if list != [] {
      SortTotal(list[1..]);
      InsertTotal(list[0], Sort(list[1..]));
    }
  }

  lemma SortWithinLimits(list: seq<Entry<Item>>)
    ensures WithinLimits(Sort(list)) <==> WithinLimits(list)
  {
    SortTotal(list);
    var s: seq<Entry<Item>> := Sort(list);
    hide Sort, Total;
    forall i | 0 <= i < |s| ensures s[i] in list { SortMember(list, s[i]); }
    forall i | 0 <= i < |list| ensures list[i] in s { SortMember(list, list[i]); }
  }

  lemma {:induction false} TotalConcat(a: seq<Entry<Item>>, b: seq<Entry<Item>>)
    ensures Total(a + b) == Total(a) + Total(b)
  {
    if a == [] {
      assert a + b == b;
    } else {
      assert (a + b)[1..] == a[1..] + b;
      TotalConcat(a[1..], b);
    }
  }

  lemma TotalSoFar(list: seq<Entry<Item>>, i: nat)
    requires i < |list|
    ensures Total(list[..i + 1]) == Total(list[..i]) + SizeOf(list[i].value) <= Total(list)
  {
    assert list == list[..i + 1] + list[i + 1..];
    assert list[..i + 1] == list[..i] + [list[i]];
    TotalConcat(list[..i + 1], list[i + 1..]);
    TotalConcat(list[..i], [list[i]]);
    assert Total([list[i]]) == SizeOf(list[i].value);
  }

  lemma {:induction false} ListBytesConcat(a: seq<Entry<Item>>, b: seq<Entry<Item>>)
    ensures ListBytes(a + b) == ListBytes(a) + ListBytes(b)
  {
    hide EntryBytes;
    if a == [] {
      assert a + b == b;
    } else {
      assert (a + b)[1..] == a[1..] + b;
      ListBytesConcat(a[1..], b);
    }
  }

  lemma BytesSoFar(list: seq<Entry<Item>>, i: nat)
    requires i < |list|
    ensures ListBytes(list[..i + 1]) == ListBytes(list[..i]) + EntryBytes(list[i])
  {
    assert list[..i + 1] == list[..i] + [list[i]];
    ListBytesConcat(list[..i], [list[i]]);
    hide EntryBytes;
    assert ListBytes([list[i]]) == EntryBytes(list[i]) + ListBytes([]);
  }

  // The first entries are within the limits and hashed.
  ghost predicate HashedTo(entries: seq<Entry<Item>>, i: nat, bytes: seq<Byte>, total: nat)
    requires i <= |entries|
  {
    bytes == PREFIX + ListBytes(entries[..i]) && total == Total(entries[..i])
    && WithinLimits(entries[..i]) && AllSteady(entries[..i])
  }

  lemma HashedNone(entries: seq<Entry<Item>>)
    ensures HashedTo(entries, 0, PREFIX, 0)
  {
    hide PREFIX;
    assert entries[..0] == [];
  }

  lemma HashedMore(entries: seq<Entry<Item>>, i: nat, bytes: seq<Byte>, total: nat)
    requires i < |entries| && HashedTo(entries, i, bytes, total) && Steady(entries[i].value)
    requires SizeOf(entries[i].value) <= MAX_FILE_BYTES && total + SizeOf(entries[i].value) <= MAX_TREE_BYTES
    ensures HashedTo(entries, i + 1, bytes + EntryBytes(entries[i]), total + SizeOf(entries[i].value))
  {
    BytesSoFar(entries, i);
    TotalSoFar(entries, i);
    hide PREFIX, ListBytes, EntryBytes, Total;
    Joined(PREFIX, ListBytes(entries[..i]), EntryBytes(entries[i]));
    LimitsMore(entries, i);
    SteadyMore(entries, i);
    hide WithinLimits, AllSteady;
  }

  lemma SteadyMore(entries: seq<Entry<Item>>, i: nat)
    requires i < |entries| && AllSteady(entries[..i]) && Steady(entries[i].value)
    ensures AllSteady(entries[..i + 1])
  {
    hide Steady;
    var more := entries[..i + 1];
    forall j | 0 <= j < |more| ensures Steady(more[j].value) {
      if j < i { assert more[j] == entries[..i][j]; }
    }
  }

  lemma Joined(a: seq<Byte>, b: seq<Byte>, c: seq<Byte>)
    ensures a + b + c == a + (b + c)
  {
  }

  lemma LimitsMore(entries: seq<Entry<Item>>, i: nat)
    requires i < |entries| && WithinLimits(entries[..i])
    requires SizeOf(entries[i].value) <= MAX_FILE_BYTES && Total(entries[..i + 1]) <= MAX_TREE_BYTES
    ensures WithinLimits(entries[..i + 1])
  {
    hide Total;
    forall j | 0 <= j < i ensures SizeOf(entries[j].value) <= MAX_FILE_BYTES { assert entries[..i][j] == entries[j]; }
  }

  lemma OverLimits(entries: seq<Entry<Item>>, i: nat, total: nat)
    requires i < |entries| && total == Total(entries[..i])
    requires SizeOf(entries[i].value) > MAX_FILE_BYTES || total + SizeOf(entries[i].value) > MAX_TREE_BYTES
    ensures !WithinLimits(entries)
  {
    TotalSoFar(entries, i);
    hide Total;
  }

  method HashEntries(entries: seq<Entry<Item>>) returns (r: Result<seq<Byte>, Error>)
    ensures r.Ok? <==> WithinLimits(entries) && AllSteady(entries)
    ensures r.Ok? ==> r.value == PREFIX + ListBytes(entries)
  {
    hide PREFIX, ListBytes, EntryBytes, Total, WithinLimits;
    var bytes := PREFIX;
    var total: nat := 0;
    HashedNone(entries);
    var i := 0;
    while i < |entries|
      invariant 0 <= i <= |entries| && HashedTo(entries, i, bytes, total)
    {
      var size := SizeOf(entries[i].value);
      if size > MAX_FILE_BYTES {
        OverLimits(entries, i, total);
        return Err(FileTooLarge);
      }
      if total + size > MAX_TREE_BYTES {
        OverLimits(entries, i, total);
        return Err(TreeTooLarge);
      }
      if entries[i].value.Regular? && entries[i].value.after != entries[i].value.before {
        return Err(FileChanged);
      }
      HashedMore(entries, i, bytes, total);
      total := total + size;
      bytes := bytes + EntryBytes(entries[i]);
      i := i + 1;
    }
    assert entries[..i] == entries;
    r := Ok(bytes);
  }

  // What the walk, the sort and the loop take: no path that is not UTF-8, no special file,
  // nothing past a limit, and no file whose metadata changed while it was read.
  predicate Accepted(children: seq<Child>)
    requires Fits(children, [])
  {
    && NoSpecial(children) && |Items(children, [])| <= MAX_ENTRIES && Utf8Paths(Items(children, []))
    && WithinLimits(Items(children, [])) && AllSteady(Items(children, []))
  }

  // In numbers: at most half a million entries, a gibibyte a file and sixteen in all.
  lemma AcceptedMeans(children: seq<Child>)
    requires Fits(children, [])
    ensures var list := Items(children, []);
      Accepted(children) <==>
        && NoSpecial(children) && |list| <= 500_000
        && (forall e :: e in list ==> Utf8.IsUtf8(e.key.name) && SizeOf(e.value) <= 0x4000_0000 && Steady(e.value))
        && Total(list) <= 0x4_0000_0000
  {
    var list := Items(children, []);
    hide Items, NoSpecial, Utf8.IsUtf8, SizeOf, Steady, Total;
    forall i | 0 <= i < |list| ensures list[i] in list {}
  }

  // Together they feed the hasher the stream of the tree, or refuse.
  method ProjectArtifactBytes(children: seq<Child>) returns (r: Result<seq<Byte>, Error>)
    requires Fits(children, [])
    ensures r.Ok? <==> Accepted(children)
    ensures r.Ok? ==> r.value == Stream(children)
  {
    var entries := CollectEntries(children, [], []);
    if entries.Err? { return Err(entries.error); }
    assert [] + Items(children, []) == Items(children, []);
    SortWithinLimits(entries.value);
    SortSteady(entries.value);
    hide WithinLimits, AllSteady, Utf8Paths, Items, NoSpecial, PREFIX;
    r := HashEntries(Sort(entries.value));
  }

  // ---------- A file cut short while it is read ----------

  const A: seq<Byte> := [0x61]
  const B: seq<Byte> := [0x62]

  // A file of one name whose two inspections tell this size.
  function Inspected(name: seq<Byte>, mode: Mode, size: Size, content: Text): Child
  {
    Child(name, File(Stat(mode, size), content, Stat(mode, size)))
  }

  function EntryOf(name: Text, mode: Mode, size: Size, content: Text): Entry<Item>
  {
    Entry(PathKey(name), Regular(Stat(mode, size), content, Stat(mode, size)))
  }

  // The bytes hashed for a second file.
  function Second(mode: Mode, content: Text): seq<Byte> { EntryBytes(EntryOf(B, mode, |content|, content)) }

  lemma SecondSize(mode: Mode, content: Text)
    ensures |Second(mode, content)| == |content| + 22
  {
  }

  // One file whose content spells the entry of another.
  function Swallowing(mode: Mode, content: Text): seq<Child>
    requires |content| <= MAX_FILE_BYTES - 22
  {
    SecondSize(mode, content);
    var second := Second(mode, content);
    [Inspected(A, mode, |second|, second)]
  }

  // That file read as empty, and restored before it is inspected again, beside the other.
  function CutShort(mode: Mode, content: Text): seq<Child>
    requires |content| <= MAX_FILE_BYTES - 22
  {
    SecondSize(mode, content);
    [Inspected(A, mode, |Second(mode, content)|, []), Inspected(B, mode, |content|, content)]
  }

  lemma InspectedItems(name: Text, mode: Mode, size: Size, content: Text, rest: seq<Child>)
    requires Fits(rest, [])
    ensures Fits([Inspected(name, mode, size, content)] + rest, [])
    ensures Items([Inspected(name, mode, size, content)] + rest, []) == [EntryOf(name, mode, size, content)]
      + Items(rest, [])
    ensures NoSpecial([Inspected(name, mode, size, content)])
  {
    var all := [Inspected(name, mode, size, content)] + rest;
    assert all[1..] == rest && [] + name == name;
  }

  lemma TreeItems(mode: Mode, content: Text)
    requires |content| <= MAX_FILE_BYTES - 22
    ensures var a, b := Swallowing(mode, content), CutShort(mode, content);
      && Fits(a, []) && Fits(b, []) && WellNamed(a) && WellNamed(b) && NoSpecial(a) && NoSpecial(b)
      && Items(a, []) == [EntryOf(A, mode, |content| + 22, Second(mode, content))]
      && Items(b, []) == [EntryOf(A, mode, |content| + 22, []), EntryOf(B, mode, |content|, content)]
  {
    SecondSize(mode, content);
    hide Second;
    var second := Second(mode, content);
    assert Items([], []) == [];
    InspectedItems(A, mode, |second|, second, []);
    InspectedItems(B, mode, |content|, content, []);
    assert Swallowing(mode, content) == [Inspected(A, mode, |second|, second)] + [];
    var last := [Inspected(B, mode, |content|, content)];
    assert last == last + [];
    InspectedItems(A, mode, |second|, [], last);
    assert CutShort(mode, content) == [Inspected(A, mode, |second|, [])] + last;
  }

  lemma SameBytes(mode: Mode, content: Text)
    requires |content| <= MAX_FILE_BYTES - 22
    ensures ListBytes([EntryOf(A, mode, |content| + 22, Second(mode, content))])
      == ListBytes([EntryOf(A, mode, |content| + 22, []), EntryOf(B, mode, |content|, content)])
  {
    SecondSize(mode, content);
    var second := Second(mode, content);
    var whole, cut, other := EntryOf(A, mode, |second|, second), EntryOf(A, mode, |second|, []),
      EntryOf(B, mode, |content|, content);
    var front := LengthAndText(A) + ([2] + (Be(mode, 4) + Be(|second|, 8)));
    assert EntryBytes(other) == second;
    hide Be, LengthAndText, Second;
    assert EntryBytes(whole) == front + second;
    assert EntryBytes(cut) == front;
    assert [cut, other][1..] == [other] && [other][1..] == [] && [whole][1..] == [];
  }

  // Both trees are accepted and feed the hasher the same bytes, and are not the same: the
  // loop compares the two inspections and never counts what it reads.
  lemma ShortReadCollides(mode: Mode, content: Text)
    requires |content| <= MAX_FILE_BYTES - 22
    ensures var a, b := Swallowing(mode, content), CutShort(mode, content);
      && Fits(a, []) && Fits(b, []) && WellNamed(a) && WellNamed(b) && Accepted(a) && Accepted(b)
      && AllWhole(Items(a, [])) && Stream(a) == Stream(b) && !SameFiles(a, b)
  {
    TreeItems(mode, content);
    SecondSize(mode, content);
    SameBytes(mode, content);
    TwoEntries(mode, content, Second(mode, content));
    hide Second, Swallowing, CutShort, Items, Fits, NoSpecial, WellNamed, ListBytes, Sort, Total, Utf8.IsUtf8, PathKey;
  }

  lemma TwoEntries(mode: Mode, content: Text, second: Text)
    requires |content| <= MAX_FILE_BYTES - 22
    ensures var x := EntryOf(A, mode, |content| + 22, second); Sort([x]) == [x] && Total([x]) == |content| + 22
    ensures var y, z := EntryOf(A, mode, |content| + 22, []), EntryOf(B, mode, |content|, content);
      && Sort([y, z]) == [y, z] && Total([y, z]) == |content| + 22 + |content|
      && z in [y, z] && z !in [EntryOf(A, mode, |content| + 22, second)]
    ensures Utf8.IsUtf8(A) && Utf8.IsUtf8(B)
  {
    var y, z := EntryOf(A, mode, |content| + 22, []), EntryOf(B, mode, |content|, content);
    assert Sort([z]) == [z] && Total([z]) == |content|;
    assert [EntryOf(A, mode, |content| + 22, second)][1..] == [] && [y, z][1..] == [z];
  }
}
