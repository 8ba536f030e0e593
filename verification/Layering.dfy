// The crate layering check: a worklist closure over the workspace dependency graph, and
// what an empty report means.
module Layering {
  import opened Wrappers

  type Crate = string
  type Graph = map<Crate, set<Crate>>

  const CORE: Crate := "leanbun-core"
  const EVIDENCE: Crate := "leanbun-evidence"
  const CODEC: Crate := "leanbun-codec"
  const LOCK: Crate := "leanbun-lock"
  const PACKAGE: Crate := "leanbun-package"
  const LEGACY: Crate := "leanbun-inventory-legacy"

  const MAINLINE: seq<Crate> :=
    ["leanbun-lake-bridge", "leanbun-resolver", "leanbun-store", "leanbun-generation", "leanbun-build",
      "leanbun-managed"]

  const HISTORICAL: set<Crate> :=
    {"leanbun-inventory-legacy", "leanbun-plan", "leanbun-state", "leanbun-approval-macos", "leanbun-macos-acl-sys"}

  const CODEC_CONSUMERS: set<Crate> := {"leanbun-evidence", "leanbun-lake-bridge", "leanbun-managed", "leanbun-plan"}

  const PREFIX := "leanbun-"

  function Dependencies(g: Graph, c: Crate): set<Crate> { if c in g then g[c] else {} }

  // ---------- Reachability ----------

  predicate Path(g: Graph, p: seq<Crate>)
  {
    p != [] && forall i :: 0 <= i < |p| - 1 ==> p[i + 1] in Dependencies(g, p[i])
  }

  ghost predicate Reaches(g: Graph, a: Crate, b: Crate)
  {
    exists p :: Path(g, p) && p[0] == a && p[|p| - 1] == b
  }

  ghost predicate Whole(g: Graph, root: Crate) { forall c :: Reaches(g, root, c) ==> c in g }

  lemma ReachesSelf(g: Graph, a: Crate)
    ensures Reaches(g, a, a)
  {
    assert Path(g, [a]);
  }

  lemma ReachesDependency(g: Graph, a: Crate, b: Crate, c: Crate)
    requires Reaches(g, a, b) && c in Dependencies(g, b)
    ensures Reaches(g, a, c)
  {
    var p :| Path(g, p) && p[0] == a && p[|p| - 1] == b;
    var q := p + [c];
    forall i | 0 <= i < |q| - 1 ensures q[i + 1] in Dependencies(g, q[i]) {
      if i < |p| - 1 { assert q[i] == p[i] && q[i + 1] == p[i + 1]; }
    }
    assert Path(g, q) && q[0] == a && q[|q| - 1] == c;
  }

  ghost predicate Closed(g: Graph, s: set<Crate>) { forall c, d :: c in s && d in Dependencies(g, c) ==> d in s }

  // A closed set with the root in it holds everything reachable.
  lemma {:induction false} ClosedHoldsPath(g: Graph, s: set<Crate>, p: seq<Crate>)
    requires Path(g, p) && p[0] in s && Closed(g, s)
    ensures p[|p| - 1] in s
    decreases |p|
  {
    if |p| > 1 {
      var q := p[1..];
      assert p[0 + 1] in Dependencies(g, p[0]);
      forall i | 0 <= i < |q| - 1 ensures q[i + 1] in Dependencies(g, q[i]) {
        assert q[i] == p[i + 1] && q[i + 1] == p[i + 1 + 1];
      }
      ClosedHoldsPath(g, s, q);
    }
  }

  lemma ClosedHoldsReachable(g: Graph, s: set<Crate>, root: Crate)
    requires root in s && Closed(g, s)
    ensures forall c :: Reaches(g, root, c) ==> c in s
  {
    forall c | Reaches(g, root, c) ensures c in s {
      var p :| Path(g, p) && p[0] == root && p[|p| - 1] == c;
      ClosedHoldsPath(g, s, p);
    }
  }

  // ---------- The worklist ----------

  ghost predicate InWork(queue: seq<Crate>, visited: set<Crate>, c: Crate) { c in visited || c in queue }

  // Everything met is reachable, and nothing reachable has been dropped.
  ghost predicate Progress(g: Graph, root: Crate, visited: set<Crate>, queue: seq<Crate>)
  {
    && (forall c :: InWork(queue, visited, c) ==> Reaches(g, root, c))
    && InWork(queue, visited, root)
    && (forall c :: c in visited ==> c in g)
    && (forall c, d :: c in visited && d in Dependencies(g, c) ==> InWork(queue, visited, d))
  }

  method PushAll(queue: seq<Crate>, dependencies: set<Crate>) returns (r: seq<Crate>)
    ensures forall c :: c in r <==> c in queue || c in dependencies
  {
    r := queue;
    var rest := dependencies;
    while rest != {}
      invariant rest <= dependencies
      invariant forall c :: c in r <==> c in queue || c in dependencies - rest
    {
      var c :| c in rest;
      r := r + [c];
      rest := rest - {c};
    }
  }

  // Exactly the crates reachable from the root, and a failure exactly when one of them is
  // not in the graph.
  method Closure(g: Graph, root: Crate) returns (r: Result<set<Crate>, Crate>)
    ensures r.Ok? <==> Whole(g, root)
    ensures r.Ok? ==> forall c :: c in r.value <==> Reaches(g, root, c)
    ensures r.Err? ==> Reaches(g, root, r.error) && r.error !in g
  {
    ReachesSelf(g, root);
    if root !in g { return Err(root); }
    var visited: set<Crate> := {};
    var queue := [root];
    while queue != []
      invariant Progress(g, root, visited, queue)
      decreases |g.Keys - visited|, |queue|
    {
      hide Reaches, Path;
      var current := queue[|queue| - 1];
      ghost var before := queue;
      queue := queue[..|queue| - 1];
      assert before == queue + [current];
      assert InWork(before, visited, current);
      if current in visited {
        ProgressSkips(g, root, visited, before, queue, current);
        continue;
      }
      if current !in g { return Err(current); }
      ghost var seen := visited;
      visited := visited + {current};
      assert g.Keys - visited == g.Keys - seen - {current};
      forall d | d in g[current] ensures Reaches(g, root, d) { ReachesDependency(g, root, current, d); }
      ghost var popped := queue;
      queue := PushAll(queue, g[current]);
      ProgressKept(g, root, seen, before, current, popped, queue);
    }
    assert InWork([], visited, root);
    forall c, d | c in visited && d in Dependencies(g, c) ensures d in visited { assert InWork([], visited, d); }
    forall c | c in visited ensures Reaches(g, root, c) { assert InWork([], visited, c); }
    ClosedHoldsReachable(g, visited, root);
    r := Ok(visited);
  }

  lemma ProgressSkips(g: Graph, root: Crate, visited: set<Crate>, before: seq<Crate>, after: seq<Crate>, current: Crate)
    requires Progress(g, root, visited, before) && before == after + [current] && current in visited
    ensures Progress(g, root, visited, after)
  {
    hide Reaches;
    forall c ensures InWork(after, visited, c) <==> InWork(before, visited, c) {}
  }

  lemma ProgressKept(g: Graph, root: Crate, visited: set<Crate>, before: seq<Crate>, current: Crate, popped: seq<Crate>,
    after: seq<Crate>)
    requires Progress(g, root, visited, before) && before == popped + [current] && current in g
    requires forall c :: c in after <==> c in popped || c in g[current]
    requires forall d :: d in g[current] ==> Reaches(g, root, d)
    ensures Progress(g, root, visited + {current}, after)
  {
    hide Reaches;
    forall c | InWork(before, visited, c) ensures InWork(after, visited + {current}, c) {}
    assert InWork(before, visited, current);
    forall c | InWork(after, visited + {current}, c) ensures Reaches(g, root, c) {
      assert InWork(before, visited, c) || c in g[current];
    }
    forall c, d | c in visited + {current} && d in Dependencies(g, c) ensures InWork(after, visited + {current}, d) {
      if c in visited { assert InWork(before, visited, d); }
    }
  }

  // ---------- The report ----------

  datatype Complaint =
    | RequiredMissing(root: Crate)
    | CoreDepends
    | EvidenceReaches(crate: Crate)
    | CodecReaches(crate: Crate)
    | NeedsCodec(consumer: Crate)
    | LockDepends
    | PackageRemains
    | NeedsLock(root: Crate)
    | ClosureFailed(crate: Crate)
    | ReachesHistorical(root: Crate, crate: Crate)
    | ReachesPackage(root: Crate)
    | Unexpected(crate: Crate)
    | LegacySeesLock

  // The report is a sorted list without repetitions.
  datatype Report = Complaints(complaints: set<Complaint>) | Thrown(crate: Crate)

  predicate LeanBunName(name: Crate) { |name| >= |PREFIX| && name[..|PREFIX|] == PREFIX }

  predicate Required(c: Crate) { c == CORE || c == EVIDENCE || c in MAINLINE }

  predicate Policy(c: Crate) { c in MAINLINE || c == PACKAGE || c in HISTORICAL }

  // ---------- What the check is for ----------

  predicate Present(g: Graph) { CORE in g && EVIDENCE in g && forall c :: c in MAINLINE ==> c in g }

  ghost predicate EvidenceLayered(g: Graph)
  {
    Whole(g, EVIDENCE) && forall c :: Reaches(g, EVIDENCE, c) ==> c == EVIDENCE || c == CODEC || c == CORE
  }

  ghost predicate CodecLayered(g: Graph)
  {
    CODEC in g ==>
      && Whole(g, CODEC)
      && (forall c :: Reaches(g, CODEC, c) ==> c == CODEC || c == CORE)
      && (forall c :: c in CODEC_CONSUMERS ==> CODEC in Dependencies(g, c))
  }

  // No mainline root reaches a historical crate.
  ghost predicate RootLayered(g: Graph, root: Crate)
  {
    && Whole(g, root)
    && (forall c :: c in HISTORICAL ==> !Reaches(g, root, c))
    && (LOCK in g ==> LOCK in Dependencies(g, root) && !Reaches(g, root, PACKAGE))
  }

  predicate NamesLayered(g: Graph)
  {
    forall c :: c in g && c != EVIDENCE && c != CORE ==> (Policy(c) || LeanBunName(c)) && !(c == LEGACY && LOCK in g[c])
  }

  ghost predicate Layered(g: Graph)
  {
    && Present(g)
    && g[CORE] == {}
    && EvidenceLayered(g)
    && CodecLayered(g)
    && (LOCK in g ==> g[LOCK] == {CORE})
    && !(LEGACY in g && PACKAGE in g)
    && (forall root :: root in MAINLINE ==> RootLayered(g, root))
    && NamesLayered(g)
  }

  // ---------- The check, part by part ----------

  method CheckEvidence(g: Graph) returns (r: Report)
    ensures r.Thrown? <==> !Whole(g, EVIDENCE)
    ensures r.Complaints? ==> (r.complaints == {} <==> EvidenceLayered(g)) && forall e :: e in r.complaints ==>
      e.EvidenceReaches?
  {
    var reachable := Closure(g, EVIDENCE);
    hide Reaches, Whole;
    if reachable.Err? { return Thrown(reachable.error); }
    var bad := set c | c in reachable.value && c != EVIDENCE && c != CODEC && c != CORE;
    r := Complaints(set c | c in bad :: EvidenceReaches(c));
    assert forall c :: c in bad ==> EvidenceReaches(c) in r.complaints;
    assert forall c :: Reaches(g, EVIDENCE, c) ==> c in bad || c == EVIDENCE || c == CODEC || c == CORE;
    assert bad != {} ==> exists c :: c in bad && Reaches(g, EVIDENCE, c);
  }

  method CheckCodec(g: Graph) returns (r: Report)
    ensures r.Thrown? <==> CODEC in g && !Whole(g, CODEC)
    ensures r.Complaints? ==> (r.complaints == {} <==> CodecLayered(g)) && forall e :: e in r.complaints ==>
      e.CodecReaches? || e.NeedsCodec?
  {
    if CODEC !in g { return Complaints({}); }
    var reachable := Closure(g, CODEC);
    hide Reaches, Whole, CODEC_CONSUMERS;
    if reachable.Err? { return Thrown(reachable.error); }
    var bad := set c | c in reachable.value && c != CODEC && c != CORE;
    var late := set c | c in CODEC_CONSUMERS && CODEC !in Dependencies(g, c);
    r := Complaints((set c | c in bad :: CodecReaches(c)) + (set c | c in late :: NeedsCodec(c)));
    assert forall c :: c in bad ==> CodecReaches(c) in r.complaints;
    assert forall c :: c in late ==> NeedsCodec(c) in r.complaints;
    assert forall c :: Reaches(g, CODEC, c) ==> c in bad || c == CODEC || c == CORE;
    assert bad != {} ==> exists c :: c in bad && Reaches(g, CODEC, c);
    assert forall c :: c in CODEC_CONSUMERS ==> c in late || CODEC in Dependencies(g, c);
    assert late != {} ==> exists c :: c in late && c in CODEC_CONSUMERS;
  }

  method CheckRoot(g: Graph, root: Crate) returns (e: set<Complaint>)
    ensures e == {} <==> RootLayered(g, root)
    ensures forall c :: ReachesHistorical(root, c) in e <==> Whole(g, root) && c in HISTORICAL && Reaches(g, root, c)
    ensures !Whole(g, root) ==> exists c :: ClosureFailed(c) in e && Reaches(g, root, c) && c !in g
    ensures forall x :: x in e ==> (x.ReachesHistorical? ==> x.root == root) && !x.RequiredMissing?
  {
    e := if LOCK in g && LOCK !in Dependencies(g, root) then {NeedsLock(root)} else {};
    var reachable := Closure(g, root);
    hide Reaches, Whole, HISTORICAL, LOCK, PACKAGE;
    if reachable.Err? {
      e := e + {ClosureFailed(reachable.error)};
      return;
    }
    var retired := set c | c in HISTORICAL && c in reachable.value;
    e := e + (set c | c in retired :: ReachesHistorical(root, c));
    assert forall c :: c in retired ==> ReachesHistorical(root, c) in e;
    assert forall c :: c in HISTORICAL ==> (c in retired <==> Reaches(g, root, c));
    assert retired != {} ==> exists c :: c in retired && Reaches(g, root, c);
    if LOCK in g && PACKAGE in reachable.value { e := e + {ReachesPackage(root)}; }
  }

  method CheckNames(g: Graph) returns (e: set<Complaint>)
    ensures e == {} <==> NamesLayered(g)
    ensures forall x :: x in e ==> x.Unexpected? || x.LegacySeesLock?
  {
    var strange := set c | c in g && c != EVIDENCE && c != CORE && !Policy(c) && !LeanBunName(c);
    e := set c | c in strange :: Unexpected(c);
    assert forall c :: c in strange ==> Unexpected(c) in e;
    assert forall c :: c in g && c != EVIDENCE && c != CORE ==> c in strange || Policy(c) || LeanBunName(c);
    assert strange != {} ==> exists c :: c in strange && c in g;
    hide Policy, LeanBunName;
    if LEGACY in g && LEGACY != EVIDENCE && LEGACY != CORE && LOCK in g[LEGACY] { e := e + {LegacySeesLock}; }
  }

  method CheckRoots(g: Graph) returns (e: set<Complaint>)
    ensures e == {} <==> forall root :: root in MAINLINE ==> RootLayered(g, root)
    ensures forall root, c :: root in MAINLINE ==>
      (ReachesHistorical(root, c) in e <==> Whole(g, root) && c in HISTORICAL && Reaches(g, root, c))
    ensures forall x :: x in e ==> !x.RequiredMissing?
  {
    hide Reaches, Whole, HISTORICAL, MAINLINE, RootLayered;
    e := {};
    var i := 0;
    while i < |MAINLINE|
      invariant 0 <= i <= |MAINLINE|
      invariant e == {} <==> forall j :: 0 <= j < i ==> RootLayered(g, MAINLINE[j])
      invariant forall root, c :: ReachesHistorical(root, c) in e <==>
        root in MAINLINE[..i] && Whole(g, root) && c in HISTORICAL && Reaches(g, root, c)
      invariant forall x :: x in e ==> !x.RequiredMissing?
    {
      var more := CheckRoot(g, MAINLINE[i]);
      assert MAINLINE[..i + 1] == MAINLINE[..i] + [MAINLINE[i]];
      e := e + more;
      i := i + 1;
    }
    assert MAINLINE[..i] == MAINLINE;
  }

  // ---------- The whole check ----------

  // An empty report means exactly that the graph is layered; the check throws exactly when
  // evidence or codec reaches a crate that is not there.
  method CheckLayering(g: Graph) returns (r: Report)
    ensures r == Complaints({}) <==> Layered(g)
    ensures r.Thrown? <==> Present(g) && (!Whole(g, EVIDENCE) || (CODEC in g && !Whole(g, CODEC)))
    ensures r.Complaints? && Present(g) ==> forall root, c :: root in MAINLINE ==>
      (ReachesHistorical(root, c) in r.complaints <==> Whole(g, root) && c in HISTORICAL && Reaches(g, root, c))
    ensures !Present(g) ==> r.Complaints? && forall c :: RequiredMissing(c) in r.complaints <==> Required(c) && c !in g
  {
    var absent := CheckRequired(g);
    if absent != {} { return Complaints(absent); }
    assert CORE in g;
    var local := CheckLocal(g);
    var evidence := CheckEvidence(g);
    if evidence.Thrown? { return evidence; }
    var codec := CheckCodec(g);
    if codec.Thrown? { return codec; }
    var roots := CheckRoots(g);
    LayeredParts(g);
    r := Complaints(local + evidence.complaints + codec.complaints + roots);
    hide *;
  }

  method CheckRequired(g: Graph) returns (e: set<Complaint>)
    ensures e == {} <==> Present(g)
    ensures forall c :: RequiredMissing(c) in e <==> Required(c) && c !in g
  {
    hide MAINLINE;
    var missing := set c | c in [CORE, EVIDENCE] + MAINLINE && c !in g;
    e := set c | c in missing :: RequiredMissing(c);
    assert forall c :: c in missing <==> Required(c) && c !in g;
    assert forall c :: c in missing ==> RequiredMissing(c) in e;
    assert !Present(g) ==> CORE in missing || EVIDENCE in missing || exists c :: c in MAINLINE && c in missing;
    assert e != {} ==> exists c :: c in missing;
  }

  // The parts that need no closure.
  ghost predicate LocalLayered(g: Graph)
    requires CORE in g
  {
    && g[CORE] == {}
    && (LOCK in g ==> g[LOCK] == {CORE})
    && !(LEGACY in g && PACKAGE in g)
    && NamesLayered(g)
  }

  method CheckLocal(g: Graph) returns (e: set<Complaint>)
    requires CORE in g
    ensures e == {} <==> LocalLayered(g)
    ensures forall x :: x in e ==> !x.ReachesHistorical?
  {
    hide NamesLayered, HISTORICAL, MAINLINE;
    e := CheckNames(g);
    if g[CORE] != {} { e := e + {CoreDepends}; }
    if LOCK in g && g[LOCK] != {CORE} { e := e + {LockDepends}; }
    if LEGACY in g && PACKAGE in g { e := e + {PackageRemains}; }
  }

  lemma LayeredParts(g: Graph)
    requires CORE in g
    ensures Layered(g) <==>
      && Present(g) && LocalLayered(g) && EvidenceLayered(g) && CodecLayered(g)
      && forall root :: root in MAINLINE ==> RootLayered(g, root)
    ensures EvidenceLayered(g) ==> Whole(g, EVIDENCE)
    ensures CodecLayered(g) ==> (CODEC in g ==> Whole(g, CODEC))
  {
    hide NamesLayered, RootLayered, MAINLINE, Reaches, Whole, Present, CODEC_CONSUMERS;
  }
}
