// Choosing a reuse source: keep the compatible records, sort them newest first, and
// take the first.
module ReuseCandidate {
  import opened Wrappers
  import opened Protocol

  datatype Stored = Stored(id: ExecId, record: Record)

  // The sort's comparison: later finish first, then greater execution id.
  predicate Precedes(a: Stored, b: Stored)
  {
    a.record.finishedAt > b.record.finishedAt || (a.record.finishedAt == b.record.finishedAt && a.id >= b.id)
  }

  function Candidates(list: seq<Stored>, identity: Identity): seq<Stored>
  {
    if list == [] then []
    else if Compatible(list[0].record, identity) then [list[0]] + Candidates(list[1..], identity)
    else Candidates(list[1..], identity)
  }

  function Insert(x: Stored, sorted: seq<Stored>): seq<Stored>
  {
    if sorted == [] || Precedes(x, sorted[0]) then [x] + sorted else [sorted[0]] + Insert(x, sorted[1..])
  }

  function Sort(list: seq<Stored>): seq<Stored>
  {
    if list == [] then [] else Insert(list[0], Sort(list[1..]))
  }

  function SelectReuseCandidate(list: seq<Stored>, identity: Identity): Option<Stored>
  {
    var sorted := Sort(Candidates(list, identity));
    if sorted == [] then None else Some(sorted[0])
  }

  // ---------- What it selects ----------

  lemma {:induction false} CandidatesAreCompatible(list: seq<Stored>, identity: Identity, x: Stored)
    ensures x in Candidates(list, identity) <==> x in list && Compatible(x.record, identity)
  {
    if list != [] {
      CandidatesAreCompatible(list[1..], identity, x);
      assert list == [list[0]] + list[1..];
      hide Compatible;
    }
  }

  lemma {:induction false} InsertMembers(x: Stored, sorted: seq<Stored>, y: Stored)
    ensures y in Insert(x, sorted) <==> y == x || y in sorted
  {
    hide Precedes;
    if !(sorted == [] || Precedes(x, sorted[0])) {
      InsertMembers(x, sorted[1..], y);
      assert sorted == [sorted[0]] + sorted[1..];
    }
  }

  predicate FirstIsGreatest(sorted: seq<Stored>)
  {
    forall i :: 0 <= i < |sorted| ==> Precedes(sorted[0], sorted[i])
  }

  lemma InsertKeepsFirst(x: Stored, sorted: seq<Stored>)
    requires FirstIsGreatest(sorted)
    ensures FirstIsGreatest(Insert(x, sorted))
  {
    var r := Insert(x, sorted);
    forall i | 0 <= i < |r| ensures Precedes(r[0], r[i]) {
      InsertMembers(x, sorted, r[i]);
    }
  }

  lemma {:induction false} SortIsSorted(list: seq<Stored>)
    ensures FirstIsGreatest(Sort(list)) && forall x :: x in Sort(list) <==> x in list
  {
    if list != [] {
      SortIsSorted(list[1..]);
      InsertKeepsFirst(list[0], Sort(list[1..]));
      forall x ensures x in Sort(list) <==> x in list {
        InsertMembers(list[0], Sort(list[1..]), x);
        assert list == [list[0]] + list[1..];
      }
    }
  }

  // `list` reads every record of the store, in some order.
  ghost predicate ReadsStore(list: seq<Stored>, records: map<ExecId, Record>)
  {
    && (forall i :: 0 <= i < |list| ==> list[i].id in records && list[i].record == records[list[i].id])
    && (forall e :: e in records ==> Stored(e, records[e]) in list)
  }

  // Among the completed records of an identity that have evidence, none finished later, and
  // of those that finished together none has a greater id.
  ghost predicate Newest(records: map<ExecId, Record>, identity: Identity, c: ExecId)
  {
    && c in records && records[c].status == Completed && records[c].identity == identity
    && records[c].outcome.evidence.Some?
    && forall d :: d in records && records[d].finishedAt >= records[c].finishedAt
         && (records[d].finishedAt > records[c].finishedAt || d > c)
         ==> records[d].status != Completed || records[d].identity != identity || records[d].outcome.evidence.None?
  }

  lemma BestIsNewest(records: map<ExecId, Record>, identity: Identity, c: ExecId)
    ensures BestSource(records, identity, c) <==> Newest(records, identity, c)
  {
    if BestSource(records, identity, c) {
      forall d | d in records && records[d].finishedAt >= records[c].finishedAt
        && (records[d].finishedAt > records[c].finishedAt || d > c)
        ensures !Compatible(records[d], identity)
      {
        assert Compatible(records[d], identity) && d != c ==> Before(records, d, c);
      }
    }
    if Newest(records, identity, c) {
      forall d | d in records && Compatible(records[d], identity) && d != c ensures Before(records, d, c) {}
    }
  }

  // Whatever the order of the listing: the best source, and none only if none fits.
  lemma SelectsBestSource(list: seq<Stored>, records: map<ExecId, Record>, identity: Identity)
    requires ReadsStore(list, records)
    ensures match SelectReuseCandidate(list, identity)
      case Some(x) => BestSource(records, identity, x.id) && Newest(records, identity, x.id)
        && x.record == records[x.id]
      case None => forall e :: e in records && records[e].status == Completed && records[e].identity == identity ==>
        records[e].outcome.evidence.None?
  {
    var found := Candidates(list, identity);
    SortIsSorted(found);
    var sorted := Sort(found);
    forall e | e in records && Compatible(records[e], identity) ensures Stored(e, records[e]) in sorted {
      CandidatesAreCompatible(list, identity, Stored(e, records[e]));
    }
    if sorted != [] {
      var x := sorted[0];
      assert x in sorted;
      CandidatesAreCompatible(list, identity, x);
      forall d | d in records && Compatible(records[d], identity) && d != x.id ensures Before(records, d, x.id) {
        assert Stored(d, records[d]) in sorted;
      }
      BestIsNewest(records, identity, x.id);
    } else {
      forall e | e in records ensures !Compatible(records[e], identity) {
        assert Stored(e, records[e]) !in sorted;
      }
    }
  }

  lemma BestSourceIsUnique(records: map<ExecId, Record>, identity: Identity, c: ExecId, d: ExecId)
    requires BestSource(records, identity, c) && BestSource(records, identity, d)
    ensures c == d
  {
    assert c != d ==> Before(records, c, d) && Before(records, d, c);
  }

  lemma SelectionIgnoresOrder(a: seq<Stored>, b: seq<Stored>, records: map<ExecId, Record>, identity: Identity)
    requires ReadsStore(a, records) && ReadsStore(b, records)
    ensures SelectReuseCandidate(a, identity) == SelectReuseCandidate(b, identity)
  {
    SelectsBestSource(a, records, identity);
    SelectsBestSource(b, records, identity);
    var x := SelectReuseCandidate(a, identity);
    var y := SelectReuseCandidate(b, identity);
    if x.Some? && y.Some? { BestSourceIsUnique(records, identity, x.value.id, y.value.id); }
  }
}
