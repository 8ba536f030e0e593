// Acceptable records, said of their contents alone: texts by what they are made of,
// outcomes by their status.
module ExecutionRules {
  import opened Wrappers
  import opened Bytes
  import opened ExecutionText
  import opened ExecutionRecord
  import opened ExecutionRoundTrip
  import opened ExecutionDocument
  import Utf8

  // ---------- Paths ----------

  // Not empty, not a dot or two, without a slash.
  predicate IsName(n: seq<Unit16>)
  {
    n != [] && n != Ascii(".") && n != Ascii("..") && forall c :: c in n ==> c != '/' as int
  }

  // A slash before every name.
  function Slashed(names: seq<seq<Unit16>>): seq<Unit16>
  {
    if names == [] then [] else Ascii("/") + names[0] + Slashed(names[1..])
  }

  // An absolute path: the root, or names each after a slash.
  ghost predicate IsPath(u: seq<Unit16>)
  {
    u == Ascii("/")
    || exists names: seq<seq<Unit16>> ::
         names != [] && (forall n :: n in names ==> IsName(n)) && u == Slashed(names)
  }

  lemma {:induction false} SlashedIsJoined(names: seq<seq<Unit16>>)
    ensures Slashed(names) == Joined(names)
  {
    if names != [] {
      SlashedIsJoined(names[1..]);
      assert Ascii("/") == [SLASH];
      assert [SLASH] + names[0] + Joined(names[1..]) == [SLASH] + (names[0] + Joined(names[1..]));
    }
  }

  lemma NameExactly(n: seq<Unit16>)
    ensures IsName(n) <==> ResolvedName(n)
  {
    assert Ascii(".") == [DOT] && Ascii("..") == [DOT, DOT];
  }

  // The paths that resolving a directory yields.
  lemma PathExactly(u: seq<Unit16>)
    ensures IsPath(u) <==> exists names :: ResolvedNames(names) && u == PathOf(names)
  {
    assert Ascii("/") == [SLASH] == PathOf([]) && ResolvedNames([]);
    if IsPath(u) && u != [SLASH] {
      var names: seq<seq<Unit16>> :| names != [] && (forall n :: n in names ==> IsName(n)) && u == Slashed(names);
      SlashedIsJoined(names);
      forall n | n in names ensures ResolvedName(n) { NameExactly(n); }
      assert ResolvedNames(names) && u == PathOf(names);
    }
    if names :| ResolvedNames(names) && u == PathOf(names) {
      SlashedIsJoined(names);
      forall n | n in names ensures IsName(n) { NameExactly(n); }
    }
  }

  predicate Printable(u: seq<Unit16>) { forall c :: c in u ==> !(c <= 31 || 127 <= c <= 159) }

  lemma PrintableExactly(u: seq<Unit16>)
    ensures Printable(u) <==> NoControl(u)
  {
    forall i | 0 <= i < |u| && Printable(u) ensures 0x20 <= u[i] < 0x7F || u[i] > 0x9F { assert u[i] in u; }
  }

  lemma {:induction false} JoinedSplit(u: seq<Unit16>)
    ensures Joined(Split(u)) == [SLASH] + u
    ensures forall c :: c in Split(u) ==> SLASH !in c
  {
    if u != [] {
      var rest := Split(u[1..]);
      JoinedSplit(u[1..]);
      assert u == [u[0]] + u[1..];
      if u[0] == SLASH {
        assert Split(u)[1..] == rest && [] + Joined(rest) == Joined(rest);
      } else {
        assert rest == [rest[0]] + rest[1..] && rest[0] in rest;
        LongerName(u[0], u[1..], rest);
      }
    }
  }

  lemma LongerName(c: Unit16, u: seq<Unit16>, rest: seq<seq<Unit16>>)
    requires rest != [] && Joined(rest) == [SLASH] + u
    ensures Joined([[c] + rest[0]] + rest[1..]) == [SLASH] + ([c] + u)
  {
    var longer := [[c] + rest[0]] + rest[1..];
    assert longer[1..] == rest[1..];
    var tail := Joined(rest[1..]);
    assert Joined(rest)[1..] == rest[0] + tail == u;
    assert ([c] + rest[0]) + tail == [c] + (rest[0] + tail);
  }

  lemma CanonicalIsPath(u: seq<Unit16>)
    ensures CanonicalPath(u) <==> IsPath(u) && Printable(u)
  {
    PathExactly(u);
    PrintableExactly(u);
    if names :| ResolvedNames(names) && u == PathOf(names) {
      ResolvedIsCanonical(names);
    }
    if u == [SLASH] {
      assert ResolvedNames([]) && u == PathOf([]);
    } else if CanonicalPath(u) {
      SplitIsPath(u);
    }
    hide IsPath, Printable;
  }

  lemma SplitIsPath(u: seq<Unit16>)
    requires CanonicalPath(u) && u != [SLASH]
    ensures exists names :: ResolvedNames(names) && u == PathOf(names)
  {
    var names := Split(u[1..]);
    JoinedSplit(u[1..]);
    assert Split(u)[1..] == names && u == [SLASH] + u[1..];
    assert ResolvedNames(names) && u == PathOf(names);
  }

  // ---------- Sizes in UTF-8 ----------

  lemma PairedRest(u: seq<Unit16>)
    requires Paired(u) && u != []
    ensures if High(u[0]) then |u| >= 2 && Low(u[1]) && Paired(u[2..]) else !Low(u[0]) && Paired(u[1..])
  {
    assert PairedAt(u, 0);
    var k := if High(u[0]) then 2 else 1;
    if k <= |u| {
      var rest := u[k..];
      forall i | 0 <= i < |rest| ensures PairedAt(rest, i) {
        assert PairedAt(u, k + i) && PairedAt(u, k + i - 1);
      }
    }
  }

  // The text that UTF-16 units spell.
  function Scalars(u: seq<Unit16>): seq<Utf8.Scalar>
    requires Paired(u)
  {
    if u == [] then []
    else
      PairedRest(u);
      if High(u[0]) then [PairScalar(u[0], u[1])] + Scalars(u[2..]) else [UnitScalar(u[0])] + Scalars(u[1..])
  }

  function PairScalar(high: Unit16, low: Unit16): Utf8.Scalar
    requires High(high) && Low(low)
  {
    0x1_0000 + (high - 0xD800) * 0x400 + (low - 0xDC00)
  }

  function UnitScalar(u: Unit16): Utf8.Scalar
    requires !High(u) && !Low(u)
  {
    u
  }

  lemma {:induction false} SizeIsEncoding(u: seq<Unit16>)
    requires Paired(u)
    ensures Utf8Size(u) == |Utf8.EncodeAll(Scalars(u))|
  {
    if u != [] {
      PairedRest(u);
      hide Paired;
      if High(u[0]) {
        SizeIsEncoding(u[2..]);
        assert u[1..][1..] == u[2..];
        assert Scalars(u)[1..] == Scalars(u[2..]);
      } else {
        SizeIsEncoding(u[1..]);
        assert Scalars(u)[1..] == Scalars(u[1..]);
      }
    }
  }

  // ---------- Identifiers ----------

  function DashedHex(b: seq<Byte>): seq<Unit16>
    requires |b| == 16
  {
    Hex(b[..4]) + [DASH] + Hex(b[4..6]) + [DASH] + Hex(b[6..8]) + [DASH] + Hex(b[8..10]) + [DASH] + Hex(b[10..])
  }

  // Version 4 and variant 1 of RFC 9562, section 5.4.
  predicate RandomUuid(b: seq<Byte>) { |b| == 16 && b[6] / 16 == 4 && b[8] / 64 == 2 }

  lemma {:induction false} HexOf(u: seq<Unit16>) returns (b: seq<Byte>)
    requires |u| % 2 == 0 && forall i :: 0 <= i < |u| ==> IsLowerHex(u[i])
    ensures 2 * |b| == |u| && Hex(b) == u
  {
    if u == [] {
      b := [];
    } else {
      var rest := HexOf(u[2..]);
      b := [Octet(Nibble(u[0]) * 16 + Nibble(u[1]))] + rest;
      assert b[1..] == rest && u == [u[0], u[1]] + u[2..];
    }
  }

  lemma {:induction false} HexIsLower(b: seq<Byte>)
    ensures forall i :: 0 <= i < |Hex(b)| ==> IsLowerHex(Hex(b)[i])
  {
    if b != [] { HexIsLower(b[1..]); }
  }

  // The accepted identifiers are the dashed spellings of random UUIDs.
  lemma UuidExactly(u: seq<Unit16>)
    ensures IsUuid(u) <==> exists b: seq<Byte> :: RandomUuid(b) && u == DashedHex(b)
  {
    if IsUuid(u) { var b := UuidBytes(u); }
    if b: seq<Byte> :| RandomUuid(b) && u == DashedHex(b) { DashedIsUuid(b); }
  }

  lemma UuidBytes(u: seq<Unit16>) returns (b: seq<Byte>)
    requires IsUuid(u)
    ensures RandomUuid(b) && u == DashedHex(b)
  {
    var p := HexOf(u[..8]);
    var q := HexOf(u[9..13]);
    var r := HexOf(u[14..18]);
    var s := HexOf(u[19..23]);
    var t := HexOf(u[24..]);
    b := p + q + r + s + t;
    assert b[..4] == p && b[4..6] == q && b[6..8] == r && b[8..10] == s && b[10..] == t;
    assert Hex(r)[0] == u[14] && Hex(s)[0] == u[19];
    assert u == u[..8] + [DASH] + u[9..13] + [DASH] + u[14..18] + [DASH] + u[19..23] + [DASH] + u[24..];
  }

  lemma DashedIsUuid(b: seq<Byte>)
    requires RandomUuid(b)
    ensures IsUuid(DashedHex(b))
  {
    HexIsLower(b[..4]);
    HexIsLower(b[4..6]);
    HexIsLower(b[6..8]);
    HexIsLower(b[8..10]);
    HexIsLower(b[10..]);
    assert Hex(b[6..8])[0] == HexDigit(b[6] / 16) && Hex(b[8..10])[0] == HexDigit(b[8] / 16);
    hide Hex;
  }

  // ---------- Targets ----------

  // One to 256 units, not an option, without a parent directory and without controls.
  predicate IsTarget(u: seq<Unit16>)
  {
    && 1 <= |u| <= 256 && u[..1] != Ascii("-")
    && (forall i :: 0 < i < |u| ==> [u[i - 1], u[i]] != Ascii(".."))
    && (forall c :: c in u ==> c >= 32 && c != 127)
  }

  lemma TargetExactly(u: seq<Unit16>)
    ensures LegalTarget(u) <==> IsTarget(u)
  {
    assert Ascii("-") == [DASH] && Ascii("..") == [DOT, DOT];
    if u != [] { assert u[..1] == [u[0]]; }
    forall c | c in u && ValidTarget(u) ensures c >= 32 && c != 127 { var i :| 0 <= i < |u| && u[i] == c; }
    forall i | 0 <= i < |u| && IsTarget(u) ensures u[i] >= 0x20 && u[i] != 0x7F { assert u[i] in u; }
    forall i | 0 <= i < |u| - 1 && IsTarget(u) ensures u[i] != DOT || u[i + 1] != DOT {
      assert [u[i + 1 - 1], u[i + 1]] != [DOT, DOT];
    }
    forall i | 0 < i < |u| && ValidTarget(u) ensures [u[i - 1], u[i]] != [DOT, DOT] {
      assert u[i - 1] != DOT || u[i - 1 + 1] != DOT;
    }
  }

  // ---------- The calendar ----------

  function Floor(n: nat, k: nat): nat
    requires k > 0
  {
    n / k
  }

  // One for every fourth year before a year, but not every hundredth, save every
  // four-hundredth.
  function LeapDaysBefore(year: nat): int { Floor(year + 3, 4) - Floor(year + 99, 100) + Floor(year + 399, 400) }

  lemma {:induction false} GregorianYears(year: nat)
    ensures DaysBeforeYear(year) == 365 * year + LeapDaysBefore(year)
  {
    if year > 0 {
      YearAfter(year);
      hide *;
      GregorianYears(year - 1);
      MonthsAdd(year - 1);
      LeapDay(year - 1);
    } else {
      YearZero();
    }
  }

  lemma YearZero()
    ensures DaysBeforeYear(0) == 0 && LeapDaysBefore(0) == 0
  {
  }

  lemma YearAfter(year: nat)
    requires year > 0
    ensures DaysBeforeYear(year) == DaysBeforeYear(year - 1) + DaysBeforeMonth(year - 1, 13)
  {
    hide DaysBeforeMonth;
  }

  lemma LeapDay(year: nat)
    ensures LeapDaysBefore(year + 1) == LeapDaysBefore(year) + if Leap(year) then 1 else 0
  {
    Fourths(year);
    Hundredths(year);
    FourHundredths(year);
    Multiples(year);
    hide Floor;
  }

  lemma Multiples(year: nat)
    ensures (year % 400 == 0 ==> year % 100 == 0) && (year % 100 == 0 ==> year % 4 == 0)
  {
    if year % 400 == 0 { HundredTimes(year, 4 * (year / 400)); }
    if year % 100 == 0 { FourTimes(year, 25 * (year / 100)); }
  }

  lemma HundredTimes(n: nat, k: nat)
    requires n == 100 * k
    ensures n % 100 == 0
  {
  }

  lemma FourTimes(n: nat, k: nat)
    requires n == 4 * k
    ensures n % 4 == 0
  {
  }

  lemma Fourths(year: nat)
    ensures Floor(year + 4, 4) == Floor(year + 3, 4) + if year % 4 == 0 then 1 else 0
  {
    assert year == 4 * (year / 4) + year % 4;
  }

  lemma Hundredths(year: nat)
    ensures Floor(year + 100, 100) == Floor(year + 99, 100) + if year % 100 == 0 then 1 else 0
  {
    assert year == 100 * (year / 100) + year % 100;
  }

  lemma FourHundredths(year: nat)
    ensures Floor(year + 400, 400) == Floor(year + 399, 400) + if year % 400 == 0 then 1 else 0
  {
    assert year == 400 * (year / 400) + year % 400;
  }

  // A year's months make 365 days or 366.
  lemma MonthsAdd(year: nat)
    ensures DaysBeforeMonth(year, 13) == 365 + if Leap(year) then 1 else 0
  {
    GregorianMonths(year);
    hide *;
  }

  lemma GregorianMonths(year: nat)
    ensures DaysBeforeMonth(year, 13) == 365 + if Leap(year) then 1 else 0
    ensures forall month :: 1 <= month <= 12 && month != 2 ==> LastDay(year, month) == 30 + (month + month / 8) % 2
  {
    assert DaysBeforeMonth(year, 1) == 0 && DaysBeforeMonth(year, 2) == 31;
    var march := DaysBeforeMonth(year, 3);
    assert march == 59 + if Leap(year) then 1 else 0;
    assert DaysBeforeMonth(year, 4) == march + 31;
    assert DaysBeforeMonth(year, 5) == march + 61;
    assert DaysBeforeMonth(year, 6) == march + 92;
    assert DaysBeforeMonth(year, 7) == march + 122;
    assert DaysBeforeMonth(year, 8) == march + 153;
    assert DaysBeforeMonth(year, 9) == march + 184;
    assert DaysBeforeMonth(year, 10) == march + 214;
    assert DaysBeforeMonth(year, 11) == march + 245;
    assert DaysBeforeMonth(year, 12) == march + 275;
    forall month | 1 <= month <= 12 && month != 2 ensures LastDay(year, month) == 30 + (month + month / 8) % 2 {
      assert month < 8 ==> month / 8 == 0;
      assert month >= 8 ==> month / 8 == 1;
    }
  }

  // The moments there are, and how each is written.
  lemma CalendarExactly(f: seq<nat>)
    ensures InCalendar(f) <==>
      && |f| == 7 && 1 <= f[0] < 10_000 && 1 <= f[1] <= 12 && f[2] >= 1
      && (f[1] == 2 && (f[0] % 4 != 0 || (f[0] % 100 == 0 && f[0] % 400 != 0)) ==> f[2] < 29)
      && (f[1] == 2 ==> f[2] < 30) && ((f[1] + f[1] / 8) % 2 == 0 ==> f[2] < 31) && f[2] < 32
      && f[3] < 24 && f[4] < 60 && f[5] < 60 && f[6] < 1000
  {
    if |f| == 7 { GregorianMonths(f[0]); }
    hide DaysBeforeMonth;
  }

  // A field and its mark, before the rest.
  function Field(n: nat, width: nat, mark: string, rest: seq<Unit16>): seq<Unit16>
  {
    Decimal(n, width) + (Ascii(mark) + rest)
  }

  lemma FormatFrom(m: Moment, i: nat, mark: string)
    requires i < 7 && |LAYOUT| == 7 && |mark| == 1 && LAYOUT[i].mark == mark[0] as int
    ensures Spelled(m[i..], LAYOUT[i..])
      == Field(m[i], LAYOUT[i].width, mark, Spelled(m[i + 1..], LAYOUT[i + 1..]))
  {
    assert m[i..][1..] == m[i + 1..] && LAYOUT[i..][1..] == LAYOUT[i + 1..];
    assert Ascii(mark) == [LAYOUT[i].mark];
  }

  lemma Format(m: Moment)
    ensures MomentText(m) ==
      Field(m[0], 4, "-", Field(m[1], 2, "-", Field(m[2], 2, "T",
        Field(m[3], 2, ":", Field(m[4], 2, ":", Field(m[5], 2, ".", Field(m[6], 3, "Z", [])))))))
  {
    assert m[0..] == m && LAYOUT[0..] == LAYOUT && Spelled(m[7..], LAYOUT[7..]) == [];
    hide Decimal, Spelled, Ascii, Field;
    FormatFrom(m, 0, "-");
    FormatFrom(m, 1, "-");
    FormatFrom(m, 2, "T");
    FormatFrom(m, 3, ":");
    FormatFrom(m, 4, ":");
    FormatFrom(m, 5, ".");
    FormatFrom(m, 6, "Z");
  }

  // ---------- Outcomes ----------

  const MAX_NUMBER := 0x1F_FFFF_FFFF_FFFF

  predicate Count(n: Option<int>, least: int) { n == None || least <= n.value <= MAX_NUMBER }

  predicate GoodTree(t: Tree)
  {
    0 <= t.fileCount <= t.entryCount && t.entryCount <= MAX_NUMBER && 0 <= t.byteCount <= MAX_NUMBER
  }

  // What a terminal outcome may say, status by status.
  predicate GoodOutcome(o: Outcome, status: Status)
  {
    && o.build == status
    && Count(o.lakeExitCode, -MAX_NUMBER) && Count(o.artifactCount, 0) && Count(o.group, 1)
    && (o.evidence == None || (GoodTree(o.evidence.value.input) && GoodTree(o.evidence.value.output)))
    && (o.message == None || |o.message.value| <= 1_024)
    && (match o.reason
        case Some(Signal) => o.trigger != None
        case _ => o.trigger == None)
    && (match status
        case Running => false
        case Completed => o.stage == None && o.message == None && o.source == None
        case Failed => o.stage != None && o.source == None
        case Reused =>
          && o.stage == None && o.message == None && o.source != None && o.evidence != None
          && o.lakeExitCode == None && o.reason == None && o.trigger == None
          && o.group == None && o.escalated == None && o.reaped == None)
  }

  lemma OutcomeRules(o: Outcome, status: Status)
    ensures o.build == status && InRange(o) && Legal(o, status) <==> GoodOutcome(o, status)
  {
  }

  // ---------- Records ----------

  // What a record may say: a path and its digest, a target, one policy that fits the
  // status, a recovery identity that is whole or absent, and an end that fits the status.
  ghost predicate GoodRecord(projectIdOf: ProjectHash, d: Document, requested: Uuid)
  {
    var h := d.head;
    && h.execution == requested
    && IsPath(h.path) && Printable(h.path) && Utf8Size(h.path) <= 4_096 && h.projectId == projectIdOf(h.path)
    && IsTarget(h.target)
    && (match (h.profile, h.reusePolicy)
        case (Some(_), None) => d.status != Reused
        case (None, Some(_)) => d.status != Completed
        case _ => false)
    && (match (h.pid, h.protectedBefore, h.protectedCount)
        case (None, None, None) => true
        case (Some(pid), Some(_), Some(count)) => 1 <= pid <= MAX_NUMBER && 0 <= count <= MAX_NUMBER
        case _ => false)
    && (match (d.status, d.finished, d.outcome)
        case (Running, None, None) => true
        case (_, Some(finished), Some(o)) => Instant(finished) >= Instant(h.started) && GoodOutcome(o, d.status)
        case _ => false)
  }

  lemma RecordRules(projectIdOf: ProjectHash, d: Document, requested: Uuid)
    ensures HeadInRange(d.head) && LegalHead(projectIdOf, d.head, d.status, requested) && LegalEnd(d) <==>
      GoodRecord(projectIdOf, d, requested)
  {
    CanonicalIsPath(d.head.path);
    TargetExactly(d.head.target);
    if d.outcome.Some? { OutcomeRules(d.outcome.value, d.status); }
    hide CanonicalPath, IsPath, Printable, IsTarget, LegalTarget, GoodOutcome, Legal, InRange, Instant;
  }

  // The reader takes a document for a record exactly when it is the record's encoding, up to
  // the spelling of a zero exit code, and the record is a good one.
  lemma RecordAcceptedExactly(projectIdOf: ProjectHash, m: map<Name, Json>, requested: Uuid, d: Document)
    ensures DecodeDocument(projectIdOf, m, requested) == Some(d) <==>
      CanonicalDocument(m) == EncodeDocument(d) && GoodRecord(projectIdOf, d, requested)
  {
    DocumentAcceptedExactly(projectIdOf, m, requested, d);
    RecordRules(projectIdOf, d, requested);
    hide *;
  }
}
