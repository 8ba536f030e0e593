// The texts an execution record is spelled with, as UTF-16 units: keywords, digests,
// identifiers, timestamps, paths and targets.
module ExecutionText {
  import opened Wrappers
  import opened Bytes

  type Unit16 = u: int | 0 <= u < 0x1_0000

  // ---------- Keywords ----------

  datatype Status = Running | Completed | Failed | Reused
  datatype Reason = Exit | Timeout | Signal
  datatype Trigger = Sigint | Sigterm | Abort
  datatype Stage = SandboxExecution | PostBuildVerification | ReuseVerification | RecoveryStage | Internal
  datatype Schema = InputTree | OutputTree

  const RECORD_TYPE := Ascii("controlled-build-execution")

  function StatusWord(s: Status): seq<Unit16>
  {
    match s
    case Running => Ascii("running")
    case Completed => Ascii("completed")
    case Failed => Ascii("failed")
    case Reused => Ascii("reused")
  }

  function ReasonWord(r: Reason): seq<Unit16>
  {
    match r
    case Exit => Ascii("exit")
    case Timeout => Ascii("timeout")
    case Signal => Ascii("signal")
  }

  function TriggerWord(t: Trigger): seq<Unit16>
  {
    match t
    case Sigint => Ascii("SIGINT")
    case Sigterm => Ascii("SIGTERM")
    case Abort => Ascii("ABORT")
  }

  function StageWord(s: Stage): seq<Unit16>
  {
    match s
    case SandboxExecution => Ascii("sandbox-execution")
    case PostBuildVerification => Ascii("post-build-verification")
    case ReuseVerification => Ascii("reuse-verification")
    case RecoveryStage => Ascii("recovery")
    case Internal => Ascii("internal")
  }

  function SchemaWord(s: Schema): seq<Unit16>
  {
    match s
    case InputTree => Ascii("leanbun-project-input-tree-v1")
    case OutputTree => Ascii("leanbun-project-output-tree-v1")
  }

  function ParseStatus(u: seq<Unit16>): (r: Option<Status>)
    ensures forall s :: u == StatusWord(s) <==> r == Some(s)
  {
    assert Ascii("failed")[0] != Ascii("reused")[0];
    if u == Ascii("running") then Some(Running)
    else if u == Ascii("completed") then Some(Completed)
    else if u == Ascii("failed") then Some(Failed)
    else if u == Ascii("reused") then Some(Reused)
    else None
  }

  function ParseReason(u: seq<Unit16>): (r: Option<Reason>)
    ensures forall s :: u == ReasonWord(s) <==> r == Some(s)
  {
    if u == Ascii("exit") then Some(Exit)
    else if u == Ascii("timeout") then Some(Timeout)
    else if u == Ascii("signal") then Some(Signal)
    else None
  }

  function ParseTrigger(u: seq<Unit16>): (r: Option<Trigger>)
    ensures forall s :: u == TriggerWord(s) <==> r == Some(s)
  {
    if u == Ascii("SIGINT") then Some(Sigint)
    else if u == Ascii("SIGTERM") then Some(Sigterm)
    else if u == Ascii("ABORT") then Some(Abort)
    else None
  }

  function ParseStage(u: seq<Unit16>): (r: Option<Stage>)
    ensures forall s :: u == StageWord(s) <==> r == Some(s)
  {
    assert Ascii("recovery")[0] != Ascii("internal")[0];
    if u == Ascii("sandbox-execution") then Some(SandboxExecution)
    else if u == Ascii("post-build-verification") then Some(PostBuildVerification)
    else if u == Ascii("reuse-verification") then Some(ReuseVerification)
    else if u == Ascii("recovery") then Some(RecoveryStage)
    else if u == Ascii("internal") then Some(Internal)
    else None
  }

  // ---------- Digests and identifiers ----------

  predicate IsLowerHex(u: Unit16) { 0x30 <= u <= 0x39 || 0x61 <= u <= 0x66 }

  function Nibble(u: Unit16): (v: nat)
    requires IsLowerHex(u)
    ensures v < 16 && HexDigit(v) == u
  {
    if u <= 0x39 then u - 0x30 else u - 0x61 + 10
  }

  function Hex(s: seq<Byte>): (r: seq<Unit16>)
    ensures |r| == 2 * |s|
  {
    if s == [] then [] else [HexDigit(s[0] / 16), HexDigit(s[0] % 16)] + Hex(s[1..])
  }

  function ParseHex(u: seq<Unit16>): Option<seq<Byte>>
  {
    if u == [] then Some([])
    else if |u| == 1 || !IsLowerHex(u[0]) || !IsLowerHex(u[1]) then None
    else
      var rest := ParseHex(u[2..]);
      if rest.None? then None else Some([Octet(Nibble(u[0]) * 16 + Nibble(u[1]))] + rest.value)
  }

  lemma {:induction false} ParsesHex(s: seq<Byte>)
    ensures ParseHex(Hex(s)) == Some(s)
  {
    if s != [] {
      ParsesHex(s[1..]);
      assert Hex(s)[2..] == Hex(s[1..]);
      assert s == [s[0]] + s[1..];
    }
  }

  lemma {:induction false} ParsedIsHex(u: seq<Unit16>)
    requires ParseHex(u).Some?
    ensures u == Hex(ParseHex(u).value)
  {
    if u != [] {
      ParsedIsHex(u[2..]);
      var s := ParseHex(u).value;
      assert s[1..] == ParseHex(u[2..]).value;
      assert u == [u[0], u[1]] + u[2..];
    }
  }

  function ParseDigest(u: seq<Unit16>): (r: Option<Digest>)
    ensures forall d: Digest :: u == Hex(d) <==> r == Some(d)
  {
    var s := ParseHex(u);
    assert s.Some? ==> u == Hex(s.value) by { if s.Some? { ParsedIsHex(u); } }
    assert forall d: Digest :: u == Hex(d) ==> s == Some(d) by {
      forall d: Digest | u == Hex(d) ensures s == Some(d) { ParsesHex(d); }
    }
    if |u| != 64 || s.None? then None else Some(s.value)
  }

  // A lower-case UUID of version 4; its text is its value.
  predicate IsUuid(u: seq<Unit16>)
  {
    && |u| == 36
    && (forall i :: 0 <= i < 36 ==> if i == 8 || i == 13 || i == 18 || i == 23 then u[i] == 0x2D else IsLowerHex(u[i]))
    && u[14] == 0x34
    && (u[19] == 0x38 || u[19] == 0x39 || u[19] == 0x61 || u[19] == 0x62)
  }

  type Uuid = u: seq<Unit16> | IsUuid(u)
    witness [
      0x30, 0x30, 0x30, 0x30, 0x30, 0x30, 0x30, 0x30, 0x2D, 0x30, 0x30, 0x30, 0x30, 0x2D, 0x34, 0x30, 0x30, 0x30, 0x2D,
      0x38, 0x30, 0x30, 0x30, 0x2D, 0x30, 0x30, 0x30, 0x30, 0x30, 0x30, 0x30, 0x30, 0x30, 0x30, 0x30, 0x30]

  // ---------- Timestamps ----------

  // A decimal number of a fixed width, and the mark that follows it.
  datatype Piece = Piece(width: nat, mark: Unit16)

  // 1970-01-01T00:00:00.000Z
  const LAYOUT: seq<Piece> :=
    [Piece(4, 0x2D), Piece(2, 0x2D), Piece(2, 0x54), Piece(2, 0x3A), Piece(2, 0x3A), Piece(2, 0x2E), Piece(3, 0x5A)]

  function Pow10(width: nat): (r: nat)
    ensures r >= 1
  {
    if width == 0 then 1 else 10 * Pow10(width - 1)
  }

  function Decimal(n: nat, width: nat): (r: seq<Unit16>)
    ensures |r| == width
  {
    if width == 0 then [] else Decimal(n / 10, width - 1) + [0x30 + n % 10]
  }

  predicate AllDigits(u: seq<Unit16>) { forall i :: 0 <= i < |u| ==> 0x30 <= u[i] <= 0x39 }

  function FromDecimal(u: seq<Unit16>): (r: nat)
    requires AllDigits(u)
    ensures r < Pow10(|u|)
  {
    if u == [] then 0 else FromDecimal(u[..|u| - 1]) * 10 + (u[|u| - 1] - 0x30)
  }

  lemma {:induction false} DecimalReads(n: nat, width: nat)
    requires n < Pow10(width)
    ensures AllDigits(Decimal(n, width)) && FromDecimal(Decimal(n, width)) == n
  {
    if width > 0 {
      DecimalReads(n / 10, width - 1);
      assert Decimal(n, width)[..width - 1] == Decimal(n / 10, width - 1);
    }
  }

  lemma {:induction false} ReadIsDecimal(u: seq<Unit16>)
    requires AllDigits(u)
    ensures Decimal(FromDecimal(u), |u|) == u
  {
    if u != [] {
      ReadIsDecimal(u[..|u| - 1]);
      assert FromDecimal(u) / 10 == FromDecimal(u[..|u| - 1]);
    }
  }

  // The fields of a timestamp fit their widths.
  predicate FieldsFit(fields: seq<nat>, layout: seq<Piece>)
  {
    |fields| == |layout| && forall i :: 0 <= i < |fields| ==> fields[i] < Pow10(layout[i].width)
  }

  function Spelled(fields: seq<nat>, layout: seq<Piece>): seq<Unit16>
    requires |fields| == |layout|
  {
    if fields == [] then []
      else Decimal(fields[0], layout[0].width) + ([layout[0].mark] + Spelled(fields[1..], layout[1..]))
  }

  function ParseFields(u: seq<Unit16>, layout: seq<Piece>): Option<seq<nat>>
  {
    if layout == [] then if u == [] then Some([]) else None
    else
      var w := layout[0].width;
      if |u| <= w || !AllDigits(u[..w]) || u[w] != layout[0].mark then None
      else
        var rest := ParseFields(u[w + 1..], layout[1..]);
        if rest.None? then None else Some([FromDecimal(u[..w])] + rest.value)
  }

  lemma {:induction false} ParsesFields(fields: seq<nat>, layout: seq<Piece>)
    requires FieldsFit(fields, layout)
    ensures ParseFields(Spelled(fields, layout), layout) == Some(fields)
  {
    if fields != [] {
      var w := layout[0].width;
      var u := Spelled(fields, layout);
      var rest := Spelled(fields[1..], layout[1..]);
      ParsesFields(fields[1..], layout[1..]);
      DecimalReads(fields[0], w);
      assert u[..w] == Decimal(fields[0], w) && u[w] == layout[0].mark && u[w + 1..] == rest;
      assert fields == [fields[0]] + fields[1..];
      hide Decimal, FromDecimal, Pow10, Spelled;
    }
  }

  lemma {:induction false} ParsedIsSpelled(u: seq<Unit16>, layout: seq<Piece>)
    requires ParseFields(u, layout).Some?
    ensures FieldsFit(ParseFields(u, layout).value, layout) && u == Spelled(ParseFields(u, layout).value, layout)
  {
    if layout != [] {
      var w := layout[0].width;
      ParsedIsSpelled(u[w + 1..], layout[1..]);
      FirstField(u, layout, ParseFields(u[w + 1..], layout[1..]).value);
      hide FieldsFit, Spelled, FromDecimal;
    }
  }

  lemma FirstField(u: seq<Unit16>, layout: seq<Piece>, rest: seq<nat>)
    requires layout != [] && FieldsFit(rest, layout[1..])
    requires var w := layout[0].width;
      |u| > w && AllDigits(u[..w]) && u[w] == layout[0].mark && u[w + 1..] == Spelled(rest, layout[1..])
    ensures var fields := [FromDecimal(u[..layout[0].width])] + rest;
      FieldsFit(fields, layout) && u == Spelled(fields, layout)
  {
    var w := layout[0].width;
    var fields: seq<nat> := [FromDecimal(u[..w])] + rest;
    ReadIsDecimal(u[..w]);
    assert u == u[..w] + ([u[w]] + u[w + 1..]);
    assert fields[1..] == rest && fields != [];
    hide Decimal, FromDecimal, Pow10, AllDigits;
    forall i | 0 <= i < |fields| ensures fields[i] < Pow10(layout[i].width) {
      if i > 0 { assert fields[i] == rest[i - 1] && layout[i] == layout[1..][i - 1]; }
    }
  }

  // ---------- The calendar ----------

  predicate Leap(year: nat) { year % 4 == 0 && (year % 100 != 0 || year % 400 == 0) }

  function LastDay(year: nat, month: nat): (r: nat)
    ensures 28 <= r <= 31
  {
    if month == 2 then if Leap(year) then 29 else 28
    else if month == 4 || month == 6 || month == 9 || month == 11 then 30
    else 31
  }

  // Year, month, day, hour, minute, second and millisecond.
  predicate InCalendar(f: seq<nat>)
  {
    && |f| == 7
    && 1 <= f[0] <= 9999 && 1 <= f[1] <= 12 && 1 <= f[2] <= LastDay(f[0], f[1])
    && f[3] <= 23 && f[4] <= 59 && f[5] <= 59 && f[6] <= 999
  }

  type Moment = f: seq<nat> | InCalendar(f) witness [1970, 1, 1, 0, 0, 0, 0]

  lemma MomentsFit(m: Moment)
    ensures FieldsFit(m, LAYOUT)
  {
    assert Pow10(2) == 100 && Pow10(3) == 1000 && Pow10(4) == 10_000;
  }

  function MomentText(m: Moment): seq<Unit16> { Spelled(m, LAYOUT) }

  function ParseMoment(u: seq<Unit16>): (r: Option<Moment>)
    ensures forall m: Moment :: u == MomentText(m) <==> r == Some(m)
  {
    var f := ParseFields(u, LAYOUT);
    assert f.Some? ==> |f.value| == 7 && u == Spelled(f.value, LAYOUT) by { if f.Some? { ParsedIsSpelled(u, LAYOUT); } }
    assert forall m: Moment :: u == MomentText(m) ==> f == Some(m) by {
      forall m: Moment | u == MomentText(m) ensures f == Some(m) { MomentsFit(m); ParsesFields(m, LAYOUT); }
    }
    if f.Some? && InCalendar(f.value) then Some(f.value) else None
  }

  // Digits of one width compare as their numbers.
  lemma {:induction false} DecimalOrder(a: nat, b: nat, width: nat, x: seq<Unit16>, y: seq<Unit16>)
    requires a < Pow10(width) && b < Pow10(width)
    ensures TextLess(Decimal(a, width) + x, Decimal(b, width) + y) <==> a < b || (a == b && TextLess(x, y))
  {
    if width == 0 {
      assert Decimal(a, 0) + x == x && Decimal(b, 0) + y == y;
    } else {
      var p, q := [0x30 + a % 10] + x, [0x30 + b % 10] + y;
      DecimalOrder(a / 10, b / 10, width - 1, p, q);
      assert Decimal(a, width) + x == Decimal(a / 10, width - 1) + p;
      assert Decimal(b, width) + y == Decimal(b / 10, width - 1) + q;
      assert p[1..] == x && q[1..] == y;
    }
  }

  lemma {:induction false} SpelledOrder(a: seq<nat>, b: seq<nat>, layout: seq<Piece>)
    requires FieldsFit(a, layout) && FieldsFit(b, layout)
    ensures TextLess(Spelled(a, layout), Spelled(b, layout)) <==> TextLess(a, b)
  {
    if a != [] {
      var p, q := [layout[0].mark] + Spelled(a[1..], layout[1..]), [layout[0].mark] + Spelled(b[1..], layout[1..]);
      SpelledOrder(a[1..], b[1..], layout[1..]);
      DecimalOrder(a[0], b[0], layout[0].width, p, q);
      assert p[1..] == Spelled(a[1..], layout[1..]) && q[1..] == Spelled(b[1..], layout[1..]);
    }
  }

  // ---------- The clock ----------

  function DaysBeforeMonth(year: nat, month: nat): nat
  {
    if month <= 1 then 0 else DaysBeforeMonth(year, month - 1) + LastDay(year, month - 1)
  }

  function DaysBeforeYear(year: nat): nat
  {
    if year == 0 then 0 else DaysBeforeYear(year - 1) + DaysBeforeMonth(year - 1, 13)
  }

  function Days(m: Moment): nat { DaysBeforeYear(m[0]) + DaysBeforeMonth(m[0], m[1]) + (m[2] - 1) }

  // Milliseconds since the beginning of the year 0.
  function Instant(m: Moment): nat { (((Days(m) * 24 + m[3]) * 60 + m[4]) * 60 + m[5]) * 1000 + m[6] }

  lemma {:induction false} LaterMonth(year: nat, month: nat, later: nat)
    requires 1 <= month < later
    ensures DaysBeforeMonth(year, month) + LastDay(year, month) <= DaysBeforeMonth(year, later)
  {
    if month + 1 < later { LaterMonth(year, month, later - 1); }
  }

  lemma {:induction false} LaterYear(year: nat, later: nat)
    requires year < later
    ensures DaysBeforeYear(year) + DaysBeforeMonth(year, 13) <= DaysBeforeYear(later)
  {
    if year + 1 < later { LaterYear(year, later - 1); }
  }

  lemma LaterDays(a: Moment, b: Moment)
    requires a[0] < b[0] || (a[0] == b[0] && (a[1] < b[1] || (a[1] == b[1] && a[2] < b[2])))
    ensures Days(a) < Days(b)
  {
    hide DaysBeforeMonth, DaysBeforeYear, LastDay;
    if a[0] < b[0] {
      LaterMonth(a[0], a[1], 13);
      LaterYear(a[0], b[0]);
    } else if a[1] < b[1] {
      LaterMonth(a[0], a[1], b[1]);
    }
  }

  predicate SameDay(a: Moment, b: Moment) { a[0] == b[0] && a[1] == b[1] && a[2] == b[2] }

  lemma LaterInstant(a: Moment, b: Moment)
    requires TextLess(a, b)
    ensures Instant(a) < Instant(b)
  {
    FieldOrder(a, b);
    if !SameDay(a, b) { LaterDays(a, b); }
    hide Days, TextLess;
  }

  lemma FieldOrder(a: Moment, b: Moment)
    requires TextLess(a, b)
    ensures !SameDay(a, b) ==> a[0] < b[0] || (a[0] == b[0] && (a[1] < b[1] || (a[1] == b[1] && a[2] < b[2])))
    ensures SameDay(a, b) ==>
      a[3] < b[3] || (a[3] == b[3] && (a[4] < b[4] || (a[4] == b[4] && (a[5] < b[5] || (a[5] == b[5] && a[6] < b[6])))))
  {
    assert a[0..] == a && b[0..] == b && a[7..] == [] && b[7..] == [];
    hide TextLess;
    assert !TextLess(a[7..], b[7..]) by { TextOrder([], []); }
    forall i | 0 <= i < 7 ensures LessAt(a, b, i) { LessFrom(a, b, i); }
    assert LessAt(a, b, 0) && LessAt(a, b, 1) && LessAt(a, b, 2) && LessAt(a, b, 3) && LessAt(a, b, 4)
      && LessAt(a, b, 5) && LessAt(a, b, 6);
  }

  // The order from one field on, by that field and the next ones.
  predicate LessAt(a: Moment, b: Moment, i: nat)
    requires i < 7
  {
    TextLess(a[i..], b[i..]) <==> a[i] < b[i] || (a[i] == b[i] && TextLess(a[i + 1..], b[i + 1..]))
  }

  lemma LessFrom(a: Moment, b: Moment, i: nat)
    requires i < 7
    ensures LessAt(a, b, i)
  {
    assert a[i..][1..] == a[i + 1..] && b[i..][1..] == b[i + 1..];
  }

  // Comparing timestamps as texts compares the clock.
  lemma TextOrderIsClockOrder(a: Moment, b: Moment)
    ensures TextLess(MomentText(a), MomentText(b)) <==> Instant(a) < Instant(b)
  {
    MomentsFit(a);
    MomentsFit(b);
    SpelledOrder(a, b, LAYOUT);
    TextOrder(a, b);
    hide Spelled, TextLess, Instant, LAYOUT, FieldsFit;
    if TextLess(a, b) { LaterInstant(a, b); }
    if TextLess(b, a) { LaterInstant(b, a); }
  }

  // ---------- Strings ----------

  predicate High(u: Unit16) { 0xD800 <= u < 0xDC00 }
  predicate Low(u: Unit16) { 0xDC00 <= u < 0xE000 }

  // Surrogates only in pairs; the JSON reader refuses any other string.
  predicate Paired(m: seq<Unit16>)
  {
    forall i :: 0 <= i < |m| ==> PairedAt(m, i)
  }

  predicate PairedAt(m: seq<Unit16>, i: nat)
    requires i < |m|
  {
    && (High(m[i]) ==> i + 1 < |m| && Low(m[i + 1]))
    && (Low(m[i]) ==> 0 < i && High(m[i - 1]))
  }

  // Bytes in UTF-8, where a pair takes four.
  function Utf8Size(u: seq<Unit16>): (r: nat)
    ensures r <= 3 * |u|
  {
    if u == [] then 0
    else (if u[0] < 0x80 then 1 else if u[0] < 0x800 || High(u[0]) || Low(u[0]) then 2 else 3) + Utf8Size(u[1..])
  }

  // ---------- Targets and paths ----------

  const MAX_TARGET_UNITS := 256
  const MAX_TARGET_BYTES := 1_024
  const MAX_PATH_BYTES := 4_096

  const SLASH: Unit16 := 0x2F
  const DOT: Unit16 := 0x2E
  const DASH: Unit16 := 0x2D

  predicate ValidTarget(u: seq<Unit16>)
  {
    && 0 < |u| <= MAX_TARGET_UNITS && u[0] != DASH
    && (forall i :: 0 <= i < |u| - 1 ==> u[i] != DOT || u[i + 1] != DOT)
    && (forall i :: 0 <= i < |u| ==> u[i] >= 0x20 && u[i] != 0x7F)
  }

  predicate NoControl(u: seq<Unit16>) { forall i :: 0 <= i < |u| ==> 0x20 <= u[i] < 0x7F || u[i] > 0x9F }

  predicate NoDoubleSlash(u: seq<Unit16>) { forall i :: 0 <= i < |u| - 1 ==> u[i] != SLASH || u[i + 1] != SLASH }

  // The components between slashes.
  function Split(u: seq<Unit16>): (r: seq<seq<Unit16>>)
    ensures |r| >= 1
  {
    if u == [] then [[]]
    else
      var rest := Split(u[1..]);
      if u[0] == SLASH then [[]] + rest else [[u[0]] + rest[0]] + rest[1..]
  }

  predicate ComponentOk(c: seq<Unit16>) { c != [] && c != [DOT] && c != [DOT, DOT] }

  predicate CanonicalPath(u: seq<Unit16>)
  {
    || u == [SLASH]
    || (
      && u != [] && u[0] == SLASH && u[|u| - 1] != SLASH && NoDoubleSlash(u) && NoControl(u)
      && forall c :: c in Split(u)[1..] ==> ComponentOk(c))
  }

  // What resolving a directory yields: the names on the way to it.
  predicate ResolvedName(n: seq<Unit16>) { SLASH !in n && ComponentOk(n) }

  predicate ResolvedNames(names: seq<seq<Unit16>>) { forall n :: n in names ==> ResolvedName(n) }

  function Joined(names: seq<seq<Unit16>>): seq<Unit16>
  {
    if names == [] then [] else [SLASH] + (names[0] + Joined(names[1..]))
  }

  function PathOf(names: seq<seq<Unit16>>): seq<Unit16> { if names == [] then [SLASH] else Joined(names) }

  lemma {:induction false} SplitName(n: seq<Unit16>, x: seq<Unit16>)
    requires SLASH !in n
    ensures Split(n + x) == [n + Split(x)[0]] + Split(x)[1..]
  {
    if n == [] {
      assert n + x == x && n + Split(x)[0] == Split(x)[0];
    } else {
      assert (n + x)[1..] == n[1..] + x;
      SplitName(n[1..], x);
      assert [n[0]] + (n[1..] + Split(x)[0]) == n + Split(x)[0];
    }
  }

  lemma {:induction false} SplitJoined(names: seq<seq<Unit16>>)
    requires ResolvedNames(names)
    ensures Split(Joined(names)) == [[]] + names
  {
    if names != [] {
      var x := Joined(names[1..]);
      assert names[0] in names;
      SplitJoined(names[1..]);
      SplitName(names[0], x);
      assert Joined(names)[1..] == names[0] + x;
      assert names == [names[0]] + names[1..] && names[0] + [] == names[0];
    }
  }

  // Components that are not empty leave no double and no last slash.
  lemma {:induction false} SlashesApart(u: seq<Unit16>)
    requires forall c :: c in Split(u)[1..] ==> c != []
    ensures NoDoubleSlash(u) && (u != [] ==> u[|u| - 1] != SLASH)
  {
    if u != [] {
      var rest := Split(u[1..]);
      assert u[0] == SLASH ==> Split(u)[1..] == rest && rest[0] in rest;
      assert u[0] != SLASH ==> Split(u)[1..] == rest[1..];
      assert forall c :: c in rest[1..] ==> c in rest;
      SlashesApart(u[1..]);
      assert u == [u[0]] + u[1..];
    }
  }

  // A resolved path is canonical to the reader exactly when no name on it holds a control
  // character.
  lemma ResolvedIsCanonical(names: seq<seq<Unit16>>)
    requires ResolvedNames(names)
    ensures CanonicalPath(PathOf(names)) <==> NoControl(PathOf(names))
  {
    if names != [] {
      var u := PathOf(names);
      SplitJoined(names);
      assert Split(u)[1..] == names;
      SlashesApart(u);
    }
  }
}
